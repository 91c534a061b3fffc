/**
 Pointing a recorded session ("rollout") at another model provider, line by line.

 JSON text is handled by a codec given as a parameter; the rollout's own line structure is not.
 */
module Rollout {
  import opened Wrappers
  import Text

  datatype Json =
    | Null
    | Bool(b: bool)
    | Number(text: string)
    | String(s: string)
    | Array(items: seq<Json>)
    | Object(fields: map<string, Json>)

  datatype Codec = Codec(parse: string -> Option<Json>, render: Json -> string)

  /**
   What the program relies on: compact output parses back, and an object is one `{...}` line. Such
   codecs exist: JSON values can be numbered, and each object written as its number between braces.
   */
  ghost predicate Faithful(codec: Codec) {
    forall v: Json :: v.Object? ==>
      var text := codec.render(v);
      && codec.parse(text) == Some(v)
      && '\n' !in text
      && |text| >= 2 && text[0] == '{' && text[|text| - 1] == '}'
  }

  // ----- one line -----

  function StripReturns(line: string): (text: string)
    ensures text <= line
    ensures text == [] || text[|text| - 1] != '\r'
    ensures forall i :: |text| <= i < |line| ==> line[i] == '\r'
  {
    if line == [] || line[|line| - 1] != '\r' then line else StripReturns(line[..|line| - 1])
  }

  predicate HasPayload(value: Json) {
    value.Object? && "payload" in value.fields && value.fields["payload"].Object?
  }

  /** The line's JSON value when it is a `session_meta` record with an object payload. */
  function SessionMeta(codec: Codec, line: string): (r: Option<Json>)
    ensures r.Some? ==> HasPayload(r.value)
  {
    var text := StripReturns(line);
    if Text.Trim(text) == [] then None
    else
      match codec.parse(text)
      case Some(Object(fields)) =>
        if "type" in fields && fields["type"] == String("session_meta")
           && "payload" in fields && fields["payload"].Object?
        then Some(Object(fields)) else None
      case _ => None
  }

  function Provider(meta: Json): Option<Json>
    requires HasPayload(meta)
  {
    var payload := meta.fields["payload"].fields;
    if "model_provider" in payload then Some(payload["model_provider"]) else None
  }

  function WithProvider(meta: Json, target: string): Json
    requires HasPayload(meta)
  {
    var payload := meta.fields["payload"].fields["model_provider" := String(target)];
    Object(meta.fields["payload" := Object(payload)])
  }

  /** The patched line, or nothing when the line stays as it is. */
  function PatchLine(codec: Codec, line: string, target: string): Option<string> {
    match SessionMeta(codec, line)
    case Some(meta) =>
      if Provider(meta) == Some(String(target)) then None
      else Some(codec.render(WithProvider(meta, target)) + line[|StripReturns(line)|..])
    case None => None
  }

  // ----- the file -----

  /** `split_inclusive('\n')`. */
  function FirstLine(content: string): (n: nat)
    requires content != []
    ensures 1 <= n <= |content|
    ensures forall i :: 0 <= i < n - 1 ==> content[i] != '\n'
    ensures n < |content| ==> content[n - 1] == '\n'
  {
    if content[0] == '\n' || |content| == 1 then 1 else 1 + FirstLine(content[1..])
  }

  function Segments(content: string): seq<string>
    decreases |content|
  {
    if content == [] then [] else [content[..FirstLine(content)]] + Segments(content[FirstLine(content)..])
  }

  /** The part of a segment before its newline, and the newline if there is one. */
  function Line(segment: string): string {
    if segment != [] && segment[|segment| - 1] == '\n' then segment[..|segment| - 1] else segment
  }

  function Terminator(segment: string): string {
    if segment != [] && segment[|segment| - 1] == '\n' then "\n" else ""
  }

  function PatchSegment(codec: Codec, segment: string, target: string): string {
    match PatchLine(codec, Line(segment), target)
    case Some(patched) => patched + Terminator(segment)
    case None => segment
  }

  function PatchSegments(codec: Codec, segments: seq<string>, target: string): (r: seq<string>)
    ensures |r| == |segments|
    ensures forall i :: 0 <= i < |r| ==> r[i] == PatchSegment(codec, segments[i], target)
  {
    if segments == [] then []
    else PatchSegments(codec, segments[..|segments| - 1], target)
         + [PatchSegment(codec, segments[|segments| - 1], target)]
  }

  function Join(segments: seq<string>): string {
    if segments == [] then [] else Join(segments[..|segments| - 1]) + segments[|segments| - 1]
  }

  ghost predicate NeedsPatch(codec: Codec, content: string, target: string) {
    exists i :: 0 <= i < |Segments(content)| && PatchLine(codec, Line(Segments(content)[i]), target).Some?
  }

  method PatchRolloutProvider(codec: Codec, content: string, target: string) returns (r: Option<string>)
    ensures r.Some? <==> NeedsPatch(codec, content, target)
    ensures r.Some? ==> r.value == Join(PatchSegments(codec, Segments(content), target))
  {
    var changed, output := false, "";
    var segments := Segments(content);
    hide Segments, PatchLine, Terminator, Line, PatchSegments;
    PatchSegmentsNone(codec, target);
    for i := 0 to |segments|
      invariant output == Join(PatchSegments(codec, segments[..i], target))
      invariant changed <==> exists k :: 0 <= k < i && PatchLine(codec, Line(segments[k]), target).Some?
    {
      var segment := segments[i];
      PatchSegmentsSnoc(codec, segments[..i], segment, target);
      assert segments[..i + 1] == segments[..i] + [segment];
      var patched := PatchLine(codec, Line(segment), target);
      if patched.Some? {
        output := output + (patched.value + Terminator(segment));
        changed := true;
      } else {
        output := output + segment;
      }
    }
    assert segments[..|segments|] == segments;
    NothingInEmpty(codec, content, target);
    return if content != [] && changed then Some(output) else None;
  }

  lemma PatchSegmentsNone(codec: Codec, target: string)
    ensures Join(PatchSegments(codec, [], target)) == ""
  {
  }

  lemma PatchSegmentsSnoc(codec: Codec, segments: seq<string>, segment: string, target: string)
    ensures Join(PatchSegments(codec, segments + [segment], target))
         == Join(PatchSegments(codec, segments, target)) + PatchSegment(codec, segment, target)
  {
    assert (segments + [segment])[..|segments|] == segments;
    var patched := PatchSegments(codec, segments, target);
    assert (patched + [PatchSegment(codec, segment, target)])[..|patched|] == patched;
  }

  lemma NothingInEmpty(codec: Codec, content: string, target: string)
    ensures content == [] ==> !NeedsPatch(codec, content, target)
  {
  }

  // ----- what a patch keeps and what it makes true -----

  /** A segment as `split_inclusive` produces them: a newline at the end at most. */
  predicate WellSplit(segments: seq<string>) {
    && (forall i :: 0 <= i < |segments| ==> segments[i] != [])
    && (forall i :: 0 <= i < |segments| ==> '\n' !in Line(segments[i]))
    && (forall i :: 0 <= i < |segments| - 1 ==> Terminator(segments[i]) == "\n")
  }

  lemma {:induction false} SegmentsAreWellSplit(content: string)
    ensures WellSplit(Segments(content))
    decreases |content|
  {
    if content != [] {
      var n := FirstLine(content);
      SegmentsAreWellSplit(content[n..]);
      var first, rest := content[..n], Segments(content[n..]);
      assert '\n' !in Line(first);
      assert Segments(content) == [first] + rest;
      forall i | 0 <= i < |rest| ensures ([first] + rest)[i + 1] == rest[i] {}
    }
  }

  lemma {:induction false} SegmentsOfSegment(first: string, rest: string)
    requires first != [] && '\n' !in Line(first)
    requires rest == [] || Terminator(first) == "\n"
    ensures Segments(first + rest) == [first] + Segments(rest)
  {
    var n := FirstLine(first + rest);
    assert (first + rest)[..|first|] == first && (first + rest)[|first|..] == rest;
    assert forall i :: 0 <= i < |first| - 1 ==> (first + rest)[i] == Line(first)[i];
    assert (first + rest)[|first| - 1] == first[|first| - 1];
  }

  lemma {:induction false} JoinFirst(segments: seq<string>)
    requires segments != []
    ensures Join(segments) == segments[0] + Join(segments[1..])
  {
    if |segments| > 1 {
      JoinFirst(segments[..|segments| - 1]);
      assert segments[..|segments| - 1][1..] == segments[1..][..|segments| - 2];
    }
  }

  lemma {:induction false} SplitJoined(segments: seq<string>)
    requires WellSplit(segments)
    ensures Segments(Join(segments)) == segments
  {
    if segments != [] {
      JoinFirst(segments);
      SplitJoined(segments[1..]);
      if |segments| == 1 {
        assert Join(segments[1..]) == [];
      }
      SegmentsOfSegment(segments[0], Join(segments[1..]));
    }
  }

  /** Everything a patched line keeps and gains. */
  lemma PatchedLine(codec: Codec, line: string, target: string)
    requires Faithful(codec) && '\n' !in line
    requires PatchLine(codec, line, target).Some?
    ensures var patched := PatchLine(codec, line, target).value;
            && patched != [] && '\n' !in patched
            && patched[|StripReturns(patched)|..] == line[|StripReturns(line)|..]
            && SessionMeta(codec, patched) == Some(WithProvider(SessionMeta(codec, line).value, target))
            && PatchLine(codec, patched, target).None?
  {
    var meta := SessionMeta(codec, line).value;
    var text := codec.render(WithProvider(meta, target));
    var suffix := line[|StripReturns(line)|..];
    assert codec.parse(text) == Some(WithProvider(meta, target));
    StripAppended(text, suffix);
    TrimKeepsBraces(text);
  }

  lemma {:induction false} StripAppended(text: string, suffix: string)
    requires text == [] || text[|text| - 1] != '\r'
    requires forall i :: 0 <= i < |suffix| ==> suffix[i] == '\r'
    ensures StripReturns(text + suffix) == text
    decreases |suffix|
  {
    if suffix == [] {
      assert text + suffix == text;
    } else {
      assert (text + suffix)[..|text + suffix| - 1] == text + suffix[..|suffix| - 1];
      StripAppended(text, suffix[..|suffix| - 1]);
    }
  }

  lemma TrimKeepsBraces(text: string)
    requires |text| >= 2 && text[0] == '{' && text[|text| - 1] == '}'
    ensures Text.Trim(text) == text
  {
  }

  /** Carriage returns and newline at the end of a segment. */
  function Ending(segment: string): string {
    Line(segment)[|StripReturns(Line(segment))|..] + Terminator(segment)
  }

  /** `after` is `before` with nothing changed but the provider of a `session_meta` record. */
  predicate OnlyProviderChanged(codec: Codec, before: string, after: string, target: string) {
    && Terminator(after) == Terminator(before) && Ending(after) == Ending(before)
    && match SessionMeta(codec, Line(before))
       case None => after == before
       case Some(meta) =>
         && SessionMeta(codec, Line(after)) == Some(WithProvider(meta, target))
         && Provider(WithProvider(meta, target)) == Some(String(target))
         && (Provider(meta) == Some(String(target)) ==> after == before)
  }

  lemma PatchedSegment(codec: Codec, segment: string, target: string)
    requires Faithful(codec) && segment != [] && '\n' !in Line(segment)
    ensures var patched := PatchSegment(codec, segment, target);
            && patched != [] && '\n' !in Line(patched)
            && OnlyProviderChanged(codec, segment, patched, target)
            && PatchLine(codec, Line(patched), target).None?
  {
    var line := Line(segment);
    if PatchLine(codec, line, target).Some? {
      PatchedLine(codec, line, target);
      var patched := PatchLine(codec, line, target).value;
      assert patched + "" == patched;
      assert Line(patched + Terminator(segment)) == patched;
    } else if SessionMeta(codec, line).Some? {
      SameProvider(SessionMeta(codec, line).value, target);
    }
  }

  lemma SameProvider(meta: Json, target: string)
    requires HasPayload(meta)
    requires Provider(meta) == Some(String(target))
    ensures WithProvider(meta, target) == meta
  {
    var payload := meta.fields["payload"].fields;
    assert payload["model_provider" := String(target)] == payload;
    assert meta.fields["payload" := Object(payload)] == meta.fields;
  }

  /**
   A patched rollout has the same lines with the same terminators; only `session_meta` lines with
   an object payload differ, in nothing but their provider, which is now the target; and patching
   the result again reports no change.
   */
  lemma PatchedRollout(codec: Codec, content: string, target: string)
    requires Faithful(codec)
    ensures var before := Segments(content);
            var patched := Join(PatchSegments(codec, before, target));
            && |Segments(patched)| == |before|
            && (forall i :: 0 <= i < |before| ==> OnlyProviderChanged(codec, before[i], Segments(patched)[i], target))
            && !NeedsPatch(codec, patched, target)
  {
    hide Segments, Line, Terminator, PatchSegments, Join, SessionMeta, PatchLine, OnlyProviderChanged;
    var before := Segments(content);
    SegmentsAreWellSplit(content);
    var after := PatchSegments(codec, before, target);
    forall i | 0 <= i < |before|
      ensures after[i] != [] && '\n' !in Line(after[i]) && Terminator(after[i]) == Terminator(before[i])
      ensures OnlyProviderChanged(codec, before[i], after[i], target)
      ensures PatchLine(codec, Line(after[i]), target).None?
    {
      PatchedSegment(codec, before[i], target);
      SameTerminator(codec, before[i], after[i], target);
    }
    SplitJoined(after);
  }

  lemma SameTerminator(codec: Codec, before: string, after: string, target: string)
    requires OnlyProviderChanged(codec, before, after, target)
    ensures Terminator(after) == Terminator(before)
  {
  }

  // ----- which lines are patched, and to what -----

  /** The text is a JSON object of type `session_meta` with an object as its payload. */
  ghost predicate IsRecord(codec: Codec, text: string) {
    && Text.Trim(text) != [] && codec.parse(text).Some? && codec.parse(text).value.Object?
    && var fields := codec.parse(text).value.fields;
       && "type" in fields && fields["type"] == String("session_meta")
       && "payload" in fields && fields["payload"].Object?
  }

  /** The record's payload with its provider set to the target, and nothing else changed. */
  ghost function Retargeted(codec: Codec, text: string, target: string): Json
    requires IsRecord(codec, text)
  {
    var fields := codec.parse(text).value.fields;
    Object(fields["payload" := Object(fields["payload"].fields["model_provider" := String(target)])])
  }

  /**
   A line ends in any number of carriage returns and perhaps a newline. What stands before them is
   rewritten exactly if it is a record that does not name the target yet; then the endings stay.
   */
  lemma SegmentExactly(codec: Codec, text: string, ends: string, newline: string, target: string)
    requires text + ends + newline != [] && '\n' !in text && (newline == "" || newline == "\n")
    requires text == [] || text[|text| - 1] != '\r'
    requires forall i :: 0 <= i < |ends| ==> ends[i] == '\r'
    ensures PatchSegment(codec, text + ends + newline, target)
            == if IsRecord(codec, text) && codec.parse(text).value != Retargeted(codec, text, target)
               then codec.render(Retargeted(codec, text, target)) + ends + newline
               else text + ends + newline
  {
    hide Text.Trim, IsRecord, Retargeted, SessionMeta, WithProvider, Provider;
    var line := text + ends;
    EndOf(line, newline);
    StripAppended(text, ends);
    assert line[|text|..] == ends;
    hide Line, Terminator, StripReturns;
    RecordIs(codec, line, text, target);
  }

  /** The record a line holds, and whether it is rewritten, by the text before its carriage returns. */
  lemma RecordIs(codec: Codec, line: string, text: string, target: string)
    requires StripReturns(line) == text
    ensures SessionMeta(codec, line).Some? <==> IsRecord(codec, text)
    ensures IsRecord(codec, text) ==>
              && SessionMeta(codec, line) == codec.parse(text)
              && WithProvider(codec.parse(text).value, target) == Retargeted(codec, text, target)
              && (Provider(codec.parse(text).value) == Some(String(target))
                  <==> codec.parse(text).value == Retargeted(codec, text, target))
  {
    hide Text.Trim, StripReturns;
    if IsRecord(codec, text) {
      SameExactly(codec.parse(text).value, target);
    }
  }

  lemma EndOf(line: string, newline: string)
    requires line + newline != [] && '\n' !in line && (newline == "" || newline == "\n")
    ensures Line(line + newline) == line && Terminator(line + newline) == newline
  {
    if newline == "" {
      assert line + newline == line;
      assert line[|line| - 1] in line;
    } else {
      assert (line + newline)[..|line + newline| - 1] == line;
    }
  }

  lemma SameExactly(meta: Json, target: string)
    requires HasPayload(meta)
    ensures WithProvider(meta, target) == meta <==> Provider(meta) == Some(String(target))
  {
    var payload := meta.fields["payload"].fields;
    if Provider(meta) == Some(String(target)) {
      SameProvider(meta, target);
    } else {
      assert Provider(WithProvider(meta, target)) == Some(String(target));
    }
  }
}
