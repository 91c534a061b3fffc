/** The model ids a caller asks for: normalised, checked, and each asked for once. */
module ModelIds {
  import opened Text
  import opened Wrappers

  const MAX_MODEL_ID_BYTES: nat := 200

  function Utf8Length(s: string): nat {
    if s == [] then 0
    else
      var c := s[0] as int;
      (if c < 0x80 then 1 else if c < 0x800 then 2 else if c < 0x1_0000 then 3 else 4) + Utf8Length(s[1..])
  }

  predicate IsControl(c: char) {
    c as int <= 0x1F || 0x7F <= c as int <= 0x9F
  }

  function NormalizeModelId(raw: string, gemini: bool): Option<string> {
    var trimmed := Trim(raw);
    var value := if gemini && "models/" <= trimmed then trimmed[7..] else trimmed;
    if value == [] || Utf8Length(value) > MAX_MODEL_ID_BYTES || exists c :: c in value && (IsControl(c) || IsSpace(c))
    then None else Some(value)
  }

  /** The length of the UTF-8 encoding, character by character. */
  lemma {:induction false} Utf8LengthSnoc(s: string, c: char)
    ensures Utf8Length([]) == 0
    ensures Utf8Length(s + [c]) - Utf8Length(s)
            == if c <= '\U{7F}' then 1 else if c <= '\U{7FF}' then 2 else if c <= '\U{FFFF}' then 3 else 4
  {
    if s == [] {
      assert s + [c] == [c] && [c][1..] == [];
    } else {
      assert (s + [c])[1..] == s[1..] + [c];
      Utf8LengthSnoc(s[1..], c);
    }
  }

  /**
   The trimmed text, for Gemini without a leading "models/", is a model id exactly if it is neither
   empty nor longer than 200 bytes and has no white space and no control character in it.
   */
  lemma NormalizedExactly(raw: string, gemini: bool, id: string)
    ensures NormalizeModelId(raw, gemini) == Some(id) <==>
              && (if gemini && |Trim(raw)| >= 7 && Trim(raw)[..7] == "models/" then Trim(raw) == "models/" + id
                  else Trim(raw) == id)
              && |id| > 0 && Utf8Length(id) <= 200
              && forall i :: 0 <= i < |id| ==>
                   !IsSpace(id[i]) && ' ' <= id[i] && !('\U{7F}' <= id[i] <= '\U{9F}')
  {
    hide Trim, IsSpace;
    var trimmed := Trim(raw);
    assert (exists c :: c in id && (IsControl(c) || IsSpace(c)))
        <==> exists i :: 0 <= i < |id| && (IsControl(id[i]) || IsSpace(id[i]));
    if gemini && |trimmed| >= 7 && trimmed[..7] == "models/" {
      assert trimmed == "models/" + trimmed[7..];
      assert trimmed == "models/" + id ==> id == trimmed[7..];
    }
  }

  /** The distinct valid ids in order of first mention; one invalid id fails the whole request. */
  function Requested(raw: seq<string>, gemini: bool): Result<seq<string>> {
    if raw == [] then Ok([])
    else
      match Requested(raw[..|raw| - 1], gemini)
      case Err => Err
      case Ok(before) =>
        match NormalizeModelId(raw[|raw| - 1], gemini)
        case None => Err
        case Some(id) => Ok(if Mentions(before, id) then before else before + [id])
  }

  predicate Mentions(ids: seq<string>, id: string) {
    exists other :: other in ids && EqualFold(other, id)
  }

  predicate Distinct(ids: seq<string>) {
    forall i, j :: 0 <= i < j < |ids| ==> !EqualFold(ids[i], ids[j])
  }

  lemma {:induction false} RequestedIsDistinct(raw: seq<string>, gemini: bool)
    requires Requested(raw, gemini).Ok?
    ensures Distinct(Requested(raw, gemini).value)
  {
    hide NormalizeModelId, Lower;
    if raw != [] {
      RequestedIsDistinct(raw[..|raw| - 1], gemini);
      var before := Requested(raw[..|raw| - 1], gemini).value;
      assert forall i :: 0 <= i < |before| ==> before[i] in before;
    }
  }

  /** The request is refused exactly for an invalid id. */
  lemma {:induction false} RefusedExactly(raw: seq<string>, gemini: bool)
    ensures Requested(raw, gemini).Ok? <==> forall i :: 0 <= i < |raw| ==> NormalizeModelId(raw[i], gemini).Some?
  {
    hide NormalizeModelId, Mentions;
    if raw != [] {
      RefusedExactly(raw[..|raw| - 1], gemini);
    }
  }

  /** Every raw id, normalised, is mentioned in the result. */
  lemma {:induction false} EveryIdIsMentioned(raw: seq<string>, gemini: bool, i: nat)
    requires Requested(raw, gemini).Ok? && i < |raw|
    ensures NormalizeModelId(raw[i], gemini).Some?
    ensures Mentions(Requested(raw, gemini).value, NormalizeModelId(raw[i], gemini).value)
  {
    hide NormalizeModelId, Mentions;
    var before, id := Requested(raw[..|raw| - 1], gemini).value, NormalizeModelId(raw[|raw| - 1], gemini).value;
    if i < |raw| - 1 {
      EveryIdIsMentioned(raw[..|raw| - 1], gemini, i);
      MentionsMore(before, id, NormalizeModelId(raw[i], gemini).value);
    } else {
      MentionsMore(before, id, id);
    }
  }

  /** And there is nothing else in it. */
  lemma {:induction false} OnlyRawIds(raw: seq<string>, gemini: bool, id: string)
    requires Requested(raw, gemini).Ok? && id in Requested(raw, gemini).value
    ensures exists i :: 0 <= i < |raw| && NormalizeModelId(raw[i], gemini) == Some(id)
  {
    hide NormalizeModelId, Mentions;
    var last := |raw| - 1;
    if id in Requested(raw[..last], gemini).value {
      OnlyRawIds(raw[..last], gemini, id);
      var i :| 0 <= i < last && NormalizeModelId(raw[..last][i], gemini) == Some(id);
      assert raw[..last][i] == raw[i];
    } else {
      assert NormalizeModelId(raw[last], gemini) == Some(id);
    }
  }

  lemma MentionsMore(ids: seq<string>, id: string, other: string)
    ensures Mentions(ids + [id], id)
    ensures Mentions(ids, other) ==> Mentions(ids + [id], other)
  {
    hide Lower;
    assert (ids + [id])[|ids|] == id;
    assert id in ids + [id] && EqualFold(id, id);
  }

  lemma {:induction false} RequestedFailsEarly(raw: seq<string>, gemini: bool, i: nat)
    requires i <= |raw| && Requested(raw[..i], gemini).Err?
    ensures Requested(raw, gemini).Err?
    decreases |raw| - i
  {
    if i == |raw| {
      assert raw[..i] == raw;
    } else {
      assert raw[..i + 1][..i] == raw[..i];
      RequestedFailsEarly(raw, gemini, i + 1);
    }
  }

  lemma AllIdsAreRequested(raw: seq<string>, gemini: bool)
    ensures Requested(raw, gemini).Ok? <==> forall i :: 0 <= i < |raw| ==> NormalizeModelId(raw[i], gemini).Some?
    ensures Requested(raw, gemini).Ok? ==>
              var ids := Requested(raw, gemini).value;
              && Distinct(ids) && (forall i :: 0 <= i < |raw| ==> Mentions(ids, NormalizeModelId(raw[i], gemini).value))
              && (forall id :: id in ids ==> exists i :: 0 <= i < |raw| && NormalizeModelId(raw[i], gemini) == Some(id))
  {
    hide NormalizeModelId, Mentions, Distinct, Requested;
    RefusedExactly(raw, gemini);
    if Requested(raw, gemini).Ok? {
      RequestedIsDistinct(raw, gemini);
      forall i: nat | i < |raw| ensures Mentions(Requested(raw, gemini).value, NormalizeModelId(raw[i], gemini).value) {
        EveryIdIsMentioned(raw, gemini, i);
      }
      forall id | id in Requested(raw, gemini).value
        ensures exists i :: 0 <= i < |raw| && NormalizeModelId(raw[i], gemini) == Some(id)
      {
        OnlyRawIds(raw, gemini, id);
      }
    }
  }

  lemma MentionsSnoc(done: seq<string>, id: string, slug: string)
    ensures Mentions(done + [id], slug) <==> Mentions(done, slug) || EqualFold(id, slug)
  {
    hide EqualFold;
    assert (done + [id])[|done|] == id;
    assert id in done + [id];
    assert forall other :: other in done + [id] <==> other in done || other == id;
  }

  lemma NotMentionedYet(done: seq<string>, id: string, slug: string)
    requires !Mentions(done, id) && EqualFold(slug, id)
    ensures !Mentions(done, slug)
  {
  }

  lemma NotAskedBefore(requested: seq<string>, i: nat)
    requires Distinct(requested) && i < |requested|
    ensures !Mentions(requested[..i], requested[i])
  {
    hide EqualFold;
  }
}
