/**
 Repairing the recorded history of a Codex profile: the rollout files, the threads in the state
 database and the session index are brought in line with one model provider, and the former
 contents of each are kept in a backup directory before it is changed. At the end old backup
 directories are pruned.
 */
module HistoryRepair {
  import opened Wrappers
  import opened Text
  import B = BackupRetention
  import R = Rollout

  // ----- the session index -----

  /** A line as `str::lines` yields it from a segment: a `\r` goes only together with its `\n`. */
  function LineText(segment: string): string {
    var line := R.Line(segment);
    if line != segment && line != [] && line[|line| - 1] == '\r' then line[..|line| - 1] else line
  }

  function IdOf(codec: R.Codec, segment: string): Option<string> {
    match codec.parse(LineText(segment))
    case Some(Object(fields)) => if "id" in fields && fields["id"].String? then Some(fields["id"].s) else None
    case _ => None
  }

  function IdsIn(codec: R.Codec, segments: seq<string>): set<string> {
    if segments == [] then {}
    else
      var id := IdOf(codec, segments[|segments| - 1]);
      IdsIn(codec, segments[..|segments| - 1]) + (if id.Some? then {id.value} else {})
  }

  function IndexedIds(codec: R.Codec, index: Option<string>): set<string> {
    IdsIn(codec, R.Segments(index.GetOr("")))
  }

  method ReadSessionIndexIds(codec: R.Codec, index: Option<string>) returns (ids: set<string>)
    ensures ids == IndexedIds(codec, index)
  {
    ids := {};
    var segments := R.Segments(index.GetOr(""));
    for i := 0 to |segments|
      invariant ids == IdsIn(codec, segments[..i])
    {
      assert segments[..i + 1][..i] == segments[..i];
      var id := IdOf(codec, segments[i]);
      if id.Some? {
        ids := ids + {id.value};
      }
    }
    assert segments[..|segments|] == segments;
  }

  // ----- the state database -----

  datatype Columns = Columns(id: bool, provider: bool, title: bool, firstMessage: bool, updatedAtMs: bool,
                             updatedAt: bool)

  datatype Thread = Thread(id: string, provider: Option<string>, title: Option<string>, firstMessage: Option<string>,
                           updatedAtMs: Option<int>, updatedAt: Option<int>)

  /** The columns the `threads` table has, and its rows in the order of their ids. */
  datatype Database = Database(columns: Columns, threads: seq<Thread>)

  predicate IsOutdated(thread: Thread, target: string) {
    thread.provider.GetOr("") != target
  }

  function Outdated(threads: seq<Thread>, target: string): nat {
    if threads == [] then 0
    else Outdated(threads[..|threads| - 1], target) + (if IsOutdated(threads[|threads| - 1], target) then 1 else 0)
  }

  function RowsToUpdate(db: Option<Database>, target: string): nat {
    if db.Some? && db.value.columns.id && db.value.columns.provider then Outdated(db.value.threads, target) else 0
  }

  function Repointed(thread: Thread, target: string): Thread {
    if IsOutdated(thread, target) then thread.(provider := Some(target)) else thread
  }

  function UpdatedDb(db: Database, target: string): Database {
    if db.columns.provider then
      db.(threads := seq(|db.threads|, i requires 0 <= i < |db.threads| => Repointed(db.threads[i], target)))
    else db
  }

  function TitleOf(columns: Columns, thread: Thread): string {
    var title := if columns.title then thread.title else if columns.firstMessage then thread.firstMessage
      else Some(thread.id);
    if title.Some? && Trim(title.value) != [] then title.value else "Untitled"
  }

  function UpdatedOf(columns: Columns, thread: Thread): int {
    if columns.updatedAtMs && columns.updatedAt then
      if thread.updatedAtMs.Some? then thread.updatedAtMs.value else thread.updatedAt.GetOr(0) * 1000
    else if columns.updatedAtMs then thread.updatedAtMs.GetOr(0)
    else if columns.updatedAt then thread.updatedAt.GetOr(0) * 1000
    else 0
  }

  function Entry(stamp: int -> string, columns: Columns, thread: Thread): R.Json {
    R.Object(map["id" := R.String(thread.id),
                 "thread_name" := R.String(TitleOf(columns, thread)),
                 "updated_at" := R.String(stamp(UpdatedOf(columns, thread)))])
  }

  function MissingEntries(stamp: int -> string, columns: Columns, threads: seq<Thread>,
                          existing: set<string>): seq<R.Json> {
    if threads == [] then []
    else
      var last := threads[|threads| - 1];
      MissingEntries(stamp, columns, threads[..|threads| - 1], existing) +
      (if last.id in existing then [] else [Entry(stamp, columns, last)])
  }

  function Missing(codec: R.Codec, stamp: int -> string, db: Option<Database>, index: Option<string>): seq<R.Json> {
    if db.Some? && db.value.columns.id
    then MissingEntries(stamp, db.value.columns, db.value.threads, IndexedIds(codec, index)) else []
  }

  method MissingSessionIndexEntries(codec: R.Codec, stamp: int -> string, db: Database, index: Option<string>)
    returns (entries: seq<R.Json>)
    ensures entries == Missing(codec, stamp, Some(db), index)
  {
    if !db.columns.id {
      return [];
    }
    var existing := ReadSessionIndexIds(codec, index);
    entries := [];
    for i := 0 to |db.threads|
      invariant entries == MissingEntries(stamp, db.columns, db.threads[..i], existing)
    {
      assert db.threads[..i + 1][..i] == db.threads[..i];
      if db.threads[i].id !in existing {
        entries := entries + [Entry(stamp, db.columns, db.threads[i])];
      }
    }
    assert db.threads[..|db.threads|] == db.threads;
  }

  function EntryLines(codec: R.Codec, entries: seq<R.Json>): seq<string> {
    if entries == [] then []
    else EntryLines(codec, entries[..|entries| - 1]) + [codec.render(entries[|entries| - 1]) + "\n"]
  }

  /** The index ends its last line before anything is added. */
  function Closed(content: string): string {
    if content != [] && content[|content| - 1] != '\n' then content + "\n" else content
  }

  function Appended(codec: R.Codec, index: Option<string>, entries: seq<R.Json>): string {
    Closed(index.GetOr("")) + R.Join(EntryLines(codec, entries))
  }

  method AppendedIndex(codec: R.Codec, index: Option<string>, entries: seq<R.Json>)
    returns (content: string, added: nat)
    ensures content == Appended(codec, index, entries) && added == |entries|
  {
    content, added := index.GetOr(""), 0;
    if content != [] && content[|content| - 1] != '\n' {
      content := content + "\n";
    }
    ghost var closed := content;
    assert closed == Closed(index.GetOr(""));
    EntryLinesNone(codec);
    hide EntryLines, Closed;
    for i := 0 to |entries|
      invariant added == i
      invariant content == closed + R.Join(EntryLines(codec, entries[..i]))
    {
      var line := codec.render(entries[i]);
      EntryLinesSnoc(codec, entries[..i], entries[i]);
      assert entries[..i + 1] == entries[..i] + [entries[i]];
      Associate(closed, R.Join(EntryLines(codec, entries[..i])), line);
      content := content + line + "\n";
      added := added + 1;
    }
    assert entries[..|entries|] == entries;
  }

  lemma EntryLinesNone(codec: R.Codec)
    ensures R.Join(EntryLines(codec, [])) == ""
  {
  }

  lemma Associate(a: string, b: string, c: string)
    ensures a + b + c + "\n" == a + (b + (c + "\n"))
  {
  }

  lemma EntryLinesSnoc(codec: R.Codec, entries: seq<R.Json>, entry: R.Json)
    ensures R.Join(EntryLines(codec, entries + [entry]))
            == R.Join(EntryLines(codec, entries)) + (codec.render(entry) + "\n")
  {
    assert (entries + [entry])[..|entries|] == entries;
    var lines := EntryLines(codec, entries);
    assert (lines + [codec.render(entry) + "\n"])[..|lines|] == lines;
  }

  // ----- the repaired profile -----

  datatype Home = Home(rollouts: map<string, string>, db: Option<Database>, index: Option<string>)

  ghost function RepairedText(codec: R.Codec, content: string, target: string): string {
    if R.NeedsPatch(codec, content, target) then R.Join(R.PatchSegments(codec, R.Segments(content), target))
      else content
  }

  ghost function RepairedRollouts(codec: R.Codec, rollouts: map<string, string>, target: string): map<string, string> {
    map p | p in rollouts :: RepairedText(codec, rollouts[p], target)
  }

  function RepairedDb(db: Option<Database>, target: string): Option<Database> {
    if RowsToUpdate(db, target) > 0 then Some(UpdatedDb(db.value, target)) else db
  }

  function RepairedIndex(codec: R.Codec, stamp: int -> string, home: Home): Option<string> {
    var missing := Missing(codec, stamp, home.db, home.index);
    if missing == [] then home.index else Some(Appended(codec, home.index, missing))
  }

  ghost function Repaired(codec: R.Codec, stamp: int -> string, home: Home, target: string): Home {
    Home(RepairedRollouts(codec, home.rollouts, target), RepairedDb(home.db, target), RepairedIndex(codec, stamp, home))
  }

  ghost predicate NeedsRepair(codec: R.Codec, stamp: int -> string, home: Home, target: string) {
    || (exists p :: p in home.rollouts && R.NeedsPatch(codec, home.rollouts[p], target))
    || RowsToUpdate(home.db, target) > 0
    || Missing(codec, stamp, home.db, home.index) != []
  }

  /** JSON ignores white space after a value. */
  ghost predicate ReturnIsSpace(codec: R.Codec) {
    forall text :: codec.parse(text + "\r") == codec.parse(text)
  }

  // ----- what a repair leaves -----

  lemma {:induction false} NoneOutdated(threads: seq<Thread>, target: string)
    requires forall i :: 0 <= i < |threads| ==> !IsOutdated(threads[i], target)
    ensures Outdated(threads, target) == 0
  {
    if threads != [] {
      NoneOutdated(threads[..|threads| - 1], target);
    }
  }

  /** The row names another provider, or none although one is asked for. */
  predicate NamesOther(thread: Thread, target: string) {
    if thread.provider.Some? then thread.provider.value != target else target != ""
  }

  /** As many rows are out of date as name another provider. */
  lemma {:induction false} OutdatedCounts(threads: seq<Thread>, target: string)
    ensures Outdated(threads, target) == |set i | 0 <= i < |threads| && NamesOther(threads[i], target)|
  {
    if threads != [] {
      var rest, n := threads[..|threads| - 1], |threads| - 1;
      OutdatedCounts(rest, target);
      assert IsOutdated(threads[n], target) <==> NamesOther(threads[n], target);
      hide NamesOther, IsOutdated;
      var before := set i | 0 <= i < |rest| && NamesOther(rest[i], target);
      var all := set i | 0 <= i < |threads| && NamesOther(threads[i], target);
      if NamesOther(threads[n], target) {
        assert all == before + {n};
      } else {
        assert all == before;
      }
    }
  }

  lemma {:induction false} OutdatedIsCounted(threads: seq<Thread>, target: string, i: nat)
    requires i < |threads| && IsOutdated(threads[i], target)
    ensures Outdated(threads, target) > 0
  {
    if i < |threads| - 1 {
      OutdatedIsCounted(threads[..|threads| - 1], target, i);
    }
  }

  /**
   Updating leaves no row to update. Row by row only the provider may differ: a table with ids and
   providers names the target everywhere (no provider counts as the empty name), and a row that named
   it already, or any row of another table, is as it was.
   */
  lemma UpdatedDbView(db: Option<Database>, target: string)
    ensures RowsToUpdate(RepairedDb(db, target), target) == 0
    ensures RepairedDb(db, target).Some? <==> db.Some?
    ensures db.Some? ==>
              var after := RepairedDb(db, target).value;
              && after.columns == db.value.columns && |after.threads| == |db.value.threads|
              && forall i :: 0 <= i < |after.threads| ==>
                   RowUpdated(db.value.columns, db.value.threads[i], after.threads[i], target)
  {
    if RowsToUpdate(db, target) > 0 {
      NoneOutdated(UpdatedDb(db.value, target).threads, target);
    } else if db.Some? {
      forall i: nat | i < |db.value.threads|
        ensures RowUpdated(db.value.columns, db.value.threads[i], db.value.threads[i], target)
      {
        if IsOutdated(db.value.threads[i], target) {
          OutdatedIsCounted(db.value.threads, target, i);
        }
      }
    }
  }

  predicate RowUpdated(columns: Columns, before: Thread, after: Thread, target: string) {
    && after == before.(provider := after.provider)
    && (if columns.id && columns.provider then
          && (before.provider == Some(target) || (before.provider.None? && target == "") ==> after == before)
          && (after.provider == Some(target) || (after.provider.None? && target == ""))
        else after == before)
  }

  /** The text an entry's title is taken from: the first of the three columns that the table has. */
  ghost predicate ShowsTitle(columns: Columns, thread: Thread, title: string) {
    var shown := if columns.title then thread.title else if columns.firstMessage then thread.firstMessage
                 else Some(thread.id);
    if shown.None? || Trim(shown.value) == [] then title == "Untitled" else Some(title) == shown
  }

  /** The time in milliseconds: the column of milliseconds if it says something, else that of seconds, else zero. */
  ghost predicate ShowsTime(columns: Columns, thread: Thread, at: int) {
    && (columns.updatedAtMs && thread.updatedAtMs.Some? ==> at == thread.updatedAtMs.value)
    && (columns.updatedAtMs && thread.updatedAtMs.None? && !columns.updatedAt ==> at == 0)
    && ((columns.updatedAtMs ==> thread.updatedAtMs.None?) && columns.updatedAt ==>
          at == (if thread.updatedAt.Some? then 1000 * thread.updatedAt.value else 0))
    && (!columns.updatedAtMs && !columns.updatedAt ==> at == 0)
  }

  /** An index entry has the thread's id, a title and a time, and nothing else. */
  lemma EntryView(stamp: int -> string, columns: Columns, thread: Thread) returns (title: string, at: int)
    ensures ShowsTitle(columns, thread, title) && ShowsTime(columns, thread, at)
    ensures Entry(stamp, columns, thread).Object?
    ensures var fields := Entry(stamp, columns, thread).fields;
            && fields.Keys == {"id", "thread_name", "updated_at"} && fields["id"] == R.String(thread.id)
            && fields["thread_name"] == R.String(title) && fields["updated_at"] == R.String(stamp(at))
  {
    hide Trim;
    title, at := TitleOf(columns, thread), UpdatedOf(columns, thread);
  }

  /** A line loses its end, "\n" or "\r\n"; a last line without "\n" is left as it is. */
  lemma LineTextView(line: string)
    requires '\n' !in line
    ensures LineText(line) == line && LineText(line + "\r\n") == line
    ensures line == [] || line[|line| - 1] != '\r' ==> LineText(line + "\n") == line
  {
  }

  lemma {:induction false} NothingMissing(stamp: int -> string, columns: Columns, threads: seq<Thread>,
                                          existing: set<string>)
    ensures MissingEntries(stamp, columns, threads, existing) == []
            <==> forall i :: 0 <= i < |threads| ==> threads[i].id in existing
  {
    if threads != [] {
      NothingMissing(stamp, columns, threads[..|threads| - 1], existing);
      var last := threads[|threads| - 1];
      assert last == threads[|threads| - 1];
    }
  }

  /** Every thread that is not indexed gets an entry with its id. */
  lemma {:induction false} MissingCovers(stamp: int -> string, columns: Columns, threads: seq<Thread>,
                                         existing: set<string>, i: nat)
    requires i < |threads| && threads[i].id !in existing
    ensures Entry(stamp, columns, threads[i]) in MissingEntries(stamp, columns, threads, existing)
  {
    if i < |threads| - 1 {
      MissingCovers(stamp, columns, threads[..|threads| - 1], existing, i);
    }
  }

  // ----- the ids of an extended index -----

  lemma {:induction false} IdsInConcat(codec: R.Codec, a: seq<string>, b: seq<string>)
    ensures IdsIn(codec, a + b) == IdsIn(codec, a) + IdsIn(codec, b)
  {
    if b == [] {
      assert a + b == a;
    } else {
      IdsInConcat(codec, a, b[..|b| - 1]);
      assert (a + b)[..|a + b| - 1] == a + b[..|b| - 1];
    }
  }

  lemma {:induction false} JoinConcat(a: seq<string>, b: seq<string>)
    ensures R.Join(a + b) == R.Join(a) + R.Join(b)
  {
    if b == [] {
      assert a + b == a;
    } else {
      JoinConcat(a, b[..|b| - 1]);
      assert (a + b)[..|a + b| - 1] == a + b[..|b| - 1];
    }
  }

  lemma {:induction false} JoinSegments(content: string)
    ensures R.Join(R.Segments(content)) == content
    decreases |content|
  {
    if content != [] {
      var n := R.FirstLine(content);
      JoinSegments(content[n..]);
      var first, rest := content[..n], R.Segments(content[n..]);
      R.JoinFirst([first] + rest);
      assert ([first] + rest)[1..] == rest;
    }
  }

  predicate ClosedLines(lines: seq<string>) {
    forall i :: 0 <= i < |lines| ==> lines[i] != [] && '\n' !in R.Line(lines[i]) && R.Terminator(lines[i]) == "\n"
  }

  /** A content that ends its last line, followed by whole lines, splits into both. */
  lemma SplitClosed(content: string, lines: seq<string>)
    requires Closed(content) == content && ClosedLines(lines)
    ensures R.Segments(content + R.Join(lines)) == R.Segments(content) + lines
  {
    var segments := R.Segments(content);
    R.SegmentsAreWellSplit(content);
    JoinSegments(content);
    JoinConcat(segments, lines);
    if segments != [] {
      LastEnds(segments);
    }
    assert R.WellSplit(segments + lines);
    R.SplitJoined(segments + lines);
  }

  lemma LastEnds(segments: seq<string>)
    requires segments != [] && R.WellSplit(segments) && Closed(R.Join(segments)) == R.Join(segments)
    ensures R.Terminator(segments[|segments| - 1]) == "\n"
  {
    var content, last := R.Join(segments), segments[|segments| - 1];
    assert content[|content| - 1] == last[|last| - 1];
  }

  predicate HasId(entry: R.Json) {
    entry.Object? && "id" in entry.fields && entry.fields["id"].String?
  }

  lemma EntryLineView(codec: R.Codec, entry: R.Json)
    requires R.Faithful(codec) && HasId(entry)
    ensures var line := codec.render(entry) + "\n";
            ClosedLines([line]) && IdOf(codec, line) == Some(entry.fields["id"].s)
  {
    var text := codec.render(entry);
    assert codec.parse(text) == Some(entry);
    assert R.Line(text + "\n") == text;
  }

  lemma {:induction false} EntryLinesClosed(codec: R.Codec, entries: seq<R.Json>)
    requires R.Faithful(codec) && (forall e :: e in entries ==> HasId(e))
    ensures ClosedLines(EntryLines(codec, entries))
  {
    if entries != [] {
      hide R.Faithful, IdOf, R.Line, R.Terminator, HasId;
      var before, last := entries[..|entries| - 1], entries[|entries| - 1];
      assert last in entries && forall e :: e in before ==> e in entries;
      EntryLinesClosed(codec, before);
      EntryLineView(codec, last);
      assert [codec.render(last) + "\n"][0] == codec.render(last) + "\n";
    }
  }

  lemma {:induction false} EntryIsIndexed(codec: R.Codec, entries: seq<R.Json>, e: R.Json)
    requires R.Faithful(codec) && e in entries && HasId(e)
    ensures e.fields["id"].s in IdsIn(codec, EntryLines(codec, entries))
  {
    hide R.Faithful, IdOf, R.Line, R.Terminator, IdsIn, ClosedLines;
    var before, last := entries[..|entries| - 1], entries[|entries| - 1];
    var lines, line := EntryLines(codec, before), codec.render(last) + "\n";
    assert EntryLines(codec, entries) == lines + [line];
    IdsInSnoc(codec, lines, line);
    if e in before {
      EntryIsIndexed(codec, before, e);
    } else {
      assert e == last;
      EntryLineView(codec, e);
    }
  }

  /** Ending the last line changes no id. */
  lemma ClosedIds(codec: R.Codec, content: string)
    requires ReturnIsSpace(codec)
    ensures IdsIn(codec, R.Segments(Closed(content))) == IdsIn(codec, R.Segments(content))
  {
    hide R.Segments, IdsIn, IdOf, ReturnIsSpace, R.Line;
    if Closed(content) != content {
      var before, last := ClosedSegments(content);
      SameId(codec, last);
      IdsInSnoc(codec, before, last);
      IdsInSnoc(codec, before, last + "\n");
    }
  }

  /** Only the last line differs. */
  lemma ClosedSegments(content: string) returns (before: seq<string>, last: string)
    requires content != [] && content[|content| - 1] != '\n'
    ensures R.Segments(content) == before + [last] && R.Segments(content + "\n") == before + [last + "\n"]
    ensures R.Line(last) == last && R.Line(last + "\n") == last
  {
    var segments := R.Segments(content);
    R.SegmentsAreWellSplit(content);
    JoinSegments(content);
    assert segments != [];
    hide R.Segments, R.WellSplit, R.Join, R.Line;
    before, last := segments[..|segments| - 1], segments[|segments| - 1];
    assert segments == before + [last];
    CloseLast(before, last, content);
    LastIsOpen(before, last);
  }

  lemma IdsInSnoc(codec: R.Codec, before: seq<string>, last: string)
    ensures IdsIn(codec, before + [last])
         == IdsIn(codec, before) + (if IdOf(codec, last).Some? then {IdOf(codec, last).value} else {})
  {
    assert (before + [last])[..|before|] == before;
  }

  lemma LastIsOpen(before: seq<string>, last: string)
    requires last != [] && R.Join(before + [last]) != []
    requires R.Join(before + [last])[|R.Join(before + [last])| - 1] != '\n'
    ensures last[|last| - 1] != '\n' && R.Line(last) == last && R.Line(last + "\n") == last
  {
    assert (before + [last])[..|before|] == before;
    var content := R.Join(before + [last]);
    assert content[|content| - 1] == last[|last| - 1];
  }

  lemma CloseLast(before: seq<string>, last: string, content: string)
    requires R.WellSplit(before + [last]) && R.Join(before + [last]) == content
    requires content != [] && content[|content| - 1] != '\n'
    ensures last != []
    ensures R.Join(before + [last]) != [] && R.Join(before + [last])[|R.Join(before + [last])| - 1] != '\n'
    ensures R.Segments(content + "\n") == before + [last + "\n"]
  {
    var all := before + [last];
    assert all[|before|] == last;
    LastIsOpen(before, last);
    var closed := before + [last + "\n"];
    assert forall i :: 0 <= i < |before| ==> closed[i] == all[i];
    assert closed[..|before|] == before && all[..|before|] == before;
    assert R.Join(closed) == content + "\n";
    R.SplitJoined(closed);
  }

  lemma SameId(codec: R.Codec, last: string)
    requires ReturnIsSpace(codec) && R.Line(last) == last && R.Line(last + "\n") == last
    ensures IdOf(codec, last + "\n") == IdOf(codec, last)
  {
    if last != [] && last[|last| - 1] == '\r' {
      assert last == last[..|last| - 1] + "\r";
    }
  }

  /** The ids of the extended index: the old ones and those of the new entries. */
  lemma AppendedIds(codec: R.Codec, index: Option<string>, entries: seq<R.Json>)
    requires R.Faithful(codec) && ReturnIsSpace(codec)
    requires forall e :: e in entries ==> HasId(e)
    ensures IndexedIds(codec, index) <= IndexedIds(codec, Some(Appended(codec, index, entries)))
    ensures forall e :: e in entries ==>
            HasId(e) && e.fields["id"].s in IndexedIds(codec, Some(Appended(codec, index, entries)))
  {
    var content, lines := index.GetOr(""), EntryLines(codec, entries);
    EntryLinesClosed(codec, entries);
    forall e | e in entries ensures e.fields["id"].s in IdsIn(codec, EntryLines(codec, entries)) {
      EntryIsIndexed(codec, entries, e);
    }
    ClosedIds(codec, content);
    SplitClosed(Closed(content), lines);
    IdsInConcat(codec, R.Segments(Closed(content)), lines);
  }

  lemma {:induction false} EntriesHaveIds(stamp: int -> string, columns: Columns, threads: seq<Thread>,
                                          existing: set<string>)
    ensures forall e :: e in MissingEntries(stamp, columns, threads, existing) ==> HasId(e)
  {
    if threads != [] {
      EntriesHaveIds(stamp, columns, threads[..|threads| - 1], existing);
    }
  }

  /** After the repair every thread is in the index. */
  lemma IndexIsComplete(codec: R.Codec, stamp: int -> string, home: Home)
    requires R.Faithful(codec) && ReturnIsSpace(codec)
    ensures Missing(codec, stamp, home.db, RepairedIndex(codec, stamp, home)) == []
  {
    if home.db.Some? && home.db.value.columns.id {
      var columns, threads := home.db.value.columns, home.db.value.threads;
      var existing, after := IndexedIds(codec, home.index), IndexedIds(codec, RepairedIndex(codec, stamp, home));
      var missing := MissingEntries(stamp, columns, threads, existing);
      EntriesHaveIds(stamp, columns, threads, existing);
      AppendedIds(codec, home.index, missing);
      hide IndexedIds, Appended, IdOf, TitleOf, UpdatedOf;
      forall i: nat | i < |threads|
        ensures threads[i].id in after
      {
        if threads[i].id !in existing {
          MissingCovers(stamp, columns, threads, existing, i);
        }
      }
      NothingMissing(stamp, columns, threads, after);
    }
  }

  lemma SameThreadsSameMissing(codec: R.Codec, stamp: int -> string, a: Option<Database>, b: Option<Database>,
                               index: Option<string>)
    requires Missing(codec, stamp, a, index) == [] && (a.Some? <==> b.Some?)
    requires a.Some? ==>
               && a.value.columns == b.value.columns && |a.value.threads| == |b.value.threads|
               && forall i :: 0 <= i < |a.value.threads| ==> a.value.threads[i].id == b.value.threads[i].id
    ensures Missing(codec, stamp, b, index) == []
  {
    if a.Some? && a.value.columns.id {
      NothingMissing(stamp, a.value.columns, a.value.threads, IndexedIds(codec, index));
      NothingMissing(stamp, b.value.columns, b.value.threads, IndexedIds(codec, index));
    }
  }

  /** A complete repair leaves nothing to repair, so repairing again changes nothing. */
  lemma RepairIsComplete(codec: R.Codec, stamp: int -> string, home: Home, target: string)
    requires R.Faithful(codec) && ReturnIsSpace(codec)
    ensures var after := Repaired(codec, stamp, home, target);
            !NeedsRepair(codec, stamp, after, target) && Repaired(codec, stamp, after, target) == after
  {
    var after := Repaired(codec, stamp, home, target);
    forall p | p in home.rollouts
      ensures !R.NeedsPatch(codec, after.rollouts[p], target)
    {
      R.PatchedRollout(codec, home.rollouts[p], target);
    }
    UpdatedDbView(home.db, target);
    IndexIsComplete(codec, stamp, home);
    SameThreadsSameMissing(codec, stamp, home.db, after.db, after.index);
    NothingToRepair(codec, stamp, after, target);
  }

  lemma NothingToRepair(codec: R.Codec, stamp: int -> string, home: Home, target: string)
    requires !NeedsRepair(codec, stamp, home, target)
    ensures Repaired(codec, stamp, home, target) == home
  {
    assert RepairedRollouts(codec, home.rollouts, target) == home.rollouts;
  }

  // ----- the repair itself -----

  datatype Place = RolloutFile(path: string) | StateDb | SessionIndex
  datatype PreImage = Text(content: string) | Snapshot(db: Database) | Partial
  type BackupDir = map<Place, PreImage>

  datatype Update = Update(path: string, content: string)

  /** `backupDir` names the directory that was made, whether or not it is still there. */
  datatype Summary = Summary(changedRollouts: nat, updatedRows: nat, addedEntries: nat, backupDir: Option<string>,
                             warnings: nat)

  ghost predicate Calm(faults: nat -> bool) {
    forall k :: !faults(k)
  }

  ghost predicate RolloutsKept(before: map<string, string>, after: map<string, string>, dir: BackupDir) {
    && after.Keys == before.Keys
    && forall p :: p in before && after[p] != before[p] ==>
         RolloutFile(p) in dir && dir[RolloutFile(p)] == Text(before[p])
  }

  predicate DbKept(before: Option<Database>, after: Option<Database>, dir: BackupDir) {
    after != before ==> before.Some? && StateDb in dir && dir[StateDb] == Snapshot(before.value)
  }

  predicate IndexKept(before: Option<string>, after: Option<string>, dir: BackupDir) {
    after != before ==> before.None? || (SessionIndex in dir && dir[SessionIndex] == Text(before.value))
  }

  /** Whatever differs from `before` has its former contents in the backup, unless there were none. */
  ghost predicate PreImagesKept(before: Home, after: Home, dir: BackupDir) {
    RolloutsKept(before.rollouts, after.rollouts, dir) && DbKept(before.db, after.db, dir)
      && IndexKept(before.index, after.index, dir)
  }

  ghost predicate KeepsOthers(before: BackupDir, after: BackupDir, place: Place) {
    forall q :: q in before && q != place ==> q in after && after[q] == before[q]
  }

  /** No other directory is touched. */
  ghost predicate OnlyDir(before: map<string, BackupDir>, after: map<string, BackupDir>, dir: string) {
    && after.Keys == before.Keys
    && forall p :: p in before && p != dir ==> after[p] == before[p]
  }

  lemma KeptThrough(before: Home, after: Home, a: BackupDir, b: BackupDir, place: Place)
    requires KeepsOthers(a, b, place)
    ensures RolloutsKept(before.rollouts, after.rollouts, a) && !place.RolloutFile?
            ==> RolloutsKept(before.rollouts, after.rollouts, b)
    ensures DbKept(before.db, after.db, a) && !place.StateDb? ==> DbKept(before.db, after.db, b)
  {
  }

  /** Each file is as it was or wholly repaired. */
  ghost predicate OldOrRepaired(codec: R.Codec, stamp: int -> string, before: Home, after: Home, target: string) {
    var repaired := Repaired(codec, stamp, before, target);
    && after.rollouts.Keys == before.rollouts.Keys
    && (forall p :: p in before.rollouts ==>
        after.rollouts[p] == before.rollouts[p] || after.rollouts[p] == repaired.rollouts[p])
    && (after.db == before.db || after.db == repaired.db)
    && (after.index == before.index || after.index == repaired.index)
  }

  /** The updates due among some paths, in their order. */
  ghost function UpdatesFor(codec: R.Codec, rollouts: map<string, string>, paths: seq<string>,
                            target: string): seq<Update>
    requires forall p :: p in paths ==> p in rollouts
  {
    if paths == [] then []
    else
      var last := paths[|paths| - 1];
      UpdatesFor(codec, rollouts, paths[..|paths| - 1], target) +
      (if R.NeedsPatch(codec, rollouts[last], target) then [Update(last, RepairedText(codec, rollouts[last], target))]
       else [])
  }

  lemma {:induction false} UpdatesForView(codec: R.Codec, rollouts: map<string, string>, paths: seq<string>,
                                          target: string)
    requires forall p :: p in paths ==> p in rollouts
    requires forall i, j :: 0 <= i < j < |paths| ==> paths[i] != paths[j]
    ensures var updates := UpdatesFor(codec, rollouts, paths, target);
            && (forall u :: u in updates ==>
                  u.path in paths && R.NeedsPatch(codec, rollouts[u.path], target)
                  && u.content == RepairedText(codec, rollouts[u.path], target))
            && (forall p :: p in paths && R.NeedsPatch(codec, rollouts[p], target) ==>
                  Update(p, RepairedText(codec, rollouts[p], target)) in updates)
            && (forall i, j :: 0 <= i < j < |updates| ==> updates[i].path != updates[j].path)
  {
    hide R.NeedsPatch, RepairedText;
    if paths != [] {
      var before, last := paths[..|paths| - 1], paths[|paths| - 1];
      assert paths == before + [last] && last !in before;
      UpdatesForView(codec, rollouts, before, target);
    }
  }

  /** What is planned is due. */
  ghost predicate Planned(codec: R.Codec, stamp: int -> string, home: Home, target: string, updates: seq<Update>,
                          rows: nat, missing: seq<R.Json>)
  {
    && (forall u :: u in updates ==>
          u.path in home.rollouts && u.content == RepairedText(codec, home.rollouts[u.path], target))
    && (forall i, j :: 0 <= i < j < |updates| ==> updates[i].path != updates[j].path)
    && (rows == 0 || rows == RowsToUpdate(home.db, target))
    && (missing == [] || missing == Missing(codec, stamp, home.db, home.index))
  }

  /** All that is due is planned. */
  ghost predicate AllPlanned(codec: R.Codec, stamp: int -> string, home: Home, target: string, updates: seq<Update>,
                             rows: nat, missing: seq<R.Json>)
  {
    && (forall p :: p in home.rollouts && R.NeedsPatch(codec, home.rollouts[p], target) ==>
          Update(p, RepairedText(codec, home.rollouts[p], target)) in updates)
    && rows == RowsToUpdate(home.db, target) && missing == Missing(codec, stamp, home.db, home.index)
  }

  /** What carrying out a plan may change of the files. */
  ghost predicate Carried(codec: R.Codec, before: Home, after: Home, target: string, updates: seq<Update>, rows: nat,
                          missing: seq<R.Json>)
  {
    && after.rollouts.Keys == before.rollouts.Keys
    && (forall p :: p in before.rollouts && after.rollouts[p] != before.rollouts[p] ==>
          Update(p, after.rollouts[p]) in updates)
    && (after.db == before.db || (rows > 0 && after.db == RepairedDb(before.db, target)))
    && (after.index == before.index || (missing != [] && after.index == Some(Appended(codec, before.index, missing))))
  }

  /** All of the plan is carried out. */
  ghost predicate AllCarried(codec: R.Codec, before: Home, after: Home, target: string, updates: seq<Update>, rows: nat,
                             missing: seq<R.Json>)
  {
    && (forall u :: u in updates ==> u.path in after.rollouts && after.rollouts[u.path] == u.content)
    && after.db == (if rows > 0 then RepairedDb(before.db, target) else before.db)
    && after.index == (if missing == [] then before.index else Some(Appended(codec, before.index, missing)))
  }

  lemma PlannedView(codec: R.Codec, stamp: int -> string, home: Home, target: string, updates: seq<Update>, rows: nat,
                    missing: seq<R.Json>)
    requires Planned(codec, stamp, home, target, updates, rows, missing)
    ensures forall u :: u in updates ==> u.path in home.rollouts
    ensures forall i, j :: 0 <= i < j < |updates| ==> updates[i].path != updates[j].path
    ensures rows == 0 || rows == RowsToUpdate(home.db, target)
  {
    hide RepairedText, RowsToUpdate, Missing;
  }

  lemma CarriedView(codec: R.Codec, before: Home, after: Home, target: string, updates: seq<Update>, rows: nat,
                    missing: seq<R.Json>)
    requires after.rollouts.Keys == before.rollouts.Keys && forall u :: u in updates ==> u.path in before.rollouts
    requires forall p :: p in before.rollouts && after.rollouts[p] != before.rollouts[p] ==>
               Update(p, after.rollouts[p]) in updates
    requires after.db == before.db || (rows > 0 && after.db == RepairedDb(before.db, target))
    requires after.index == before.index
             || (missing != [] && after.index == Some(Appended(codec, before.index, missing)))
    ensures Carried(codec, before, after, target, updates, rows, missing)
    ensures && (forall u :: u in updates ==> after.rollouts[u.path] == u.content)
            && (rows > 0 ==> after.db == RepairedDb(before.db, target))
            && (missing != [] ==> after.index == Some(Appended(codec, before.index, missing)))
            ==> AllCarried(codec, before, after, target, updates, rows, missing)
  {
    hide RepairedDb, Appended;
  }

  // ----- pruning -----

  /**
   What the clock and the file system answer while a repair goes on: the path of the new directory,
   the directories as they are listed afterwards, the time, and for each directory whose removal
   fails the places that are left in it.
   */
  datatype Disk = Disk(path: string, listing: seq<B.Entry>, now: nat, left: map<string, set<Place>>)

  function Paths(entries: seq<B.Entry>): set<string> {
    set e | e in entries :: e.path
  }

  /** Every directory is listed, once. */
  ghost predicate Lists(disk: Disk, paths: set<string>) {
    B.OnePerPath(disk.listing) && Paths(disk.listing) == paths
  }

  function Remnant(dir: BackupDir, places: set<Place>): BackupDir {
    map q | q in dir && q in places :: dir[q]
  }

  function AfterPrune(full: map<string, BackupDir>, disk: Disk): map<string, BackupDir> {
    var kept := Paths(B.Pruned(disk.listing, disk.now));
    map p | p in full && (p in kept || p in disk.left) ::
      if p in kept then full[p] else Remnant(full[p], disk.left[p])
  }

  /** The directories at the end of a repair; if they cannot be listed, none is removed. */
  function AtTheEnd(full: map<string, BackupDir>, disk: Disk, listed: bool): map<string, BackupDir> {
    if listed then AfterPrune(full, disk) else full
  }

  /** The directories that the pruned root still lists. */
  function Remaining(full: map<string, BackupDir>, disk: Disk, entries: seq<B.Entry>): map<string, BackupDir> {
    var kept := Paths(B.Pruned(disk.listing, disk.now));
    map p | p in full && p in Paths(entries) ::
      if p in kept || p !in disk.left then full[p] else Remnant(full[p], disk.left[p])
  }

  /** None listed comes before it, or fewer than three do and it is not too old. */
  predicate KeptByPolicy(disk: Disk, e: B.Entry) {
    var ahead := |B.Ahead(disk.listing, e)|;
    ahead == 0 || (ahead < B.MAX_BACKUPS && B.Young(e, disk.now))
  }

  lemma PolicyKeeps(disk: Disk, e: B.Entry)
    requires B.OnePerPath(disk.listing) && e in disk.listing
    ensures e.path in Paths(B.Pruned(disk.listing, disk.now)) <==> KeptByPolicy(disk, e)
  {
    hide B.Sorted, B.KeptCount, B.Young, B.Ahead;
    B.KeptByPlace(disk.listing, disk.now, e);
    var kept := B.Pruned(disk.listing, disk.now);
    if e.path in Paths(kept) {
      var d :| d in kept && d.path == e.path;
      KeptIsListed(disk.listing, disk.now, d);
    }
  }

  lemma KeptIsListed(listing: seq<B.Entry>, now: nat, d: B.Entry)
    requires d in B.Pruned(listing, now)
    ensures d in listing
  {
    hide B.KeptCount;
    assert d in B.Sorted(listing);
    assert d in multiset(listing);
  }

  /**
   At the end of a repair a directory, the new one included, is there exactly if the directories could
   not be listed, the policy keeps it, or its removal failed.
   */
  lemma SurvivesExactly(full: map<string, BackupDir>, disk: Disk, listed: bool, e: B.Entry)
    requires Lists(disk, full.Keys) && e in disk.listing
    ensures e.path in full
    ensures e.path in AtTheEnd(full, disk, listed) <==> !listed || KeptByPolicy(disk, e) || e.path in disk.left
  {
    hide B.Pruned, KeptByPolicy;
    assert e.path in Paths(disk.listing);
    PolicyKeeps(disk, e);
  }

  /**
   It is as it was before the pruning exactly if the directories could not be listed, the policy
   keeps it, or the removal that failed has left all of it.
   */
  lemma IntactExactly(full: map<string, BackupDir>, disk: Disk, listed: bool, e: B.Entry)
    requires Lists(disk, full.Keys) && e in disk.listing
    ensures e.path in full
    ensures var after := AtTheEnd(full, disk, listed);
            e.path in after && after[e.path] == full[e.path]
            <==> !listed || KeptByPolicy(disk, e)
                 || (e.path in disk.left && full[e.path].Keys <= disk.left[e.path])
  {
    hide B.Pruned, KeptByPolicy;
    assert e.path in Paths(disk.listing);
    PolicyKeeps(disk, e);
    if !KeptByPolicy(disk, e) && e.path in disk.left {
      RemnantExactly(full[e.path], disk.left[e.path]);
    }
  }

  lemma RemnantExactly(dir: BackupDir, places: set<Place>)
    ensures Remnant(dir, places) == dir <==> dir.Keys <= places
  {
    assert Remnant(dir, places).Keys == dir.Keys * places;
  }

  /** Once three others come before it, a directory whose removal succeeds is gone, the new one included. */
  lemma ClockSetBackLosesBackup(full: map<string, BackupDir>, disk: Disk, a: B.Entry, b: B.Entry, c: B.Entry,
                                e: B.Entry)
    requires Lists(disk, full.Keys) && disk.listing == [a, b, c, e] && e.path == disk.path && disk.path !in disk.left
    requires a.modified > e.modified && b.modified > e.modified && c.modified > e.modified
    ensures disk.path !in AfterPrune(full, disk)
  {
    hide B.Pruned;
    SurvivesExactly(full, disk, true, e);
    var listing := disk.listing;
    assert listing[0] == a && listing[1] == b && listing[2] == c && listing[3] == e;
    assert B.Ahead(listing, e) == {a, b, c};
    assert a != b && b != c && a != c;
  }

  class ProfileHome {
    var rollouts: map<string, string>
    var db: Option<Database>
    var index: Option<string>
    var backups: map<string, BackupDir>      // by path
    var io: nat      // file operations so far; each asks `faults` whether it fails

    function View(): Home
      reads this
    {
      Home(rollouts, db, index)
    }

    constructor (home: Home)
      ensures View() == home && backups == map[] && io == 0
    {
      rollouts, db, index, backups, io := home.rollouts, home.db, home.index, map[], 0;
    }

    method Try(faults: nat -> bool) returns (ok: bool)
      modifies this`io
      ensures io == old(io) + 1 && (ok <==> !faults(old(io)))
      ensures Calm(faults) ==> ok
    {
      ok := !faults(io);
      io := io + 1;
    }

    /** The rollouts that need another provider; an unreadable one makes the whole collection fail. */
    method CollectRolloutUpdates(codec: R.Codec, paths: seq<string>, target: string, faults: nat -> bool)
      returns (r: Result<seq<Update>>)
      requires forall p :: p in paths ==> p in rollouts
      modifies this`io
      ensures Calm(faults) ==> r.Ok?
      ensures r.Ok? ==> r.value == UpdatesFor(codec, rollouts, paths, target)
    {
      hide R.NeedsPatch, R.PatchSegments, R.Segments, R.Join;
      var updates: seq<Update> := [];
      for i := 0 to |paths|
        invariant updates == UpdatesFor(codec, rollouts, paths[..i], target)
      {
        assert paths[..i + 1][..i] == paths[..i];
        var ok := Try(faults);
        if !ok {
          return Err;
        }
        var patched := R.PatchRolloutProvider(codec, rollouts[paths[i]], target);
        if patched.Some? {
          updates := updates + [Update(paths[i], patched.value)];
        }
      }
      assert paths[..|paths|] == paths;
      return Ok(updates);
    }

    method InspectSqliteRepairPlan(codec: R.Codec, stamp: int -> string, target: string, faults: nat -> bool)
      returns (r: Result<(nat, seq<R.Json>)>)
      modifies this`io
      ensures Calm(faults) ==> r.Ok?
      ensures r.Ok? ==> r.value == (RowsToUpdate(db, target), Missing(codec, stamp, db, index))
    {
      if db.None? {
        return Ok((0, []));
      }
      var ok := Try(faults);
      if !ok {
        return Err;
      }
      var missing := MissingSessionIndexEntries(codec, stamp, db.value, index);
      return Ok((RowsToUpdate(db, target), missing));
    }

    /** Copies one file into the backup directory; a failed copy may leave a partial one. */
    method Backup(dir: string, place: Place, image: PreImage, faults: nat -> bool) returns (ok: bool)
      requires dir in backups
      modifies this`io, this`backups
      ensures backups == old(backups)[dir := old(backups)[dir][place := if ok then image else Partial]]
      ensures Calm(faults) ==> ok
    {
      ok := Try(faults);
      backups := backups[dir := backups[dir][place := if ok then image else Partial]];
    }

    method RepairRollout(dir: string, update: Update, faults: nat -> bool) returns (ok: bool)
      requires dir in backups && update.path in rollouts
      modifies this`io, this`backups, this`rollouts
      ensures OnlyDir(old(backups), backups, dir)
      ensures rollouts == if ok then old(rollouts)[update.path := update.content] else old(rollouts)
      ensures ok ==> backups[dir] == old(backups)[dir][RolloutFile(update.path) := Text(old(rollouts)[update.path])]
      ensures KeepsOthers(old(backups)[dir], backups[dir], RolloutFile(update.path))
      ensures Calm(faults) ==> ok
    {
      ok := Backup(dir, RolloutFile(update.path), Text(rollouts[update.path]), faults);
      if ok {
        ok := Try(faults);
      }
      if ok {
        rollouts := rollouts[update.path := update.content];
      }
    }

    /** Each rollout is backed up and then replaced; a failure leaves it and goes on to the next. */
    method RepairRollouts(dir: string, updates: seq<Update>, faults: nat -> bool) returns (changed: nat, warnings: nat)
      requires dir in backups
      requires forall u :: u in updates ==> u.path in rollouts
      requires forall i, j :: 0 <= i < j < |updates| ==> updates[i].path != updates[j].path
      modifies this`io, this`backups, this`rollouts
      ensures OnlyDir(old(backups), backups, dir)
      ensures rollouts.Keys == old(rollouts).Keys && RolloutsKept(old(rollouts), rollouts, backups[dir])
      ensures forall p :: p in rollouts && rollouts[p] != old(rollouts)[p] ==> Update(p, rollouts[p]) in updates
      ensures Calm(faults) ==>
              warnings == 0 && changed == |updates| && forall u :: u in updates ==> rollouts[u.path] == u.content
      ensures changed + warnings == |updates|
    {
      changed, warnings := 0, 0;
      for i := 0 to |updates|
        invariant OnlyDir(old(backups), backups, dir)
        invariant RolloutsKept(old(rollouts), rollouts, backups[dir])
        invariant forall p :: p in rollouts && rollouts[p] != old(rollouts)[p] ==>
                  Update(p, rollouts[p]) in updates[..i]
        invariant Calm(faults) ==>
                  warnings == 0 && forall k :: 0 <= k < i ==> rollouts[updates[k].path] == updates[k].content
        invariant changed + warnings == i
      {
        var update := updates[i];
        assert updates[..i + 1] == updates[..i] + [update];
        assert update in updates;
        assert rollouts[update.path] == old(rollouts)[update.path];
        var ok := RepairRollout(dir, update, faults);
        if ok {
          changed := changed + 1;
        } else {
          warnings := warnings + 1;
        }
      }
      assert updates[..|updates|] == updates;
    }

    method RepairDb(dir: string, target: string, faults: nat -> bool) returns (r: Result<nat>)
      requires dir in backups && RowsToUpdate(db, target) > 0
      modifies this`io, this`backups, this`db
      ensures OnlyDir(old(backups), backups, dir)
      ensures db == if r.Ok? then RepairedDb(old(db), target) else old(db)
      ensures r.Ok? ==> r.value == RowsToUpdate(old(db), target)
      ensures DbKept(old(db), db, backups[dir])
      ensures KeepsOthers(old(backups)[dir], backups[dir], StateDb)
      ensures Calm(faults) ==> r.Ok?
    {
      var ok := Backup(dir, StateDb, Snapshot(db.value), faults);
      if ok {
        ok := Try(faults);
      }
      if !ok {
        return Err;
      }
      r := Ok(RowsToUpdate(db, target));
      db := Some(UpdatedDb(db.value, target));
    }

    method RepairIndex(dir: string, codec: R.Codec, entries: seq<R.Json>, faults: nat -> bool) returns (r: Result<nat>)
      requires dir in backups
      modifies this`io, this`backups, this`index
      ensures OnlyDir(old(backups), backups, dir)
      ensures index == if r.Ok? then Some(Appended(codec, old(index), entries)) else old(index)
      ensures r.Ok? ==> r.value == |entries|
      ensures IndexKept(old(index), index, backups[dir])
      ensures KeepsOthers(old(backups)[dir], backups[dir], SessionIndex)
      ensures Calm(faults) ==> r.Ok?
    {
      var ok := true;
      if index.Some? {
        ok := Backup(dir, SessionIndex, Text(index.value), faults);
      }
      if ok {
        ok := Try(faults);
      }
      if !ok {
        return Err;
      }
      var content, added := AppendedIndex(codec, index, entries);
      index := Some(content);
      return Ok(added);
    }

    /**
     The directories are listed again; unless that fails, those that the retention policy does not
     keep are removed, each as far as its removal goes.
     */
    method PruneBackups(disk: Disk, faults: nat -> bool) returns (ok: bool)
      requires Lists(disk, backups.Keys)
      modifies this`io, this`backups
      ensures backups == AtTheEnd(old(backups), disk, ok)
      ensures io == old(io) + 1 && (ok <==> !faults(old(io)))
      ensures Calm(faults) ==> ok
    {
      hide Lists, AfterPrune, Remaining, B.Pruned, B.Sorted, B.KeptCount, B.Stuck, B.SaturatedBytes;
      ok := Try(faults);
      if ok {
        var root := new B.BackupRoot(disk.listing);
        var report := root.Prune(disk.now, disk.left.Keys);
        RemainingIsAfterPrune(backups, disk, root.entries);
        backups := Remaining(backups, disk, root.entries);
      }
    }

    /** What there is to do, as far as it can be read; what cannot be read is left out. */
    method PlanRepair(codec: R.Codec, stamp: int -> string, paths: seq<string>, target: string, faults: nat -> bool)
      returns (updates: seq<Update>, rows: nat, missing: seq<R.Json>, warnings: nat)
      requires forall p :: p in paths <==> p in rollouts
      requires forall i, j :: 0 <= i < j < |paths| ==> paths[i] != paths[j]
      modifies this`io
      ensures Planned(codec, stamp, View(), target, updates, rows, missing)
      ensures !NeedsRepair(codec, stamp, View(), target) ==> updates == [] && rows == 0 && missing == []
      ensures Calm(faults) ==>
                && updates == UpdatesFor(codec, rollouts, paths, target) && rows == RowsToUpdate(db, target)
                && missing == Missing(codec, stamp, db, index) && warnings == 0
                && AllPlanned(codec, stamp, View(), target, updates, rows, missing)
                && (NeedsRepair(codec, stamp, View(), target) ==> updates != [] || rows != 0 || missing != [])
    {
      hide R.NeedsPatch, RepairedText, RowsToUpdate, Missing, UpdatesFor;
      UpdatesForView(codec, rollouts, paths, target);
      updates, rows, missing, warnings := [], 0, [], 0;
      var collected := CollectRolloutUpdates(codec, paths, target, faults);
      if collected.Ok? {
        updates := collected.value;
      } else {
        warnings := warnings + 1;
      }
      var plan := InspectSqliteRepairPlan(codec, stamp, target, faults);
      if plan.Ok? {
        rows, missing := plan.value.0, plan.value.1;
      } else {
        warnings := warnings + 1;
      }
      assert updates != [] ==> R.NeedsPatch(codec, rollouts[updates[0].path], target);
    }

    /** Makes the backup directory and carries out the plan, up to pruning; without the directory nothing is done. */
    method CarryOut(codec: R.Codec, stamp: int -> string, dir: string, target: string, updates: seq<Update>, rows: nat,
                    missing: seq<R.Json>, before: nat, faults: nat -> bool)
      returns (summary: Summary)
      requires Planned(codec, stamp, View(), target, updates, rows, missing)
      modifies this
      ensures OldOrRepaired(codec, stamp, old(View()), View(), target)
      ensures summary.backupDir.None? ==> View() == old(View()) && backups == old(backups)
      ensures summary.backupDir.Some? ==>
                && summary.backupDir == Some(dir) && backups.Keys == old(backups).Keys + {dir}
                && (forall p :: p in old(backups) && p != dir ==> backups[p] == old(backups)[p])
                && PreImagesKept(old(View()), View(), backups[dir])
      ensures Calm(faults) && AllPlanned(codec, stamp, old(View()), target, updates, rows, missing) ==>
                View() == Repaired(codec, stamp, old(View()), target)
      ensures Calm(faults) ==>
                && summary.backupDir.Some? && summary.warnings == before && summary.changedRollouts == |updates|
                && summary.updatedRows == rows && summary.addedEntries == |missing|
    {
      hide R.NeedsPatch, RepairedText, RepairedDb, RepairedIndex, RowsToUpdate, Missing, OldOrRepaired, Repaired;
      hide PreImagesKept, Calm, Planned, AllPlanned, Carried, AllCarried;
      ghost var start := View();
      var ok := Try(faults);
      if !ok {
        UnchangedView(codec, stamp, start, target);
        summary := Summary(0, 0, 0, None, before + 2);
        return;
      }
      backups := backups[dir := if dir in backups then backups[dir] else map[]];
      summary := RunPlan(codec, stamp, dir, target, updates, rows, missing, before, faults);
      PlanIsSound(codec, stamp, start, View(), target, updates, rows, missing);
      if Calm(faults) && AllPlanned(codec, stamp, start, target, updates, rows, missing) {
        PlanIsComplete(codec, stamp, start, View(), target, updates, rows, missing);
      }
    }

    /**
     The whole repair. Whatever fails, each file is as it was or wholly repaired, and what changed
     has its former contents in the backup directory `full[disk.path]`, up to the point where the
     directories are pruned. If nothing fails the repair is complete; if there is nothing to repair,
     no backup is made and none is pruned.
     */
    method Repair(codec: R.Codec, stamp: int -> string, paths: seq<string>, target: string, disk: Disk,
                  faults: nat -> bool)
      returns (summary: Summary, ghost full: map<string, BackupDir>, ghost listed: bool)
      requires forall p :: p in paths <==> p in rollouts
      requires forall i, j :: 0 <= i < j < |paths| ==> paths[i] != paths[j]
      requires Lists(disk, backups.Keys + {disk.path})
      modifies this
      ensures OldOrRepaired(codec, stamp, old(View()), View(), target)
      ensures summary.backupDir.None? ==> View() == old(View()) && backups == old(backups)
      ensures summary.backupDir.Some? ==>
                && summary.backupDir == Some(disk.path) && full.Keys == old(backups).Keys + {disk.path}
                && (forall p :: p in old(backups) && p != disk.path ==> full[p] == old(backups)[p])
                && PreImagesKept(old(View()), View(), full[disk.path])
                && backups == AtTheEnd(full, disk, listed) && io > 0 && (listed <==> !faults(io - 1))
      ensures Calm(faults) ==>
                && View() == Repaired(codec, stamp, old(View()), target)
                && (summary.backupDir.Some? <==> NeedsRepair(codec, stamp, old(View()), target))
                && (summary.backupDir.Some? ==> listed)
                && summary.warnings == 0
                && summary.changedRollouts == |UpdatesFor(codec, old(rollouts), paths, target)|
                && summary.updatedRows == RowsToUpdate(old(db), target)
                && summary.addedEntries == |Missing(codec, stamp, old(db), old(index))|
      ensures !NeedsRepair(codec, stamp, old(View()), target) ==> summary.backupDir.None?
    {
      hide R.NeedsPatch, RepairedText, RepairedDb, RepairedIndex, RowsToUpdate, Missing, UpdatesFor, OldOrRepaired;
      hide Lists, AtTheEnd, PreImagesKept, NeedsRepair, Repaired, Calm, Planned, AllPlanned;
      ghost var before := View();
      full, listed := backups, false;
      var updates, rows, missing, warnings := PlanRepair(codec, stamp, paths, target, faults);
      if updates == [] && rows == 0 && missing == [] {
        UnchangedView(codec, stamp, before, target);
        summary := Summary(0, 0, 0, None, warnings);
        return;
      }
      summary := CarryOut(codec, stamp, disk.path, target, updates, rows, missing, warnings, faults);
      full := backups;
      if summary.backupDir.Some? {
        var ok := PruneBackups(disk, faults);
        listed := ok;
        if !ok {
          summary := summary.(warnings := summary.warnings + 1);
        }
      }
    }

    /** Carries out the plan, up to pruning. */
    method RunPlan(codec: R.Codec, stamp: int -> string, dir: string, target: string, updates: seq<Update>, rows: nat,
                   missing: seq<R.Json>,
                   before: nat, faults: nat -> bool)
      returns (summary: Summary)
      requires dir in backups && Planned(codec, stamp, View(), target, updates, rows, missing)
      modifies this
      ensures OnlyDir(old(backups), backups, dir) && summary.backupDir == Some(dir)
      ensures PreImagesKept(old(View()), View(), backups[dir])
      ensures Carried(codec, old(View()), View(), target, updates, rows, missing)
      ensures Calm(faults) ==>
                && summary.warnings == before && summary.changedRollouts == |updates|
                && summary.updatedRows == rows && summary.addedEntries == |missing|
                && AllCarried(codec, old(View()), View(), target, updates, rows, missing)
    {
      hide RepairedDb, RowsToUpdate, Appended, RolloutsKept, DbKept, IndexKept, KeepsOthers, Planned, Missing;
      hide Calm, Carried, AllCarried;
      PlannedView(codec, stamp, View(), target, updates, rows, missing);
      ghost var start := View();
      var changed, warnings := RepairRollouts(dir, updates, faults);
      warnings := warnings + before;
      var updated, added := 0, 0;
      assert DbKept(start.db, db, backups[dir]) by {
        NothingChanged(start.db, start.index, backups[dir]);
      }
      if rows > 0 {
        ghost var images := backups[dir];
        var r := RepairDb(dir, target, faults);
        KeptThrough(start, View(), images, backups[dir], StateDb);
        if r.Ok? {
          updated := r.value;
        } else {
          warnings := warnings + 1;
        }
      }
      NothingChanged(start.db, start.index, backups[dir]);
      if missing != [] {
        ghost var images := backups[dir];
        var r := RepairIndex(dir, codec, missing, faults);
        KeptThrough(start, View(), images, backups[dir], SessionIndex);
        if r.Ok? {
          added := r.value;
        } else {
          warnings := warnings + 1;
        }
      }
      var manifest := Try(faults);
      warnings := warnings + (if manifest then 0 else 1);
      summary := Summary(changed, updated, added, Some(dir), warnings);
      CarriedView(codec, start, View(), target, updates, rows, missing);
    }
  }

  /** A pruned root holds what the policy keeps and what could not be removed. */
  lemma RemainingPaths(disk: Disk, entries: seq<B.Entry>)
    requires var sorted, n := B.Sorted(disk.listing), B.KeptCount(B.Sorted(disk.listing), disk.now, 0);
             entries == sorted[..n] + B.Stuck(sorted[n..], disk.left.Keys)
    ensures forall p :: p in Paths(disk.listing) ==>
              (p in Paths(entries) <==> p in Paths(B.Pruned(disk.listing, disk.now)) || p in disk.left)
  {
    hide B.Sorted, B.KeptCount;
    var sorted, n := B.Sorted(disk.listing), B.KeptCount(B.Sorted(disk.listing), disk.now, 0);
    var kept, rest := sorted[..n], sorted[n..];
    assert sorted == kept + rest;
    forall p | p in Paths(disk.listing)
      ensures p in Paths(entries) <==> p in Paths(kept) || p in disk.left
    {
      var e :| e in disk.listing && e.path == p;
      assert e in multiset(sorted);
      StuckMembers(rest, disk.left.Keys, e);
      assert e in kept || e in rest;
      if p in Paths(entries) {
        var d :| d in entries && d.path == p;
        StuckMembers(rest, disk.left.Keys, d);
      }
    }
  }

  lemma RemainingIsAfterPrune(full: map<string, BackupDir>, disk: Disk, entries: seq<B.Entry>)
    requires Lists(disk, full.Keys)
    requires var sorted, n := B.Sorted(disk.listing), B.KeptCount(B.Sorted(disk.listing), disk.now, 0);
             entries == sorted[..n] + B.Stuck(sorted[n..], disk.left.Keys)
    ensures Remaining(full, disk, entries) == AfterPrune(full, disk)
  {
    hide B.Sorted, B.KeptCount, B.Stuck, B.Pruned, B.OnePerPath, Remnant, Paths;
    RemainingPaths(disk, entries);
  }

  lemma {:induction false} StuckMembers(s: seq<B.Entry>, stuck: set<string>, e: B.Entry)
    ensures e in B.Stuck(s, stuck) <==> e in s && e.path in stuck
  {
    if s != [] {
      StuckMembers(s[..|s| - 1], stuck, e);
      assert s == s[..|s| - 1] + [s[|s| - 1]];
    }
  }

  lemma PlanIsSound(codec: R.Codec, stamp: int -> string, before: Home, after: Home, target: string,
                    updates: seq<Update>, rows: nat, missing: seq<R.Json>)
    requires Planned(codec, stamp, before, target, updates, rows, missing)
    requires Carried(codec, before, after, target, updates, rows, missing)
    ensures OldOrRepaired(codec, stamp, before, after, target)
  {
    hide RepairedText, RepairedDb, Missing, Appended;
  }

  lemma PlanIsComplete(codec: R.Codec, stamp: int -> string, before: Home, after: Home, target: string,
                       updates: seq<Update>, rows: nat, missing: seq<R.Json>)
    requires Planned(codec, stamp, before, target, updates, rows, missing)
    requires AllPlanned(codec, stamp, before, target, updates, rows, missing)
    requires Carried(codec, before, after, target, updates, rows, missing)
    requires AllCarried(codec, before, after, target, updates, rows, missing)
    ensures after == Repaired(codec, stamp, before, target)
  {
    hide Missing, Appended, R.NeedsPatch, RowsToUpdate;
    forall p | p in before.rollouts
      ensures after.rollouts[p] == RepairedText(codec, before.rollouts[p], target)
    {
      if R.NeedsPatch(codec, before.rollouts[p], target) {
        assert after.rollouts[Update(p, RepairedText(codec, before.rollouts[p], target)).path]
            == RepairedText(codec, before.rollouts[p], target);
      }
    }
  }

  lemma NothingChanged(db: Option<Database>, index: Option<string>, dir: BackupDir)
    ensures DbKept(db, db, dir) && IndexKept(index, index, dir)
  {
  }

  lemma UnchangedView(codec: R.Codec, stamp: int -> string, home: Home, target: string)
    ensures OldOrRepaired(codec, stamp, home, home, target)
    ensures !NeedsRepair(codec, stamp, home, target) ==> Repaired(codec, stamp, home, target) == home
  {
    if !NeedsRepair(codec, stamp, home, target) {
      NothingToRepair(codec, stamp, home, target);
    }
  }
}
