/** Retention of history backups: at most three, at most seven days old, but always the newest one. */
module BackupRetention {
  import opened Text

  /** One backup directory; `modified` in nanoseconds since the epoch. */
  datatype Entry = Entry(path: string, modified: nat, bytes: nat)

  const MAX_BACKUPS: nat := 3
  const MIN_BACKUPS: nat := 1
  const MAX_AGE_NANOS: nat := 7 * 24 * 60 * 60 * 1_000_000_000
  const U64_MAX: nat := 0xFFFF_FFFF_FFFF_FFFF

  // ----- order: newest first, then the greater path -----

  predicate Before(a: Entry, b: Entry) {
    a.modified > b.modified || (a.modified == b.modified && !Less(a.path, b.path))
  }

  predicate NewestFirst(s: seq<Entry>) {
    forall i, j :: 0 <= i < j < |s| ==> Before(s[i], s[j])
  }

  lemma BeforeTransitive(a: Entry, b: Entry, c: Entry)
    requires Before(a, b) && Before(b, c)
    ensures Before(a, c)
  {
    if a.modified == c.modified && Less(a.path, c.path) {
      LessTotal(a.path, b.path);
      LessTotal(b.path, c.path);
      if Less(c.path, b.path) {
        LessTransitive(a.path, c.path, b.path);
      }
    }
  }

  function Insert(e: Entry, s: seq<Entry>): (r: seq<Entry>)
    ensures multiset(r) == multiset{e} + multiset(s)
  {
    if s == [] || Before(e, s[0]) then [e] + s
    else
      assert s == [s[0]] + s[1..];
      [s[0]] + Insert(e, s[1..])
  }

  /** The library sort, given by its result: the entries, newest first. */
  function Sorted(s: seq<Entry>): (r: seq<Entry>)
    ensures multiset(r) == multiset(s)
  {
    if s == [] then []
    else
      assert s == [s[0]] + s[1..];
      Insert(s[0], Sorted(s[1..]))
  }

  lemma NotBefore(a: Entry, b: Entry)
    requires !Before(a, b)
    ensures Before(b, a)
  {
    if a.modified == b.modified {
      LessTotal(a.path, b.path);
      if Less(b.path, a.path) {
        LessTransitive(b.path, a.path, b.path);
        LessIrreflexive(b.path);
      }
    }
  }

  lemma {:induction false} InsertKeepsOrder(e: Entry, s: seq<Entry>)
    requires NewestFirst(s)
    ensures NewestFirst(Insert(e, s))
  {
    if s == [] {
    } else if Before(e, s[0]) {
      forall j | 0 <= j < |s| ensures Before(e, s[j]) {
        if j > 0 {
          BeforeTransitive(e, s[0], s[j]);
        }
      }
    } else {
      NotBefore(e, s[0]);
      InsertKeepsOrder(e, s[1..]);
      var rest := Insert(e, s[1..]);
      forall j | 0 <= j < |rest| ensures Before(s[0], rest[j]) {
        assert rest[j] in multiset(rest);
        assert rest[j] == e || rest[j] in s[1..];
      }
    }
  }

  lemma {:induction false} SortedIsNewestFirst(s: seq<Entry>)
    ensures NewestFirst(Sorted(s))
  {
    if s != [] {
      SortedIsNewestFirst(s[1..]);
      InsertKeepsOrder(s[0], Sorted(s[1..]));
    }
  }

  // ----- what is kept -----

  predicate Young(e: Entry, now: nat) {
    e.modified >= if now < MAX_AGE_NANOS then 0 else now - MAX_AGE_NANOS
  }

  predicate KeptAt(sorted: seq<Entry>, index: nat, now: nat)
    requires index < |sorted|
  {
    index < MIN_BACKUPS || (index < MAX_BACKUPS && Young(sorted[index], now))
  }

  /** How many of the newest entries are kept. */
  function KeptCount(sorted: seq<Entry>, now: nat, from: nat): (n: nat)
    requires from <= |sorted|
    ensures from <= n <= |sorted|
    decreases |sorted| - from
  {
    if from == |sorted| || !KeptAt(sorted, from, now) then from else KeptCount(sorted, now, from + 1)
  }

  /** The kept entries are a newest-first prefix: never empty, at most three, young after the first. */
  lemma {:induction false} KeptIsPrefix(sorted: seq<Entry>, now: nat, from: nat)
    requires NewestFirst(sorted) && from <= |sorted|
    requires forall i :: 0 <= i < from ==> KeptAt(sorted, i, now)
    ensures var n := KeptCount(sorted, now, from);
            && (forall i :: 0 <= i < |sorted| ==> (KeptAt(sorted, i, now) <==> i < n))
            && (sorted != [] ==> n >= 1)
            && n <= MAX_BACKUPS
            && (forall i :: 1 <= i < n ==> now - sorted[i].modified <= MAX_AGE_NANOS)
    decreases |sorted| - from
  {
    assert from > 0 ==> KeptAt(sorted, from - 1, now);
    if from < |sorted| && KeptAt(sorted, from, now) {
      KeptIsPrefix(sorted, now, from + 1);
    } else if from < |sorted| {
      forall i | from < i < |sorted| ensures !KeptAt(sorted, i, now) {
        assert Before(sorted[from], sorted[i]);
      }
      YoungPrefix(sorted, now, from);
    } else {
      YoungPrefix(sorted, now, from);
    }
  }

  lemma YoungPrefix(sorted: seq<Entry>, now: nat, n: nat)
    requires n <= |sorted| && forall i :: 0 <= i < n ==> KeptAt(sorted, i, now)
    ensures forall i :: 1 <= i < n ==> now - sorted[i].modified <= MAX_AGE_NANOS
  {
    forall i | 1 <= i < n ensures now - sorted[i].modified <= MAX_AGE_NANOS {
      assert KeptAt(sorted, i, now);
    }
  }

  function Bytes(s: seq<Entry>): nat {
    if s == [] then 0 else Bytes(s[..|s| - 1]) + s[|s| - 1].bytes
  }

  /** The 64-bit saturating total that the program reports. */
  function SaturatedBytes(s: seq<Entry>): nat {
    if s == [] then 0
    else
      var total := SaturatedBytes(s[..|s| - 1]) + s[|s| - 1].bytes;
      if total > U64_MAX then U64_MAX else total
  }

  lemma {:induction false} SaturationIsMinimum(s: seq<Entry>)
    ensures SaturatedBytes(s) == if Bytes(s) > U64_MAX then U64_MAX else Bytes(s)
  {
    if s != [] {
      SaturationIsMinimum(s[..|s| - 1]);
    }
  }

  lemma {:induction false} BytesOfSplit(a: seq<Entry>, b: seq<Entry>)
    ensures Bytes(a + b) == Bytes(a) + Bytes(b)
  {
    if b == [] {
      assert a + b == a;
    } else {
      assert (a + b)[..|a + b| - 1] == a + b[..|b| - 1];
      BytesOfSplit(a, b[..|b| - 1]);
    }
  }

  lemma Without(s: seq<Entry>, k: nat)
    requires k < |s|
    ensures var rest := s[..k] + s[k + 1..];
            multiset(s) == multiset(rest) + multiset{s[k]} && Bytes(s) == Bytes(rest) + s[k].bytes
  {
    var e := s[k];
    assert s == s[..k] + ([e] + s[k + 1..]);
    BytesOfSplit(s[..k], [e] + s[k + 1..]);
    BytesOfSplit([e], s[k + 1..]);
    BytesOfSplit(s[..k], s[k + 1..]);
    assert [e][..0] == [];
  }

  /** The order in which a directory is listed does not change its size. */
  lemma {:induction false} BytesOfPermutation(a: seq<Entry>, b: seq<Entry>)
    requires multiset(a) == multiset(b)
    ensures Bytes(a) == Bytes(b)
    decreases |a|
  {
    hide Bytes;
    if a == [] {
      assert |multiset(b)| == 0;
    } else {
      var k := Position(a[0], b);
      Without(a, 0);
      Without(b, k);
      var left, right := a[..0] + a[1..], b[..k] + b[k + 1..];
      Cancel(multiset(left), multiset(right), multiset{a[0]});
      BytesOfPermutation(left, right);
    }
  }

  function Position(e: Entry, s: seq<Entry>): (k: nat)
    requires e in multiset(s)
    ensures k < |s| && s[k] == e
  {
    if s[|s| - 1] == e then |s| - 1
    else
      assert s == s[..|s| - 1] + [s[|s| - 1]];
      Position(e, s[..|s| - 1])
  }

  lemma Cancel(a: multiset<Entry>, b: multiset<Entry>, c: multiset<Entry>)
    requires a + c == b + c
    ensures a == b
  {
    assert a == (a + c) - c && b == (b + c) - c;
  }

  datatype Report = Report(beforeCount: nat, afterCount: nat, removedCount: nat,
                           beforeBytes: nat, afterBytes: nat, removedBytes: nat, warnings: nat)

  function SaturatingSub(a: nat, b: nat): nat {
    if a < b then 0 else a - b
  }

  /** The backup root of one profile: the directories it lists, in no particular order. */
  class BackupRoot {
    var entries: seq<Entry>

    constructor (entries: seq<Entry>)
      ensures this.entries == entries
    {
      this.entries := entries;
    }

    /**
     Removal fails for the paths in `stuck`. What remains is the kept prefix of the newest-first
     order followed by the entries that could not be removed.
     */
    method Prune(now: nat, stuck: set<string>) returns (report: Report)
      modifies this
      ensures var sorted := Sorted(old(entries));
              var n := KeptCount(sorted, now, 0);
              && entries == sorted[..n] + Stuck(sorted[n..], stuck)
              && report.warnings == |Stuck(sorted[n..], stuck)|
      ensures stuck == {} ==> entries == Pruned(old(entries), now)
      ensures report.beforeCount == |old(entries)| && report.afterCount == |entries|
      ensures report.removedCount == |old(entries)| - |entries|
      ensures report.beforeBytes == SaturatedBytes(old(entries)) && report.afterBytes == SaturatedBytes(entries)
      ensures report.removedBytes == SaturatingSub(report.beforeBytes, report.afterBytes)
    {
      var beforeCount, beforeBytes := |entries|, SaturatedBytes(entries);
      var sorted := Sorted(entries);
      ghost var was := entries;
      hide Sorted, SaturatedBytes, KeptAt;
      var remaining, warnings := [], 0;
      for index := 0 to |sorted|
        invariant entries == was
        invariant remaining == Survivors(sorted, index, now, stuck)
        invariant warnings == Failures(sorted, index, now, stuck)
      {
        var entry := sorted[index];
        if KeptAt(sorted, index, now) {
          remaining := remaining + [entry];
        } else if entry.path in stuck {
          remaining := remaining + [entry];
          warnings := warnings + 1;
        }
      }
      SurvivorsAreKeptThenStuck(was, now, stuck);
      entries := remaining;
      var afterBytes := SaturatedBytes(entries);
      report := Report(beforeCount, |entries|, beforeCount - |entries|, beforeBytes, afterBytes,
                       SaturatingSub(beforeBytes, afterBytes), warnings);
    }
  }

  /** What the first `index` turns of the loop leave in place. */
  function Survivors(sorted: seq<Entry>, index: nat, now: nat, stuck: set<string>): seq<Entry>
    requires index <= |sorted|
  {
    if index == 0 then []
    else
      Survivors(sorted, index - 1, now, stuck)
      + if KeptAt(sorted, index - 1, now) || sorted[index - 1].path in stuck then [sorted[index - 1]] else []
  }

  function Failures(sorted: seq<Entry>, index: nat, now: nat, stuck: set<string>): nat
    requires index <= |sorted|
  {
    if index == 0 then 0
    else
      Failures(sorted, index - 1, now, stuck)
      + if !KeptAt(sorted, index - 1, now) && sorted[index - 1].path in stuck then 1 else 0
  }

  lemma {:induction false} SurvivorsOfPrefix(sorted: seq<Entry>, index: nat, now: nat, stuck: set<string>)
    requires index <= |sorted| && forall i :: 0 <= i < index ==> KeptAt(sorted, i, now)
    ensures Survivors(sorted, index, now, stuck) == sorted[..index] && Failures(sorted, index, now, stuck) == 0
  {
    hide KeptAt;
    if index > 0 {
      SurvivorsOfPrefix(sorted, index - 1, now, stuck);
      assert sorted[..index] == sorted[..index - 1] + [sorted[index - 1]];
    }
  }

  lemma {:induction false} SurvivorsBeyond(sorted: seq<Entry>, n: nat, index: nat, now: nat, stuck: set<string>)
    requires n <= index <= |sorted|
    requires forall i :: 0 <= i < |sorted| ==> (KeptAt(sorted, i, now) <==> i < n)
    ensures Survivors(sorted, index, now, stuck) == sorted[..n] + Stuck(sorted[n..index], stuck)
    ensures Failures(sorted, index, now, stuck) == |Stuck(sorted[n..index], stuck)|
  {
    hide KeptAt, Stuck;
    if index == n {
      SurvivorsOfPrefix(sorted, n, now, stuck);
      StuckLength(sorted[n..index], stuck);
    } else {
      SurvivorsBeyond(sorted, n, index - 1, now, stuck);
      assert sorted[n..index] == sorted[n..index - 1] + [sorted[index - 1]];
      StuckSnoc(sorted[n..index - 1], sorted[index - 1], stuck);
    }
  }

  lemma SurvivorsAreKeptThenStuck(entries: seq<Entry>, now: nat, stuck: set<string>)
    ensures var sorted := Sorted(entries);
            var n := KeptCount(sorted, now, 0);
            && Survivors(sorted, |sorted|, now, stuck) == sorted[..n] + Stuck(sorted[n..], stuck)
            && Failures(sorted, |sorted|, now, stuck) == |Stuck(sorted[n..], stuck)|
            && |Survivors(sorted, |sorted|, now, stuck)| <= |entries|
            && (stuck == {} ==> Survivors(sorted, |sorted|, now, stuck) == Pruned(entries, now))
  {
    hide Sorted, Survivors, Failures, Stuck;
    var sorted := Sorted(entries);
    var n := KeptCount(sorted, now, 0);
    SortedIsNewestFirst(entries);
    KeptIsPrefix(sorted, now, 0);
    SameSize(sorted, entries);
    SurvivorsBeyond(sorted, n, |sorted|, now, stuck);
    assert sorted[n..|sorted|] == sorted[n..];
    StuckLength(sorted[n..], stuck);
  }

  function Stuck(s: seq<Entry>, stuck: set<string>): seq<Entry> {
    if s == [] then []
    else Stuck(s[..|s| - 1], stuck) + if s[|s| - 1].path in stuck then [s[|s| - 1]] else []
  }

  lemma StuckSnoc(s: seq<Entry>, e: Entry, stuck: set<string>)
    ensures Stuck(s + [e], stuck) == Stuck(s, stuck) + if e.path in stuck then [e] else []
  {
    assert (s + [e])[..|s|] == s;
  }

  lemma {:induction false} StuckLength(s: seq<Entry>, stuck: set<string>)
    ensures |Stuck(s, stuck)| <= |s|
    ensures stuck == {} ==> Stuck(s, stuck) == []
  {
    if s != [] {
      StuckLength(s[..|s| - 1], stuck);
    }
  }

  lemma SameSize(a: seq<Entry>, b: seq<Entry>)
    requires multiset(a) == multiset(b)
    ensures |a| == |b|
  {
    assert |multiset(a)| == |a| && |multiset(b)| == |b|;
  }

  /** The directory left by a prune in which every removal succeeds. */
  function Pruned(entries: seq<Entry>, now: nat): seq<Entry> {
    Sorted(entries)[..KeptCount(Sorted(entries), now, 0)]
  }

  lemma {:induction false} SortedUnchanged(s: seq<Entry>)
    requires NewestFirst(s)
    ensures Sorted(s) == s
  {
    if s != [] {
      SortedUnchanged(s[1..]);
      assert s == [s[0]] + s[1..];
    }
  }

  // ----- which directories are kept, from the listing -----

  /** A directory is listed once. */
  predicate OnePerPath(entries: seq<Entry>) {
    forall i, j :: 0 <= i < j < |entries| ==> entries[i].path != entries[j].path
  }

  function Elements(entries: seq<Entry>): set<Entry> {
    set e | e in entries
  }

  /** The directories that come before this one. */
  function Ahead(entries: seq<Entry>, e: Entry): set<Entry> {
    set d | d in entries && d != e && Before(d, e)
  }

  lemma SameElements(a: seq<Entry>, b: seq<Entry>)
    requires multiset(a) == multiset(b)
    ensures Elements(a) == Elements(b)
    ensures forall e :: Ahead(a, e) == Ahead(b, e)
  {
    assert forall e :: e in a <==> e in multiset(a);
    assert forall e :: e in b <==> e in multiset(b);
  }

  lemma {:induction false} DistinctSize(s: seq<Entry>)
    requires OnePerPath(s)
    ensures |Elements(s)| == |s|
  {
    if s != [] {
      var before, last := s[..|s| - 1], s[|s| - 1];
      DistinctSize(before);
      assert Elements(s) == Elements(before) + {last};
      assert last !in before;
    }
  }

  /** Sorting keeps one entry per path. */
  lemma {:induction false} InsertDistinct(e: Entry, s: seq<Entry>)
    requires OnePerPath(s) && forall d :: d in s ==> d.path != e.path
    ensures OnePerPath(Insert(e, s))
  {
    hide Before, Less;
    if s != [] && !Before(e, s[0]) {
      var rest := Insert(e, s[1..]);
      InsertDistinct(e, s[1..]);
      forall d | d in rest ensures d.path != s[0].path {
        assert d in multiset(rest);
        assert d == e || d in s[1..];
      }
      ConsDistinct(s[0], rest);
    } else {
      ConsDistinct(e, s);
    }
  }

  lemma ConsDistinct(e: Entry, s: seq<Entry>)
    requires OnePerPath(s) && forall d :: d in s ==> d.path != e.path
    ensures OnePerPath([e] + s)
  {
  }

  lemma {:induction false} SortedDistinct(s: seq<Entry>)
    requires OnePerPath(s)
    ensures OnePerPath(Sorted(s))
  {
    if s != [] {
      SortedDistinct(s[1..]);
      forall d | d in Sorted(s[1..]) ensures d.path != s[0].path {
        assert d in multiset(Sorted(s[1..]));
      }
      InsertDistinct(s[0], Sorted(s[1..]));
    }
  }

  /** Newest first, an entry's place is the number of those before it. */
  lemma PlaceInOrder(sorted: seq<Entry>, i: nat)
    requires NewestFirst(sorted) && OnePerPath(sorted) && i < |sorted|
    ensures |Ahead(sorted, sorted[i])| == i
  {
    forall j | i < j < |sorted| ensures !Before(sorted[j], sorted[i]) {
      assert Before(sorted[i], sorted[j]);
      LessTotal(sorted[i].path, sorted[j].path);
    }
    assert Ahead(sorted, sorted[i]) == Elements(sorted[..i]);
    DistinctSize(sorted[..i]);
  }

  /**
   A directory is kept exactly if none listed comes before it, or fewer than three do and it is not
   too old.
   */
  lemma KeptByPlace(entries: seq<Entry>, now: nat, e: Entry)
    requires OnePerPath(entries) && e in entries
    ensures e in Pruned(entries, now)
            <==> var ahead := |Ahead(entries, e)|; ahead < MIN_BACKUPS || (ahead < MAX_BACKUPS && Young(e, now))
  {
    hide Sorted, Before, Young;
    var sorted := Sorted(entries);
    SortedIsNewestFirst(entries);
    SortedDistinct(entries);
    SameElements(entries, sorted);
    KeptIsPrefix(sorted, now, 0);
    assert e in Elements(entries);
    assert e in sorted;
    var i :| 0 <= i < |sorted| && sorted[i] == e;
    PlaceInOrder(sorted, i);
    var n := KeptCount(sorted, now, 0);
    assert KeptAt(sorted, i, now) <==> i < n;
    if i < n {
      assert sorted[..n][i] == e;
    }
    if e in sorted[..n] {
      var k :| 0 <= k < n && sorted[..n][k] == e;
      assert k == i;
    }
  }

  /** Pruning again at the same moment removes nothing, and so keeps the same directories in order. */
  lemma PruneTwice(entries: seq<Entry>, now: nat)
    ensures Pruned(Pruned(entries, now), now) == Pruned(entries, now)
  {
    SortedIsNewestFirst(entries);
    KeptIsPrefix(Sorted(entries), now, 0);
    AllKept(Sorted(entries)[..KeptCount(Sorted(entries), now, 0)], now);
  }

  lemma AllKept(kept: seq<Entry>, now: nat)
    requires NewestFirst(kept) && forall i :: 0 <= i < |kept| ==> KeptAt(kept, i, now)
    ensures Pruned(kept, now) == kept
  {
    SortedUnchanged(kept);
    KeptIsPrefix(kept, now, 0);
    if kept != [] {
      assert KeptAt(kept, |kept| - 1, now);
    }
    assert kept[..|kept|] == kept;
  }

  /**
   The reported removal is the size of what was removed exactly when the 64-bit total did not
   saturate, or nothing of any size was removed.
   */
  lemma ReportedBytes(entries: seq<Entry>, now: nat)
    ensures var sorted := Sorted(entries);
            var removed := sorted[KeptCount(sorted, now, 0)..];
            var reported := SaturatingSub(SaturatedBytes(entries), SaturatedBytes(Pruned(entries, now)));
            && Bytes(entries) == Bytes(Pruned(entries, now)) + Bytes(removed)
            && (reported == Bytes(removed) <==> Bytes(entries) <= U64_MAX || Bytes(removed) == 0)
  {
    hide Sorted, KeptCount, Bytes, SaturatedBytes;
    var sorted := Sorted(entries);
    var n := KeptCount(sorted, now, 0);
    SaturationIsMinimum(entries);
    SaturationIsMinimum(sorted[..n]);
    BytesOfPermutation(sorted, entries);
    BytesOfSplit(sorted[..n], sorted[n..]);
    assert sorted == sorted[..n] + sorted[n..];
  }
}
