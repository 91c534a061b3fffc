/** Selected models: following catalog renames and removals, and matching the selection to the store. */
module ModelSelection {
  import opened Wrappers
  import opened Text

  datatype Change = Change(fromSlug: string, toSlug: Option<string>)

  function Key(slug: string): string {
    Lower(Trim(slug))
  }

  // ----- one slug through the changes -----

  /** A change replaces or drops the slug it names, ignoring ASCII case, and leaves any other alone. */
  function RewriteOne(slug: string, change: Change): Option<string> {
    var from := Trim(change.fromSlug);
    if from == [] || !EqualFold(slug, from) then Some(slug) else Normalize(change.toSlug)
  }

  function RewriteSlug(slug: string, changes: seq<Change>): Option<string>
    decreases |changes|
  {
    if changes == [] then Some(slug)
    else
      match RewriteOne(slug, changes[0])
      case Some(next) => RewriteSlug(next, changes[1..])
      case None => None
  }

  function Listed(slug: Option<string>): seq<string> {
    if slug.Some? then [slug.value] else []
  }

  /** Each slug mapped through all the changes in order. */
  function RewriteAll(slugs: seq<string>, changes: seq<Change>): seq<string> {
    if slugs == [] then []
    else RewriteAll(slugs[..|slugs| - 1], changes) + Listed(RewriteSlug(slugs[|slugs| - 1], changes))
  }

  lemma {:induction false} RewriteAllAppend(a: seq<string>, b: seq<string>, changes: seq<Change>)
    ensures RewriteAll(a + b, changes) == RewriteAll(a, changes) + RewriteAll(b, changes)
  {
    if b == [] {
      assert a + b == a;
    } else {
      assert (a + b)[..|a + b| - 1] == a + b[..|b| - 1];
      RewriteAllAppend(a, b[..|b| - 1], changes);
    }
  }

  lemma {:induction false} RewriteSlugThen(slug: string, changes: seq<Change>, last: Change)
    ensures RewriteSlug(slug, changes + [last])
         == match RewriteSlug(slug, changes) case Some(s) => RewriteOne(s, last) case None => None
    decreases |changes|
  {
    if changes == [] {
      assert ([last])[1..] == [];
    } else {
      assert (changes + [last])[1..] == changes[1..] + [last];
      match RewriteOne(slug, changes[0])
      case Some(next) => RewriteSlugThen(next, changes[1..], last);
      case None =>
    }
  }

  /** Applying changes to the whole list one after another is mapping each slug through all of them. */
  lemma {:induction false} RewriteAllThen(slugs: seq<string>, changes: seq<Change>, last: Change)
    ensures RewriteAll(RewriteAll(slugs, changes), [last]) == RewriteAll(slugs, changes + [last])
  {
    if slugs != [] {
      var slug := slugs[|slugs| - 1];
      RewriteAllThen(slugs[..|slugs| - 1], changes, last);
      RewriteAllAppend(RewriteAll(slugs[..|slugs| - 1], changes), Listed(RewriteSlug(slug, changes)), [last]);
      RewriteSlugThen(slug, changes, last);
      if RewriteSlug(slug, changes).Some? {
        var s := RewriteSlug(slug, changes).value;
        RewriteAllOne(s, last);
      }
    }
  }

  lemma RewriteAllOne(slug: string, change: Change)
    ensures RewriteAll([slug], [change]) == Listed(RewriteOne(slug, change))
  {
    assert [slug][..0] == [];
    assert [change][1..] == [];
    assert RewriteSlug(slug, [change]) == RewriteOne(slug, change);
  }

  // ----- dropping blanks and duplicates -----

  function Deduplicated(slugs: seq<string>): seq<string> {
    if slugs == [] then []
    else
      var before, slug := Deduplicated(slugs[..|slugs| - 1]), slugs[|slugs| - 1];
      if Trim(slug) == [] || Key(slug) in Keys(before) then before else before + [slug]
  }

  function Keys(slugs: seq<string>): set<string> {
    set slug | slug in slugs :: Key(slug)
  }

  function NonblankKeys(slugs: seq<string>): set<string> {
    set slug | slug in slugs && Trim(slug) != [] :: Key(slug)
  }

  lemma KeysSnoc(slugs: seq<string>, slug: string)
    ensures Keys(slugs + [slug]) == Keys(slugs) + {Key(slug)}
    ensures NonblankKeys(slugs + [slug]) == NonblankKeys(slugs) + if Trim(slug) == [] then {} else {Key(slug)}
  {
    hide Key, Trim;
    assert forall s :: s in slugs + [slug] <==> s in slugs || s == slug;
  }

  /** Exactly the nonblank keys survive. */
  lemma {:induction false} DeduplicatedKeys(slugs: seq<string>)
    ensures Keys(Deduplicated(slugs)) == NonblankKeys(slugs)
  {
    hide Key, Trim, Keys, NonblankKeys;
    if slugs == [] {
      NoKeys();
    } else {
      var rest, slug := slugs[..|slugs| - 1], slugs[|slugs| - 1];
      DeduplicatedKeys(rest);
      assert slugs == rest + [slug];
      KeysSnoc(rest, slug);
      KeysSnoc(Deduplicated(rest), slug);
    }
  }

  lemma NoKeys()
    ensures Keys([]) == {} && NonblankKeys([]) == {}
  {
  }

  predicate DistinctKeys(slugs: seq<string>) {
    forall i, j :: 0 <= i < j < |slugs| ==> Key(slugs[i]) != Key(slugs[j])
  }

  predicate NonblankFrom(slugs: seq<string>, source: seq<string>) {
    forall slug :: slug in slugs ==> slug in source && Trim(slug) != []
  }

  /** Each key survives once, as a slug of the original list. */
  lemma {:induction false} DeduplicatedOnce(slugs: seq<string>)
    ensures DistinctKeys(Deduplicated(slugs)) && NonblankFrom(Deduplicated(slugs), slugs)
  {
    hide Key, Trim;
    if slugs != [] {
      var rest, slug := slugs[..|slugs| - 1], slugs[|slugs| - 1];
      DeduplicatedOnce(rest);
      var before := Deduplicated(rest);
      assert slugs == rest + [slug];
      assert forall i :: 0 <= i < |before| ==> before[i] in before && Key(before[i]) in Keys(before);
    }
  }

  /** The selection after the changes. */
  function Followed(slugs: seq<string>, changes: seq<Change>): seq<string> {
    Deduplicated(RewriteAll(slugs, changes))
  }

  lemma RewriteAllNone(changes: seq<Change>)
    ensures Followed([], changes) == []
  {
  }

  method ApplyManagedModelSelectionChanges(original: seq<string>, changes: seq<Change>)
    returns (slugs: seq<string>, changed: bool)
    ensures slugs == Followed(original, changes)
    ensures changed <==> slugs != original
  {
    slugs := original;
    RewriteAllNothing(original);
    hide RewriteAll, RewriteSlug, Trim, Lower, Normalize;
    for c := 0 to |changes|
      invariant slugs == RewriteAll(original, changes[..c])
    {
      var change := changes[c];
      assert changes[..c + 1] == changes[..c] + [changes[c]];
      RewriteAllThen(original, changes[..c], change);
      var fromSlug := Trim(change.fromSlug);
      if fromSlug == [] {
        RewriteAllBlank(slugs, change);
        continue;
      }
      var replacement := Normalize(change.toSlug);
      var next := [];
      RewriteAllOfNone([change]);
      for i := 0 to |slugs|
        invariant next == RewriteAll(slugs[..i], [change])
      {
        var slug := slugs[i];
        RewriteAllSnoc(slugs, i, change);
        if EqualFold(slug, fromSlug) {
          if replacement.Some? {
            next := next + [replacement.value];
          }
        } else {
          next := next + [slug];
        }
      }
      assert slugs[..|slugs|] == slugs;
      slugs := next;
    }
    assert changes[..|changes|] == changes;
    slugs := Retain(slugs);
    changed := slugs != original;
  }

  lemma RewriteAllOfNone(changes: seq<Change>)
    ensures RewriteAll([], changes) == []
  {
  }

  lemma RewriteAllSnoc(slugs: seq<string>, i: nat, change: Change)
    requires i < |slugs|
    ensures RewriteAll(slugs[..i + 1], [change])
         == RewriteAll(slugs[..i], [change]) + Listed(RewriteOne(slugs[i], change))
  {
    assert slugs[..i + 1] == slugs[..i] + [slugs[i]];
    RewriteAllAppend(slugs[..i], [slugs[i]], [change]);
    RewriteAllOne(slugs[i], change);
  }

  /** `Vec::retain` with a set of the keys seen so far. */
  method Retain(slugs: seq<string>) returns (kept: seq<string>)
    ensures kept == Deduplicated(slugs)
  {
    kept := [];
    var seen := {};
    for i := 0 to |slugs|
      invariant kept == Deduplicated(slugs[..i])
      invariant seen == Keys(kept)
    {
      var slug := slugs[i];
      assert slugs[..i + 1][..i] == slugs[..i];
      if Trim(slug) != [] && Key(slug) !in seen {
        KeysSnoc(kept, slug);
        seen := seen + {Key(slug)};
        kept := kept + [slug];
      }
    }
    assert slugs[..|slugs|] == slugs;
  }

  lemma {:induction false} RewriteAllNothing(slugs: seq<string>)
    ensures RewriteAll(slugs, []) == slugs
  {
    if slugs != [] {
      RewriteAllNothing(slugs[..|slugs| - 1]);
    }
  }

  lemma {:induction false} RewriteAllBlank(slugs: seq<string>, change: Change)
    requires Trim(change.fromSlug) == []
    ensures RewriteAll(slugs, [change]) == slugs
  {
    if slugs != [] {
      RewriteAllBlank(slugs[..|slugs| - 1], change);
      RewriteAllOne(slugs[|slugs| - 1], change);
      assert [change][1..] == [];
    }
  }

  // ----- the selection against the store -----

  /** A stored model: its slug and whatever else its catalog entry says. */
  datatype Model = Model(slug: string, info: string)

  predicate Named(model: Model, selection: seq<string>) {
    exists slug :: slug in selection && Trim(slug) != [] && Key(slug) == Lower(model.slug)
  }

  /** The stored models the selection names, in store order. */
  function Matching(store: seq<Model>, selection: seq<string>): seq<Model> {
    if store == [] then []
    else Matching(store[..|store| - 1], selection)
         + if Named(store[|store| - 1], selection) then [store[|store| - 1]] else []
  }

  function Slugs(models: seq<Model>): (r: seq<string>)
    ensures |r| == |models|
    ensures forall i :: 0 <= i < |r| ==> r[i] == models[i].slug
  {
    seq(|models|, i requires 0 <= i < |models| => models[i].slug)
  }

  lemma {:induction false} MatchingMembers(store: seq<Model>, selection: seq<string>)
    ensures forall m :: m in Matching(store, selection) <==> m in store && Named(m, selection)
  {
    if store != [] {
      MatchingMembers(store[..|store| - 1], selection);
      assert store == store[..|store| - 1] + [store[|store| - 1]];
    }
  }

  /** Deduplicating a selection does not change which stored models it names. */
  lemma DeduplicatedNames(model: Model, slugs: seq<string>)
    ensures Named(model, Deduplicated(slugs)) <==> Named(model, slugs)
  {
    DeduplicatedKeys(slugs);
    DeduplicatedOnce(slugs);
    var kept := Deduplicated(slugs);
    if Named(model, slugs) {
      var slug :| slug in slugs && Trim(slug) != [] && Key(slug) == Lower(model.slug);
      assert Key(slug) in Keys(kept);
      var other :| other in kept && Key(other) == Key(slug);
      assert Trim(other) != [];
    }
    if Named(model, kept) {
      var slug :| slug in kept && Trim(slug) != [] && Key(slug) == Lower(model.slug);
      assert slug in slugs;
    }
  }

  /** So the catalog of a followed selection is what mapping each slug through the changes names. */
  lemma {:induction false} MatchingFollowed(store: seq<Model>, slugs: seq<string>, changes: seq<Change>)
    ensures Matching(store, Followed(slugs, changes)) == Matching(store, RewriteAll(slugs, changes))
  {
    if store != [] {
      MatchingFollowed(store[..|store| - 1], slugs, changes);
      DeduplicatedNames(store[|store| - 1], RewriteAll(slugs, changes));
    }
  }

  /** What an explicit selection resolves to; unknown or empty selections are refused. */
  function Selected(store: seq<Model>, selection: seq<string>): Result<seq<Model>> {
    if (forall slug :: slug in selection ==> Trim(slug) == []) then Err
    else if exists slug :: slug in selection && Trim(slug) != []
                           && Key(slug) !in (set m | m in Matching(store, selection) :: Lower(m.slug)) then Err
    else Ok(Matching(store, selection))
  }

  /** An accepted selection is matched in full: every slug has its model and every model its slug. */
  lemma SelectedIsComplete(store: seq<Model>, selection: seq<string>)
    requires Selected(store, selection).Ok?
    ensures var models := Selected(store, selection).value;
            && models != []
            && (forall m :: m in models ==> m in store && Named(m, selection))
            && (forall slug :: slug in selection && Trim(slug) != [] ==>
                  exists m :: m in models && Lower(m.slug) == Key(slug))
  {
    hide Key, Trim, Lower;
    MatchingMembers(store, selection);
    var slug :| slug in selection && Trim(slug) != [];
    assert Key(slug) in set m | m in Matching(store, selection) :: Lower(m.slug);
  }

  /**
   The picked models are the stored ones at these positions, which are those of the models that some
   nonblank slug of the selection names, trimmed and ignoring ASCII case; in store order.
   */
  ghost predicate PicksAt(store: seq<Model>, picked: seq<Model>, selection: seq<string>, at: seq<nat>) {
    && |at| == |picked|
    && (forall i :: 0 <= i < |at| ==> at[i] < |store| && picked[i] == store[at[i]])
    && (forall i, j :: 0 <= i < j < |at| ==> at[i] < at[j])
    && (forall k: nat :: k < |store| ==>
          (k in at <==> Asks(selection, store[k].slug)))
  }

  ghost predicate Asks(selection: seq<string>, name: string) {
    exists slug :: slug in selection && Trim(slug) != [] && EqualFold(Trim(slug), name)
  }

  ghost predicate Picks(store: seq<Model>, picked: seq<Model>, selection: seq<string>) {
    exists at :: PicksAt(store, picked, selection, at)
  }

  lemma {:induction false} MatchingAt(store: seq<Model>, selection: seq<string>) returns (at: seq<nat>)
    ensures PicksAt(store, Matching(store, selection), selection, at)
  {
    hide Trim, Lower, Asks, Named;
    at := [];
    if store != [] {
      var rest, last := store[..|store| - 1], store[|store| - 1];
      at := MatchingAt(rest, selection);
      assert forall k: nat :: k < |rest| ==> store[k] == rest[k];
      NamedBy(last, selection);
      if Named(last, selection) {
        at := at + [|rest|];
      }
    }
  }

  lemma NamedBy(model: Model, selection: seq<string>)
    ensures Named(model, selection) <==> Asks(selection, model.slug)
  {
    hide Trim, Lower;
  }

  /** Both ways of matching a selection list, in store order, exactly the stored models it names. */
  lemma MatchingPicks(store: seq<Model>, selection: seq<string>)
    ensures Picks(store, Matching(store, selection), selection)
  {
    var at := MatchingAt(store, selection);
  }

  /** A selection is accepted exactly if it has a nonblank slug and every such slug has its stored model. */
  lemma SelectedExactly(store: seq<Model>, selection: seq<string>)
    ensures Selected(store, selection).Ok? <==>
              && (exists slug :: slug in selection && Trim(slug) != [])
              && (forall slug :: slug in selection && Trim(slug) != [] ==>
                    exists m :: m in store && EqualFold(Trim(slug), m.slug))
    ensures Selected(store, selection).Ok? ==> Picks(store, Selected(store, selection).value, selection)
  {
    hide Trim, Lower;
    MatchingPicks(store, selection);
    MatchingMembers(store, selection);
    hide Matching, Picks;
    var keys := set m | m in Matching(store, selection) :: Lower(m.slug);
    forall slug | slug in selection && Trim(slug) != []
      ensures Key(slug) in keys <==> exists m :: m in store && EqualFold(Trim(slug), m.slug)
    {
      if m :| m in store && EqualFold(Trim(slug), m.slug) {
        assert Key(slug) == Lower(m.slug) && Named(m, selection);
      }
    }
  }
}
