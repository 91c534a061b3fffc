/**
 What a call leaves in the table: row by row, for the stored models and for the requests, and exactly
 when something is lost.
 */
module AssociationOutcome {
  import opened CatalogStore
  import opened ModelAssociation
  import opened ModelIds
  import opened Text
  import opened Wrappers

  // ----- which row each request is written to -----

  predicate Creates(b: Batch, k: nat) {
    k < |b.requested| && Find(b.models, b.requested[k]).None?
  }

  /** The id made for a new model is that of a stored one, which had the slug before it was renamed. */
  predicate Takes(b: Batch, k: nat, j: nat) {
    Creates(b, k) && j < |b.models| && b.models[j].id == CustomId(b.requested[k])
  }

  predicate Extends(b: Batch, k: nat, j: nat) {
    && k < |b.requested| && Find(b.models, b.requested[k]) == Some(j)
    && !HasRoute(b.models[j], b.req.apiId, b.requested[k])
  }

  predicate Appends(b: Batch, k: nat) {
    Creates(b, k) && FindId(b.models, CustomId(b.requested[k])).None?
  }

  function Created(b: Batch, k: nat): Model
    requires k < |b.requested|
  {
    NewModel(b.req, b.requested[k], k)
  }

  /** The request that has last written its new model over row `j`, unless the row's own model came back since. */
  function TakenBy(b: Batch, n: nat, j: nat): (r: Option<nat>)
    requires n <= |b.requested|
    ensures r.Some? ==> r.value < n && Takes(b, r.value, j)
  {
    if n == 0 || Extends(b, n - 1, j) then None
    else if Takes(b, n - 1, j) then Some(n - 1)
    else TakenBy(b, n - 1, j)
  }

  /** What row `j` holds after `n` requests. */
  function Holder(b: Batch, n: nat, j: nat): Model
    requires n <= |b.requested| && j < |b.models|
  {
    var m := b.models[j];
    if n == 0 then m
    else if Extends(b, n - 1, j) then StoredAs(WithRoute(m, b.req.apiId, b.requested[n - 1]), m.id, m.builtin)
    else if Takes(b, n - 1, j) then StoredAs(Created(b, n - 1), m.id, m.builtin)
    else Holder(b, n - 1, j)
  }

  /** The requests that append a row. */
  function Appended(b: Batch, n: nat): (ks: seq<nat>)
    requires n <= |b.requested|
    ensures forall k: nat :: k in ks <==> k < n && Appends(b, k)
  {
    if n == 0 then [] else Appended(b, n - 1) + if Appends(b, n - 1) then [n - 1] else []
  }

  function NewRow(b: Batch, k: nat): Model
    requires k < |b.requested|
  {
    StoredAs(Created(b, k), CustomId(b.requested[k]), false)
  }

  function NewRows(b: Batch, ks: seq<nat>): seq<Model>
    requires forall k :: k in ks ==> k < |b.requested|
  {
    seq(|ks|, i requires 0 <= i < |ks| => assert ks[i] in ks; NewRow(b, ks[i]))
  }

  function OldRows(b: Batch, n: nat): seq<Model>
    requires n <= |b.requested|
  {
    seq(|b.models|, j requires 0 <= j < |b.models| => Holder(b, n, j))
  }

  /** The table after `n` requests, row by row. */
  function Expected(b: Batch, n: nat): seq<Model>
    requires n <= |b.requested|
  {
    OldRows(b, n) + NewRows(b, Appended(b, n))
  }

  lemma {:induction false} HolderView(b: Batch, n: nat, j: nat)
    requires n <= |b.requested| && j < |b.models|
    ensures var row, taken := Holder(b, n, j), TakenBy(b, n, j);
            && row.id == b.models[j].id && row.builtin == b.models[j].builtin
            && row.slug == (if taken.Some? then b.requested[taken.value] else b.models[j].slug)
            && (taken.Some? ==> row == StoredAs(Created(b, taken.value), b.models[j].id, b.models[j].builtin))
  {
    hide HasRoute, AddedRoute, DisplayName, Listed, Identified, Find, CustomId;
    if n > 0 && !Extends(b, n - 1, j) && !Takes(b, n - 1, j) {
      HolderView(b, n - 1, j);
    }
  }

  /** Every row is an old model in its place, or one that a request created. */
  lemma RowView(b: Batch, n: nat, i: nat) returns (k: Option<nat>)
    requires n <= |b.requested| && i < |Expected(b, n)|
    ensures var row := Expected(b, n)[i];
            match k
            case None => i < |b.models| && TakenBy(b, n, i).None? && row.slug == b.models[i].slug
              && row.id == b.models[i].id
            case Some(k) =>
              && k < n && Creates(b, k) && row.slug == b.requested[k] && row.id == CustomId(b.requested[k])
              && (if i < |b.models| then TakenBy(b, n, i) == Some(k)
                  else Appends(b, k) && i - |b.models| < |Appended(b, n)| && Appended(b, n)[i - |b.models|] == k)
  {
    hide Holder, HasRoute, Find, FindId, DisplayName, Listed, Identified, CustomId;
    if i < |b.models| {
      HolderView(b, n, i);
      k := TakenBy(b, n, i);
    } else {
      var ks := Appended(b, n);
      assert ks[i - |b.models|] in ks;
      k := Some(ks[i - |b.models|]);
    }
  }

  lemma CreatesNoStored(b: Batch, k: nat, j: nat)
    requires Creates(b, k) && j < |b.models|
    ensures !EqualFold(b.models[j].slug, b.requested[k]) && !EqualFold(b.requested[k], b.models[j].slug)
  {
    hide EqualFold;
    FoldSymmetric(b.models[j].slug, b.requested[k]);
  }

  lemma RequestsDiffer(b: Batch, i: nat, k: nat)
    requires Distinct(b.requested) && i < |b.requested| && k < |b.requested| && i != k
    ensures !EqualFold(b.requested[i], b.requested[k]) && CustomId(b.requested[i]) != CustomId(b.requested[k])
  {
    hide Lower, CustomId;
    FoldSymmetric(b.requested[i], b.requested[k]);
    CustomIdsAgree(b.requested[i], b.requested[k]);
  }

  // ----- one write after another -----

  lemma HolderStays(b: Batch, n: nat, i: nat)
    requires n < |b.requested| && i < |b.models| && !Extends(b, n, i) && !Takes(b, n, i)
    ensures Holder(b, n + 1, i) == Holder(b, n, i)
  {
    hide Extends, Takes, StoredAs, WithRoute, Created;
  }

  lemma AppendedStays(b: Batch, n: nat)
    requires n < |b.requested|
    ensures Appended(b, n + 1) == if Appends(b, n) then Appended(b, n) + [n] else Appended(b, n)
  {
    hide Appends;
  }

  /** A request that writes no row, or one row only. */
  lemma OneRow(b: Batch, n: nat, j: nat)
    requires n < |b.requested| && !Appends(b, n)
    requires forall i: nat :: i < |b.models| && i != j ==> !Extends(b, n, i) && !Takes(b, n, i)
    ensures j < |b.models| ==> Expected(b, n + 1) == Expected(b, n)[j := Holder(b, n + 1, j)]
    ensures j >= |b.models| ==> Expected(b, n + 1) == Expected(b, n)
  {
    hide Holder, NewRows, Appends, Extends, Takes, Appended;
    AppendedStays(b, n);
    forall i: nat | i < |b.models| && i != j ensures Holder(b, n + 1, i) == Holder(b, n, i) {
      HolderStays(b, n, i);
    }
    if j < |b.models| {
      assert OldRows(b, n + 1) == OldRows(b, n)[j := Holder(b, n + 1, j)];
    } else {
      assert OldRows(b, n + 1) == OldRows(b, n);
    }
  }

  lemma PresentStep(b: Batch, n: nat)
    requires n < |b.requested| && At(b, n).Present?
    ensures Expected(b, n + 1) == Expected(b, n)
  {
    hide HasRoute, Find, FindId, CustomId, Expected, Holder;
    OneRow(b, n, |b.models|);
  }

  /** A row that is written where the model of `j` was. */
  lemma ExtendGoes(b: Batch, n: nat, j: nat)
    requires Ready(b) && Extends(b, n, j) && IsTable(Expected(b, n))
    ensures RowId(Expected(b, n), WithRoute(b.models[j], b.req.apiId, b.requested[n])) == b.models[j].id
    ensures FindId(Expected(b, n), b.models[j].id) == Some(j)
  {
    hide Expected, HasRoute, AddedRoute, RoutesNamed, RoutesApart, RoutesOrdered, EqualFold, CustomId, Trim, Appends;
    hide Appended;
    var rows, slug := Expected(b, n), b.models[j].slug;
    ExpectedSize(b, n);
    var own := RowView(b, n, j);
    FindIdUnique(rows, j);
    assert rows[j].id == b.models[j].id;
    match Find(rows, slug)
    case Some(i) =>
      var k := RowView(b, n, i);
      if k.Some? {
        CreatesNoStored(b, k.value, j);
      } else {
        FindUnique(b.models, slug, j);
        FoldSymmetric(b.models[i].slug, slug);
        FindUnique(b.models, slug, i);
      }
    case None =>
      assert !EqualFold(rows[j].slug, slug);
      FoldReflexive(slug);
      IdsAreNotBlank(b.requested[own.value], "", AddedRoute(b.models[j], "", ""));
  }

  lemma ExpectedSize(b: Batch, n: nat)
    requires n <= |b.requested|
    ensures |Expected(b, n)| == |b.models| + |Appended(b, n)|
    ensures forall j :: 0 <= j < |b.models| ==> Expected(b, n)[j] == Holder(b, n, j)
  {
    hide Holder, NewRow;
  }

  lemma NewRowAt(b: Batch, n: nat, at: nat)
    requires n <= |b.requested| && at < |Appended(b, n)|
    ensures Appended(b, n)[at] < |b.requested| && |b.models| + at < |Expected(b, n)|
    ensures Expected(b, n)[|b.models| + at] == NewRow(b, Appended(b, n)[at])
  {
    hide Holder, NewRow, Appends;
    assert Appended(b, n)[at] in Appended(b, n);
  }

  lemma ExtendStep(b: Batch, n: nat, j: nat)
    requires Ready(b) && Extends(b, n, j) && IsTable(Expected(b, n))
    ensures Write(Expected(b, n), WithRoute(b.models[j], b.req.apiId, b.requested[n])).Ok? ==>
              Write(Expected(b, n), WithRoute(b.models[j], b.req.apiId, b.requested[n])).value == Expected(b, n + 1)
  {
    ExtendGoes(b, n, j);
    WriteGoes(Expected(b, n), WithRoute(b.models[j], b.req.apiId, b.requested[n]));
    ExpectedSize(b, n);
    HolderView(b, n, j);
    ExtendsRow(b, n, j);
    hide *;
  }

  lemma ExtendsRow(b: Batch, n: nat, j: nat)
    requires Extends(b, n, j)
    ensures j < |Expected(b, n)|
    ensures Expected(b, n + 1)
            == Expected(b, n)[j := StoredAs(WithRoute(b.models[j], b.req.apiId, b.requested[n]), b.models[j].id,
                                            b.models[j].builtin)]
  {
    hide HasRoute, AddedRoute, CustomId, FindId, Find, StoredAs, WithRoute, NewRow, Expected, Created, Appended;
    ExpectedSize(b, n);
    OneRow(b, n, j);
  }

  lemma CreateGoes(b: Batch, n: nat)
    requires Ready(b) && Creates(b, n)
    ensures Find(Expected(b, n), b.requested[n]).None?
    ensures RowId(Expected(b, n), Created(b, n)) == CustomId(b.requested[n])
    ensures Appends(b, n) ==> FindId(Expected(b, n), CustomId(b.requested[n])).None?
  {
    hide Expected, HasRoute, IsTable, EqualFold, CustomId, Distinct, DisplayName, Wrap, Appended;
    var rows, slug := Expected(b, n), b.requested[n];
    if Find(rows, slug).Some? {
      var i := Find(rows, slug).value;
      var k := RowView(b, n, i);
      if k.Some? {
        RequestsDiffer(b, k.value, n);
      } else {
        CreatesNoStored(b, n, i);
      }
    }
    if Appends(b, n) && FindId(rows, CustomId(slug)).Some? {
      var k := RowView(b, n, FindId(rows, CustomId(slug)).value);
      if k.Some? {
        RequestsDiffer(b, k.value, n);
      }
    }
  }

  lemma CreateStep(b: Batch, n: nat)
    requires Ready(b) && Creates(b, n) && IsTable(Expected(b, n))
    ensures Write(Expected(b, n), Created(b, n)).Ok?
            ==> Write(Expected(b, n), Created(b, n)).value == Expected(b, n + 1)
  {
    CreateGoes(b, n);
    WriteGoes(Expected(b, n), Created(b, n));
    match FindId(b.models, CustomId(b.requested[n]))
    case Some(j) =>
      TakesRow(b, n, j);
    case None =>
      NewLast(b, n);
  }

  lemma TakesRow(b: Batch, n: nat, j: nat)
    requires UniqueIds(b.models) && Takes(b, n, j) && IsTable(Expected(b, n))
    ensures j < |Expected(b, n)| && FindId(Expected(b, n), CustomId(b.requested[n])) == Some(j)
    ensures Expected(b, n + 1)
            == Expected(b, n)[j := StoredAs(Created(b, n), b.models[j].id, Expected(b, n)[j].builtin)]
  {
    hide HasRoute, AddedRoute, CustomId, Find, StoredAs, WithRoute, NewRow, RoutesNamed, RoutesApart, RoutesOrdered;
    hide UniqueSlugs, Created, Expected, Appended;
    FindIdUnique(b.models, j);
    ExpectedSize(b, n);
    HolderView(b, n, j);
    FindIdUnique(Expected(b, n), j);
    OneRow(b, n, j);
  }

  lemma NewLast(b: Batch, n: nat)
    requires Appends(b, n)
    ensures Expected(b, n + 1) == Expected(b, n) + [NewRow(b, n)]
  {
    hide HasRoute, AddedRoute, CustomId, Find, StoredAs, WithRoute, NewModel, Holder, Appended, NewRow;
    AppendedStays(b, n);
    forall i: nat | i < |b.models| ensures Holder(b, n + 1, i) == Holder(b, n, i) {
      HolderStays(b, n, i);
    }
    assert OldRows(b, n + 1) == OldRows(b, n);
    assert NewRows(b, Appended(b, n) + [n]) == NewRows(b, Appended(b, n)) + [NewRow(b, n)];
  }

  /** The transaction, if it goes through, leaves exactly these rows. */
  lemma {:induction false} BatchIsExpected(b: Batch, n: nat)
    requires Ready(b) && n <= |b.requested|
    ensures WriteAll(b.models, Inputs(b, n)).Ok? ==>
              WriteAll(b.models, Inputs(b, n)).value == Expected(b, n) && IsTable(Expected(b, n))
  {
    hide Expected, IsTable, Write, WriteAll, Distinct, At, Inputs;
    if n == 0 {
      NothingYet(b);
    } else {
      BatchIsExpected(b, n - 1);
      WriteAllKeepsTable(b.models, Inputs(b, n));
      InputsStep(b, n - 1);
      if WriteAll(b.models, Inputs(b, n - 1)).Ok? {
        StepIsExpected(b, n - 1);
      }
    }
  }

  /** What one more request adds to the transaction. */
  lemma InputsStep(b: Batch, n: nat)
    requires n < |b.requested|
    ensures WriteAll(b.models, Inputs(b, n + 1))
            == if At(b, n).Present? then WriteAll(b.models, Inputs(b, n))
               else
                 match WriteAll(b.models, Inputs(b, n))
                 case Ok(before) => Write(before, At(b, n).model)
                 case Err => Err
  {
    hide WriteAll, Write, At;
    if At(b, n).Present? {
      assert Inputs(b, n) + [] == Inputs(b, n);
    } else {
      WriteAllSnoc(b.models, Inputs(b, n), At(b, n).model);
    }
  }

  lemma StepIsExpected(b: Batch, n: nat)
    requires Ready(b) && n < |b.requested| && IsTable(Expected(b, n))
    ensures if At(b, n).Present? then Expected(b, n + 1) == Expected(b, n)
            else Write(Expected(b, n), At(b, n).model).Ok? ==>
                   Write(Expected(b, n), At(b, n).model).value == Expected(b, n + 1)
  {
    hide Expected, IsTable, Write, HasRoute, Distinct, NewModel, WithRoute;
    match At(b, n)
    case Present(_) => PresentStep(b, n);
    case Extend(_) => ExtendStep(b, n, Find(b.models, b.requested[n]).value);
    case Create(_) => CreateStep(b, n);
  }

  lemma NothingYet(b: Batch)
    ensures Expected(b, 0) == b.models && WriteAll(b.models, Inputs(b, 0)) == Ok(b.models)
  {
  }

  // ----- what becomes of the stored models and of the requests -----

  /** Row `j` was taken, and the batch did not write its own model after that. */
  ghost predicate Displaced(b: Batch, j: nat) {
    exists k: nat :: Takes(b, k, j) && !ComesBack(b, k, j)
  }

  ghost predicate ComesBack(b: Batch, k: nat, j: nat) {
    exists p: nat :: k < p && Extends(b, p, j)
  }

  lemma NotBoth(b: Batch, k: nat, j: nat)
    ensures !(Takes(b, k, j) && Extends(b, k, j))
  {
  }

  lemma {:induction false} TakenExactly(b: Batch, n: nat, j: nat)
    requires n <= |b.requested|
    ensures TakenBy(b, n, j).Some?
            <==> exists k: nat :: k < n && Takes(b, k, j) && !(exists p: nat :: k < p < n && Extends(b, p, j))
  {
    hide Takes, Extends;
    if n > 0 {
      TakenExactly(b, n - 1, j);
      if Extends(b, n - 1, j) {
        NotBoth(b, n - 1, j);
      } else if Takes(b, n - 1, j) {
        assert n - 1 < n && Takes(b, n - 1, j);
      } else if TakenBy(b, n - 1, j).Some? {
        var k: nat :| k < n - 1 && Takes(b, k, j) && !(exists p: nat :: k < p < n - 1 && Extends(b, p, j));
        assert k < n && !(exists p: nat :: k < p < n && Extends(b, p, j));
      }
    }
  }

  lemma DisplacedExactly(b: Batch, j: nat)
    ensures TakenBy(b, |b.requested|, j).Some? <==> Displaced(b, j)
  {
    TakenExactly(b, |b.requested|, j);
    assert forall p: nat :: Extends(b, p, j) ==> p < |b.requested|;
    assert forall k: nat :: Takes(b, k, j) ==> k < |b.requested|;
    hide Takes, Extends, TakenBy;
  }

  /** No two requests take one row, and none but its own extends it. */
  lemma OneTaker(b: Batch, k: nat, i: nat, j: nat)
    requires Distinct(b.requested) && Takes(b, k, j) && Takes(b, i, j)
    ensures i == k
  {
    hide CustomId, Find, Distinct;
    if i != k {
      RequestsDiffer(b, i, k);
    }
  }

  lemma OneExtender(b: Batch, k: nat, i: nat, j: nat)
    requires Distinct(b.requested) && Extends(b, k, j) && Extends(b, i, j)
    ensures i == k
  {
    hide CustomId, HasRoute, EqualFold, Distinct;
    if i != k {
      FoldSymmetric(b.models[j].slug, b.requested[i]);
      FoldTransitive(b.requested[i], b.models[j].slug, b.requested[k]);
      RequestsDiffer(b, i, k);
    }
  }

  /** The request's slug is gone from the catalog at the end. */
  ghost predicate Lost(b: Batch, k: nat)
    requires k < |b.requested|
  {
    match Find(b.models, b.requested[k])
    case Some(j) => Displaced(b, j)
    case None => exists j: nat :: Takes(b, k, j) && ComesBack(b, k, j)
  }

  /** The row that holds a new model at the end, if it is not lost. */
  lemma CreatedRow(b: Batch, k: nat) returns (i: nat)
    requires Ready(b) && Creates(b, k) && !Lost(b, k)
    ensures i < |Expected(b, |b.requested|)|
    ensures var row := Expected(b, |b.requested|)[i];
            row == StoredAs(Created(b, k), CustomId(b.requested[k]), row.builtin)
  {
    hide HasRoute, IsTable, EqualFold, CustomId, Distinct, NewModel, Listed, Identified, Find, Extends;
    var n := |b.requested|;
    ExpectedSize(b, n);
    match FindId(b.models, CustomId(b.requested[k]))
    case Some(j) =>
      i := j;
      assert Takes(b, k, j) && !ComesBack(b, k, j);
      DisplacedExactly(b, j);
      HolderView(b, n, j);
      OneTaker(b, k, TakenBy(b, n, j).value, j);
    case None =>
      assert k in Appended(b, n);
      var at :| 0 <= at < |Appended(b, n)| && Appended(b, n)[at] == k;
      NewRowAt(b, n, at);
      i := |b.models| + at;
  }

  /** The slug of a request is found at the end exactly if the request is not lost. */
  lemma FoundExactly(b: Batch, k: nat)
    requires Ready(b) && k < |b.requested|
    ensures Find(Expected(b, |b.requested|), b.requested[k]).Some? <==> !Lost(b, k)
  {
    var n, rows, slug := |b.requested|, Expected(b, |b.requested|), b.requested[k];
    if !Lost(b, k) {
      NotLostIsFound(b, k);
    } else if Find(rows, slug).Some? {
      LostIsGone(b, k, Find(rows, slug).value);
    }
  }

  lemma NotLostIsFound(b: Batch, k: nat)
    requires Ready(b) && k < |b.requested| && !Lost(b, k)
    ensures Find(Expected(b, |b.requested|), b.requested[k]).Some?
  {
    hide HasRoute, IsTable, CustomId, Distinct, NewModel, Extends, Takes, Expected, Lower, ComesBack;
    var n := |b.requested|;
    match Find(b.models, b.requested[k])
    case Some(j) =>
      DisplacedExactly(b, j);
      ExpectedSize(b, n);
      HolderView(b, n, j);
      assert EqualFold(Expected(b, n)[j].slug, b.requested[k]);
    case None =>
      var i := CreatedRow(b, k);
      CreatedSlug(b, k);
      assert EqualFold(Expected(b, n)[i].slug, b.requested[k]);
  }

  lemma CreatedSlug(b: Batch, k: nat)
    requires k < |b.requested|
    ensures Created(b, k).slug == b.requested[k]
  {
  }

  lemma LostIsGone(b: Batch, k: nat, i: nat)
    requires Ready(b) && k < |b.requested| && Lost(b, k) && i < |Expected(b, |b.requested|)|
    ensures !EqualFold(Expected(b, |b.requested|)[i].slug, b.requested[k])
  {
    hide HasRoute, RoutesNamed, RoutesApart, RoutesOrdered, CustomId, Distinct, NewModel, Expected, EqualFold, Extends;
    hide Appended;
    hide UniqueIds, Displaced, ComesBack, TakenBy;
    var n, slug, rows := |b.requested|, b.requested[k], Expected(b, |b.requested|);
    var owner := RowView(b, n, i);
    if EqualFold(rows[i].slug, slug) {
      match owner
      case Some(t) =>
        if t != k {
          RequestsDiffer(b, t, k);
        } else {
          LostTakerIsGone(b, k, i);
        }
      case None =>
        FindUnique(b.models, slug, i);
        DisplacedExactly(b, i);
    }
  }

  /** A request whose row was given back holds no row. */
  lemma LostTakerIsGone(b: Batch, k: nat, i: nat)
    requires Ready(b) && Creates(b, k) && Lost(b, k)
    ensures i < |b.models| ==> TakenBy(b, |b.requested|, i) != Some(k)
    ensures !Appends(b, k)
  {
    hide HasRoute, RoutesNamed, RoutesApart, RoutesOrdered, CustomId, Distinct, Find, EqualFold, UniqueSlugs;
    var j: nat :| Takes(b, k, j) && ComesBack(b, k, j);
    if i < |b.models| && TakenBy(b, |b.requested|, i) == Some(k) {
      FindIdUnique(b.models, i);
      FindIdUnique(b.models, j);
      var p: nat :| k < p && Extends(b, p, j);
      TakenIsLast(b, |b.requested|, j, p);
    }
  }

  lemma {:induction false} TakenIsLast(b: Batch, n: nat, j: nat, p: nat)
    requires n <= |b.requested| && p < n && Extends(b, p, j)
    ensures TakenBy(b, n, j).Some? ==> p < TakenBy(b, n, j).value
  {
    hide Takes, Extends;
    if n > 0 && !Extends(b, n - 1, j) && !Takes(b, n - 1, j) {
      TakenIsLast(b, n - 1, j, p);
    }
  }

  // ----- routing -----

  predicate IsFrom(r: Route, apiId: string) {
    r.sourceKind == "aggregate_api" && r.sourceId == apiId
  }

  /** The route leads to this upstream model of the API, ignoring ASCII case. */
  predicate LeadsTo(r: Route, apiId: string, upstream: string) {
    IsFrom(r, apiId) && EqualFold(r.upstreamModel, upstream)
  }

  ghost predicate HasLead(model: Model, apiId: string, upstream: string) {
    exists r :: r in model.routes && LeadsTo(r, apiId, upstream)
  }

  /** A model of this slug has a route to the API's model of this id. */
  ghost predicate Covers(models: seq<Model>, apiId: string, id: string) {
    exists m :: m in models && EqualFold(m.slug, id) && HasLead(m, apiId, id)
  }

  lemma HasLeadIs(model: Model, apiId: string, upstream: string)
    ensures HasLead(model, apiId, upstream) <==> HasRoute(model, apiId, upstream)
  {
    hide EqualFold;
    forall r | r in model.routes
      ensures LeadsTo(r, apiId, upstream) <==> FromApi(r, apiId) && EqualFold(r.upstreamModel, upstream)
    {
    }
  }

  lemma {:induction false} IdentifiedMember(routes: seq<Route>, modelId: string, r: Route) returns (named: Route)
    requires r in routes
    ensures named in Identified(routes, modelId) && named.(id := r.id) == r
  {
    hide Trim, RouteId;
    var last := routes[|routes| - 1];
    if r in routes[..|routes| - 1] {
      named := IdentifiedMember(routes[..|routes| - 1], modelId, r);
    } else {
      assert r == last;
      named := Identified(routes, modelId)[|Identified(routes, modelId)| - 1];
    }
  }

  /** Storing a model keeps what it routes. */
  lemma StoredHasRoute(input: Model, id: string, builtin: bool, apiId: string, upstream: string)
    requires HasRoute(input, apiId, upstream)
    ensures HasRoute(StoredAs(input, id, builtin), apiId, upstream)
  {
    hide Identified, Listed, EqualFold;
    var r :| r in input.routes && FromApi(r, apiId) && EqualFold(r.upstreamModel, upstream);
    var named := IdentifiedMember(input.routes, id, r);
    assert named in multiset(StoredAs(input, id, builtin).routes);
  }

  lemma AddedHasRoute(model: Model, apiId: string, upstream: string)
    ensures HasRoute(WithRoute(model, apiId, upstream), apiId, upstream)
  {
    var routes := model.routes + [AddedRoute(model, apiId, upstream)];
    assert routes[|model.routes|] in routes;
  }

  lemma CreatedHasRoute(b: Batch, k: nat)
    requires k < |b.requested|
    ensures HasRoute(Created(b, k), b.req.apiId, b.requested[k])
  {
    hide Lower, DisplayName, Wrap;
    assert Created(b, k).routes[0] in Created(b, k).routes;
  }

  /** A row that nothing has taken holds its own model, extended by the one request for it, if any. */
  lemma {:induction false} HolderKept(b: Batch, n: nat, j: nat) returns (p: Option<nat>)
    requires n <= |b.requested| && j < |b.models| && TakenBy(b, n, j).None?
    ensures match p
            case None => Holder(b, n, j) == b.models[j] && forall i: nat :: i < n ==> !Extends(b, i, j)
            case Some(p) =>
              && p < n && Extends(b, p, j)
              && Holder(b, n, j) == StoredAs(WithRoute(b.models[j], b.req.apiId, b.requested[p]), b.models[j].id,
                                             b.models[j].builtin)
  {
    hide Extends, Takes, StoredAs, WithRoute, Created;
    if n == 0 {
      p := None;
    } else if Extends(b, n - 1, j) {
      p := Some(n - 1);
    } else {
      p := HolderKept(b, n - 1, j);
    }
  }

  /** The row found for a request routes it. */
  lemma FoundHasRoute(b: Batch, k: nat, i: nat)
    requires Ready(b) && k < |b.requested| && Find(Expected(b, |b.requested|), b.requested[k]) == Some(i)
    ensures HasRoute(Expected(b, |b.requested|)[i], b.req.apiId, b.requested[k])
  {
    hide HasRoute, IsTable, EqualFold, CustomId, Distinct, Created, StoredAs, Expected, Extends, Appended, WithRoute;
    var n := |b.requested|;
    var rows := Expected(b, n);
    var owner := RowView(b, n, i);
    match owner
    case Some(t) =>
      if t != k {
        RequestsDiffer(b, t, k);
      }
      var id, builtin := OwnedRow(b, n, i, k);
      CreatedHasRoute(b, k);
      StoredHasRoute(Created(b, k), id, builtin, b.req.apiId, b.requested[k]);
    case None =>
      ExpectedSize(b, n);
      KeptHasRoute(b, k, i);
  }

  /** A created row as it was stored. */
  lemma OwnedRow(b: Batch, n: nat, i: nat, k: nat) returns (id: string, builtin: bool)
    requires n <= |b.requested| && i < |Expected(b, n)| && k < |b.requested|
    requires if i < |b.models| then TakenBy(b, n, i) == Some(k)
             else i - |b.models| < |Appended(b, n)| && Appended(b, n)[i - |b.models|] == k
    ensures Expected(b, n)[i] == StoredAs(Created(b, k), id, builtin)
  {
    hide Expected, StoredAs, Created, CustomId;
    ExpectedSize(b, n);
    if i < |b.models| {
      HolderView(b, n, i);
      id, builtin := b.models[i].id, b.models[i].builtin;
    } else {
      NewRowAt(b, n, i - |b.models|);
      id, builtin := CustomId(b.requested[k]), false;
    }
  }

  lemma KeptHasRoute(b: Batch, k: nat, i: nat)
    requires Ready(b) && k < |b.requested| && i < |b.models| && TakenBy(b, |b.requested|, i).None?
    requires EqualFold(b.models[i].slug, b.requested[k])
    ensures HasRoute(Holder(b, |b.requested|, i), b.req.apiId, b.requested[k])
  {
    hide HasRoute, RoutesNamed, RoutesApart, RoutesOrdered, EqualFold, CustomId, Distinct, StoredAs, WithRoute, Holder;
    FindUnique(b.models, b.requested[k], i);
    var p := HolderKept(b, |b.requested|, i);
    if p.Some? {
      if p.value != k {
        FoldSymmetric(b.models[i].slug, b.requested[p.value]);
        FoldTransitive(b.requested[p.value], b.models[i].slug, b.requested[k]);
        RequestsDiffer(b, p.value, k);
      }
      AddedHasRoute(b.models[i], b.req.apiId, b.requested[k]);
      StoredHasRoute(WithRoute(b.models[i], b.req.apiId, b.requested[k]), b.models[i].id, b.models[i].builtin,
                     b.req.apiId, b.requested[k]);
    } else {
      assert !Extends(b, k, i);
    }
  }

  /** At the end of a batch a request is routed to the API exactly if it is not lost. */
  lemma EveryRequestIsRouted(b: Batch, k: nat)
    requires Ready(b) && Written(b).Ok? && k < |b.requested|
    ensures Covers(Written(b).value, b.req.apiId, b.requested[k]) <==> !Lost(b, k)
  {
    hide HasRoute, HasLead, IsTable, EqualFold, Distinct, Lost, Expected;
    BatchIsExpected(b, |b.requested|);
    FoundExactly(b, k);
    var rows := Expected(b, |b.requested|);
    match Find(rows, b.requested[k])
    case Some(i) =>
      FoundHasRoute(b, k, i);
      HasLeadIs(rows[i], b.req.apiId, b.requested[k]);
      assert rows[i] in rows;
    case None =>
      forall m | m in rows ensures !EqualFold(m.slug, b.requested[k]) {
        var i :| 0 <= i < |rows| && rows[i] == m;
      }
  }

  // ----- what the routes are like -----

  ghost predicate HasEnabled(model: Model, apiId: string, upstream: string) {
    exists r :: r in model.routes && LeadsTo(r, apiId, upstream) && r.enabled
  }

  ghost predicate CoversEnabled(models: seq<Model>, apiId: string, id: string) {
    exists m :: m in models && EqualFold(m.slug, id) && HasEnabled(m, apiId, id)
  }

  /**
   What a further route inherits: priority and weight of the model's first route to the API, the
   weight at least 1.
   */
  lemma AddedRouteView(model: Model, apiId: string, upstream: string)
    ensures var r := AddedRoute(model, apiId, upstream);
            && r.sourceKind == "aggregate_api" && r.sourceId == apiId && r.upstreamModel == upstream && r.enabled
            && Trim(r.id) == [] && r.weight >= 1
            && ((forall i :: 0 <= i < |model.routes| ==> !IsFrom(model.routes[i], apiId)) ==>
                  r.priority == 0 && r.weight == 1)
            && (forall i :: 0 <= i < |model.routes| && IsFrom(model.routes[i], apiId)
                            && (forall j :: 0 <= j < i ==> !IsFrom(model.routes[j], apiId)) ==>
                  && r.priority == model.routes[i].priority
                  && (model.routes[i].weight >= 1 ==> r.weight == model.routes[i].weight)
                  && (model.routes[i].weight < 1 ==> r.weight == 1))
  {
    FirstView(model.routes, apiId);
    BlankIsBlank();
    assert forall r :: r in model.routes ==> (IsFrom(r, apiId) <==> FromApi(r, apiId));
    hide FromApi;
  }

  lemma {:induction false} FirstView(routes: seq<Route>, apiId: string)
    ensures FirstFromApi(routes, apiId).None? <==> forall i :: 0 <= i < |routes| ==> !FromApi(routes[i], apiId)
    ensures forall i :: 0 <= i < |routes| && FromApi(routes[i], apiId)
                        && (forall j :: 0 <= j < i ==> !FromApi(routes[j], apiId)) ==>
              FirstFromApi(routes, apiId) == Some(routes[i])
  {
    hide FromApi;
    if routes != [] && !FromApi(routes[0], apiId) {
      FirstView(routes[1..], apiId);
      assert forall i :: 0 < i < |routes| ==> routes[i] == routes[1..][i - 1];
      forall i | 0 <= i < |routes| && FromApi(routes[i], apiId)
        && (forall j :: 0 <= j < i ==> !FromApi(routes[j], apiId))
        ensures FirstFromApi(routes, apiId) == Some(routes[i])
      {
        assert forall j :: 0 <= j < i - 1 ==> routes[1..][j] == routes[j + 1];
        assert routes[1..][i - 1] == routes[i];
      }
    }
  }

  /** A new model: the given name, or the id if there is none, and one enabled route to the API. */
  lemma NewModelIs(req: Request, id: string, index: nat)
    ensures var m := NewModel(req, id, index);
            && m.slug == id && m.provider == req.api.provider && !m.builtin && Trim(m.id) == []
            && m.routes == [Route("", "aggregate_api", req.apiId, id, true, 0, 1)]
            && m.displayName == DisplayName(req.names, id)
  {
    BlankIsBlank();
    hide DisplayName, Wrap;
  }

  /** The first name given for the id, ignoring case, trimmed; the id itself if there is none or it is blank. */
  lemma {:induction false} DisplayNameView(names: seq<(string, string)>, id: string)
    ensures (forall i :: 0 <= i < |names| ==> !EqualFold(names[i].0, id)) ==> DisplayName(names, id) == id
    ensures forall i :: 0 <= i < |names| && EqualFold(names[i].0, id)
                        && (forall j :: 0 <= j < i ==> !EqualFold(names[j].0, id)) ==>
              DisplayName(names, id) == if Trim(names[i].1) == [] then id else Trim(names[i].1)
  {
    hide EqualFold, Trim;
    if names != [] && !EqualFold(names[0].0, id) {
      DisplayNameView(names[1..], id);
      assert forall i :: 0 < i < |names| ==> names[i] == names[1..][i - 1];
      forall i | 0 <= i < |names| && EqualFold(names[i].0, id)
        && (forall j :: 0 <= j < i ==> !EqualFold(names[j].0, id))
        ensures DisplayName(names, id) == if Trim(names[i].1) == [] then id else Trim(names[i].1)
      {
        assert forall j :: 0 <= j < i - 1 ==> names[1..][j] == names[j + 1];
        assert names[1..][i - 1] == names[i];
      }
    }
  }

  lemma AddedIsEnabled(model: Model, apiId: string, upstream: string)
    ensures HasEnabled(WithRoute(model, apiId, upstream), apiId, upstream)
  {
    AddedRouteView(model, apiId, upstream);
    FoldReflexive(upstream);
    hide EqualFold;
    var routes := model.routes + [AddedRoute(model, apiId, upstream)];
    assert routes[|model.routes|] in routes;
  }

  lemma CreatedIsEnabled(b: Batch, k: nat)
    requires k < |b.requested|
    ensures HasEnabled(Created(b, k), b.req.apiId, b.requested[k])
  {
    FoldReflexive(b.requested[k]);
    hide EqualFold, DisplayName, Wrap;
    assert Created(b, k).routes[0] in Created(b, k).routes;
  }

  lemma StoredIsEnabled(input: Model, id: string, builtin: bool, apiId: string, upstream: string)
    requires HasEnabled(input, apiId, upstream)
    ensures HasEnabled(StoredAs(input, id, builtin), apiId, upstream)
  {
    hide Identified, Listed, EqualFold;
    var r :| r in input.routes && LeadsTo(r, apiId, upstream) && r.enabled;
    var named := IdentifiedMember(input.routes, id, r);
    assert named in multiset(StoredAs(input, id, builtin).routes);
  }

  /** The row found for a request: its own model or an extended one has an enabled route; any other is as it was. */
  lemma FoundIsEnabled(b: Batch, k: nat, i: nat)
    requires Ready(b) && k < |b.requested| && Find(Expected(b, |b.requested|), b.requested[k]) == Some(i)
    ensures var row := Expected(b, |b.requested|)[i];
            if Adds(b, k) then HasEnabled(row, b.req.apiId, b.requested[k])
            else Find(b.models, b.requested[k]) == Some(i) && row == b.models[i]
  {
    hide HasRoute, IsTable, EqualFold, CustomId, Distinct, Created, StoredAs, Expected, Appended, WithRoute;
    hide HasEnabled, Holder, TakenBy, NewModel;
    var n := |b.requested|;
    var owner := RowView(b, n, i);
    match owner
    case Some(t) =>
      if t != k {
        RequestsDiffer(b, t, k);
      }
      var id, builtin := OwnedRow(b, n, i, k);
      CreatedIsEnabled(b, k);
      StoredIsEnabled(Created(b, k), id, builtin, b.req.apiId, b.requested[k]);
    case None =>
      ExpectedSize(b, n);
      KeptIsEnabled(b, k, i);
  }

  lemma KeptIsEnabled(b: Batch, k: nat, i: nat)
    requires Ready(b) && k < |b.requested| && i < |b.models| && TakenBy(b, |b.requested|, i).None?
    requires EqualFold(b.models[i].slug, b.requested[k])
    ensures Find(b.models, b.requested[k]) == Some(i)
    ensures if Adds(b, k) then HasEnabled(Holder(b, |b.requested|, i), b.req.apiId, b.requested[k])
            else Holder(b, |b.requested|, i) == b.models[i]
  {
    hide HasRoute, RoutesNamed, RoutesApart, RoutesOrdered, EqualFold, CustomId, Distinct, StoredAs, WithRoute, Holder;
    hide HasEnabled;
    FindUnique(b.models, b.requested[k], i);
    var p := HolderKept(b, |b.requested|, i);
    if p.Some? {
      if p.value != k {
        FoldSymmetric(b.models[i].slug, b.requested[p.value]);
        FoldTransitive(b.requested[p.value], b.models[i].slug, b.requested[k]);
        RequestsDiffer(b, p.value, k);
      }
      AddedIsEnabled(b.models[i], b.req.apiId, b.requested[k]);
      StoredIsEnabled(WithRoute(b.models[i], b.req.apiId, b.requested[k]), b.models[i].id, b.models[i].builtin,
                      b.req.apiId, b.requested[k]);
    } else {
      assert !Extends(b, k, i);
    }
  }

  /**
   At the end of a batch a request is routed to the API by an enabled route exactly if it is not lost
   and was added now, or had an enabled route: one that is disabled counts as present and stays so.
   */
  lemma EnabledExactly(b: Batch, k: nat)
    requires Ready(b) && Written(b).Ok? && k < |b.requested|
    ensures CoversEnabled(Written(b).value, b.req.apiId, b.requested[k]) <==>
              && !Lost(b, k)
              && (Adds(b, k) || (Find(b.models, b.requested[k]).Some?
                                 && HasEnabled(b.models[Find(b.models, b.requested[k]).value], b.req.apiId,
                                               b.requested[k])))
  {
    hide HasEnabled, UniqueIds, RoutesNamed, RoutesApart, RoutesOrdered, EqualFold, Distinct, Lost, Expected, Adds;
    BatchIsExpected(b, |b.requested|);
    FoundExactly(b, k);
    var rows := Expected(b, |b.requested|);
    match Find(rows, b.requested[k])
    case Some(i) =>
      FoundIsEnabled(b, k, i);
      assert rows[i] in rows;
      forall m | m in rows && EqualFold(m.slug, b.requested[k]) ensures m == rows[i] {
        var j :| 0 <= j < |rows| && rows[j] == m;
        FindUnique(rows, b.requested[k], j);
      }
    case None =>
      forall m | m in rows ensures !EqualFold(m.slug, b.requested[k]) {
        var i :| 0 <= i < |rows| && rows[i] == m;
      }
  }

  // ----- the stored models -----

  /** Everything but routes as before, and every route still there. */
  ghost predicate OnlyGrown(before: Model, after: Model) {
    after == before.(routes := after.routes) && multiset(before.routes) <= multiset(after.routes)
  }

  /** What the request adds, under its id. */
  function RouteAdded(b: Batch, k: nat, j: nat): Route
    requires k < |b.requested| && j < |b.models|
  {
    var r := AddedRoute(b.models[j], b.req.apiId, b.requested[k]);
    r.(id := RouteId(b.models[j].id, r))
  }

  lemma WithRouteStored(b: Batch, k: nat, j: nat)
    requires IsTable(b.models) && k < |b.requested| && j < |b.models|
    ensures var m := b.models[j];
            var after := StoredAs(WithRoute(m, b.req.apiId, b.requested[k]), m.id, m.builtin);
            && after == m.(routes := after.routes)
            && multiset(after.routes) == multiset(m.routes) + multiset{RouteAdded(b, k, j)}
  {
    hide Listed, Identified, UniqueIds, UniqueSlugs, RoutesApart, RoutesOrdered, Named, RouteId, FirstFromApi;
    var m := b.models[j];
    assert m in b.models;
    AlreadyNamed(m.routes, m.id);
    IdentifiedSnoc(m.routes, AddedRoute(m, b.req.apiId, b.requested[k]), m.id);
    assert Trim("") == [];
  }

  /**
   A stored model keeps everything but routes, which only grow, exactly unless it is displaced; then
   its row holds a new model of another slug. A model that keeps gets the one route it was requested
   for and did not have.
   */
  lemma OnlyRoutesGrow(b: Batch, j: nat)
    requires Ready(b) && Written(b).Ok? && j < |b.models|
    ensures j < |Written(b).value|
    ensures OnlyGrown(b.models[j], Written(b).value[j]) <==> !Displaced(b, j)
    ensures Displaced(b, j) ==> !EqualFold(Written(b).value[j].slug, b.models[j].slug)
    ensures !Displaced(b, j) && (forall p: nat :: !Extends(b, p, j)) ==> Written(b).value[j] == b.models[j]
    ensures forall p: nat :: !Displaced(b, j) && Extends(b, p, j) ==>
              multiset(Written(b).value[j].routes) == multiset(b.models[j].routes) + multiset{RouteAdded(b, p, j)}
  {
    hide HasRoute, IsTable, EqualFold, Distinct, Expected, Displaced, StoredAs, Extends, WithRoute, RouteAdded, Holder;
    hide Takes, Creates;
    var n := |b.requested|;
    BatchIsExpected(b, n);
    ExpectedSize(b, n);
    DisplacedExactly(b, j);
    HolderView(b, n, j);
    if TakenBy(b, n, j).Some? {
      TakesCreates(b, TakenBy(b, n, j).value, j);
      CreatesNoStored(b, TakenBy(b, n, j).value, j);
      FoldReflexive(b.models[j].slug);
      FoldSymmetric(b.models[j].slug, b.requested[TakenBy(b, n, j).value]);
    } else {
      var p := HolderKept(b, n, j);
      if p.Some? {
        ExtendsRange(b, p.value, j);
        WithRouteStored(b, p.value, j);
      }
      forall i: nat | Extends(b, i, j) ensures p == Some(i) {
        ExtendsRange(b, i, j);
        if p.Some? {
          OneExtender(b, p.value, i, j);
        }
      }
    }
  }

  lemma TakesCreates(b: Batch, k: nat, j: nat)
    requires Takes(b, k, j)
    ensures Creates(b, k) && k < |b.requested|
  {
  }

  lemma ExtendsRange(b: Batch, k: nat, j: nat)
    requires Extends(b, k, j)
    ensures k < |b.requested| && j < |b.models|
  {
  }

  // ----- when all is well -----

  /** No requested slug is that of a model that has been renamed since. */
  ghost predicate NoTakeover(b: Batch) {
    forall k: nat, j: nat :: !Takes(b, k, j)
  }

  /** Every request is routed and every stored model keeps, exactly if no new model's id is a stored one. */
  lemma AllWellExactly(b: Batch)
    requires Ready(b) && Written(b).Ok?
    ensures |Written(b).value| >= |b.models|
    ensures (forall k: nat :: k < |b.requested| ==> Covers(Written(b).value, b.req.apiId, b.requested[k]))
            && (forall j: nat :: j < |b.models| ==> OnlyGrown(b.models[j], Written(b).value[j]))
            <==> NoTakeover(b)
  {
    hide IsTable, Distinct, Expected, Covers, OnlyGrown, Written, RouteAdded, Takes, ComesBack, Creates;
    AtLeastOld(b);
    forall k: nat | k < |b.requested| ensures Covers(Written(b).value, b.req.apiId, b.requested[k]) <==> !Lost(b, k) {
      EveryRequestIsRouted(b, k);
    }
    forall j: nat | j < |b.models|
      ensures j < |Written(b).value| && (OnlyGrown(b.models[j], Written(b).value[j]) <==> !Displaced(b, j))
    {
      OnlyRoutesGrow(b, j);
    }
    if k: nat, j: nat :| Takes(b, k, j) {
      TakerLoses(b, k, j);
    } else {
      NobodyLoses(b);
    }
  }

  lemma AtLeastOld(b: Batch)
    requires Ready(b) && Written(b).Ok?
    ensures |Written(b).value| >= |b.models|
  {
    hide IsTable, Distinct, Expected, Appended;
    BatchIsExpected(b, |b.requested|);
    ExpectedSize(b, |b.requested|);
  }

  /** When a row is taken either its model or the taker is gone at the end. */
  lemma TakerLoses(b: Batch, k: nat, j: nat)
    requires Takes(b, k, j)
    ensures k < |b.requested| && j < |b.models| && (Displaced(b, j) || Lost(b, k))
  {
    hide Extends, CustomId;
  }

  lemma NobodyLoses(b: Batch)
    requires NoTakeover(b)
    ensures forall j: nat :: !Displaced(b, j)
    ensures forall k: nat :: k < |b.requested| ==> !Lost(b, k)
  {
    hide Extends, Takes, CustomId;
  }

  // ----- what the caller is told -----

  /** A request that hands a model to the store. */
  predicate Adds(b: Batch, k: nat)
    requires k < |b.requested|
  {
    !At(b, k).Present?
  }

  lemma {:induction false} InputsMembers(b: Batch, n: nat, m: Model)
    requires n <= |b.requested|
    ensures m in Inputs(b, n) <==> exists k: nat :: k < n && Adds(b, k) && At(b, k).model == m
  {
    hide At;
    if n > 0 {
      InputsMembers(b, n - 1, m);
      if At(b, n - 1).Present? {
      } else {
        assert m in Inputs(b, n) <==> m in Inputs(b, n - 1) || m == At(b, n - 1).model;
        assert Adds(b, n - 1);
      }
    }
  }

  lemma InputSlug(b: Batch, k: nat)
    requires k < |b.requested| && Adds(b, k)
    ensures EqualFold(At(b, k).model.slug, b.requested[k])
  {
    hide Lower, HasRoute, AddedRoute, DisplayName, Wrap;
  }

  lemma {:induction false} FindFold(models: seq<Model>, a: string, c: string)
    requires EqualFold(a, c)
    ensures Find(models, a) == Find(models, c)
  {
    if models != [] {
      FindFold(models[..|models| - 1], a, c);
    }
  }

  /** After the commit every model written is found again exactly if no request that wrote one is lost. */
  lemma FoundAgainExactly(b: Batch)
    requires Ready(b) && Written(b).Ok?
    ensures AllFound(Written(b).value, Inputs(b, |b.requested|))
            <==> forall k: nat :: k < |b.requested| && Adds(b, k) ==> !Lost(b, k)
  {
    hide IsTable, Distinct, Expected, At, Inputs, EqualFold, Lost, Find;
    var n, rows := |b.requested|, Expected(b, |b.requested|);
    BatchIsExpected(b, n);
    forall k: nat | k < n && Adds(b, k)
      ensures At(b, k).model in Inputs(b, n) && (Find(rows, At(b, k).model.slug).Some? <==> !Lost(b, k))
    {
      InputsMembers(b, n, At(b, k).model);
      InputSlug(b, k);
      FindFold(rows, At(b, k).model.slug, b.requested[k]);
      FoundExactly(b, k);
    }
    forall m | m in Inputs(b, n)
      ensures exists k: nat :: k < n && Adds(b, k) && At(b, k).model == m
    {
      InputsMembers(b, n, m);
    }
  }

  /** One request is counted once. */
  lemma ReportedCounts(report: Report, finding: Finding)
    ensures var next := Reported(report, finding);
            && |next.added| + |next.present| == |report.added| + |report.present| + 1
            && |next.created| == |report.created| + (if finding.Create? then 1 else 0)
            && |next.added| == |report.added| + (if finding.Present? then 0 else 1)
  {
  }

  /**
   Every distinct request is counted once, as added or as already present; each one that is added
   hands one model to the store. Created models are as many as the new rows exactly if none takes a
   stored row.
   */
  lemma {:induction false} EveryRequestIsCounted(b: Batch, n: nat)
    requires n <= |b.requested|
    ensures var report := ReportOf(b, n);
            && |report.added| + |report.present| == n && |Inputs(b, n)| == |report.added|
            && |Expected(b, n)| <= |b.models| + |report.created|
            && (|Expected(b, n)| == |b.models| + |report.created|
                <==> forall k: nat, j: nat :: k < n ==> !Takes(b, k, j))
  {
    hide Expected, Takes, At, Appended, Reported, Appends, Creates;
    ExpectedSize(b, n);
    if n > 0 {
      EveryRequestIsCounted(b, n - 1);
      ExpectedSize(b, n - 1);
      ReportedCounts(ReportOf(b, n - 1), At(b, n - 1));
      AppendedStays(b, n - 1);
      TakesOrAppends(b, n - 1);
      assert forall k: nat, j: nat :: k < n && Takes(b, k, j) ==> k < n - 1 || k == n - 1;
    } else {
      assert Appended(b, 0) == [] by { NothingAppended(b); }
    }
  }

  /**
   The lists of the report: created are the requests without a stored model, by their own ids; added
   are those and the stored models that had no route to the API's model, by their slugs; unchanged are
   the stored models that had one.
   */
  lemma {:induction false} ReportNames(b: Batch, n: nat, name: string)
    requires n <= |b.requested|
    ensures name in ReportOf(b, n).created <==> SomeBelow(n, (k: nat) => CreatedAs(b, k, name))
    ensures name in ReportOf(b, n).present <==> SomeBelow(n, (k: nat) => PresentAs(b, k, name))
    ensures name in ReportOf(b, n).added
            <==> name in ReportOf(b, n).created || SomeBelow(n, (k: nat) => ExtendedAs(b, k, name))
  {
    hide Reported, At, PresentAs, ExtendedAs, CreatedAs;
    if n > 0 {
      var k := n - 1;
      ReportNames(b, k, name);
      NamesView(b, k, name);
      ReportedNames(ReportOf(b, k), At(b, k), name);
      assert ReportOf(b, n) == Reported(ReportOf(b, k), At(b, k));
      hide ReportOf;
      OneMore(k, (i: nat) => CreatedAs(b, i, name));
      OneMore(k, (i: nat) => PresentAs(b, i, name));
      OneMore(k, (i: nat) => ExtendedAs(b, i, name));
    }
  }

  ghost predicate SomeBelow(n: nat, p: nat -> bool) {
    exists k: nat :: k < n && p(k)
  }

  lemma OneMore(n: nat, p: nat -> bool)
    ensures SomeBelow(n + 1, p) <==> SomeBelow(n, p) || p(n)
  {
  }

  ghost predicate CreatedAs(b: Batch, k: nat, name: string) {
    k < |b.requested| && Find(b.models, b.requested[k]).None? && b.requested[k] == name
  }

  ghost predicate PresentAs(b: Batch, k: nat, name: string) {
    && k < |b.requested|
    && match Find(b.models, b.requested[k])
       case Some(j) => b.models[j].slug == name && HasLead(b.models[j], b.req.apiId, b.requested[k])
       case None => false
  }

  ghost predicate ExtendedAs(b: Batch, k: nat, name: string) {
    && k < |b.requested|
    && match Find(b.models, b.requested[k])
       case Some(j) => b.models[j].slug == name && !HasLead(b.models[j], b.req.apiId, b.requested[k])
       case None => false
  }

  lemma NamesView(b: Batch, k: nat, name: string)
    requires k < |b.requested|
    ensures At(b, k).Create? && At(b, k).model.slug == name <==> CreatedAs(b, k, name)
    ensures At(b, k).Present? && At(b, k).slug == name <==> PresentAs(b, k, name)
    ensures At(b, k).Extend? && At(b, k).model.slug == name <==> ExtendedAs(b, k, name)
  {
    hide EqualFold, HasRoute, HasLead, AddedRoute, DisplayName, Wrap;
    if Find(b.models, b.requested[k]).Some? {
      HasLeadIs(b.models[Find(b.models, b.requested[k]).value], b.req.apiId, b.requested[k]);
    }
  }

  lemma ReportedNames(report: Report, finding: Finding, name: string)
    ensures var next := Reported(report, finding);
            && (name in next.created <==> name in report.created || (finding.Create? && finding.model.slug == name))
            && (name in next.present <==> name in report.present || (finding.Present? && finding.slug == name))
            && (name in next.added <==> name in report.added || (!finding.Present? && finding.model.slug == name))
  {
  }

  lemma NothingAppended(b: Batch)
    ensures Appended(b, 0) == []
  {
  }

  lemma TakesOrAppends(b: Batch, k: nat)
    requires k < |b.requested|
    ensures At(b, k).Create? <==> Creates(b, k)
    ensures Creates(b, k) ==> (Appends(b, k) <==> forall j: nat :: !Takes(b, k, j))
    ensures !Creates(b, k) ==> !Appends(b, k) && forall j: nat :: !Takes(b, k, j)
  {
    hide HasRoute, CustomId, NewModel, WithRoute;
    if FindId(b.models, CustomId(b.requested[k])).Some? && Creates(b, k) {
      assert Takes(b, k, FindId(b.models, CustomId(b.requested[k])).value);
    }
  }

  // ----- repeating the call -----

  /** The same call again, on what the first one has left. */
  function Again(b: Batch, req: Request): Batch
    requires Written(b).Ok?
  {
    Batch(Written(b).value, req, b.requested)
  }

  lemma AgainPresent(b: Batch, req: Request, k: nat)
    requires Ready(b) && Written(b).Ok? && req.apiId == b.req.apiId && k < |b.requested|
    ensures At(Again(b, req), k).Present? <==> !Lost(b, k)
  {
    hide IsTable, Distinct, Expected, HasRoute, NewModel, WithRoute, Lost;
    BatchIsExpected(b, |b.requested|);
    FoundExactly(b, k);
    if Find(Expected(b, |b.requested|), b.requested[k]).Some? {
      FoundHasRoute(b, k, Find(Expected(b, |b.requested|), b.requested[k]).value);
    }
  }

  lemma {:induction false} AllPresent(b: Batch, n: nat)
    requires n <= |b.requested|
    ensures Inputs(b, n) == [] <==> forall k: nat :: k < n ==> At(b, k).Present?
    ensures Inputs(b, n) == [] ==>
              ReportOf(b, n).created == [] && ReportOf(b, n).added == [] && |ReportOf(b, n).present| == n
  {
    hide At;
    if n > 0 {
      AllPresent(b, n - 1);
      if At(b, n - 1).Present? {
        assert Inputs(b, n - 1) + [] == Inputs(b, n - 1);
      } else {
        assert Inputs(b, n)[|Inputs(b, n - 1)|] == At(b, n - 1).model;
      }
    }
  }

  /**
   Repeating the call, with whatever names and sort orders it then computes, writes nothing and
   reports every request as present exactly if the first call lost none.
   */
  lemma RepeatIsUnchanged(b: Batch, req: Request)
    requires Ready(b) && Written(b).Ok? && req.apiId == b.req.apiId
    ensures var again, n := Again(b, req), |b.requested|;
            && (Inputs(again, n) == [] <==> forall k: nat :: k < n ==> !Lost(b, k))
            && (Inputs(again, n) == [] ==>
                  && Written(again) == Ok(again.models) && ReportOf(again, n).created == []
                  && ReportOf(again, n).added == [] && |ReportOf(again, n).present| == n)
  {
    hide IsTable, Distinct, Written, At, Inputs, ReportOf, Lost;
    var again, n := Again(b, req), |b.requested|;
    AllPresent(again, n);
    forall k: nat | k < n ensures At(again, k).Present? <==> !Lost(b, k) {
      AgainPresent(b, req, k);
    }
    NothingWritten(again);
  }

  lemma NothingWritten(b: Batch)
    ensures Inputs(b, |b.requested|) == [] ==> Written(b) == Ok(b.models)
  {
    hide Inputs;
  }

  // ----- raw ids -----

  lemma CoversFold(models: seq<Model>, apiId: string, id: string, other: string)
    requires EqualFold(id, other)
    ensures Covers(models, apiId, id) <==> Covers(models, apiId, other)
  {
    hide Lower;
    forall m | m in models ensures HasLead(m, apiId, id) <==> HasLead(m, apiId, other) {
      LeadFold(m, apiId, id, other);
    }
  }

  lemma LeadFold(m: Model, apiId: string, id: string, other: string)
    requires EqualFold(id, other)
    ensures HasLead(m, apiId, id) <==> HasLead(m, apiId, other)
  {
    hide Lower, IsFrom;
  }

  /** Each raw id the caller gave, normalised, stands for one request, and is routed exactly if that is not lost. */
  lemma EveryRawIdIsRouted(b: Batch, raw: seq<string>, i: nat) returns (k: nat)
    requires Ready(b) && Written(b).Ok? && Requested(raw, b.req.api.gemini) == Ok(b.requested) && i < |raw|
    ensures NormalizeModelId(raw[i], b.req.api.gemini).Some? && k < |b.requested|
    ensures var id := NormalizeModelId(raw[i], b.req.api.gemini).value;
            EqualFold(b.requested[k], id) && (Covers(Written(b).value, b.req.apiId, id) <==> !Lost(b, k))
  {
    hide NormalizeModelId, EqualFold, Covers, Requested, IsTable, Distinct, Written, Lost;
    EveryIdIsMentioned(raw, b.req.api.gemini, i);
    var id := NormalizeModelId(raw[i], b.req.api.gemini).value;
    var other :| other in b.requested && EqualFold(other, id);
    k :| 0 <= k < |b.requested| && b.requested[k] == other;
    EveryRequestIsRouted(b, k);
    CoversFold(Written(b).value, b.req.apiId, other, id);
  }

  // ----- the order of the new models -----

  function Base(models: seq<Model>): int {
    if models == [] then 0 else LargestSort(models)
  }

  /** One past the position of the last request that creates a model; zero if none does. */
  function LastCreated(b: Batch, n: nat): (r: nat)
    requires n <= |b.requested|
    ensures r <= n && (r > 0 ==> Creates(b, r - 1))
    ensures forall k: nat :: r <= k < n ==> !Creates(b, k)
  {
    if n == 0 then 0 else if Creates(b, n - 1) then n else LastCreated(b, n - 1)
  }

  predicate InRange(models: seq<Model>) {
    forall m :: m in models ==> 0 - I64_MAX - 1 <= m.sortOrder <= I64_MAX
  }

  /** Each new model sorts after all the stored ones and after the new ones before it. */
  ghost predicate NewSortLast(b: Batch) {
    forall k: nat :: Creates(b, k) ==>
      && (forall m :: m in b.models ==> m.sortOrder < Created(b, k).sortOrder)
      && (forall i: nat :: i < k && Creates(b, i) ==> Created(b, i).sortOrder < Created(b, k).sortOrder)
  }

  lemma WrapInRange(n: int)
    requires 0 - I64_MAX - 1 <= n <= I64_MAX
    ensures Wrap(n) == n
  {
  }

  lemma {:induction false} LargestIsThere(models: seq<Model>) returns (i: nat)
    requires models != []
    ensures i < |models| && models[i].sortOrder == LargestSort(models)
  {
    i := |models| - 1;
    if |models| > 1 && models[i].sortOrder <= LargestSort(models[..i]) {
      i := LargestIsThere(models[..|models| - 1]);
    }
  }

  lemma WrapFallsBelow(base: int, k: nat)
    requires base <= I64_MAX && base + 1 + k > I64_MAX && k < I64_MAX && base >= 0 - I64_MAX - 1
    ensures Wrap(Wrap(base + 1) + k) < base
  {
  }

  lemma CreatedSort(b: Batch, k: nat)
    requires k < |b.requested|
    ensures Created(b, k).sortOrder == Wrap(b.req.nextSort + k)
  {
    hide Wrap;
  }

  lemma NextSortIsWrapped(models: seq<Model>)
    ensures NextSort(models) == Wrap(Base(models) + 1)
  {
  }

  lemma BaseView(models: seq<Model>)
    requires InRange(models)
    ensures 0 - I64_MAX - 1 <= Base(models) <= I64_MAX && forall m :: m in models ==> m.sortOrder <= Base(models)
  {
    if models != [] {
      var i := LargestIsThere(models);
      assert models[i] in models;
    }
  }

  /**
   New models sort strictly upwards, after all the stored ones, exactly when the last order handed
   out stays within 64 bits.
   */
  lemma NewModelsSortLast(b: Batch)
    requires InRange(b.models) && b.req.nextSort == NextSort(b.models) && |b.requested| <= I64_MAX
    ensures NewSortLast(b) <==> Base(b.models) + LastCreated(b, |b.requested|) <= I64_MAX
  {
    hide Wrap, NextSort, Base, InRange, Creates, Created, LastCreated;
    var base, last := Base(b.models), LastCreated(b, |b.requested|);
    BaseView(b.models);
    NextSortIsWrapped(b.models);
    CreatesRange(b);
    if last == 0 {
    } else if base + last <= I64_MAX {
      WrapInRange(base + 1);
      forall k: nat | Creates(b, k) ensures Created(b, k).sortOrder == base + 1 + k {
        CreatedSort(b, k);
        WrapInRange(base + 1 + k);
      }
    } else {
      SortsNotLast(b);
    }
  }

  lemma CreatesRange(b: Batch)
    ensures forall k: nat :: Creates(b, k) ==> k < |b.requested| && k < LastCreated(b, |b.requested|)
  {
    hide LastCreated;
  }

  lemma SortsNotLast(b: Batch)
    requires InRange(b.models) && b.req.nextSort == NextSort(b.models) && |b.requested| <= I64_MAX
    requires Base(b.models) + LastCreated(b, |b.requested|) > I64_MAX
    ensures !NewSortLast(b)
  {
    hide Wrap, LargestSort, NextSort, Creates, Created;
    var last := LastCreated(b, |b.requested|);
    var i := LargestIsThere(b.models);
    assert b.models[i] in b.models;
    NextSortIsWrapped(b.models);
    CreatesRange(b);
    CreatedSort(b, last - 1);
    WrapFallsBelow(Base(b.models), last - 1);
  }

  /** Past that bound the order wraps around: a new model can sort before a stored one. */
  lemma SortOrderCanWrap()
    ensures var last := Model("x", "a", "a", None, false, I64_MAX, []);
            var b := Batch([last], Request("api", Api(false, None), [], NextSort([last])), ["b"]);
            Creates(b, 0) && Created(b, 0).sortOrder < last.sortOrder && !NewSortLast(b)
  {
    var last := Model("x", "a", "a", None, false, I64_MAX, []);
    var b := Batch([last], Request("api", Api(false, None), [], NextSort([last])), ["b"]);
    assert LargestSort([last]) == I64_MAX;
    assert Lower("a")[0] != Lower("b")[0];
    assert [last][..0] == [];
    assert Find([last], "b") == None;
    assert last in b.models;
    hide DisplayName;
  }

  // ----- when the store takes the batch -----

  /** The id of the route a request adds. */
  function AddedId(b: Batch, k: nat): string
    requires k < |b.requested| && Adds(b, k)
  {
    var m := At(b, k).model;
    RouteId(if Creates(b, k) then CustomId(m.slug) else m.id, m.routes[|m.routes| - 1])
  }

  /** No route to be added has the id of a stored one, which it can have when that one was edited. */
  ghost predicate RoutesFree(b: Batch, n: nat)
    requires n <= |b.requested|
  {
    forall k: nat :: k < n && Adds(b, k) ==>
      && AddedId(b, k) !in TableIds(b.models)
      && forall i: nat :: i < k && Adds(b, i) ==> AddedId(b, i) != AddedId(b, k)
  }

  /** Nothing has changed row `j` before the request that extends it. */
  lemma Untouched(b: Batch, n: nat, j: nat)
    requires Distinct(b.requested) && NoTakeover(b) && Extends(b, n, j)
    ensures n < |b.requested| && j < |b.models| && Holder(b, n, j) == b.models[j]
  {
    hide Takes, Distinct, StoredAs, WithRoute;
    ExtendsRange(b, n, j);
    var p := HolderKept(b, n, j);
    if p.Some? {
      OneExtender(b, p.value, n, j);
    }
  }

  /** What a request is about to write. */
  lemma GoesTo(b: Batch, n: nat)
    requires Ready(b) && NoTakeover(b) && n < |b.requested| && Adds(b, n) && IsTable(Expected(b, n))
    ensures var rows, m := Expected(b, n), At(b, n).model;
            var r := m.routes[|m.routes| - 1];
            && AddsRoute(rows, m, r) && RouteId(RowId(rows, m), r) == AddedId(b, n) && Accepted(rows, m)
  {
    if Creates(b, n) {
      CreateGoesTo(b, n);
    } else {
      ExtendGoesTo(b, n, Find(b.models, b.requested[n]).value);
    }
  }

  lemma CreateGoesTo(b: Batch, n: nat)
    requires Ready(b) && NoTakeover(b) && Creates(b, n) && IsTable(Expected(b, n))
    ensures Adds(b, n) && At(b, n).model == Created(b, n)
    ensures var rows, m := Expected(b, n), At(b, n).model;
            var r := m.routes[|m.routes| - 1];
            && AddsRoute(rows, m, r) && RouteId(RowId(rows, m), r) == AddedId(b, n) && Accepted(rows, m)
  {
    hide HasRoute, IsTable, CustomId, RouteId, Distinct, DisplayName, Wrap, Expected, EqualFold, Takes, Find, FindId;
    hide RowId;
    CreateGoes(b, n);
    TakesOrAppends(b, n);
    BlankIsBlank();
  }

  lemma BlankIsBlank()
    ensures Trim("") == []
  {
  }

  /** A route is added only to an upstream model that no route to the API has, so its target is new. */
  lemma NewTarget(model: Model, apiId: string, upstream: string)
    requires !HasRoute(model, apiId, upstream)
    ensures Target(AddedRoute(model, apiId, upstream)) !in Targets(model.routes)
  {
    hide EqualFold, FirstFromApi;
    FoldReflexive(upstream);
  }

  lemma ExtendGoesTo(b: Batch, n: nat, j: nat)
    requires Ready(b) && NoTakeover(b) && Extends(b, n, j) && IsTable(Expected(b, n))
    ensures n < |b.requested| && Adds(b, n) && j < |b.models|
    ensures At(b, n).model == WithRoute(b.models[j], b.req.apiId, b.requested[n])
    ensures var rows, m := Expected(b, n), At(b, n).model;
            var r := m.routes[|m.routes| - 1];
            && AddsRoute(rows, m, r) && RouteId(RowId(rows, m), r) == AddedId(b, n) && Accepted(rows, m)
  {
    hide HasRoute, RoutesNamed, RoutesApart, RoutesOrdered, UniqueIds, CustomId, RouteId, Distinct, Expected, Takes;
    hide RowId;
    ExtendsRange(b, n, j);
    Untouched(b, n, j);
    ExtendGoes(b, n, j);
    ExpectedSize(b, n);
    FoldReflexive(b.models[j].slug);
    FindUnique(Expected(b, n), b.models[j].slug, j);
    NewTarget(b.models[j], b.req.apiId, b.requested[n]);
    BlankIsBlank();
  }

  /** The batch has gone through so far exactly if the ids were free; then these are all there are. */
  lemma {:induction false} CommitsSoFar(b: Batch, n: nat)
    requires Ready(b) && NoTakeover(b) && n <= |b.requested|
    ensures WriteAll(b.models, Inputs(b, n)).Ok? <==> RoutesFree(b, n)
    ensures WriteAll(b.models, Inputs(b, n)).Ok? ==> forall id ::
              id in TableIds(Expected(b, n))
              <==> id in TableIds(b.models) || exists k: nat :: k < n && Adds(b, k) && AddedId(b, k) == id
  {
    hide IsTable, Distinct, NoTakeover, Expected, At, Inputs, WriteAll, TableIds, AddedId, Write;
    BatchIsExpected(b, n);
    if n == 0 {
      NothingYet(b);
    } else {
      CommitsSoFar(b, n - 1);
      BatchIsExpected(b, n - 1);
      InputsStep(b, n - 1);
      if WriteAll(b.models, Inputs(b, n - 1)).Ok? {
        StepIsExpected(b, n - 1);
        if Adds(b, n - 1) {
          OneMoreId(b, n - 1);
        }
      }
    }
  }

  lemma OneMoreId(b: Batch, n: nat)
    requires Ready(b) && NoTakeover(b) && n < |b.requested| && Adds(b, n) && IsTable(Expected(b, n))
    ensures var rows, m := Expected(b, n), At(b, n).model;
            && (Write(rows, m).Ok? <==> AddedId(b, n) !in TableIds(rows))
            && (Write(rows, m).Ok? ==> TableIds(Write(rows, m).value) == TableIds(rows) + {AddedId(b, n)})
  {
    hide IsTable, Distinct, NoTakeover, Expected, At, TableIds, AddedId, RoutesFit, Row, RowId, Accepted, AddsRoute;
    hide Place;
    var rows, m := Expected(b, n), At(b, n).model;
    GoesTo(b, n);
    var r := m.routes[|m.routes| - 1];
    FitsExactly(rows, m, r);
    if Write(rows, m).Ok? {
      WriteAddsId(rows, m, r);
    }
  }

  /**
   When no new model takes a stored row, the store takes the batch exactly if the id of each route to
   be added is free.
   */
  lemma CommitsExactly(b: Batch)
    requires Ready(b) && NoTakeover(b)
    ensures Written(b).Ok? <==> RoutesFree(b, |b.requested|)
  {
    hide *;
    CommitsSoFar(b, |b.requested|);
    WrittenIs(b);
  }

  lemma WrittenIs(b: Batch)
    ensures Written(b) == WriteAll(b.models, Inputs(b, |b.requested|))
  {
  }

  // ----- inputs on which the code differs -----

  lemma AAndB()
    ensures !EqualFold("a", "b") && !EqualFold("b", "a")
  {
    assert Lower("a")[0] != Lower("b")[0];
  }

  /** In a table of one row any model may be written over it, if its own routes are distinct. */
  lemma OverwriteFits(row: Model, input: Model, r: Route)
    requires RowId([row], input) == row.id && Accepted([row], input) && input.routes == [r]
    ensures Write([row], input) == Ok([StoredAs(input, row.id, row.builtin)])
  {
    hide Listed, Identified, RowId, Accepted, DistinctIds, DistinctTargets;
    OneRowTable(row);
    WriteGoes([row], input);
    RowIsStored([row], input);
    OneRoute(input, Row([row], input).id, Row([row], input).builtin, r);
    assert [row][0 := StoredAs(input, row.id, row.builtin)] == [StoredAs(input, row.id, row.builtin)];
  }

  lemma OneRowTable(row: Model)
    ensures FindId([row], row.id) == Some(0)
  {
  }

  lemma OneRoute(input: Model, id: string, builtin: bool, r: Route)
    requires input.routes == [r]
    ensures DistinctIds(StoredAs(input, id, builtin).routes) && DistinctTargets(StoredAs(input, id, builtin).routes)
  {
    hide Trim, RouteId, Listed;
    var named := Identified([r], id);
    IdentifiedSnoc([], r, id);
    assert [] + [r] == [r];
    assert |named| == 1 && Ids(named) == {named[0].id};
    assert Targets(named) == {Target(named[0])};
    SameIds(Listed(named), named);
    SameTargets(Listed(named), named);
  }

  lemma OneInput(m: Model, req: Request)
    requires m.id == CustomId("a") && m.slug == "b"
    ensures var b := Batch([m], req, ["a"]);
            Inputs(b, 1) == [NewModel(req, "a", 0)] && Takes(b, 0, 0) && !ComesBack(b, 0, 0)
  {
    hide NewModel, CustomId;
    AAndB();
    var b := Batch([m], req, ["a"]);
    assert Find([m], "a") == None;
    assert Inputs(b, 0) == [] && At(b, 0) == Create(NewModel(req, "a", 0));
    assert [] + [NewModel(req, "a", 0)] == [NewModel(req, "a", 0)];
  }

  lemma OneWrite(m: Model, req: Request)
    requires m.id == CustomId("a") && m.slug == "b"
    ensures WriteAll([m], [NewModel(req, "a", 0)]) == Ok([StoredAs(NewModel(req, "a", 0), m.id, m.builtin)])
  {
    hide NewModel, StoredAs, CustomId;
    AAndB();
    var created := NewModel(req, "a", 0);
    NewModelView(req, "a", 0);
    BlankIsBlank();
    OverwriteFits(m, created, created.routes[0]);
    assert [] + [created] == [created];
    WriteAllSnoc([m], [], created);
  }

  /**
   A model created as "a" and renamed to "b" is overwritten when "a" is associated; nothing of it is
   left, and the call reports success.
   */
  lemma RenamedModelIsOverwritten(m: Model, req: Request)
    requires m.id == CustomId("a") && m.slug == "b" && IsTable([m])
    ensures var b := Batch([m], req, ["a"]);
            && Ready(b) && Written(b) == Ok([StoredAs(NewModel(req, "a", 0), m.id, m.builtin)])
            && AllFound(Written(b).value, Inputs(b, 1)) && Displaced(b, 0) && Find(Written(b).value, "b").None?
  {
    hide NewModel, StoredAs, IsTable, CustomId, WriteAll, Inputs, Takes, ComesBack;
    var b, created := Batch([m], req, ["a"]), NewModel(req, "a", 0);
    AAndB();
    OneInput(m, req);
    OneWrite(m, req);
    NewModelView(req, "a", 0);
    StoredSlug(created, m.id, m.builtin);
    FoldReflexive("a");
    assert Displaced(b, 0);
    var row := StoredAs(created, m.id, m.builtin);
    assert Find([row], "a") == Some(0) && Find([row], "b") == None;
  }

  lemma NewModelView(req: Request, id: string, index: nat)
    ensures var m := NewModel(req, id, index); m.slug == id && m.id == "" && !m.builtin && |m.routes| == 1
    ensures NewModel(req, id, index).routes == [NewModel(req, id, index).routes[0]]
  {
  }

  lemma StoredSlug(input: Model, id: string, builtin: bool)
    ensures StoredAs(input, id, builtin).slug == input.slug && StoredAs(input, id, builtin).id == id
    ensures StoredAs(input, id, builtin).builtin == builtin
  {
  }

  /** What the two requests "b" and "a" hand to the store. */
  lemma TwoInputs(m: Model, req: Request)
    requires m.id == CustomId("a") && m.slug == "b" && m.routes == []
    ensures var b := Batch([m], req, ["b", "a"]);
            && Inputs(b, 2) == [WithRoute(m, req.apiId, "b")] + [NewModel(req, "a", 1)] && Adds(b, 0)
            && Extends(b, 0, 0) && Takes(b, 1, 0) && !ComesBack(b, 1, 0) && Lost(b, 0)
  {
    hide NewModel, CustomId, AddedRoute;
    var b := Batch([m], req, ["b", "a"]);
    AAndB();
    FoldReflexive("b");
    assert Find([m], "b") == Some(0) && Find([m], "a") == None;
    assert At(b, 0) == Extend(WithRoute(m, req.apiId, "b")) && At(b, 1) == Create(NewModel(req, "a", 1));
    assert Inputs(b, 0) == [] && Inputs(b, 1) == [] + [WithRoute(m, req.apiId, "b")];
    assert Takes(b, 1, 0) && !ComesBack(b, 1, 0);
  }

  /** The first is written to its row, and the second over it. */
  lemma TwoWrites(m: Model, req: Request)
    requires m.id == CustomId("a") && m.slug == "b" && m.routes == [] && !m.builtin
    ensures WriteAll([m], [WithRoute(m, req.apiId, "b")] + [NewModel(req, "a", 1)]).Ok?
  {
    hide NewModel, StoredAs, CustomId, AddedRoute;
    AAndB();
    FoldReflexive("b");
    var grown, created := WithRoute(m, req.apiId, "b"), NewModel(req, "a", 1);
    NewModelView(req, "a", 1);
    BlankIsBlank();
    assert grown.routes == [grown.routes[0]];
    OverwriteFits(m, grown, grown.routes[0]);
    var row := StoredAs(grown, m.id, m.builtin);
    StoredSlug(grown, m.id, m.builtin);
    OverwriteFits(row, created, created.routes[0]);
    assert [] + [grown] == [grown];
    WriteAllSnoc([m], [], grown);
    WriteAllSnoc([m], [grown], created);
  }

  /** Associating "b" and "a" together fails, but only after the commit that has overwritten the model. */
  lemma RenamedModelIsLostWithAnError(m: Model, req: Request)
    requires m.id == CustomId("a") && m.slug == "b" && IsTable([m]) && m.routes == [] && !m.builtin
    ensures var b := Batch([m], req, ["b", "a"]);
            && Ready(b) && Written(b).Ok? && !AllFound(Written(b).value, Inputs(b, 2))
            && Find(Written(b).value, "b").None?
  {
    hide NewModel, IsTable, CustomId, WithRoute, WriteAll, Inputs, Expected, AllFound, Lost, Find;
    var b := Batch([m], req, ["b", "a"]);
    AAndB();
    TwoInputs(m, req);
    TwoWrites(m, req);
    FoundExactly(b, 0);
    BatchIsExpected(b, 2);
    FoundAgainExactly(b);
  }

  /** A route that was edited but keeps its id is in the way of the route it was made for. */
  lemma EditedRouteBlocks(m: Model, req: Request, edited: Route)
    requires IsTable([m]) && m.slug == "m" && m.routes == [edited] && !HasRoute(m, req.apiId, "m")
    requires edited.id == RouteId(m.id, AddedRoute(m, req.apiId, "m"))
    ensures var b := Batch([m], req, ["m"]); Ready(b) && NoTakeover(b) && Written(b).Err?
  {
    hide IsTable, RouteId, AddedRoute, HasRoute;
    var b := Batch([m], req, ["m"]);
    FoldReflexive("m");
    assert Find([m], "m") == Some(0);
    assert NoTakeover(b);
    CommitsExactly(b);
    assert Adds(b, 0) && At(b, 0).model == WithRoute(m, req.apiId, "m");
    assert edited in m.routes && edited.id in Ids(b.models[0].routes);
    assert edited.id in TableIds(b.models);
    assert AddedId(b, 0) == edited.id;
  }
}
