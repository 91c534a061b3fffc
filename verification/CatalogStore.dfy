/**
 The table of managed models with their routes, and the transaction that writes a batch of models.

 A model is found by its slug but stored under its id. The id of a custom model is made from the slug
 it is created with, and stays when the model is renamed.
 */
module CatalogStore {
  import opened Wrappers
  import opened Text

  const AGGREGATE_API := "aggregate_api"

  /** In a model to be written a blank id is one still to be made; so it is in a route. */
  datatype Route = Route(id: string, sourceKind: string, sourceId: string, upstreamModel: string,
                         enabled: bool, priority: int, weight: int)
  datatype Model = Model(id: string, slug: string, displayName: string, provider: Option<string>, builtin: bool,
                         sortOrder: int, routes: seq<Route>)

  // ----- finding -----

  /** The first model with this slug, ignoring ASCII case. */
  function Find(models: seq<Model>, slug: string): (r: Option<nat>)
    ensures r.Some? ==> r.value < |models| && EqualFold(models[r.value].slug, slug)
    ensures r.None? ==> forall j :: 0 <= j < |models| ==> !EqualFold(models[j].slug, slug)
  {
    if models == [] then None
    else
      match Find(models[..|models| - 1], slug)
      case Some(j) => Some(j)
      case None => if EqualFold(models[|models| - 1].slug, slug) then Some(|models| - 1) else None
  }

  function FindId(models: seq<Model>, id: string): (r: Option<nat>)
    ensures r.Some? ==> r.value < |models| && models[r.value].id == id
    ensures r.None? ==> forall j :: 0 <= j < |models| ==> models[j].id != id
  {
    if models == [] then None
    else
      match FindId(models[..|models| - 1], id)
      case Some(j) => Some(j)
      case None => if models[|models| - 1].id == id then Some(|models| - 1) else None
  }

  predicate UniqueSlugs(models: seq<Model>) {
    forall i, j :: 0 <= i < j < |models| ==> !EqualFold(models[i].slug, models[j].slug)
  }

  predicate UniqueIds(models: seq<Model>) {
    forall i, j :: 0 <= i < j < |models| ==> models[i].id != models[j].id
  }

  lemma FindUnique(models: seq<Model>, slug: string, j: nat)
    requires UniqueSlugs(models) && j < |models| && EqualFold(models[j].slug, slug)
    ensures Find(models, slug) == Some(j)
  {
  }

  lemma FindIdUnique(models: seq<Model>, j: nat)
    requires UniqueIds(models) && j < |models|
    ensures FindId(models, models[j].id) == Some(j)
  {
  }

  // ----- ids -----

  /** The digest of the lower-case slug is taken to be injective, so the slug itself stands for it. */
  function CustomId(slug: string): string {
    "custom:" + Lower(slug)
  }

  /** The same for the digest of what identifies a route. */
  function RouteId(modelId: string, route: Route): string {
    "route:" + modelId + "\0" + route.sourceKind + "\0" + route.sourceId + "\0" + route.upstreamModel
  }

  lemma CustomIdsAgree(a: string, b: string)
    ensures CustomId(a) == CustomId(b) <==> EqualFold(a, b)
  {
    hide Lower;
    assert CustomId(a)[7..] == Lower(a) && CustomId(b)[7..] == Lower(b);
  }

  lemma SplitAtNul(a: string, x: string, b: string, y: string)
    requires '\0' !in a && '\0' !in b && a + "\0" + x == b + "\0" + y
    ensures a == b && x == y
  {
    var s, t := a + "\0" + x, b + "\0" + y;
    assert s[|a|] == '\0' && forall i :: 0 <= i < |a| ==> s[i] == a[i];
    assert t[|b|] == '\0' && forall i :: 0 <= i < |b| ==> t[i] == b[i];
    assert |a| == |b|;
    assert s[..|a|] == a && t[..|b|] == b && s[|a| + 1..] == x && t[|b| + 1..] == y;
  }

  lemma RouteIdParts(m: string, r: Route)
    ensures RouteId(m, r)
            == "route:" + (m + "\0" + (r.sourceKind + "\0" + (r.sourceId + "\0" + r.upstreamModel)))
  {
    var source := r.sourceId + "\0" + r.upstreamModel;
    assert r.sourceKind + "\0" + r.sourceId + "\0" + r.upstreamModel == r.sourceKind + "\0" + source;
  }

  lemma AfterPrefix(a: string, b: string)
    requires "route:" + a == "route:" + b
    ensures a == b
  {
    assert ("route:" + a)[6..] == a && ("route:" + b)[6..] == b;
  }

  /**
   The ids made for two routes agree exactly if model and target do, as long as no NUL is in what
   tells them apart.
   */
  lemma RouteIdsAgree(m: string, r: Route, n: string, q: Route)
    requires '\0' !in m && '\0' !in n && '\0' !in r.sourceKind && '\0' !in q.sourceKind
    requires '\0' !in r.sourceId && '\0' !in q.sourceId
    ensures RouteId(m, r) == RouteId(n, q) <==>
              m == n && r.sourceKind == q.sourceKind && r.sourceId == q.sourceId && r.upstreamModel == q.upstreamModel
  {
    hide RouteId;
    RouteIdParts(m, r);
    RouteIdParts(n, q);
    if RouteId(m, r) == RouteId(n, q) {
      var x1, y1 := r.sourceId + "\0" + r.upstreamModel, q.sourceId + "\0" + q.upstreamModel;
      var x0, y0 := r.sourceKind + "\0" + x1, q.sourceKind + "\0" + y1;
      AfterPrefix(m + "\0" + x0, n + "\0" + y0);
      SplitAtNul(m, x0, n, y0);
      SplitAtNul(r.sourceKind, x1, q.sourceKind, y1);
      SplitAtNul(r.sourceId, r.upstreamModel, q.sourceId, q.upstreamModel);
    }
  }

  lemma {:induction false} NotBlank(text: string)
    requires text != [] && !IsSpace(text[0])
    ensures Trim(text) != []
  {
    hide IsSpace;
    assert TrimStart(text) == text;
    EndStays(text);
  }

  lemma {:induction false} EndStays(text: string)
    requires text != [] && !IsSpace(text[0])
    ensures TrimEnd(text) != []
  {
    hide IsSpace;
    if |text| > 1 && IsSpace(text[|text| - 1]) {
      EndStays(text[..|text| - 1]);
    }
  }

  lemma IdsAreNotBlank(slug: string, modelId: string, route: Route)
    ensures Trim(CustomId(slug)) != [] && Trim(RouteId(modelId, route)) != []
  {
    hide Lower;
    NotBlank(CustomId(slug));
    NotBlank(RouteId(modelId, route));
  }

  // ----- the routes of a model -----

  /** Routes are read by falling priority, then by id. */
  predicate InOrder(a: Route, b: Route) {
    a.priority > b.priority || (a.priority == b.priority && !Less(b.id, a.id))
  }

  function InsertRoute(r: Route, routes: seq<Route>): (all: seq<Route>)
    ensures multiset(all) == multiset{r} + multiset(routes)
  {
    if routes == [] || InOrder(r, routes[0]) then [r] + routes
    else
      assert routes == [routes[0]] + routes[1..];
      [routes[0]] + InsertRoute(r, routes[1..])
  }

  function Listed(routes: seq<Route>): (all: seq<Route>)
    ensures multiset(all) == multiset(routes)
  {
    if routes == [] then []
    else
      assert routes == [routes[0]] + routes[1..];
      InsertRoute(routes[0], Listed(routes[1..]))
  }

  ghost predicate AllInOrder(routes: seq<Route>) {
    forall i, j :: 0 <= i < j < |routes| ==> InOrder(routes[i], routes[j])
  }

  lemma OrderTransitive(a: Route, b: Route, c: Route)
    requires InOrder(a, b) && InOrder(b, c)
    ensures InOrder(a, c)
  {
    if a.priority == c.priority && Less(c.id, a.id) {
      LessTotal(b.id, c.id);
      if Less(b.id, c.id) {
        LessTransitive(b.id, c.id, a.id);
      }
    }
  }

  lemma OrderTotal(a: Route, b: Route)
    requires !InOrder(a, b)
    ensures InOrder(b, a)
  {
    if a.priority == b.priority && Less(a.id, b.id) {
      LessTransitive(a.id, b.id, a.id);
      LessIrreflexive(a.id);
    }
  }

  lemma {:induction false} InsertInOrder(r: Route, routes: seq<Route>)
    requires AllInOrder(routes)
    ensures AllInOrder(InsertRoute(r, routes))
  {
    hide InOrder;
    if routes == [] {
    } else if InOrder(r, routes[0]) {
      forall j | 0 <= j < |routes| ensures InOrder(r, routes[j]) {
        if j > 0 {
          OrderTransitive(r, routes[0], routes[j]);
        }
      }
    } else {
      OrderTotal(r, routes[0]);
      InsertInOrder(r, routes[1..]);
      var rest := InsertRoute(r, routes[1..]);
      forall j | 0 <= j < |rest| ensures InOrder(routes[0], rest[j]) {
        assert rest[j] in multiset(rest);
        assert rest[j] == r || rest[j] in routes[1..];
      }
    }
  }

  /** What is read back is in that order, and is what was written. */
  lemma {:induction false} ListedInOrder(routes: seq<Route>)
    ensures AllInOrder(Listed(routes)) && multiset(Listed(routes)) == multiset(routes)
  {
    if routes != [] {
      ListedInOrder(routes[1..]);
      InsertInOrder(routes[0], Listed(routes[1..]));
    }
  }

  function Identified(routes: seq<Route>, modelId: string): seq<Route> {
    if routes == [] then []
    else
      var last := routes[|routes| - 1];
      Identified(routes[..|routes| - 1], modelId)
      + [if Trim(last.id) == [] then last.(id := RouteId(modelId, last)) else last]
  }

  function Ids(routes: seq<Route>): set<string> {
    set r | r in routes :: r.id
  }

  predicate DistinctIds(routes: seq<Route>) {
    |Ids(routes)| == |routes|
  }

  /** What a route leads to. A model has one route to each. */
  function Target(r: Route): (string, string, string) {
    (r.sourceKind, r.sourceId, r.upstreamModel)
  }

  function Targets(routes: seq<Route>): set<(string, string, string)> {
    set r | r in routes :: Target(r)
  }

  predicate DistinctTargets(routes: seq<Route>) {
    |Targets(routes)| == |routes|
  }

  lemma TargetsSnoc(routes: seq<Route>, r: Route)
    ensures Targets(routes + [r]) == Targets(routes) + {Target(r)}
    ensures DistinctTargets(routes) ==> (DistinctTargets(routes + [r]) <==> Target(r) !in Targets(routes))
  {
    assert forall x :: x in routes + [r] <==> x in routes || x == r;
  }

  lemma SameTargets(a: seq<Route>, b: seq<Route>)
    requires multiset(a) == multiset(b)
    ensures Targets(a) == Targets(b) && (DistinctTargets(a) <==> DistinctTargets(b))
  {
    assert forall r :: r in a <==> r in multiset(a);
    assert forall r :: r in b <==> r in multiset(b);
    assert |multiset(a)| == |a| && |multiset(b)| == |b|;
  }

  predicate Named(routes: seq<Route>) {
    forall r :: r in routes ==> Trim(r.id) != []
  }

  lemma NamedPrefix(routes: seq<Route>)
    requires Named(routes) && routes != []
    ensures Named(routes[..|routes| - 1]) && Trim(routes[|routes| - 1].id) != []
  {
    hide Trim;
  }

  lemma IdentifiedSnoc(routes: seq<Route>, last: Route, modelId: string)
    ensures Identified(routes + [last], modelId)
            == Identified(routes, modelId) + [if Trim(last.id) == [] then last.(id := RouteId(modelId, last)) else last]
  {
    hide Trim, RouteId;
    assert (routes + [last])[..|routes|] == routes;
  }

  lemma {:induction false} AlreadyNamed(routes: seq<Route>, modelId: string)
    requires Named(routes)
    ensures Identified(routes, modelId) == routes
  {
    if routes == [] {
    } else {
      hide Trim, RouteId, Named, Identified;
      var before, last := routes[..|routes| - 1], routes[|routes| - 1];
      assert routes == before + [last];
      NamedPrefix(routes);
      AlreadyNamed(before, modelId);
      IdentifiedSnoc(before, last, modelId);
    }
  }

  lemma SameIds(a: seq<Route>, b: seq<Route>)
    requires multiset(a) == multiset(b)
    ensures Ids(a) == Ids(b) && |a| == |b| && (DistinctIds(a) <==> DistinctIds(b)) && (Named(a) <==> Named(b))
  {
    hide Trim;
    assert forall r :: r in a <==> r in multiset(a);
    assert forall r :: r in b <==> r in multiset(b);
    assert |multiset(a)| == |a| && |multiset(b)| == |b|;
  }

  lemma IdsSnoc(routes: seq<Route>, r: Route)
    ensures Ids(routes + [r]) == Ids(routes) + {r.id}
    ensures DistinctIds(routes) ==> (DistinctIds(routes + [r]) <==> r.id !in Ids(routes))
  {
    assert forall x :: x in routes + [r] <==> x in routes || x == r;
  }

  // ----- what the table always satisfies -----

  ghost predicate RoutesApart(models: seq<Model>) {
    forall i, j :: 0 <= i < j < |models| ==> Ids(models[i].routes) !! Ids(models[j].routes)
  }

  ghost predicate RoutesNamed(models: seq<Model>) {
    forall m :: m in models ==> DistinctIds(m.routes) && Named(m.routes) && DistinctTargets(m.routes)
  }

  /** Routes are read back in order. */
  ghost predicate RoutesOrdered(models: seq<Model>) {
    forall m :: m in models ==> AllInOrder(m.routes)
  }

  ghost predicate IsTable(models: seq<Model>) {
    UniqueSlugs(models) && UniqueIds(models) && RoutesNamed(models) && RoutesApart(models) && RoutesOrdered(models)
  }

  // ----- writing -----

  /** The row a model is written to: that of its slug, or of its id, or of the id made from its slug. */
  function RowId(models: seq<Model>, input: Model): string {
    match Find(models, input.slug)
    case Some(j) => models[j].id
    case None => if Trim(input.id) == [] then CustomId(input.slug) else input.id
  }

  /** The origin of a model cannot be changed, and only custom models can be created. */
  predicate Accepted(models: seq<Model>, input: Model) {
    match Find(models, input.slug)
    case Some(j) => models[j].builtin == input.builtin
    case None => !input.builtin
  }

  /** A model under an id; its routes get theirs, and are read back in order. */
  function StoredAs(input: Model, id: string, builtin: bool): Model {
    input.(id := id, builtin := builtin, routes := Listed(Identified(input.routes, id)))
  }

  /**
   The ids of routes are unique over the whole table, their targets in a row; those of the row
   itself are replaced.
   */
  predicate RoutesFit(models: seq<Model>, m: Model) {
    && DistinctIds(m.routes) && DistinctTargets(m.routes)
    && forall i :: 0 <= i < |models| && models[i].id != m.id ==> Ids(models[i].routes) !! Ids(m.routes)
  }

  /** A row with this id is overwritten, whatever its slug; it keeps its origin. */
  function Place(models: seq<Model>, m: Model): seq<Model> {
    match FindId(models, m.id)
    case Some(k) => models[k := m]
    case None => models + [m]
  }

  function Row(models: seq<Model>, input: Model): Model {
    var id := RowId(models, input);
    StoredAs(input, id, FindId(models, id).Some? && models[FindId(models, id).value].builtin)
  }

  function Write(models: seq<Model>, input: Model): Result<seq<Model>> {
    var m := Row(models, input);
    if Accepted(models, input) && RoutesFit(models, m) then Ok(Place(models, m)) else Err
  }

  /** One transaction: an error undoes it all. */
  function WriteAll(models: seq<Model>, inputs: seq<Model>): Result<seq<Model>> {
    if inputs == [] then Ok(models)
    else
      match WriteAll(models, inputs[..|inputs| - 1])
      case Ok(before) => Write(before, inputs[|inputs| - 1])
      case Err => Err
  }

  /** After the commit every model is looked up again by its slug. */
  predicate AllFound(models: seq<Model>, inputs: seq<Model>) {
    forall m :: m in inputs ==> Find(models, m.slug).Some?
  }

  lemma StoredRoutes(input: Model, id: string, builtin: bool)
    ensures Named(StoredAs(input, id, builtin).routes)
    ensures AllInOrder(StoredAs(input, id, builtin).routes)
    ensures multiset(StoredAs(input, id, builtin).routes) == multiset(Identified(input.routes, id))
  {
    ListedInOrder(Identified(input.routes, id));
    hide Listed, AllInOrder;
    IdentifiedNamed(input.routes, id);
    SameIds(Listed(Identified(input.routes, id)), Identified(input.routes, id));
  }

  lemma {:induction false} IdentifiedNamed(routes: seq<Route>, modelId: string)
    ensures Named(Identified(routes, modelId))
  {
    hide Trim, RouteId;
    if routes != [] {
      var last := routes[|routes| - 1];
      IdentifiedNamed(routes[..|routes| - 1], modelId);
      IdsAreNotBlank("", modelId, last);
    }
  }

  /** Where the row goes: to that of its slug if there is one. */
  lemma RowGoes(models: seq<Model>, input: Model)
    requires UniqueIds(models) && Find(models, input.slug).Some?
    ensures FindId(models, Row(models, input).id) == Find(models, input.slug)
  {
    FindIdUnique(models, Find(models, input.slug).value);
  }

  lemma PlacedSlugs(models: seq<Model>, input: Model)
    requires UniqueSlugs(models) && UniqueIds(models)
    ensures UniqueSlugs(Place(models, Row(models, input))) && UniqueIds(Place(models, Row(models, input)))
  {
    hide StoredAs, EqualFold, CustomId;
    var m := Row(models, input);
    RowIsStored(models, input);
    if Find(models, input.slug).Some? {
      RowGoes(models, input);
    }
    SlugTakes(models, input.slug);
  }

  lemma SlugTakes(models: seq<Model>, slug: string)
    requires UniqueSlugs(models)
    ensures forall i :: 0 <= i < |models| && Some(i) != Find(models, slug) ==>
              !EqualFold(models[i].slug, slug) && !EqualFold(slug, models[i].slug)
  {
    forall i | 0 <= i < |models| && Some(i) != Find(models, slug)
      ensures !EqualFold(models[i].slug, slug) && !EqualFold(slug, models[i].slug)
    {
      if EqualFold(models[i].slug, slug) {
        FindUnique(models, slug, i);
      }
    }
  }

  lemma PlacedRoutes(models: seq<Model>, m: Model)
    requires UniqueIds(models) && RoutesNamed(models) && RoutesApart(models) && RoutesOrdered(models)
    requires RoutesFit(models, m) && Named(m.routes) && AllInOrder(m.routes)
    ensures RoutesNamed(Place(models, m)) && RoutesApart(Place(models, m)) && RoutesOrdered(Place(models, m))
  {
    hide Named, Ids, DistinctIds, AllInOrder, DistinctTargets;
    var after := Place(models, m);
    forall x | x in after
      ensures DistinctIds(x.routes) && Named(x.routes) && AllInOrder(x.routes) && DistinctTargets(x.routes)
    {
      assert x == m || x in models;
    }
    if FindId(models, m.id).Some? {
      var k := FindId(models, m.id).value;
      forall i | 0 <= i < |models| && i != k ensures models[i].id != m.id {
      }
    }
  }

  /** A write that goes through leaves a table. */
  lemma WriteKeepsTable(models: seq<Model>, input: Model)
    requires IsTable(models)
    ensures Write(models, input).Ok? ==> IsTable(Write(models, input).value)
  {
    hide UniqueSlugs, UniqueIds, RoutesNamed, RoutesApart, RoutesOrdered, Place, AllInOrder, RowId, RoutesFit, StoredAs;
    hide Named;
    PlacedSlugs(models, input);
    var m := Row(models, input);
    StoredRoutes(input, RowId(models, input), m.builtin);
    RowIsStored(models, input);
    if RoutesFit(models, m) {
      PlacedRoutes(models, m);
    }
  }

  /** What a write does to the table, given the row it goes to. */
  lemma WriteGoes(models: seq<Model>, input: Model)
    ensures var id := RowId(models, input);
            Write(models, input).Ok? ==>
              Write(models, input).value
              == match FindId(models, id)
                 case Some(k) => models[k := StoredAs(input, id, models[k].builtin)]
                 case None => models + [StoredAs(input, id, false)]
  {
    hide RowId, Accepted, RoutesFit, Identified, Listed;
  }

  lemma RowIsStored(models: seq<Model>, input: Model)
    ensures var m := Row(models, input);
            m == StoredAs(input, RowId(models, input), m.builtin) && m.slug == input.slug
              && m.id == RowId(models, input)
  {
  }

  lemma {:induction false} WriteAllKeepsTable(models: seq<Model>, inputs: seq<Model>)
    requires IsTable(models)
    ensures WriteAll(models, inputs).Ok? ==> IsTable(WriteAll(models, inputs).value)
  {
    hide IsTable, Write;
    if inputs != [] {
      WriteAllKeepsTable(models, inputs[..|inputs| - 1]);
      if WriteAll(models, inputs[..|inputs| - 1]).Ok? {
        WriteKeepsTable(WriteAll(models, inputs[..|inputs| - 1]).value, inputs[|inputs| - 1]);
      }
    }
  }

  function TableIds(models: seq<Model>): set<string> {
    set i, id | 0 <= i < |models| && id in Ids(models[i].routes) :: id
  }

  /** The routes of the row a model goes to. */
  function RowRoutes(models: seq<Model>, input: Model): seq<Route> {
    match FindId(models, RowId(models, input))
    case Some(k) => models[k].routes
    case None => []
  }

  /** A model with one route more than its row, to a target of its own. */
  predicate AddsRoute(models: seq<Model>, input: Model, r: Route) {
    input.routes == RowRoutes(models, input) + [r] && Trim(r.id) == []
      && Target(r) !in Targets(RowRoutes(models, input))
  }

  lemma RowAdds(models: seq<Model>, input: Model, r: Route)
    requires IsTable(models) && AddsRoute(models, input, r)
    ensures var kept, x, row := RowRoutes(models, input), RouteId(RowId(models, input), r), Row(models, input);
            && Ids(row.routes) == Ids(kept) + {x} && DistinctIds(kept)
            && (DistinctIds(row.routes) <==> x !in Ids(kept)) && DistinctTargets(row.routes)
  {
    hide RouteId, Trim, Listed, RowId, Accepted, UniqueSlugs, UniqueIds, RoutesApart, RoutesOrdered, Identified;
    var id, kept := RowId(models, input), RowRoutes(models, input);
    assert kept == [] || exists m :: m in models && m.routes == kept by {
      if FindId(models, id).Some? {
        assert models[FindId(models, id).value] in models;
      }
    }
    NothingNamed();
    AlreadyNamed(kept, id);
    IdentifiedSnoc(kept, r, id);
    IdsSnoc(kept, r.(id := RouteId(id, r)));
    TargetsSnoc(kept, r.(id := RouteId(id, r)));
    SameIds(Row(models, input).routes, kept + [r.(id := RouteId(id, r))]);
    SameTargets(Row(models, input).routes, kept + [r.(id := RouteId(id, r))]);
  }

  lemma NothingNamed()
    ensures Named([]) && DistinctIds([]) && DistinctTargets([])
  {
    assert Ids([]) == {} && Targets([]) == {};
  }

  /** Such a write goes through, as far as routes are concerned, exactly if the new id is nowhere in the table. */
  lemma FitsExactly(models: seq<Model>, input: Model, r: Route)
    requires IsTable(models) && AddsRoute(models, input, r)
    ensures RoutesFit(models, Row(models, input)) <==> RouteId(RowId(models, input), r) !in TableIds(models)
  {
    hide RouteId, Trim, UniqueSlugs, RoutesOrdered, StoredAs, RoutesNamed, AddsRoute, Ids, RowId, DistinctIds;
    hide DistinctTargets;
    RowAdds(models, input, r);
    RowIsStored(models, input);
    var id, x, row := RowId(models, input), RouteId(RowId(models, input), r), Row(models, input);
    forall i | 0 <= i < |models| && models[i].id != id
      ensures Ids(models[i].routes) !! Ids(row.routes) <==> x !in Ids(models[i].routes)
    {
      RowApart(models, input, i);
    }
    forall i | 0 <= i < |models| && models[i].id == id
      ensures Ids(models[i].routes) == Ids(RowRoutes(models, input))
    {
      FindIdUnique(models, i);
    }
    NothingIn();
    InTable(models, x);
    if RoutesFit(models, row) {
      forall i | 0 <= i < |models| ensures x !in Ids(models[i].routes) {
        assert models[i].id == id || Ids(models[i].routes) !! Ids(row.routes);
      }
    } else if x in Ids(RowRoutes(models, input)) {
      assert FindId(models, id).Some?;
    }
  }

  lemma InTable(models: seq<Model>, id: string)
    ensures id in TableIds(models) <==> exists i :: 0 <= i < |models| && id in Ids(models[i].routes)
  {
    hide Ids;
  }

  lemma RowApart(models: seq<Model>, input: Model, i: nat)
    requires RoutesApart(models) && UniqueIds(models) && i < |models| && models[i].id != RowId(models, input)
    ensures Ids(models[i].routes) !! Ids(RowRoutes(models, input))
  {
    hide Ids, RowId;
    NothingIn();
  }

  lemma NothingIn()
    ensures Ids([]) == {}
  {
  }

  lemma WriteAddsId(models: seq<Model>, input: Model, r: Route)
    requires IsTable(models) && AddsRoute(models, input, r) && Write(models, input).Ok?
    ensures TableIds(Write(models, input).value) == TableIds(models) + {RouteId(RowId(models, input), r)}
  {
    hide RouteId, Trim, UniqueSlugs, RoutesOrdered, StoredAs, RoutesNamed, AddsRoute, Ids, RowId, DistinctIds;
    hide DistinctTargets;
    hide RoutesFit;
    hide RoutesApart, UniqueIds, Accepted;
    RowAdds(models, input, r);
    RowIsStored(models, input);
    NothingIn();
    var after, id, row, x := Write(models, input).value, RowId(models, input), Row(models, input),
        RouteId(RowId(models, input), r);
    match FindId(models, id)
    case Some(k) =>
      assert after == models[k := row];
      assert forall i :: 0 <= i < |models| && i != k ==> after[i] == models[i];
      PlacedIds(models, k, row, x);
    case None =>
      assert after == models + [row];
      AppendedIds(models, row, x);
  }

  lemma PlacedIds(models: seq<Model>, k: nat, row: Model, x: string)
    requires k < |models| && Ids(row.routes) == Ids(models[k].routes) + {x}
    ensures TableIds(models[k := row]) == TableIds(models) + {x}
  {
    hide Ids;
    var after := models[k := row];
    forall id ensures id in TableIds(after) <==> id in TableIds(models) || id == x {
      if id in TableIds(models) {
        var i :| 0 <= i < |models| && id in Ids(models[i].routes);
        assert id in Ids(after[i].routes);
      }
      assert x in Ids(after[k].routes);
      if id in TableIds(after) {
        var i :| 0 <= i < |after| && id in Ids(after[i].routes);
        assert id in Ids(models[i].routes) || id == x;
      }
    }
  }

  lemma AppendedIds(models: seq<Model>, row: Model, x: string)
    requires Ids(row.routes) == {x}
    ensures TableIds(models + [row]) == TableIds(models) + {x}
  {
    hide Ids;
    var after := models + [row];
    forall id ensures id in TableIds(after) <==> id in TableIds(models) || id == x {
      if id in TableIds(models) {
        var i :| 0 <= i < |models| && id in Ids(models[i].routes);
        assert id in Ids(after[i].routes);
      }
      assert x in Ids(after[|models|].routes);
      if id in TableIds(after) {
        var i :| 0 <= i < |after| && id in Ids(after[i].routes);
        assert i == |models| || after[i] == models[i];
      }
    }
  }

  lemma WriteAllSnoc(models: seq<Model>, inputs: seq<Model>, input: Model)
    ensures WriteAll(models, inputs + [input])
            == match WriteAll(models, inputs)
               case Ok(before) => Write(before, input)
               case Err => Err
  {
    assert (inputs + [input])[..|inputs|] == inputs;
  }
}
