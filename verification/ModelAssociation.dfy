/**
 Associating the models an upstream API offers with routes of the managed catalog: what a call hands to
 the store and reports. What the store makes of it is `AssociationOutcome`.
 */
module ModelAssociation {
  import opened CatalogStore
  import opened ModelIds
  import opened Text
  import opened Wrappers

  const I64_MAX: int := 0x7FFF_FFFF_FFFF_FFFF

  datatype Api = Api(gemini: bool, provider: Option<string>)

  /** `created`, `added` and `present` (the unchanged routes) are the three lists of slugs the call reports. */
  datatype Report = Report(created: seq<string>, added: seq<string>, present: seq<string>)

  // ----- one request against the catalog -----

  predicate FromApi(route: Route, apiId: string) {
    route.sourceKind == AGGREGATE_API && route.sourceId == apiId
  }

  /** The model already routes this very upstream model to the API. */
  predicate HasRoute(model: Model, apiId: string, upstream: string) {
    exists route :: route in model.routes && FromApi(route, apiId) && EqualFold(route.upstreamModel, upstream)
  }

  function FirstFromApi(routes: seq<Route>, apiId: string): Option<Route> {
    if routes == [] then None
    else if FromApi(routes[0], apiId) then Some(routes[0])
    else FirstFromApi(routes[1..], apiId)
  }

  /** A further route to the API inherits the priority and weight of the model's first one. */
  function AddedRoute(model: Model, apiId: string, upstream: string): Route {
    match FirstFromApi(model.routes, apiId)
    case Some(first) =>
      Route("", AGGREGATE_API, apiId, upstream, true, first.priority, if first.weight < 1 then 1 else first.weight)
    case None => Route("", AGGREGATE_API, apiId, upstream, true, 0, 1)
  }

  function DisplayName(names: seq<(string, string)>, upstream: string): string {
    if names == [] then upstream
    else if EqualFold(names[0].0, upstream) then (if Trim(names[0].1) == [] then upstream else Trim(names[0].1))
    else DisplayName(names[1..], upstream)
  }

  /** Two's-complement wrapping of a 64-bit addition. */
  function Wrap(n: int): int {
    (n + I64_MAX + 1) % (2 * (I64_MAX + 1)) - (I64_MAX + 1)
  }

  function LargestSort(models: seq<Model>): (n: int)
    requires models != []
    ensures forall m :: m in models ==> m.sortOrder <= n
  {
    if |models| == 1 then models[0].sortOrder
    else
      var rest := LargestSort(models[..|models| - 1]);
      assert models == models[..|models| - 1] + [models[|models| - 1]];
      if rest < models[|models| - 1].sortOrder then models[|models| - 1].sortOrder else rest
  }

  function NextSort(models: seq<Model>): int {
    Wrap((if models == [] then 0 else LargestSort(models)) + 1)
  }

  datatype Request = Request(apiId: string, api: Api, names: seq<(string, string)>, nextSort: int)

  function NewModel(req: Request, upstream: string, index: nat): Model {
    Model("", upstream, DisplayName(req.names, upstream), req.api.provider, false, Wrap(req.nextSort + index),
          [Route("", AGGREGATE_API, req.apiId, upstream, true, 0, 1)])
  }

  function WithRoute(model: Model, apiId: string, upstream: string): Model {
    model.(routes := model.routes + [AddedRoute(model, apiId, upstream)])
  }

  /** What a request meets: a model that routes it already, one to be extended, or none. */
  datatype Finding = Present(slug: string) | Extend(model: Model) | Create(model: Model)

  function Meet(models: seq<Model>, req: Request, id: string, index: nat): Finding {
    match Find(models, id)
    case Some(j) =>
      if HasRoute(models[j], req.apiId, id) then Present(models[j].slug)
        else Extend(WithRoute(models[j], req.apiId, id))
    case None => Create(NewModel(req, id, index))
  }

  function InputsOf(finding: Finding): seq<Model> {
    if finding.Present? then [] else [finding.model]
  }

  function Reported(report: Report, finding: Finding): Report {
    match finding
    case Present(slug) => report.(present := report.present + [slug])
    case Extend(m) => report.(added := report.added + [m.slug])
    case Create(m) => report.(created := report.created + [m.slug], added := report.added + [m.slug])
  }

  /** A call: the catalog as it was read, and the distinct requests. */
  datatype Batch = Batch(models: seq<Model>, req: Request, requested: seq<string>)

  ghost predicate Ready(b: Batch) {
    Distinct(b.requested) && IsTable(b.models)
  }

  function At(b: Batch, k: nat): Finding
    requires k < |b.requested|
  {
    Meet(b.models, b.req, b.requested[k], k)
  }

  /** What the first `n` requests hand to the store, and what is reported of them. */
  function Inputs(b: Batch, n: nat): seq<Model>
    requires n <= |b.requested|
  {
    if n == 0 then [] else Inputs(b, n - 1) + InputsOf(At(b, n - 1))
  }

  function ReportOf(b: Batch, n: nat): Report
    requires n <= |b.requested|
  {
    if n == 0 then Report([], [], []) else Reported(ReportOf(b, n - 1), At(b, n - 1))
  }

  function Written(b: Batch): Result<seq<Model>> {
    WriteAll(b.models, Inputs(b, |b.requested|))
  }

  // ----- the call -----

  /** The caller's copy of the catalog: only models already asked for may differ from the stored ones. */
  ghost predicate LocalCopy(models: seq<Model>, local: seq<Model>, done: seq<string>) {
    && |local| == |models|
    && (forall j :: 0 <= j < |local| ==> local[j].slug == models[j].slug)
    && (forall j :: 0 <= j < |local| && !Mentions(done, models[j].slug) ==> local[j] == models[j])
  }

  lemma FindBySlug(models: seq<Model>, local: seq<Model>, id: string)
    requires |local| == |models| && forall j :: 0 <= j < |local| ==> local[j].slug == models[j].slug
    ensures Find(local, id) == Find(models, id)
  {
    hide EqualFold;
    if models != [] {
      FindBySlug(models[..|models| - 1], local[..|local| - 1], id);
    }
  }

  lemma CopyFound(models: seq<Model>, local: seq<Model>, done: seq<string>, id: string, j: nat, m: Model)
    requires LocalCopy(models, local, done) && j < |models| && EqualFold(models[j].slug, id) && m.slug == models[j].slug
    ensures LocalCopy(models, local[j := m], done + [id])
  {
    hide EqualFold;
    FoldSymmetricAll(id);
    forall k | 0 <= k < |local| && !Mentions(done + [id], models[k].slug) ensures local[j := m][k] == models[k] {
      MentionsSnoc(done, id, models[k].slug);
    }
  }

  lemma FoldSymmetricAll(id: string)
    ensures forall other :: EqualFold(id, other) <==> EqualFold(other, id)
  {
  }

  lemma CopyKept(models: seq<Model>, local: seq<Model>, done: seq<string>, id: string)
    requires LocalCopy(models, local, done)
    ensures LocalCopy(models, local, done + [id])
  {
    hide EqualFold;
    forall k | 0 <= k < |local| && !Mentions(done + [id], models[k].slug) ensures local[k] == models[k] {
      MentionsSnoc(done, id, models[k].slug);
    }
  }

  /** The caller's copy meets what the catalog as it was read meets. */
  lemma MeetsSame(models: seq<Model>, local: seq<Model>, done: seq<string>, req: Request, id: string, i: nat)
    requires LocalCopy(models, local, done) && !Mentions(done, id)
    ensures Meet(local, req, id, i) == Meet(models, req, id, i) && Find(local, id) == Find(models, id)
  {
    hide HasRoute, NewModel, WithRoute, EqualFold;
    FindBySlug(models, local, id);
    if Find(models, id).Some? {
      NotMentionedYet(done, id, models[Find(models, id).value].slug);
    }
  }

  lemma NothingCopied(models: seq<Model>)
    ensures LocalCopy(models, models, [])
  {
  }

  lemma CopySlugs(models: seq<Model>, local: seq<Model>, done: seq<string>)
    requires LocalCopy(models, local, done)
    ensures |local| == |models| && forall j :: 0 <= j < |local| ==> local[j].slug == models[j].slug
  {
  }

  /**
   What the storage answers: whether it opens, the API can be looked up, the catalog read, the batch
   committed and read again.
   */
  datatype Disk = Disk(opens: bool, finds: bool, lists: bool, commits: bool, rereads: bool)

  class Catalog {
    var models: seq<Model>

    ghost predicate Valid()
      reads this
    {
      IsTable(models)
    }

    constructor ()
      ensures Valid() && models == []
    {
      models := [];
    }

    method NormalizeRequest(raw: seq<string>, gemini: bool) returns (r: Result<seq<string>>)
      ensures r == Requested(raw, gemini)
      ensures r.Ok? <==> forall i :: 0 <= i < |raw| ==> NormalizeModelId(raw[i], gemini).Some?
      ensures r.Ok? ==>
              Distinct(r.value)
              && forall i :: 0 <= i < |raw| ==> Mentions(r.value, NormalizeModelId(raw[i], gemini).value)
      ensures r.Ok? ==> forall id :: id in r.value ==> exists i ::
              0 <= i < |raw| && NormalizeModelId(raw[i], gemini) == Some(id)
    {
      hide NormalizeModelId, Mentions, Distinct;
      AllIdsAreRequested(raw, gemini);
      var requested := [];
      for i := 0 to |raw|
        invariant Requested(raw[..i], gemini) == Ok(requested)
      {
        assert raw[..i + 1][..i] == raw[..i];
        var id := NormalizeModelId(raw[i], gemini);
        if id.None? {
          RequestedFailsEarly(raw, gemini, i + 1);
          return Err;
        }
        if !Mentions(requested, id.value) {
          requested := requested + [id.value];
        }
      }
      assert raw[..|raw|] == raw;
      return Ok(requested);
    }

    /** One pass over the requests, against a copy of the catalog. */
    method BuildInputs(req: Request, requested: seq<string>) returns (inputs: seq<Model>, report: Report)
      requires Distinct(requested)
      ensures inputs == Inputs(Batch(models, req, requested), |requested|)
      ensures report == ReportOf(Batch(models, req, requested), |requested|)
    {
      hide EqualFold, HasRoute, AddedRoute, NewModel, LocalCopy, Find, Mentions;
      ghost var b := Batch(models, req, requested);
      var local := models;
      inputs := [];
      var created, added, present := [], [], [];
      NothingCopied(models);
      assert requested[..0] == [];
      for i := 0 to |requested|
        invariant LocalCopy(models, local, requested[..i])
        invariant inputs == Inputs(b, i) && Report(created, added, present) == ReportOf(b, i)
      {
        var upstream := requested[i];
        assert requested[..i + 1] == requested[..i] + [upstream];
        NotAskedBefore(requested, i);
        MeetsSame(models, local, requested[..i], req, upstream, i);
        CopySlugs(models, local, requested[..i]);
        match Find(local, upstream)
        case Some(j) =>
          var model := local[j];
          if HasRoute(model, req.apiId, upstream) {
            present := present + [model.slug];
            assert inputs + [] == inputs;
            CopyKept(models, local, requested[..i], upstream);
          } else {
            model := model.(routes := model.routes + [AddedRoute(model, req.apiId, upstream)]);
            CopyFound(models, local, requested[..i], upstream, j, model);
            local := local[j := model];
            inputs := inputs + [model];
            added := added + [model.slug];
          }
        case None =>
          var model := NewModel(req, upstream, i);
          NewModelSlug(req, upstream, i);
          inputs := inputs + [model];
          created := created + [upstream];
          added := added + [upstream];
          CopyKept(models, local, requested[..i], upstream);
      }
      report := Report(created, added, present);
    }

    /** The transaction: one model after another, and nothing of it if one is refused. */
    method WriteBatch(inputs: seq<Model>) returns (r: Result<seq<Model>>)
      ensures r == WriteAll(models, inputs)
    {
      hide Write;
      var rows := models;
      for i := 0 to |inputs|
        invariant WriteAll(models, inputs[..i]) == Ok(rows)
      {
        assert inputs[..i + 1] == inputs[..i] + [inputs[i]];
        WriteAllSnoc(models, inputs[..i], inputs[i]);
        var next := Write(rows, inputs[i]);
        if next.Err? {
          StillRefused(models, inputs, i + 1);
          return Err;
        }
        rows := next.value;
      }
      assert inputs[..|inputs|] == inputs;
      return Ok(rows);
    }

    /** An error may come after the commit: then the batch stays written. */
    method Associate(apiId: string, api: Option<Api>, upstreamModels: seq<string>, names: seq<(string, string)>,
                     disk: Disk)
      returns (r: Result<Report>, ghost committed: bool)
      requires Valid()
      modifies this
      ensures Valid()
      ensures committed ==> Accepts(apiId, api, upstreamModels, disk) && disk.lists && disk.commits
      ensures !committed ==> models == old(models)
      ensures Accepts(apiId, api, upstreamModels, disk) ==>
                var b := BatchOf(old(models), apiId, api.value, upstreamModels, names);
                var inputs := Inputs(b, |b.requested|);
                && (committed <==> inputs != [] && disk.lists && Written(b).Ok? && disk.commits)
                && (committed ==> models == Written(b).value)
                && (r.Ok? <==>
                      || b.requested == []
                      || (disk.lists && (inputs == [] || (committed && disk.rereads && AllFound(models, inputs)))))
                && (r.Ok? ==> r.value == ReportOf(b, |b.requested|))
      ensures r.Ok? ==> Accepts(apiId, api, upstreamModels, disk)
    {
      hide IsTable, Inputs, ReportOf, Requested, NextSort, Distinct, AllFound;
      committed := false;
      if Trim(apiId) == [] || !disk.opens || !disk.finds || api.None? {
        return Err, false;
      }
      var normalized := NormalizeRequest(upstreamModels, api.value.gemini);
      if normalized.Err? {
        return Err, false;
      }
      var requested := normalized.value;
      ghost var b := BatchOf(models, apiId, api.value, upstreamModels, names);
      NothingRequested(b);
      if requested == [] {
        return Ok(Report([], [], [])), false;
      }
      if !disk.lists {
        return Err, false;
      }
      var req := Request(apiId, api.value, names, NextSort(models));
      var inputs, report := BuildInputs(req, requested);
      if inputs == [] {
        return Ok(report), false;
      }
      var written := WriteBatch(inputs);
      if written.Err? || !disk.commits {
        return Err, false;
      }
      WriteAllKeepsTable(models, inputs);
      models := written.value;
      committed := true;
      r := if disk.rereads && AllFound(models, inputs) then Ok(report) else Err;
    }
  }

  predicate Accepts(apiId: string, api: Option<Api>, raw: seq<string>, disk: Disk) {
    Trim(apiId) != [] && disk.opens && disk.finds && api.Some? && Requested(raw, api.value.gemini).Ok?
  }

  /** The call as a batch. */
  function BatchOf(models: seq<Model>, apiId: string, api: Api, raw: seq<string>, names: seq<(string, string)>): Batch
    requires Requested(raw, api.gemini).Ok?
  {
    Batch(models, Request(apiId, api, names, NextSort(models)), Requested(raw, api.gemini).value)
  }

  lemma NothingRequested(b: Batch)
    ensures b.requested == [] ==> Inputs(b, 0) == [] && ReportOf(b, 0) == Report([], [], [])
  {
  }

  lemma NewModelSlug(req: Request, id: string, index: nat)
    ensures NewModel(req, id, index).slug == id
  {
  }

  lemma {:induction false} StillRefused(models: seq<Model>, inputs: seq<Model>, i: nat)
    requires i <= |inputs| && WriteAll(models, inputs[..i]).Err?
    ensures WriteAll(models, inputs).Err?
    decreases |inputs| - i
  {
    hide Write;
    if i == |inputs| {
      assert inputs[..i] == inputs;
    } else {
      assert inputs[..i + 1][..i] == inputs[..i];
      StillRefused(models, inputs, i + 1);
    }
  }
}
