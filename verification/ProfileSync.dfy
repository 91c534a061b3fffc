/**
 Bringing the switched profile in line with the model store after models were renamed or removed.
 */
module ProfileSync {
  import opened Wrappers
  import opened Text
  import opened ProfileStore
  import C = CodexConfig
  import M = ModelSelection

  /** What the storage and the catalog service say about the gateway key. */
  datatype KeyFacts = KeyFacts(websocketAvailable: bool, secret: Option<string>, catalog: Option<string>)

  datatype SyncRequest = SyncRequest(changes: seq<M.Change>, models: seq<M.Model>, key: Option<KeyFacts>)

  /** What the first phase decides: the state with the followed selection, and whether to detach. */
  datatype Prepared = Prepared(state: State, websockets: Option<bool>, changed: bool, detach: bool)

  /** Nothing to do, a refusal, or a plan. */
  datatype Decision = Idle | Refused | Proceed(plan: Prepared)

  predicate PointsToManaged(env: Env, s: Store, p: Profile) {
    match FileOf(s, p, Config)
    case Some(text) => env.parseToml(text).Some? && C.PointsTo(env.norm, env.parseToml(text).value, env.managedPath(p))
    case None => false
  }

  function Followed(st: State, r: SyncRequest): seq<string> {
    M.Followed(st.slugs, r.changes)
  }

  predicate Detaches(st: State, followed: seq<string>) {
    st.slugs != [] && followed == [] && (!st.mode.Gateway? || st.apiKeyId.None?)
  }

  function Websockets(st: State, key: KeyFacts): bool {
    st.websockets.GetOr(key.websocketAvailable) && key.websocketAvailable
  }

  /** The first phase. */
  function Decide(env: Env, seen: Option<State>, s: Store, r: SyncRequest): Decision {
    match seen
    case None => Idle
    case Some(st) =>
      var followed := Followed(st, r);
      var plan := Prepared(st.(slugs := followed), None, followed != st.slugs, Detaches(st, followed));
      if st.slugs != [] && !PointsToManaged(env, s, st.profile) then Idle
      else if st.slugs == [] && !st.mode.Gateway? && !plan.changed then Idle
      else if !st.mode.Gateway? || plan.detach then Proceed(plan)
      else if st.apiKeyId.Some? then
        if r.key.None? then Refused else Proceed(plan.(websockets := Some(Websockets(st, r.key.value))))
      else if followed != [] then Proceed(plan)
      else Refused
  }

  /** The catalog to write, the slugs to save, and whether the pointer is given back. */
  datatype Content = Content(catalog: Option<string>, slugs: Option<seq<string>>, detach: bool)

  function GatewayContent(r: SyncRequest, slugs: Option<seq<string>>): Result<Content> {
    if r.key.Some? && r.key.value.catalog.Some? then Ok(Content(r.key.value.catalog, slugs, false)) else Err
  }

  /** The second phase, off the lock-holding disk worker. */
  function Contents(env: Env, r: SyncRequest, plan: Prepared): Result<Content> {
    var st := plan.state;
    if plan.detach then Ok(Content(None, Some([]), true))
    else if st.slugs == [] then GatewayContent(r, None)
    else
      var matching := M.Matching(r.models, st.slugs);
      if matching != [] then Ok(Content(Some(env.renderCatalog(matching)), Some(M.Slugs(matching)), false))
      else if st.mode.Gateway? && st.apiKeyId.Some? then GatewayContent(r, Some([]))
      else Ok(Content(None, Some([]), true))
  }

  /** The document to write: pointer given back, gateway entries renewed, or nothing. */
  function SyncedConfig(env: Env, s: Store, r: SyncRequest, plan: Prepared, content: Content): Result<Option<string>> {
    var st := plan.state;
    var current := FileOf(s, st.profile, Config);
    if content.detach then
      match ConfigDoc(env, current)
      case None => Err
      case Some(doc) => Ok(Some(env.renderToml(C.RestorePrevious(env.norm, doc, env.managedPath(st.profile),
                                                                 st.previous))))
    else if st.mode.Gateway? && st.apiKeyId.Some? && plan.websockets.Some? then
      if r.key.None? || Normalize(r.key.value.secret).None? then Err
      else
        match GatewayConfig(env, current, st.profile, C.GatewayBaseUrl(st.gatewayBaseUrl), plan.websockets.value,
                            Normalize(r.key.value.secret).value)
        case Err => Err
        case Ok(text) => Ok(Some(text))
    else Ok(None)
  }

  function SyncedState(plan: Prepared, content: Content): State {
    plan.state.(
      websockets := if plan.websockets.Some? then plan.websockets else plan.state.websockets,
      slugs := content.slugs.GetOr(plan.state.slugs))
  }

  function MaybeFile(e: Exec, p: Profile, slot: Slot, content: Option<string>, faults: Faults): Exec {
    if content.Some? then Must(e, File(p, slot, content), faults) else e
  }

  function WriteSynced(env: Env, e: Exec, plan: Prepared, content: Content, config: Option<string>,
                       faults: Faults): Exec {
    var p := plan.state.profile;
    var listed := MaybeFile(e, p, Catalog, content.catalog, faults);
    var configured := MaybeFile(listed, p, Config, config, faults);
    var st := SyncedState(plan, content);
    if plan.changed || st != plan.state then WriteManagedState(env, configured, p, st, faults) else configured
  }

  /** The result says whether anything was brought in line. */
  datatype Synced = Synced(exec: Exec, done: bool)

  function SyncProfile(env: Env, e: Exec, r: SyncRequest, faults: Faults): Synced {
    var decision := Decide(env, SeenState(env, e, faults), e.store, r);
    var decided := Check(Read(e), !decision.Refused?, faults);
    if !decided.ok || !decision.Proceed? then Synced(decided, false)
    else
      var plan := decision.plan;
      var content := Contents(env, r, plan);
      var fetched := Check(decided, content.Ok?, faults);
      if !fetched.ok then Synced(fetched, false)
      else
        var config := SyncedConfig(env, e.store, r, plan, content.value);
        var patched := Check(fetched, config.Ok?, faults);
        if !patched.ok then Synced(patched, false)
        else
          var written := WriteSynced(env, patched, plan, content.value, config.value, faults);
          Synced(written, written.ok)
  }

  // ----- what a sync achieves -----

  /** The plan keeps everything of the state but the selection. */
  lemma PlanView(env: Env, st: State, s: Store, r: SyncRequest)
    requires Decide(env, Some(st), s, r).Proceed?
    ensures var plan := Decide(env, Some(st), s, r).plan;
            && plan.state == st.(slugs := Followed(st, r)) && (plan.changed <==> plan.state != st)
            && (st.slugs != [] ==> PointsToManaged(env, s, st.profile))
            && (st.slugs == [] ==> plan.state.slugs == [] && !plan.detach && st.mode.Gateway? && st.apiKeyId.Some?)
            && (plan.websockets.Some? <==> st.mode.Gateway? && st.apiKeyId.Some? && !plan.detach)
            && (plan.detach ==> plan.state.slugs == [] && !(st.mode.Gateway? && st.apiKeyId.Some?))
  {
    M.RewriteAllNone(r.changes);
    hide M.Followed, PointsToManaged;
  }

  /** No selection is left only where the code expects a validated gateway key, or where it detaches. */
  lemma EmptySelectionHasKey(env: Env, st: State, s: Store, r: SyncRequest)
    requires Decide(env, Some(st), s, r).Proceed?
    ensures var plan := Decide(env, Some(st), s, r).plan;
            plan.state.slugs == [] && !plan.detach ==>
              plan.state.mode.Gateway? && plan.state.apiKeyId.Some? && plan.websockets.Some?
  {
    M.RewriteAllNone(r.changes);
    hide M.Followed, PointsToManaged;
  }

  lemma {:induction false} NothingMatchesNothing(models: seq<M.Model>)
    ensures M.Matching(models, []) == []
  {
    if models != [] {
      NothingMatchesNothing(models[..|models| - 1]);
    }
  }

  /** The slugs a sync settles on are those of the store's models the followed selection names. */
  lemma SettledSlugs(env: Env, st: State, s: Store, r: SyncRequest)
    requires Decide(env, Some(st), s, r).Proceed? && Contents(env, r, Decide(env, Some(st), s, r).plan).Ok?
    ensures var plan := Decide(env, Some(st), s, r).plan;
            var content, matching := Contents(env, r, plan).value, M.Matching(r.models, plan.state.slugs);
            && SyncedState(plan, content).slugs == M.Slugs(matching)
            && (matching != [] ==> content.catalog == Some(env.renderCatalog(matching)))
            && (content.detach <==> matching == [] && !(plan.state.mode.Gateway? && plan.state.apiKeyId.Some?))
            && (content.detach ==> content.catalog.None?)
            && (matching == [] && !content.detach ==>
                  r.key.Some? && content.catalog.Some? && content.catalog == r.key.value.catalog)
  {
    hide M.Matching, M.Followed, PointsToManaged;
    NothingMatchesNothing(r.models);
    EmptySelectionHasKey(env, st, s, r);
    assert M.Slugs([]) == [];
  }

  lemma MaybeView(e: Exec, p: Profile, slot: Slot, content: Option<string>, faults: Faults)
    ensures var r := MaybeFile(e, p, slot, content, faults);
            && r.store.rows == e.store.rows
            && (forall q: Profile, other: Slot :: !(q == p && other == slot) ==>
                  FileOf(r.store, q, other) == FileOf(e.store, q, other))
            && (r.ok ==>
                e.ok && FileOf(r.store, p, slot) == (if content.Some? then content else FileOf(e.store, p, slot)))
            && (!r.ok ==> FileOf(r.store, p, slot) == FileOf(e.store, p, slot))
            && (Calm(faults) ==> r.ok == e.ok)
  {
  }

  /** The files and the state a sync leaves, wherever it stops. */
  lemma WriteSyncedView(env: Env, e: Exec, plan: Prepared, content: Content, config: Option<string>, faults: Faults)
    requires Faithful(env) && (!plan.changed ==> LoadState(env, e.store) == Some(plan.state))
    ensures var r, p := WriteSynced(env, e, plan, content, config, faults), plan.state.profile;
            && SameRowsBut(e.store, r.store, StateRow)
            && (forall q: Profile, slot: Slot :: q != p || slot.Auth? ==>
                FileOf(r.store, q, slot) == FileOf(e.store, q, slot))
            && (FileOf(r.store, p, Config) == FileOf(e.store, p, Config)
                || (config.Some? && FileOf(r.store, p, Config) == config))
            && (r.ok ==>
                  && LoadState(env, r.store) == Some(SyncedState(plan, content))
                  && FileOf(r.store, p, Catalog)
                     == (if content.catalog.Some? then content.catalog else FileOf(e.store, p, Catalog))
                  && FileOf(r.store, p, Config) == (if config.Some? then config else FileOf(e.store, p, Config)))
            && (!r.ok ==> r.store.rows == e.store.rows)
            && (Calm(faults) ==> r.ok == e.ok)
  {
    hide LoadState, WriteManagedState, MaybeFile, Normalize, Faithful, SyncedState;
    var p := plan.state.profile;
    var listed := MaybeFile(e, p, Catalog, content.catalog, faults);
    MaybeView(e, p, Catalog, content.catalog, faults);
    var configured := MaybeFile(listed, p, Config, config, faults);
    MaybeView(listed, p, Config, config, faults);
    SameRows(env, e.store, configured.store);
    var st := SyncedState(plan, content);
    ManagedStateView(env, configured, p, st, faults);
    var managed := WriteManagedState(env, configured, p, st, faults);
    forall q: Profile, slot: Slot | !(q == p && (slot.MarkerFile? || slot.LegacyMarker?))
      ensures FileOf(managed.store, q, slot) == FileOf(configured.store, q, slot)
    {
    }
  }

  lemma SameRows(env: Env, a: Store, b: Store)
    requires a.rows == b.rows
    ensures LoadState(env, a) == LoadState(env, b)
  {
    SameState(env, a, b);
  }

  /** Where the pointer stands after the document has been brought in line. */
  lemma SyncedPointer(env: Env, s: Store, r: SyncRequest, plan: Prepared, content: Content)
    requires Faithful(env) && SyncedConfig(env, s, r, plan, content).Ok?
    ensures var config, st := SyncedConfig(env, s, r, plan, content).value, plan.state;
            && (content.detach && PointsToManaged(env, s, st.profile) ==>
                  config.Some? && ConfigDoc(env, config).Some?
                    && C.Pointer(ConfigDoc(env, config).value) == C.ItemOf(st.previous))
            && (!content.detach && st.mode.Gateway? && st.apiKeyId.Some? && plan.websockets.Some? ==>
                  config.Some? && ConfigDoc(env, config).Some?
                  && C.Pointer(ConfigDoc(env, config).value) == Some(C.Str(env.managedPath(st.profile))))
            && (!content.detach && !(st.mode.Gateway? && st.apiKeyId.Some? && plan.websockets.Some?) ==> config.None?)
  {
    hide Normalize, C.PatchForGateway, C.GatewayBaseUrl;
    var st := plan.state;
    var doc := ConfigDoc(env, FileOf(s, st.profile, Config));
    if !content.detach && doc.Some? && r.key.Some? && plan.websockets.Some? {
      C.GatewayPatch(doc.value, C.GatewayBaseUrl(st.gatewayBaseUrl), env.managedPath(st.profile), plan.websockets.value,
                     Normalize(r.key.value.secret).GetOr(""));
    }
  }

  /**
   After a sync that went through, the saved slugs are exactly the stored models named by the old
   selection once every rename and removal is followed, in store order, and the catalog file lists
   exactly those. If none is left outside gateway mode, the user's pointer is back.
   */
  lemma SyncSettles(env: Env, e: Exec, r: SyncRequest, faults: Faults)
    requires Faithful(env)
    ensures SyncProfile(env, e, r, faults).done ==>
              LoadState(env, e.store).Some? && LoadState(env, SyncProfile(env, e, r, faults).exec.store).Some?
    ensures SyncProfile(env, e, r, faults).done ==>
            var st, after := LoadState(env, e.store).value, SyncProfile(env, e, r, faults).exec.store;
            var now := LoadState(env, after).value;
            var p, matching := st.profile, M.Matching(r.models, M.RewriteAll(st.slugs, r.changes));
            && now.slugs == M.Slugs(matching)
            && now.(slugs := st.slugs, websockets := st.websockets) == st
            && (matching != [] ==> FileOf(after, p, Catalog) == Some(env.renderCatalog(matching)))
            && (matching == [] && st.mode.Gateway? && st.apiKeyId.Some? ==>
                  r.key.Some? && FileOf(after, p, Catalog).Some? && FileOf(after, p, Catalog) == r.key.value.catalog)
            && (matching == [] && !(st.mode.Gateway? && st.apiKeyId.Some?) ==>
                  && FileOf(after, p, Catalog) == FileOf(e.store, p, Catalog)
                  && ConfigDoc(env, FileOf(after, p, Config)).Some?
                  && C.Pointer(ConfigDoc(env, FileOf(after, p, Config)).value) == C.ItemOf(st.previous))
            && (st.mode.Gateway? && st.apiKeyId.Some? ==>
                  && ConfigDoc(env, FileOf(after, p, Config)).Some?
                  && C.Pointer(ConfigDoc(env, FileOf(after, p, Config)).value) == Some(C.Str(env.managedPath(p))))
            && (matching != [] && !(st.mode.Gateway? && st.apiKeyId.Some?) ==>
                  FileOf(after, p, Config) == FileOf(e.store, p, Config))
            && SameRowsBut(e.store, after, StateRow)
            && (forall q: Profile, slot: Slot :: q != p || slot.Auth? ==>
                FileOf(after, q, slot) == FileOf(e.store, q, slot))
  {
    hide LoadState, Decide, Contents, SyncedConfig, WriteSynced, M.Matching, M.Followed, M.RewriteAll;
    hide Faithful, PointsToManaged, C.Pointer, ConfigDoc;
    if SyncProfile(env, e, r, faults).done {
      IdleWithoutState(env, e.store, r);
      var st := LoadState(env, e.store).value;
      var plan := Decide(env, Some(st), e.store, r).plan;
      PlanView(env, st, e.store, r);
      SettledSlugs(env, st, e.store, r);
      M.MatchingFollowed(r.models, st.slugs, r.changes);
      var content := Contents(env, r, plan).value;
      SyncedPointer(env, e.store, r, plan, content);
      var patched := Check(Check(Check(Read(e), true, faults), true, faults), true, faults);
      var config := SyncedConfig(env, e.store, r, plan, content).value;
      WriteSyncedView(env, patched, plan, content, config, faults);
    }
  }

  lemma IdleWithoutState(env: Env, s: Store, r: SyncRequest)
    ensures Decide(env, None, s, r).Idle?
  {
  }
}
