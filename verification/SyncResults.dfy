/** What a sync leaves of the document and the transport, and exactly when it goes through. */
module SyncResults {
  import opened Wrappers
  import opened Text
  import opened ProfileStore
  import opened ProfileSync
  import C = CodexConfig
  import M = ModelSelection
  import W = SwitchResults
  import Runs = ProfileRuns

  /** Gateway mode with a platform key. */
  predicate Keyed(st: State) {
    st.mode.Gateway? && st.apiKeyId.Some?
  }

  /** The stored models that the selection names once every change is followed. */
  function Wanted(st: State, r: SyncRequest): seq<M.Model> {
    M.Matching(r.models, M.RewriteAll(st.slugs, r.changes))
  }

  /**
   The transport and the document after a sync that went through. With a key the user's choice of
   websockets is kept while the key allows it, and the document is that of gateway mode for the stored
   address and the key's secret. Otherwise the transport stays, and the document changes in nothing but
   the pointer, and in nothing at all while models are left.
   */
  lemma SyncedDocument(env: Env, e: Exec, r: SyncRequest, faults: Faults)
    requires Faithful(env) && SyncProfile(env, e, r, faults).done
    ensures LoadState(env, e.store).Some? && LoadState(env, SyncProfile(env, e, r, faults).exec.store).Some?
    ensures var st, after := LoadState(env, e.store).value, SyncProfile(env, e, r, faults).exec.store;
            var now, p := LoadState(env, after).value, st.profile;
            var before, doc := ConfigDoc(env, FileOf(e.store, p, Config)), ConfigDoc(env, FileOf(after, p, Config));
            if Keyed(st) then
              && r.key.Some? && Normalize(r.key.value.secret).Some?
              && now.websockets == Some(r.key.value.websocketAvailable && st.websockets != Some(false))
              && before.Some? && doc.Some?
              && W.GatewayDoc(before.value, doc.value, env.managedPath(p), C.GatewayBaseUrl(st.gatewayBaseUrl),
                              now.websockets.value, Normalize(r.key.value.secret).value)
            else
              && now.websockets == st.websockets
              && (Wanted(st, r) != [] ==> FileOf(after, p, Config) == FileOf(e.store, p, Config))
              && (Wanted(st, r) == [] ==>
                    before.Some? && doc.Some? && C.SameExcept(before.value, doc.value, {C.CATALOG_KEY}))
  {
    hide LoadState, Decide, Contents, SyncedConfig, WriteSynced, M.Matching, M.Followed, M.RewriteAll;
    hide Faithful, PointsToManaged, ConfigDoc, Websockets, W.GatewayDoc, C.SameExcept;
    IdleWithoutState(env, e.store, r);
    var st := LoadState(env, e.store).value;
    var plan := Decide(env, Some(st), e.store, r).plan;
    PlanView(env, st, e.store, r);
    SettledSlugs(env, st, e.store, r);
    M.MatchingFollowed(r.models, st.slugs, r.changes);
    var content := Contents(env, r, plan).value;
    var config := SyncedConfig(env, e.store, r, plan, content).value;
    ConfigSynced(env, e.store, r, plan, content);
    var patched := Check(Check(Check(Read(e), true, faults), true, faults), true, faults);
    WriteSyncedView(env, patched, plan, content, config, faults);
    if Keyed(st) {
      TransportPlanned(env, st, e.store, r);
    }
  }

  lemma TransportPlanned(env: Env, st: State, s: Store, r: SyncRequest)
    requires Decide(env, Some(st), s, r).Proceed? && Keyed(st)
    ensures r.key.Some?
    ensures Decide(env, Some(st), s, r).plan.websockets
            == Some(r.key.value.websocketAvailable && st.websockets != Some(false))
  {
    hide PointsToManaged, Followed;
  }

  lemma ConfigSynced(env: Env, s: Store, r: SyncRequest, plan: Prepared, content: Content)
    requires Faithful(env) && SyncedConfig(env, s, r, plan, content).Ok?
    ensures var config, st := SyncedConfig(env, s, r, plan, content).value, plan.state;
            var before, doc := ConfigDoc(env, FileOf(s, st.profile, Config)), ConfigDoc(env, config);
            && (content.detach ==>
                  config.Some? && before.Some? && doc.Some? && C.SameExcept(before.value, doc.value, {C.CATALOG_KEY}))
            && (!content.detach && Keyed(st) && plan.websockets.Some? ==>
                  && config.Some? && r.key.Some? && Normalize(r.key.value.secret).Some? && before.Some? && doc.Some?
                  && W.GatewayDoc(before.value, doc.value, env.managedPath(st.profile),
                                  C.GatewayBaseUrl(st.gatewayBaseUrl), plan.websockets.value,
                                  Normalize(r.key.value.secret).value))
            && (!content.detach && !(Keyed(st) && plan.websockets.Some?) ==> config.None?)
  {
    hide Normalize, GatewayConfig, C.GatewayBaseUrl, W.GatewayDoc, Faithful;
    var st := plan.state;
    if !content.detach && Keyed(st) && plan.websockets.Some? && r.key.Some? && Normalize(r.key.value.secret).Some? {
      W.GatewayWrites(env, FileOf(s, st.profile, Config), st.profile, C.GatewayBaseUrl(st.gatewayBaseUrl),
                      plan.websockets.value, Normalize(r.key.value.secret).value);
    }
    if content.detach {
      RestoredDoc(env, s, st);
    }
  }

  lemma RestoredDoc(env: Env, s: Store, st: State)
    requires Faithful(env) && ConfigDoc(env, FileOf(s, st.profile, Config)).Some?
    ensures var before := ConfigDoc(env, FileOf(s, st.profile, Config)).value;
            var text := env.renderToml(C.RestorePrevious(env.norm, before, env.managedPath(st.profile), st.previous));
            && ConfigDoc(env, Some(text)).Some?
            && C.SameExcept(before, ConfigDoc(env, Some(text)).value, {C.CATALOG_KEY})
  {
  }

  /**
   Without failures a sync goes through exactly if there is a state whose document points at the managed
   catalog (or that has no selection but a gateway key), and, with a key, the key is there with a secret
   that the document can take, and with a catalog if no selected model is left.
   */
  ghost predicate Syncs(env: Env, s: Store, r: SyncRequest) {
    && LoadState(env, s).Some?
    && var st := LoadState(env, s).value;
       && (if st.slugs != [] then PointsToManaged(env, s, st.profile) else Keyed(st))
       && (Keyed(st) ==>
             && r.key.Some? && Normalize(r.key.value.secret).Some?
             && (Wanted(st, r) == [] ==> r.key.value.catalog.Some?)
             && W.TakesGateway(ConfigDoc(env, FileOf(s, st.profile, Config)), Normalize(r.key.value.secret).value))
  }

  lemma SyncsExactly(env: Env, s: Store, r: SyncRequest, faults: Faults)
    requires Faithful(env) && Calm(faults)
    ensures SyncProfile(env, Runs.Start(s), r, faults).done <==> Syncs(env, s, r)
  {
    hide Faithful, Decide, Contents, SyncedConfig, WriteSynced, LoadState, Followed, PointsToManaged, Syncs;
    IdleWithoutState(env, s, r);
    var seen := LoadState(env, s);
    if seen.Some? {
      DecidesExactly(env, s, seen.value, r);
      var decision := Decide(env, seen, s, r);
      if decision.Proceed? && Contents(env, r, decision.plan).Ok? {
        PlanView(env, seen.value, s, r);
        var content := Contents(env, r, decision.plan).value;
        var config := SyncedConfig(env, s, r, decision.plan, content);
        if config.Ok? {
          var patched := Check(Check(Check(Read(Runs.Start(s)), true, faults), true, faults), true, faults);
          WriteSyncedView(env, patched, decision.plan, content, config.value, faults);
        }
      }
    } else {
      assert !Syncs(env, s, r) by { NoState(env, s, r); }
    }
  }

  lemma NoState(env: Env, s: Store, r: SyncRequest)
    requires LoadState(env, s).None?
    ensures !Syncs(env, s, r)
  {
  }

  lemma DecidesExactly(env: Env, s: Store, st: State, r: SyncRequest)
    requires Faithful(env) && LoadState(env, s) == Some(st)
    ensures var decision := Decide(env, Some(st), s, r);
            Syncs(env, s, r) <==>
              && decision.Proceed? && Contents(env, r, decision.plan).Ok?
              && SyncedConfig(env, s, r, decision.plan, Contents(env, r, decision.plan).value).Ok?
  {
    hide Faithful, LoadState, PointsToManaged, M.Matching, M.RewriteAll, M.Followed, W.TakesGateway, GatewayConfig;
    hide Normalize, Websockets, C.GatewayBaseUrl, ConfigDoc;
    var decision := Decide(env, Some(st), s, r);
    M.MatchingFollowed(r.models, st.slugs, r.changes);
    NothingMatchesNothing(r.models);
    PointedParses(env, s, st.profile);
    NothingFollowed(st, r);
    if decision.Proceed? && Keyed(st) && r.key.Some? && Normalize(r.key.value.secret).Some? {
      W.GatewayWrites(env, FileOf(s, st.profile, Config), st.profile, C.GatewayBaseUrl(st.gatewayBaseUrl),
                      decision.plan.websockets.value, Normalize(r.key.value.secret).value);
    }
  }

  lemma PointedParses(env: Env, s: Store, p: Profile)
    ensures PointsToManaged(env, s, p) ==> ConfigDoc(env, FileOf(s, p, Config)).Some?
  {
  }

  lemma NothingFollowed(st: State, r: SyncRequest)
    ensures st.slugs == [] ==> Followed(st, r) == []
  {
    M.RewriteAllNone(r.changes);
    hide M.Followed;
  }
}
