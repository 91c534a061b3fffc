/**
 What a switch or a selection that went through leaves in the store, read back from the files and
 settings: the document, the other files, the state and its marker, against the request and the store
 before. And, when nothing fails, exactly which requests go through.
 */
module SwitchResults {
  import opened Wrappers
  import opened Text
  import opened ProfileStore
  import opened ProfileRuns
  import C = CodexConfig
  import M = ModelSelection
  import A = ModelApply

  // ----- what is written -----

  /** The marker says what the state says. */
  predicate Repeats(m: Marker, st: State) {
    && m.mode == st.mode && m.accountId == st.accountId && m.apiKeyId == st.apiKeyId
    && m.aggregateId == st.aggregateId && m.gatewayBaseUrl == st.gatewayBaseUrl
    && m.aggregateBaseUrl == st.aggregateBaseUrl && m.websockets == st.websockets && m.providerId == st.providerId
    && m.slugs == st.slugs && m.updatedAt == st.updatedAt
  }

  /** A state is stored, repeated by the marker, for the profile that is now the current one, which has a backup. */
  ghost predicate Settled(env: Env, after: Store, p: Profile, st: State) {
    && LoadState(env, after) == Some(st) && st.profile == p
    && ReadMarker(env, after, p).Some? && Repeats(ReadMarker(env, after, p).value, st)
    && Setting(after, HomeRow) == Normalize(Some(p)) && p in LoadBackups(env, after)
  }

  /**
   Everything a switch had to do is in the store; of the profile's own two files it writes, the
   others are as before.
   */
  ghost predicate Wrote(env: Env, s: Store, after: Store, p: Profile, t: Todo) {
    && FileOf(after, p, Config) == Some(t.config) && FileOf(after, p, t.slot) == t.content
    && (t.slot != Auth ==> FileOf(after, p, Auth) == FileOf(s, p, Auth))
    && (t.slot != Catalog ==> FileOf(after, p, Catalog) == FileOf(s, p, Catalog))
    && Settled(env, after, p, t.st) && OthersSame(s, after, p)
  }

  lemma CarryWrites(env: Env, e: Exec, p: Profile, t: Todo, faults: Faults)
    requires Faithful(env) && (t.slot.Auth? || t.slot.Catalog?)
    ensures var x := Carry(env, e, p, t, faults);
            x.ok ==>
              && FileOf(x.store, p, t.slot) == t.content
              && (t.slot != Auth ==> FileOf(x.store, p, Auth) == FileOf(e.store, p, Auth))
              && (t.slot != Catalog ==> FileOf(x.store, p, Catalog) == FileOf(e.store, p, Catalog))
              && FileOf(x.store, p, MarkerFile) == Some(env.renderMarker(MarkerOf(t.st)))
              && Setting(x.store, HomeRow) == Normalize(Some(p))
              && (Calm(faults) ==> FileOf(x.store, p, LegacyMarker).None?)
  {
    hide Normalize, LoadState, WriteManagedState, Finish, Faithful, Configured;
    var first := Configured(e, p, t, faults);
    ConfiguredView(e, p, t, faults);
    FirstFiles(e, p, t, faults);
    var managed := WriteManagedState(env, first, p, t.st, faults);
    ManagedStateView(env, first, p, t.st, faults);
    FinishView(managed, p, faults);
  }

  lemma FirstFiles(e: Exec, p: Profile, t: Todo, faults: Faults)
    ensures var x := Configured(e, p, t, faults);
            forall slot: Slot :: slot != t.slot && slot != Config
              ==> FileOf(x.store, p, slot) == FileOf(e.store, p, slot)
  {
  }

  lemma MarkerRepeats(env: Env, s: Store, p: Profile, st: State)
    requires Faithful(env) && FileOf(s, p, MarkerFile) == Some(env.renderMarker(MarkerOf(st)))
    ensures ReadMarker(env, s, p).Some? && Repeats(ReadMarker(env, s, p).value, st)
  {
  }

  /** A switch that goes through has written everything. */
  lemma SwitchWrites(env: Env, s: Store, plan: Plan, before: Exec, p: Profile, now: int, faults: Faults)
    requires Faithful(env) && Planned(env, s, plan, before, p, now, faults)
    requires plan.todo.Some? ==> plan.todo.value.slot.Auth? || plan.todo.value.slot.Catalog?
    ensures var x := Switch(env, plan, p, faults);
            x.ok ==>
              plan.todo.Some? && Wrote(env, s, x.store, p, plan.todo.value)
                && (Calm(faults) ==> FileOf(x.store, p, LegacyMarker).None?)
  {
    hide Faithful, EnsureBackup, LoadState, LoadBackups, Carry, Configured, Recorded, Repeats, ReadMarker;
    SwitchView(env, s, plan, before, p, now, faults);
    BackedView(env, s, before, p, now, faults);
    if plan.todo.Some? {
      var x := Carry(env, plan.exec, p, plan.todo.value, faults);
      CarryView(env, plan.exec, p, plan.todo.value, faults);
      CarryWrites(env, plan.exec, p, plan.todo.value, faults);
      if x.ok {
        MarkerRepeats(env, x.store, p, plan.todo.value.st);
      }
    }
  }

  // ----- the account switch -----

  /** The `cm` table of an account switch: no address and no credentials, so that Codex's own sign-in is used. */
  predicate IsCompatibility(item: Option<C.Item>) {
    && item.Some? && item.value.Table?
    && item.value.entries.Keys == {"name", "wire_api", "requires_openai_auth"}
    && item.value.entries["name"] == C.Str("OpenAI compatibility")
    && item.value.entries["wire_api"] == C.Str("responses")
    && item.value.entries["requires_openai_auth"] == C.Bool(true)
  }

  /** The document of an account switch, against the one before: both managed providers are disarmed. */
  ghost predicate DirectDoc(before: C.Doc, after: C.Doc) {
    && C.SameExcept(before, after, {"model_provider", "model_providers", C.CATALOG_KEY})
    && "model_provider" !in after
    && C.SameProviders(before, after, {C.PROVIDER, C.AGGREGATE})
    && C.AGGREGATE !in C.Providers(after).value && IsCompatibility(C.Get(C.Providers(after).value, C.PROVIDER))
  }

  lemma DirectWrites(env: Env, seen: Option<State>, config: Option<string>, p: Profile)
    requires Faithful(env)
    ensures var before := ConfigDoc(env, config);
            && (DirectConfig(env, seen, config, p).Ok? <==> before.Some? && C.ProvidersFit(before.value))
            && (DirectConfig(env, seen, config, p).Ok? ==>
                  var after := ConfigDoc(env, Some(DirectConfig(env, seen, config, p).value));
                  after.Some? && DirectDoc(before.value, after.value))
  {
    hide C.PatchForDirect, C.SameExcept, C.SameProviders, C.Providers, C.IsAggregate;
    var previous := PreviousPointer(env, seen, config, p);
    var doc := ConfigDoc(env, config);
    if doc.Some? {
      C.ProvidersExactly(doc.value);
    }
    hide C.ProvidersFit;
    if doc.Some? && previous.Ok? {
      C.DirectPatch(doc.value, env.managedPath(p), previous.value);
    }
  }

  /**
   An account switch that goes through: `auth.json` is the request's, the document is disarmed, and the
   state names the account and nothing else.
   */
  lemma AccountSwitch(env: Env, s: Store, r: DirectRequest, faults: Faults)
    requires Faithful(env)
    ensures var x, p := ApplyDirect(env, Start(s), r, faults), r.profile;
            x.ok ==>
              && ConfigDoc(env, FileOf(s, p, Config)).Some? && ConfigDoc(env, FileOf(x.store, p, Config)).Some?
              && DirectDoc(ConfigDoc(env, FileOf(s, p, Config)).value, ConfigDoc(env, FileOf(x.store, p, Config)).value)
              && FileOf(x.store, p, Auth) == Some(r.auth) && FileOf(x.store, p, Catalog) == FileOf(s, p, Catalog)
              && Settled(env, x.store, p, State(p, DirectAccount, Some(r.accountId), None, None, None, None, None,
                                                "openai", None, [], r.now))
              && OthersSame(s, x.store, p)
    ensures Calm(faults) ==>
              (ApplyDirect(env, Start(s), r, faults).ok
               <==> r.valid && ConfigDoc(env, FileOf(s, r.profile, Config)).Some?
                    && C.ProvidersFit(ConfigDoc(env, FileOf(s, r.profile, Config)).value))
  {
    hide Faithful, LoadState, LoadBackups, Accepted, DirectConfig, DirectDoc, Settled, PlanDirect, Switch, Planned;
    hide ConfigDoc, OthersSame, C.Providers;
    DirectPlanned(env, s, r, faults);
    var accepted := Accepted(Start(s), r.profile, r.valid, faults);
    SwitchWrites(env, s, PlanDirect(env, Start(s), r, faults), accepted, r.profile, r.now, faults);
    SwitchView(env, s, PlanDirect(env, Start(s), r, faults), accepted, r.profile, r.now, faults);
    var seen := Sees(env, s, ReadsStateAt(env, s, r.profile, r.valid, r.now, faults), faults);
    DirectWrites(env, seen, FileOf(s, r.profile, Config), r.profile);
  }

  // ----- the gateway switch -----

  /** The `cm` table of gateway mode: token, address and transport as given, nothing else that authenticates. */
  ghost predicate GatewayTable(before: Option<C.Item>, after: Option<C.Item>, baseUrl: string, websockets: bool,
                               secret: string) {
    && after.Some? && after.value.Table?
    && var table := after.value.entries;
       && C.StringOf(table, "experimental_bearer_token") == Some(Trim(secret))
       && C.StringOf(table, "base_url") == Some(baseUrl)
       && C.Get(table, "supports_websockets") == Some(C.Bool(websockets))
       && C.StringOf(table, "name") == Some("cm") && C.StringOf(table, "wire_api") == Some("responses")
       && C.Get(table, "requires_openai_auth") == Some(C.Bool(true))
       && C.Header(table, "x-openai-actor-authorization") == Some("local-image-extension")
       && C.NoOtherAuth(table) && C.SameExcept(C.TableOf(before), table, C.GATEWAY_KEYS)
  }

  /** The document of gateway mode, against the one before. */
  ghost predicate GatewayDoc(before: C.Doc, after: C.Doc, managed: string, baseUrl: string, websockets: bool,
                             secret: string) {
    && C.SameExcept(before, after, {"model_provider", "model_providers", C.CATALOG_KEY})
    && C.StringOf(after, "model_provider") == Some("cm") && C.StringOf(after, C.CATALOG_KEY) == Some(managed)
    && C.SameProviders(before, after, {C.PROVIDER})
    && GatewayTable(C.Get(C.Providers(before).value, C.PROVIDER), C.Get(C.Providers(after).value, C.PROVIDER), baseUrl,
                    websockets, secret)
  }

  /** The user's own entries for the gateway. */
  function OwnTable(doc: C.Doc): map<string, C.Item> {
    if "model_providers" in doc && doc["model_providers"].Table? && "cm" in doc["model_providers"].entries
       && doc["model_providers"].entries["cm"].Table?
    then doc["model_providers"].entries["cm"].entries else map[]
  }

  lemma OwnTableIs(doc: C.Doc)
    ensures C.Providers(doc).Ok? <==> C.ProvidersFit(doc)
    ensures C.Providers(doc).Ok? ==> C.TableOf(C.Get(C.Providers(doc).value, C.PROVIDER)) == OwnTable(doc)
  {
    C.ProvidersExactly(doc);
  }

  /** A gateway can be written into a document. */
  predicate TakesGateway(doc: Option<C.Doc>, secret: string) {
    && doc.Some? && C.ProvidersFit(doc.value) && Trim(secret) != []
    && C.TakesHeaders(OwnTable(doc.value))
  }

  lemma GatewayWrites(env: Env, config: Option<string>, p: Profile, baseUrl: string, websockets: bool, secret: string)
    requires Faithful(env)
    ensures var before := ConfigDoc(env, config);
            && (GatewayConfig(env, config, p, baseUrl, websockets, secret).Ok? <==> TakesGateway(before, secret))
            && (GatewayConfig(env, config, p, baseUrl, websockets, secret).Ok? ==>
                  before.Some? &&
                  var after := ConfigDoc(env, Some(GatewayConfig(env, config, p, baseUrl, websockets, secret).value));
                  && after.Some?
                  && GatewayDoc(before.value, after.value, env.managedPath(p), baseUrl, websockets, secret))
  {
    hide C.PatchForGateway, C.SameExcept, C.SameProviders, C.Providers, C.GatewayProvider, C.TakesHeaders, C.TableOf;
    hide Trim, C.NoOtherAuth, C.Header;
    var doc := ConfigDoc(env, config);
    if doc.Some? {
      OwnTableIs(doc.value);
      hide OwnTable, C.ProvidersFit;
      C.GatewayPatch(doc.value, baseUrl, env.managedPath(p), websockets, secret);
      if C.Providers(doc.value).Ok? {
        var existing := C.Get(C.Providers(doc.value).value, C.PROVIDER);
        C.GatewayProviderView(existing, baseUrl, websockets, secret);
        if C.GatewayProvider(existing, baseUrl, websockets, secret).Ok? {
          C.NamedAlready(existing, baseUrl, websockets, secret);
        }
      }
    }
  }

  /** The state of gateway mode, whatever pointer it remembers. */
  predicate GatewayRecord(st: State, r: GatewayRequest) {
    st == State(r.profile, Mode.Gateway, None, Some(r.keyId), None, Some(C.GatewayBaseUrl(r.baseUrl)), None,
                Some(r.websockets), "cm", st.previous, [], r.now)
  }

  /** A gateway switch that goes through: `auth.json` stays, and document, catalog and state are the request's. */
  lemma GatewaySwitch(env: Env, s: Store, r: GatewayRequest, faults: Faults)
    requires Faithful(env)
    ensures var x, p := ApplyGateway(env, Start(s), r, faults), r.profile;
            x.ok ==>
              && ConfigDoc(env, FileOf(s, p, Config)).Some? && ConfigDoc(env, FileOf(x.store, p, Config)).Some?
              && GatewayDoc(ConfigDoc(env, FileOf(s, p, Config)).value,
                            ConfigDoc(env, FileOf(x.store, p, Config)).value, env.managedPath(p),
                            C.GatewayBaseUrl(r.baseUrl), r.websockets, r.secret)
              && FileOf(x.store, p, Auth) == FileOf(s, p, Auth)
              && r.catalog.Some? && FileOf(x.store, p, Catalog) == r.catalog
              && LoadState(env, x.store).Some? && GatewayRecord(LoadState(env, x.store).value, r)
              && Settled(env, x.store, p, LoadState(env, x.store).value) && OthersSame(s, x.store, p)
    ensures Calm(faults) ==>
              (ApplyGateway(env, Start(s), r, faults).ok
               <==> r.valid && r.catalog.Some? && TakesGateway(ConfigDoc(env, FileOf(s, r.profile, Config)), r.secret))
  {
    hide Faithful, LoadState, LoadBackups, GatewayMigrated, GatewayConfig, GatewayDoc, PlanGateway, Switch, Planned;
    hide ConfigDoc, OthersSame, TakesGateway, C.GatewayBaseUrl, Settled, GatewayRecord, GatewayTodo, ApplyGateway;
    GatewayPlanned(env, s, r, faults);
    ApplyGatewayIs(env, s, r, faults);
    var migrated := GatewayMigrated(env, Start(s), r, faults);
    GatewayTodoView(env, Sees(env, s, 0, faults), FileOf(s, r.profile, Config), r);
    SwitchWrites(env, s, PlanGateway(env, Start(s), r, faults), migrated, r.profile, r.now, faults);
    SwitchView(env, s, PlanGateway(env, Start(s), r, faults), migrated, r.profile, r.now, faults);
    GatewayWrites(env, FileOf(s, r.profile, Config), r.profile, C.GatewayBaseUrl(r.baseUrl), r.websockets, r.secret);
    forall after, st | Settled(env, after, r.profile, st) ensures LoadState(env, after) == Some(st) {
      SettledState(env, after, r.profile, st);
    }
  }

  lemma ApplyGatewayIs(env: Env, s: Store, r: GatewayRequest, faults: Faults)
    ensures ApplyGateway(env, Start(s), r, faults)
            == Switch(env, PlanGateway(env, Start(s), r, faults), r.profile, faults)
  {
    hide PlanGateway, Switch;
  }

  lemma SettledState(env: Env, after: Store, p: Profile, st: State)
    requires Settled(env, after, p, st)
    ensures LoadState(env, after) == Some(st)
  {
  }

  lemma GatewayTodoView(env: Env, seen: Option<State>, config: Option<string>, r: GatewayRequest)
    ensures var todo := GatewayTodo(env, seen, config, r);
            var text := GatewayConfig(env, config, r.profile, C.GatewayBaseUrl(r.baseUrl), r.websockets, r.secret);
            && (todo.Ok? <==> text.Ok? && r.catalog.Some?)
            && (todo.Ok? ==>
                  todo.value.slot.Catalog? && todo.value.content == r.catalog && todo.value.config == text.value
                    && GatewayRecord(todo.value.st, r))
  {
    hide C.PatchForGateway, C.GatewayBaseUrl;
  }

  // ----- the aggregate switch -----

  /** The document of direct-aggregate mode, against the one before. */
  ghost predicate AggregateDoc(before: C.Doc, after: C.Doc, managed: string, r: AggregateRequest, model: string) {
    && C.SameExcept(before, after, {"model_provider", "model_providers", "model", C.CATALOG_KEY})
    && C.StringOf(after, "model_provider") == Some("cm_aggregate") && C.StringOf(after, C.CATALOG_KEY) == Some(managed)
    && C.StringOf(after, "model") == Some(model)
    && C.SameProviders(before, after, {C.AGGREGATE})
    && AggregateTable(C.Get(C.Providers(after).value, C.AGGREGATE), r.api, r.secret)
  }

  /** The table of the aggregate API: its address, token and headers, no websockets, nothing else that authenticates. */
  ghost predicate AggregateTable(item: Option<C.Item>, api: C.Aggregate, secret: string) {
    && item.Some? && item.value.Table?
    && var table := item.value.entries;
       && C.StringOf(table, "base_url") == Some(api.baseUrl) && C.StringOf(table, "name") == Some(api.providerName)
       && C.StringOf(table, "experimental_bearer_token") == Some(Trim(secret))
       && C.StringOf(table, "wire_api") == Some("responses")
       && C.Get(table, "supports_websockets") == Some(C.Bool(false))
       && C.Get(table, "requires_openai_auth") == (if api.auth.Bearer? then None else Some(C.Bool(false)))
       && C.NoOtherAuth(table) && C.AggregateHeaders(table, api, secret)
  }

  /** The model the document names: the first that is the overriding one, ignoring case, else the first of all. */
  ghost predicate Defaults(slugs: seq<string>, modelOverride: Option<string>, model: string) {
    exists i :: 0 <= i < |slugs| && slugs[i] == model
      && (if modelOverride.Some? && exists j :: 0 <= j < |slugs| && EqualFold(slugs[j], modelOverride.value)
          then EqualFold(model, modelOverride.value)
               && forall j :: 0 <= j < i ==> !EqualFold(slugs[j], modelOverride.value)
          else i == 0)
  }

  lemma {:induction false} FirstEqualView(slugs: seq<string>, name: string)
    ensures match FirstEqual(slugs, name)
            case None => forall j :: 0 <= j < |slugs| ==> !EqualFold(slugs[j], name)
            case Some(slug) => exists i :: 0 <= i < |slugs| && slugs[i] == slug && EqualFold(slug, name)
                                 && forall j :: 0 <= j < i ==> !EqualFold(slugs[j], name)
  {
    hide EqualFold;
    if slugs == [] {
    } else if EqualFold(slugs[0], name) {
      assert slugs[0] == slugs[0];
    } else {
      FirstEqualView(slugs[1..], name);
      if FirstEqual(slugs[1..], name).Some? {
        var i :| 0 <= i < |slugs| - 1 && slugs[1..][i] == FirstEqual(slugs, name).value
                 && forall j :: 0 <= j < i ==> !EqualFold(slugs[1..][j], name);
        assert slugs[i + 1] == FirstEqual(slugs, name).value;
        forall j | 0 <= j < i + 1 ensures !EqualFold(slugs[j], name) {
          assert j == 0 || slugs[j] == slugs[1..][j - 1];
        }
      } else {
        forall j | 0 <= j < |slugs| ensures !EqualFold(slugs[j], name) {
          assert j == 0 || slugs[j] == slugs[1..][j - 1];
        }
      }
    }
  }

  lemma DefaultModelView(slugs: seq<string>, modelOverride: Option<string>)
    ensures DefaultModel(slugs, modelOverride).Some? <==> slugs != []
    ensures slugs != [] ==> Defaults(slugs, modelOverride, DefaultModel(slugs, modelOverride).value)
  {
    hide EqualFold;
    if modelOverride.Some? {
      FirstEqualView(slugs, modelOverride.value);
    }
    if slugs != [] {
      assert slugs[0] == slugs[0];
    }
  }

  /** A nonblank slug is named, and each of them has its stored model. */
  ghost predicate Selectable(store: seq<M.Model>, selection: seq<string>) {
    && (exists slug :: slug in selection && Trim(slug) != [])
    && (forall slug :: slug in selection && Trim(slug) != [] ==>
          exists m :: m in store && EqualFold(Trim(slug), m.slug))
  }

  /** An aggregate API can be written into a document. */
  ghost predicate TakesAggregate(doc: Option<C.Doc>, r: AggregateRequest) {
    && doc.Some? && C.ProvidersFit(doc.value) && Trim(r.secret) != []
    && r.upstream.Some? && Selectable(r.upstream.value.models, r.upstream.value.names)
  }

  lemma AggregateWrites(env: Env, config: Option<string>, r: AggregateRequest, previous: Option<string>,
                        models: seq<M.Model>)
    requires Faithful(env) && models != []
    ensures var before, text := ConfigDoc(env, config), AggregateConfig(env, config, r, previous, models);
            && (text.Ok? <==> before.Some? && C.ProvidersFit(before.value) && Trim(r.secret) != [])
            && (text.Ok? ==>
                  && ConfigDoc(env, Some(text.value)).Some? && DefaultModel(M.Slugs(models), r.modelOverride).Some?
                  && AggregateDoc(before.value, ConfigDoc(env, Some(text.value)).value, env.managedPath(r.profile), r,
                                  DefaultModel(M.Slugs(models), r.modelOverride).value))
  {
    hide C.PatchForAggregate, C.SameExcept, C.SameProviders, C.Providers, C.AggregateProvider, C.AggregateHeaders;
    hide Trim, C.NoOtherAuth, DefaultModel, Defaults;
    var doc, model := ConfigDoc(env, config), DefaultModel(M.Slugs(models), r.modelOverride);
    DefaultModelView(M.Slugs(models), r.modelOverride);
    if doc.Some? {
      C.ProvidersExactly(doc.value);
      hide C.ProvidersFit;
      C.AggregatePatch(env.norm, doc.value, r.api, r.secret, env.managedPath(r.profile), previous, model.value);
      C.AggregateProviderView(r.api, r.secret);
    }
  }

  /** The state of direct-aggregate mode, whatever pointer it remembers. */
  predicate AggregateRecord(st: State, r: AggregateRequest, models: seq<M.Model>) {
    st == State(r.profile, DirectAggregate, None, None, Some(r.aggregateId), None, Some(r.api.baseUrl), Some(false),
                "cm_aggregate", st.previous, M.Slugs(models), r.now)
  }

  lemma AggregateModelsView(r: AggregateRequest)
    ensures AggregateModels(r).Ok?
            <==> r.upstream.Some? && Selectable(r.upstream.value.models, r.upstream.value.names)
    ensures AggregateModels(r).Ok? ==>
              AggregateModels(r).value != []
                && M.Picks(r.upstream.value.models, AggregateModels(r).value, r.upstream.value.names)
  {
    hide Trim, Lower, M.Selected, M.Picks, M.Named;
    if r.upstream.Some? {
      M.SelectedExactly(r.upstream.value.models, r.upstream.value.names);
      if AggregateModels(r).Ok? {
        M.SelectedIsComplete(r.upstream.value.models, r.upstream.value.names);
      }
    }
  }

  lemma AggregateTodoView(env: Env, seen: Option<State>, config: Option<string>, r: AggregateRequest)
    requires Faithful(env)
    ensures var todo, models := AggregateTodo(env, seen, config, r), AggregateModels(r);
            && (todo.Ok? <==> TakesAggregate(ConfigDoc(env, config), r))
            && (todo.Ok? ==>
                  && models.Ok? && ConfigDoc(env, config).Some? && ConfigDoc(env, Some(todo.value.config)).Some?
                  && todo.value.slot.Catalog? && todo.value.content == Some(env.renderCatalog(models.value))
                  && AggregateRecord(todo.value.st, r, models.value)
                  && DefaultModel(M.Slugs(models.value), r.modelOverride).Some?
                  && AggregateDoc(ConfigDoc(env, config).value, ConfigDoc(env, Some(todo.value.config)).value,
                                  env.managedPath(r.profile), r,
                                  DefaultModel(M.Slugs(models.value), r.modelOverride).value))
  {
    hide AggregateModels, AggregateConfig, ConfigDoc, AggregateDoc, Selectable, Faithful, DefaultModel, C.Providers;
    AggregateModelsView(r);
    PreviousPointerView(env, seen, config, r.profile);
    hide PreviousPointer;
    var previous := PreviousPointer(env, seen, config, r.profile);
    if previous.Ok? && AggregateModels(r).Ok? {
      AggregateWrites(env, config, r, previous.value, AggregateModels(r).value);
    }
  }

  lemma PreviousPointerView(env: Env, seen: Option<State>, config: Option<string>, p: Profile)
    ensures ConfigDoc(env, config).Some? ==> PreviousPointer(env, seen, config, p).Ok?
  {
  }

  /**
   An aggregate switch that goes through: `auth.json` stays; the catalog and the slugs list, in store
   order, exactly the stored models the upstream's names stand for; the document is the request's.
   */
  lemma AggregateSwitch(env: Env, s: Store, r: AggregateRequest, faults: Faults)
    returns (models: seq<M.Model>, model: string)
    requires Faithful(env)
    ensures var x, p := ApplyAggregate(env, Start(s), r, faults), r.profile;
            x.ok ==>
              && ConfigDoc(env, FileOf(s, p, Config)).Some? && ConfigDoc(env, FileOf(x.store, p, Config)).Some?
              && AggregateDoc(ConfigDoc(env, FileOf(s, p, Config)).value,
                              ConfigDoc(env, FileOf(x.store, p, Config)).value, env.managedPath(p), r, model)
              && Defaults(M.Slugs(models), r.modelOverride, model)
              && FileOf(x.store, p, Auth) == FileOf(s, p, Auth)
              && r.upstream.Some? && M.Picks(r.upstream.value.models, models, r.upstream.value.names)
              && FileOf(x.store, p, Catalog) == Some(env.renderCatalog(models))
              && LoadState(env, x.store).Some? && AggregateRecord(LoadState(env, x.store).value, r, models)
              && Settled(env, x.store, p, LoadState(env, x.store).value) && OthersSame(s, x.store, p)
    ensures Calm(faults) ==>
              (ApplyAggregate(env, Start(s), r, faults).ok
               <==> r.valid && TakesAggregate(ConfigDoc(env, FileOf(s, r.profile, Config)), r))
  {
    hide Faithful, LoadState, LoadBackups, Accepted, AggregateTodo, AggregateDoc, PlanAggregate, Switch, Planned;
    hide ConfigDoc, OthersSame, TakesAggregate, Settled, AggregateRecord, ApplyAggregate, AggregateModels, Defaults;
    hide DefaultModel, M.Picks, ReadsStateAt;
    AggregatePlanned(env, s, r, faults);
    ApplyAggregateIs(env, s, r, faults);
    var accepted := Accepted(Start(s), r.profile, r.valid, faults);
    var seen := AggregateSees(env, s, r, faults);
    AggregateTodoView(env, seen, FileOf(s, r.profile, Config), r);
    SwitchWrites(env, s, PlanAggregate(env, Start(s), r, faults), accepted, r.profile, r.now, faults);
    SwitchView(env, s, PlanAggregate(env, Start(s), r, faults), accepted, r.profile, r.now, faults);
    AggregateModelsView(r);
    models, model := if AggregateModels(r).Ok? then AggregateModels(r).value else [], "";
    if ApplyAggregate(env, Start(s), r, faults).ok {
      DefaultModelView(M.Slugs(models), r.modelOverride);
      model := DefaultModel(M.Slugs(models), r.modelOverride).value;
    }
    forall after, st | Settled(env, after, r.profile, st) ensures LoadState(env, after) == Some(st) {
      SettledState(env, after, r.profile, st);
    }
  }

  lemma ApplyAggregateIs(env: Env, s: Store, r: AggregateRequest, faults: Faults)
    ensures ApplyAggregate(env, Start(s), r, faults)
            == Switch(env, PlanAggregate(env, Start(s), r, faults), r.profile, faults)
  {
    hide PlanAggregate, Switch;
  }

  // ----- a selection of models -----

  /**
   A selection is ready to be committed exactly if the request is in order, the document parses and
   every slug is known.
   */
  lemma ReadyExactly(env: Env, s: Store, r: A.ModelsRequest)
    requires Faithful(env)
    ensures var before, ready := ConfigDoc(env, FileOf(s, r.profile, Config)), A.Ready(env, s, r);
            && (ready.Ok? <==> r.valid && before.Some? && Selectable(r.models, r.selection))
            && (ready.Ok? ==>
                  && M.Picks(r.models, ready.value.models, r.selection)
                  && ready.value.profile == r.profile && ready.value.now == r.now
                  && ready.value.current == FileOf(s, r.profile, Config)
                  && var after := ConfigDoc(env, Some(ready.value.config));
                     && after.Some? && C.SameExcept(before.value, after.value, {C.CATALOG_KEY})
                     && C.StringOf(after.value, C.CATALOG_KEY) == Some(env.managedPath(r.profile)))
  {
    hide Trim, Lower, M.Selected, M.Picks;
    M.SelectedExactly(r.models, r.selection);
  }

  /** What a selection keeps: the state of this profile, else what its marker says, else what its files look like. */
  ghost predicate KeepsState(env: Env, s: Store, p: Profile, st: State) {
    && (LoadState(env, s).Some? && LoadState(env, s).value.profile == p ==>
          st == LoadState(env, s).value.(slugs := st.slugs, updatedAt := st.updatedAt))
    && (!(LoadState(env, s).Some? && LoadState(env, s).value.profile == p) && MarkerToRead(env, s, p).Some? ==>
          && Repeats(MarkerToRead(env, s, p).value.(slugs := st.slugs, updatedAt := st.updatedAt), st)
          && st.previous.None?)
    && (!(LoadState(env, s).Some? && LoadState(env, s).value.profile == p) && MarkerToRead(env, s, p).None? ==>
          ConfigDoc(env, FileOf(s, p, Config)).Some?
            && Recognised(env, s, p, ConfigDoc(env, FileOf(s, p, Config)).value, st))
  }

  /**
   The state of a profile nobody has switched yet: what its files look like. A pointer of the user's own
   is remembered, the managed one is not.
   */
  ghost predicate Recognised(env: Env, s: Store, p: Profile, doc: C.Doc, st: State) {
    var gateway, auth := C.DetectGateway(env.isService, doc), FileOf(s, p, Auth);
    && st.accountId.None? && st.apiKeyId.None? && st.aggregateId.None? && st.aggregateBaseUrl.None?
    && (gateway.Some? ==>
          st.gatewayBaseUrl == Some(gateway.value.baseUrl) && st.websockets == Some(gateway.value.websockets)
          && st.providerId == gateway.value.providerId)
    && (gateway.None? ==>
          st.gatewayBaseUrl.None? && st.websockets.None?
          && st.providerId == (if Normalize(C.StringOf(doc, "model_provider")).Some?
                               then Trim(C.StringOf(doc, "model_provider").value) else "cm"))
    && st.previous == (match C.StringOf(doc, C.CATALOG_KEY)
                       case Some(text) => if env.norm(text) == env.norm(env.managedPath(p)) then None else Some(text)
                       case None => None)
    && (FileOf(s, p, Config).Some? && gateway.Some? ==> st.mode.Gateway?)
    && (FileOf(s, p, Config).Some? && gateway.None? && C.IsAggregate(doc) ==> st.mode.DirectAggregate?)
    && (FileOf(s, p, Config).None? || (gateway.None? && !C.IsAggregate(doc)) ==>
          && (auth.Some? && env.authIsGateway(auth.value) ==> st.mode.Gateway?)
          && (auth.Some? && !env.authIsGateway(auth.value) && env.authHasTokens(auth.value) ==> st.mode.DirectAccount?)
          && (auth.None? || (!env.authIsGateway(auth.value) && !env.authHasTokens(auth.value)) ==> st.mode.Unmanaged?))
  }

  /** The marker once a legacy one has been moved. */
  function MarkerToRead(env: Env, s: Store, p: Profile): Option<Marker> {
    var text := if FileOf(s, p, MarkerFile).Some? then FileOf(s, p, MarkerFile) else FileOf(s, p, LegacyMarker);
    if text.Some? then env.parseMarker(text.value) else None
  }

  /**
   A selection that goes through: catalog and slugs list, in store order, exactly the stored models it
   names; the document points at the catalog and is otherwise as it was, and so is `auth.json`. If
   nothing failed, the state is otherwise the one there was, or what the marker said.
   */
  lemma SelectionResult(env: Env, s: Store, r: A.ModelsRequest, faults: Faults) returns (models: seq<M.Model>)
    requires Faithful(env)
    ensures var x, p := A.ApplyModels(env, Start(s), r, faults).exec, r.profile;
            x.ok ==>
              && r.valid && Selectable(r.models, r.selection) && M.Picks(r.models, models, r.selection)
              && FileOf(x.store, p, Catalog) == Some(env.renderCatalog(models))
              && ConfigDoc(env, FileOf(s, p, Config)).Some? && ConfigDoc(env, FileOf(x.store, p, Config)).Some?
              && C.SameExcept(ConfigDoc(env, FileOf(s, p, Config)).value,
                              ConfigDoc(env, FileOf(x.store, p, Config)).value, {C.CATALOG_KEY})
              && C.StringOf(ConfigDoc(env, FileOf(x.store, p, Config)).value, C.CATALOG_KEY) == Some(env.managedPath(p))
              && FileOf(x.store, p, Auth) == FileOf(s, p, Auth)
              && LoadState(env, x.store).Some? && Settled(env, x.store, p, LoadState(env, x.store).value)
              && LoadState(env, x.store).value.slugs == M.Slugs(models)
              && LoadState(env, x.store).value.updatedAt == r.now && OthersSame(s, x.store, p)
              && (Calm(faults) ==> KeepsState(env, s, p, LoadState(env, x.store).value))
    ensures Calm(faults) ==>
              (A.ApplyModels(env, Start(s), r, faults).exec.ok
               <==> r.valid && ConfigDoc(env, FileOf(s, r.profile, Config)).Some? && Selectable(r.models, r.selection))
  {
    hide Faithful, LoadState, LoadBackups, ConfigDoc, OthersSame, Settled, Selectable, M.Picks, A.ApplyModels, A.Ready;
    hide C.SameExcept, SelectionBody, SelectionPlan, KeepsState;
    ReadyExactly(env, s, r);
    CommitsView(env, s, r, faults);
    models := if A.Ready(env, s, r).Ok? then A.Ready(env, s, r).value.models else [];
    if Calm(faults) {
      CalmSelection(env, s, r, faults);
    }
    if A.ApplyModels(env, Start(s), r, faults).exec.ok {
      SelectionWrites(env, s, A.Ready(env, s, r).value, faults);
    }
  }

  lemma SelectionWrites(env: Env, s: Store, r: A.Prepared, faults: Faults)
    requires Faithful(env) && r.current == FileOf(s, r.profile, Config) && SelectionBody(env, s, r, faults).ok
    ensures var after := SelectionBody(env, s, r, faults).store;
            && FileOf(after, r.profile, Catalog) == Some(env.renderCatalog(r.models))
            && FileOf(after, r.profile, Config) == Some(r.config)
            && FileOf(after, r.profile, Auth) == FileOf(s, r.profile, Auth) && OthersSame(s, after, r.profile)
            && LoadState(env, after).Some? && Settled(env, after, r.profile, LoadState(env, after).value)
            && LoadState(env, after).value.slugs == M.Slugs(r.models)
            && LoadState(env, after).value.updatedAt == r.now
            && (Calm(faults) ==> KeepsState(env, s, r.profile, LoadState(env, after).value))
  {
    hide Faithful, LoadState, LoadBackups, ConfigDoc, OthersSame, Settled, Switch, A.PlanModels, Planned, KeepsState;
    SelectionPlanned(env, s, r, faults);
    var plan := SelectionPlan(env, s, r, faults);
    PlanModelsView(env, s, r, faults);
    SwitchWrites(env, s, plan, MigrateMarker(CapturedAt(s), r.profile, faults), r.profile, r.now, faults);
    hide MigrateMarker;
    SettledState(env, SelectionBody(env, s, r, faults).store, r.profile, plan.todo.value.st);
  }

  /** What a selection plans to write, and the state it starts from. */
  lemma PlanModelsView(env: Env, s: Store, r: A.Prepared, faults: Faults)
    requires Faithful(env) && r.current == FileOf(s, r.profile, Config)
    ensures var plan := SelectionPlan(env, s, r, faults);
            plan.todo.Some? ==>
              && plan.todo.value.slot == Catalog && plan.todo.value.content == Some(env.renderCatalog(r.models))
              && plan.todo.value.config == r.config && plan.todo.value.st.slugs == M.Slugs(r.models)
              && plan.todo.value.st.updatedAt == r.now
              && (Calm(faults) ==> KeepsState(env, s, r.profile, plan.todo.value.st))
  {
    hide Faithful, LoadState, LoadBackups, ConfigDoc, EnsureBackup, MigrateMarker, A.LookAround, KeepsState;
    hide A.StateForModels;
    var plan := SelectionPlan(env, s, r, faults);
    if plan.todo.Some? && Calm(faults) {
      BasisView(env, s, r, faults);
    }
  }

  lemma BasisView(env: Env, s: Store, r: A.Prepared, faults: Faults)
    requires Faithful(env) && Calm(faults) && r.current == FileOf(s, r.profile, Config)
    ensures var seen := A.LookAround(env, A.Backed(env, CapturedAt(s), r, faults), r.profile, faults);
            A.NewState(env, seen, r).Ok? ==> KeepsState(env, s, r.profile, A.NewState(env, seen, r).value)
  {
    hide Faithful, LoadState, LoadBackups, ConfigDoc, EnsureBackup, MigrateMarker, A.DetectedState, Recognised;
    var migrated, p := MigrateMarker(CapturedAt(s), r.profile, faults), r.profile;
    MigrateView(CapturedAt(s), p, faults);
    BackedView(env, s, migrated, p, r.now, faults);
    EnsureBackupView(env, migrated, p, r.now, faults);
    var backed := A.Backed(env, CapturedAt(s), r, faults);
    assert FileOf(backed.store, p, MarkerFile) == FileOf(migrated.store, p, MarkerFile);
    var seen := A.LookAround(env, backed, p, faults);
    if A.NewState(env, seen, r).Ok? && ConfigDoc(env, r.current).Some? {
      RecognisedView(env, s, seen, p, ConfigDoc(env, r.current).value, r.now, M.Slugs(r.models));
    }
  }

  lemma RecognisedView(env: Env, s: Store, seen: A.Seen, p: Profile, doc: C.Doc, now: int, slugs: seq<string>)
    requires seen.auth == FileOf(s, p, Auth) && seen.config == FileOf(s, p, Config)
    requires ConfigDoc(env, FileOf(s, p, Config)) == Some(doc)
    ensures Recognised(env, s, p, doc, A.DetectedState(env, seen, p, doc, now).(slugs := slugs, updatedAt := now))
  {
    hide C.DetectGateway, C.IsAggregate, Trim;
  }
}
