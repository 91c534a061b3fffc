/**
 The user's own `model_catalog_json` across mode switches: gateway and aggregate mode point it at the
 managed catalog, and the switch back to an account returns it to what it was before. Under every
 fault plan it is said exactly which failures make the manager forget it.
 */
module CatalogPointer {
  import opened Wrappers
  import opened ProfileStore
  import opened ProfileRuns
  import C = CodexConfig
  import M = ModelSelection
  import A = ModelApply
  import S = ProfileSync

  predicate Remembered(st: Option<State>, p: Profile, previous: Option<string>) {
    st.Some? && Switched(st.value, p) && st.value.previous == previous
  }

  predicate Parses(env: Env, s: Store, p: Profile) {
    ConfigDoc(env, FileOf(s, p, Config)).Some?
  }

  function PointerIn(env: Env, s: Store, p: Profile): Option<C.Item>
    requires Parses(env, s, p)
  {
    C.Pointer(ConfigDoc(env, FileOf(s, p, Config)).value)
  }

  /** The document points at the managed catalog, or is back at the remembered value. */
  predicate Stands(env: Env, config: Option<string>, p: Profile, previous: Option<string>) {
    && ConfigDoc(env, config).Some?
    && var pointer := C.Pointer(ConfigDoc(env, config).value);
       pointer == Some(C.Str(env.managedPath(p))) || pointer == C.ItemOf(previous)
  }

  predicate Remembers(env: Env, s: Store, p: Profile, previous: Option<string>) {
    Remembered(LoadState(env, s), p, previous) && Stands(env, FileOf(s, p, Config), p, previous)
  }

  /** What the next switch of the profile would remember. */
  function NextPrevious(env: Env, s: Store, p: Profile): Result<Option<string>> {
    PreviousPointer(env, LoadState(env, s), FileOf(s, p, Config), p)
  }

  /** What may happen on the profile while it is in one of the two modes. */
  predicate WhileSwitched(op: Op, p: Profile) {
    match op
    case Gateway(r) => r.profile == p
    case Aggregate(r) => r.profile == p
    case Models(r) => r.profile == p
    case Sync(_) => true
    case Edit(q, auth, _) => q == p && auth
    case _ => false
  }

  predicate Repoints(op: Op, p: Profile) {
    WhileSwitched(op, p) && (op.Gateway? || op.Aggregate?)
  }

  /** The step at which a switch reads the state. */
  function StateReadAt(env: Env, s: Store, op: Op, faults: Faults): nat {
    match op
    case Direct(r) => ReadsStateAt(env, s, r.profile, r.valid, r.now, faults)
    case Aggregate(r) => ReadsStateAt(env, s, r.profile, r.valid, r.now, faults)
    case Gateway(_) => 0
    case Models(r) =>
      if Commits(env, s, r, faults) then A.Backed(env, CapturedAt(s), Committing(env, s, r, faults).value, faults).io
        else 0
    case _ => 0
  }

  // ----- what a switch is about to write -----

  lemma GatewayTodoPoints(env: Env, seen: Option<State>, config: Option<string>, r: GatewayRequest)
    requires Faithful(env) && GatewayTodo(env, seen, config, r).Ok?
    ensures var t := GatewayTodo(env, seen, config, r).value;
            && PreviousPointer(env, seen, config, r.profile) == Ok(t.st.previous) && Switched(t.st, r.profile)
            && ConfigDoc(env, Some(t.config)).Some?
            && C.Pointer(ConfigDoc(env, Some(t.config)).value) == Some(C.Str(env.managedPath(r.profile)))
  {
    hide C.PatchForGateway, C.GatewayProvider, C.GatewayBaseUrl, PreviousPointer;
    C.GatewayPatch(ConfigDoc(env, config).value, C.GatewayBaseUrl(r.baseUrl), env.managedPath(r.profile), r.websockets,
                   r.secret);
  }

  lemma AggregateTodoPoints(env: Env, seen: Option<State>, config: Option<string>, r: AggregateRequest)
    requires Faithful(env) && AggregateTodo(env, seen, config, r).Ok?
    ensures var t := AggregateTodo(env, seen, config, r).value;
            && PreviousPointer(env, seen, config, r.profile) == Ok(t.st.previous) && Switched(t.st, r.profile)
            && ConfigDoc(env, Some(t.config)).Some?
            && C.Pointer(ConfigDoc(env, Some(t.config)).value) == Some(C.Str(env.managedPath(r.profile)))
  {
    hide C.PatchForAggregate, C.AggregateProvider, PreviousPointer, M.Selected, DefaultModel;
    var models := AggregateModels(r).value;
    var previous := PreviousPointer(env, seen, config, r.profile).value;
    var model := DefaultModel(M.Slugs(models), r.modelOverride);
    C.AggregatePatch(env.norm, ConfigDoc(env, config).value, r.api, r.secret, env.managedPath(r.profile), previous,
                     model.value);
  }

  /** The pointer to be written and the value to be remembered, from the state as it could be read. */
  lemma RepointView(env: Env, s: Store, op: Op, faults: Faults, p: Profile)
    requires Faithful(env) && Repoints(op, p)
    ensures var plan, seen := PlanOf(env, s, op, faults), Sees(env, s, StateReadAt(env, s, op, faults), faults);
            plan.todo.Some? ==>
              var t := plan.todo.value;
              && PreviousPointer(env, seen, FileOf(s, p, Config), p) == Ok(t.st.previous) && Switched(t.st, p)
              && ConfigDoc(env, Some(t.config)).Some?
              && C.Pointer(ConfigDoc(env, Some(t.config)).value) == Some(C.Str(env.managedPath(p)))
  {
    hide Faithful, LoadState, PlanGateway, PlanAggregate, GatewayTodo, AggregateTodo, PreviousPointer, ConfigDoc;
    hide C.Pointer, Planned;
    hide ReadsStateAt, Accepted, GatewayMigrated;
    match op
    case Gateway(r) =>
      GatewayPlanned(env, s, r, faults);
      if PlanOf(env, s, op, faults).todo.Some? {
        GatewayTodoPoints(env, Sees(env, s, 0, faults), FileOf(s, p, Config), r);
      }
    case Aggregate(r) =>
      AggregatePlanned(env, s, r, faults);
      if PlanOf(env, s, op, faults).todo.Some? {
        AggregateTodoPoints(env, AggregateSees(env, s, r, faults), FileOf(s, p, Config), r);
      }
  }

  // ----- the first switch -----

  predicate WroteConfig(env: Env, s: Store, op: Op, faults: Faults)
    requires IsSwitch(op)
  {
    ConfigWritten(PlanOf(env, s, op, faults), ProfileOf(env, s, op), faults)
  }

  predicate SavedState(env: Env, s: Store, op: Op, faults: Faults)
    requires IsSwitch(op)
  {
    StateWritten(env, PlanOf(env, s, op, faults), ProfileOf(env, s, op), faults)
  }

  predicate InMode(env: Env, s: Store, p: Profile) {
    LoadState(env, s).Some? && Switched(LoadState(env, s).value, p)
  }

  predicate Managed(env: Env, config: Option<string>, p: Profile) {
    ConfigDoc(env, config).Some? && C.Pointer(ConfigDoc(env, config).value) == Some(C.Str(env.managedPath(p)))
  }

  /** What such a switch leaves of document and state, wherever it stops. */
  lemma RepointedView(env: Env, s: Store, op: Op, faults: Faults, p: Profile)
    requires Faithful(env) && Repoints(op, p)
    ensures var after, config := Perform(env, s, op, faults).store, FileOf(s, p, Config);
            var previous := PreviousPointer(env, Sees(env, s, StateReadAt(env, s, op, faults), faults), config, p);
            && (if WroteConfig(env, s, op, faults) then Managed(env, FileOf(after, p, Config), p)
                else FileOf(after, p, Config) == config)
            && (if SavedState(env, s, op, faults)
                then WroteConfig(env, s, op, faults) && previous.Ok?
                  && Remembered(LoadState(env, after), p, previous.value)
                else LoadState(env, after) == LoadState(env, s))
  {
    hide Faithful, LoadState, Perform, PlanOf, Configured, Recorded, Guarded, ConfigDoc, C.Pointer, PreviousPointer;
    hide Sees, StateReadAt;
    SwitchedView(env, s, op, faults);
    RepointView(env, s, op, faults, p);
  }

  lemma NextInMode(env: Env, s: Store, p: Profile, previous: Option<string>)
    requires Remembered(LoadState(env, s), p, previous)
    ensures InMode(env, s, p) && NextPrevious(env, s, p) == Ok(previous)
  {
    hide LoadState;
  }

  lemma NextOutside(env: Env, s: Store, p: Profile)
    requires !InMode(env, s, p) && Managed(env, FileOf(s, p, Config), p)
    ensures NextPrevious(env, s, p) == Ok(Some(env.managedPath(p)))
  {
    hide LoadState, ConfigDoc;
  }

  /** What is remembered depends on nothing but the state and the document. */
  lemma NextSame(env: Env, a: Store, b: Store, p: Profile)
    requires LoadState(env, a) == LoadState(env, b) && FileOf(a, p, Config) == FileOf(b, p, Config)
    ensures NextPrevious(env, a, p) == NextPrevious(env, b, p) && (InMode(env, a, p) <==> InMode(env, b, p))
  {
    hide LoadState;
  }

  /** A state of another mode, and one that cannot be read, make no difference to what is remembered. */
  lemma OnlySwitchedMatters(env: Env, s: Store, at: nat, faults: Faults, p: Profile)
    requires !InMode(env, s, p) || !faults(at)
    ensures PreviousPointer(env, Sees(env, s, at, faults), FileOf(s, p, Config), p) == NextPrevious(env, s, p)
  {
    hide LoadState, ConfigDoc;
  }

  /**
   A switch to gateway or aggregate mode of a profile in neither mode, under every plan: the user's
   pointer is still what the next switch would remember, exactly unless the document was written
   and the state was not.
   */
  lemma FirstSwitchKeepsPointer(env: Env, s: Store, op: Op, faults: Faults, p: Profile)
    requires Faithful(env) && Repoints(op, p) && !InMode(env, s, p) && NextPrevious(env, s, p).Ok?
    ensures NextPrevious(env, Perform(env, s, op, faults).store, p) == NextPrevious(env, s, p)
            <==> !(WroteConfig(env, s, op, faults) && !SavedState(env, s, op, faults))
                 || NextPrevious(env, s, p).value == Some(env.managedPath(p))
  {
    hide Faithful, LoadState, Perform, WroteConfig, SavedState, PreviousPointer, NextPrevious, Managed, Remembered;
    hide StateReadAt, InMode, Sees;
    var after := Perform(env, s, op, faults).store;
    RepointedView(env, s, op, faults, p);
    OnlySwitchedMatters(env, s, StateReadAt(env, s, op, faults), faults, p);
    if SavedState(env, s, op, faults) {
      NextInMode(env, after, p, NextPrevious(env, s, p).value);
    } else if WroteConfig(env, s, op, faults) {
      SameMode(env, s, after, p);
      NextOutside(env, after, p);
    } else {
      NextSame(env, s, after, p);
    }
  }

  lemma SameMode(env: Env, a: Store, b: Store, p: Profile)
    requires LoadState(env, a) == LoadState(env, b)
    ensures InMode(env, a, p) <==> InMode(env, b, p)
  {
    hide LoadState;
  }

  /** A document at the managed catalog stands, whatever is remembered. */
  lemma ManagedStands(env: Env, config: Option<string>, p: Profile, previous: Option<string>)
    requires Managed(env, config, p)
    ensures Stands(env, config, p, previous)
  {
    hide ConfigDoc;
  }

  /** Once the state is saved, the pointer is remembered. */
  lemma FirstSwitchRemembers(env: Env, s: Store, op: Op, faults: Faults, p: Profile)
    requires Faithful(env) && Repoints(op, p) && (!InMode(env, s, p) || !faults(StateReadAt(env, s, op, faults)))
    ensures SavedState(env, s, op, faults) ==>
              NextPrevious(env, s, p).Ok?
                && Remembers(env, Perform(env, s, op, faults).store, p, NextPrevious(env, s, p).value)
  {
    hide Faithful, LoadState, Perform, WroteConfig, SavedState, PreviousPointer, NextPrevious, Stands, Managed;
    hide Remembered, StateReadAt, InMode;
    RepointedView(env, s, op, faults, p);
    OnlySwitchedMatters(env, s, StateReadAt(env, s, op, faults), faults, p);
    if SavedState(env, s, op, faults) {
      ManagedStands(env, FileOf(Perform(env, s, op, faults).store, p, Config), p, NextPrevious(env, s, p).value);
    }
  }

  // ----- later operations -----

  /** The failures that make an operation forget the pointer while the profile is in one of the modes. */
  ghost predicate Forgetful(env: Env, s: Store, op: Op, faults: Faults, p: Profile, previous: Option<string>) {
    match op
    case Models(r) =>
      Commits(env, s, r, faults) && SelectionForgets(env, s, Committing(env, s, r, faults).value, faults, previous)
    case Sync(_) => false
    case Edit(_, _, _) => false
    case _ => IsSwitch(op) && SwitchForgets(env, s, op, faults, p, previous)
  }

  /** The state could not be read, a new one was saved, and the pointer did not stand at the remembered value. */
  predicate SwitchForgets(env: Env, s: Store, op: Op, faults: Faults, p: Profile, previous: Option<string>)
    requires IsSwitch(op)
  {
    && faults(StateReadAt(env, s, op, faults)) && SavedState(env, s, op, faults)
    && Parses(env, s, p) && PointerIn(env, s, p) != C.ItemOf(previous)
  }

  /** Without the state, the marker or the detected mode may still lead to the same value. */
  predicate FoundAnyway(env: Env, seen: A.Seen, p: Profile, config: Option<string>, previous: Option<string>) {
    if seen.marker.Some? then (seen.marker.value.mode.Gateway? || seen.marker.value.mode.DirectAggregate?)
      && previous.None?
    else
      var mode, doc := A.DetectMode(env, seen.auth, seen.config), ConfigDoc(env, config);
      && (mode.Gateway? || mode.DirectAggregate?) && doc.Some?
      && previous == if C.PointsTo(env.norm, doc.value, env.managedPath(p)) then None
         else C.StringOf(doc.value, C.CATALOG_KEY)
  }

  /**
   A selection that leaves its new state behind forgets unless it could read the old one or found
   the value anyway; one that writes the old state back forgets if it was captured blind.
   */
  ghost predicate SelectionForgets(env: Env, s: Store, r: A.Prepared, faults: Faults, previous: Option<string>) {
    var body, backed := SelectionBody(env, s, r, faults), A.Backed(env, CapturedAt(s), r, faults);
    if body.ok || (faults(body.io + 1) && StateWritten(env, SelectionPlan(env, s, r, faults), r.profile, faults))
    then faults(backed.io) && !FoundAnyway(env, A.LookAround(env, backed, r.profile, faults), r.profile, r.current,
                                           previous)
    else !faults(body.io + 1) && faults(1)
  }

  lemma RepointRemembers(env: Env, s: Store, op: Op, faults: Faults, p: Profile, previous: Option<string>)
    requires Faithful(env) && Repoints(op, p) && Remembers(env, s, p, previous)
    ensures Remembers(env, Perform(env, s, op, faults).store, p, previous)
            <==> !SwitchForgets(env, s, op, faults, p, previous)
  {
    RepointedView(env, s, op, faults, p);
    UnreadPointer(env, s, StateReadAt(env, s, op, faults), faults, p, previous);
    var config := FileOf(Perform(env, s, op, faults).store, p, Config);
    if WroteConfig(env, s, op, faults) {
      ManagedStands(env, config, p, previous);
    }
    hide Faithful, LoadState, Perform, WroteConfig, SavedState, PreviousPointer, Stands, Managed, StateReadAt, Sees;
    hide PointerIn, Parses;
  }

  /** What is remembered without the state is the pointer as it stands. */
  lemma UnreadPointer(env: Env, s: Store, at: nat, faults: Faults, p: Profile, previous: Option<string>)
    requires Remembers(env, s, p, previous)
    ensures var found := PreviousPointer(env, Sees(env, s, at, faults), FileOf(s, p, Config), p);
            Parses(env, s, p) && found.Ok?
              && (found.value == previous <==> !faults(at) || PointerIn(env, s, p) == C.ItemOf(previous))
  {
    hide LoadState, ConfigDoc;
  }

  /** The state a selection is about to save. */
  lemma SelectedState(env: Env, s: Store, r: A.Prepared, faults: Faults, previous: Option<string>)
    requires Faithful(env) && Remembered(LoadState(env, s), r.profile, previous)
    ensures var plan, backed := SelectionPlan(env, s, r, faults), A.Backed(env, CapturedAt(s), r, faults);
            plan.todo.Some? ==>
              && plan.todo.value.config == r.config
              && (Remembered(Some(plan.todo.value.st), r.profile, previous)
                  <==> !faults(backed.io)
                       || FoundAnyway(env, A.LookAround(env, backed, r.profile, faults), r.profile, r.current,
                                      previous))
  {
    hide Faithful, LoadState, LoadBackups, MigrateMarker, EnsureBackup, Guarded, C.PointsTo, A.DetectMode, ConfigDoc;
    MigrateView(CapturedAt(s), r.profile, faults);
    BackedView(env, s, MigrateMarker(CapturedAt(s), r.profile, faults), r.profile, r.now, faults);
  }

  lemma PatchedIsManaged(env: Env, doc: C.Doc, p: Profile)
    requires Faithful(env)
    ensures Managed(env, Some(env.renderToml(C.PatchForManagedCatalog(doc, env.managedPath(p)))), p)
  {
  }

  lemma SelectionRemembers(env: Env, s: Store, r: A.ModelsRequest, faults: Faults, previous: Option<string>)
    requires Faithful(env) && Remembers(env, s, r.profile, previous)
    ensures Remembers(env, A.ApplyModels(env, Start(s), r, faults).exec.store, r.profile, previous)
            <==> !Forgetful(env, s, Models(r), faults, r.profile, previous)
  {
    CommitsView(env, s, r, faults);
    ReadyIsOurs(env, s, r);
    hide Faithful, LoadState, LoadBackups, SelectionBody, SelectionPlan, A.ApplyModels, A.WayBack, A.Captured, A.Ready;
    hide FoundAnyway;
    hide Guarded, Configured, Recorded, Stands, Remembered, A.Backed, ConfigDoc, A.LookAround, Managed;
    if Commits(env, s, r, faults) {
      var prepared := Committing(env, s, r, faults).value;
      var body := SelectionBody(env, s, prepared, faults);
      SelectionView(env, s, prepared, faults);
      SelectedState(env, s, prepared, faults, previous);
      PatchedIsManaged(env, ConfigDoc(env, prepared.current).value, r.profile);
      ManagedStands(env, Some(prepared.config), r.profile, previous);
      if !body.ok {
        StateAfterUndo(env, s, body, prepared.profile, prepared.rootExisted, faults);
        FilesAfterUndo(env, s, body, prepared.profile, prepared.rootExisted, faults);
      }
      NothingRemembersNothing(r.profile, previous);
    }
  }

  lemma NothingRemembersNothing(p: Profile, previous: Option<string>)
    ensures !Remembered(None, p, previous)
  {
  }

  /** A sync leaves the remembered value, and the pointer at the managed catalog or back at that value. */
  lemma SyncRemembers(env: Env, s: Store, r: S.SyncRequest, faults: Faults, p: Profile, previous: Option<string>)
    requires Faithful(env) && Remembers(env, s, p, previous)
    ensures Remembers(env, S.SyncProfile(env, Start(s), r, faults).exec.store, p, previous)
  {
    hide Faithful, LoadState, S.Decide, S.Contents, S.SyncedConfig, S.WriteSynced, S.PointsToManaged, S.Followed;
    hide Stands, ConfigDoc;
    var x, decision := S.SyncProfile(env, Start(s), r, faults).exec,
        S.Decide(env, SeenState(env, Start(s), faults), s, r);
    S.IdleWithoutState(env, s, r);
    if SeenState(env, Start(s), faults).Some? && decision.Proceed? && S.Contents(env, r, decision.plan).Ok? {
      var st, plan, content := LoadState(env, s).value, decision.plan, S.Contents(env, r, decision.plan).value;
      S.PlanView(env, st, s, r);
      var config := S.SyncedConfig(env, s, r, plan, content);
      var patched := Check(Check(Check(Read(Start(s)), true, faults), true, faults), config.Ok?, faults);
      if patched.ok {
        S.WriteSyncedView(env, patched, plan, content, config.value, faults);
        SyncedStands(env, s, r, plan, content, previous);
        if !x.ok {
          SameState(env, s, x.store);
        }
      }
    }
  }

  /** What a sync writes into the document stands, whatever was there. */
  lemma SyncedStands(env: Env, s: Store, r: S.SyncRequest, plan: S.Prepared, content: S.Content,
                     previous: Option<string>)
    requires Faithful(env) && S.SyncedConfig(env, s, r, plan, content).Ok? && plan.state.previous == previous
    requires Stands(env, FileOf(s, plan.state.profile, Config), plan.state.profile, previous)
    ensures var config := S.SyncedConfig(env, s, r, plan, content).value;
            config.Some? ==> Stands(env, config, plan.state.profile, previous)
  {
    hide Faithful, S.SyncedConfig;
    S.SyncedPointer(env, s, r, plan, content);
    if content.detach {
      DetachedStands(env, s, r, plan, content);
    }
  }

  lemma DetachedStands(env: Env, s: Store, r: S.SyncRequest, plan: S.Prepared, content: S.Content)
    requires Faithful(env) && S.SyncedConfig(env, s, r, plan, content).Ok? && content.detach
    requires Stands(env, FileOf(s, plan.state.profile, Config), plan.state.profile, plan.state.previous)
    ensures var config := S.SyncedConfig(env, s, r, plan, content).value;
            config.Some? && Stands(env, config, plan.state.profile, plan.state.previous)
  {
    hide C.PatchForGateway, C.PointsTo;
  }

  /** Under every plan, an operation in those modes forgets the pointer exactly by one of those failures. */
  lemma StepRemembers(env: Env, s: Store, op: Op, faults: Faults, p: Profile, previous: Option<string>)
    requires Faithful(env) && WhileSwitched(op, p) && Remembers(env, s, p, previous)
    ensures Remembers(env, Perform(env, s, op, faults).store, p, previous)
            <==> !Forgetful(env, s, op, faults, p, previous)
  {
    hide Faithful, Remembers, SelectionForgets, SwitchForgets, A.ApplyModels, S.SyncProfile, ApplyGateway;
    hide ApplyAggregate, Commits;
    match op
    case Gateway(_) => RepointRemembers(env, s, op, faults, p, previous);
    case Aggregate(_) => RepointRemembers(env, s, op, faults, p, previous);
    case Models(r) => SelectionRemembers(env, s, r, faults, previous);
    case Sync(r) => SyncRemembers(env, s, r, faults, p, previous);
    case Edit(_, _, content) => EditRemembers(env, s, p, content, faults, previous);
  }

  lemma EditRemembers(env: Env, s: Store, p: Profile, content: Option<string>, faults: Faults, previous: Option<string>)
    requires Remembers(env, s, p, previous)
    ensures Remembers(env, Perform(env, s, Edit(p, true, content), faults).store, p, previous)
  {
    hide Perform, LoadState, ConfigDoc, Guarded;
    EditView(env, s, p, true, content, faults);
  }

  /** Whatever else fails, an operation that can read what it looks for forgets nothing. */
  lemma SeeingForgetsNothing(env: Env, s: Store, op: Op, faults: Faults, p: Profile, previous: Option<string>)
    requires !faults(StateReadAt(env, s, op, faults)) && (op.Models? ==> !faults(1))
    ensures !Forgetful(env, s, op, faults, p, previous)
  {
    hide SavedState, SelectionBody, A.Backed, StateWritten, FoundAnyway, ReadsStateAt, Committing, PointerIn, Parses;
  }

  /** No operation of the run forgets the pointer. */
  ghost predicate NothingForgets(env: Env, s: Store, actions: seq<Action>, p: Profile, previous: Option<string>) {
    forall i :: 0 <= i < |actions| ==>
      WhileSwitched(actions[i].op, p)
        && !Forgetful(env, Run(env, s, actions[..i]), actions[i].op, actions[i].faults, p, previous)
  }

  lemma {:induction false} RunRemembers(env: Env, s: Store, actions: seq<Action>, p: Profile, previous: Option<string>)
    requires Faithful(env) && Remembers(env, s, p, previous) && NothingForgets(env, s, actions, p, previous)
    ensures Remembers(env, Run(env, s, actions), p, previous)
  {
    hide Faithful, Remembers, Perform, WhileSwitched, Forgetful;
    if actions != [] {
      var before, last := actions[..|actions| - 1], actions[|actions| - 1];
      forall i | 0 <= i < |before|
        ensures WhileSwitched(before[i].op, p)
                && !Forgetful(env, Run(env, s, before[..i]), before[i].op, before[i].faults, p, previous)
      {
        assert before[..i] == actions[..i];
      }
      RunRemembers(env, s, before, p, previous);
      StepRemembers(env, Run(env, s, before), last.op, last.faults, p, previous);
    }
  }

  // ----- and back -----

  predicate PointsAt(env: Env, s: Store, p: Profile, item: Option<C.Item>) {
    Parses(env, s, p) && PointerIn(env, s, p) == item
  }

  /**
   A switch to an account gives the remembered value back exactly if it could read the state, or the
   pointer stood there already.
   */
  lemma DirectReturns(env: Env, s: Store, r: DirectRequest, faults: Faults, previous: Option<string>)
    requires Faithful(env) && Remembers(env, s, r.profile, previous)
    ensures ApplyDirect(env, Start(s), r, faults).ok ==>
              (PointsAt(env, ApplyDirect(env, Start(s), r, faults).store, r.profile, C.ItemOf(previous))
               <==> !faults(StateReadAt(env, s, Direct(r), faults)) || PointsAt(env, s, r.profile, C.ItemOf(previous)))
  {
    var p, plan, at := r.profile, PlanDirect(env, Start(s), r, faults), StateReadAt(env, s, Direct(r), faults);
    DirectPlanned(env, s, r, faults);
    SwitchedView(env, s, Direct(r), faults);
    UnreadPointer(env, s, at, faults, p, previous);
    var found := PreviousPointer(env, Sees(env, s, at, faults), FileOf(s, p, Config), p).value;
    DirectConfigPointer(env, Sees(env, s, at, faults), FileOf(s, p, Config), p, found);
    UnreadStaysManaged(env, s, at, faults, p, previous);
    hide Faithful, LoadState, LoadBackups, PreviousPointer, DirectConfig, ConfigDoc, Planned, PlanDirect, EnsureBackup;
    hide Accepted;
    hide Guarded, Configured, Recorded, ApplyDirect, C.Pointer, Sees, OthersSame;
  }

  /** Where the pointer stands in the document an account switch writes. */
  lemma DirectConfigPointer(env: Env, seen: Option<State>, config: Option<string>, p: Profile, found: Option<string>)
    requires Faithful(env) && PreviousPointer(env, seen, config, p) == Ok(found)
    ensures DirectConfig(env, seen, config, p).Ok? ==>
              var written := Some(DirectConfig(env, seen, config, p).value);
              && ConfigDoc(env, config).Some? && ConfigDoc(env, written).Some?
              && C.Pointer(ConfigDoc(env, written).value)
                 == (if C.Pointer(ConfigDoc(env, config).value) == Some(C.Str(env.managedPath(p))) then C.ItemOf(found)
                     else C.Pointer(ConfigDoc(env, config).value))
  {
    hide C.PatchForDirect, PreviousPointer;
    if ConfigDoc(env, config).Some? {
      C.DirectPatch(ConfigDoc(env, config).value, env.managedPath(p), found);
    }
  }

  /** Without the state, the managed path is taken for the user's own. */
  lemma UnreadStaysManaged(env: Env, s: Store, at: nat, faults: Faults, p: Profile, previous: Option<string>)
    requires Remembers(env, s, p, previous)
    ensures faults(at) && PointerIn(env, s, p) == Some(C.Str(env.managedPath(p))) ==>
              PreviousPointer(env, Sees(env, s, at, faults), FileOf(s, p, Config), p) == Ok(Some(env.managedPath(p)))
  {
    hide LoadState, ConfigDoc;
  }

  /** Whether the value to be remembered is the pointer as it stands. */
  predicate RemembersExactly(env: Env, s: Store, p: Profile)
    requires Parses(env, s, p)
  {
    if InMode(env, s, p) then C.ItemOf(LoadState(env, s).value.previous) == PointerIn(env, s, p)
    else PointerIn(env, s, p).None? || PointerIn(env, s, p).value.Str?
  }

  lemma ExactlyRemembered(env: Env, s: Store, p: Profile)
    requires Parses(env, s, p) && NextPrevious(env, s, p).Ok?
    ensures C.ItemOf(NextPrevious(env, s, p).value) == PointerIn(env, s, p) <==> RemembersExactly(env, s, p)
  {
    hide LoadState;
  }

  /**
   A switch to gateway or aggregate mode that saved its state, then any number of switches between
   the two, selections, syncs and edits of `auth.json`, none of which forgets, then a switch to an
   account that reads the state: whatever else failed on the way, the pointer is what was remembered
   at the start. That is what it was exactly when it was absent or a string, or, if the profile was
   already in one of the modes, when the state remembered it so.
   */
  lemma PointerComesBack(env: Env, init: Store, first: Action, actions: seq<Action>, last: DirectRequest,
                         faults: Faults)
    requires Faithful(env) && Repoints(first.op, last.profile) && SavedState(env, init, first.op, first.faults)
    requires !InMode(env, init, last.profile) || !first.faults(StateReadAt(env, init, first.op, first.faults))
    ensures NextPrevious(env, init, last.profile).Ok?
    ensures var p, switched := last.profile, Perform(env, init, first.op, first.faults).store;
            var previous, before := NextPrevious(env, init, p).value, Run(env, switched, actions);
            var back := ApplyDirect(env, Start(before), last, faults);
            NothingForgets(env, switched, actions, p, previous) && back.ok
              && !faults(StateReadAt(env, before, Direct(last), faults)) ==>
              && PointsAt(env, back.store, p, C.ItemOf(previous))
              && (Parses(env, init, p) ==> (PointsAt(env, back.store, p, PointerIn(env, init, p))
                                            <==> RemembersExactly(env, init, p)))
  {
    hide Faithful, Perform, SavedState, StateReadAt, InMode, NothingForgets, NextPrevious, RemembersExactly;
    hide ApplyDirect, Run, Remembers;
    hide Parses, PointerIn;
    var p, switched := last.profile, Perform(env, init, first.op, first.faults).store;
    FirstSwitchRemembers(env, init, first.op, first.faults, p);
    var previous := NextPrevious(env, init, p).value;
    if NothingForgets(env, switched, actions, p, previous) {
      RunRemembers(env, switched, actions, p, previous);
      DirectReturns(env, Run(env, switched, actions), last, faults, previous);
      if Parses(env, init, p) {
        ExactlyRemembered(env, init, p);
      }
    }
  }

  // ----- inputs on which the pointer is lost -----

  /** A pointer that is not a string is not remembered, so it does not come back. */
  lemma NonStringPointerIsLost(env: Env, s: Store, p: Profile, number: string)
    requires Faithful(env) && !InMode(env, s, p)
    requires FileOf(s, p, Config) == Some(env.renderToml(map[C.CATALOG_KEY := C.Other(number)]))
    ensures Parses(env, s, p) && NextPrevious(env, s, p) == Ok(None) && !RemembersExactly(env, s, p)
  {
    hide LoadState;
  }

  /**
   A gateway switch in gateway mode that cannot read the state, and fails at nothing else, remembers
   the managed catalog.
   */
  lemma BlindSwitchForgets(env: Env, s: Store, r: GatewayRequest, faults: Faults, previous: Option<string>)
    requires Faithful(env) && r.valid && FileOf(s, r.profile, LegacyMarker).None?
    requires Remembers(env, s, r.profile, previous)
    requires Managed(env, FileOf(s, r.profile, Config), r.profile) && previous != Some(env.managedPath(r.profile))
    requires GatewayTodo(env, None, FileOf(s, r.profile, Config), r).Ok? && forall k :: faults(k) <==> k == 0
    ensures !Remembers(env, Perform(env, s, Op.Gateway(r), faults).store, r.profile, previous)
  {
    assert SavedState(env, s, Op.Gateway(r), faults) by {
      hide Faithful, LoadState, LoadBackups, GatewayTodo, Written, Remembers, Managed;
    }
    hide Faithful, LoadState, Perform, SavedState, GatewayTodo, ConfigDoc;
    RepointRemembers(env, s, Op.Gateway(r), faults, r.profile, previous);
  }

  /** The one step of a gateway switch, without a marker to move, that saves the state. */
  function StateSavedAt(env: Env, s: Store, p: Profile): nat {
    if p in LoadBackups(env, s) then 7 else 9
  }

  /** When that step alone fails, the document has been written and the state has not. */
  lemma FailsAtState(env: Env, s: Store, r: GatewayRequest, faults: Faults)
    requires Faithful(env) && r.valid && FileOf(s, r.profile, LegacyMarker).None?
    requires GatewayTodo(env, LoadState(env, s), FileOf(s, r.profile, Config), r).Ok?
    requires forall k :: faults(k) <==> k == StateSavedAt(env, s, r.profile)
    ensures WroteConfig(env, s, Op.Gateway(r), faults) && !SavedState(env, s, Op.Gateway(r), faults)
  {
    hide Faithful, LoadState, LoadBackups, GatewayTodo, Written;
  }

  /**
   The first gateway switch of a profile fails at saving the state: the next one remembers the
   managed catalog as the user's own pointer.
   */
  lemma FirstSwitchLosesPointer(env: Env, s: Store, r: GatewayRequest, faults: Faults)
    requires Faithful(env) && r.valid && FileOf(s, r.profile, LegacyMarker).None? && !InMode(env, s, r.profile)
    requires GatewayTodo(env, LoadState(env, s), FileOf(s, r.profile, Config), r).Ok?
    requires forall k :: faults(k) <==> k == StateSavedAt(env, s, r.profile)
    ensures NextPrevious(env, Perform(env, s, Op.Gateway(r), faults).store, r.profile)
            == Ok(Some(env.managedPath(r.profile)))
    ensures !InMode(env, Perform(env, s, Op.Gateway(r), faults).store, r.profile)
  {
    FailsAtState(env, s, r, faults);
    hide Faithful, LoadState, GatewayTodo, Perform, WroteConfig, SavedState, NextPrevious, InMode, Managed;
    hide PreviousPointer, Sees;
    var after := Perform(env, s, Op.Gateway(r), faults).store;
    RepointedView(env, s, Op.Gateway(r), faults, r.profile);
    SameMode(env, s, after, r.profile);
    NextOutside(env, after, r.profile);
  }

  /** So after the retry, and whatever else keeps what is remembered, an account switch returns the managed catalog. */
  lemma LostPointerStaysLost(env: Env, s: Store, failed: Action, retry: Action, actions: seq<Action>,
                             last: DirectRequest, faults: Faults)
    requires Faithful(env) && Repoints(failed.op, last.profile) && Repoints(retry.op, last.profile)
    requires !InMode(env, s, last.profile)
    requires WroteConfig(env, s, failed.op, failed.faults) && !SavedState(env, s, failed.op, failed.faults)
    ensures var p, lost := last.profile, Perform(env, s, failed.op, failed.faults).store;
            var retried := Perform(env, lost, retry.op, retry.faults).store;
            var before := Run(env, retried, actions);
            var back := ApplyDirect(env, Start(before), last, faults);
            && SavedState(env, lost, retry.op, retry.faults)
            && NothingForgets(env, retried, actions, p, Some(env.managedPath(p)))
            && back.ok && !faults(StateReadAt(env, before, Direct(last), faults)) ==>
              PointsAt(env, back.store, p, Some(C.Str(env.managedPath(p))))
  {
    hide Faithful, Perform, SavedState, WroteConfig, StateReadAt, InMode, NothingForgets, NextPrevious, ApplyDirect;
    hide Run;
    hide Parses, PointerIn, Managed, PreviousPointer, Sees, Remembered, LoadState;
    var p, lost := last.profile, Perform(env, s, failed.op, failed.faults).store;
    RepointedView(env, s, failed.op, failed.faults, p);
    SameMode(env, s, lost, p);
    NextOutside(env, lost, p);
    if SavedState(env, lost, retry.op, retry.faults) {
      PointerComesBack(env, lost, retry, actions, last, faults);
    }
  }
}
