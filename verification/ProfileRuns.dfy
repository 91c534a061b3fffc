/**
 Runs of profile operations: what the backups guarantee, what a restore brings back, and exactly
 which failures take those guarantees away.
 */
module ProfileRuns {
  import opened Wrappers
  import opened Text
  import opened ProfileStore
  import C = CodexConfig
  import M = ModelSelection
  import A = ModelApply
  import S = ProfileSync

  /** `Edit` is anybody else, Codex included, writing or removing the user's own files. */
  datatype Op =
    | Direct(direct: DirectRequest)
    | Aggregate(aggregate: AggregateRequest)
    | Gateway(gateway: GatewayRequest)
    | Models(models: A.ModelsRequest)
    | Sync(sync: S.SyncRequest)
    | Restore(profile: Profile)
    | Edit(profile: Profile, auth: bool, content: Option<string>)

  function Start(s: Store): Exec {
    Exec(s, 0, true)
  }

  function Perform(env: Env, s: Store, op: Op, faults: Faults): Exec {
    match op
    case Direct(r) => ApplyDirect(env, Start(s), r, faults)
    case Aggregate(r) => ApplyAggregate(env, Start(s), r, faults)
    case Gateway(r) => ApplyGateway(env, Start(s), r, faults)
    case Models(r) => A.ApplyModels(env, Start(s), r, faults).exec
    case Sync(r) => S.SyncProfile(env, Start(s), r, faults).exec
    case Restore(p) => RestoreProfile(env, Start(s), p, faults)
    case Edit(p, auth, content) => Must(Start(s), File(p, if auth then Auth else Config, content), faults)
  }

  /** An operation with what fails during it. */
  datatype Action = Action(op: Op, faults: Faults)

  function Run(env: Env, s: Store, actions: seq<Action>): Store {
    if actions == [] then s
    else
      var last := actions[|actions| - 1];
      Perform(env, Run(env, s, actions[..|actions| - 1]), last.op, last.faults).store
  }

  function SyncedProfile(env: Env, s: Store): Profile {
    match LoadState(env, s)
    case Some(st) => st.profile
    case None => ""
  }

  /** The profile an operation works on. */
  function ProfileOf(env: Env, s: Store, op: Op): Profile {
    match op
    case Direct(r) => r.profile
    case Aggregate(r) => r.profile
    case Gateway(r) => r.profile
    case Models(r) => r.profile
    case Sync(_) => SyncedProfile(env, s)
    case Restore(p) => p
    case Edit(p, _, _) => p
  }

  // ----- what every operation keeps under every plan -----

  ghost predicate Captures(entry: BackupEntry, s: Store, p: Profile) {
    entry.auth == FileOf(s, p, Auth) && entry.config == FileOf(s, p, Config)
  }

  /** Every backup in `b` is one of those in `a`, or holds its profile's files as they were in `a`. */
  ghost predicate Guarded(env: Env, a: Store, b: Store) {
    forall q :: q in LoadBackups(env, b) ==>
      (q in LoadBackups(env, a) && LoadBackups(env, b)[q] == LoadBackups(env, a)[q])
        || Captures(LoadBackups(env, b)[q], a, q)
  }

  /** No other profile's file is touched. */
  ghost predicate OthersSame(a: Store, b: Store, p: Profile) {
    forall q: Profile, slot: Slot :: q != p ==> FileOf(b, q, slot) == FileOf(a, q, slot)
  }

  ghost predicate Kept(env: Env, a: Store, b: Store, q: Profile)
    requires q in LoadBackups(env, a)
  {
    q in LoadBackups(env, b) && LoadBackups(env, b)[q] == LoadBackups(env, a)[q]
  }

  ghost predicate StateHasBackup(env: Env, s: Store) {
    LoadState(env, s).Some? ==> LoadState(env, s).value.profile in LoadBackups(env, s)
  }

  lemma SameBackups(env: Env, a: Store, b: Store)
    requires LoadBackups(env, a) == LoadBackups(env, b)
    ensures Guarded(env, a, b) && forall q :: q in LoadBackups(env, a) ==> Kept(env, a, b, q)
  {
    hide LoadBackups;
  }

  /** Taking a backup when only markers have moved since `s`. */
  lemma BackedView(env: Env, s: Store, e: Exec, p: Profile, now: int, faults: Faults)
    requires Faithful(env) && MarkersOnly(s, e.store, p)
    ensures var r := EnsureBackup(env, e, p, now, faults);
            && Guarded(env, s, r.store) && SameFilesBut(s, r.store, p)
            && LoadState(env, r.store) == LoadState(env, s)
            && (r.ok ==> e.ok && p in LoadBackups(env, r.store))
            && (Calm(faults) ==> r.ok == e.ok)
  {
    hide Faithful;
    EnsureBackupView(env, e, p, now, faults);
    SameBackupRow(env, s, e.store);
    SameState(env, s, e.store);
    var r := EnsureBackup(env, e, p, now, faults);
    SameState(env, e.store, r.store);
    hide LoadBackups, LoadState, EnsureBackup;
    forall q: Profile, slot: Slot | q != p || slot.Auth? || slot.Config? || slot.Catalog?
      ensures FileOf(r.store, q, slot) == FileOf(s, q, slot)
    {
      assert FileOf(r.store, q, slot) == FileOf(e.store, q, slot);
    }
  }

  /** Which backups that takes away: none unless a blind save goes through. */
  predicate Overwrites(env: Env, s: Store, e: Exec, p: Profile, now: int, faults: Faults, q: Profile)
    requires q in LoadBackups(env, s)
  {
    BlindSave(e, faults) && !(q == p && LoadBackups(env, s)[q] == EntryOf(s, p, now))
  }

  lemma BackedKeeps(env: Env, s: Store, e: Exec, p: Profile, now: int, faults: Faults, q: Profile)
    requires Faithful(env) && MarkersOnly(s, e.store, p) && q in LoadBackups(env, s)
    ensures Kept(env, s, EnsureBackup(env, e, p, now, faults).store, q) <==> !Overwrites(env, s, e, p, now, faults, q)
  {
    hide Faithful, EnsureBackup;
    SameBackupRow(env, s, e.store);
    assert EntryOf(e.store, p, now) == EntryOf(s, p, now);
    hide LoadBackups;
    EnsureBackupKeeps(env, e, p, now, faults, q);
  }

  /** A profile's backup after a blind save is the only one left. */
  lemma BackedMembers(env: Env, s: Store, e: Exec, p: Profile, now: int, faults: Faults, q: Profile)
    requires Faithful(env) && MarkersOnly(s, e.store, p) && q in LoadBackups(env, s)
    ensures q in LoadBackups(env, EnsureBackup(env, e, p, now, faults).store) <==> !BlindSave(e, faults) || q == p
  {
    hide Faithful;
    SameBackupRow(env, s, e.store);
    hide LoadBackups;
    if e.ok && p !in SeenBackups(env, e, faults) {
      SavedBackups(env, e.store, SeenBackups(env, e, faults)[p := EntryOf(e.store, p, now)]);
    }
  }

  /** A blind save replaces every backup by one of the files as they are now. */
  lemma BlindSaveReplacesAll(env: Env, e: Exec, p: Profile, now: int, faults: Faults)
    requires Faithful(env) && BlindSave(e, faults)
    ensures LoadBackups(env, EnsureBackup(env, e, p, now, faults).store) == map[p := EntryOf(e.store, p, now)]
  {
    hide Faithful, LoadBackups;
    SavedBackups(env, e.store, map[p := EntryOf(e.store, p, now)]);
  }

  // ----- switches -----

  /** A plan is a backup taken at `before`, and then nothing but reading until the first write. */
  ghost predicate Planned(env: Env, s: Store, plan: Plan, before: Exec, p: Profile, now: int, faults: Faults) {
    var backed := EnsureBackup(env, before, p, now, faults);
    && MarkersOnly(s, before.store, p) && plan.exec.store == backed.store
    && (plan.todo.Some? ==>
        plan.exec.ok && backed.ok && plan.todo.value.st.profile == p && !plan.todo.value.slot.Config?)
    && (plan.todo.None? ==> !plan.exec.ok)
  }

  /** What a switch leaves, wherever it stops. */
  lemma SwitchView(env: Env, s: Store, plan: Plan, before: Exec, p: Profile, now: int, faults: Faults)
    requires Faithful(env) && Planned(env, s, plan, before, p, now, faults)
    ensures var x := Switch(env, plan, p, faults);
            && Guarded(env, s, x.store) && OthersSame(s, x.store, p)
            && LoadBackups(env, x.store) == LoadBackups(env, EnsureBackup(env, before, p, now, faults).store)
            && FileOf(x.store, p, Config)
               == (if ConfigWritten(plan, p, faults) then Some(plan.todo.value.config) else FileOf(s, p, Config))
            && LoadState(env, x.store)
               == (if StateWritten(env, plan, p, faults) then Some(plan.todo.value.st) else LoadState(env, s))
            && (StateWritten(env, plan, p, faults) ==> ConfigWritten(plan, p, faults) && p in LoadBackups(env, x.store))
            && (x.ok ==> StateWritten(env, plan, p, faults))
            && (Calm(faults) ==> (x.ok <==> plan.todo.Some?))
  {
    hide Faithful, EnsureBackup, LoadState, LoadBackups, Carry, Configured, Recorded;
    BackedView(env, s, before, p, now, faults);
    if plan.todo.Some? {
      CarryView(env, plan.exec, p, plan.todo.value, faults);
      SameBackupRow(env, plan.exec.store, Carry(env, plan.exec, p, plan.todo.value, faults).store);
    }
  }

  lemma AcceptedView(e: Exec, p: Profile, valid: bool, faults: Faults)
    requires e.ok
    ensures MarkersOnly(e.store, Accepted(e, p, valid, faults).store, p)
    ensures Calm(faults) ==> Accepted(e, p, valid, faults).ok == valid
  {
    hide MigrateMarker;
    MigrateView(e, p, faults);
  }

  /** The state an operation sees that reads it as step `at`. */
  function Sees(env: Env, s: Store, at: nat, faults: Faults): Option<State> {
    if faults(at) then None else LoadState(env, s)
  }

  /** The step at which an account or aggregate switch reads the state. */
  function ReadsStateAt(env: Env, s: Store, p: Profile, valid: bool, now: int, faults: Faults): nat {
    EnsureBackup(env, Accepted(Start(s), p, valid, faults), p, now, faults).io
  }

  function DirectTodo(env: Env, s: Store, r: DirectRequest, faults: Faults): Result<Todo> {
    var seen := Sees(env, s, ReadsStateAt(env, s, r.profile, r.valid, r.now, faults), faults);
    match DirectConfig(env, seen, FileOf(s, r.profile, Config), r.profile)
    case Err => Err
    case Ok(text) => Ok(Todo(Auth, Some(r.auth), text, DirectState(r)))
  }

  lemma DirectPlanned(env: Env, s: Store, r: DirectRequest, faults: Faults)
    requires Faithful(env)
    ensures var plan, accepted := PlanDirect(env, Start(s), r, faults), Accepted(Start(s), r.profile, r.valid, faults);
            && Planned(env, s, plan, accepted, r.profile, r.now, faults)
            && (plan.todo.Some? ==> DirectTodo(env, s, r, faults) == Ok(plan.todo.value))
            && (Calm(faults) ==> (plan.todo.Some? <==> r.valid && DirectTodo(env, s, r, faults).Ok?))
  {
    hide Faithful, LoadState, LoadBackups, EnsureBackup, Accepted, DirectConfig, Guarded;
    AcceptedView(Start(s), r.profile, r.valid, faults);
    BackedView(env, s, Accepted(Start(s), r.profile, r.valid, faults), r.profile, r.now, faults);
  }

  function AggregateSees(env: Env, s: Store, r: AggregateRequest, faults: Faults): Option<State> {
    Sees(env, s, ReadsStateAt(env, s, r.profile, r.valid, r.now, faults), faults)
  }

  lemma AggregatePlanned(env: Env, s: Store, r: AggregateRequest, faults: Faults)
    requires Faithful(env)
    ensures var plan, accepted := PlanAggregate(env, Start(s), r, faults),
            Accepted(Start(s), r.profile, r.valid, faults);
            var todo := AggregateTodo(env, AggregateSees(env, s, r, faults), FileOf(s, r.profile, Config), r);
            && Planned(env, s, plan, accepted, r.profile, r.now, faults)
            && (plan.todo.Some? ==> todo == Ok(plan.todo.value))
            && (Calm(faults) ==> (plan.todo.Some? <==> r.valid && todo.Ok?))
  {
    hide Faithful, LoadState, LoadBackups, EnsureBackup, Accepted, AggregateTodo, Guarded;
    AcceptedView(Start(s), r.profile, r.valid, faults);
    var accepted := Accepted(Start(s), r.profile, r.valid, faults);
    BackedView(env, s, accepted, r.profile, r.now, faults);
    AggregateTodoIsOurs(env, AggregateSees(env, s, r, faults), FileOf(s, r.profile, Config), r);
  }

  lemma AggregateTodoIsOurs(env: Env, seen: Option<State>, config: Option<string>, r: AggregateRequest)
    ensures AggregateTodo(env, seen, config, r).Ok? ==>
              var t := AggregateTodo(env, seen, config, r).value; t.st.profile == r.profile && t.slot.Catalog?
  {
  }

  lemma GatewayTodoIsOurs(env: Env, seen: Option<State>, config: Option<string>, r: GatewayRequest)
    ensures GatewayTodo(env, seen, config, r).Ok? ==>
              var t := GatewayTodo(env, seen, config, r).value; t.st.profile == r.profile && t.slot.Catalog?
  {
  }

  lemma GatewayPlanned(env: Env, s: Store, r: GatewayRequest, faults: Faults)
    requires Faithful(env)
    ensures var plan, migrated := PlanGateway(env, Start(s), r, faults), GatewayMigrated(env, Start(s), r, faults);
            var todo := GatewayTodo(env, Sees(env, s, 0, faults), FileOf(s, r.profile, Config), r);
            && Planned(env, s, plan, migrated, r.profile, r.now, faults)
            && (plan.todo.Some? ==> todo == Ok(plan.todo.value))
            && (Calm(faults) ==> (plan.todo.Some? <==> r.valid && todo.Ok?))
  {
    hide Faithful, LoadState, LoadBackups, EnsureBackup, MigrateMarker, GatewayTodo, Guarded;
    var todo := GatewayTodo(env, Sees(env, s, 0, faults), FileOf(s, r.profile, Config), r);
    MigrateView(Check(Read(Start(s)), r.valid && todo.Ok?, faults), r.profile, faults);
    BackedView(env, s, GatewayMigrated(env, Start(s), r, faults), r.profile, r.now, faults);
    GatewayTodoIsOurs(env, Sees(env, s, 0, faults), FileOf(s, r.profile, Config), r);
  }

  predicate IsSwitch(op: Op) {
    op.Direct? || op.Aggregate? || op.Gateway?
  }

  function PlanOf(env: Env, s: Store, op: Op, faults: Faults): Plan
    requires IsSwitch(op)
  {
    match op
    case Direct(r) => PlanDirect(env, Start(s), r, faults)
    case Aggregate(r) => PlanAggregate(env, Start(s), r, faults)
    case Gateway(r) => PlanGateway(env, Start(s), r, faults)
  }

  /** Where a switch stands when it takes its backup. */
  function BeforeOf(env: Env, s: Store, op: Op, faults: Faults): Exec
    requires IsSwitch(op)
  {
    match op
    case Direct(r) => Accepted(Start(s), r.profile, r.valid, faults)
    case Aggregate(r) => Accepted(Start(s), r.profile, r.valid, faults)
    case Gateway(r) => GatewayMigrated(env, Start(s), r, faults)
  }

  function NowOf(op: Op): int
    requires IsSwitch(op)
  {
    match op
    case Direct(r) => r.now
    case Aggregate(r) => r.now
    case Gateway(r) => r.now
  }

  lemma SwitchPlanned(env: Env, s: Store, op: Op, faults: Faults)
    requires Faithful(env) && IsSwitch(op)
    ensures Planned(env, s, PlanOf(env, s, op, faults), BeforeOf(env, s, op, faults), ProfileOf(env, s, op), NowOf(op),
                    faults)
    ensures Perform(env, s, op, faults) == Switch(env, PlanOf(env, s, op, faults), ProfileOf(env, s, op), faults)
  {
    hide Faithful, PlanDirect, PlanAggregate, PlanGateway, Accepted, GatewayMigrated, Switch, Planned;
    match op
    case Direct(r) => DirectPlanned(env, s, r, faults);
    case Aggregate(r) => AggregatePlanned(env, s, r, faults);
    case Gateway(r) => GatewayPlanned(env, s, r, faults);
  }

  /** What a switch leaves, wherever it stops. */
  lemma SwitchedView(env: Env, s: Store, op: Op, faults: Faults)
    requires Faithful(env) && IsSwitch(op)
    ensures var x, plan, p := Perform(env, s, op, faults), PlanOf(env, s, op, faults), ProfileOf(env, s, op);
            && Guarded(env, s, x.store) && OthersSame(s, x.store, p)
            && FileOf(x.store, p, Config)
               == (if ConfigWritten(plan, p, faults) then Some(plan.todo.value.config) else FileOf(s, p, Config))
            && LoadState(env, x.store)
               == (if StateWritten(env, plan, p, faults) then Some(plan.todo.value.st) else LoadState(env, s))
            && (StateWritten(env, plan, p, faults) ==> ConfigWritten(plan, p, faults) && p in LoadBackups(env, x.store))
            && (x.ok ==> StateWritten(env, plan, p, faults))
            && (Calm(faults) ==> (x.ok <==> plan.todo.Some?))
  {
    hide Faithful, PlanOf, BeforeOf, Planned, Switch, Perform, LoadState, LoadBackups, Guarded, ConfigWritten;
    hide StateWritten;
    SwitchPlanned(env, s, op, faults);
    SwitchView(env, s, PlanOf(env, s, op, faults), BeforeOf(env, s, op, faults), ProfileOf(env, s, op), NowOf(op),
               faults);
  }

  // ----- selections -----

  /** The selection as it is committed, with the step before; the old values are captured at step 1. */
  function Committing(env: Env, s: Store, r: A.ModelsRequest, faults: Faults): Option<A.Prepared> {
    match A.Ready(env, s, r)
    case Ok(prepared) => if faults(0) then None else Some(prepared)
    case Err => None
  }

  /** Where the commit starts to work: both the settings and the files have been captured. */
  function CapturedAt(s: Store): Exec {
    Exec(s, 3, true)
  }

  function SelectionPlan(env: Env, s: Store, prepared: A.Prepared, faults: Faults): Plan {
    A.PlanModels(env, CapturedAt(s), prepared, faults)
  }

  function SelectionBody(env: Env, s: Store, prepared: A.Prepared, faults: Faults): Exec {
    A.WriteNewValues(env, CapturedAt(s), prepared, faults)
  }

  /** The selection got past capturing the old values. */
  predicate Commits(env: Env, s: Store, r: A.ModelsRequest, faults: Faults) {
    Committing(env, s, r, faults).Some? && !faults(2)
  }

  lemma CommitsView(env: Env, s: Store, r: A.ModelsRequest, faults: Faults)
    ensures var x := A.ApplyModels(env, Start(s), r, faults);
            if !Commits(env, s, r, faults) then x.exec.store == s && !x.exec.ok && x.errors == 0
            else
              var prepared := Committing(env, s, r, faults).value;
              var body := SelectionBody(env, s, prepared, faults);
              if body.ok then x == A.Commit(body, 0)
              else
                var snapshot := A.Captured(Exec(s, 1, true), faults);
                var undone := A.WayBack(A.Undo(body.store, body.io, 0), snapshot, prepared.profile,
                                        prepared.rootExisted, faults);
                x == A.Commit(Exec(undone.store, undone.io, false), undone.errors)
  {
    hide A.Ready, A.WriteNewValues, A.WayBack, A.Captured;
  }

  lemma SelectionPlanned(env: Env, s: Store, r: A.Prepared, faults: Faults)
    requires Faithful(env)
    ensures Planned(env, s, SelectionPlan(env, s, r, faults), MigrateMarker(CapturedAt(s), r.profile, faults),
                    r.profile, r.now, faults)
    ensures Calm(faults) && ConfigDoc(env, r.current).Some? ==> SelectionPlan(env, s, r, faults).todo.Some?
  {
    hide Faithful, LoadState, LoadBackups, EnsureBackup, MigrateMarker, A.NewState, A.LookAround, Guarded, ConfigDoc;
    var migrated := MigrateMarker(CapturedAt(s), r.profile, faults);
    MigrateView(CapturedAt(s), r.profile, faults);
    BackedView(env, s, migrated, r.profile, r.now, faults);
    var seen := A.LookAround(env, A.Backed(env, CapturedAt(s), r, faults), r.profile, faults);
    A.NewStateIsOurs(env, seen, r);
    A.NewStateIsFound(env, seen, r);
  }

  lemma SelectionView(env: Env, s: Store, r: A.Prepared, faults: Faults)
    requires Faithful(env)
    ensures var body, plan := SelectionBody(env, s, r, faults), SelectionPlan(env, s, r, faults);
            && Guarded(env, s, body.store) && OthersSame(s, body.store, r.profile)
            && LoadBackups(env, body.store) == LoadBackups(env, A.Backed(env, CapturedAt(s), r, faults).store)
            && FileOf(body.store, r.profile, Config)
               == (if ConfigWritten(plan, r.profile, faults) then Some(plan.todo.value.config)
                   else FileOf(s, r.profile, Config))
            && LoadState(env, body.store)
               == (if StateWritten(env, plan, r.profile, faults) then Some(plan.todo.value.st) else LoadState(env, s))
            && (StateWritten(env, plan, r.profile, faults) ==>
                  plan.todo.value.st.profile == r.profile && r.profile in LoadBackups(env, body.store))
            && (body.ok ==> StateWritten(env, plan, r.profile, faults))
            && (Calm(faults) && ConfigDoc(env, r.current).Some? ==> body.ok)
  {
    SelectionPlanned(env, s, r, faults);
    SwitchView(env, s, SelectionPlan(env, s, r, faults), MigrateMarker(CapturedAt(s), r.profile, faults), r.profile,
               r.now, faults);
    hide Faithful, LoadState, LoadBackups, EnsureBackup, MigrateMarker, A.PlanModels, Switch, ConfigDoc;
  }

  // ----- the way back of a failed selection -----

  /** The state row after the way back. */
  lemma StateAfterUndo(env: Env, s: Store, body: Exec, p: Profile, existed: bool, faults: Faults)
    ensures var x := A.WayBack(A.Undo(body.store, body.io, 0), A.Captured(Exec(s, 1, true), faults), p, existed,
                               faults).store;
            LoadState(env, x) == if faults(body.io + 1) then LoadState(env, body.store)
                                 else if faults(1) then None else LoadState(env, s)
  {
    hide A.AttemptAll, A.OldValues, A.WayBack, Normalize;
    var u, snapshot := A.Undo(body.store, body.io, 0), A.Captured(Exec(s, 1, true), faults);
    var x := A.WayBack(u, snapshot, p, existed, faults).store;
    A.NoErrorNoFault(u, snapshot, p, existed, faults);
    SecondIsState(snapshot, p);
    if faults(body.io + 1) {
      A.OldValuesDistinct(snapshot, p);
      A.FailureKeeps(u, A.OldValues(snapshot, p), faults, 1);
      assert A.ValueAt(x, A.SettingAt(StateRow)) == Raw(x, StateRow) == Raw(body.store, StateRow);
      SameState(env, x, body.store);
    } else {
      A.EachWrittenBack(u, snapshot, p, faults, 1);
      assert A.ValueAt(x, A.SettingAt(StateRow)) == Raw(x, StateRow);
      A.ResavedReadsSame(Raw(snapshot, StateRow));
      CapturedSetting(env, s, faults);
      ReadsSameState(env, x, snapshot);
    }
  }

  lemma SecondIsState(s: Store, p: Profile)
    ensures |A.OldValues(s, p)| == 7 && A.TargetOf(A.OldValues(s, p)[1]) == A.SettingAt(StateRow)
    ensures A.TargetOf(A.OldValues(s, p)[6]) == A.SettingAt(BackupsRow)
            && A.TargetOf(A.OldValues(s, p)[4]) == A.FileAt(p, Config)
  {
  }

  lemma CapturedSetting(env: Env, s: Store, faults: Faults)
    ensures var snapshot := A.Captured(Exec(s, 1, true), faults);
            && LoadState(env, snapshot) == (if faults(1) then None else LoadState(env, s))
            && LoadBackups(env, snapshot) == (if faults(1) then map[] else LoadBackups(env, s))
            && (forall p: Profile, slot: Slot :: FileOf(snapshot, p, slot) == FileOf(s, p, slot))
  {
    var snapshot := A.Captured(Exec(s, 1, true), faults);
    if faults(1) {
      assert Setting(snapshot, StateRow) == None && Setting(snapshot, BackupsRow) == None;
    }
  }

  lemma ReadsSameState(env: Env, a: Store, b: Store)
    requires Setting(a, StateRow) == Setting(b, StateRow)
    ensures LoadState(env, a) == LoadState(env, b)
  {
  }

  lemma ReadsSameBackups(env: Env, a: Store, b: Store)
    requires Setting(a, BackupsRow) == Setting(b, BackupsRow)
    ensures LoadBackups(env, a) == LoadBackups(env, b)
  {
  }

  /** The backups after the way back. */
  lemma BackupsAfterUndo(env: Env, s: Store, body: Exec, p: Profile, existed: bool, faults: Faults)
    ensures var x := A.WayBack(A.Undo(body.store, body.io, 0), A.Captured(Exec(s, 1, true), faults), p, existed,
                               faults).store;
            LoadBackups(env, x) == if faults(body.io + 6) then LoadBackups(env, body.store)
                                   else if faults(1) then map[] else LoadBackups(env, s)
  {
    hide A.AttemptAll, A.OldValues, A.WayBack, Normalize;
    var u, snapshot := A.Undo(body.store, body.io, 0), A.Captured(Exec(s, 1, true), faults);
    var x := A.WayBack(u, snapshot, p, existed, faults).store;
    A.NoErrorNoFault(u, snapshot, p, existed, faults);
    SecondIsState(snapshot, p);
    if faults(body.io + 6) {
      A.OldValuesDistinct(snapshot, p);
      A.FailureKeeps(u, A.OldValues(snapshot, p), faults, 6);
      assert A.ValueAt(x, A.SettingAt(BackupsRow)) == Raw(x, BackupsRow) == Raw(body.store, BackupsRow);
      SameBackupRow(env, x, body.store);
    } else {
      A.EachWrittenBack(u, snapshot, p, faults, 6);
      assert A.ValueAt(x, A.SettingAt(BackupsRow)) == Raw(x, BackupsRow);
      A.ResavedReadsSame(Raw(snapshot, BackupsRow));
      CapturedSetting(env, s, faults);
      ReadsSameBackups(env, x, snapshot);
    }
  }

  /** Its document, and the files of other profiles. */
  lemma FilesAfterUndo(env: Env, s: Store, body: Exec, p: Profile, existed: bool, faults: Faults)
    requires OthersSame(s, body.store, p)
    ensures var x := A.WayBack(A.Undo(body.store, body.io, 0), A.Captured(Exec(s, 1, true), faults), p, existed,
                               faults).store;
            && FileOf(x, p, Config) == (if faults(body.io + 4) then FileOf(body.store, p, Config)
                                        else FileOf(s, p, Config))
            && OthersSame(s, x, p)
  {
    hide A.AttemptAll, A.OldValues, A.WayBack, Normalize;
    var u, snapshot := A.Undo(body.store, body.io, 0), A.Captured(Exec(s, 1, true), faults);
    var x := A.WayBack(u, snapshot, p, existed, faults).store;
    A.NoErrorNoFault(u, snapshot, p, existed, faults);
    SecondIsState(snapshot, p);
    CapturedSetting(env, s, faults);
    A.OldValuesDistinct(snapshot, p);
    assert A.ValueAt(x, A.FileAt(p, Config)) == FileOf(x, p, Config);
    assert A.ValueAt(snapshot, A.FileAt(p, Config)) == FileOf(snapshot, p, Config) == FileOf(s, p, Config);
    if faults(body.io + 4) {
      A.FailureKeeps(u, A.OldValues(snapshot, p), faults, 4);
    } else {
      A.EachWrittenBack(u, snapshot, p, faults, 4);
    }
    forall q: Profile, slot: Slot | q != p
      ensures FileOf(x, q, slot) == FileOf(s, q, slot)
    {
      A.Untouched(u, A.OldValues(snapshot, p), faults, A.FileAt(q, slot));
      assert A.ValueAt(x, A.FileAt(q, slot)) == FileOf(x, q, slot);
    }
  }

  // ----- sync -----

  lemma SyncView(env: Env, s: Store, r: S.SyncRequest, faults: Faults)
    requires Faithful(env)
    ensures var x := S.SyncProfile(env, Start(s), r, faults);
            && LoadBackups(env, x.exec.store) == LoadBackups(env, s)
               && OthersSame(s, x.exec.store, SyncedProfile(env, s))
            && (LoadState(env, x.exec.store) == LoadState(env, s)
                || (LoadState(env, s).Some? && LoadState(env, x.exec.store).Some?
                    && LoadState(env, x.exec.store).value.profile == LoadState(env, s).value.profile))
            && (!x.done ==> LoadState(env, x.exec.store) == LoadState(env, s))
            && (Calm(faults) && !x.done ==> x.exec.store == s)
  {
    hide Faithful, LoadState, LoadBackups, S.Decide, S.Contents, S.SyncedConfig, S.WriteSynced, S.PointsToManaged;
    hide S.Followed;
    var seen, x := SeenState(env, Start(s), faults), S.SyncProfile(env, Start(s), r, faults);
    S.IdleWithoutState(env, s, r);
    var decision := S.Decide(env, seen, s, r);
    if seen.Some? && decision.Proceed? {
      S.PlanView(env, seen.value, s, r);
      var content := S.Contents(env, r, decision.plan);
      if content.Ok? {
        var config := S.SyncedConfig(env, s, r, decision.plan, content.value);
        var patched := Check(Check(Check(Read(Start(s)), true, faults), true, faults), config.Ok?, faults);
        if patched.ok {
          S.WriteSyncedView(env, patched, decision.plan, content.value, config.value, faults);
          SameBackupRow(env, s, x.exec.store);
          if !x.exec.ok {
            SameState(env, s, x.exec.store);
          }
        }
      }
    }
  }

  // ----- restore -----

  /** The restore got as far as forgetting the backup: it saw it, and no file operation failed. */
  ghost predicate Forgets(env: Env, s: Store, p: Profile, faults: Faults) {
    p in LoadBackups(env, s) && A.NoFault(faults, 0, 7)
  }

  lemma RestoredFiles(e: Exec, p: Profile, entry: BackupEntry, faults: Faults)
    requires e.ok
    ensures var x := RestoreFiles(e, p, entry, faults);
            && x.store.rows == e.store.rows && OthersSame(e.store, x.store, p)
            && (x.ok <==> A.NoFault(faults, e.io, e.io + 4)) && (x.ok ==> x.io == e.io + 4)
            && (x.ok ==>
                Captures(entry, x.store, p) && FileOf(x.store, p, MarkerFile).None?
                && FileOf(x.store, p, LegacyMarker).None?
                         && FileOf(x.store, p, Catalog) == FileOf(e.store, p, Catalog))
  {
  }

  lemma ClearedState(env: Env, e: Exec, p: Profile, faults: Faults)
    requires Faithful(env)
    ensures var x, own := ClearState(env, e, p, faults), LoadState(env, e.store).Some?
            && LoadState(env, e.store).value.profile == p;
            && x.store.files == e.store.files && LoadBackups(env, x.store) == LoadBackups(env, e.store)
            && LoadState(env, x.store)
               == (if e.ok && own && !faults(e.io) && !faults(e.io + 1) then None else LoadState(env, e.store))
            && (x.ok ==> e.ok) && (Calm(faults) ==> x.ok == e.ok)
  {
    hide Faithful, LoadState, LoadBackups, Normalize;
    var cleared := Must(Read(e), Save(StateRow, None), faults);
    SavedNothing(env, e.store);
    SameBackupRow(env, e.store, cleared.store);
  }

  /** A restore up to forgetting the backup. */
  function Forgot(env: Env, s: Store, p: Profile, faults: Faults): Exec {
    var backups := SeenBackups(env, Start(s), faults);
    var found := Check(Read(Start(s)), p in backups, faults);
    if !found.ok || p !in backups then found
    else Must(RestoreFiles(found, p, backups[p], faults), Save(BackupsRow, Some(env.renderBackups(backups - {p}))),
              faults)
  }

  lemma RestoreIsParts(env: Env, s: Store, p: Profile, faults: Faults)
    ensures var forgot, x := Forgot(env, s, p, faults), RestoreProfile(env, Start(s), p, faults);
            x == ClearState(env, forgot, p, faults) || (!forgot.ok && x == forgot)
  {
    hide LoadState, LoadBackups, ClearState, RestoreFiles;
  }

  lemma ForgotView(env: Env, s: Store, p: Profile, faults: Faults)
    requires Faithful(env)
    ensures var x := Forgot(env, s, p, faults);
            && (x.ok <==> Forgets(env, s, p, faults)) && (x.ok ==> x.io == 7)
            && LoadBackups(env, x.store) == (if x.ok then LoadBackups(env, s) - {p} else LoadBackups(env, s))
            && LoadState(env, x.store) == LoadState(env, s) && OthersSame(s, x.store, p)
            && (x.ok ==>
                  && Captures(LoadBackups(env, s)[p], x.store, p)
                  && FileOf(x.store, p, MarkerFile).None? && FileOf(x.store, p, LegacyMarker).None?
                  && FileOf(x.store, p, Catalog) == FileOf(s, p, Catalog))
  {
    hide Faithful, LoadState, LoadBackups, Normalize, RestoreFiles, Captures;
    var backups := SeenBackups(env, Start(s), faults);
    var found := Check(Read(Start(s)), p in backups, faults);
    if found.ok && p in backups {
      var unmarked, x := RestoreFiles(found, p, backups[p], faults), Forgot(env, s, p, faults);
      RestoredFiles(found, p, backups[p], faults);
      SavedBackups(env, unmarked.store, backups - {p});
      SameState(env, s, x.store);
      SameBackupRow(env, s, unmarked.store);
      FilesDecide(unmarked.store, x.store, p, backups[p]);
    }
  }

  /** What a restore leaves, wherever it stops. */
  lemma RestoreView(env: Env, s: Store, p: Profile, faults: Faults)
    requires Faithful(env)
    ensures var x, own := RestoreProfile(env, Start(s), p, faults), LoadState(env, s).Some?
            && LoadState(env, s).value.profile == p;
            && LoadBackups(env, x.store)
               == (if Forgets(env, s, p, faults) then LoadBackups(env, s) - {p} else LoadBackups(env, s))
            && LoadState(env, x.store)
               == (if Forgets(env, s, p, faults) && own && !faults(7) && !faults(8) then None else LoadState(env, s))
            && OthersSame(s, x.store, p)
            && (x.ok ==>
                  && Forgets(env, s, p, faults) && Captures(LoadBackups(env, s)[p], x.store, p)
                  && FileOf(x.store, p, MarkerFile).None? && FileOf(x.store, p, LegacyMarker).None?
                  && FileOf(x.store, p, Catalog) == FileOf(s, p, Catalog))
            && (Calm(faults) ==> (x.ok <==> p in LoadBackups(env, s)))
  {
    hide Faithful, LoadState, LoadBackups, RestoreProfile, ClearState, Captures, Forgot, Forgets;
    var forgot := Forgot(env, s, p, faults);
    ForgotView(env, s, p, faults);
    RestoreIsParts(env, s, p, faults);
    ClearedState(env, forgot, p, faults);
    if Forgets(env, s, p, faults) {
      ForgetsHasBackup(env, s, p, faults);
      FilesDecide(forgot.store, ClearState(env, forgot, p, faults).store, p, LoadBackups(env, s)[p]);
    }
    if Calm(faults) {
      CalmForgets(env, s, p, faults);
    }
  }

  lemma ForgetsHasBackup(env: Env, s: Store, p: Profile, faults: Faults)
    requires Forgets(env, s, p, faults)
    ensures p in LoadBackups(env, s)
  {
    hide LoadBackups;
  }

  lemma CalmForgets(env: Env, s: Store, p: Profile, faults: Faults)
    requires Calm(faults)
    ensures Forgets(env, s, p, faults) <==> p in LoadBackups(env, s)
  {
    hide LoadBackups;
  }

  lemma FilesDecide(a: Store, b: Store, p: Profile, entry: BackupEntry)
    requires a.files == b.files
    ensures (Captures(entry, a, p) <==> Captures(entry, b, p))
            && forall q: Profile, slot: Slot :: FileOf(a, q, slot) == FileOf(b, q, slot)
  {
  }

  // ----- one operation, whatever fails -----

  lemma GuardedSame(env: Env, a: Store, b: Store, c: Store)
    requires Guarded(env, a, b) && (LoadBackups(env, c) == LoadBackups(env, b) || LoadBackups(env, c) == map[])
    ensures Guarded(env, a, c)
  {
    hide LoadBackups;
  }

  lemma SelectionGuarded(env: Env, s: Store, r: A.ModelsRequest, faults: Faults)
    requires Faithful(env)
    ensures var after := A.ApplyModels(env, Start(s), r, faults).exec.store;
            Guarded(env, s, after) && OthersSame(s, after, r.profile)
  {
    CommitsView(env, s, r, faults);
    SameBackups(env, s, s);
    ReadyIsOurs(env, s, r);
    hide Faithful, LoadState, LoadBackups, SelectionBody, A.ApplyModels, A.WayBack, A.Captured, Guarded, A.Ready;
    if Commits(env, s, r, faults) {
      var prepared := Committing(env, s, r, faults).value;
      var body := SelectionBody(env, s, prepared, faults);
      SelectionView(env, s, prepared, faults);
      var after := A.ApplyModels(env, Start(s), r, faults).exec.store;
      if !body.ok {
        BackupsAfterUndo(env, s, body, prepared.profile, prepared.rootExisted, faults);
        FilesAfterUndo(env, s, body, prepared.profile, prepared.rootExisted, faults);
        GuardedSame(env, s, if faults(body.io + 6) then body.store else s, after);
      }
    }
  }

  lemma ReadyIsOurs(env: Env, s: Store, r: A.ModelsRequest)
    ensures A.Ready(env, s, r).Ok? ==>
              var prepared := A.Ready(env, s, r).value;
              && prepared.profile == r.profile && prepared.now == r.now && prepared.rootExisted == r.rootExisted
              && prepared.current == FileOf(s, r.profile, Config) && ConfigDoc(env, prepared.current).Some?
              && prepared.config
                 == env.renderToml(C.PatchForManagedCatalog(ConfigDoc(env, prepared.current).value,
                                                            env.managedPath(r.profile)))
  {
    hide ConfigDoc, M.Selected;
  }

  /**
   Under every plan a backup is an old one or holds the files as the operation found them, and no
   other profile is touched.
   */
  lemma PerformGuarded(env: Env, s: Store, op: Op, faults: Faults)
    requires Faithful(env)
    ensures var after := Perform(env, s, op, faults).store;
            Guarded(env, s, after) && OthersSame(s, after, ProfileOf(env, s, op))
  {
    hide Faithful, LoadState, LoadBackups, Guarded, PlanOf, BeforeOf, Switch, Planned, StateWritten, ConfigWritten;
    hide Overwrites;
    if IsSwitch(op) {
      SwitchedView(env, s, op, faults);
    } else {
      match op
      case Models(r) => hide A.ApplyModels; SelectionGuarded(env, s, r, faults);
      case Sync(r) =>
        hide S.SyncProfile;
        SyncView(env, s, r, faults);
        SameBackups(env, s, Perform(env, s, op, faults).store);
      case Restore(p) =>
        hide RestoreProfile;
        RestoreView(env, s, p, faults);
        FewerBackups(env, s, Perform(env, s, op, faults).store, p);
      case Edit(p, auth, content) => EditView(env, s, p, auth, content, faults);
    }
  }

  lemma FewerBackups(env: Env, a: Store, b: Store, p: Profile)
    requires LoadBackups(env, b) == LoadBackups(env, a) || LoadBackups(env, b) == LoadBackups(env, a) - {p}
    ensures Guarded(env, a, b)
  {
    hide LoadBackups;
  }

  lemma EditView(env: Env, s: Store, p: Profile, auth: bool, content: Option<string>, faults: Faults)
    ensures var after := Perform(env, s, Edit(p, auth, content), faults).store;
            && Guarded(env, s, after) && OthersSame(s, after, p)
            && LoadBackups(env, after) == LoadBackups(env, s) && LoadState(env, after) == LoadState(env, s)
            && (auth ==> FileOf(after, p, Config) == FileOf(s, p, Config))
  {
    hide LoadBackups, LoadState, Guarded;
    var after := Perform(env, s, Edit(p, auth, content), faults).store;
    SameBackupRow(env, s, after);
    SameState(env, s, after);
    SameBackups(env, s, after);
  }

  // ----- exactly when a backup is lost -----

  /** What takes the backup of `q` away: a blind save, a selection whose capture was blind, or its own restore. */
  ghost predicate LosesBackup(env: Env, s: Store, op: Op, faults: Faults, q: Profile)
    requires q in LoadBackups(env, s)
  {
    if IsSwitch(op) then Overwrites(env, s, BeforeOf(env, s, op, faults), ProfileOf(env, s, op), NowOf(op), faults, q)
    else
      match op
      case Models(r) =>
        Commits(env, s, r, faults) && SelectionLoses(env, s, Committing(env, s, r, faults).value, faults, q)
      case Restore(p) => q == p && Forgets(env, s, p, faults)
      case _ => false
  }

  ghost predicate SelectionLoses(env: Env, s: Store, r: A.Prepared, faults: Faults, q: Profile)
    requires q in LoadBackups(env, s)
  {
    var body := SelectionBody(env, s, r, faults);
    if body.ok || faults(body.io + 6)
    then Overwrites(env, s, MigrateMarker(CapturedAt(s), r.profile, faults), r.profile, r.now, faults, q)
    else faults(1)
  }

  lemma SwitchLoses(env: Env, s: Store, plan: Plan, before: Exec, p: Profile, now: int, faults: Faults, q: Profile)
    requires Faithful(env) && Planned(env, s, plan, before, p, now, faults) && q in LoadBackups(env, s)
    ensures Kept(env, s, Switch(env, plan, p, faults).store, q) <==> !Overwrites(env, s, before, p, now, faults, q)
  {
    SwitchView(env, s, plan, before, p, now, faults);
    BackedKeeps(env, s, before, p, now, faults, q);
    hide Faithful, LoadState, LoadBackups, EnsureBackup, Switch, Overwrites, Planned;
  }

  lemma SelectionLosesExactly(env: Env, s: Store, r: A.ModelsRequest, faults: Faults, q: Profile)
    requires Faithful(env) && q in LoadBackups(env, s)
    ensures Kept(env, s, A.ApplyModels(env, Start(s), r, faults).exec.store, q)
            <==> !LosesBackup(env, s, Models(r), faults, q)
  {
    hide Faithful, LoadState, LoadBackups, SelectionBody, A.ApplyModels, A.WayBack, A.Captured, A.Ready, MigrateMarker;
    hide EnsureBackup;
    hide Overwrites, SelectionPlan, StateWritten, ConfigWritten, Guarded, OthersSame;
    CommitsView(env, s, r, faults);
    if Commits(env, s, r, faults) {
      var prepared := Committing(env, s, r, faults).value;
      var body := SelectionBody(env, s, prepared, faults);
      SelectionView(env, s, prepared, faults);
      MigrateView(CapturedAt(s), prepared.profile, faults);
      BackedKeeps(env, s, MigrateMarker(CapturedAt(s), prepared.profile, faults), prepared.profile, prepared.now,
                  faults, q);
      if !body.ok {
        BackupsAfterUndo(env, s, body, prepared.profile, prepared.rootExisted, faults);
      }
    }
  }

  /** A backup survives an operation, unchanged, exactly unless one of those failures takes it away. */
  lemma LostExactly(env: Env, s: Store, op: Op, faults: Faults, q: Profile)
    requires Faithful(env) && q in LoadBackups(env, s)
    ensures Kept(env, s, Perform(env, s, op, faults).store, q) <==> !LosesBackup(env, s, op, faults, q)
  {
    hide Faithful, LoadState, LoadBackups, Guarded, PlanOf, BeforeOf, Switch, Planned, StateWritten, ConfigWritten;
    hide Overwrites;
    hide SelectionLoses, Forgets;
    if IsSwitch(op) {
      SwitchPlanned(env, s, op, faults);
      SwitchLoses(env, s, PlanOf(env, s, op, faults), BeforeOf(env, s, op, faults), ProfileOf(env, s, op), NowOf(op),
                  faults, q);
    } else {
      match op
      case Models(r) => hide A.ApplyModels; SelectionLosesExactly(env, s, r, faults, q);
      case Sync(r) => hide S.SyncProfile; SyncView(env, s, r, faults);
      case Restore(p) => hide RestoreProfile; RestoreView(env, s, p, faults);
      case Edit(p, auth, content) => EditView(env, s, p, auth, content, faults);
    }
  }

  // ----- exactly when a state is left without its backup -----

  /** Whom a blind save leaves without a backup: anybody but the profile it saves. */
  ghost predicate StrandsOther(env: Env, s: Store, before: Exec, p: Profile, faults: Faults) {
    LoadState(env, s).Some? && LoadState(env, s).value.profile != p && BlindSave(before, faults)
  }

  /**
   The failures that leave a stored state without a backup for its profile, for a store in which it
   has one: a blind save that the new state does not follow, a restore cut short between its last
   two writes, or a selection whose compensations failed unevenly.
   */
  ghost predicate Strands(env: Env, s: Store, op: Op, faults: Faults) {
    if IsSwitch(op) then
      && !StateWritten(env, PlanOf(env, s, op, faults), ProfileOf(env, s, op), faults)
      && StrandsOther(env, s, BeforeOf(env, s, op, faults), ProfileOf(env, s, op), faults)
    else
      match op
      case Models(r) =>
        Commits(env, s, r, faults) && SelectionStrands(env, s, Committing(env, s, r, faults).value, faults)
      case Restore(p) =>
        && Forgets(env, s, p, faults) && LoadState(env, s).Some? && LoadState(env, s).value.profile == p
        && (faults(7) || faults(8))
      case _ => false
  }

  /** The profile of the state a failed selection leaves, if any, and whether a backup of it is left. */
  ghost predicate SelectionStrands(env: Env, s: Store, r: A.Prepared, faults: Faults) {
    var body, plan := SelectionBody(env, s, r, faults), SelectionPlan(env, s, r, faults);
    var written, blind := StateWritten(env, plan, r.profile, faults),
        BlindSave(MigrateMarker(CapturedAt(s), r.profile, faults), faults);
    !body.ok &&
    if faults(body.io + 1) && written then !faults(body.io + 6) && (faults(1) || r.profile !in LoadBackups(env, s))
    else
      && LoadState(env, s).Some? && (faults(body.io + 1) || !faults(1))
      && if faults(body.io + 6) then blind && LoadState(env, s).value.profile != r.profile else faults(1)
  }

  lemma SwitchStrands(env: Env, s: Store, plan: Plan, before: Exec, p: Profile, now: int, faults: Faults)
    requires Faithful(env) && Planned(env, s, plan, before, p, now, faults) && StateHasBackup(env, s)
    ensures StateHasBackup(env, Switch(env, plan, p, faults).store)
            <==> StateWritten(env, plan, p, faults) || !StrandsOther(env, s, before, p, faults)
  {
    SwitchView(env, s, plan, before, p, now, faults);
    if LoadState(env, s).Some? {
      BackedMembers(env, s, before, p, now, faults, LoadState(env, s).value.profile);
    }
    hide Faithful, LoadState, LoadBackups, EnsureBackup, Switch, BlindSave, StateWritten;
  }

  lemma SelectionStrandsExactly(env: Env, s: Store, r: A.ModelsRequest, faults: Faults)
    requires Faithful(env) && StateHasBackup(env, s)
    ensures StateHasBackup(env, A.ApplyModels(env, Start(s), r, faults).exec.store)
            <==> !Strands(env, s, Models(r), faults)
  {
    CommitsView(env, s, r, faults);
    hide Faithful, LoadState, LoadBackups, SelectionBody, SelectionPlan, A.ApplyModels, A.WayBack, A.Captured, A.Ready;
    hide MigrateMarker, EnsureBackup, BlindSave, StateWritten, ConfigWritten, Guarded, OthersSame;
    if Commits(env, s, r, faults) {
      var prepared := Committing(env, s, r, faults).value;
      var body := SelectionBody(env, s, prepared, faults);
      SelectionView(env, s, prepared, faults);
      MigrateView(CapturedAt(s), prepared.profile, faults);
      if LoadState(env, s).Some? {
        BackedMembers(env, s, MigrateMarker(CapturedAt(s), prepared.profile, faults), prepared.profile, prepared.now,
                      faults,
                      LoadState(env, s).value.profile);
      }
      if !body.ok {
        BackupsAfterUndo(env, s, body, prepared.profile, prepared.rootExisted, faults);
        StateAfterUndo(env, s, body, prepared.profile, prepared.rootExisted, faults);
      }
    }
  }

  /** A stored state keeps its backup exactly unless one of those failures strands it. */
  lemma StrandedExactly(env: Env, s: Store, op: Op, faults: Faults)
    requires Faithful(env) && StateHasBackup(env, s)
    ensures StateHasBackup(env, Perform(env, s, op, faults).store) <==> !Strands(env, s, op, faults)
  {
    hide Faithful, LoadState, LoadBackups, Guarded, PlanOf, BeforeOf, Switch, Planned, StateWritten, ConfigWritten;
    hide Overwrites;
    hide StrandsOther, SelectionStrands, Forgets;
    if IsSwitch(op) {
      SwitchPlanned(env, s, op, faults);
      SwitchStrands(env, s, PlanOf(env, s, op, faults), BeforeOf(env, s, op, faults), ProfileOf(env, s, op), NowOf(op),
                    faults);
    } else {
      match op
      case Models(r) => hide A.ApplyModels; SelectionStrandsExactly(env, s, r, faults);
      case Sync(r) => hide S.SyncProfile; SyncView(env, s, r, faults);
      case Restore(p) => hide RestoreProfile; RestoreView(env, s, p, faults);
      case Edit(p, auth, content) => EditView(env, s, p, auth, content, faults);
    }
  }

  /**
   When the settings table and the backups can be read, a selection strands its state exactly if
   the state was already saved, its write-back fails, that of the backups does not, and the
   profile had no backup at entry.
   */
  lemma ReadableSelectionStrands(env: Env, s: Store, r: A.Prepared, faults: Faults)
    requires !faults(1) && !BlindSave(MigrateMarker(CapturedAt(s), r.profile, faults), faults)
    ensures var body := SelectionBody(env, s, r, faults);
            SelectionStrands(env, s, r, faults)
            <==> !body.ok && StateWritten(env, SelectionPlan(env, s, r, faults), r.profile, faults)
                 && faults(body.io + 1) && !faults(body.io + 6) && r.profile !in LoadBackups(env, s)
  {
    hide SelectionBody, SelectionPlan, LoadBackups, LoadState, StateWritten, BlindSave;
  }

  // ----- inputs on which the guarantees fail -----

  /** The commit's plan when nothing fails up to its first write and no marker has to move. */
  lemma SmoothPlan(env: Env, s: Store, r: A.Prepared, faults: Faults)
    requires Faithful(env) && FileOf(s, r.profile, LegacyMarker).None? && ConfigDoc(env, r.current).Some?
    requires A.NoFault(faults, 3, 8) && (r.profile !in LoadBackups(env, s) ==> A.NoFault(faults, 8, 11))
    ensures var plan, start := SelectionPlan(env, s, r, faults), if r.profile in LoadBackups(env, s) then 8 else 10;
            && A.Backed(env, CapturedAt(s), r, faults).ok
            && plan.exec.io == start + 1 && plan.exec.ok == !faults(start) && plan.todo.Some? == plan.exec.ok
            && MigrateMarker(CapturedAt(s), r.profile, faults) == CapturedAt(s)
  {
    hide Faithful, LoadState, LoadBackups, A.NewState, A.LookAround, ConfigDoc, Normalize;
    assert MigrateMarker(CapturedAt(s), r.profile, faults) == CapturedAt(s);
    var backed := A.Backed(env, CapturedAt(s), r, faults);
    assert backed.ok && backed.io == if r.profile in LoadBackups(env, s) then 4 else 6;
    A.NewStateIsFound(env, A.LookAround(env, backed, r.profile, faults), r);
  }

  /** A commit that fails at the last setting it saves, with the state already saved. */
  lemma LateFailure(env: Env, e: Exec, p: Profile, t: Todo, faults: Faults)
    requires e.ok && A.NoFault(faults, e.io, e.io + 5) && faults(e.io + 5)
    ensures Recorded(env, e, p, t, faults).ok
    ensures !Carry(env, e, p, t, faults).ok && Carry(env, e, p, t, faults).io == e.io + 6
  {
    hide Written;
  }

  /** A selection for a profile without a backup: the last setting cannot be saved, nor the state written back. */
  lemma SelectionLeavesStateBehind(env: Env, s: Store, r: A.ModelsRequest, faults: Faults)
    requires Faithful(env) && StateHasBackup(env, s) && A.Ready(env, s, r).Ok?
    requires FileOf(s, r.profile, LegacyMarker).None? && r.profile !in LoadBackups(env, s)
    requires forall k :: faults(k) <==> k == 16 || k == 18
    ensures !StateHasBackup(env, A.ApplyModels(env, Start(s), r, faults).exec.store)
  {
    ReadyIsOurs(env, s, r);
    hide Faithful, LoadState, LoadBackups, A.Ready, A.PlanModels, A.ApplyModels, StateHasBackup, MigrateMarker, Carry;
    hide Recorded, ConfigDoc;
    var prepared := A.Ready(env, s, r).value;
    SmoothPlan(env, s, prepared, faults);
    var plan := SelectionPlan(env, s, prepared, faults);
    LateFailure(env, plan.exec, prepared.profile, plan.todo.value, faults);
    ReadableSelectionStrands(env, s, prepared, faults);
    SelectionStrandsExactly(env, s, r, faults);
  }

  /** A selection whose settings could not be captured, and that then fails, blanks the state and every backup. */
  lemma BlindCaptureBlanks(env: Env, s: Store, r: A.ModelsRequest, faults: Faults)
    requires Faithful(env) && A.Ready(env, s, r).Ok?
    requires FileOf(s, r.profile, LegacyMarker).None? && r.profile in LoadBackups(env, s)
    requires forall k :: faults(k) <==> k == 1 || k == 8
    ensures var x := A.ApplyModels(env, Start(s), r, faults);
            && !x.exec.ok && x.errors == 0
            && LoadBackups(env, x.exec.store) == map[] && LoadState(env, x.exec.store) == None
  {
    ReadyIsOurs(env, s, r);
    CommitsView(env, s, r, faults);
    hide Faithful, LoadState, LoadBackups, A.Ready, A.PlanModels, A.ApplyModels, MigrateMarker, A.WayBack, A.Captured;
    hide ConfigDoc;
    var prepared := A.Ready(env, s, r).value;
    SmoothPlan(env, s, prepared, faults);
    var body := SelectionBody(env, s, prepared, faults);
    assert !body.ok && body.io == 9;
    BackupsAfterUndo(env, s, body, prepared.profile, prepared.rootExisted, faults);
    StateAfterUndo(env, s, body, prepared.profile, prepared.rootExisted, faults);
    A.NoErrorNoFault(A.Undo(body.store, 9, 0), A.Captured(Exec(s, 1, true), faults), prepared.profile,
                     prepared.rootExisted, faults);
  }

  /** A restore that fails only at clearing the state, or cannot read it there, leaves a state without a backup. */
  lemma RestoreCutShort(env: Env, s: Store, p: Profile, faults: Faults)
    requires Faithful(env) && StateHasBackup(env, s) && LoadState(env, s).Some? && LoadState(env, s).value.profile == p
    ensures StateHasBackup(env, Perform(env, s, Restore(p), faults).store)
            <==> !(A.NoFault(faults, 0, 7) && (faults(7) || faults(8)))
  {
    StrandedExactly(env, s, Restore(p), faults);
    hide Faithful, LoadState, LoadBackups, Perform, A.NoFault;
  }

  // ----- runs -----

  lemma SelectionHasBackup(env: Env, s: Store, r: A.ModelsRequest, faults: Faults)
    requires Faithful(env)
    ensures var x := A.ApplyModels(env, Start(s), r, faults).exec; x.ok ==> r.profile in LoadBackups(env, x.store)
  {
    hide Faithful, LoadState, LoadBackups, A.ApplyModels, A.Ready, A.WayBack, A.Captured;
    hide SelectionBody, SelectionPlan, StateWritten, ConfigWritten, Guarded;
    CommitsView(env, s, r, faults);
    ReadyIsOurs(env, s, r);
    if Commits(env, s, r, faults) {
      SelectionView(env, s, Committing(env, s, r, faults).value, faults);
    }
  }

  /** Every switch that succeeds leaves its profile with a backup. */
  lemma SwitchHasBackup(env: Env, s: Store, op: Op, faults: Faults)
    requires Faithful(env) && (IsSwitch(op) || op.Models?)
    ensures Perform(env, s, op, faults).ok
            ==> ProfileOf(env, s, op) in LoadBackups(env, Perform(env, s, op, faults).store)
  {
    if IsSwitch(op) {
      hide *;
      SwitchedView(env, s, op, faults);
    } else {
      hide Faithful, LoadBackups, A.ApplyModels;
      SelectionHasBackup(env, s, op.models, faults);
    }
  }

  /** Unless an operation in between loses it, a backup stays as it is. */
  lemma {:induction false} BackupStays(env: Env, init: Store, actions: seq<Action>, i: nat, j: nat, q: Profile)
    requires Faithful(env) && i <= j <= |actions|
    ensures q in LoadBackups(env, Run(env, init, actions[..i])) && KeepsThrough(env, init, actions, i, j, q) ==>
              Kept(env, Run(env, init, actions[..i]), Run(env, init, actions[..j]), q)
    decreases j - i
  {
    hide Faithful, LoadBackups, Perform, LosesBackup;
    if i < j && q in LoadBackups(env, Run(env, init, actions[..i])) && KeepsThrough(env, init, actions, i, j, q) {
      BackupStays(env, init, actions, i, j - 1, q);
      RunNext(env, init, actions, j - 1);
      var before := Run(env, init, actions[..j - 1]);
      assert q in LoadBackups(env, before) && !LosesBackup(env, before, actions[j - 1].op, actions[j - 1].faults, q);
      LostExactly(env, before, actions[j - 1].op, actions[j - 1].faults, q);
    }
  }

  /** No operation from `i` to `j` loses the backup of `q`. */
  ghost predicate KeepsThrough(env: Env, init: Store, actions: seq<Action>, i: nat, j: nat, q: Profile)
    requires i <= j <= |actions|
  {
    forall m :: i <= m < j && q in LoadBackups(env, Run(env, init, actions[..m])) ==>
      !LosesBackup(env, Run(env, init, actions[..m]), actions[m].op, actions[m].faults, q)
  }

  lemma RunNext(env: Env, init: Store, actions: seq<Action>, i: nat)
    requires i < |actions|
    ensures Run(env, init, actions[..i + 1])
            == Perform(env, Run(env, init, actions[..i]), actions[i].op, actions[i].faults).store
  {
    assert actions[..i + 1][..i] == actions[..i];
  }

  /**
   A restore that succeeds gives `auth.json` and `config.toml` exactly the contents, or absence,
   they had when the backup was taken: at the first switch since the last restore, whatever
   operations, edits and failures on any profiles came in between, as long as none of them lost it.
   */
  lemma RestoreReturnsFirst(env: Env, init: Store, actions: seq<Action>, i: nat, j: nat, q: Profile)
    requires Faithful(env) && i < j < |actions| && actions[j].op == Restore(q)
    ensures
      && q !in LoadBackups(env, Run(env, init, actions[..i])) && q in LoadBackups(env, Run(env, init, actions[..i + 1]))
      && KeepsThrough(env, init, actions, i + 1, j, q)
      && Perform(env, Run(env, init, actions[..j]), actions[j].op, actions[j].faults).ok
      ==>
        var before, after := Run(env, init, actions[..i]), Run(env, init, actions[..j + 1]);
        && FileOf(after, q, Auth) == FileOf(before, q, Auth) && FileOf(after, q, Config) == FileOf(before, q, Config)
        && FileOf(after, q, MarkerFile).None? && q !in LoadBackups(env, after)
  {
    hide Faithful, LoadBackups, LoadState, RestoreProfile, KeepsThrough, Forgets, Captures, Perform, FileOf;
    RunNext(env, init, actions, i);
    RunNext(env, init, actions, j);
    var before, middle := Run(env, init, actions[..i]), Run(env, init, actions[..j]);
    if q !in LoadBackups(env, before) && q in LoadBackups(env, Run(env, init, actions[..i + 1]))
       && KeepsThrough(env, init, actions, i + 1, j, q) {
      BackupStays(env, init, actions, i + 1, j, q);
      BackupHoldsFiles(env, before, actions[i], q);
      RestoreIsPerformed(env, middle, q, actions[j].faults);
      RestoresCaptured(env, before, middle, q, actions[j].faults, LoadBackups(env, middle)[q]);
    }
  }

  lemma RestoreIsPerformed(env: Env, s: Store, q: Profile, faults: Faults)
    ensures Perform(env, s, Restore(q), faults) == RestoreProfile(env, Start(s), q, faults)
  {
  }

  lemma RestoresCaptured(env: Env, before: Store, middle: Store, q: Profile, faults: Faults, entry: BackupEntry)
    requires Faithful(env) && q in LoadBackups(env, middle) && LoadBackups(env, middle)[q] == entry
    requires Captures(entry, before, q)
    ensures var x := RestoreProfile(env, Start(middle), q, faults);
            x.ok ==>
              && FileOf(x.store, q, Auth) == FileOf(before, q, Auth)
                 && FileOf(x.store, q, Config) == FileOf(before, q, Config)
              && FileOf(x.store, q, MarkerFile).None? && q !in LoadBackups(env, x.store)
  {
    hide Faithful, LoadBackups, LoadState, RestoreProfile, Forgets;
    RestoreView(env, middle, q, faults);
  }

  lemma BackupHoldsFiles(env: Env, s: Store, action: Action, q: Profile)
    requires Faithful(env) && q !in LoadBackups(env, s)
    ensures q in LoadBackups(env, Perform(env, s, action.op, action.faults).store) ==>
              Captures(LoadBackups(env, Perform(env, s, action.op, action.faults).store)[q], s, q)
  {
    hide Perform, LoadBackups;
    PerformGuarded(env, s, action.op, action.faults);
  }

  /** In every run a stored state has a backup for its profile, as long as no operation strands it. */
  lemma {:induction false} StateAlwaysHasBackup(env: Env, init: Store, actions: seq<Action>)
    requires Faithful(env) && StateHasBackup(env, init)
    requires forall i :: 0 <= i < |actions| ==>
             !Strands(env, Run(env, init, actions[..i]), actions[i].op, actions[i].faults)
    ensures StateHasBackup(env, Run(env, init, actions))
  {
    if actions != [] {
      hide Strands, StateHasBackup, Perform, Faithful;
      var before, last := actions[..|actions| - 1], actions[|actions| - 1];
      forall i | 0 <= i < |before|
        ensures !Strands(env, Run(env, init, before[..i]), before[i].op, before[i].faults)
      {
        assert before[..i] == actions[..i];
      }
      StateAlwaysHasBackup(env, init, before);
      StrandedExactly(env, Run(env, init, before), last.op, last.faults);
    }
  }

  /** The operation's read of the backups, and a selection's capture of the settings, succeed. */
  predicate SeesSettings(env: Env, s: Store, op: Op, faults: Faults) {
    if IsSwitch(op) then !faults(BeforeOf(env, s, op, faults).io)
    else op.Models? ==> !faults(1) && !faults(MigrateMarker(CapturedAt(s), op.models.profile, faults).io)
  }

  /** Whatever else fails, an operation that sees the settings loses no backup but the one it restores. */
  lemma SeeingLosesNothing(env: Env, s: Store, op: Op, faults: Faults, q: Profile)
    requires SeesSettings(env, s, op, faults) && op != Restore(q) && q in LoadBackups(env, s)
    ensures !LosesBackup(env, s, op, faults, q)
  {
    if op.Models? {
      ReadyIsOurs(env, s, op.models);
    }
    hide LoadBackups, SelectionBody, BeforeOf, MigrateMarker, A.Ready;
  }

  /** Without failures no state is stranded. */
  lemma CalmStrandsNothing(env: Env, s: Store, op: Op, faults: Faults)
    requires Calm(faults)
    ensures !Strands(env, s, op, faults)
  {
    hide LoadBackups, LoadState, SelectionBody, StateWritten, BeforeOf, PlanOf, MigrateMarker, Committing;
    hide SelectionPlan, A.NoFault;
  }

  // ----- without failures -----

  /** What a caller can check beforehand: the request is in order, and the texts it patches can be patched. */
  predicate Accepts(env: Env, s: Store, op: Op) {
    match op
    case Direct(r) => r.valid && DirectConfig(env, LoadState(env, s), FileOf(s, r.profile, Config), r.profile).Ok?
    case Aggregate(r) => r.valid && AggregateTodo(env, LoadState(env, s), FileOf(s, r.profile, Config), r).Ok?
    case Gateway(r) => r.valid && GatewayTodo(env, LoadState(env, s), FileOf(s, r.profile, Config), r).Ok?
    case Models(r) => A.Ready(env, s, r).Ok?
    case Sync(r) => SyncReady(env, s, r)
    case Restore(p) => p in LoadBackups(env, s)
    case Edit(_, _, _) => true
  }

  predicate SyncReady(env: Env, s: Store, r: S.SyncRequest) {
    match S.Decide(env, LoadState(env, s), s, r)
    case Idle => true
    case Refused => false
    case Proceed(plan) =>
      S.Contents(env, r, plan).Ok? && S.SyncedConfig(env, s, r, plan, S.Contents(env, r, plan).value).Ok?
  }

  lemma CalmSync(env: Env, s: Store, r: S.SyncRequest, faults: Faults)
    requires Faithful(env) && Calm(faults)
    ensures S.SyncProfile(env, Start(s), r, faults).exec.ok <==> SyncReady(env, s, r)
  {
    hide Faithful, S.Decide, S.Contents, S.SyncedConfig, S.WriteSynced, LoadState, S.Followed, S.PointsToManaged;
    S.IdleWithoutState(env, s, r);
    var seen := LoadState(env, s);
    var decision := S.Decide(env, seen, s, r);
    if seen.Some? && decision.Proceed? && SyncReady(env, s, r) {
      S.PlanView(env, seen.value, s, r);
      var content := S.Contents(env, r, decision.plan).value;
      var patched := Check(Check(Check(Read(Start(s)), true, faults), true, faults), true, faults);
      S.WriteSyncedView(env, patched, decision.plan, content, S.SyncedConfig(env, s, r, decision.plan, content).value,
                        faults);
    }
  }

  lemma CalmSelection(env: Env, s: Store, r: A.ModelsRequest, faults: Faults)
    requires Faithful(env) && Calm(faults)
    ensures A.ApplyModels(env, Start(s), r, faults).exec.ok <==> A.Ready(env, s, r).Ok?
  {
    hide Faithful, LoadState, LoadBackups, A.Ready, A.ApplyModels, SelectionBody, SelectionPlan, A.WayBack, ConfigDoc;
    hide StateWritten;
    CommitsView(env, s, r, faults);
    ReadyIsOurs(env, s, r);
    if A.Ready(env, s, r).Ok? {
      SelectionView(env, s, A.Ready(env, s, r).value, faults);
    }
  }

  /** When nothing fails, an operation succeeds exactly when its request is acceptable. */
  lemma CalmOperationSucceeds(env: Env, s: Store, op: Op, faults: Faults)
    requires Faithful(env) && Calm(faults)
    ensures Perform(env, s, op, faults).ok <==> Accepts(env, s, op)
  {
    hide Faithful, LoadState, LoadBackups, EnsureBackup, Accepted, GatewayMigrated, Switch, Planned, StateWritten;
    hide DirectConfig, AggregateTodo, GatewayTodo, SyncReady, A.Ready;
    match op
    case Direct(r) =>
      hide PlanDirect;
      DirectPlanned(env, s, r, faults);
      SwitchView(env, s, PlanDirect(env, Start(s), r, faults), Accepted(Start(s), r.profile, r.valid, faults),
                 r.profile, r.now, faults);
    case Aggregate(r) =>
      hide PlanAggregate;
      AggregatePlanned(env, s, r, faults);
      SwitchView(env, s, PlanAggregate(env, Start(s), r, faults), Accepted(Start(s), r.profile, r.valid, faults),
                 r.profile, r.now, faults);
    case Gateway(r) =>
      hide PlanGateway;
      GatewayPlanned(env, s, r, faults);
      SwitchView(env, s, PlanGateway(env, Start(s), r, faults), GatewayMigrated(env, Start(s), r, faults), r.profile,
                 r.now, faults);
    case Models(r) => hide A.ApplyModels; CalmSelection(env, s, r, faults);
    case Sync(r) => hide S.SyncProfile; CalmSync(env, s, r, faults);
    case Restore(p) => hide RestoreProfile; RestoreView(env, s, p, faults);
    case Edit(_, _, _) =>
  }
}
