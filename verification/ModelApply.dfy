/**
 Applying a model selection to a profile: seven stored values change together or not at all, as long
 as the old ones could be read.

 The commit records the values at entry, writes the new ones in order, and on any failure writes the
 old ones back, attempting every one of them whatever fails on the way.
 */
module ModelApply {
  import opened Wrappers
  import opened Text
  import opened ProfileStore
  import C = CodexConfig
  import M = ModelSelection

  // ----- the state to save -----

  function DetectMode(env: Env, auth: Option<string>, config: Option<string>): Mode {
    var doc := if config.Some? then env.parseToml(config.value) else None;
    if doc.Some? && C.DetectGateway(env.isService, doc.value).Some? then Gateway
    else if doc.Some? && C.IsAggregate(doc.value) then DirectAggregate
    else if auth.Some? && env.authIsGateway(auth.value) then Gateway
    else if auth.None? && config.None? then Missing
    else if auth.Some? && env.authHasTokens(auth.value) then DirectAccount
    else Unmanaged
  }

  /**
   What the commit sees when it looks for the state to save. Each of the four reads has its own
   entry of the fault plan and is silent when it fails.
   */
  datatype Seen = Seen(state: Option<State>, marker: Option<Marker>, auth: Option<string>, config: Option<string>)

  function LookAround(env: Env, e: Exec, p: Profile, faults: Faults): Seen {
    Seen(SeenState(env, e, faults),
         if faults(e.io + 1) then None else ReadMarker(env, e.store, p),
         if faults(e.io + 2) then None else FileOf(e.store, p, Auth),
         if faults(e.io + 3) then None else FileOf(e.store, p, Config))
  }

  /** For a profile nobody has switched yet: what its files look like, and the user's own pointer. */
  function DetectedState(env: Env, seen: Seen, p: Profile, doc: C.Doc, now: int): State {
    var gateway := C.DetectGateway(env.isService, doc);
    var mode := DetectMode(env, seen.auth, seen.config);
    State(p, if mode.Missing? then Unmanaged else mode, None, None, None,
          if gateway.Some? then Some(gateway.value.baseUrl) else None, None,
          if gateway.Some? then Some(gateway.value.websockets) else None,
          if gateway.Some? then gateway.value.providerId
          else Normalize(C.StringOf(doc, "model_provider")).GetOr(C.PROVIDER),
          if C.PointsTo(env.norm, doc, env.managedPath(p)) then None else C.StringOf(doc, C.CATALOG_KEY), [], now)
  }

  function StateOf(marker: Marker, p: Profile): State {
    State(p, marker.mode, marker.accountId, marker.apiKeyId, marker.aggregateId, marker.gatewayBaseUrl,
          marker.aggregateBaseUrl,
          marker.websockets, marker.providerId, None, marker.slugs, marker.updatedAt)
  }

  function StateForModels(env: Env, seen: Seen, p: Profile, config: Option<string>, now: int): Result<State> {
    if seen.state.Some? && seen.state.value.profile == p then Ok(seen.state.value)
    else if seen.marker.Some? then Ok(StateOf(seen.marker.value, p))
    else
      match ConfigDoc(env, config)
      case Some(doc) => Ok(DetectedState(env, seen, p, doc, now))
      case None => Err
  }

  // ----- the commit -----

  /** What the earlier phases prepared; `rootExisted` says whether the managed directory was there. */
  datatype Prepared = Prepared(profile: Profile, current: Option<string>, config: string, models: seq<M.Model>,
                               now: int,
                               rootExisted: bool)

  function NewState(env: Env, seen: Seen, r: Prepared): Result<State> {
    match StateForModels(env, seen, r.profile, r.current, r.now)
    case Ok(st) => Ok(st.(slugs := M.Slugs(r.models), updatedAt := r.now))
    case Err => Err
  }

  function Backed(env: Env, e: Exec, r: Prepared, faults: Faults): Exec {
    EnsureBackup(env, MigrateMarker(e, r.profile, faults), r.profile, r.now, faults)
  }

  function PlanModels(env: Env, e: Exec, r: Prepared, faults: Faults): Plan {
    var backed := Backed(env, e, r, faults);
    var st := NewState(env, LookAround(env, backed, r.profile, faults), r);
    var looked := if backed.ok then backed.(io := backed.io + 4) else backed;
    var stated := Check(looked, st.Ok?, faults);
    Plan(stated, if stated.ok && st.Ok? then Some(Todo(Catalog, Some(env.renderCatalog(r.models)), r.config, st.value))
         else None)
  }

  function WriteNewValues(env: Env, e: Exec, r: Prepared, faults: Faults): Exec {
    Switch(env, PlanModels(env, e, r, faults), r.profile, faults)
  }

  /** The way back: how many of the writes failed. */
  datatype Undo = Undo(store: Store, io: nat, errors: nat)

  function Attempt(u: Undo, w: Write, faults: Faults): Undo {
    if faults(u.io) then Undo(u.store, u.io + 1, u.errors + 1) else Undo(Written(u.store, w), u.io + 1, u.errors)
  }

  function AttemptAll(u: Undo, writes: seq<Write>, faults: Faults): Undo {
    if writes == [] then u else Attempt(AttemptAll(u, writes[..|writes| - 1], faults), writes[|writes| - 1], faults)
  }

  /** The old values in the order they are written back: settings as raw text, files as they were. */
  function OldValues(s: Store, p: Profile): seq<Write> {
    [Save(HomeRow, Raw(s, HomeRow)),
     Save(StateRow, Raw(s, StateRow)),
     File(p, MarkerFile, FileOf(s, p, MarkerFile)),
     File(p, LegacyMarker, FileOf(s, p, LegacyMarker)),
     File(p, Config, FileOf(s, p, Config)),
     File(p, Catalog, FileOf(s, p, Catalog)),
     Save(BackupsRow, Raw(s, BackupsRow))]
  }

  /** A managed directory that the commit created is removed again; that may fail too. */
  function WayBack(u: Undo, s: Store, p: Profile, rootExisted: bool, faults: Faults): Undo {
    var undone := AttemptAll(u, OldValues(s, p), faults);
    if rootExisted then undone
    else Undo(undone.store, undone.io + 1, undone.errors + (if faults(undone.io) then 1 else 0))
  }

  /** The outcome of a commit: `errors` counts failed compensations. */
  datatype Commit = Commit(exec: Exec, errors: nat)

  /** The old values as captured: a settings table that cannot be read looks empty. */
  function Captured(e: Exec, faults: Faults): Store {
    if faults(e.io) then e.store.(rows := map[]) else e.store
  }

  function CommitModels(env: Env, e: Exec, r: Prepared, faults: Faults): Commit {
    var captured := Check(Read(e), true, faults);
    if !captured.ok then Commit(captured, 0)
    else
      var body := WriteNewValues(env, captured, r, faults);
      if body.ok then Commit(body, 0)
      else
        var undone := WayBack(Undo(body.store, body.io, 0), Captured(e, faults), r.profile, r.rootExisted, faults);
        Commit(Exec(undone.store, undone.io, false), undone.errors)
  }

  datatype ModelsRequest = ModelsRequest(profile: Profile, valid: bool, selection: seq<string>, models: seq<M.Model>,
                                         now: int,
                                         rootExisted: bool)

  /** What is ready to be committed: patching the document and choosing the models write nothing. */
  function Ready(env: Env, s: Store, r: ModelsRequest): Result<Prepared> {
    var current := FileOf(s, r.profile, Config);
    match ConfigDoc(env, current)
    case None => Err
    case Some(doc) =>
      match M.Selected(r.models, r.selection)
      case Err => Err
      case Ok(models) =>
        var config := env.renderToml(C.PatchForManagedCatalog(doc, env.managedPath(r.profile)));
        if r.valid then Ok(Prepared(r.profile, current, config, models, r.now, r.rootExisted)) else Err
  }

  function ApplyModels(env: Env, e: Exec, r: ModelsRequest, faults: Faults): Commit {
    var prepared := Ready(env, e.store, r);
    var ready := Check(e, prepared.Ok?, faults);
    if !ready.ok || prepared.Err? then Commit(ready, 0) else CommitModels(env, ready, prepared.value, faults)
  }

  // ----- stored values one by one -----

  datatype Target = FileAt(profile: Profile, slot: Slot) | SettingAt(row: Row)

  function ValueAt(s: Store, t: Target): Option<string> {
    match t
    case FileAt(p, slot) => FileOf(s, p, slot)
    case SettingAt(row) => Raw(s, row)
  }

  function TargetOf(w: Write): Target {
    match w
    case File(p, slot, _) => FileAt(p, slot)
    case Save(row, _) => SettingAt(row)
  }

  function ValueOf(w: Write): Option<string> {
    match w
    case File(_, _, content) => content
    case Save(_, value) => Some(Normalize(value).GetOr(""))
  }

  lemma WrittenView(s: Store, w: Write, t: Target)
    ensures ValueAt(Written(s, w), t) == if t == TargetOf(w) then ValueOf(w) else ValueAt(s, t)
  {
    hide Normalize;
  }

  /** The values a selection may change. */
  predicate Owned(t: Target, p: Profile) {
    match t
    case FileAt(q, slot) => q == p && !slot.Auth?
    case SettingAt(_) => true
  }

  ghost predicate OnlyOwned(a: Store, b: Store, p: Profile) {
    forall t :: !Owned(t, p) ==> ValueAt(a, t) == ValueAt(b, t)
  }

  lemma MustOwned(e: Exec, w: Write, p: Profile, faults: Faults)
    requires Owned(TargetOf(w), p)
    ensures OnlyOwned(e.store, Must(e, w, faults).store, p) && OnlyOwned(e.store, Quietly(e, w, faults).store, p)
  {
    hide ValueAt, Written;
    forall t | !Owned(t, p) ensures ValueAt(Must(e, w, faults).store, t) == ValueAt(e.store, t)
                            ensures ValueAt(Quietly(e, w, faults).store, t) == ValueAt(e.store, t) {
      WrittenView(e.store, w, t);
    }
  }

  lemma MigrateOwned(e: Exec, p: Profile, faults: Faults)
    ensures OnlyOwned(e.store, MigrateMarker(e, p, faults).store, p)
  {
    hide Must, ValueAt;
    var copy := File(p, MarkerFile, FileOf(e.store, p, LegacyMarker));
    MustOwned(e, copy, p, faults);
    MustOwned(e, File(p, LegacyMarker, None), p, faults);
    MustOwned(Must(e, copy, faults), File(p, LegacyMarker, None), p, faults);
  }

  lemma BackupOwned(env: Env, e: Exec, p: Profile, now: int, faults: Faults)
    ensures OnlyOwned(e.store, EnsureBackup(env, e, p, now, faults).store, p)
  {
    hide Must, ValueAt, LoadBackups;
    var backups := SeenBackups(env, e, faults)[p := EntryOf(e.store, p, now)];
    MustOwned(Check(Read(e), true, faults), Save(BackupsRow, Some(env.renderBackups(backups))), p, faults);
  }

  lemma StateOwned(env: Env, e: Exec, p: Profile, st: State, faults: Faults)
    ensures OnlyOwned(e.store, WriteManagedState(env, e, p, st, faults).store, p)
  {
    hide Must, Quietly, ValueAt;
    var marked := Must(e, File(p, MarkerFile, Some(env.renderMarker(MarkerOf(st)))), faults);
    MustOwned(e, File(p, MarkerFile, Some(env.renderMarker(MarkerOf(st)))), p, faults);
    MustOwned(marked, File(p, LegacyMarker, None), p, faults);
    MustOwned(Quietly(marked, File(p, LegacyMarker, None), faults), Save(StateRow, Some(env.renderState(st))), p,
              faults);
  }

  lemma FinishOwned(e: Exec, p: Profile, faults: Faults)
    ensures OnlyOwned(e.store, Finish(e, p, faults).store, p)
  {
    hide Must, ValueAt, MigrateMarker;
    MustOwned(e, Save(HomeRow, Some(p)), p, faults);
    MigrateOwned(Must(e, Save(HomeRow, Some(p)), faults), p, faults);
  }

  lemma CarryOwned(env: Env, e: Exec, p: Profile, t: Todo, faults: Faults)
    requires t.slot.Catalog?
    ensures OnlyOwned(e.store, Carry(env, e, p, t, faults).store, p)
  {
    hide Must, ValueAt, WriteManagedState, Finish;
    var listed := Must(e, File(p, t.slot, t.content), faults);
    MustOwned(e, File(p, t.slot, t.content), p, faults);
    var configured := Must(listed, File(p, Config, Some(t.config)), faults);
    MustOwned(listed, File(p, Config, Some(t.config)), p, faults);
    StateOwned(env, configured, p, t.st, faults);
    FinishOwned(WriteManagedState(env, configured, p, t.st, faults), p, faults);
  }

  lemma NewValuesOwned(env: Env, e: Exec, r: Prepared, faults: Faults)
    ensures OnlyOwned(e.store, WriteNewValues(env, e, r, faults).store, r.profile)
  {
    hide Must, ValueAt, MigrateMarker, EnsureBackup, NewState, Carry, LookAround;
    MigrateOwned(e, r.profile, faults);
    var migrated := MigrateMarker(e, r.profile, faults);
    BackupOwned(env, migrated, r.profile, r.now, faults);
    var plan := PlanModels(env, e, r, faults);
    if plan.todo.Some? {
      CarryOwned(env, plan.exec, r.profile, plan.todo.value, faults);
    }
  }

  // ----- writing back -----

  ghost predicate Distinct(writes: seq<Write>) {
    forall i, j :: 0 <= i < j < |writes| ==> TargetOf(writes[i]) != TargetOf(writes[j])
  }

  ghost predicate Covers(writes: seq<Write>, t: Target) {
    exists w :: w in writes && TargetOf(w) == t
  }

  ghost predicate NoFault(faults: Faults, from: nat, to: nat) {
    forall k :: from <= k < to ==> !faults(k)
  }

  lemma AttemptView(u: Undo, w: Write, faults: Faults, t: Target)
    ensures ValueAt(Attempt(u, w, faults).store, t)
         == if !faults(u.io) && t == TargetOf(w) then ValueOf(w) else ValueAt(u.store, t)
  {
    hide ValueAt, Written, ValueOf, TargetOf;
    WrittenView(u.store, w, t);
  }

  /** What no write names is left alone. */
  lemma {:induction false} Untouched(u: Undo, writes: seq<Write>, faults: Faults, t: Target)
    requires !Covers(writes, t)
    ensures ValueAt(AttemptAll(u, writes, faults).store, t) == ValueAt(u.store, t)
  {
    hide ValueAt, Attempt, TargetOf;
    if writes != [] {
      var before, last := writes[..|writes| - 1], writes[|writes| - 1];
      assert last in writes && forall w :: w in before ==> w in writes;
      Untouched(u, before, faults, t);
      AttemptView(AttemptAll(u, before, faults), last, faults, t);
    }
  }

  /** A write that does not fail takes effect. */
  lemma {:induction false} TakesEffect(u: Undo, writes: seq<Write>, faults: Faults, i: nat)
    requires Distinct(writes) && i < |writes| && !faults(u.io + i)
    ensures ValueAt(AttemptAll(u, writes, faults).store, TargetOf(writes[i])) == ValueOf(writes[i])
  {
    hide ValueAt, Attempt, TargetOf, ValueOf;
    var before, last := writes[..|writes| - 1], writes[|writes| - 1];
    AttemptAllErrors(u, before, faults);
    AttemptView(AttemptAll(u, before, faults), last, faults, TargetOf(writes[i]));
    if i < |before| {
      TakesEffect(u, before, faults, i);
    }
  }

  /** A write that fails leaves its value as it was before all of them. */
  lemma {:induction false} FailureKeeps(u: Undo, writes: seq<Write>, faults: Faults, i: nat)
    requires Distinct(writes) && i < |writes| && faults(u.io + i)
    ensures ValueAt(AttemptAll(u, writes, faults).store, TargetOf(writes[i])) == ValueAt(u.store, TargetOf(writes[i]))
  {
    hide ValueAt, Attempt, TargetOf, ValueOf;
    var before, last := writes[..|writes| - 1], writes[|writes| - 1];
    AttemptAllErrors(u, before, faults);
    AttemptView(AttemptAll(u, before, faults), last, faults, TargetOf(writes[i]));
    if i < |before| {
      FailureKeeps(u, before, faults, i);
    } else {
      Untouched(u, before, faults, TargetOf(last));
    }
  }

  lemma {:induction false} AttemptAllErrors(u: Undo, writes: seq<Write>, faults: Faults)
    ensures AttemptAll(u, writes, faults).io == u.io + |writes| && AttemptAll(u, writes, faults).errors >= u.errors
    ensures AttemptAll(u, writes, faults).errors == u.errors <==> NoFault(faults, u.io, u.io + |writes|)
  {
    if writes != [] {
      AttemptAllErrors(u, writes[..|writes| - 1], faults);
    }
  }

  /** No collected error means that none of the compensations failed, the removal of the directory included. */
  lemma NoErrorNoFault(u: Undo, s: Store, p: Profile, rootExisted: bool, faults: Faults)
    ensures WayBack(u, s, p, rootExisted, faults).errors == u.errors
            <==> NoFault(faults, u.io, u.io + 7) && (rootExisted || !faults(u.io + 7))
    ensures WayBack(u, s, p, rootExisted, faults).store == AttemptAll(u, OldValues(s, p), faults).store
  {
    hide *;
    SevenValues(s, p);
    AttemptAllErrors(u, OldValues(s, p), faults);
    WayBackView(u, s, p, rootExisted, faults);
  }

  lemma WayBackView(u: Undo, s: Store, p: Profile, rootExisted: bool, faults: Faults)
    ensures var undone, x := AttemptAll(u, OldValues(s, p), faults), WayBack(u, s, p, rootExisted, faults);
            && x.store == undone.store
            && x.errors == undone.errors + (if !rootExisted && faults(undone.io) then 1 else 0)
  {
    hide AttemptAll, OldValues;
  }

  // ----- all or nothing -----

  lemma OldValuesDistinct(s: Store, p: Profile)
    ensures Distinct(OldValues(s, p))
    ensures forall t :: Covers(OldValues(s, p), t) <==> Owned(t, p)
  {
    var w := OldValues(s, p);
    forall t | Owned(t, p) ensures Covers(w, t) {
      match t
      case SettingAt(HomeRow) => assert w[0] in w && TargetOf(w[0]) == t;
      case SettingAt(StateRow) => assert w[1] in w && TargetOf(w[1]) == t;
      case FileAt(_, MarkerFile) => assert w[2] in w && TargetOf(w[2]) == t;
      case FileAt(_, LegacyMarker) => assert w[3] in w && TargetOf(w[3]) == t;
      case FileAt(_, Config) => assert w[4] in w && TargetOf(w[4]) == t;
      case FileAt(_, Catalog) => assert w[5] in w && TargetOf(w[5]) == t;
      case SettingAt(BackupsRow) => assert w[6] in w && TargetOf(w[6]) == t;
    }
  }

  /** What a setting row holds once its old raw text has been saved back. */
  function Resaved(raw: Option<string>): Option<string> {
    Some(Normalize(raw).GetOr(""))
  }

  /** Both rows read the same; the row itself is the same exactly if it was present and trimmed. */
  lemma ResavedReadsSame(raw: Option<string>)
    ensures Normalize(Resaved(raw)) == Normalize(raw)
    ensures Resaved(raw) == raw <==> raw.Some? && Trim(raw.value) == raw.value
  {
  }

  /** An absent row comes back as an empty one. */
  lemma AbsentRowBecomesEmpty(s: Store, row: Row)
    requires Raw(s, row).None?
    ensures Raw(Written(s, Save(row, Raw(s, row))), row) == Some("")
            && Setting(Written(s, Save(row, Raw(s, row))), row).None?
  {
  }

  /** All seven values as at entry; settings as they read. */
  ghost predicate AsBefore(a: Store, b: Store, p: Profile) {
    && (forall slot :: FileOf(a, p, slot) == FileOf(b, p, slot))
    && (forall row :: Setting(a, row) == Setting(b, row))
    && OnlyOwned(a, b, p)
  }

  lemma OldValuesView(s: Store, p: Profile, i: nat)
    requires i < 7
    ensures var w := OldValues(s, p)[i];
            ValueOf(w) == (if TargetOf(w).SettingAt? then Resaved(ValueAt(s, TargetOf(w))) else ValueAt(s, TargetOf(w)))
  {
  }

  /** Write-backs that all succeed leave every value as it was, up to the re-saving of settings. */
  lemma WrittenBack(u: Undo, s: Store, p: Profile, faults: Faults, t: Target)
    requires OnlyOwned(s, u.store, p) && NoFault(faults, u.io, u.io + 7)
    ensures ValueAt(AttemptAll(u, OldValues(s, p), faults).store, t)
         == if t.SettingAt? then Resaved(ValueAt(s, t)) else ValueAt(s, t)
  {
    hide ValueAt, ValueOf, TargetOf, AttemptAll, Resaved;
    var w := OldValues(s, p);
    OldValuesDistinct(s, p);
    if Owned(t, p) {
      var x :| x in w && TargetOf(x) == t;
      var i :| 0 <= i < |w| && w[i] == x;
      OldValuesView(s, p, i);
      TakesEffect(u, w, faults, i);
    } else {
      Untouched(u, w, faults, t);
    }
  }

  /** A single write-back that succeeds restores its value whatever the others do. */
  lemma EachWrittenBack(u: Undo, s: Store, p: Profile, faults: Faults, i: nat)
    requires i < 7 && !faults(u.io + i)
    ensures var w := OldValues(s, p)[i];
            ValueAt(AttemptAll(u, OldValues(s, p), faults).store, TargetOf(w))
            == (if TargetOf(w).SettingAt? then Resaved(ValueAt(s, TargetOf(w))) else ValueAt(s, TargetOf(w)))
  {
    hide ValueAt, ValueOf, TargetOf, AttemptAll, Resaved;
    OldValuesDistinct(s, p);
    TakesEffect(u, OldValues(s, p), faults, i);
    OldValuesView(s, p, i);
  }

  lemma RestoredValues(env: Env, e: Exec, r: Prepared, faults: Faults, t: Target)
    requires e.ok && !faults(e.io + 1) && !CommitModels(env, e, r, faults).exec.ok
    requires CommitModels(env, e, r, faults).errors == 0
    ensures ValueAt(CommitModels(env, e, r, faults).exec.store, t)
         == if t.SettingAt? then Resaved(ValueAt(Captured(e, faults), t)) else ValueAt(e.store, t)
  {
    hide WriteNewValues, WayBack, ValueAt, Resaved;
    var captured := Check(Read(e), true, faults);
    var body := WriteNewValues(env, captured, r, faults);
    NewValuesOwned(env, captured, r, faults);
    var u := Undo(body.store, body.io, 0);
    NoErrorNoFault(u, Captured(e, faults), r.profile, r.rootExisted, faults);
    CapturedFiles(e, faults);
    WrittenBack(u, Captured(e, faults), r.profile, faults, t);
  }

  lemma CapturedFiles(e: Exec, faults: Faults)
    ensures forall p: Profile, slot: Slot ::
            ValueAt(Captured(e, faults), FileAt(p, slot)) == ValueAt(e.store, FileAt(p, slot))
    ensures faults(e.io) ==> forall row :: ValueAt(Captured(e, faults), SettingAt(row)) == None
    ensures !faults(e.io) ==> Captured(e, faults) == e.store
  {
  }

  /**
   A commit that fails at any step, and whose write-backs all succeed, leaves every file exactly as
   it was. The settings read as they did exactly if the table could be read when the old values
   were captured, or if there was nothing in it.
   */
  lemma FailedCommitRestores(env: Env, e: Exec, r: Prepared, faults: Faults)
    requires e.ok
    ensures var x := CommitModels(env, e, r, faults);
            !x.exec.ok && x.errors == 0 ==>
              && (forall p: Profile, slot: Slot :: FileOf(x.exec.store, p, slot) == FileOf(e.store, p, slot))
              && (AsBefore(e.store, x.exec.store, r.profile)
                  <==> !faults(e.io) || faults(e.io + 1) || (forall row :: Setting(e.store, row).None?))
  {
    hide WriteNewValues, WayBack, Normalize;
    var x := CommitModels(env, e, r, faults);
    if !x.exec.ok && x.errors == 0 && !faults(e.io + 1) {
      forall p: Profile, slot: Slot
        ensures FileOf(x.exec.store, p, slot) == FileOf(e.store, p, slot)
      {
        RestoredValues(env, e, r, faults, FileAt(p, slot));
      }
      forall row
        ensures Setting(x.exec.store, row) == if faults(e.io) then None else Setting(e.store, row)
      {
        RestoredValues(env, e, r, faults, SettingAt(row));
        CapturedFiles(e, faults);
        ResavedReadsSame(Raw(Captured(e, faults), row));
        NothingReadsAsNothing();
      }
      SettingsDecide(e.store, x.exec.store, r.profile, faults(e.io));
    }
  }

  lemma NothingReadsAsNothing()
    ensures Normalize(None) == None
  {
  }

  lemma SettingsDecide(a: Store, b: Store, p: Profile, blank: bool)
    requires forall q: Profile, slot: Slot :: FileOf(b, q, slot) == FileOf(a, q, slot)
    requires forall row :: Setting(b, row) == if blank then None else Setting(a, row)
    ensures AsBefore(a, b, p) <==> !blank || (forall row :: Setting(a, row).None?)
  {
    hide Setting, FileOf, Raw;
    forall t | !Owned(t, p) ensures ValueAt(a, t) == ValueAt(b, t) {
      match t
      case FileAt(q, slot) => assert FileOf(b, q, slot) == FileOf(a, q, slot);
    }
  }

  /** The rows themselves are then unchanged exactly when they were present and trimmed. */
  lemma FailedCommitRows(env: Env, e: Exec, r: Prepared, faults: Faults, row: Row)
    requires e.ok && !faults(e.io) && !faults(e.io + 1)
    ensures var x := CommitModels(env, e, r, faults);
            !x.exec.ok && x.errors == 0 ==>
              (Raw(x.exec.store, row) == Raw(e.store, row)
               <==> Raw(e.store, row).Some? && Trim(Raw(e.store, row).value) == Raw(e.store, row).value)
  {
    hide CommitModels, Trim, Normalize;
    var x := CommitModels(env, e, r, faults);
    if !x.exec.ok && x.errors == 0 {
      RestoredValues(env, e, r, faults, SettingAt(row));
      CapturedFiles(e, faults);
      ResavedReadsSame(Raw(e.store, row));
    }
  }

  lemma SevenValues(s: Store, p: Profile)
    ensures |OldValues(s, p)| == 7
  {
  }

  ghost predicate HoldsNew(env: Env, s: Store, r: Prepared, st: State) {
    && FileOf(s, r.profile, Catalog) == Some(env.renderCatalog(r.models))
    && FileOf(s, r.profile, Config) == Some(r.config)
    && LoadState(env, s) == Some(st)
    && FileOf(s, r.profile, MarkerFile) == Some(env.renderMarker(MarkerOf(st)))
    && Setting(s, HomeRow) == Normalize(Some(r.profile))
  }

  lemma CarriedView(env: Env, e: Exec, r: Prepared, st: State, faults: Faults)
    requires Faithful(env)
    ensures var x := Carry(env, e, r.profile, Todo(Catalog, Some(env.renderCatalog(r.models)), r.config, st), faults);
            x.ok ==>
              && e.ok && HoldsNew(env, x.store, r, st)
              && (Calm(faults) ==> FileOf(x.store, r.profile, LegacyMarker).None?)
  {
    hide Normalize, LoadState, WriteManagedState, Finish, Faithful, Configured;
    var p, t := r.profile, Todo(Catalog, Some(env.renderCatalog(r.models)), r.config, st);
    var configured := Configured(e, p, t, faults);
    ConfiguredView(e, p, t, faults);
    var managed := WriteManagedState(env, configured, p, st, faults);
    ManagedStateView(env, configured, p, st, faults);
    var finished := Finish(managed, p, faults);
    FinishView(managed, p, faults);
    SameState(env, managed.store, finished.store);
  }

  /**
   A commit that succeeds has written all its new values; an earlier backup survives unless a blind
   save went through.
   */
  lemma CommittedModels(env: Env, e: Exec, r: Prepared, faults: Faults)
    requires Faithful(env)
    ensures var x := CommitModels(env, e, r, faults);
            x.exec.ok ==>
              var after, st := x.exec.store, LoadState(env, x.exec.store);
              && st.Some? && HoldsNew(env, after, r, st.value)
              && st.value.profile == r.profile && st.value.slugs == M.Slugs(r.models)
              && FileOf(after, r.profile, Auth) == FileOf(e.store, r.profile, Auth)
              && r.profile in LoadBackups(env, after)
              && (Calm(faults) ==> FileOf(after, r.profile, LegacyMarker).None?)
  {
    var captured := Check(Read(e), true, faults);
    hide MigrateMarker, EnsureBackup, NewState, Normalize, LoadState, LoadBackups, Carry, HoldsNew, Faithful;
    hide LookAround;
    if CommitModels(env, e, r, faults).exec.ok {
      var plan, p := PlanModels(env, captured, r, faults), r.profile;
      var backed := Backed(env, captured, r, faults);
      EnsureBackupView(env, MigrateMarker(captured, p, faults), p, r.now, faults);
      NewStateIsOurs(env, LookAround(env, backed, p, faults), r);
      CarriedView(env, plan.exec, r, plan.todo.value.st, faults);
      CarryView(env, plan.exec, p, plan.todo.value, faults);
      var after := Carry(env, plan.exec, p, plan.todo.value, faults).store;
      SameBackupRow(env, backed.store, after);
      LoadsNew(env, after, r, plan.todo.value.st);
      KeepsAuth(env, captured, r, faults);
    }
  }

  lemma KeepsAuth(env: Env, e: Exec, r: Prepared, faults: Faults)
    ensures FileOf(WriteNewValues(env, e, r, faults).store, r.profile, Auth) == FileOf(e.store, r.profile, Auth)
  {
    hide WriteNewValues;
    NewValuesOwned(env, e, r, faults);
    assert !Owned(FileAt(r.profile, Auth), r.profile);
    assert ValueAt(e.store, FileAt(r.profile, Auth))
        == ValueAt(WriteNewValues(env, e, r, faults).store, FileAt(r.profile, Auth));
  }

  lemma LoadsNew(env: Env, s: Store, r: Prepared, st: State)
    requires HoldsNew(env, s, r, st)
    ensures LoadState(env, s) == Some(st)
  {
  }

  lemma NewStateIsOurs(env: Env, seen: Seen, r: Prepared)
    ensures NewState(env, seen, r).Ok? ==>
              NewState(env, seen, r).value.profile == r.profile
                && NewState(env, seen, r).value.slugs == M.Slugs(r.models)
  {
  }

  /** A document that parses always yields a state to save. */
  lemma NewStateIsFound(env: Env, seen: Seen, r: Prepared)
    ensures ConfigDoc(env, r.current).Some? ==> NewState(env, seen, r).Ok?
  {
    hide DetectedState;
  }
}
