/**
 What the Codex profile manager keeps: five files per profile and three application settings.

 Text formats are handled by codecs given as parameters. Every file operation, every setting write
 and every setting read consumes one entry of a fault plan. A failed setting read does not end an
 operation: the source takes it for an absent setting.
 */
module ProfileStore {
  import opened Wrappers
  import opened Text
  import C = CodexConfig
  import M = ModelSelection

  type Profile = string

  datatype Mode = Missing | Unmanaged | DirectAccount | DirectAggregate | Gateway | ManagedUnknown

  /** What the manager remembers about the one profile it last switched. */
  datatype State = State(
    profile: Profile,
    mode: Mode,
    accountId: Option<string>,
    apiKeyId: Option<string>,
    aggregateId: Option<string>,
    gatewayBaseUrl: Option<string>,
    aggregateBaseUrl: Option<string>,
    websockets: Option<bool>,
    providerId: string,
    previous: Option<string>,        // the user's own model_catalog_json
    slugs: seq<string>,
    updatedAt: int
  )

  /** The marker file repeats the state, without the profile and the remembered pointer. */
  datatype Marker = Marker(
    mode: Mode,
    accountId: Option<string>,
    apiKeyId: Option<string>,
    aggregateId: Option<string>,
    gatewayBaseUrl: Option<string>,
    aggregateBaseUrl: Option<string>,
    websockets: Option<bool>,
    providerId: string,
    slugs: seq<string>,
    updatedAt: int
  )

  datatype BackupEntry = BackupEntry(auth: Option<string>, config: Option<string>, createdAt: int)
  type Backups = map<Profile, BackupEntry>

  datatype Slot = Auth | Config | Catalog | MarkerFile | LegacyMarker
  datatype Row = StateRow | BackupsRow | HomeRow
  datatype Store = Store(rows: map<Row, string>, files: map<(Profile, Slot), string>)

  /** The codecs, path normalisation and what the detection of a mode needs besides the document. */
  datatype Env = Env(
    parseToml: string -> Option<C.Doc>,
    renderToml: C.Doc -> string,
    parseState: string -> Option<State>,
    renderState: State -> string,
    parseMarker: string -> Option<Marker>,
    renderMarker: Marker -> string,
    parseBackups: string -> Option<Backups>,
    renderBackups: Backups -> string,
    renderCatalog: seq<M.Model> -> string,
    norm: string -> string,
    managedPath: Profile -> string,
    isService: string -> bool,
    authIsGateway: string -> bool,
    authHasTokens: string -> bool
  )

  /** Serialised settings survive the trimming of setting values. */
  predicate Trimmed(text: string) {
    Normalize(Some(text)) == Some(text)
  }

  /**
   What is written reads back. Such codecs exist: each of the four types has countably many values,
   so they can be numbered and each written as its number in digits, with "" left for the empty document.
   */
  ghost predicate Faithful(env: Env) {
    && (forall doc :: env.parseToml(env.renderToml(doc)) == Some(doc))
    && env.parseToml("") == Some(map[])
    && (forall st :: env.parseState(env.renderState(st)) == Some(st) && Trimmed(env.renderState(st)))
    && (forall m :: env.parseMarker(env.renderMarker(m)) == Some(m))
    && (forall b :: env.parseBackups(env.renderBackups(b)) == Some(b) && Trimmed(env.renderBackups(b)))
  }

  // ----- reading -----

  function FileOf(s: Store, p: Profile, slot: Slot): Option<string> {
    if (p, slot) in s.files then Some(s.files[(p, slot)]) else None
  }

  function Raw(s: Store, row: Row): Option<string> {
    if row in s.rows then Some(s.rows[row]) else None
  }

  /** `get_persisted_app_setting`: trimmed, and blank text is no setting. */
  function Setting(s: Store, row: Row): Option<string> {
    Normalize(Raw(s, row))
  }

  function LoadState(env: Env, s: Store): Option<State> {
    match Setting(s, StateRow)
    case Some(text) => env.parseState(text)
    case None => None
  }

  function LoadBackups(env: Env, s: Store): Backups {
    match Setting(s, BackupsRow)
    case Some(text) => env.parseBackups(text).GetOr(map[])
    case None => map[]
  }

  function ReadMarker(env: Env, s: Store, p: Profile): Option<Marker> {
    match FileOf(s, p, MarkerFile)
    case Some(text) => env.parseMarker(text)
    case None => None
  }

  function ConfigDoc(env: Env, config: Option<string>): Option<C.Doc> {
    env.parseToml(config.GetOr(""))
  }

  // ----- writing -----

  datatype Write = File(profile: Profile, slot: Slot, content: Option<string>) | Save(row: Row, value: Option<string>)

  /** A setting is never deleted: absent text is saved as the empty string, other text is trimmed. */
  function Written(s: Store, w: Write): Store {
    match w
    case File(p, slot, Some(text)) => s.(files := s.files[(p, slot) := text])
    case File(p, slot, None) => s.(files := s.files - {(p, slot)})
    case Save(row, value) => s.(rows := s.rows[row := Normalize(value).GetOr("")])
  }

  /** The store in the middle of an operation, the number of steps so far, and whether all went well. */
  datatype Exec = Exec(store: Store, io: nat, ok: bool)

  type Faults = nat -> bool

  ghost predicate Calm(faults: Faults) {
    forall k :: !faults(k)
  }

  /** A step whose failure ends the operation. */
  function Must(e: Exec, w: Write, faults: Faults): Exec {
    if !e.ok then e
    else if faults(e.io) then Exec(e.store, e.io + 1, false)
    else Exec(Written(e.store, w), e.io + 1, true)
  }

  /** A step whose failure is ignored. */
  function Quietly(e: Exec, w: Write, faults: Faults): Exec {
    if !e.ok then e else Exec(if faults(e.io) then e.store else Written(e.store, w), e.io + 1, true)
  }

  /** Reading, validating or computing: fails without writing. */
  function Check(e: Exec, ok: bool, faults: Faults): Exec {
    if !e.ok then e else Exec(e.store, e.io + 1, ok && !faults(e.io))
  }

  /** Reading a setting; what is read is `SeenState` or `SeenBackups` of the same point. */
  function Read(e: Exec): Exec {
    if e.ok then e.(io := e.io + 1) else e
  }

  function SeenState(env: Env, e: Exec, faults: Faults): Option<State> {
    if faults(e.io) then None else LoadState(env, e.store)
  }

  function SeenBackups(env: Env, e: Exec, faults: Faults): Backups {
    if faults(e.io) then map[] else LoadBackups(env, e.store)
  }

  /** An operation whose failure is ignored by the one that calls it. */
  function Ignoring(before: Exec, after: Exec): Exec {
    if before.ok then after.(ok := true) else before
  }

  // ----- the parts of every operation -----

  /** The old marker inside the profile directory moves to the managed directory. */
  function MigrateMarker(e: Exec, p: Profile, faults: Faults): Exec {
    if !e.ok || FileOf(e.store, p, LegacyMarker).None? then e
    else
      var copied := if FileOf(e.store, p, MarkerFile).Some? then e
                    else Must(e, File(p, MarkerFile, FileOf(e.store, p, LegacyMarker)), faults);
      Must(copied, File(p, LegacyMarker, None), faults)
  }

  function EntryOf(s: Store, p: Profile, now: int): BackupEntry {
    BackupEntry(FileOf(s, p, Auth), FileOf(s, p, Config), now)
  }

  /** The first backup of a profile is kept until it is restored, as far as the backups can be read. */
  function EnsureBackup(env: Env, e: Exec, p: Profile, now: int, faults: Faults): Exec {
    if !e.ok then e
    else
      var seen, read := SeenBackups(env, e, faults), Read(e);
      if p in seen then read
      else
        var backups := seen[p := EntryOf(e.store, p, now)];
        Must(Check(read, true, faults), Save(BackupsRow, Some(env.renderBackups(backups))), faults)
  }

  function MarkerOf(st: State): Marker {
    Marker(st.mode, st.accountId, st.apiKeyId, st.aggregateId, st.gatewayBaseUrl, st.aggregateBaseUrl,
           st.websockets, st.providerId, st.slugs, st.updatedAt)
  }

  function WriteMarker(env: Env, e: Exec, p: Profile, st: State, faults: Faults): Exec {
    var marked := Must(e, File(p, MarkerFile, Some(env.renderMarker(MarkerOf(st)))), faults);
    Quietly(marked, File(p, LegacyMarker, None), faults)
  }

  function WriteManagedState(env: Env, e: Exec, p: Profile, st: State, faults: Faults): Exec {
    Must(WriteMarker(env, e, p, st, faults), Save(StateRow, Some(env.renderState(st))), faults)
  }

  /** Remembers the profile as the current one and computes the status, which migrates once more. */
  function Finish(e: Exec, p: Profile, faults: Faults): Exec {
    var saved := Must(e, Save(HomeRow, Some(p)), faults);
    Check(Ignoring(saved, MigrateMarker(saved, p, faults)), true, faults)
  }

  // ----- a switch: what it is about to write, and the writing -----

  /** One more file, the document, and the state to remember. */
  datatype Todo = Todo(slot: Slot, content: Option<string>, config: string, st: State)

  /** A switch up to its first write; without anything to do it has ended there. */
  datatype Plan = Plan(exec: Exec, todo: Option<Todo>)

  function Configured(e: Exec, p: Profile, t: Todo, faults: Faults): Exec {
    Must(Must(e, File(p, t.slot, t.content), faults), File(p, Config, Some(t.config)), faults)
  }

  function Recorded(env: Env, e: Exec, p: Profile, t: Todo, faults: Faults): Exec {
    WriteManagedState(env, Configured(e, p, t, faults), p, t.st, faults)
  }

  function Carry(env: Env, e: Exec, p: Profile, t: Todo, faults: Faults): Exec {
    Finish(Recorded(env, e, p, t, faults), p, faults)
  }

  function Switch(env: Env, plan: Plan, p: Profile, faults: Faults): Exec {
    if plan.todo.None? then plan.exec else Carry(env, plan.exec, p, plan.todo.value, faults)
  }

  /** Whether the switch got as far as writing the document. */
  predicate ConfigWritten(plan: Plan, p: Profile, faults: Faults) {
    plan.todo.Some? && Configured(plan.exec, p, plan.todo.value, faults).ok
  }

  /** Whether it got as far as saving the state. */
  predicate StateWritten(env: Env, plan: Plan, p: Profile, faults: Faults) {
    plan.todo.Some? && Recorded(env, plan.exec, p, plan.todo.value, faults).ok
  }

  // ----- remembering the user's pointer -----

  predicate Switched(st: State, p: Profile) {
    st.profile == p && (st.mode.Gateway? || st.mode.DirectAggregate?)
  }

  /** From the state while in a mode that changed the pointer, otherwise the pointer itself, if it is a string. */
  function PreviousPointer(env: Env, seen: Option<State>, config: Option<string>, p: Profile): Result<Option<string>> {
    if seen.Some? && Switched(seen.value, p) then Ok(seen.value.previous)
    else
      match ConfigDoc(env, config)
      case Some(doc) => Ok(C.StringOf(doc, C.CATALOG_KEY))
      case None => Err
  }

  // ----- switching to an account -----

  datatype DirectRequest = DirectRequest(profile: Profile, valid: bool, auth: string, accountId: string, now: int)

  function DirectConfig(env: Env, seen: Option<State>, config: Option<string>, p: Profile): Result<string> {
    match PreviousPointer(env, seen, config, p)
    case Err => Err
    case Ok(previous) =>
      match ConfigDoc(env, config)
      case None => Err
      case Some(doc) =>
        match C.PatchForDirect(doc, env.managedPath(p), previous)
        case Err => Err
        case Ok(patched) => Ok(env.renderToml(patched))
  }

  function DirectState(r: DirectRequest): State {
    State(r.profile, DirectAccount, Some(r.accountId), None, None, None, None, None, C.OPENAI, None, [], r.now)
  }

  /** The first phase of an account or aggregate switch: migration is best effort, the request must be in order. */
  function Accepted(e: Exec, p: Profile, valid: bool, faults: Faults): Exec {
    Check(Ignoring(e, MigrateMarker(e, p, faults)), valid, faults)
  }

  function PlanDirect(env: Env, e: Exec, r: DirectRequest, faults: Faults): Plan {
    var p := r.profile;
    var backed := EnsureBackup(env, Accepted(e, p, r.valid, faults), p, r.now, faults);
    var config := DirectConfig(env, SeenState(env, backed, faults), FileOf(backed.store, p, Config), p);
    var patched := Check(Read(backed), config.Ok?, faults);
    Plan(patched, if patched.ok && config.Ok? then Some(Todo(Auth, Some(r.auth), config.value, DirectState(r)))
         else None)
  }

  function ApplyDirect(env: Env, e: Exec, r: DirectRequest, faults: Faults): Exec {
    Switch(env, PlanDirect(env, e, r, faults), r.profile, faults)
  }

  // ----- switching to an aggregate API -----

  /** What the network phase brought: the upstream's models and the stored ones. */
  datatype Upstream = Upstream(names: seq<string>, models: seq<M.Model>)
  datatype AggregateRequest = AggregateRequest(
    profile: Profile, valid: bool, aggregateId: string, api: C.Aggregate, secret: string,
    modelOverride: Option<string>, upstream: Option<Upstream>, now: int)

  function FirstEqual(slugs: seq<string>, name: string): Option<string> {
    if slugs == [] then None
    else if EqualFold(slugs[0], name) then Some(slugs[0])
    else FirstEqual(slugs[1..], name)
  }

  /** The overriding model if it is in the catalog, otherwise the first one. */
  function DefaultModel(slugs: seq<string>, modelOverride: Option<string>): Option<string> {
    var chosen := if modelOverride.Some? then FirstEqual(slugs, modelOverride.value) else None;
    if chosen.Some? then chosen else if slugs != [] then Some(slugs[0]) else None
  }

  function AggregateModels(r: AggregateRequest): Result<seq<M.Model>> {
    if r.upstream.None? || r.upstream.value.names == [] then Err
    else M.Selected(r.upstream.value.models, r.upstream.value.names)
  }

  function AggregateState(r: AggregateRequest, previous: Option<string>, slugs: seq<string>): State {
    State(r.profile, DirectAggregate, None, None, Some(r.aggregateId), None, Some(r.api.baseUrl), Some(false),
          C.AGGREGATE, previous, slugs, r.now)
  }

  /** The patched document for the models the upstream offers. */
  function AggregateConfig(env: Env, config: Option<string>, r: AggregateRequest, previous: Option<string>,
                           models: seq<M.Model>): Result<string>
  {
    var model, doc := DefaultModel(M.Slugs(models), r.modelOverride), ConfigDoc(env, config);
    if model.None? || doc.None? then Err
    else
      match C.PatchForAggregate(env.norm, doc.value, r.api, r.secret, env.managedPath(r.profile), previous, model.value)
      case Err => Err
      case Ok(patched) => Ok(env.renderToml(patched))
  }

  function AggregateTodo(env: Env, seen: Option<State>, config: Option<string>, r: AggregateRequest): Result<Todo> {
    match PreviousPointer(env, seen, config, r.profile)
    case Err => Err
    case Ok(previous) =>
      match AggregateModels(r)
      case Err => Err
      case Ok(models) =>
        match AggregateConfig(env, config, r, previous, models)
        case Err => Err
        case Ok(text) => Ok(Todo(Catalog, Some(env.renderCatalog(models)), text,
                                 AggregateState(r, previous, M.Slugs(models))))
  }

  /** The first phase takes the backup; a failure of the network phase leaves it in place. */
  function PlanAggregate(env: Env, e: Exec, r: AggregateRequest, faults: Faults): Plan {
    var p := r.profile;
    var backed := EnsureBackup(env, Accepted(e, p, r.valid, faults), p, r.now, faults);
    var todo := AggregateTodo(env, SeenState(env, backed, faults), FileOf(backed.store, p, Config), r);
    var patched := Check(Read(backed), todo.Ok?, faults);
    Plan(patched, if patched.ok && todo.Ok? then Some(todo.value) else None)
  }

  function ApplyAggregate(env: Env, e: Exec, r: AggregateRequest, faults: Faults): Exec {
    Switch(env, PlanAggregate(env, e, r, faults), r.profile, faults)
  }

  // ----- switching to the gateway -----

  datatype GatewayRequest = GatewayRequest(
    profile: Profile, valid: bool, keyId: string, baseUrl: Option<string>, websockets: bool, secret: string,
    catalog: Option<string>, now: int)

  function GatewayConfig(env: Env, config: Option<string>, p: Profile, baseUrl: string, websockets: bool,
                         secret: string):
    Result<string>
  {
    match ConfigDoc(env, config)
    case None => Err
    case Some(doc) =>
      match C.PatchForGateway(doc, baseUrl, env.managedPath(p), websockets, secret)
      case Err => Err
      case Ok(patched) => Ok(env.renderToml(patched))
  }

  function GatewayState(r: GatewayRequest, previous: Option<string>): State {
    State(r.profile, Gateway, None, Some(r.keyId), None, Some(C.GatewayBaseUrl(r.baseUrl)), None, Some(r.websockets),
          C.PROVIDER, previous, [], r.now)
  }

  function GatewayTodo(env: Env, seen: Option<State>, config: Option<string>, r: GatewayRequest): Result<Todo> {
    match PreviousPointer(env, seen, config, r.profile)
    case Err => Err
    case Ok(previous) =>
      match GatewayConfig(env, config, r.profile, C.GatewayBaseUrl(r.baseUrl), r.websockets, r.secret)
      case Err => Err
      case Ok(text) =>
        if r.catalog.None? then Err else Ok(Todo(Catalog, r.catalog, text, GatewayState(r, previous)))
  }

  function GatewayMigrated(env: Env, e: Exec, r: GatewayRequest, faults: Faults): Exec {
    var todo := GatewayTodo(env, SeenState(env, e, faults), FileOf(e.store, r.profile, Config), r);
    var patched := Check(Read(e), r.valid && todo.Ok?, faults);
    Ignoring(patched, MigrateMarker(patched, r.profile, faults))
  }

  /** The document is patched, from the text phase one read, before anything is written. */
  function PlanGateway(env: Env, e: Exec, r: GatewayRequest, faults: Faults): Plan {
    var p := r.profile;
    var todo := GatewayTodo(env, SeenState(env, e, faults), FileOf(e.store, p, Config), r);
    var backed := EnsureBackup(env, GatewayMigrated(env, e, r, faults), p, r.now, faults);
    Plan(backed, if backed.ok && todo.Ok? then Some(todo.value) else None)
  }

  function ApplyGateway(env: Env, e: Exec, r: GatewayRequest, faults: Faults): Exec {
    Switch(env, PlanGateway(env, e, r, faults), r.profile, faults)
  }

  // ----- restoring -----

  /** Both files back, both markers gone. */
  function RestoreFiles(e: Exec, p: Profile, entry: BackupEntry, faults: Faults): Exec {
    var configured := Must(Must(e, File(p, Auth, entry.auth), faults), File(p, Config, entry.config), faults);
    Must(Must(configured, File(p, MarkerFile, None), faults), File(p, LegacyMarker, None), faults)
  }

  /** The state is cleared if it is this profile's, as far as it can be read. */
  function ClearState(env: Env, e: Exec, p: Profile, faults: Faults): Exec {
    var seen := SeenState(env, e, faults);
    Check(if seen.Some? && seen.value.profile == p then Must(Read(e), Save(StateRow, None), faults)
          else Read(e), true, faults)
  }

  function RestoreProfile(env: Env, e: Exec, p: Profile, faults: Faults): Exec {
    var backups := SeenBackups(env, e, faults);
    var found := Check(Read(e), p in backups, faults);
    if !found.ok || p !in backups then found
    else
      var unmarked := RestoreFiles(found, p, backups[p], faults);
      ClearState(env, Must(unmarked, Save(BackupsRow, Some(env.renderBackups(backups - {p}))), faults), p, faults)
  }

  // ----- what each part does -----

  /** Only the two marker files of one profile may differ. */
  ghost predicate MarkersOnly(a: Store, b: Store, p: Profile) {
    && a.rows == b.rows
    && forall q: Profile, slot: Slot :: !(q == p && (slot.MarkerFile? || slot.LegacyMarker?)) ==>
         FileOf(a, q, slot) == FileOf(b, q, slot)
  }

  /** Every setting but one. */
  ghost predicate SameRowsBut(a: Store, b: Store, row: Row) {
    forall r :: r != row ==> Raw(a, r) == Raw(b, r)
  }

  /** All files but the markers of one profile. */
  ghost predicate SameFilesBut(a: Store, b: Store, p: Profile) {
    forall q: Profile, slot: Slot :: q != p || slot.Auth? || slot.Config? || slot.Catalog?
      ==> FileOf(b, q, slot) == FileOf(a, q, slot)
  }

  lemma MigrateView(e: Exec, p: Profile, faults: Faults)
    ensures var r := MigrateMarker(e, p, faults);
            && MarkersOnly(e.store, r.store, p)
            && (r.ok ==> e.ok && FileOf(r.store, p, LegacyMarker).None?)
            && (FileOf(e.store, p, LegacyMarker).None? ==> r == e)
            && (FileOf(e.store, p, MarkerFile).Some?
                ==> FileOf(r.store, p, MarkerFile) == FileOf(e.store, p, MarkerFile))
            && (r.ok && FileOf(e.store, p, MarkerFile).None?
                ==> FileOf(r.store, p, MarkerFile) == FileOf(e.store, p, LegacyMarker))
            && (Calm(faults) ==> r.ok == e.ok)
  {
  }

  /** The backups cannot be read, and a map that holds nothing else is saved over them. */
  predicate BlindSave(e: Exec, faults: Faults) {
    e.ok && faults(e.io) && !faults(e.io + 1) && !faults(e.io + 2)
  }

  /** A backup is taken only if none is seen, holds the two files as they are, and joins the ones seen. */
  lemma EnsureBackupView(env: Env, e: Exec, p: Profile, now: int, faults: Faults)
    requires Faithful(env)
    ensures var r := EnsureBackup(env, e, p, now, faults);
            && r.store.files == e.store.files && SameRowsBut(e.store, r.store, BackupsRow)
            && (r.ok ==> e.ok && p in LoadBackups(env, r.store))
            && (!r.ok ==> r.store == e.store)
            && (r.store == e.store
                || (r.ok && p !in SeenBackups(env, e, faults)
                    && LoadBackups(env, r.store) == SeenBackups(env, e, faults)[p := EntryOf(e.store, p, now)]))
            && (Calm(faults) ==> r.ok == e.ok)
  {
    hide Normalize;
    if e.ok && p !in SeenBackups(env, e, faults) {
      SavedBackups(env, e.store, SeenBackups(env, e, faults)[p := EntryOf(e.store, p, now)]);
      hide LoadBackups;
    }
  }

  /** A backup survives exactly unless a blind save goes through; a profile's own may then happen to be the same. */
  lemma EnsureBackupKeeps(env: Env, e: Exec, p: Profile, now: int, faults: Faults, q: Profile)
    requires Faithful(env) && q in LoadBackups(env, e.store)
    ensures var after := LoadBackups(env, EnsureBackup(env, e, p, now, faults).store);
            (q in after && after[q] == LoadBackups(env, e.store)[q])
            <==> !BlindSave(e, faults) || (q == p && LoadBackups(env, e.store)[q] == EntryOf(e.store, p, now))
  {
    hide Normalize;
    if e.ok && p !in SeenBackups(env, e, faults) {
      SavedBackups(env, e.store, SeenBackups(env, e, faults)[p := EntryOf(e.store, p, now)]);
      hide LoadBackups;
    }
  }

  /** So all of them survive exactly if they could be read, or nothing was saved, or the new one is all there was. */
  lemma BackupsKeptExactly(env: Env, e: Exec, p: Profile, now: int, faults: Faults)
    requires Faithful(env)
    ensures var before, after := LoadBackups(env, e.store),
            LoadBackups(env, EnsureBackup(env, e, p, now, faults).store);
            (forall q :: q in before ==> q in after && after[q] == before[q])
            <==> !BlindSave(e, faults) || (forall q :: q in before ==> q == p && before[q] == EntryOf(e.store, p, now))
  {
    hide EnsureBackup, LoadBackups, BlindSave, Faithful;
    var before, after := LoadBackups(env, e.store), LoadBackups(env, EnsureBackup(env, e, p, now, faults).store);
    forall q | q in before
      ensures (q in after && after[q] == before[q])
              <==> !BlindSave(e, faults) || (q == p && before[q] == EntryOf(e.store, p, now))
    {
      EnsureBackupKeeps(env, e, p, now, faults, q);
    }
  }

  lemma SavedBackups(env: Env, s: Store, backups: Backups)
    requires Faithful(env)
    ensures LoadBackups(env, Written(s, Save(BackupsRow, Some(env.renderBackups(backups))))) == backups
  {
    hide Normalize;
    NormalizeText(env.renderBackups(backups));
  }

  lemma NormalizeText(text: string)
    ensures Normalize(Some(Normalize(Some(text)).GetOr(""))) == Normalize(Some(text))
  {
  }

  lemma SavedState(env: Env, s: Store, st: State)
    requires Faithful(env)
    ensures LoadState(env, Written(s, Save(StateRow, Some(env.renderState(st))))) == Some(st)
  {
    hide Normalize;
    NormalizeText(env.renderState(st));
  }

  lemma SavedNothing(env: Env, s: Store)
    ensures LoadState(env, Written(s, Save(StateRow, None))) == None
  {
  }

  /** A setting depends on nothing but its row. */
  lemma SameState(env: Env, a: Store, b: Store)
    requires Raw(a, StateRow) == Raw(b, StateRow)
    ensures LoadState(env, a) == LoadState(env, b)
  {
  }

  lemma SameBackupRow(env: Env, a: Store, b: Store)
    requires Raw(a, BackupsRow) == Raw(b, BackupsRow)
    ensures LoadBackups(env, a) == LoadBackups(env, b)
  {
  }

  lemma ManagedStateView(env: Env, e: Exec, p: Profile, st: State, faults: Faults)
    requires Faithful(env)
    ensures var r := WriteManagedState(env, e, p, st, faults);
            && SameFilesBut(e.store, r.store, p) && SameRowsBut(e.store, r.store, StateRow)
            && (r.ok ==> e.ok && LoadState(env, r.store) == Some(st)
                         && FileOf(r.store, p, MarkerFile) == Some(env.renderMarker(MarkerOf(st))))
            && (!r.ok ==> r.store.rows == e.store.rows)
            && (Calm(faults) ==> r.ok == e.ok && (r.ok ==> FileOf(r.store, p, LegacyMarker).None?))
  {
    hide Normalize;
    var marked := WriteMarker(env, e, p, st, faults);
    SavedState(env, marked.store, st);
    hide LoadState;
  }

  lemma FinishView(e: Exec, p: Profile, faults: Faults)
    ensures var r := Finish(e, p, faults);
            && SameFilesBut(e.store, r.store, p) && SameRowsBut(e.store, r.store, HomeRow)
            && (r.ok ==> e.ok && Setting(r.store, HomeRow) == Normalize(Some(p)))
            && (FileOf(e.store, p, MarkerFile).Some?
                ==> FileOf(r.store, p, MarkerFile) == FileOf(e.store, p, MarkerFile))
            && (FileOf(e.store, p, LegacyMarker).None? ==> FileOf(r.store, p, LegacyMarker).None?)
            && (Calm(faults) ==> r.ok == e.ok)
  {
    hide Normalize, MigrateMarker;
    var saved := Must(e, Save(HomeRow, Some(p)), faults);
    MigrateView(saved, p, faults);
    NormalizeText(p);
    var after := Finish(e, p, faults).store;
    forall q: Profile, slot: Slot | q != p || slot.Auth? || slot.Config? || slot.Catalog?
      ensures FileOf(after, q, slot) == FileOf(e.store, q, slot)
    {
      assert FileOf(e.store, q, slot) == FileOf(saved.store, q, slot) == FileOf(after, q, slot);
    }
  }

  // ----- what a switch writes -----

  lemma ConfiguredView(e: Exec, p: Profile, t: Todo, faults: Faults)
    requires !t.slot.Config?
    ensures var r := Configured(e, p, t, faults);
            && r.store.rows == e.store.rows
            && (forall q: Profile, slot: Slot :: q != p ==> FileOf(r.store, q, slot) == FileOf(e.store, q, slot))
            && FileOf(r.store, p, Config) == (if r.ok && e.ok then Some(t.config) else FileOf(e.store, p, Config))
            && (r.ok ==> e.ok && FileOf(r.store, p, t.slot) == t.content)
            && (Calm(faults) ==> r.ok == e.ok)
  {
  }

  /** The document is the new one exactly if it was written, the state exactly if it was saved; nothing else is lost. */
  lemma CarryView(env: Env, e: Exec, p: Profile, t: Todo, faults: Faults)
    requires Faithful(env) && !t.slot.Config? && e.ok
    ensures var x, config, state := Carry(env, e, p, t, faults), Configured(e, p, t, faults).ok,
            Recorded(env, e, p, t, faults).ok;
            && Raw(x.store, BackupsRow) == Raw(e.store, BackupsRow)
            && (forall q: Profile, slot: Slot :: q != p ==> FileOf(x.store, q, slot) == FileOf(e.store, q, slot))
            && FileOf(x.store, p, Config) == (if config then Some(t.config) else FileOf(e.store, p, Config))
            && LoadState(env, x.store) == (if state then Some(t.st) else LoadState(env, e.store))
            && (x.ok ==> state) && (state ==> config) && (Calm(faults) ==> x.ok)
  {
    hide Faithful, LoadState, WriteManagedState, Finish, Configured;
    var first := Configured(e, p, t, faults);
    ConfiguredView(e, p, t, faults);
    var managed := WriteManagedState(env, first, p, t.st, faults);
    ManagedStateView(env, first, p, t.st, faults);
    FinishView(managed, p, faults);
    var x := Finish(managed, p, faults);
    SameState(env, managed.store, x.store);
    if !managed.ok {
      SameState(env, e.store, managed.store);
    }
    forall q: Profile, slot: Slot | q != p
      ensures FileOf(x.store, q, slot) == FileOf(e.store, q, slot)
    {
      assert FileOf(managed.store, q, slot) == FileOf(first.store, q, slot);
    }
  }
}
