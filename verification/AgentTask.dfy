/**
 Registering an agent task once for all the workers that need one.

 A worker reads the stored identity, and if its task is missing or is the one that just failed it
 takes the account's lock, reads again, registers a task and stores it with a compare on the key
 material. A failed registration is remembered for 300 seconds under a digest of that material.
 */
module AgentTask {
  import opened Wrappers
  import opened Text

  type WorkerId = nat
  type Time = nat

  /** `AGENT_IDENTITY_BOOTSTRAP_FAILURE_TTL_SECS`, in nanoseconds. */
  const TTL: Time := 300 * 1_000_000_000

  /** What the digest covers; the digest is taken to be injective. */
  datatype Material = Material(runtimeId: string, privateKey: string)

  /**
   The account's row as the read and the update both see it: each of them asks for a row whose trimmed
   `auth_mode` is `agentidentity`, ignoring case, so a row of any other mode counts as none at all.
   */
  datatype Identity = Identity(material: Material, task: Option<string>)

  // ----- remembered failures -----

  datatype Failure = Failure(at: Time, material: Material)
  type Failures = map<string, Failure>

  datatype Operation = RegisterIdentity | RegisterTask

  function FailureKey(account: string, operation: Operation): string {
    account + "\0" + (if operation.RegisterIdentity? then "identity" else "task")
  }

  /** Two different accounts or operations never share an entry, whatever the account ids contain. */
  lemma FailureKeysDiffer(a: string, x: Operation, b: string, y: Operation)
    requires FailureKey(a, x) == FailureKey(b, y)
    ensures a == b && x == y
  {
    var s, t := FailureKey(a, x), FailureKey(b, y);
    assert s[|s| - 1] == if x.RegisterIdentity? then 'y' else 'k';
    assert t[|t| - 1] == if y.RegisterIdentity? then 'y' else 'k';
    assert a == s[..|a|] && b == t[..|b|];
  }

  predicate Recent(failure: Failure, now: Time) {
    now < failure.at + TTL
  }

  function Retained(failures: Failures, now: Time): Failures {
    map k | k in failures && Recent(failures[k], now) :: failures[k]
  }

  predicate Blocks(failures: Failures, key: string, material: Material, now: Time) {
    key in failures && Recent(failures[key], now) && failures[key].material == material
  }

  function Forgotten(failures: Failures, key: string, material: Material): Failures {
    if key in failures && failures[key].material == material then failures - {key} else failures
  }

  class FailureMap {
    var entries: Failures

    constructor ()
      ensures entries == map[]
    {
      entries := map[];
    }

    /** Drops what is out of date, then asks whether this very material failed recently. */
    method IsActive(key: string, material: Material, now: Time) returns (active: bool)
      modifies this
      ensures entries == Retained(old(entries), now)
      ensures active <==> Blocks(old(entries), key, material, now)
    {
      entries := map k | k in entries && now < entries[k].at + TTL :: entries[k];
      active := key in entries && entries[key].material == material;
    }

    method Remember(key: string, material: Material, now: Time)
      modifies this
      ensures entries == old(entries)[key := Failure(now, material)]
      ensures Blocks(entries, key, material, now)
    {
      entries := entries[key := Failure(now, material)];
    }

    /** A failure of other material stays, and so does every other key. */
    method Clear(key: string, material: Material)
      modifies this
      ensures entries == Forgotten(old(entries), key, material)
      ensures forall m, now :: m != material ==> (Blocks(entries, key, m, now) <==> Blocks(old(entries), key, m, now))
      ensures forall now :: !Blocks(entries, key, material, now)
    {
      if key in entries && entries[key].material == material {
        entries := entries - {key};
      }
    }
  }

  // ----- the protocol -----

  function TaskOf(identity: Identity): Option<string> {
    Normalize(identity.task)
  }

  /** `task_can_be_reused`: present, and not the one that failed. */
  predicate Reusable(identity: Identity, failed: Option<string>) {
    TaskOf(identity).Some? && (failed.Some? ==> TaskOf(identity) != failed)
  }

  /** Reading the row may fail; the caller's validity check may refuse what was read. */
  datatype Read = Fails | Reads(valid: bool, signs: bool)

  datatype Finish = Error | Unavailable | Resolved(task: string)

  datatype Stage =
    | Started(failed: Option<string>)
    | Waiting(failed: Option<string>)
    | Locked(failed: Option<string>)
    | Loaded(failed: Option<string>, version: nat, identity: Identity)
    | Registering(identity: Identity)
    | Persisting(identity: Identity, id: string)
    | Settling(identity: Identity, finish: Finish)
    | Done(finish: Finish)

  predicate HoldsLock(stage: Stage) {
    !stage.Started? && !stage.Waiting? && !stage.Done?
  }

  predicate InAttempt(stage: Stage) {
    stage.Registering? || stage.Persisting? || stage.Settling?
  }

  datatype Author = External | Attempted(index: nat)
  datatype Version = Version(row: Option<Identity>, author: Author)

  /** One call of the registration endpoint. */
  datatype Attempt = Attempt(
    worker: WorkerId,
    failed: Option<string>,     // the task the worker saw fail
    version: nat,               // the version of the row it read under the lock
    material: Material,
    checked: Time,              // when the cool-down let it through
    id: Option<string>,         // what the endpoint answered
    wrote: Option<nat>,         // the version it stored
    end: Option<(Time, bool)>   // when it was settled, and whether it succeeded
  )

  predicate Failed(a: Attempt) {
    a.end.Some? && !a.end.value.1
  }

  datatype State = State(
    versions: seq<Version>,     // every content the row has had; the last is the stored one
    lock: Option<WorkerId>,
    stages: map<WorkerId, Stage>,
    failures: Failures,
    now: Time,
    attempts: seq<Attempt>,
    issued: set<string>         // ids stored, reported as failed or handed out so far
  )

  datatype Step =
    | Start(t: WorkerId, failed: Option<string>)
    | Load(t: WorkerId, read: Read)
    | Lock(t: WorkerId)
    | Reload(t: WorkerId, read: Read)
    | Check(t: WorkerId)
    | Register(t: WorkerId, answer: Option<string>)
    | Persist(t: WorkerId, ok: bool, signs: bool)
    | Settle(t: WorkerId)
    | Replace(row: Option<Identity>)                        // anybody else writes the row
    | Elsewhere(key: string, failure: Option<Failure>)      // another account or operation
    | Purge
    | Tick(d: nat)

  predicate Init(account: string, s: State) {
    && FailureKey(account, RegisterTask) !in s.failures
    && |s.versions| == 1 && s.versions[0].author.External? && s.lock.None? && s.stages == map[] && s.attempts == []
    && (s.versions[0].row.Some? && TaskOf(s.versions[0].row.value).Some?
        ==> TaskOf(s.versions[0].row.value).value in s.issued)
  }

  function Row(s: State): Option<Identity> {
    if s.versions == [] then None else s.versions[|s.versions| - 1].row
  }

  predicate Enabled(account: string, s: State, step: Step) {
    match step
    case Start(t, _) => t !in s.stages
    case Load(t, _) => t in s.stages && s.stages[t].Started?
    case Lock(t) => t in s.stages && s.stages[t].Waiting? && s.lock.None?
    case Reload(t, _) => t in s.stages && s.stages[t].Locked?
    case Check(t) => t in s.stages && s.stages[t].Loaded?
    case Register(t, answer) =>
      // the endpoint never hands out an id twice
      t in s.stages && s.stages[t].Registering? && (Normalize(answer).Some? ==> Normalize(answer).value !in s.issued)
    case Persist(t, _, _) => t in s.stages && s.stages[t].Persisting?
    case Settle(t) => t in s.stages && s.stages[t].Settling?
    case Replace(_) => true
    case Elsewhere(key, _) => key != FailureKey(account, RegisterTask)
    case Purge => true
    case Tick(_) => true
  }

  function Move(s: State, t: WorkerId, stage: Stage): State {
    s.(stages := s.stages[t := stage])
  }

  /** Leaving the locked region. */
  function Leave(s: State, t: WorkerId, finish: Finish): State {
    s.(stages := s.stages[t := Done(finish)], lock := None)
  }

  /** What a worker does with the row it read: give up, reuse the task, or go on. */
  function Examine(row: Option<Identity>, read: Read, failed: Option<string>): Option<Finish>
    ensures Examine(row, read, failed).None? ==>
              row.Some? && !Reusable(row.value, failed) && read.Reads? && read.valid
  {
    if read.Fails? then Some(Error)
    else if row.None? || !read.valid then Some(Unavailable)
    else if Reusable(row.value, failed) then Some(if read.signs then Resolved(TaskOf(row.value).value) else Error)
    else None
  }

  function NowIssued(issued: set<string>, id: Option<string>): set<string> {
    if id.Some? then issued + {id.value} else issued
  }

  function LastAttempt(s: State): Attempt
    requires s.attempts != []
  {
    s.attempts[|s.attempts| - 1]
  }

  function WithLast(s: State, a: Attempt): State
    requires s.attempts != []
  {
    s.(attempts := s.attempts[|s.attempts| - 1 := a])
  }

  function Apply(account: string, s: State, step: Step): State
    requires Enabled(account, s, step)
  {
    match step
    case Start(t, failed) => Move(s, t, Started(failed)).(issued := NowIssued(s.issued, failed))
    case Load(t, read) =>
      var failed := s.stages[t].failed;
      var finish := Examine(Row(s), read, failed);
      Move(s, t, if finish.Some? then Done(finish.value) else Waiting(failed))
    case Lock(t) => Move(s, t, Locked(s.stages[t].failed)).(lock := Some(t))
    case Reload(t, read) => ApplyReload(s, t, read)
    case Check(t) => ApplyCheck(account, s, t)
    case Register(t, answer) => ApplyRegister(s, t, answer)
    case Persist(t, ok, signs) => ApplyPersist(s, t, ok, signs)
    case Settle(t) => ApplySettle(account, s, t)
    case Replace(row) =>
      s.(versions := s.versions + [Version(row, External)],
         issued := NowIssued(s.issued, if row.Some? then TaskOf(row.value) else None))
    case Elsewhere(key, failure) =>
      s.(failures := if failure.Some? then s.failures[key := failure.value] else s.failures - {key})
    case Purge => s.(failures := Retained(s.failures, s.now))
    case Tick(d) => s.(now := s.now + d)
  }

  /** A row that has vanished by now is an error here, not `None`. */
  function ApplyReload(s: State, t: WorkerId, read: Read): State
    requires t in s.stages && s.stages[t].Locked?
  {
    var failed := s.stages[t].failed;
    if Row(s).None? then Leave(s, t, Error)
    else
      var finish := Examine(Row(s), read, failed);
      if finish.Some? then Leave(s, t, finish.value)
      else Move(s, t, Loaded(failed, if s.versions == [] then 0 else |s.versions| - 1, Row(s).value))
  }

  function ApplyCheck(account: string, s: State, t: WorkerId): State
    requires t in s.stages && s.stages[t].Loaded?
  {
    var stage := s.stages[t];
    var purged := s.(failures := Retained(s.failures, s.now));
    if Blocks(s.failures, FailureKey(account, RegisterTask), stage.identity.material, s.now) then
      Leave(purged, t, Error)
    else
      Move(purged, t, Registering(stage.identity)).(
        attempts := s.attempts + [Attempt(t, stage.failed, stage.version, stage.identity.material, s.now, None, None,
                                          None)])
  }

  /** An error, or a blank id, is a failed registration. */
  function ApplyRegister(s: State, t: WorkerId, answer: Option<string>): State
    requires t in s.stages && s.stages[t].Registering?
  {
    var identity, id := s.stages[t].identity, Normalize(answer);
    if id.None? || s.attempts == [] then Move(s, t, Settling(identity, Error))
    else
      Move(WithLast(s, LastAttempt(s).(id := id)), t,
           Persisting(identity, id.value)).(issued := NowIssued(s.issued, id))
  }

  /** The update takes effect only while the row still has the material the worker read. */
  function ApplyPersist(s: State, t: WorkerId, ok: bool, signs: bool): State
    requires t in s.stages && s.stages[t].Persisting?
  {
    var identity, id := s.stages[t].identity, s.stages[t].id;
    if !ok || Row(s).None? || Row(s).value.material != identity.material || s.attempts == [] then
      Move(s, t, Settling(identity, Error))
    else
      var version := Version(Some(Row(s).value.(task := Some(id))), Attempted(|s.attempts| - 1));
      Move(WithLast(s, LastAttempt(s).(wrote := Some(|s.versions|))), t,
           Settling(identity, if signs then Resolved(id) else Error)).(versions := s.versions + [version])
  }

  function ApplySettle(account: string, s: State, t: WorkerId): State
    requires t in s.stages && s.stages[t].Settling?
  {
    var key, stage := FailureKey(account, RegisterTask), s.stages[t];
    var ok := !stage.finish.Error?;
    var settled := s.(failures := if ok then Forgotten(s.failures, key, stage.identity.material)
                                  else s.failures[key := Failure(s.now, stage.identity.material)]);
    var closed := if s.attempts == [] then settled else WithLast(settled, LastAttempt(s).(end := Some((s.now, ok))));
    Leave(closed, t, stage.finish)
  }

  /** A run: any interleaving of any number of workers with other writers and the clock. */
  function Run(account: string, s: State, steps: seq<Step>): Option<State> {
    if steps == [] then Some(s)
    else
      match Run(account, s, steps[..|steps| - 1])
      case None => None
      case Some(before) =>
        if Enabled(account, before, steps[|steps| - 1]) then Some(Apply(account, before, steps[|steps| - 1])) else None
  }

  // ----- what every reachable state satisfies -----

  ghost predicate LockFits(s: State) {
    && (forall t :: (t in s.stages && HoldsLock(s.stages[t])) <==> s.lock == Some(t))
  }

  /** The last attempt is open exactly while the lock's holder is inside it. */
  ghost predicate OpenFits(s: State) {
    && ((s.attempts != [] && LastAttempt(s).end.None?) <==>
        (s.lock.Some? && s.lock.value in s.stages && InAttempt(s.stages[s.lock.value])))
    && (forall t :: t in s.stages && InAttempt(s.stages[t]) ==>
          && s.attempts != []
          && LastAttempt(s).worker == t && LastAttempt(s).material == s.stages[t].identity.material
          && (s.stages[t].Registering? ==> LastAttempt(s).id.None? && LastAttempt(s).wrote.None?)
          && (s.stages[t].Persisting? ==> LastAttempt(s).id == Some(s.stages[t].id) && LastAttempt(s).wrote.None?))
  }

  /** A worker that will register still holds what it read, and nothing was registered since. */
  ghost predicate LoadedFits(s: State) {
    forall t :: t in s.stages && s.stages[t].Loaded? ==>
      && s.stages[t].version < |s.versions| && s.versions[s.stages[t].version].row == Some(s.stages[t].identity)
      && !Reusable(s.stages[t].identity, s.stages[t].failed)
      && (forall k :: 0 <= k < |s.attempts| && s.attempts[k].wrote.Some? ==>
          s.attempts[k].wrote.value <= s.stages[t].version)
  }

  /** What an attempt read, and what it wrote over. */
  ghost predicate AttemptFits(s: State, i: nat)
    requires i < |s.attempts|
  {
    var a := s.attempts[i];
    && a.version < |s.versions| && s.versions[a.version].row.Some?
    && s.versions[a.version].row.value.material == a.material
    && !Reusable(s.versions[a.version].row.value, a.failed)
    && a.checked <= s.now
    && (a.end.Some? ==> a.checked <= a.end.value.0 <= s.now)
    && (a.wrote.Some? ==>
          && a.version < a.wrote.value < |s.versions| && a.id.Some?
          && s.versions[a.wrote.value].author == Attempted(i)
          && s.versions[a.wrote.value].row == Some(Identity(a.material, a.id)))
  }

  ghost predicate AttemptsFit(s: State) {
    && (forall i: nat :: i < |s.attempts| ==> AttemptFits(s, i))
    && (forall v :: 0 <= v < |s.versions| && s.versions[v].author.Attempted? ==>
          s.versions[v].author.index < |s.attempts| && s.attempts[s.versions[v].author.index].wrote == Some(v))
  }

  ghost predicate InOrder(s: State) {
    forall i, j :: 0 <= i < j < |s.attempts| ==>
      && s.attempts[i].end.Some? && s.attempts[i].end.value.0 <= s.attempts[j].checked
      && (s.attempts[i].wrote.Some? ==> s.attempts[i].wrote.value <= s.attempts[j].version)
  }

  ghost predicate Known(s: State, id: Option<string>) {
    id.Some? ==> id.value in s.issued
  }

  ghost predicate StageKnown(s: State, stage: Stage) {
    match stage
    case Started(failed) => Known(s, failed)
    case Waiting(failed) => Known(s, failed)
    case Locked(failed) => Known(s, failed)
    case Loaded(failed, _, _) => Known(s, failed)
    case _ => true
  }

  ghost predicate AttemptKnown(s: State, a: Attempt) {
    Known(s, a.failed) && Known(s, a.id) && Normalize(a.id) == a.id
  }

  ghost predicate IdsKnown(s: State) {
    && (forall t :: t in s.stages ==> StageKnown(s, s.stages[t]))
    && (forall i :: 0 <= i < |s.attempts| ==> AttemptKnown(s, s.attempts[i]))
  }

  /** An id handed out differs from all that were reported as failed or handed out before it. */
  ghost predicate IdsFresh(s: State) {
    forall i, j :: 0 <= i <= j < |s.attempts| && s.attempts[j].id.Some? ==>
      s.attempts[i].failed != s.attempts[j].id && (i < j ==> s.attempts[i].id != s.attempts[j].id)
  }

  /** Nothing else failed in between with other material. */
  ghost predicate Undisturbed(attempts: seq<Attempt>, i: nat, j: nat)
    requires i < |attempts| && j <= |attempts|
  {
    forall k :: i < k < j && Failed(attempts[k]) ==> attempts[k].material == attempts[i].material
  }

  /** The failure is still remembered, or its time is up. */
  ghost predicate Kept(account: string, s: State, i: nat)
    requires i < |s.attempts| && Failed(s.attempts[i])
  {
    var key := FailureKey(account, RegisterTask);
    || s.attempts[i].end.value.0 + TTL <= s.now
    || (key in s.failures && s.failures[key].material == s.attempts[i].material
        && s.attempts[i].end.value.0 <= s.failures[key].at)
  }

  /** A failure is kept unless other material failed since. */
  ghost predicate Remembered(account: string, s: State) {
    forall i: nat :: i < |s.attempts| && Failed(s.attempts[i]) && Undisturbed(s.attempts, i, |s.attempts|) ==>
      Kept(account, s, i)
  }

  ghost predicate CooledDown(s: State) {
    forall i: nat, j: nat ::
      (i < j < |s.attempts| && Failed(s.attempts[i])
       && s.attempts[i].material == s.attempts[j].material && Undisturbed(s.attempts, i, j)) ==>
        s.attempts[i].end.value.0 + TTL <= s.attempts[j].checked
  }

  /** The failure of attempt `i`, with nothing failed since. */
  ghost predicate Newest(failure: Failure, attempts: seq<Attempt>, i: nat) {
    && i < |attempts| && Failed(attempts[i]) && failure == Failure(attempts[i].end.value.0, attempts[i].material)
    && forall k :: i < k < |attempts| ==> !Failed(attempts[k])
  }

  /** The account's entry records the newest of its failed attempts. */
  ghost predicate Traced(account: string, s: State) {
    var key := FailureKey(account, RegisterTask);
    key in s.failures ==> exists i: nat :: Newest(s.failures[key], s.attempts, i)
  }

  ghost predicate Inv(account: string, s: State) {
    && |s.versions| > 0
    && LockFits(s) && OpenFits(s) && LoadedFits(s) && AttemptsFit(s) && InOrder(s)
    && IdsKnown(s) && IdsFresh(s) && Remembered(account, s) && CooledDown(s)
    && Traced(account, s)
  }

  lemma LockStep(account: string, s: State, step: Step)
    requires LockFits(s) && Enabled(account, s, step)
    ensures LockFits(Apply(account, s, step))
  {
  }

  predicate Quiet(step: Step) {
    !step.Check? && !step.Register? && !step.Persist? && !step.Settle?
  }

  lemma QuietView(account: string, s: State, step: Step)
    requires LockFits(s) && Enabled(account, s, step) && Quiet(step)
    ensures var after := Apply(account, s, step);
            && after.attempts == s.attempts
            && (forall t :: t in after.stages && InAttempt(after.stages[t]) ==>
                  t in s.stages && s.stages[t] == after.stages[t])
            && ((after.lock.Some? && after.lock.value in after.stages && InAttempt(after.stages[after.lock.value])) <==>
                (s.lock.Some? && s.lock.value in s.stages && InAttempt(s.stages[s.lock.value])))
  {
    hide Examine, Blocks, Retained, Forgotten, TaskOf, Reusable;
  }

  lemma HolderView(account: string, s: State, step: Step)
    requires LockFits(s) && OpenFits(s) && Enabled(account, s, step) && !Quiet(step)
    ensures OpenFits(Apply(account, s, step))
  {
    hide Examine, Blocks, Retained, Forgotten, TaskOf, Reusable;
  }

  lemma OpenStep(account: string, s: State, step: Step)
    requires LockFits(s) && OpenFits(s) && Enabled(account, s, step)
    ensures OpenFits(Apply(account, s, step))
  {
    if Quiet(step) {
      QuietView(account, s, step);
      hide Apply, LockFits;
    } else {
      hide *;
      HolderView(account, s, step);
    }
  }

  /** The log only grows, and only an open attempt changes. */
  lemma LogView(account: string, s: State, step: Step)
    requires OpenFits(s) && Enabled(account, s, step)
    ensures var after := Apply(account, s, step);
            && s.versions <= after.versions && s.now <= after.now
            && (!step.Replace? && !step.Persist? ==> after.versions == s.versions)
            && (Quiet(step) ==> after.attempts == s.attempts)
            && (step.Check? ==> s.attempts <= after.attempts)
            && (step.Register? || step.Persist? || step.Settle? ==>
                  s.attempts != [] && after.attempts == s.attempts[..|s.attempts| - 1] + [LastAttempt(after)])
  {
    hide Examine, Blocks, Retained, Forgotten, TaskOf, Reusable;
  }

  lemma AttemptFrame(s: State, after: State, i: nat)
    requires i < |s.attempts| && i < |after.attempts| && AttemptFits(s, i) && s.attempts[i] == after.attempts[i]
    requires s.versions <= after.versions && s.now <= after.now
    ensures AttemptFits(after, i)
  {
    hide Reusable;
  }

  lemma EarlierAttempts(account: string, s: State, step: Step, i: nat)
    requires OpenFits(s) && AttemptsFit(s) && Enabled(account, s, step) && i < |s.attempts|
    requires i < |s.attempts| - 1 || !(step.Register? || step.Persist? || step.Settle?)
    ensures i < |Apply(account, s, step).attempts| && AttemptFits(Apply(account, s, step), i)
  {
    hide Apply, AttemptFits, OpenFits;
    LogView(account, s, step);
    AttemptFrame(s, Apply(account, s, step), i);
  }

  lemma NewestAttempt(account: string, s: State, step: Step)
    requires |s.versions| > 0 && OpenFits(s) && LoadedFits(s) && AttemptsFit(s) && Enabled(account, s, step)
    requires step.Check? || step.Register? || step.Persist? || step.Settle?
    ensures var after := Apply(account, s, step);
            && (step.Check? && |after.attempts| > |s.attempts|
                ==> |after.attempts| == |s.attempts| + 1 && AttemptFits(after, |s.attempts|))
            && (!step.Check? ==>
                s.attempts != [] && |after.attempts| == |s.attempts| && AttemptFits(after, |s.attempts| - 1))
  {
    hide Examine, Blocks, Retained, Forgotten, TaskOf, Reusable;
    if !step.Check? {
      assert AttemptFits(s, |s.attempts| - 1);
    }
  }

  lemma AuthorsStep(account: string, s: State, step: Step)
    requires OpenFits(s) && AttemptsFit(s) && Enabled(account, s, step)
    ensures var after := Apply(account, s, step);
            forall v :: 0 <= v < |after.versions| && after.versions[v].author.Attempted? ==>
              after.versions[v].author.index < |after.attempts|
                && after.attempts[after.versions[v].author.index].wrote == Some(v)
  {
    hide Examine, Blocks, Retained, Forgotten, TaskOf, Reusable, AttemptFits;
  }

  lemma ReloadView(s: State, t: WorkerId, read: Read, u: WorkerId)
    requires |s.versions| > 0 && t in s.stages && s.stages[t].Locked?
    ensures u != t && u in ApplyReload(s, t, read).stages
            ==> u in s.stages && ApplyReload(s, t, read).stages[u] == s.stages[u]
    ensures t in ApplyReload(s, t, read).stages
    ensures ApplyReload(s, t, read).stages[t].Loaded? ==>
              var stage := ApplyReload(s, t, read).stages[t];
              stage.version == |s.versions| - 1 && Row(s) == Some(stage.identity)
                && !Reusable(stage.identity, stage.failed)
  {
    hide TaskOf, Reusable;
  }

  /** Nobody else writes while a worker holds what it read. */
  lemma LoadedView(account: string, s: State, step: Step, t: WorkerId)
    requires |s.versions| > 0 && LockFits(s) && Enabled(account, s, step)
    requires t in Apply(account, s, step).stages && Apply(account, s, step).stages[t].Loaded?
    ensures var stage := Apply(account, s, step).stages[t];
            || (t in s.stages && s.stages[t] == stage && Quiet(step))
            || (step.Reload? && stage.version == |s.versions| - 1 && Row(s) == Some(stage.identity)
                && !Reusable(stage.identity, stage.failed))
  {
    if step.Reload? {
      hide LockFits, ApplyReload, Reusable;
      ReloadView(s, step.t, step.read, t);
    } else {
      hide Examine, Blocks, Retained, Forgotten, TaskOf, Reusable;
    }
  }

  lemma LoadedStep(account: string, s: State, step: Step)
    requires |s.versions| > 0 && LockFits(s) && OpenFits(s) && LoadedFits(s) && AttemptsFit(s)
    requires Enabled(account, s, step)
    ensures LoadedFits(Apply(account, s, step))
  {
    hide Apply, Reusable, OpenFits, LockFits, AttemptsFit;
    LogView(account, s, step);
    WritesAreVersions(s);
    var after := Apply(account, s, step);
    forall t | t in after.stages && after.stages[t].Loaded?
      ensures after.stages[t].version < |after.versions|
              && after.versions[after.stages[t].version].row == Some(after.stages[t].identity)
      ensures !Reusable(after.stages[t].identity, after.stages[t].failed)
      ensures forall k :: 0 <= k < |after.attempts| && after.attempts[k].wrote.Some? ==>
              after.attempts[k].wrote.value <= after.stages[t].version
    {
      LoadedView(account, s, step, t);
    }
  }

  lemma WritesAreVersions(s: State)
    requires AttemptsFit(s)
    ensures forall k :: 0 <= k < |s.attempts| && s.attempts[k].wrote.Some? ==> s.attempts[k].wrote.value < |s.versions|
  {
    forall k: nat | k < |s.attempts| && s.attempts[k].wrote.Some?
      ensures s.attempts[k].wrote.value < |s.versions|
    {
      assert AttemptFits(s, k);
    }
  }

  lemma AttemptsStep(account: string, s: State, step: Step)
    requires |s.versions| > 0 && OpenFits(s) && LoadedFits(s) && AttemptsFit(s) && Enabled(account, s, step)
    ensures AttemptsFit(Apply(account, s, step))
  {
    hide Apply, AttemptFits, OpenFits, LoadedFits;
    var after := Apply(account, s, step);
    LogView(account, s, step);
    AuthorsStep(account, s, step);
    if step.Check? || step.Register? || step.Persist? || step.Settle? {
      NewestAttempt(account, s, step);
    }
    forall i: nat | i < |after.attempts|
      ensures AttemptFits(after, i)
    {
      if i < |s.attempts| && (i < |s.attempts| - 1 || !(step.Register? || step.Persist? || step.Settle?)) {
        EarlierAttempts(account, s, step, i);
      }
    }
  }

  /** When the cool-down lets a worker through, every earlier attempt is over. */
  lemma AllEnded(s: State)
    requires OpenFits(s) && AttemptsFit(s) && InOrder(s)
    requires (s.lock.Some? && s.lock.value in s.stages ==> !InAttempt(s.stages[s.lock.value]))
    ensures forall i :: 0 <= i < |s.attempts| ==> s.attempts[i].end.Some? && s.attempts[i].end.value.0 <= s.now
  {
    forall i: nat | i < |s.attempts|
      ensures s.attempts[i].end.Some? && s.attempts[i].end.value.0 <= s.now
    {
      assert AttemptFits(s, i);
      if i < |s.attempts| - 1 {
        assert s.attempts[|s.attempts| - 1].checked <= s.now by {
          assert AttemptFits(s, |s.attempts| - 1);
        }
      }
    }
  }

  lemma CheckView(account: string, s: State, t: WorkerId)
    requires LockFits(s) && LoadedFits(s) && Enabled(account, s, Check(t))
    ensures s.lock == Some(t) && !InAttempt(s.stages[t])
    ensures var after, stage := Apply(account, s, Check(t)), s.stages[t];
            || (after.attempts == s.attempts
                && Blocks(s.failures, FailureKey(account, RegisterTask), stage.identity.material, s.now))
            || (after.attempts == s.attempts +
                  [Attempt(t, stage.failed, stage.version, stage.identity.material, s.now, None, None, None)]
                && !Blocks(s.failures, FailureKey(account, RegisterTask), stage.identity.material, s.now))
    ensures Apply(account, s, Check(t)).failures == Retained(s.failures, s.now)
    ensures Apply(account, s, Check(t)).now == s.now
  {
    hide Retained, Blocks, Reusable;
  }

  /** What the open attempt can change: nothing the order depends on, except for the version it writes. */
  lemma OpenView(account: string, s: State, step: Step)
    requires LockFits(s) && OpenFits(s) && Enabled(account, s, step)
    requires (step.Register? || step.Persist? || step.Settle?)
    ensures s.attempts != [] && Apply(account, s, step).attempts != []
    ensures var a, b := LastAttempt(s), LastAttempt(Apply(account, s, step));
            && a.worker == b.worker && a.failed == b.failed && a.version == b.version && a.material == b.material
               && a.checked == b.checked
            && a.end.None? && (b.end.Some? ==> step.Settle? && b.end.value == (s.now, !s.stages[step.t].finish.Error?))
            && (step.Settle? ==> b.end.Some? && b.material == s.stages[step.t].identity.material)
  {
    hide Retained, Blocks, Reusable, Forgotten;
  }

  /** A new attempt comes after all that ended, and read what the last of them had written. */
  lemma OpenedInOrder(account: string, s: State, t: WorkerId)
    requires LockFits(s) && OpenFits(s) && LoadedFits(s) && AttemptsFit(s) && InOrder(s)
    requires Enabled(account, s, Check(t))
    ensures InOrder(Apply(account, s, Check(t)))
  {
    hide Apply, AttemptsFit, Blocks, Reusable, FailureKey;
    CheckView(account, s, t);
    AllEnded(s);
  }

  /** What the open attempt changes does not matter to the order. */
  lemma ChangedInOrder(s: State, after: State)
    requires InOrder(s) && s.attempts != [] && after.attempts != []
    requires after.attempts == s.attempts[..|s.attempts| - 1] + [LastAttempt(after)]
    requires LastAttempt(after).version == LastAttempt(s).version
    requires LastAttempt(after).checked == LastAttempt(s).checked
    ensures InOrder(after)
  {
    assert forall k :: 0 <= k < |s.attempts| - 1 ==> after.attempts[k] == s.attempts[k];
  }

  lemma OrderStep(account: string, s: State, step: Step)
    requires |s.versions| > 0 && LockFits(s) && OpenFits(s) && LoadedFits(s) && AttemptsFit(s) && InOrder(s)
    requires Enabled(account, s, step)
    ensures InOrder(Apply(account, s, step))
  {
    hide Apply, OpenFits, LockFits, LoadedFits, AttemptsFit;
    LogView(account, s, step);
    if step.Check? {
      OpenedInOrder(account, s, step.t);
    } else if step.Register? || step.Persist? || step.Settle? {
      OpenView(account, s, step);
      ChangedInOrder(s, Apply(account, s, step));
    } else {
      SameOrder(s, Apply(account, s, step));
    }
  }

  lemma SameOrder(s: State, after: State)
    requires InOrder(s) && after.attempts == s.attempts
    ensures InOrder(after)
  {
  }

  lemma KnownStages(account: string, s: State, step: Step)
    requires IdsKnown(s) && Enabled(account, s, step)
    ensures var after := Apply(account, s, step); forall t :: t in after.stages ==> StageKnown(after, after.stages[t])
  {
    hide Examine, Blocks, Retained, Forgotten, TaskOf, Reusable, Normalize;
  }

  lemma KnownAttempts(account: string, s: State, step: Step)
    requires OpenFits(s) && IdsKnown(s) && Enabled(account, s, step)
    ensures var after := Apply(account, s, step);
            forall i :: 0 <= i < |after.attempts| ==> AttemptKnown(after, after.attempts[i])
  {
    hide Examine, Blocks, Retained, Forgotten, TaskOf, Reusable, Normalize;
    NormalizeIdempotent(None);
    if step.Register? {
      NormalizeIdempotent(step.answer);
    }
  }

  lemma NormalizeIdempotent(value: Option<string>)
    ensures Normalize(Normalize(value)) == Normalize(value)
    ensures value.None? ==> Normalize(value) == None
  {
  }

  lemma KnownStep(account: string, s: State, step: Step)
    requires OpenFits(s) && IdsKnown(s) && Enabled(account, s, step)
    ensures IdsKnown(Apply(account, s, step))
  {
    hide Apply, OpenFits;
    KnownStages(account, s, step);
    KnownAttempts(account, s, step);
    var after := Apply(account, s, step);
    assert forall t :: t in after.stages ==> StageKnown(after, after.stages[t]);
    assert forall i :: 0 <= i < |after.attempts| ==> AttemptKnown(after, after.attempts[i]);
  }

  lemma FreshStep(account: string, s: State, step: Step)
    requires OpenFits(s) && IdsKnown(s) && IdsFresh(s) && Enabled(account, s, step)
    ensures IdsFresh(Apply(account, s, step))
  {
    hide Examine, Blocks, Retained, Forgotten, TaskOf, Reusable;
  }

  // ----- the cool-down -----

  lemma UndisturbedFrame(a: seq<Attempt>, b: seq<Attempt>, i: nat, j: nat)
    requires i < j <= |a| && j <= |b| && a[..j] == b[..j]
    ensures Undisturbed(a, i, j) == Undisturbed(b, i, j)
  {
    assert forall k :: 0 <= k < j ==> a[k] == a[..j][k] == b[..j][k] == b[k];
  }

  /** The entry for this account survives until its time is up or something else takes its place. */
  lemma EntryView(account: string, s: State, step: Step)
    requires Enabled(account, s, step) && !step.Settle?
    ensures var key, after := FailureKey(account, RegisterTask), Apply(account, s, step);
            && s.now <= after.now
            && (key in s.failures ==> Recent(s.failures[key], s.now) ==>
                key in after.failures && after.failures[key] == s.failures[key])
            && (key in after.failures ==> key in s.failures && after.failures[key] == s.failures[key])
            && (key in s.failures && key !in after.failures ==> !Recent(s.failures[key], s.now))
  {
    hide Examine, TaskOf, Reusable, FailureKey;
  }

  /** What of the failures and the log makes a remembered failure stay so. */
  ghost predicate EntryStays(account: string, s: State, after: State) {
    var key := FailureKey(account, RegisterTask);
    && s.now <= after.now
    && (key in s.failures ==> Recent(s.failures[key], s.now) ==>
        key in after.failures && after.failures[key] == s.failures[key])
  }

  lemma KeptStill(account: string, s: State, after: State, i: nat)
    requires i < |s.attempts| && i < |after.attempts| && after.attempts[i] == s.attempts[i] && Failed(s.attempts[i])
    requires EntryStays(account, s, after) && Kept(account, s, i)
    ensures Kept(account, after, i)
  {
    hide FailureKey;
  }

  lemma UndisturbedEarlier(a: seq<Attempt>, b: seq<Attempt>, i: nat)
    requires i < |a| <= |b| && Undisturbed(b, i, |b|) && a[i].material == b[i].material
    requires forall k :: i < k < |a| && Failed(a[k]) ==> b[k] == a[k]
    ensures Undisturbed(a, i, |a|)
  {
  }

  lemma RememberedQuiet(account: string, s: State, step: Step)
    requires LockFits(s) && OpenFits(s) && Remembered(account, s) && Enabled(account, s, step) && !step.Settle?
    ensures Remembered(account, Apply(account, s, step))
  {
    var after := Apply(account, s, step);
    hide Apply, OpenFits, LockFits, FailureKey, Kept, Undisturbed;
    EntryView(account, s, step);
    LogView(account, s, step);
    if step.Register? || step.Persist? {
      OpenView(account, s, step);
    }
    forall i: nat | i < |after.attempts| && Failed(after.attempts[i])
      && Undisturbed(after.attempts, i, |after.attempts|)
      ensures Kept(account, after, i)
    {
      if i < |s.attempts| {
        assert after.attempts[i] == s.attempts[i];
        UndisturbedEarlier(s.attempts, after.attempts, i);
        KeptStill(account, s, after, i);
      } else {
        CheckOpens(account, s, step);
      }
    }
  }

  /** An attempt that has just been opened has not failed. */
  lemma CheckOpens(account: string, s: State, step: Step)
    requires LockFits(s) && OpenFits(s) && Enabled(account, s, step)
    requires |Apply(account, s, step).attempts| > |s.attempts|
    ensures |Apply(account, s, step).attempts| == |s.attempts| + 1 && !Failed(LastAttempt(Apply(account, s, step)))
  {
    hide Examine, Blocks, Retained, Forgotten, TaskOf, Reusable;
  }

  lemma RememberedSettle(account: string, s: State, step: Step)
    requires LockFits(s) && OpenFits(s) && AttemptsFit(s) && Remembered(account, s) && CooledDown(s)
    requires Enabled(account, s, step) && step.Settle?
    ensures Remembered(account, Apply(account, s, step))
  {
    var after, last := Apply(account, s, step), |s.attempts| - 1;
    LogView(account, s, step);
    OpenView(account, s, step);
    SettleView(account, s, step.t);
    hide Apply, OpenFits, LockFits, FailureKey;
    forall i: nat | i < |after.attempts| && Failed(after.attempts[i])
      && Undisturbed(after.attempts, i, |after.attempts|)
      ensures Kept(account, after, i)
    {
      if i < last {
        EarlierKept(account, s, after, i);
      }
    }
  }

  lemma SettleView(account: string, s: State, t: WorkerId)
    requires LockFits(s) && OpenFits(s) && Enabled(account, s, Settle(t))
    ensures s.attempts != []
    ensures var after, key, m := Apply(account, s, Settle(t)), FailureKey(account, RegisterTask),
            LastAttempt(s).material;
            && after.now == s.now && after.attempts != [] && LastAttempt(after).end.Some?
            && LastAttempt(after).end.value.0 == s.now
            && LastAttempt(after).material == m
            && after.failures == if Failed(LastAttempt(after)) then s.failures[key := Failure(s.now, m)]
               else Forgotten(s.failures, key, m)
  {
    hide FailureKey, Forgotten;
  }

  lemma EarlierKept(account: string, s: State, after: State, i: nat)
    requires s.attempts != [] && |after.attempts| == |s.attempts| && i < |s.attempts| - 1
    requires after.attempts[..|s.attempts| - 1] == s.attempts[..|s.attempts| - 1] && after.now == s.now
    requires Failed(after.attempts[i]) && Undisturbed(after.attempts, i, |after.attempts|)
    requires Remembered(account, s) && CooledDown(s) && AttemptsFit(s) && LastAttempt(s).end.None?
    requires LastAttempt(after).end.Some? && LastAttempt(after).end.value.0 == s.now
    requires LastAttempt(after).material == LastAttempt(s).material
    requires var key, m := FailureKey(account, RegisterTask), LastAttempt(s).material;
             after.failures == if Failed(LastAttempt(after)) then s.failures[key := Failure(s.now, m)]
               else Forgotten(s.failures, key, m)
    ensures Kept(account, after, i)
  {
    hide FailureKey;
    var last := |s.attempts| - 1;
    assert s.attempts[i] == s.attempts[..last][i] == after.attempts[i];
    UndisturbedFrame(after.attempts, s.attempts, i, last);
    assert Undisturbed(after.attempts, i, last);
    assert Undisturbed(s.attempts, i, |s.attempts|);
    assert AttemptFits(s, i) && AttemptFits(s, last);
    if s.attempts[i].material == s.attempts[last].material {
      assert s.attempts[i].end.value.0 + TTL <= s.attempts[last].checked;
    }
  }

  lemma CooledCheck(account: string, s: State, t: WorkerId, i: nat)
    requires LockFits(s) && LoadedFits(s) && Remembered(account, s) && Enabled(account, s, Check(t))
    requires |Apply(account, s, Check(t)).attempts| > |s.attempts| > i && Failed(s.attempts[i])
    requires s.attempts[i].material == LastAttempt(Apply(account, s, Check(t))).material
    requires Undisturbed(s.attempts, i, |s.attempts|)
    ensures s.attempts[i].end.value.0 + TTL <= LastAttempt(Apply(account, s, Check(t))).checked
  {
    CheckView(account, s, t);
    assert Kept(account, s, i);
    hide Apply, FailureKey;
  }

  lemma CooledStep(account: string, s: State, step: Step)
    requires LockFits(s) && OpenFits(s) && LoadedFits(s) && Remembered(account, s) && CooledDown(s)
    requires Enabled(account, s, step)
    ensures CooledDown(Apply(account, s, step))
  {
    hide Apply, OpenFits, LockFits, LoadedFits, Remembered, FailureKey, Undisturbed, Blocks, Retained;
    var after := Apply(account, s, step);
    LogView(account, s, step);
    if step.Check? {
      CheckView(account, s, step.t);
    } else if !Quiet(step) {
      OpenView(account, s, step);
    }
    forall i: nat, j: nat | i < j < |after.attempts| && Failed(after.attempts[i])
      && after.attempts[i].material == after.attempts[j].material && Undisturbed(after.attempts, i, j)
      ensures after.attempts[i].end.value.0 + TTL <= after.attempts[j].checked
    {
      assert after.attempts[..j] == s.attempts[..j];
      assert after.attempts[i] == after.attempts[..j][i] == s.attempts[i];
      UndisturbedFrame(after.attempts, s.attempts, i, j);
      if j == |s.attempts| {
        CooledCheck(account, s, step.t, i);
      }
    }
  }

  lemma TracedStep(account: string, s: State, step: Step)
    requires LockFits(s) && OpenFits(s) && Traced(account, s) && Enabled(account, s, step)
    ensures Traced(account, Apply(account, s, step))
  {
    var key, after := FailureKey(account, RegisterTask), Apply(account, s, step);
    LogView(account, s, step);
    if step.Settle? {
      SettleView(account, s, step.t);
    } else {
      EntryView(account, s, step);
    }
    if !Quiet(step) && !step.Check? {
      OpenView(account, s, step);
    }
    hide Apply, OpenFits, LockFits, FailureKey;
    if key in after.failures && key in s.failures && after.failures[key] == s.failures[key]
       && !(step.Settle? && Failed(LastAttempt(after))) {
      var i: nat :| Newest(s.failures[key], s.attempts, i);
      NewestStays(s.failures[key], s.attempts, after.attempts, i);
    } else if key in after.failures {
      assert Newest(after.failures[key], after.attempts, |after.attempts| - 1);
    }
  }

  /** The newest failure remains so while all that happens is an attempt that has not failed. */
  lemma NewestStays(failure: Failure, a: seq<Attempt>, b: seq<Attempt>, i: nat)
    requires Newest(failure, a, i)
    requires |a| <= |b| <= |a| + 1 && (|b| > |a| ==> !Failed(b[|a|]))
    requires forall k :: 0 <= k < |a| ==> b[k] == a[k] || (k == |a| - 1 && a[k].end.None? && !Failed(b[k]))
    ensures Newest(failure, b, i)
  {
  }

  lemma InvInit(account: string, s: State)
    requires Init(account, s)
    ensures Inv(account, s)
  {
  }

  lemma InvStep(account: string, s: State, step: Step)
    requires Inv(account, s) && Enabled(account, s, step)
    ensures Inv(account, Apply(account, s, step))
  {
    hide *;
    assert |s.versions| > 0 && LockFits(s) && OpenFits(s) && LoadedFits(s) && AttemptsFit(s) && InOrder(s)
      && IdsKnown(s) && IdsFresh(s) && Remembered(account, s) && CooledDown(s) && Traced(account, s) by {
      InvParts(account, s);
    }
    LockStep(account, s, step);
    OpenStep(account, s, step);
    LogView(account, s, step);
    LoadedStep(account, s, step);
    AttemptsStep(account, s, step);
    OrderStep(account, s, step);
    KnownStep(account, s, step);
    FreshStep(account, s, step);
    if step.Settle? {
      RememberedSettle(account, s, step);
    } else {
      RememberedQuiet(account, s, step);
    }
    CooledStep(account, s, step);
    TracedStep(account, s, step);
    InvWhole(account, Apply(account, s, step));
  }

  lemma InvParts(account: string, s: State)
    requires Inv(account, s)
    ensures |s.versions| > 0 && LockFits(s) && OpenFits(s) && LoadedFits(s) && AttemptsFit(s) && InOrder(s)
    ensures IdsKnown(s) && IdsFresh(s) && Remembered(account, s) && CooledDown(s) && Traced(account, s)
  {
  }

  lemma InvWhole(account: string, s: State)
    requires |s.versions| > 0 && LockFits(s) && OpenFits(s) && LoadedFits(s) && AttemptsFit(s) && InOrder(s)
    requires IdsKnown(s) && IdsFresh(s) && Remembered(account, s) && CooledDown(s) && Traced(account, s)
    ensures Inv(account, s)
  {
  }

  lemma {:induction false} InvAlways(account: string, init: State, steps: seq<Step>)
    requires Init(account, init) && Run(account, init, steps).Some?
    ensures Inv(account, Run(account, init, steps).value)
  {
    if steps == [] {
      InvInit(account, init);
    } else {
      hide Inv, Apply, Enabled, Init;
      InvAlways(account, init, steps[..|steps| - 1]);
      InvStep(account, Run(account, init, steps[..|steps| - 1]).value, steps[|steps| - 1]);
    }
  }

  // ----- what the protocol promises -----

  /**
   Each stored task, or its absence, is replaced by at most one registration; the worker that made
   it had seen, under the lock, no task or the one that failed it, and overwrites exactly what it
   saw unless somebody outside the protocol wrote the row in between.
   */
  lemma OneReplacementPerValue(account: string, init: State, steps: seq<Step>, i: nat)
    requires Init(account, init) && Run(account, init, steps).Some?
    requires var s := Run(account, init, steps).value; i < |s.attempts| && s.attempts[i].wrote.Some?
    ensures var s := Run(account, init, steps).value;
            var a := s.attempts[i];
            && a.version < a.wrote.value < |s.versions| && s.versions[a.version].row.Some?
            && (TaskOf(s.versions[a.version].row.value).None? || TaskOf(s.versions[a.version].row.value) == a.failed)
            && s.versions[a.wrote.value].row == Some(Identity(a.material, a.id))
            && s.versions[a.version].row.value.material == a.material
            && (forall v :: a.version < v < a.wrote.value ==> s.versions[v].author.External?)
            && (forall j :: 0 <= j < |s.attempts| && j != i ==> s.attempts[j].wrote != a.wrote)
            && (forall j :: i < j < |s.attempts| ==> a.wrote.value <= s.attempts[j].version)
  {
    InvAlways(account, init, steps);
    var s := Run(account, init, steps).value;
    OnlyOutsidersBetween(s, i);
  }

  lemma OnlyOutsidersBetween(s: State, i: nat)
    requires AttemptsFit(s) && InOrder(s) && i < |s.attempts| && s.attempts[i].wrote.Some?
    ensures AttemptFits(s, i)
    ensures forall v :: s.attempts[i].version < v < s.attempts[i].wrote.value ==>
            v < |s.versions| && s.versions[v].author.External?
    ensures forall j :: 0 <= j < |s.attempts| && j != i ==> s.attempts[j].wrote != s.attempts[i].wrote
  {
    assert AttemptFits(s, i);
    forall k: nat | k < |s.attempts| && s.attempts[k].wrote.Some?
      ensures k == i || s.attempts[k].wrote.value <= s.attempts[i].version
              || s.attempts[i].wrote.value < s.attempts[k].wrote.value
    {
      assert AttemptFits(s, k);
    }
    forall j: nat | j < |s.attempts| && j != i
      ensures s.attempts[j].wrote != s.attempts[i].wrote
    {
      assert AttemptFits(s, j);
    }
  }

  lemma WritesInOrder(s: State, i: nat, k: nat)
    requires AttemptsFit(s) && InOrder(s) && i < |s.attempts| && k < |s.attempts|
    requires s.attempts[i].wrote.Some? && s.attempts[k].wrote.Some?
    requires s.attempts[i].wrote.value <= s.attempts[k].wrote.value
    ensures i <= k
  {
    assert AttemptFits(s, i);
  }

  /**
   While only the protocol writes the row, a worker that registers after a replacement reports the
   very id then stored as failed, and never the id an earlier worker reported: everybody else who
   reports that one reuses the replacement.
   */
  lemma LaterWorkersReuse(account: string, init: State, steps: seq<Step>, i: nat, j: nat)
    requires Init(account, init) && Run(account, init, steps).Some?
    requires var s := Run(account, init, steps).value;
             && i < j < |s.attempts| && s.attempts[i].wrote.Some?
             && (forall v :: s.attempts[i].wrote.value <= v <= s.attempts[j].version && v < |s.versions| ==>
                 s.versions[v].author.Attempted?)
    ensures var s := Run(account, init, steps).value;
            && s.attempts[j].version < |s.versions| && s.versions[s.attempts[j].version].row.Some?
            && s.attempts[j].failed.Some? && s.attempts[j].failed == TaskOf(s.versions[s.attempts[j].version].row.value)
            && s.attempts[j].failed != s.attempts[i].failed
  {
    InvAlways(account, init, steps);
    var s := Run(account, init, steps).value;
    assert AttemptFits(s, i) && AttemptFits(s, j);
    var k := s.versions[s.attempts[j].version].author.index;
    assert AttemptFits(s, k);
    assert AttemptKnown(s, s.attempts[k]);
    WritesInOrder(s, i, k);
  }

  /** No registration within 300 seconds of a failed one, while no other material has failed in between. */
  lemma CoolDown(account: string, init: State, steps: seq<Step>, i: nat, j: nat)
    requires Init(account, init) && Run(account, init, steps).Some?
    requires var s := Run(account, init, steps).value;
             && i < j < |s.attempts| && Failed(s.attempts[i]) && s.attempts[i].material == s.attempts[j].material
             && Undisturbed(s.attempts, i, j)
    ensures var s := Run(account, init, steps).value; s.attempts[i].end.value.0 + TTL <= s.attempts[j].checked
  {
    InvAlways(account, init, steps);
  }

  /** A recent failure of the material with no other material failed since. */
  ghost predicate Bars(s: State, i: nat, material: Material) {
    && i < |s.attempts| && Failed(s.attempts[i]) && s.attempts[i].material == material
    && s.now < s.attempts[i].end.value.0 + TTL && Undisturbed(s.attempts, i, |s.attempts|)
  }

  /**
   A worker is turned away exactly for a failure of its own material, less than 300 seconds old,
   with no other failed since.
   */
  lemma RefusedExactly(account: string, init: State, steps: seq<Step>, t: WorkerId)
    requires Init(account, init) && Run(account, init, steps).Some?
    requires var s := Run(account, init, steps).value; Enabled(account, s, Check(t))
    ensures var s := Run(account, init, steps).value;
            Apply(account, s, Check(t)).stages[t].Done? <==> exists i: nat :: Bars(s, i, s.stages[t].identity.material)
  {
    InvAlways(account, init, steps);
    var s := Run(account, init, steps).value;
    var m := s.stages[t].identity.material;
    InvParts(account, s);
    RefusedIfBlocked(account, s, t);
    BlockedExactly(account, s, m);
    hide *;
  }

  lemma RefusedIfBlocked(account: string, s: State, t: WorkerId)
    requires Enabled(account, s, Check(t))
    ensures Apply(account, s, Check(t)).stages[t].Done?
            <==> Blocks(s.failures, FailureKey(account, RegisterTask), s.stages[t].identity.material, s.now)
  {
    hide Blocks, FailureKey, Retained;
  }

  lemma BlockedExactly(account: string, s: State, m: Material)
    requires Remembered(account, s) && Traced(account, s)
    ensures Blocks(s.failures, FailureKey(account, RegisterTask), m, s.now) <==> exists i: nat :: Bars(s, i, m)
  {
    hide FailureKey;
    var key := FailureKey(account, RegisterTask);
    if Blocks(s.failures, key, m, s.now) {
      var i: nat :| Newest(s.failures[key], s.attempts, i);
      assert Bars(s, i, m);
    }
    if i: nat :| Bars(s, i, m) {
      assert Kept(account, s, i);
    }
  }

  // ----- a cool-down that is lifted -----

  /** One worker that finds no task, registers and gets no answer. */
  function FailingCall(t: WorkerId): seq<Step> {
    [Start(t, None), Load(t, Reads(true, true)), Lock(t), Reload(t, Reads(true, true)), Check(t), Register(t, None),
     Settle(t)]
  }

  function FailedAt(s: State, t: WorkerId, m: Material): Attempt {
    Attempt(t, None, if s.versions == [] then 0 else |s.versions| - 1, m, s.now, None, None, Some((s.now, false)))
  }

  /** What such a call leaves. */
  function AfterFailure(account: string, s: State, t: WorkerId, m: Material): State {
    s.(stages := s.stages[t := Done(Error)],
       failures := Retained(s.failures, s.now)[FailureKey(account, RegisterTask) := Failure(s.now, m)],
       attempts := s.attempts + [FailedAt(s, t, m)])
  }

  function Unregistered(m: Material): Option<Identity> {
    Some(Identity(m, None))
  }

  /** A worker about to register. */
  lemma ReachesCheck(account: string, s: State, t: WorkerId, m: Material)
    requires t !in s.stages && s.lock.None? && s.versions != [] && Row(s) == Unregistered(m)
    ensures Run(account, s, FailingCall(t)[..4])
            == Some(s.(stages := s.stages[t := Loaded(None, |s.versions| - 1, Identity(m, None))], lock := Some(t)))
  {
    var steps := FailingCall(t);
    var load, started := Reads(true, true), Apply(account, s, steps[0]);
    assert Run(account, s, []) == Some(s);
    assert steps[..1][..0] == [] && Run(account, s, steps[..1]) == Some(started);
    assert started.issued == s.issued && Examine(Row(started), load, None) == None;
    var waiting := Apply(account, started, steps[1]);
    assert steps[..2][..1] == steps[..1] && Run(account, s, steps[..2]) == Some(waiting);
    var locked := Apply(account, waiting, steps[2]);
    assert steps[..3][..2] == steps[..2] && Run(account, s, steps[..3]) == Some(locked);
    var loaded := Apply(account, locked, steps[3]);
    assert steps[..4][..3] == steps[..3] && Run(account, s, steps[..4]) == Some(loaded);
    assert Row(locked) == Row(s) && loaded.stages == s.stages[t := Loaded(None, |s.versions| - 1, Identity(m, None))];
  }

  /** The material is let through, and an attempt is opened. */
  function Opened(s: State, t: WorkerId, m: Material): State {
    var a := FailedAt(s, t, m).(end := None);
    s.(stages := s.stages[t := Registering(Identity(m, None))], failures := Retained(s.failures, s.now),
       attempts := s.attempts + [a])
  }

  lemma LetThrough(account: string, s: State, t: WorkerId, m: Material)
    requires t in s.stages && s.versions != [] && s.stages[t] == Loaded(None, |s.versions| - 1, Identity(m, None))
    requires !Blocks(s.failures, FailureKey(account, RegisterTask), m, s.now)
    ensures Apply(account, s, Check(t)) == Opened(s, t, m)
  {
    hide FailureKey, Retained, Blocks;
  }

  lemma Unanswered(account: string, s: State, t: WorkerId, m: Material)
    ensures Apply(account, Opened(s, t, m), Register(t, None))
            == Opened(s, t, m).(stages := s.stages[t := Settling(Identity(m, None), Error)])
  {
    hide Retained;
    NormalizeIdempotent(None);
    assert s.stages[t := Registering(Identity(m, None))][t := Settling(Identity(m, None), Error)]
        == s.stages[t := Settling(Identity(m, None), Error)];
  }

  lemma SettlesAsFailed(account: string, s: State, t: WorkerId, m: Material)
    ensures Apply(account, Opened(s, t, m).(stages := s.stages[t := Settling(Identity(m, None), Error)]), Settle(t))
            == AfterFailure(account, s, t, m).(lock := None)
  {
    hide FailureKey, Retained;
    assert s.stages[t := Settling(Identity(m, None), Error)][t := Done(Error)] == s.stages[t := Done(Error)];
    assert (s.attempts + [FailedAt(s, t, m).(end := None)])[|s.attempts| := FailedAt(s, t, m)]
        == s.attempts + [FailedAt(s, t, m)];
  }

  /** The rest of the call. */
  lemma FailsFromCheck(account: string, s: State, t: WorkerId, m: Material)
    requires t in s.stages && s.versions != [] && s.stages[t] == Loaded(None, |s.versions| - 1, Identity(m, None))
    requires !Blocks(s.failures, FailureKey(account, RegisterTask), m, s.now)
    ensures Run(account, s, [Check(t), Register(t, None), Settle(t)])
            == Some(AfterFailure(account, s, t, m).(lock := None))
  {
    RunNothing(account, s);
    LetThrough(account, s, t, m);
    NormalizeIdempotent(None);
    hide FailureKey, Retained, Blocks, Run, Apply, AfterFailure;
    Unanswered(account, s, t, m);
    SettlesAsFailed(account, s, t, m);
    RunSnoc(account, s, [], Check(t));
    RunSnoc(account, s, [] + [Check(t)], Register(t, None));
    RunSnoc(account, s, [] + [Check(t)] + [Register(t, None)], Settle(t));
    assert [] + [Check(t)] + [Register(t, None)] + [Settle(t)] == [Check(t), Register(t, None), Settle(t)];
  }

  lemma RunNothing(account: string, s: State)
    ensures Run(account, s, []) == Some(s)
  {
  }

  lemma RunSnoc(account: string, s: State, steps: seq<Step>, step: Step)
    requires Run(account, s, steps).Some? && Enabled(account, Run(account, s, steps).value, step)
    ensures Run(account, s, steps + [step]) == Some(Apply(account, Run(account, s, steps).value, step))
  {
    assert (steps + [step])[..|steps|] == steps;
  }

  lemma {:induction false} RunConcat(account: string, s: State, first: seq<Step>, second: seq<Step>)
    requires Run(account, s, first).Some?
    ensures Run(account, s, first + second) == Run(account, Run(account, s, first).value, second)
  {
    hide Apply, Enabled;
    if second == [] {
      assert first + second == first;
    } else {
      RunConcat(account, s, first, second[..|second| - 1]);
      assert (first + second)[..|first + second| - 1] == first + second[..|second| - 1];
    }
  }

  lemma CallFails(account: string, s: State, t: WorkerId, m: Material)
    requires t !in s.stages && s.lock.None? && s.versions != [] && Row(s) == Unregistered(m)
    requires !Blocks(s.failures, FailureKey(account, RegisterTask), m, s.now)
    ensures Run(account, s, FailingCall(t)) == Some(AfterFailure(account, s, t, m))
  {
    hide FailureKey, Retained, Blocks, Run;
    ReachesCheck(account, s, t, m);
    var loaded := Run(account, s, FailingCall(t)[..4]).value;
    FailsFromCheck(account, loaded, t, m);
    RunConcat(account, s, FailingCall(t)[..4], [Check(t), Register(t, None), Settle(t)]);
    assert FailingCall(t) == FailingCall(t)[..4] + [Check(t), Register(t, None), Settle(t)];
    assert loaded.stages[t := Done(Error)] == s.stages[t := Done(Error)];
  }

  /** Material `a` fails, the row is given other material and that fails, and the row gets `a` back. */
  function LiftingRun(a: Material, b: Material): seq<Step> {
    FailingCall(0) + [Replace(Unregistered(b))] + FailingCall(1) + [Replace(Unregistered(a))] + FailingCall(2)
  }

  function Fresh(a: Material): State {
    State([Version(Unregistered(a), External)], None, map[], map[], 0, [], {})
  }

  lemma ReplaceRuns(account: string, s: State, m: Material)
    ensures Run(account, s, [Replace(Unregistered(m))])
            == Some(s.(versions := s.versions + [Version(Unregistered(m), External)]))
  {
    assert Run(account, s, []) == Some(s);
  }

  /** A failure of other material in between lifts the cool-down: the first one registers again at once. */
  lemma OtherMaterialLiftsCoolDown(account: string, a: Material, b: Material)
    requires a != b
    ensures Init(account, Fresh(a)) && Run(account, Fresh(a), LiftingRun(a, b)).Some?
    ensures var attempts := Run(account, Fresh(a), LiftingRun(a, b)).value.attempts;
            && |attempts| == 3 && Failed(attempts[0]) && attempts[0].material == attempts[2].material == a
            && attempts[2].checked < attempts[0].end.value.0 + TTL
  {
    hide FailureKey, Retained, Run;
    var s0, key := Fresh(a), FailureKey(account, RegisterTask);
    CallFails(account, s0, 0, a);
    var s1 := AfterFailure(account, s0, 0, a);
    ReplaceRuns(account, s1, b);
    var s2 := s1.(versions := s1.versions + [Version(Unregistered(b), External)]);
    assert s2.failures[key] == Failure(0, a);
    CallFails(account, s2, 1, b);
    var s3 := AfterFailure(account, s2, 1, b);
    ReplaceRuns(account, s3, a);
    var s4 := s3.(versions := s3.versions + [Version(Unregistered(a), External)]);
    assert s4.failures[key] == Failure(0, b);
    CallFails(account, s4, 2, a);
    RunConcat(account, s0, FailingCall(0), [Replace(Unregistered(b))]);
    RunConcat(account, s0, FailingCall(0) + [Replace(Unregistered(b))], FailingCall(1));
    RunConcat(account, s0, FailingCall(0) + [Replace(Unregistered(b))] + FailingCall(1), [Replace(Unregistered(a))]);
    RunConcat(account, s0, FailingCall(0) + [Replace(Unregistered(b))] + FailingCall(1) + [Replace(Unregistered(a))],
              FailingCall(2));
  }

  // ----- the resolver -----

  /** The row after what somebody else wrote meanwhile, if anything. */
  function AfterOutsider(row: Option<Identity>, write: Option<Option<Identity>>): Option<Identity> {
    if write.Some? then write.value else row
  }

  /** A row holds a task that is not the one reported as failed. */
  predicate Offers(row: Option<Identity>, failed: Option<string>, id: string) {
    row.Some? && Normalize(row.value.task) == Some(id) && failed != Some(id)
  }

  /** A valid row that offers no task: the worker goes on to the next step. */
  ghost predicate Proceeds(row: Option<Identity>, read: Read, failed: Option<string>) {
    read.Reads? && read.valid && row.Some? && forall id :: !Offers(row, failed, id)
  }

  /** The registered task is stored: it is not blank, and the row still has the material it was asked for. */
  predicate Stores(material: Material, row: Option<Identity>, answer: Option<string>, stores: bool) {
    Normalize(answer).Some? && stores && row.Some? && row.value.material == material
  }

  /** What the registration of a task leaves in the row. */
  function RowAfter(material: Material, row: Option<Identity>, answer: Option<string>, stores: bool): Option<Identity> {
    if Stores(material, row, answer, stores) then Some(row.value.(task := Normalize(answer))) else row
  }

  predicate Registers(material: Material, row: Option<Identity>, answer: Option<string>, stores: bool, signs: bool,
                      id: string) {
    Stores(material, row, answer, stores) && signs && Normalize(answer) == Some(id)
  }

  /** Each read ends the call with the task it offers, refuses it, or lets it go on. */
  lemma ExamineView(row: Option<Identity>, read: Read, failed: Option<string>)
    ensures Examine(row, read, failed).None? <==> Proceeds(row, read, failed)
    ensures forall id :: Examine(row, read, failed) == Some(Resolved(id))
              <==> read == Reads(true, true) && Offers(row, failed, id)
    ensures Examine(row, read, failed) == Some(Unavailable) <==> read.Reads? && (row.None? || !read.valid)
  {
    hide Normalize;
    if row.Some? && TaskOf(row.value).Some? {
      assert Reusable(row.value, failed) <==> Offers(row, failed, TaskOf(row.value).value);
    }
  }

  /** One account's stored identity and the process-wide failures, beside the machine they stand for. */
  class AccountTasks {
    const account: string
    const failures: FailureMap
    var row: Option<Identity>
    var clock: Time
    ghost var machine: State

    ghost predicate Coupled()
      reads this, failures
    {
      machine.versions != [] && row == Row(machine) && failures.entries == machine.failures && clock == machine.now
    }

    constructor (account: string, row: Option<Identity>, clock: Time)
      ensures this.account == account && this.row == row && fresh(failures)
      ensures Coupled() && Init(account, machine) && machine.lock.None?
    {
      this.account, this.row, this.clock := account, row, clock;
      failures := new FailureMap();
      machine := State([Version(row, External)], None, map[], map[], clock, [],
                       NowIssued({}, if row.Some? then TaskOf(row.value) else None));
    }

    ghost method Advance(init: State, trace: seq<Step>, step: Step) returns (longer: seq<Step>)
      requires Run(account, init, trace) == Some(machine) && Enabled(account, machine, step)
      modifies this`machine
      ensures machine == Apply(account, old(machine), step) && Run(account, init, longer) == Some(machine)
    {
      RunSnoc(account, init, trace, step);
      longer := trace + [step];
      machine := Apply(account, machine, step);
    }

    /** Another writer may change the row while the worker waits. */
    method Outsider(write: Option<Option<Identity>>, ghost init: State, ghost trace: seq<Step>)
      returns (ghost longer: seq<Step>)
      requires Coupled() && Run(account, init, trace) == Some(machine)
      modifies this`row, this`machine
      ensures row == AfterOutsider(old(row), write)
      ensures Coupled() && Run(account, init, longer) == Some(machine)
      ensures machine.stages == old(machine).stages && machine.lock == old(machine).lock
              && machine.attempts == old(machine).attempts
      ensures machine.issued ==
                if write.Some? && write.value.Some? then NowIssued(old(machine).issued, TaskOf(write.value.value))
                  else old(machine).issued
    {
      hide Run, TaskOf;
      longer := trace;
      if write.Some? {
        row := write.value;
        longer := Advance(init, trace, Replace(write.value));
      }
    }

    /**
     The whole call, seen from one worker. Whatever the reads, the endpoint and other writers do,
     it is a run of the protocol that leaves the lock free and the worker with the result. It is
     given a task exactly if a valid, signing read finds one that did not fail, or, neither read
     offering one and nothing holding it back, it registers and stores one.
     */
    method Resolve(ghost t: WorkerId, failed: Option<string>, first: Read, second: Read,
                   meanwhile: Option<Option<Identity>>, during: Option<Option<Identity>>,
                   answer: Option<string>, delay: nat, stores: bool, signs: bool)
      returns (finish: Finish, ghost trace: seq<Step>)
      requires Coupled() && t !in machine.stages && machine.lock.None?
      requires Normalize(answer).Some? ==>
               Normalize(answer).value !in machine.issued && Some(Normalize(answer).value) != failed
      requires meanwhile.Some? && meanwhile.value.Some? && TaskOf(meanwhile.value.value).Some?
               ==> TaskOf(meanwhile.value.value) != Normalize(answer)
      modifies this, failures
      ensures Coupled() && Run(account, old(machine), trace) == Some(machine)
      ensures machine.lock.None? && t in machine.stages && machine.stages[t] == Done(finish)
      ensures var seen := AfterOutsider(old(row), meanwhile);
              && (forall id :: finish == Resolved(id) <==>
                    || (first == Reads(true, true) && Offers(old(row), failed, id))
                    || (Proceeds(old(row), first, failed) && second == Reads(true, true) && Offers(seen, failed, id))
                    || (Proceeds(old(row), first, failed) && Proceeds(seen, second, failed)
                        && !Blocks(old(failures.entries), FailureKey(account, RegisterTask), seen.value.material,
                                   old(clock))
                        && Registers(seen.value.material, AfterOutsider(seen, during), answer, stores, signs, id)))
              && (finish.Unavailable? <==>
                    || (first.Reads? && (old(row).None? || !first.valid))
                    || (Proceeds(old(row), first, failed) && second.Reads? && seen.Some? && !second.valid))
      ensures var seen := AfterOutsider(old(row), meanwhile);
              row == if !Proceeds(old(row), first, failed) then old(row)
                     else if !Proceeds(seen, second, failed)
                             || Blocks(old(failures.entries), FailureKey(account, RegisterTask), seen.value.material,
                                       old(clock)) then seen
                     else RowAfter(seen.value.material, AfterOutsider(seen, during), answer, stores)
    {
      hide Run, Examine, Normalize, Reusable, TaskOf, Blocks, FailureKey, Registers, RowAfter, Offers, Proceeds;
      ExamineView(row, first, failed);
      ghost var init := machine;
      RunNothing(account, init);
      trace := Advance(init, [], Start(t, failed));
      trace := Advance(init, trace, Load(t, first));
      var early := Examine(row, first, failed);
      if early.Some? {
        return early.value, trace;
      }
      trace := Outsider(meanwhile, init, trace);
      finish, trace := ResolveLocked(t, failed, second, during, answer, delay, stores, signs, init, trace);
    }

    method ResolveLocked(ghost t: WorkerId, failed: Option<string>, second: Read, during: Option<Option<Identity>>,
                         answer: Option<string>, delay: nat, stores: bool, signs: bool, ghost init: State,
                             ghost before: seq<Step>)
      returns (finish: Finish, ghost trace: seq<Step>)
      requires Coupled() && Run(account, init, before) == Some(machine) && machine.lock.None?
      requires t in machine.stages && machine.stages[t] == Waiting(failed)
      requires Normalize(answer).Some? ==> Normalize(answer).value !in machine.issued
      modifies this, failures
      ensures Coupled() && Run(account, init, trace) == Some(machine)
      ensures machine.lock.None? && t in machine.stages && machine.stages[t] == Done(finish)
      ensures forall id :: finish == Resolved(id) <==>
                || (second == Reads(true, true) && Offers(old(row), failed, id))
                || (Proceeds(old(row), second, failed)
                    && !Blocks(old(failures.entries), FailureKey(account, RegisterTask), old(row).value.material,
                               old(clock))
                    && Registers(old(row).value.material, AfterOutsider(old(row), during), answer, stores, signs, id))
      ensures finish.Unavailable? <==> second.Reads? && old(row).Some? && !second.valid
      ensures row == if !Proceeds(old(row), second, failed)
                        || Blocks(old(failures.entries), FailureKey(account, RegisterTask), old(row).value.material,
                                  old(clock)) then old(row)
                     else RowAfter(old(row).value.material, AfterOutsider(old(row), during), answer, stores)
    {
      hide Run, Examine, Normalize, TaskOf, Reusable, Blocks, FailureKey, Registers, RowAfter, Offers, Proceeds;
      ExamineView(row, second, failed);
      trace := Advance(init, before, Lock(t));
      trace := Advance(init, trace, Reload(t, second));
      if row.None? {
        return Error, trace;
      }
      var identity := row.value;
      var late := Examine(row, second, failed);
      if late.Some? {
        return late.value, trace;
      }
      finish, trace := RegisterTaskFor(t, identity, during, answer, delay, stores, signs, init, trace);
    }

    method RegisterTaskFor(ghost t: WorkerId, identity: Identity, during: Option<Option<Identity>>,
                           answer: Option<string>,
                           delay: nat, stores: bool, signs: bool, ghost init: State, ghost before: seq<Step>)
      returns (finish: Finish, ghost trace: seq<Step>)
      requires Coupled() && Run(account, init, before) == Some(machine)
      requires t in machine.stages && machine.stages[t].Loaded? && machine.stages[t].identity == identity
      requires Normalize(answer).Some? ==> Normalize(answer).value !in machine.issued
      modifies this, failures
      ensures Coupled() && Run(account, init, trace) == Some(machine)
      ensures machine.lock.None? && t in machine.stages && machine.stages[t] == Done(finish)
      ensures var cooling := Blocks(old(failures.entries), FailureKey(account, RegisterTask), identity.material,
                                    old(clock));
              && !finish.Unavailable?
              && (forall id :: finish == Resolved(id) <==>
                    !cooling
                    && Registers(identity.material, AfterOutsider(old(row), during), answer, stores, signs, id))
              && row == (if cooling then old(row)
                         else RowAfter(identity.material, AfterOutsider(old(row), during), answer, stores))
    {
      hide Run, FailureKey, Normalize, Retained, Forgotten, Registers, RowAfter;
      var key := FailureKey(account, RegisterTask);
      var cooling := failures.IsActive(key, identity.material, clock);
      trace := Advance(init, before, Check(t));
      if cooling {
        return Error, trace;
      }
      finish, trace := StoreTask(t, identity, during, answer, delay, stores, signs, init, trace);
      if finish.Error? {
        failures.Remember(key, identity.material, clock);
      } else {
        failures.Clear(key, identity.material);
      }
      trace := Advance(init, trace, Settle(t));
    }

    /**
     The update meets a row only if there is one of the agent's mode with the material the worker read;
     a row that was replaced, removed or changed to another mode meanwhile is left alone.
     */
    method StoreTask(ghost t: WorkerId, identity: Identity, during: Option<Option<Identity>>, answer: Option<string>,
                     delay: nat, stores: bool, signs: bool, ghost init: State, ghost before: seq<Step>)
      returns (finish: Finish, ghost trace: seq<Step>)
      requires Coupled() && Run(account, init, before) == Some(machine)
      requires t in machine.stages && machine.stages[t].Registering? && machine.stages[t].identity == identity
      requires machine.attempts != []
      requires Normalize(answer).Some? ==> Normalize(answer).value !in machine.issued
      modifies this
      ensures Coupled() && Run(account, init, trace) == Some(machine)
      ensures t in machine.stages && machine.stages[t] == Settling(identity, finish) && machine.attempts != []
      ensures forall id :: finish == Resolved(id)
                <==> Registers(identity.material, AfterOutsider(old(row), during), answer, stores, signs, id)
      ensures !finish.Unavailable?
      ensures row == RowAfter(identity.material, AfterOutsider(old(row), during), answer, stores)
    {
      hide Run, Normalize, TaskOf;
      trace := Receive(t, identity, during, answer, delay, init, before);
      var id := Normalize(answer);
      if id.None? {
        return Error, trace;
      }
      trace := Advance(init, trace, Persist(t, stores, signs));
      if !stores || row.None? || row.value.material != identity.material {
        return Error, trace;
      }
      row := Some(row.value.(task := id));
      finish := if signs then Resolved(id.value) else Error;
    }

    /** The call of the endpoint, during which time passes and somebody else may write the row. */
    method Receive(ghost t: WorkerId, ghost identity: Identity, during: Option<Option<Identity>>,
                   ghost answer: Option<string>, delay: nat, ghost init: State, ghost before: seq<Step>)
      returns (ghost trace: seq<Step>)
      requires Coupled() && Run(account, init, before) == Some(machine)
      requires t in machine.stages && machine.stages[t].Registering? && machine.stages[t].identity == identity
      requires machine.attempts != []
      requires Normalize(answer).Some? ==> Normalize(answer).value !in machine.issued
      modifies this
      ensures Coupled() && Run(account, init, trace) == Some(machine) && row == AfterOutsider(old(row), during)
      ensures t in machine.stages && machine.attempts != []
      ensures machine.stages[t]
              == if Normalize(answer).Some? then Persisting(identity, Normalize(answer).value)
                 else Settling(identity, Error)
    {
      hide Run, Normalize, TaskOf;
      trace := Advance(init, before, Register(t, answer));
      clock := clock + delay;
      trace := Advance(init, trace, Tick(delay));
      trace := Outsider(during, init, trace);
    }
  }
}
