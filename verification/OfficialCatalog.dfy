/**
 The cache of the official model catalog: one file per API key, refreshed under one lock.

 A caller that finds no fresh snapshot takes the lock, reads again, and only then fetches. The
 snapshot is stamped and written by a disk worker that owns the lock from the moment it starts, so
 a caller cancelled while it waits leaves the write, and the lock, behind.
 */
module OfficialCatalog {
  import opened Wrappers
  import opened Text

  type CallerId = nat
  type Seconds = int

  /** `OFFICIAL_CATALOG_CACHE_TTL_SECS`. */
  const TTL: Seconds := 300

  /** An upstream answer; `valid` says whether its model list passes validation. */
  datatype Response = Response(valid: bool, models: seq<string>)

  /** A snapshot file: the answer with the fetch metadata merged in. */
  datatype Snapshot = Snapshot(response: Response, version: string, fetchedAt: Option<Seconds>, etag: Option<string>)

  datatype File = Garbled | Saved(snapshot: Snapshot)

  /** The file name is a digest of the trimmed key id. */
  function CacheKey(apiKeyId: string): string {
    Trim(apiKeyId)
  }

  predicate Usable(snapshot: Snapshot, version: string) {
    snapshot.version == version && snapshot.response.valid
  }

  /** A file that cannot be read counts as no snapshot at all. */
  function LoadCompatible(files: map<string, File>, key: string, version: string, faulted: bool): Option<Snapshot> {
    if faulted || key !in files || files[key].Garbled? || !Usable(files[key].snapshot, version) then None
    else Some(files[key].snapshot)
  }

  predicate Fresh(snapshot: Snapshot, now: Seconds) {
    snapshot.fetchedAt.Some? && now - snapshot.fetchedAt.value <= TTL
  }

  predicate HasFresh(cached: Option<Snapshot>, now: Seconds) {
    cached.Some? && Fresh(cached.value, now)
  }

  function Build(response: Response, version: string, etag: Option<string>, now: Seconds): (r: Result<Snapshot>)
    ensures r.Ok? <==> response.valid
    ensures r.Ok? ==> Usable(r.value, version) && r.value.response == response && r.value.fetchedAt == Some(now)
  {
    if response.valid then Ok(Snapshot(response, version, Some(now), Normalize(etag))) else Err
  }

  // ----- the protocol -----

  /** What a caller found under the lock, and when it decided to fetch. */
  datatype Pass = Pass(key: string, version: string, cached: Option<Snapshot>, faulted: bool, checked: Seconds)

  /** Where a returned snapshot came from. */
  datatype How = FromCache(at: Seconds) | JustFetched | AfterFailedFetch

  datatype Finish =
    | Error
    | Cancelled
    | Returned(snapshot: Snapshot, version: string, how: How)

  datatype Stage =
    | Checking(key: string, version: string, asked: Seconds)   // the clock is read before the file
    | Waiting(key: string, version: string)
    | Locked(key: string, version: string)
    | Loaded(key: string, version: string, cached: Option<Snapshot>, faulted: bool)
    | Fetching(pass: Pass)
    | Fetched(pass: Pass, response: Response, etag: Option<string>)
    | Awaiting
    | Done(finish: Finish)

  predicate HoldsLease(stage: Stage) {
    stage.Locked? || stage.Loaded? || stage.Fetching? || stage.Fetched?
  }

  /** The disk worker's closure, which owns the lease. */
  datatype Job = Job(pass: Pass, response: Response, etag: Option<string>, snapshot: Option<Snapshot>)

  datatype Written = Written(snapshot: Snapshot, pass: Pass)

  datatype State = State(
    files: map<string, File>,
    lock: Option<CallerId>,
    stages: map<CallerId, Stage>,
    jobs: map<CallerId, Job>,
    now: Seconds,
    written: seq<Written>      // every snapshot written, in order
  )

  datatype Read = WorkerFails | Reads(faulted: bool)

  datatype Step =
    | Start(t: CallerId, apiKeyId: string, version: string)
    | FirstRead(t: CallerId, read: Read)
    | Lock(t: CallerId)
    | SecondRead(t: CallerId, read: Read)
    | Check(t: CallerId)
    | Fetch(t: CallerId, answer: Option<(Response, Option<string>)>)
    | Spawn(t: CallerId)
    | Stamp(t: CallerId)
    | Write(t: CallerId, ok: bool)
    | Cancel(t: CallerId)
    | Tick(d: nat)

  predicate Init(s: State) {
    s.lock.None? && s.stages == map[] && s.jobs == map[] && s.written == []
  }

  predicate Enabled(s: State, step: Step) {
    match step
    case Start(t, _, _) => t !in s.stages
    case FirstRead(t, _) => t in s.stages && s.stages[t].Checking?
    case Lock(t) => t in s.stages && s.stages[t].Waiting? && s.lock.None?
    case SecondRead(t, _) => t in s.stages && s.stages[t].Locked?
    case Check(t) => t in s.stages && s.stages[t].Loaded?
    case Fetch(t, _) => t in s.stages && s.stages[t].Fetching?
    case Spawn(t) => t in s.stages && s.stages[t].Fetched?
    case Stamp(t) => t in s.jobs && s.jobs[t].snapshot.None?
    case Write(t, _) => t in s.jobs && s.jobs[t].snapshot.Some?
    case Cancel(t) => t in s.stages && !s.stages[t].Done?
    case Tick(_) => true
  }

  function Move(s: State, t: CallerId, stage: Stage): State {
    s.(stages := s.stages[t := stage])
  }

  function Leave(s: State, t: CallerId, finish: Finish): State {
    s.(stages := s.stages[t := Done(finish)], lock := None)
  }

  /** The worker is done: its lease goes, and the caller gets the result if it still waits. */
  function EndJob(s: State, t: CallerId, finish: Finish): State {
    s.(jobs := s.jobs - {t}, lock := None,
       stages := if t in s.stages && s.stages[t].Awaiting? then s.stages[t := Done(finish)] else s.stages)
  }

  function Apply(s: State, step: Step): State
    requires Enabled(s, step)
  {
    match step
    case Start(t, apiKeyId, version) => Move(s, t, Checking(CacheKey(apiKeyId), version, s.now))
    case FirstRead(t, read) => ApplyFirstRead(s, t, read)
    case Lock(t) => Move(s, t, Locked(s.stages[t].key, s.stages[t].version)).(lock := Some(t))
    case SecondRead(t, read) =>
      var stage := s.stages[t];
      if read.WorkerFails? then Leave(s, t, Error)
      else Move(s, t, Loaded(stage.key, stage.version, LoadCompatible(s.files, stage.key, stage.version, read.faulted),
                             read.faulted))
    case Check(t) =>
      var stage := s.stages[t];
      if HasFresh(stage.cached, s.now) then Leave(s, t, Returned(stage.cached.value, stage.version, FromCache(s.now)))
      else Move(s, t, Fetching(Pass(stage.key, stage.version, stage.cached, stage.faulted, s.now)))
    case Fetch(t, answer) =>
      var pass := s.stages[t].pass;
      if answer.Some? then Move(s, t, Fetched(pass, answer.value.0, answer.value.1))
      else Leave(s, t, if pass.cached.Some? then Returned(pass.cached.value, pass.version, AfterFailedFetch) else Error)
    case Spawn(t) =>
      var stage := s.stages[t];
      Move(s, t, Awaiting).(jobs := s.jobs[t := Job(stage.pass, stage.response, stage.etag, None)])
    case Stamp(t) => ApplyStamp(s, t)
    case Write(t, ok) => ApplyWrite(s, t, ok)
    case Cancel(t) => if HoldsLease(s.stages[t]) then Leave(s, t, Cancelled) else Move(s, t, Done(Cancelled))
    case Tick(d) => s.(now := s.now + d)
  }

  function ApplyFirstRead(s: State, t: CallerId, read: Read): State
    requires t in s.stages && s.stages[t].Checking?
  {
    var stage := s.stages[t];
    if read.WorkerFails? then Move(s, t, Done(Error))
    else
      var cached := LoadCompatible(s.files, stage.key, stage.version, read.faulted);
      if HasFresh(cached, stage.asked) then
        Move(s, t, Done(Returned(cached.value, stage.version, FromCache(stage.asked))))
      else Move(s, t, Waiting(stage.key, stage.version))
  }

  function ApplyStamp(s: State, t: CallerId): State
    requires t in s.jobs
  {
    var job := s.jobs[t];
    match Build(job.response, job.pass.version, job.etag, s.now)
    case Err => EndJob(s, t, Error)
    case Ok(snapshot) => s.(jobs := s.jobs[t := job.(snapshot := Some(snapshot))])
  }

  function ApplyWrite(s: State, t: CallerId, ok: bool): State
    requires t in s.jobs && s.jobs[t].snapshot.Some?
  {
    var pass, snapshot := s.jobs[t].pass, s.jobs[t].snapshot.value;
    if !ok then EndJob(s, t, Error)
    else
      EndJob(s, t, Returned(snapshot, pass.version, JustFetched)).(
        files := s.files[pass.key := Saved(snapshot)], written := s.written + [Written(snapshot, pass)])
  }

  /** A run: any interleaving of any number of callers, with cancellation at any point. */
  function Run(s: State, steps: seq<Step>): Option<State> {
    if steps == [] then Some(s)
    else
      match Run(s, steps[..|steps| - 1])
      case None => None
      case Some(before) =>
        if Enabled(before, steps[|steps| - 1]) then Some(Apply(before, steps[|steps| - 1])) else None
  }

  // ----- what every reachable state satisfies -----

  /** The lock is held by one caller, or by the one job it left behind. */
  ghost predicate LockFits(s: State) {
    LockHeld(s) && JobsOwned(s)
  }

  ghost predicate LockHeld(s: State) {
    forall t :: (t in s.stages && HoldsLease(s.stages[t])) || t in s.jobs <==> s.lock == Some(t)
  }

  /** A waiting caller has a job; a job's caller waits or is gone. */
  ghost predicate JobsOwned(s: State) {
    && (forall t :: t in s.jobs ==> t in s.stages && (s.stages[t].Awaiting? || s.stages[t].Done?))
    && (forall t :: t in s.stages && s.stages[t].Awaiting? ==> t in s.jobs)
  }

  /** What was read under the lock is still what the file says, and was out of date when checked. */
  ghost predicate PassFits(s: State, pass: Pass) {
    && (!pass.faulted ==> pass.cached == LoadCompatible(s.files, pass.key, pass.version, false))
    && (pass.cached.Some? ==> Usable(pass.cached.value, pass.version))
    && !HasFresh(pass.cached, pass.checked) && pass.checked <= s.now
  }

  ghost predicate StageFits(s: State, stage: Stage) {
    match stage
    case Loaded(key, version, cached, faulted) =>
      && (!faulted ==> cached == LoadCompatible(s.files, key, version, false))
      && (cached.Some? ==> Usable(cached.value, version))
    case Fetching(pass) => PassFits(s, pass)
    case Fetched(pass, _, _) => PassFits(s, pass)
    case Done(finish) => FinishFits(finish)
    case _ => true
  }

  /** What a caller may be given. */
  ghost predicate FinishFits(finish: Finish) {
    finish.Returned? ==>
      && Usable(finish.snapshot, finish.version)
      && (finish.how.FromCache? ==> Fresh(finish.snapshot, finish.how.at))
  }

  ghost predicate JobFits(s: State, job: Job) {
    && PassFits(s, job.pass)
    && (job.snapshot.Some? ==>
          && Usable(job.snapshot.value, job.pass.version) && job.snapshot.value.fetchedAt.Some?
          && job.pass.checked <= job.snapshot.value.fetchedAt.value <= s.now)
  }

  ghost predicate StagesFit(s: State) {
    && (forall t :: t in s.stages ==> StageFits(s, s.stages[t]))
    && (forall t :: t in s.jobs ==> JobFits(s, s.jobs[t]))
  }

  ghost predicate LastFor(written: seq<Written>, i: nat)
    requires i < |written|
  {
    forall k :: i < k < |written| ==> written[k].pass.key != written[i].pass.key
  }

  /** The last snapshot written for a key is what its file holds. */
  ghost predicate FilesFit(s: State) {
    forall i: nat :: i < |s.written| && LastFor(s.written, i) ==>
      s.written[i].pass.key in s.files && s.files[s.written[i].pass.key] == Saved(s.written[i].snapshot)
  }

  ghost predicate WrittenFits(w: Written) {
    Usable(w.snapshot, w.pass.version) && w.snapshot.fetchedAt.Some?
  }

  ghost predicate AllWrittenFit(s: State) {
    forall i :: 0 <= i < |s.written| ==> WrittenFits(s.written[i])
  }

  /** Consecutive snapshots of a key. */
  ghost predicate Follows(written: seq<Written>, i: nat, j: nat)
    requires i < j < |written|
  {
    && written[i].pass.key == written[j].pass.key
    && forall k :: i < k < j ==> written[k].pass.key != written[i].pass.key
  }

  ghost predicate Apart(s: State) {
    && AllWrittenFit(s)
    && forall i: nat, j: nat ::
         (i < j < |s.written| && Follows(s.written, i, j)
          && !s.written[j].pass.faulted && s.written[i].pass.version == s.written[j].pass.version) ==>
           s.written[j].snapshot.fetchedAt.value - s.written[i].snapshot.fetchedAt.value > TTL
  }

  ghost predicate Inv(s: State) {
    LockFits(s) && StagesFit(s) && FilesFit(s) && Apart(s)
  }

  /** The lease passes to the job and goes with it. */
  lemma JobHeld(s: State, step: Step)
    requires LockFits(s) && Enabled(s, step) && (step.Spawn? || step.Stamp? || step.Write?)
    ensures LockHeld(Apply(s, step))
  {
    hide LoadCompatible, HasFresh, Build, CacheKey;
    assert s.lock == Some(step.t);
  }

  lemma HeldStep(s: State, step: Step)
    requires LockFits(s) && Enabled(s, step)
    ensures LockHeld(Apply(s, step))
  {
    if step.Spawn? || step.Stamp? || step.Write? {
      JobHeld(s, step);
    } else if step.Start? || step.FirstRead? || step.Lock? || step.Tick? {
      OutsideHeld(s, step);
    } else {
      hide JobsOwned, LoadCompatible, HasFresh, Build, CacheKey;
      assert HoldsLease(s.stages[step.t]) <==> s.lock == Some(step.t) && step.t !in s.jobs;
    }
  }

  /** Before a caller has the lock it changes nothing about it. */
  lemma OutsideHeld(s: State, step: Step)
    requires LockFits(s) && Enabled(s, step) && (step.Start? || step.FirstRead? || step.Lock? || step.Tick?)
    ensures LockHeld(Apply(s, step))
  {
    hide LoadCompatible, HasFresh, Build, CacheKey;
  }

  lemma OwnedStep(s: State, step: Step)
    requires LockFits(s) && Enabled(s, step)
    ensures JobsOwned(Apply(s, step))
  {
    hide LoadCompatible, HasFresh, Build, CacheKey;
  }

  /** Every step but a write leaves the files alone. */
  lemma FilesView(s: State, step: Step)
    requires Enabled(s, step)
    ensures s.now <= Apply(s, step).now && (!step.Write? ==> Apply(s, step).files == s.files)
  {
    hide LoadCompatible, HasFresh, Build, CacheKey;
  }

  /** A write is made under the lock: no other job is there, and nobody else holds a lease. */
  lemma WriteView(s: State, step: Step)
    requires LockFits(s) && Enabled(s, step) && step.Write?
    ensures Apply(s, step).jobs == map[]
    ensures forall t :: t in s.stages ==> !HoldsLease(s.stages[t])
  {
    hide LoadCompatible, HasFresh, Build, CacheKey;
    assert s.lock == Some(step.t);
    assert forall t :: t in s.jobs ==> t == step.t;
  }

  /** Only the step's own caller moves. */
  lemma StagesView(s: State, step: Step)
    requires Enabled(s, step)
    ensures forall t :: t in Apply(s, step).stages ==>
              (t in s.stages && Apply(s, step).stages[t] == s.stages[t]) || (!step.Tick? && t == step.t)
  {
    hide LoadCompatible, HasFresh, Build, CacheKey;
  }

  lemma JobsView(s: State, step: Step)
    requires Enabled(s, step)
    ensures forall t :: t in Apply(s, step).jobs ==>
              (t in s.jobs && Apply(s, step).jobs[t] == s.jobs[t]) || ((step.Spawn? || step.Stamp?) && t == step.t)
  {
    hide LoadCompatible, HasFresh, Build, CacheKey;
  }

  lemma StageFrame(s: State, after: State, stage: Stage)
    requires StageFits(s, stage) && s.now <= after.now && (s.files == after.files || !HoldsLease(stage))
    ensures StageFits(after, stage)
  {
    hide HasFresh, Usable, LoadCompatible;
  }

  lemma OwnStage(s: State, step: Step)
    requires LockFits(s) && StagesFit(s) && Enabled(s, step) && !step.Tick?
    requires step.t in Apply(s, step).stages
    ensures StageFits(Apply(s, step), Apply(s, step).stages[step.t])
  {
    if step.Stamp? || step.Write? {
      JobEnds(s, step);
    } else {
      hide CacheKey, Fresh, Usable, Build;
      if step.t in s.stages {
        assert StageFits(s, s.stages[step.t]);
      }
      LoadedIsUsable(s);
    }
  }

  /** What the caller is given when its job goes on or ends. */
  lemma JobEnds(s: State, step: Step)
    requires LockFits(s) && StagesFit(s) && Enabled(s, step) && (step.Stamp? || step.Write?)
    requires step.t in Apply(s, step).stages
    ensures StageFits(Apply(s, step), Apply(s, step).stages[step.t])
  {
    hide CacheKey, Fresh, Usable, LoadCompatible, HasFresh;
    assert JobFits(s, s.jobs[step.t]);
    assert StageFits(s, s.stages[step.t]);
  }

  /** Reading yields only snapshots of the requested version that pass validation. */
  lemma LoadedIsUsable(s: State)
    ensures forall key, version, faulted :: var cached := LoadCompatible(s.files, key, version, faulted);
              cached.Some? ==> Usable(cached.value, version)
  {
  }

  lemma OwnJob(s: State, step: Step)
    requires LockFits(s) && StagesFit(s) && Enabled(s, step) && (step.Spawn? || step.Stamp?)
    requires step.t in Apply(s, step).jobs
    ensures JobFits(Apply(s, step), Apply(s, step).jobs[step.t])
  {
    hide CacheKey, Fresh, Usable, LoadCompatible, HasFresh;
    if step.Spawn? {
      assert StageFits(s, s.stages[step.t]);
    } else {
      assert JobFits(s, s.jobs[step.t]);
    }
  }

  lemma StagesStep(s: State, step: Step)
    requires LockFits(s) && StagesFit(s) && Enabled(s, step)
    ensures StagesFit(Apply(s, step))
  {
    var after := Apply(s, step);
    FilesView(s, step);
    StagesView(s, step);
    JobsView(s, step);
    if step.Write? {
      WriteView(s, step);
    }
    hide Apply, LockFits, StageFits, JobFits;
    forall t | t in after.stages
      ensures StageFits(after, after.stages[t])
    {
      if t in s.stages && after.stages[t] == s.stages[t] {
        StageFrame(s, after, s.stages[t]);
      } else {
        OwnStage(s, step);
      }
    }
    forall t | t in after.jobs
      ensures JobFits(after, after.jobs[t])
    {
      if t in s.jobs && after.jobs[t] == s.jobs[t] {
        JobFrame(s, after, s.jobs[t]);
      } else {
        OwnJob(s, step);
      }
    }
  }

  lemma JobFrame(s: State, after: State, job: Job)
    requires JobFits(s, job) && s.files == after.files && s.now <= after.now
    ensures JobFits(after, job)
  {
    hide HasFresh, Usable, LoadCompatible;
  }

  // ----- the snapshots written -----

  lemma WrittenView(s: State, step: Step)
    requires Enabled(s, step)
    ensures var after := Apply(s, step);
            if step.Write? && step.ok then
              var job := s.jobs[step.t];
              after.written == s.written + [Written(job.snapshot.value, job.pass)]
              && after.files == s.files[job.pass.key := Saved(job.snapshot.value)]
            else after.written == s.written && after.files == s.files
  {
    hide LoadCompatible, HasFresh, Build, CacheKey;
  }

  lemma FilesStep(s: State, step: Step)
    requires FilesFit(s) && Enabled(s, step)
    ensures FilesFit(Apply(s, step))
  {
    var after := Apply(s, step);
    WrittenView(s, step);
    hide Apply, LastFor;
    forall i: nat | i < |after.written| && LastFor(after.written, i)
      ensures after.written[i].pass.key in after.files
      ensures after.files[after.written[i].pass.key] == Saved(after.written[i].snapshot)
    {
      if i < |s.written| {
        LastForPrefix(s.written, after.written, i);
        assert s.written[i] == after.written[i];
        if |s.written| < |after.written| {
          assert after.written[|s.written|].pass.key != after.written[i].pass.key;
        }
      }
    }
  }

  lemma LastForPrefix(a: seq<Written>, b: seq<Written>, i: nat)
    requires a <= b && i < |a| && LastFor(b, i)
    ensures LastFor(a, i)
    ensures forall k :: |a| <= k < |b| ==> b[k].pass.key != b[i].pass.key
  {
    assert forall k :: i < k < |a| ==> b[k] == a[k];
  }

  /** A write made on what was really read comes more than 300 seconds after the one it replaces. */
  lemma WriteIsApart(s: State, job: Job, i: nat)
    requires FilesFit(s) && AllWrittenFit(s) && i < |s.written| && LastFor(s.written, i) && JobFits(s, job)
    requires job.snapshot.Some?
    requires s.written[i].pass.key == job.pass.key && !job.pass.faulted && s.written[i].pass.version == job.pass.version
    ensures s.written[i].snapshot.fetchedAt.Some? && job.snapshot.value.fetchedAt.Some?
    ensures job.snapshot.value.fetchedAt.value - s.written[i].snapshot.fetchedAt.value > TTL
  {
    assert WrittenFits(s.written[i]);
    assert LoadCompatible(s.files, job.pass.key, job.pass.version, false) == Some(s.written[i].snapshot);
  }

  lemma ApartStep(s: State, step: Step)
    requires StagesFit(s) && FilesFit(s) && Apart(s) && Enabled(s, step)
    ensures Apart(Apply(s, step))
  {
    var after := Apply(s, step);
    WrittenView(s, step);
    if step.Write? && step.ok {
      var job := s.jobs[step.t];
      assert JobFits(s, job);
      hide Apply, StagesFit, FilesFit, LastFor, Usable, PassFits, LoadCompatible;
      forall i: nat, j: nat | i < j < |after.written| && Follows(after.written, i, j)
        && !after.written[j].pass.faulted && after.written[i].pass.version == after.written[j].pass.version
        ensures after.written[j].snapshot.fetchedAt.value - after.written[i].snapshot.fetchedAt.value > TTL
      {
        if j == |s.written| {
          FollowsLast(s.written, after.written, i);
          WriteIsApart(s, job, i);
        } else {
          FollowsPrefix(s.written, after.written, i, j);
        }
      }
    }
  }

  lemma FollowsLast(a: seq<Written>, b: seq<Written>, i: nat)
    requires a <= b && |b| == |a| + 1 && i < |a| && Follows(b, i, |a|)
    ensures LastFor(a, i)
  {
    assert forall k :: i < k < |a| ==> b[k] == a[k];
  }

  lemma FollowsPrefix(a: seq<Written>, b: seq<Written>, i: nat, j: nat)
    requires a <= b && i < j < |a| && Follows(b, i, j)
    ensures Follows(a, i, j)
  {
    assert forall k :: i < k < |a| ==> b[k] == a[k];
  }

  lemma InvStep(s: State, step: Step)
    requires Inv(s) && Enabled(s, step)
    ensures Inv(Apply(s, step))
  {
    hide Apply, LockHeld, JobsOwned, StagesFit, FilesFit, Apart;
    HeldStep(s, step);
    OwnedStep(s, step);
    StagesStep(s, step);
    FilesStep(s, step);
    ApartStep(s, step);
  }

  lemma {:induction false} InvAlways(init: State, steps: seq<Step>)
    requires Init(init) && Run(init, steps).Some?
    ensures Inv(Run(init, steps).value)
  {
    if steps != [] {
      hide Inv, Apply, Enabled, Init;
      InvAlways(init, steps[..|steps| - 1]);
      InvStep(Run(init, steps[..|steps| - 1]).value, steps[|steps| - 1]);
    }
  }

  // ----- what the cache promises -----

  /**
   Two consecutive snapshots of one key carry fetch times more than 300 seconds apart, whenever the
   second caller's read under the lock succeeded and both asked for the same client version.
   */
  lemma SnapshotsApart(init: State, steps: seq<Step>, i: nat, j: nat)
    requires Init(init) && Run(init, steps).Some?
    requires var s := Run(init, steps).value;
             && i < j < |s.written| && Follows(s.written, i, j)
             && !s.written[j].pass.faulted && s.written[i].pass.version == s.written[j].pass.version
    ensures var s := Run(init, steps).value;
            && s.written[i].snapshot.fetchedAt.Some? && s.written[j].snapshot.fetchedAt.Some?
            && s.written[j].snapshot.fetchedAt.value - s.written[i].snapshot.fetchedAt.value > TTL
  {
    InvAlways(init, steps);
    var s := Run(init, steps).value;
    assert WrittenFits(s.written[i]) && WrittenFits(s.written[j]);
  }

  /** With one client version and no failed read, all snapshots of a key are more than 300 seconds apart. */
  lemma {:induction false} AllSnapshotsApart(init: State, steps: seq<Step>, i: nat, j: nat)
    requires Init(init) && Run(init, steps).Some?
    requires var s := Run(init, steps).value;
             && i < j < |s.written| && s.written[i].pass.key == s.written[j].pass.key
             && (forall k :: 0 <= k < |s.written| ==>
                 !s.written[k].pass.faulted && s.written[k].pass.version == s.written[i].pass.version)
    ensures var s := Run(init, steps).value;
            && s.written[i].snapshot.fetchedAt.Some? && s.written[j].snapshot.fetchedAt.Some?
            && s.written[j].snapshot.fetchedAt.value - s.written[i].snapshot.fetchedAt.value > TTL
    decreases j - i
  {
    var s := Run(init, steps).value;
    if Follows(s.written, i, j) {
      SnapshotsApart(init, steps, i, j);
    } else {
      var k: nat :| i < k < j && s.written[k].pass.key == s.written[i].pass.key;
      AllSnapshotsApart(init, steps, i, k);
      AllSnapshotsApart(init, steps, k, j);
    }
  }

  /** What a caller is given is valid and of its version, and out of date only after a failed fetch. */
  lemma ReturnedIsUsable(init: State, steps: seq<Step>, t: CallerId)
    requires Init(init) && Run(init, steps).Some?
    requires var s := Run(init, steps).value; t in s.stages && s.stages[t].Done? && s.stages[t].finish.Returned?
    ensures var finish := Run(init, steps).value.stages[t].finish;
            && finish.snapshot.version == finish.version && finish.snapshot.response.valid
            && (finish.how.FromCache? ==>
                  finish.snapshot.fetchedAt.Some? && finish.how.at <= finish.snapshot.fetchedAt.value + 300)
  {
    InvAlways(init, steps);
    assert StageFits(Run(init, steps).value, Run(init, steps).value.stages[t]);
  }

  /** Only a caller that has got an answer hands its lease on, and a write needs that hand-over. */
  lemma OneWriter(init: State, steps: seq<Step>, t: CallerId)
    requires Init(init) && Run(init, steps).Some?
    requires t in Run(init, steps).value.jobs
    ensures var s := Run(init, steps).value;
            s.lock == Some(t) && s.jobs.Keys == {t} && forall u :: u in s.stages ==> !HoldsLease(s.stages[u])
  {
    InvAlways(init, steps);
    var s := Run(init, steps).value;
    assert forall u :: u in s.jobs.Keys <==> u in {t};
  }

  /** The one step by which a call comes to return a snapshot of each origin. */
  ghost predicate EndsBy(s: State, step: Step, t: CallerId, finish: Finish)
    requires finish.Returned? && t in s.stages && Enabled(s, step)
  {
    match finish.how
    case FromCache(at) => Fresh(finish.snapshot, at)
    case JustFetched =>
      && step == Write(t, true) && t in s.jobs
      && Apply(s, step).written == s.written + [Written(finish.snapshot, s.jobs[t].pass)]
    case AfterFailedFetch =>
      && step == Fetch(t, None) && s.stages[t].Fetching? && s.stages[t].pass.cached == Some(finish.snapshot)
      && !Fresh(finish.snapshot, s.stages[t].pass.checked)
  }

  lemma JobReturns(s: State, step: Step, t: CallerId)
    requires Enabled(s, step) && t in s.stages && !s.stages[t].Done? && (step.Stamp? || step.Write?)
    requires t in Apply(s, step).stages && Apply(s, step).stages[t].Done? && Apply(s, step).stages[t].finish.Returned?
    ensures EndsBy(s, step, t, Apply(s, step).stages[t].finish)
  {
    hide Build, Fresh;
  }

  lemma CallerReturns(s: State, step: Step, t: CallerId)
    requires StagesFit(s) && Enabled(s, step) && t in s.stages && !s.stages[t].Done? && !step.Stamp? && !step.Write?
    requires t in Apply(s, step).stages && Apply(s, step).stages[t].Done? && Apply(s, step).stages[t].finish.Returned?
    ensures EndsBy(s, step, t, Apply(s, step).stages[t].finish)
  {
    hide LoadCompatible, Usable, Fresh, CacheKey;
    assert StageFits(s, s.stages[t]);
  }

  /** How a call comes to return a snapshot: a stale one comes only out of a failed fetch. */
  lemma HowItEnds(s: State, step: Step, t: CallerId)
    requires Inv(s) && Enabled(s, step) && t in s.stages && !s.stages[t].Done?
    requires t in Apply(s, step).stages && Apply(s, step).stages[t].Done? && Apply(s, step).stages[t].finish.Returned?
    ensures EndsBy(s, step, t, Apply(s, step).stages[t].finish)
  {
    hide Apply, Enabled, EndsBy, StagesFit;
    if step.Stamp? || step.Write? {
      JobReturns(s, step, t);
    } else {
      CallerReturns(s, step, t);
    }
  }

  // ----- why a failed read and another version are excluded -----

  lemma RunSnoc(s: State, steps: seq<Step>, step: Step, before: State, after: State)
    requires Run(s, steps) == Some(before) && Enabled(before, step) && Apply(before, step) == after
    ensures Run(s, steps + [step]) == Some(after)
  {
    assert (steps + [step])[..|steps|] == steps;
  }

  /** The steps of a caller that finds nothing it can use, up to its decision to fetch. */
  function Ask(t: CallerId, id: string, version: string, faulted: bool): seq<Step> {
    [Start(t, id, version)] + [FirstRead(t, Reads(faulted))] + [Lock(t)] + [SecondRead(t, Reads(faulted))] + [Check(t)]
  }

  /** The fetch and the write that follow. */
  function FetchAndWrite(t: CallerId, response: Response): seq<Step> {
    [Fetch(t, Some((response, None)))] + [Spawn(t)] + [Stamp(t)] + [Write(t, true)]
  }

  function At(s: State, t: CallerId, stage: Stage): State {
    s.(stages := s.stages[t := stage])
  }

  lemma AtAt(s: State, t: CallerId, a: Stage, b: Stage)
    ensures At(At(s, t, a), t, b) == At(s, t, b)
  {
    assert s.stages[t := a][t := b] == s.stages[t := b];
  }

  /** Nothing usable is found, be it that the read fails or that the file is absent or of another version. */
  lemma FindsNothing(s: State, t: CallerId, id: string, version: string, faulted: bool)
    requires s.lock.None? && t !in s.stages && LoadCompatible(s.files, CacheKey(id), version, faulted).None?
    ensures Run(s, Ask(t, id, version, faulted))
            == Some(At(s.(lock := Some(t)), t, Fetching(Pass(CacheKey(id), version, None, faulted, s.now))))
  {
    var key, held, read := CacheKey(id), s.(lock := Some(t)), Reads(faulted);
    var p1: seq<Step> := [Start(t, id, version)];
    var p2 := p1 + [FirstRead(t, read)];
    var p3 := p2 + [Lock(t)];
    var p4 := p3 + [SecondRead(t, read)];
    hide CacheKey, Run, LoadCompatible;
    assert Run(s, []) == Some(s) by { RunNothing(s); }
    RunSnoc(s, [], Start(t, id, version), s, At(s, t, Checking(key, version, s.now)));
    assert [] + p1 == p1;
    AtAt(s, t, Checking(key, version, s.now), Waiting(key, version));
    RunSnoc(s, p1, FirstRead(t, read), At(s, t, Checking(key, version, s.now)), At(s, t, Waiting(key, version)));
    AtAt(s, t, Waiting(key, version), Locked(key, version));
    RunSnoc(s, p2, Lock(t), At(s, t, Waiting(key, version)), At(held, t, Locked(key, version)));
    AtAt(held, t, Locked(key, version), Loaded(key, version, None, faulted));
    RunSnoc(s, p3, SecondRead(t, read), At(held, t, Locked(key, version)),
            At(held, t, Loaded(key, version, None, faulted)));
    var pass := Pass(key, version, None, faulted, s.now);
    AtAt(held, t, Loaded(key, version, None, faulted), Fetching(pass));
    RunSnoc(s, p4, Check(t), At(held, t, Loaded(key, version, None, faulted)), At(held, t, Fetching(pass)));
  }

  lemma RunNothing(s: State)
    ensures Run(s, []) == Some(s)
  {
  }

  lemma FetchAndWriteView(s: State, t: CallerId, pass: Pass, response: Response)
    requires s.lock == Some(t) && t !in s.jobs && response.valid
    ensures var snapshot := Snapshot(response, pass.version, Some(s.now), None);
            Run(At(s, t, Fetching(pass)), FetchAndWrite(t, response))
            == Some(At(s, t, Done(Returned(snapshot, pass.version, JustFetched))).(
                      lock := None, files := s.files[pass.key := Saved(snapshot)],
                          written := s.written + [Written(snapshot, pass)]))
  {
    var from, answer := At(s, t, Fetching(pass)), Some((response, None));
    var snapshot := Snapshot(response, pass.version, Some(s.now), None);
    var job := Job(pass, response, None, None);
    var p1: seq<Step> := [Fetch(t, answer)];
    var p2 := p1 + [Spawn(t)];
    var p3 := p2 + [Stamp(t)];
    hide Run;
    assert Run(from, []) == Some(from) by { RunNothing(from); }
    AtAt(s, t, Fetching(pass), Fetched(pass, response, None));
    RunSnoc(from, [], Fetch(t, answer), from, At(s, t, Fetched(pass, response, None)));
    assert [] + p1 == p1;
    AtAt(s, t, Fetched(pass, response, None), Awaiting);
    RunSnoc(from, p1, Spawn(t), At(s, t, Fetched(pass, response, None)), At(s, t, Awaiting).(jobs := s.jobs[t := job]));
    StampAndWrite(s, t, job, from, p2);
  }

  lemma StampAndWrite(s: State, t: CallerId, job: Job, from: State, before: seq<Step>)
    requires s.lock == Some(t) && t !in s.jobs && job.response.valid && job.snapshot.None? && job.etag.None?
    requires Run(from, before) == Some(At(s, t, Awaiting).(jobs := s.jobs[t := job]))
    ensures var snapshot := Snapshot(job.response, job.pass.version, Some(s.now), None);
            Run(from, before + [Stamp(t)] + [Write(t, true)])
            == Some(At(s, t, Done(Returned(snapshot, job.pass.version, JustFetched))).(
                      lock := None, files := s.files[job.pass.key := Saved(snapshot)],
                          written := s.written + [Written(snapshot, job.pass)]))
  {
    hide Run;
    var snapshot := Snapshot(job.response, job.pass.version, Some(s.now), None);
    var stamped := job.(snapshot := Some(snapshot));
    var waiting, written := At(s, t, Awaiting).(jobs := s.jobs[t := job]),
        At(s, t, Awaiting).(jobs := s.jobs[t := stamped]);
    assert s.jobs[t := job][t := stamped] == s.jobs[t := stamped];
    RunSnoc(from, before, Stamp(t), waiting, written);
    AtAt(s, t, Awaiting, Done(Returned(snapshot, job.pass.version, JustFetched)));
    assert s.jobs[t := stamped] - {t} == s.jobs;
    RunSnoc(from, before + [Stamp(t)], Write(t, true), written,
            At(s, t, Done(Returned(snapshot, job.pass.version, JustFetched))).(
                      lock := None, files := s.files[job.pass.key := Saved(snapshot)],
                          written := s.written + [Written(snapshot, job.pass)]));
  }

  lemma {:induction false} RunConcat(s: State, first: seq<Step>, second: seq<Step>)
    requires Run(s, first).Some?
    ensures Run(s, first + second) == Run(Run(s, first).value, second)
  {
    hide Apply, Enabled;
    if second == [] {
      assert first + second == first;
    } else {
      RunConcat(s, first, second[..|second| - 1]);
      assert (first + second)[..|first + second| - 1] == first + second[..|second| - 1];
    }
  }

  /** What a caller leaves that found nothing usable. */
  function Refetched(s: State, t: CallerId, id: string, version: string, response: Response, faulted: bool): State {
    var snapshot, pass := Snapshot(response, version, Some(s.now), None),
        Pass(CacheKey(id), version, None, faulted, s.now);
    At(s, t, Done(Returned(snapshot, version, JustFetched))).(
      files := s.files[CacheKey(id) := Saved(snapshot)], written := s.written + [Written(snapshot, pass)])
  }

  /** From any state with the lock free, a caller that finds nothing usable writes a snapshot at once. */
  lemma UnusableIsRefetched(s: State, t: CallerId, id: string, version: string, response: Response, faulted: bool)
    requires s.lock.None? && t !in s.stages && t !in s.jobs && response.valid
    requires LoadCompatible(s.files, CacheKey(id), version, faulted).None?
    ensures Run(s, Ask(t, id, version, faulted) + FetchAndWrite(t, response))
            == Some(Refetched(s, t, id, version, response, faulted))
  {
    hide Run, Ask, FetchAndWrite, CacheKey, LoadCompatible;
    FindsNothing(s, t, id, version, faulted);
    FetchAndWriteView(s.(lock := Some(t)), t, Pass(CacheKey(id), version, None, faulted, s.now), response);
    RunConcat(s, Ask(t, id, version, faulted), FetchAndWrite(t, response));
  }

  /** However fresh the last snapshot is: the condition on the read in `SnapshotsApart` cannot be dropped. */
  lemma UnreadableIsRefetched(s: State, t: CallerId, id: string, version: string, response: Response)
    requires s.lock.None? && t !in s.stages && t !in s.jobs && response.valid
    ensures var run := Run(s, Ask(t, id, version, true) + FetchAndWrite(t, response));
            && run.Some? && run.value.now == s.now && |run.value.written| == |s.written| + 1
               && s.written <= run.value.written
            && run.value.written[|s.written|].snapshot == Snapshot(response, version, Some(s.now), None)
            && run.value.written[|s.written|].pass.key == CacheKey(id)
  {
    hide Run, Ask, FetchAndWrite, CacheKey;
    UnusableIsRefetched(s, t, id, version, response, true);
  }

  /** Nor can the condition on the version: two callers of different versions write in the same second. */
  lemma OtherVersionIsRefetched(s: State, t: CallerId, u: CallerId, id: string, v: string, w: string,
                                response: Response)
    requires Init(s) && s.files == map[] && t != u && v != w && response.valid
    ensures var run := Run(s, Ask(t, id, v, false) + FetchAndWrite(t, response)
                           + (Ask(u, id, w, false) + FetchAndWrite(u, response)));
            && run.Some? && |run.value.written| == 2 && Follows(run.value.written, 0, 1)
            && !run.value.written[0].pass.faulted && !run.value.written[1].pass.faulted
            && run.value.written[0].snapshot.fetchedAt == run.value.written[1].snapshot.fetchedAt == Some(s.now)
  {
    hide Run, Ask, FetchAndWrite, CacheKey;
    UnusableIsRefetched(s, t, id, v, response, false);
    var first := Refetched(s, t, id, v, response, false);
    assert first.files[CacheKey(id)] == Saved(Snapshot(response, v, Some(s.now), None));
    UnusableIsRefetched(first, u, id, w, response, false);
    RunConcat(s, Ask(t, id, v, false) + FetchAndWrite(t, response), Ask(u, id, w, false) + FetchAndWrite(u, response));
  }

  // ----- the call itself -----

  /** The cache directory, beside the machine it stands for. */
  class Cache {
    var files: map<string, File>
    var clock: Seconds
    ghost var machine: State

    ghost predicate Coupled()
      reads this
    {
      files == machine.files && clock == machine.now
    }

    constructor (files: map<string, File>, clock: Seconds)
      ensures Coupled() && Init(machine) && this.files == files && this.clock == clock
    {
      this.files, this.clock := files, clock;
      machine := State(files, None, map[], map[], clock, []);
    }

    ghost method Advance(init: State, trace: seq<Step>, step: Step) returns (longer: seq<Step>)
      requires Run(init, trace) == Some(machine) && Enabled(machine, step)
      modifies this`machine
      ensures machine == Apply(old(machine), step) && Run(init, longer) == Some(machine)
    {
      RunSnoc(init, trace, step, machine, Apply(machine, step));
      longer := trace + [step];
      machine := Apply(machine, step);
    }

    /** `load_or_sync_official_model_catalog`, uncancelled and with no other caller about. */
    method LoadOrSync(ghost t: CallerId, apiKeyId: string, version: string, first: Read, second: Read,
                      answer: Option<(Response, Option<string>)>, delay: nat, ok: bool)
      returns (r: Result<Snapshot>, ghost trace: seq<Step>)
      requires Coupled() && machine.lock.None? && t !in machine.stages && t !in machine.jobs
      modifies this
      ensures Coupled() && Run(old(machine), trace) == Some(machine)
      ensures machine.lock.None? && machine.jobs == old(machine).jobs && t in machine.stages && machine.stages[t].Done?
      ensures r.Ok? <==> machine.stages[t].finish.Returned?
      ensures r.Ok? ==> r.value == machine.stages[t].finish.snapshot
    {
      hide Run, CacheKey, LoadCompatible, Fresh, Build;
      ghost var init := machine;
      var key, asked := CacheKey(apiKeyId), clock;
      RunNothing(init);
      trace := Advance(init, [], Start(t, apiKeyId, version));
      trace := Advance(init, trace, FirstRead(t, first));
      if first.WorkerFails? {
        return Err, trace;
      }
      var seen := LoadCompatible(files, key, version, first.faulted);
      if HasFresh(seen, asked) {
        return Ok(seen.value), trace;
      }
      trace := Advance(init, trace, Lock(t));
      r, trace := Refresh(t, key, version, second, answer, delay, ok, init, trace);
    }

    method Refresh(ghost t: CallerId, key: string, version: string, second: Read,
                   answer: Option<(Response, Option<string>)>, delay: nat, ok: bool, ghost init: State,
                       ghost before: seq<Step>)
      returns (r: Result<Snapshot>, ghost trace: seq<Step>)
      requires Coupled() && Run(init, before) == Some(machine)
      requires t in machine.stages && machine.stages[t] == Locked(key, version) && t !in machine.jobs
      modifies this
      ensures Coupled() && Run(init, trace) == Some(machine)
      ensures machine.lock.None? && machine.jobs == old(machine).jobs && t in machine.stages && machine.stages[t].Done?
      ensures r.Ok? <==> machine.stages[t].finish.Returned?
      ensures r.Ok? ==> r.value == machine.stages[t].finish.snapshot
    {
      hide Run, LoadCompatible, Fresh, Build;
      trace := Advance(init, before, SecondRead(t, second));
      if second.WorkerFails? {
        return Err, trace;
      }
      var cached := LoadCompatible(files, key, version, second.faulted);
      trace := Advance(init, trace, Check(t));
      if HasFresh(cached, clock) {
        return Ok(cached.value), trace;
      }
      r, trace := FetchAndStore(t, Pass(key, version, cached, second.faulted, clock), answer, delay, ok, init, trace);
    }

    /** The stale snapshot, if any, stands in for a fetch that fails. */
    method FetchAndStore(ghost t: CallerId, pass: Pass, answer: Option<(Response, Option<string>)>, delay: nat,
                         ok: bool,
                         ghost init: State, ghost before: seq<Step>)
      returns (r: Result<Snapshot>, ghost trace: seq<Step>)
      requires Coupled() && Run(init, before) == Some(machine)
      requires t in machine.stages && machine.stages[t] == Fetching(pass) && t !in machine.jobs
      modifies this
      ensures Coupled() && Run(init, trace) == Some(machine)
      ensures machine.lock.None? && machine.jobs == old(machine).jobs && t in machine.stages && machine.stages[t].Done?
      ensures r.Ok? <==> machine.stages[t].finish.Returned?
      ensures r.Ok? ==> r.value == machine.stages[t].finish.snapshot
    {
      hide Run, LoadCompatible, Fresh, HasFresh, Build;
      clock := clock + delay;
      trace := Advance(init, before, Tick(delay));
      trace := Advance(init, trace, Fetch(t, answer));
      if answer.None? {
        return if pass.cached.Some? then Ok(pass.cached.value) else Err, trace;
      }
      trace := Advance(init, trace, Spawn(t));
      r, trace := BuildAndWrite(t, pass.key, pass.version, answer.value.0, answer.value.1, ok, init, trace);
    }

    /** What runs on the disk worker. */
    method BuildAndWrite(ghost t: CallerId, key: string, version: string, response: Response, etag: Option<string>,
                         ok: bool,
                         ghost init: State, ghost before: seq<Step>)
      returns (r: Result<Snapshot>, ghost trace: seq<Step>)
      requires Coupled() && Run(init, before) == Some(machine)
      requires t in machine.stages && machine.stages[t].Awaiting? && t in machine.jobs
      requires var job := machine.jobs[t];
               job.response == response && job.etag == etag && job.pass.key == key && job.pass.version == version
                 && job.snapshot.None?
      modifies this
      ensures Coupled() && Run(init, trace) == Some(machine)
      ensures machine.lock.None? && machine.jobs == old(machine).jobs - {t} && t in machine.stages
              && machine.stages[t].Done?
      ensures r.Ok? <==> machine.stages[t].finish.Returned?
      ensures r.Ok? ==> r.value == machine.stages[t].finish.snapshot
    {
      hide Run;
      trace := Advance(init, before, Stamp(t));
      if !response.valid {
        return Err, trace;
      }
      var snapshot := Snapshot(response, version, Some(clock), Normalize(etag));
      assert machine.jobs - {t} == old(machine).jobs - {t};
      trace := Advance(init, trace, Write(t, ok));
      if !ok {
        return Err, trace;
      }
      files := files[key := Saved(snapshot)];
      r := Ok(snapshot);
    }
  }
}
