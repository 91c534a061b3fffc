/**
 The lock lease shared by all profile mutations.

 A mutation takes the lock once and then runs disk phases on worker threads. The lock guard is
 reference-counted: the mutation holds one lease and every started phase holds its own clone, so a
 caller that is cancelled while a phase runs leaves that phase, and the lock, behind.
 */
module MutationLease {
  import opened Wrappers

  type TaskId = nat

  /**
   What one file operation of a phase leads to: more operations, the end of the phase with another
   to follow, or the end of the last phase. `memory` is what the mutation remembers, which
   includes the answers it will get from the network.
   */
  datatype Outcome<M, F> =
    | More(memory: M, files: F)
    | PhaseDone(memory: M, files: F)
    | LastPhaseDone(memory: M, files: F)

  /** The code of every mutation. */
  datatype Code<!M, !F> = Code(start: TaskId -> M, work: (TaskId, M, F) -> Outcome<M, F>)

  /** Where the caller's task is; its own lease lives from `Between` to the end of `Returning`. */
  datatype Stage<M> =
    | Waiting
    | Between(memory: M)
    | Awaiting
    | Returning
    | Finished
    | Cancelled

  predicate HoldsLease<M>(stage: Stage<M>) {
    stage.Between? || stage.Awaiting? || stage.Returning?
  }

  datatype State<M, F> = State(
    locked: bool,                  // the mutex
    leases: map<TaskId, nat>,      // clones of the guard that each acquisition has left
    stages: map<TaskId, Stage<M>>,
    running: map<TaskId, M>,       // phases on worker threads
    files: F,
    order: seq<TaskId>,            // acquisitions, in lock order
    steps: map<TaskId, nat>,       // operations each mutation has performed
    started: map<TaskId, nat>      // phases each mutation has started
  )

  datatype Step = Request(t: TaskId) | Acquire(t: TaskId) | StartPhase(t: TaskId) | Work(t: TaskId)
                | Return(t: TaskId) | Cancel(t: TaskId)

  predicate Init<M, F>(s: State<M, F>) {
    !s.locked && s.leases == map[] && s.stages == map[] && s.running == map[] && s.order == []
    && s.steps == map[] && s.started == map[]
  }

  function Leases<M, F>(s: State<M, F>, t: TaskId): nat {
    if t in s.leases then s.leases[t] else 0
  }

  function Steps<M, F>(s: State<M, F>, t: TaskId): nat {
    if t in s.steps then s.steps[t] else 0
  }

  function Started<M, F>(s: State<M, F>, t: TaskId): nat {
    if t in s.started then s.started[t] else 0
  }

  /** Dropping a clone; the last one unlocks the mutex. */
  function Release<M, F>(s: State<M, F>, t: TaskId): State<M, F> {
    var left := if Leases(s, t) == 0 then 0 else Leases(s, t) - 1;
    s.(leases := s.leases[t := left], locked := s.locked && left > 0)
  }

  /** The phase drops its clone; a task still waiting for it moves on, a cancelled one does not. */
  function EndPhase<M, F>(s: State<M, F>, t: TaskId, next: Stage<M>): State<M, F>
    requires t in s.stages
  {
    Release(s.(running := s.running - {t}, stages := if s.stages[t].Awaiting? then s.stages[t := next] else s.stages),
            t)
  }

  predicate Enabled<M, F>(s: State<M, F>, step: Step) {
    match step
    case Request(t) => t !in s.stages
    case Acquire(t) => t in s.stages && s.stages[t].Waiting? && !s.locked
    case StartPhase(t) => t in s.stages && s.stages[t].Between?
    case Work(t) => t in s.running && t in s.stages
    case Return(t) => t in s.stages && s.stages[t].Returning?
    case Cancel(t) => t in s.stages && !s.stages[t].Finished? && !s.stages[t].Cancelled?
  }

  function Apply<M, F>(code: Code<M, F>, s: State<M, F>, step: Step): State<M, F>
    requires Enabled(s, step)
  {
    match step
    case Request(t) => s.(stages := s.stages[t := Waiting])
    case Acquire(t) =>
      s.(locked := true, leases := s.leases[t := 1], stages := s.stages[t := Between(code.start(t))],
         order := s.order + [t], steps := s.steps[t := 0], started := s.started[t := 0])
    case StartPhase(t) =>
      s.(leases := s.leases[t := Leases(s, t) + 1], stages := s.stages[t := Awaiting],
         running := s.running[t := s.stages[t].memory], started := s.started[t := Started(s, t) + 1])
    case Work(t) =>
      var outcome := code.work(t, s.running[t], s.files);
      var done := s.(files := outcome.files, steps := s.steps[t := Steps(s, t) + 1]);
      (match outcome
       case More(memory, _) => done.(running := s.running[t := memory])
       case PhaseDone(memory, _) => EndPhase(done, t, Between(memory))
       case LastPhaseDone(memory, _) => EndPhase(done, t, Returning))
    case Return(t) => Release(s.(stages := s.stages[t := Finished]), t)
    case Cancel(t) =>
      var cancelled := s.(stages := s.stages[t := Cancelled]);
      if HoldsLease(s.stages[t]) then Release(cancelled, t) else cancelled
  }

  /** A run: any interleaving of any number of mutations, with cancellation at any point. */
  function Run<M, F>(code: Code<M, F>, s: State<M, F>, schedule: seq<Step>): Option<State<M, F>> {
    if schedule == [] then Some(s)
    else
      match Run(code, s, schedule[..|schedule| - 1])
      case None => None
      case Some(before) =>
        if Enabled(before, schedule[|schedule| - 1]) then Some(Apply(code, before, schedule[|schedule| - 1])) else None
  }

  // ----- the same mutations one at a time -----

  /** A mutation alone with the files: between two phases, inside one, or done. */
  datatype Position = Boundary | Inside | Done
  datatype Solo<M, F> = Solo(memory: M, files: F, at: Position, phases: nat)

  /** The first `n` operations of mutation `t` with nobody else around. */
  function Alone<M, F>(code: Code<M, F>, t: TaskId, n: nat, files: F): Solo<M, F> {
    if n == 0 then Solo(code.start(t), files, Boundary, 0) else Next(code, t, Alone(code, t, n - 1, files))
  }

  function Next<M, F>(code: Code<M, F>, t: TaskId, before: Solo<M, F>): Solo<M, F> {
    match code.work(t, before.memory, before.files)
    case More(memory, files) => Solo(memory, files, Inside, before.phases)
    case PhaseDone(memory, files) => Solo(memory, files, Boundary, before.phases + 1)
    case LastPhaseDone(memory, files) => Solo(memory, files, Done, before.phases + 1)
  }

  /** The mutations of `order` executed one after the other, each for its number of operations. */
  function Serial<M, F>(code: Code<M, F>, order: seq<TaskId>, steps: map<TaskId, nat>, files: F): F {
    if order == [] then files
    else
      var t := order[|order| - 1];
      Alone(code, t, if t in steps then steps[t] else 0, Serial(code, order[..|order| - 1], steps, files)).files
  }

  // ----- what every reachable state satisfies -----

  /** A mutation's clones, its place and its phase fit together. */
  ghost predicate Fits<M, F>(s: State<M, F>, t: TaskId) {
    && Leases(s, t) == (if t in s.stages && HoldsLease(s.stages[t]) then 1 else 0) + (if t in s.running then 1 else 0)
    && (t in s.running ==> t in s.stages && (s.stages[t].Awaiting? || s.stages[t].Cancelled?))
    && (t in s.stages && s.stages[t].Awaiting? ==> t in s.running)
  }

  ghost predicate AllFit<M, F>(s: State<M, F>) {
    forall t :: Fits(s, t)
  }

  /** Only the last acquisition can still have clones, and the mutex is locked exactly while it has. */
  ghost predicate LastHoldsLock<M, F>(s: State<M, F>) {
    && (forall t :: Leases(s, t) > 0 ==> s.order != [] && t == s.order[|s.order| - 1])
    && (s.locked <==> s.order != [] && Leases(s, s.order[|s.order| - 1]) > 0)
  }

  ghost predicate Staged<M, F>(s: State<M, F>) {
    && (forall t :: t in s.order ==> t in s.stages && !s.stages[t].Waiting?)
    && (forall i, j :: 0 <= i < j < |s.order| ==> s.order[i] != s.order[j])
  }

  function Before<M, F>(code: Code<M, F>, s: State<M, F>, init: F): F {
    if s.order == [] then init else Serial(code, s.order[..|s.order| - 1], s.steps, init)
  }

  /** The last mutation in lock order, replayed alone on what the others left. */
  function LastAlone<M, F>(code: Code<M, F>, s: State<M, F>, init: F): Solo<M, F>
    requires s.order != []
  {
    var t := s.order[|s.order| - 1];
    Alone(code, t, Steps(s, t), Before(code, s, init))
  }

  /** The files, and where the last mutation stands, are those of the serial replay. */
  ghost predicate Replayed<M, F>(code: Code<M, F>, s: State<M, F>, init: F) {
    if s.order == [] then s.files == init
    else
      var t, solo := s.order[|s.order| - 1], LastAlone(code, s, init);
      && s.files == solo.files
      && (t in s.running ==> s.running[t] == solo.memory && !solo.at.Done?)
      && (t !in s.running ==> !solo.at.Inside?)
      && Started(s, t) == solo.phases + (if t in s.running then 1 else 0)
      && (t in s.stages ==>
            && (s.stages[t].Between? ==> s.stages[t].memory == solo.memory && solo.at.Boundary?)
            && (s.stages[t].Returning? || s.stages[t].Finished? ==> solo.at.Done?))
  }

  /** Every earlier mutation stopped between phases, and ran to its end unless it was cancelled. */
  ghost predicate EarlierComplete<M, F>(code: Code<M, F>, s: State<M, F>, init: F) {
    forall i :: 0 <= i < |s.order| - 1 ==>
      var t := s.order[i];
      var solo := Alone(code, t, Steps(s, t), Serial(code, s.order[..i], s.steps, init));
      !solo.at.Inside? && Started(s, t) == solo.phases
      && t in s.stages && (s.stages[t].Finished? || s.stages[t].Cancelled?)
      && (s.stages[t].Finished? ==> solo.at.Done?)
  }

  ghost predicate Inv<M, F>(code: Code<M, F>, s: State<M, F>, init: F) {
    AllFit(s) && LastHoldsLock(s) && Staged(s) && Replayed(code, s, init) && EarlierComplete(code, s, init)
  }

  lemma {:induction false} SerialFrame<M, F>(
      code: Code<M, F>, order: seq<TaskId>, a: map<TaskId, nat>, b: map<TaskId, nat>, files: F)
    requires forall t :: t in order ==> (t in a <==> t in b) && (t in a ==> a[t] == b[t])
    ensures Serial(code, order, a, files) == Serial(code, order, b, files)
  {
    if order != [] {
      assert forall t :: t in order[..|order| - 1] ==> t in order;
      SerialFrame(code, order[..|order| - 1], a, b, files);
    }
  }

  // ----- leases and the mutex -----

  lemma HolderIsLast<M, F>(s: State<M, F>, t: TaskId)
    requires AllFit(s) && LastHoldsLock(s)
    requires t in s.running || (t in s.stages && HoldsLease(s.stages[t]))
    ensures s.locked && s.order != [] && t == s.order[|s.order| - 1] && Leases(s, t) > 0
  {
    assert Fits(s, t);
  }

  /** A step concerns one mutation only. */
  ghost predicate OthersKept<M, F>(s: State<M, F>, s': State<M, F>, t: TaskId) {
    forall u :: u != t ==>
      && Leases(s', u) == Leases(s, u)
      && (u in s'.running <==> u in s.running)
      && (u in s'.stages <==> u in s.stages)
      && (u in s.stages ==> s'.stages[u] == s.stages[u])
  }

  lemma EndPhaseOwn<M, F>(s: State<M, F>, t: TaskId, next: Stage<M>)
    requires Fits(s, t) && t in s.running && (next.Between? || next.Returning?)
    ensures var s' := EndPhase(s, t, next);
            && OthersKept(s, s', t) && Fits(s', t) && s'.order == s.order && t in s'.stages && !s'.stages[t].Waiting?
            && s'.locked == (s.locked && Leases(s', t) > 0)
  {
  }

  lemma WorkOwn<M, F>(code: Code<M, F>, s: State<M, F>, t: TaskId)
    requires Fits(s, t) && Enabled(s, Work(t))
    ensures var s' := Apply(code, s, Work(t));
            && OthersKept(s, s', t) && Fits(s', t) && s'.order == s.order && t in s'.stages && !s'.stages[t].Waiting?
            && (s'.locked == (s.locked && Leases(s', t) > 0)
                || (s'.locked == s.locked && Leases(s', t) == Leases(s, t)))
  {
    var outcome := code.work(t, s.running[t], s.files);
    var done := s.(files := outcome.files, steps := s.steps[t := Steps(s, t) + 1]);
    assert Fits(done, t);
    match outcome
    case More(memory, _) =>
    case PhaseDone(memory, _) => EndPhaseOwn(done, t, Between(memory));
    case LastPhaseDone(memory, _) => EndPhaseOwn(done, t, Returning);
  }

  lemma OtherOwn<M, F>(code: Code<M, F>, s: State<M, F>, step: Step)
    requires Fits(s, step.t) && Enabled(s, step) && !step.Work?
    requires step.Acquire? ==> Leases(s, step.t) == 0
    ensures var s', t := Apply(code, s, step), step.t;
            && OthersKept(s, s', t) && Fits(s', t) && t in s'.stages
            && s'.order == (if step.Acquire? then s.order + [t] else s.order)
            && (!step.Request? ==> !s'.stages[t].Waiting?)
  {
  }

  lemma OtherLock<M, F>(code: Code<M, F>, s: State<M, F>, step: Step)
    requires Fits(s, step.t) && Enabled(s, step) && !step.Work? && !step.Acquire?
    ensures var s', t := Apply(code, s, step), step.t;
            (s'.locked == (s.locked && Leases(s', t) > 0) && Leases(s, t) > 0)
            || (s'.locked == s.locked && (Leases(s', t) > 0 <==> Leases(s, t) > 0))
  {
  }

  lemma OwnStep<M, F>(code: Code<M, F>, s: State<M, F>, step: Step)
    requires AllFit(s) && Enabled(s, step)
    ensures var s', t := Apply(code, s, step), step.t;
            && OthersKept(s, s', t) && AllFit(s') && t in s'.stages
            && s'.order == (if step.Acquire? then s.order + [t] else s.order)
            && (!step.Request? ==> !s'.stages[t].Waiting?)
  {
    hide Apply, Leases;
    var s', t := Apply(code, s, step), step.t;
    assert Fits(s, t);
    if step.Work? {
      WorkOwn(code, s, t);
    } else {
      OtherOwn(code, s, step);
    }
    forall u ensures Fits(s', u) {
      if u != t {
        assert Fits(s, u);
      }
    }
  }

  lemma LockPreserved<M, F>(code: Code<M, F>, s: State<M, F>, step: Step)
    requires AllFit(s) && LastHoldsLock(s) && Enabled(s, step)
    ensures LastHoldsLock(Apply(code, s, step))
  {
    OwnStep(code, s, step);
    assert Fits(s, step.t);
    if step.Work? {
      HolderIsLast(s, step.t);
      WorkOwn(code, s, step.t);
    } else if !step.Acquire? {
      OtherLock(code, s, step);
    } else {
      assert Leases(Apply(code, s, step), step.t) == 1;
    }
    hide Apply, Leases, Fits;
  }

  lemma StagedPreserved<M, F>(code: Code<M, F>, s: State<M, F>, step: Step)
    requires AllFit(s) && Staged(s) && Enabled(s, step)
    ensures Staged(Apply(code, s, step))
  {
    OwnStep(code, s, step);
    hide Apply, Leases, Fits;
  }

  // ----- the files -----

  /** Steps of the last mutation leave the replay of the earlier ones alone. */
  lemma BeforeFrame<M, F>(code: Code<M, F>, s: State<M, F>, steps: map<TaskId, nat>, init: F, n: nat)
    requires Staged(s) && s.order != [] && n < |s.order|
    requires forall t :: t != s.order[|s.order| - 1] ==>
             ((t in steps <==> t in s.steps) && (t in steps ==> steps[t] == s.steps[t]))
    ensures Serial(code, s.order[..n], steps, init) == Serial(code, s.order[..n], s.steps, init)
  {
    assert forall t :: t in s.order[..n] ==> t != s.order[|s.order| - 1];
    SerialFrame(code, s.order[..n], steps, s.steps, init);
  }

  lemma EarlierFrame<M, F>(code: Code<M, F>, s: State<M, F>, s': State<M, F>, init: F)
    requires Staged(s) && s.order != [] && s'.order == s.order && EarlierComplete(code, s, init)
    requires forall t :: t != s.order[|s.order| - 1] ==> Steps(s, t) == Steps(s', t)
    requires forall t :: t != s.order[|s.order| - 1] ==>
             ((t in s'.steps <==> t in s.steps) && (t in s.steps ==> s.steps[t] == s'.steps[t]))
    requires forall t :: t in s.order && t != s.order[|s.order| - 1] ==>
               t in s'.stages && s'.stages[t] == s.stages[t] && Started(s', t) == Started(s, t)
    ensures EarlierComplete(code, s', init)
  {
    hide Alone, Serial;
    forall i | 0 <= i < |s.order| - 1
      ensures var t := s'.order[i];
              var solo := Alone(code, t, Steps(s', t), Serial(code, s'.order[..i], s'.steps, init));
              !solo.at.Inside? && Started(s', t) == solo.phases
              && t in s'.stages && (s'.stages[t].Finished? || s'.stages[t].Cancelled?)
              && (s'.stages[t].Finished? ==> solo.at.Done?)
    {
      BeforeFrame(code, s, s'.steps, init, i);
    }
  }

  /** What a mutation at work looks like after an operation that the replay has also done. */
  ghost predicate MatchesReplay<M, F>(s: State<M, F>, t: TaskId, next: Solo<M, F>) {
    && s.files == next.files
    && (t in s.running <==> next.at.Inside?)
    && (t in s.running ==> s.running[t] == next.memory)
    && t in s.stages && !s.stages[t].Finished?
    && (s.stages[t].Between? ==> s.stages[t].memory == next.memory && next.at.Boundary?)
    && (s.stages[t].Returning? ==> next.at.Done?)
  }

  lemma EndPhaseView<M, F>(s: State<M, F>, t: TaskId, next: Stage<M>)
    requires t in s.stages && (s.stages[t].Awaiting? || s.stages[t].Cancelled?)
    ensures var s' := EndPhase(s, t, next);
            && s'.files == s.files && s'.order == s.order && s'.steps == s.steps && s'.started == s.started
            && t !in s'.running && t in s'.stages
            && s'.stages[t] == if s.stages[t].Awaiting? then next else s.stages[t]
  {
  }

  lemma WorkView<M, F>(code: Code<M, F>, s: State<M, F>, t: TaskId, solo: Solo<M, F>)
    requires Fits(s, t) && Enabled(s, Work(t)) && s.files == solo.files && s.running[t] == solo.memory
    ensures var s', next := Apply(code, s, Work(t)), Next(code, t, solo);
            && MatchesReplay(s', t, next)
            && s'.order == s.order && s'.steps == s.steps[t := Steps(s, t) + 1] && s'.started == s.started
            && next.phases == solo.phases + (if next.at.Inside? then 0 else 1)
  {
    hide EndPhase, Leases;
    var outcome := code.work(t, s.running[t], s.files);
    var done := s.(files := outcome.files, steps := s.steps[t := Steps(s, t) + 1]);
    match outcome
    case More(memory, _) =>
    case PhaseDone(memory, _) => EndPhaseView(done, t, Between(memory));
    case LastPhaseDone(memory, _) => EndPhaseView(done, t, Returning);
  }

  lemma WorkReplayed<M, F>(code: Code<M, F>, s: State<M, F>, t: TaskId, init: F)
    requires Inv(code, s, init) && Enabled(s, Work(t))
    ensures Replayed(code, Apply(code, s, Work(t)), init) && EarlierComplete(code, Apply(code, s, Work(t)), init)
  {
    hide Serial, EarlierComplete;
    HolderIsLast(s, t);
    assert Fits(s, t);
    WorkView(code, s, t, LastAlone(code, s, init));
    OwnStep(code, s, Work(t));
    hide Apply, Next, Fits, LastHoldsLock;
    var s' := Apply(code, s, Work(t));
    BeforeFrame(code, s, s'.steps, init, |s.order| - 1);
    assert LastAlone(code, s', init) == Next(code, t, LastAlone(code, s, init));
    hide Alone;
    EarlierFrame(code, s, s', init);
  }

  /** A free lock means the last mutation is over and left no phase behind. */
  lemma LastIsOver<M, F>(code: Code<M, F>, s: State<M, F>, init: F)
    requires Inv(code, s, init) && !s.locked && s.order != []
    ensures var u := s.order[|s.order| - 1];
            && u in s.stages && (s.stages[u].Finished? || s.stages[u].Cancelled?)
            && !LastAlone(code, s, init).at.Inside? && Started(s, u) == LastAlone(code, s, init).phases
            && (s.stages[u].Finished? ==> LastAlone(code, s, init).at.Done?)
  {
    hide Alone, Serial;
    assert Fits(s, s.order[|s.order| - 1]);
    assert s.order[|s.order| - 1] in s.order;
  }

  lemma SerialSnoc<M, F>(code: Code<M, F>, s: State<M, F>, init: F)
    requires s.order != []
    ensures Serial(code, s.order, s.steps, init) == LastAlone(code, s, init).files
  {
  }

  lemma AcquireView<M, F>(code: Code<M, F>, s: State<M, F>, t: TaskId)
    requires Fits(s, t) && Enabled(s, Acquire(t))
    ensures var s' := Apply(code, s, Acquire(t));
            && s'.files == s.files && s'.order == s.order + [t] && s'.steps == s.steps[t := 0]
            && t !in s'.running && Started(s', t) == 0 && s'.stages[t] == Between(code.start(t))
  {
  }

  lemma FilesNow<M, F>(code: Code<M, F>, s: State<M, F>, init: F)
    requires Replayed(code, s, init)
    ensures s.files == Serial(code, s.order, s.steps, init)
  {
    hide Alone;
    if s.order != [] {
      SerialSnoc(code, s, init);
    }
  }

  lemma AcquireFiles<M, F>(code: Code<M, F>, s: State<M, F>, t: TaskId, init: F)
    requires Fits(s, t) && Enabled(s, Acquire(t)) && t !in s.order
    requires s.files == Serial(code, s.order, s.steps, init)
    ensures Replayed(code, Apply(code, s, Acquire(t)), init)
  {
    AcquireView(code, s, t);
    hide Apply, Serial, Fits;
    var s' := Apply(code, s, Acquire(t));
    assert s'.order[..|s.order|] == s.order;
    SerialFrame(code, s.order, s'.steps, s.steps, init);
    assert Before(code, s', init) == s.files;
    assert LastAlone(code, s', init) == Solo(code.start(t), s.files, Boundary, 0);
  }

  lemma AcquireEarlier<M, F>(code: Code<M, F>, s: State<M, F>, t: TaskId, init: F)
    requires Inv(code, s, init) && Enabled(s, Acquire(t))
    ensures EarlierComplete(code, Apply(code, s, Acquire(t)), init)
  {
    hide Alone, Serial;
    var s' := Apply(code, s, Acquire(t));
    if s.order != [] {
      LastIsOver(code, s, init);
    }
    forall i | 0 <= i < |s'.order| - 1
      ensures var u := s'.order[i];
              var solo := Alone(code, u, Steps(s', u), Serial(code, s'.order[..i], s'.steps, init));
              !solo.at.Inside? && Started(s', u) == solo.phases
              && u in s'.stages && (s'.stages[u].Finished? || s'.stages[u].Cancelled?)
              && (s'.stages[u].Finished? ==> solo.at.Done?)
    {
      var u := s'.order[i];
      assert s'.order[..i] == s.order[..i] && u == s.order[i] && u in s.order && u != t;
      assert forall v :: v in s.order[..i] ==> v in s.order;
      SerialFrame(code, s.order[..i], s'.steps, s.steps, init);
    }
  }

  lemma AcquireReplayed<M, F>(code: Code<M, F>, s: State<M, F>, t: TaskId, init: F)
    requires Inv(code, s, init) && Enabled(s, Acquire(t))
    ensures Replayed(code, Apply(code, s, Acquire(t)), init) && EarlierComplete(code, Apply(code, s, Acquire(t)), init)
  {
    assert Fits(s, t);
    NeverTook(s, Cancel(t));
    FilesNow(code, s, init);
    AcquireFiles(code, s, t, init);
    AcquireEarlier(code, s, t, init);
  }

  lemma QuietView<M, F>(code: Code<M, F>, s: State<M, F>, step: Step)
    requires Fits(s, step.t) && Enabled(s, step) && !step.Work? && !step.Acquire?
    ensures var s', t := Apply(code, s, step), step.t;
            && s'.files == s.files && s'.order == s.order && s'.steps == s.steps
            && (forall u :: u != t ==>
                Started(s', u) == Started(s, u) && (u in s.running ==> s'.running[u] == s.running[u]))
            && Started(s', t) == Started(s, t) + (if step.StartPhase? then 1 else 0)
            && (t in s.running ==> t in s'.running && s'.running[t] == s.running[t] && !step.StartPhase?)
            && (t in s'.running && t !in s.running ==> step.StartPhase? && s'.running[t] == s.stages[t].memory)
            && (step.StartPhase? ==> t in s'.running)
            && t in s'.stages && !s'.stages[t].Between? && !s'.stages[t].Returning?
            && (s'.stages[t].Finished? ==> s.stages[t].Returning?)
  {
  }

  lemma QuietReplayed<M, F>(code: Code<M, F>, s: State<M, F>, step: Step, init: F)
    requires Inv(code, s, init) && Enabled(s, step) && !step.Work? && !step.Acquire?
    ensures Replayed(code, Apply(code, s, step), init) && EarlierComplete(code, Apply(code, s, step), init)
  {
    hide Alone, Serial, EarlierComplete;
    var t, s' := step.t, Apply(code, s, step);
    assert Fits(s, t);
    QuietView(code, s, step);
    OwnStep(code, s, step);
    hide Apply;
    if s.order != [] {
      assert s.order[|s.order| - 1] in s.order;
      if step.StartPhase? || step.Return? || (step.Cancel? && HoldsLease(s.stages[t])) {
        HolderIsLast(s, t);
      } else {
        NeverTook(s, step);
      }
      hide Fits, LastHoldsLock;
      EarlierFrame(code, s, s', init);
      assert LastAlone(code, s', init) == LastAlone(code, s, init);
    } else {
      NothingEarlier(code, s', init);
    }
  }

  lemma NothingEarlier<M, F>(code: Code<M, F>, s: State<M, F>, init: F)
    requires s.order == []
    ensures EarlierComplete(code, s, init)
  {
  }

  /** A mutation that is only asking for the lock has no place in the lock order. */
  lemma NeverTook<M, F>(s: State<M, F>, step: Step)
    requires Staged(s) && Enabled(s, step) && (step.Request? || (step.Cancel? && s.stages[step.t].Waiting?))
    ensures step.t !in s.order
  {
  }

  lemma {:induction false} InvAlways<M, F>(code: Code<M, F>, init: State<M, F>, schedule: seq<Step>)
    requires Init(init) && Run(code, init, schedule).Some?
    ensures Inv(code, Run(code, init, schedule).value, init.files)
  {
    hide Alone, Serial, Replayed, EarlierComplete;
    if schedule == [] {
      InitInv(code, init);
    } else {
      InvAlways(code, init, schedule[..|schedule| - 1]);
      var s, step := Run(code, init, schedule[..|schedule| - 1]).value, schedule[|schedule| - 1];
      InvStep(code, s, step, init.files);
    }
  }

  lemma InitInv<M, F>(code: Code<M, F>, init: State<M, F>)
    requires Init(init)
    ensures Inv(code, init, init.files)
  {
  }

  lemma InvStep<M, F>(code: Code<M, F>, s: State<M, F>, step: Step, init: F)
    requires Inv(code, s, init) && Enabled(s, step)
    ensures Inv(code, Apply(code, s, step), init)
  {
    OwnStep(code, s, step);
    hide Fits, Replayed, EarlierComplete, Apply;
    LockPreserved(code, s, step);
    StagedPreserved(code, s, step);
    match step
    case Work(t) => WorkReplayed(code, s, t, init);
    case Acquire(t) => AcquireReplayed(code, s, t, init);
    case _ => QuietReplayed(code, s, step, init);
  }

  // ----- main results -----

  /** Two phases never run at once, and while one runs the mutex is locked. */
  lemma PhasesNeverOverlap<M, F>(code: Code<M, F>, init: State<M, F>, schedule: seq<Step>, t: TaskId, u: TaskId)
    requires Init(init) && Run(code, init, schedule).Some?
    requires var s := Run(code, init, schedule).value; t in s.running && u in s.running
    ensures t == u && Run(code, init, schedule).value.locked
  {
    InvAlways(code, init, schedule);
    var s := Run(code, init, schedule).value;
    HolderIsLast(s, t);
    HolderIsLast(s, u);
  }

  /** The mutex is free exactly when no task holds its lease and no started phase holds its clone. */
  lemma FreeExactlyWhenAllDropped<M, F>(code: Code<M, F>, init: State<M, F>, schedule: seq<Step>)
    requires Init(init) && Run(code, init, schedule).Some?
    ensures var s := Run(code, init, schedule).value;
            !s.locked <==> forall t :: t !in s.running && !(t in s.stages && HoldsLease(s.stages[t]))
  {
    InvAlways(code, init, schedule);
    hide Run;
    var s := Run(code, init, schedule).value;
    if s.locked {
      assert Fits(s, s.order[|s.order| - 1]);
    } else {
      forall t ensures t !in s.running && !(t in s.stages && HoldsLease(s.stages[t])) {
        if t in s.running || (t in s.stages && HoldsLease(s.stages[t])) {
          HolderIsLast(s, t);
        }
      }
    }
  }

  /**
   The files are those of the mutations executed one at a time in lock order. Of each mutation
   that is over, exactly the phases it started contribute, each in full; one that finished
   without being cancelled contributes all its phases.
   */
  lemma FilesAreSerial<M, F>(code: Code<M, F>, init: State<M, F>, schedule: seq<Step>)
    requires Init(init) && Run(code, init, schedule).Some?
    ensures var s := Run(code, init, schedule).value;
            && s.files == Serial(code, s.order, s.steps, init.files)
            && (forall i :: 0 <= i < |s.order| && (i < |s.order| - 1 || !s.locked) ==>
                  var t := s.order[i];
                  var solo := Alone(code, t, Steps(s, t), Serial(code, s.order[..i], s.steps, init.files));
                  && !solo.at.Inside? && solo.phases == Started(s, t)
                  && t in s.stages && (s.stages[t].Finished? || s.stages[t].Cancelled?)
                  && (s.stages[t].Finished? ==> solo.at.Done?))
  {
    InvAlways(code, init, schedule);
    var s := Run(code, init, schedule).value;
    hide Run, Alone;
    FilesNow(code, s, init.files);
    if s.order != [] && !s.locked {
      LastIsOver(code, s, init.files);
    }
  }

  /**
   Between two phases of a mutation nobody changes the files: what its first phase read is still
   there when its second phase starts, whatever the other mutations and their callers do meanwhile.
   */
  lemma {:induction false} NothingChangesBetweenPhases<M, F>(
      code: Code<M, F>, init: State<M, F>, a: seq<Step>, b: seq<Step>, t: TaskId)
    requires Init(init) && Run(code, init, a + b).Some? && Run(code, init, a).Some?
    requires forall k :: 0 <= k <= |b| && Run(code, init, a + b[..k]).Some? ==>
               var s := Run(code, init, a + b[..k]).value;
               t in s.stages && s.stages[t].Between?
    ensures var s, s' := Run(code, init, a).value, Run(code, init, a + b).value;
            && s'.files == s.files
            && t in s.stages && t in s'.stages && s'.stages[t] == s.stages[t]
    decreases |b|
  {
    hide Inv, Apply;
    assert a + b[..0] == a && b[..|b|] == b;
    if b != [] {
      var rest, step := b[..|b| - 1], b[|b| - 1];
      assert (a + b)[..|a + b| - 1] == a + rest;
      assert forall k :: 0 <= k <= |rest| ==> rest[..k] == b[..k];
      NothingChangesBetweenPhases(code, init, a, rest, t);
      InvAlways(code, init, a + rest);
      var s := Run(code, init, a + rest).value;
      assert b[..|rest|] == rest;
      BetweenIsQuiet(code, s, step, t, init.files);
    }
  }

  lemma BetweenIsQuiet<M, F>(code: Code<M, F>, s: State<M, F>, step: Step, t: TaskId, init: F)
    requires Inv(code, s, init) && Enabled(s, step)
    requires t in s.stages && s.stages[t].Between?
    requires t in Apply(code, s, step).stages && Apply(code, s, step).stages[t].Between?
    ensures Apply(code, s, step).files == s.files && Apply(code, s, step).stages[t] == s.stages[t]
  {
    hide Replayed, EarlierComplete;
    HolderIsLast(s, t);
    assert Fits(s, t);
    OwnStep(code, s, step);
    if step.Work? {
      HolderIsLast(s, step.t);
    }
  }

  // ----- cancellation -----

  /** A cancelled mutation takes no step of its own any more; only a phase it has started goes on. */
  lemma CancelledStays<M, F>(code: Code<M, F>, s: State<M, F>, step: Step, t: TaskId)
    requires AllFit(s) && Enabled(s, step) && t in s.stages && s.stages[t].Cancelled?
    ensures step.t == t ==> step.Work?
    ensures var s' := Apply(code, s, step);
            && t in s'.stages && s'.stages[t].Cancelled? && Started(s', t) == Started(s, t)
            && (t in s'.running ==> t in s.running) && (t in s'.order ==> t in s.order)
  {
    OwnStep(code, s, step);
    if step.Work? {
      WorkStarted(code, s, step.t);
    } else if step.t != t && !step.Acquire? {
      assert Fits(s, step.t);
      QuietView(code, s, step);
    }
  }

  lemma WorkStarted<M, F>(code: Code<M, F>, s: State<M, F>, t: TaskId)
    requires Enabled(s, Work(t))
    ensures var s' := Apply(code, s, Work(t));
            && s'.started == s.started && s'.order == s.order
            && (s.stages[t].Cancelled? ==> t in s'.stages && s'.stages[t].Cancelled?)
  {
  }

  lemma CancelView<M, F>(code: Code<M, F>, s: State<M, F>, t: TaskId)
    requires Enabled(s, Cancel(t))
    ensures var s' := Apply(code, s, Cancel(t));
            && t in s'.stages && s'.stages[t].Cancelled? && s'.running == s.running && s'.order == s.order
            && s'.started == s.started && s'.files == s.files
  {
  }

  lemma RunPrefix<M, F>(code: Code<M, F>, init: State<M, F>, schedule: seq<Step>, step: Step)
    ensures Run(code, init, schedule + [step])
            == match Run(code, init, schedule)
               case None => None
               case Some(s) => if Enabled(s, step) then Some(Apply(code, s, step)) else None
  {
    assert (schedule + [step])[..|schedule|] == schedule;
  }

  /** What holds of a mutation after it was cancelled in the state `before`. */
  ghost predicate Ended<M, F>(before: State<M, F>, after: State<M, F>, t: TaskId) {
    && t in before.stages && t in after.stages && after.stages[t].Cancelled?
    && Started(after, t) == Started(before, t)
    && (t in after.running ==> t in before.running)
    && (before.stages[t].Waiting? ==> t !in after.order)
    && (after.order != [] && after.order[|after.order| - 1] == t ==> (after.locked <==> t in after.running))
  }

  /**
   A cancelled mutation starts no further phase, neither takes the lock nor returns, and one that was
   waiting for the lock never gets it. A phase that was running goes on; until another mutation takes
   the lock, the mutex is locked exactly while that phase runs.
   */
  lemma {:induction false} CancellationEnds<M, F>(
      code: Code<M, F>, init: State<M, F>, a: seq<Step>, t: TaskId, b: seq<Step>)
    requires Init(init) && Run(code, init, a + [Cancel(t)] + b).Some?
    ensures Run(code, init, a).Some?
    ensures Ended(Run(code, init, a).value, Run(code, init, a + [Cancel(t)] + b).value, t)
    ensures StartPhase(t) !in b && Acquire(t) !in b && Return(t) !in b && Cancel(t) !in b
    decreases |b|
  {
    hide Apply, Leases, Inv, Run, Ended;
    if b == [] {
      assert a + [Cancel(t)] + b == a + [Cancel(t)];
      RunPrefix(code, init, a, Cancel(t));
      CancelledNow(code, init, a, t);
    } else {
      var rest, step := b[..|b| - 1], b[|b| - 1];
      assert b == rest + [step];
      assert a + [Cancel(t)] + b == a + [Cancel(t)] + rest + [step];
      RunPrefix(code, init, a + [Cancel(t)] + rest, step);
      CancellationEnds(code, init, a, t, rest);
      StaysEnded(code, init, a + [Cancel(t)] + rest, Run(code, init, a).value, step, t);
    }
  }

  lemma CancelledNow<M, F>(code: Code<M, F>, init: State<M, F>, a: seq<Step>, t: TaskId)
    requires Init(init) && Run(code, init, a).Some? && Run(code, init, a + [Cancel(t)]).Some?
    ensures Ended(Run(code, init, a).value, Run(code, init, a + [Cancel(t)]).value, t)
  {
    hide Apply, Run;
    RunPrefix(code, init, a, Cancel(t));
    InvAlways(code, init, a);
    InvAlways(code, init, a + [Cancel(t)]);
    hide Replayed, EarlierComplete;
    CancelView(code, Run(code, init, a).value, t);
    assert Fits(Run(code, init, a + [Cancel(t)]).value, t);
  }

  lemma StaysEnded<M, F>(code: Code<M, F>, init: State<M, F>, schedule: seq<Step>, before: State<M, F>, step: Step,
                         t: TaskId)
    requires Init(init) && Run(code, init, schedule).Some? && Run(code, init, schedule + [step]).Some?
    requires Ended(before, Run(code, init, schedule).value, t)
    ensures Ended(before, Run(code, init, schedule + [step]).value, t)
    ensures step.t == t ==> step.Work?
  {
    hide Apply, Run;
    RunPrefix(code, init, schedule, step);
    InvAlways(code, init, schedule);
    InvAlways(code, init, schedule + [step]);
    hide Replayed, EarlierComplete;
    CancelledStays(code, Run(code, init, schedule).value, step, t);
    assert Fits(Run(code, init, schedule + [step]).value, t);
  }

  // ----- progress -----

  /** While a mutation is not over, or has left a phase behind, some step other than a cancellation can be taken. */
  lemma NeverStuck<M, F>(code: Code<M, F>, init: State<M, F>, schedule: seq<Step>, t: TaskId)
    requires Init(init) && Run(code, init, schedule).Some?
    requires var s := Run(code, init, schedule).value;
             t in s.running || (t in s.stages && !s.stages[t].Finished? && !s.stages[t].Cancelled?)
    ensures exists step: Step ::
              !step.Request? && !step.Cancel? && Enabled(Run(code, init, schedule).value, step)
  {
    InvAlways(code, init, schedule);
    hide Run, Replayed, EarlierComplete;
    var s := Run(code, init, schedule).value;
    if !s.locked && t in s.stages && s.stages[t].Waiting? {
      assert Enabled(s, Acquire(t));
    } else {
      var u := if s.locked then s.order[|s.order| - 1] else t;
      assert Fits(s, u);
      if u in s.running {
        assert Enabled(s, Work(u));
      } else if s.stages[u].Between? {
        assert Enabled(s, StartPhase(u));
      } else {
        assert Enabled(s, Return(u));
      }
    }
  }

  /** A mutation that has the lock, after its first `k` operations. */
  ghost predicate At<M, F>(code: Code<M, F>, s: State<M, F>, t: TaskId, solo: Solo<M, F>) {
    && t in s.stages && s.locked && s.files == solo.files
    && Leases(s, t) == (if solo.at.Inside? then 2 else 1) && (t in s.running <==> solo.at.Inside?)
    && (match solo.at
        case Boundary => s.stages[t] == Between(solo.memory)
        case Inside => s.stages[t].Awaiting? && s.running[t] == solo.memory
        case Done => s.stages[t].Returning?)
  }

  /** The steps of the first `n` operations: a phase is started when there is none. */
  function Uninterrupted<M, F>(code: Code<M, F>, t: TaskId, n: nat, files: F): seq<Step> {
    if n == 0 then [Request(t), Acquire(t)]
    else
      Uninterrupted(code, t, n - 1, files)
      + (if Alone(code, t, n - 1, files).at.Boundary? then [StartPhase(t), Work(t)] else [Work(t)])
  }

  lemma {:induction false} RunsAlone<M, F>(code: Code<M, F>, s: State<M, F>, t: TaskId, n: nat)
    requires !s.locked && t !in s.stages && t !in s.running
    requires forall k: nat :: k < n ==> !Alone(code, t, k, s.files).at.Done?
    ensures var after := Run(code, s, Uninterrupted(code, t, n, s.files));
            after.Some? && At(code, after.value, t, Alone(code, t, n, s.files))
  {
    hide Apply, Leases, At, Next, Enabled;
    if n == 0 {
      TakesLock(code, s, t);
    } else {
      RunsAlone(code, s, t, n - 1);
      var trace := Uninterrupted(code, t, n - 1, s.files);
      var before, solo := Run(code, s, trace).value, Alone(code, t, n - 1, s.files);
      if solo.at.Boundary? {
        assert trace + [StartPhase(t), Work(t)] == trace + [StartPhase(t)] + [Work(t)];
        RunPrefix(code, s, trace, StartPhase(t));
        RunPrefix(code, s, trace + [StartPhase(t)], Work(t));
        PhaseStarts(code, before, t, solo);
        WorksAlone(code, Apply(code, before, StartPhase(t)), t, solo.(at := Inside));
      } else {
        RunPrefix(code, s, trace, Work(t));
        WorksAlone(code, before, t, solo);
      }
    }
  }

  lemma TakesLock<M, F>(code: Code<M, F>, s: State<M, F>, t: TaskId)
    requires !s.locked && t !in s.stages && t !in s.running
    ensures Run(code, s, Uninterrupted(code, t, 0, s.files)).Some?
    ensures At(code, Run(code, s, Uninterrupted(code, t, 0, s.files)).value, t, Alone(code, t, 0, s.files))
  {
    assert [Request(t), Acquire(t)] == [] + [Request(t)] + [Acquire(t)];
    RunPrefix(code, s, [], Request(t));
    RunPrefix(code, s, [] + [Request(t)], Acquire(t));
    hide Uninterrupted, Run;
    assert Run(code, s, []) == Some(s) by { RunsNothing(code, s); }
  }

  lemma RunsNothing<M, F>(code: Code<M, F>, s: State<M, F>)
    ensures Run(code, s, []) == Some(s)
  {
  }

  lemma PhaseStarts<M, F>(code: Code<M, F>, s: State<M, F>, t: TaskId, solo: Solo<M, F>)
    requires At(code, s, t, solo) && solo.at.Boundary?
    ensures Enabled(s, StartPhase(t)) && At(code, Apply(code, s, StartPhase(t)), t, solo.(at := Inside))
    ensures Next(code, t, solo.(at := Inside)) == Next(code, t, solo)
  {
  }

  lemma WorksAlone<M, F>(code: Code<M, F>, s: State<M, F>, t: TaskId, solo: Solo<M, F>)
    requires At(code, s, t, solo) && solo.at.Inside?
    ensures Enabled(s, Work(t)) && At(code, Apply(code, s, Work(t)), t, Next(code, t, solo))
  {
  }

  /**
   With the lock free, a new mutation that is not disturbed runs to its end, does what it does alone,
   and gives the lock back.
   */
  lemma RunsToItsEnd<M, F>(code: Code<M, F>, s: State<M, F>, t: TaskId, n: nat)
    requires !s.locked && t !in s.stages && t !in s.running
    requires Alone(code, t, n, s.files).at.Done?
    requires forall k: nat :: k < n ==> !Alone(code, t, k, s.files).at.Done?
    ensures var after := Run(code, s, Uninterrupted(code, t, n, s.files) + [Return(t)]);
            && after.Some? && !after.value.locked && t in after.value.stages && after.value.stages[t].Finished?
            && after.value.files == Alone(code, t, n, s.files).files
  {
    RunsAlone(code, s, t, n);
    RunPrefix(code, s, Uninterrupted(code, t, n, s.files), Return(t));
    hide Run, Uninterrupted, Alone;
  }
}
