/**
 Threads sharing one physical SQLite handle.

 The handle lives in a pool of one. A transaction keeps it out of the pool through reference-counted
 holders: the transaction object, the "active transaction" slot, and any statement of the owner
 thread that went through the slot. Every step below is one the scheduler can interleave.
 */
module SqliteSharing {
  import opened Wrappers

  type ThreadId = nat
  type TxId = nat

  /** Who keeps the handle out of the pool. */
  datatype Holder = ByTransaction(x: TxId) | BySlot | ByStatement(t: ThreadId) | ByThread(t: ThreadId)

  /** Where a thread is inside a call. */
  datatype Pc =
    | WantsTransaction          // waiting for the pool before BEGIN
    | Acquired                  // about to run BEGIN IMMEDIATE
    | Begun                     // about to publish the transaction in the slot
    | WantsPool                 // a statement waiting for the pool
    | OnPool                    // a statement about to run on the pool's handle
    | OnHeld(x: TxId)           // a statement about to run on the handle of transaction `x`

  /** How far the end of a transaction has come; `Open` before commit or drop starts. */
  datatype Phase = Open | CommitFailed | Ended | Cleared
  datatype Tx = Tx(owner: ThreadId, phase: Phase)
  datatype Slot = Slot(owner: ThreadId, x: TxId)

  /** The SQLite handle: its contents and, inside a transaction, what they were at BEGIN. */
  datatype Handle<C, S> = Handle(contents: C, saved: Option<C>, pending: seq<Issued<S>>, opener: Option<ThreadId>)

  /** A statement and the thread it was issued for: the owner, when it went through a transaction. */
  datatype Issued<S> = Issued(stmt: S, issuer: ThreadId)

  datatype State<C, S> = State(
    holders: set<Holder>,
    slot: Option<Slot>,
    txs: map<TxId, Tx>,
    pcs: map<ThreadId, Pc>,      // threads not listed are outside any call
    handle: Handle<C, S>,
    nextTx: TxId,
    failedRollbacks: nat         // ROLLBACKs that failed inside an open SQLite transaction
  )

  datatype Step<S> =
    | CallTransaction(t: ThreadId)
    | TakeHandle(t: ThreadId)
    | Begin(t: ThreadId, ok: bool)
    | Publish(t: ThreadId)
    | CallStatement(t: ThreadId)
    | TakeForStatement(t: ThreadId)
    | RunOnPool(t: ThreadId, stmt: S)
    | RunOnHeld(t: ThreadId, stmt: S)
    | RunInTransaction(x: TxId, stmt: S)
    | Commit(x: TxId, ok: bool, rolledBack: bool)
    | Rollback(x: TxId, ok: bool)
    | ClearSlot(x: TxId)
    | ReleaseHandle(x: TxId)

  /** The database function that a statement computes; a failing statement leaves the contents. */
  type Effect<!C, !S> = (S, C) -> C

  predicate Idle<C, S>(s: State<C, S>, t: ThreadId) {
    t !in s.pcs
  }

  predicate At<C, S>(s: State<C, S>, t: ThreadId, pc: Pc) {
    t in s.pcs && s.pcs[t] == pc
  }

  /** The slot routes this thread's calls to the held handle. */
  predicate OwnsSlot<C, S>(s: State<C, S>, t: ThreadId) {
    s.slot.Some? && s.slot.value.owner == t
  }

  function Exec<C, S>(effect: Effect<C, S>, h: Handle<C, S>, stmt: S, issuer: ThreadId): Handle<C, S> {
    h.(contents := effect(stmt, h.contents), pending := if h.saved.Some? then h.pending + [Issued(stmt, issuer)]
       else [])
  }

  function CommitHandle<C, S>(h: Handle<C, S>): Handle<C, S> {
    h.(saved := None, pending := [], opener := None)
  }

  function RollbackHandle<C, S>(h: Handle<C, S>): Handle<C, S> {
    match h.saved
    case Some(saved) => Handle(saved, None, [], None)
    case None => h
  }

  predicate Enabled<C, S(!new)>(s: State<C, S>, step: Step<S>) {
    match step
    case CallTransaction(t) => Idle(s, t)
    case TakeHandle(t) => At(s, t, WantsTransaction) && s.holders == {}
    case Begin(t, ok) => At(s, t, Acquired) && (ok ==> s.handle.saved.None?)
    case Publish(t) => At(s, t, Begun)
    case CallStatement(t) => Idle(s, t)
    case TakeForStatement(t) => At(s, t, WantsPool) && s.holders == {}
    case RunOnPool(t, _) => At(s, t, OnPool)
    case RunOnHeld(t, _) => t in s.pcs && s.pcs[t].OnHeld?
    case RunInTransaction(x, _) => x in s.txs && s.txs[x].phase.Open?
    case Commit(x, ok, rolledBack) => x in s.txs && s.txs[x].phase.Open? && (ok ==> s.handle.saved.Some?)
    case Rollback(x, ok) =>
      x in s.txs && (s.txs[x].phase.Open? || s.txs[x].phase.CommitFailed?) && (ok ==> s.handle.saved.Some?)
    case ClearSlot(x) => x in s.txs && s.txs[x].phase.Ended?
    case ReleaseHandle(x) => x in s.txs && s.txs[x].phase.Cleared?
  }

  function Apply<C, S(!new)>(effect: Effect<C, S>, s: State<C, S>, step: Step<S>): State<C, S>
    requires Enabled(s, step)
  {
    match step
    case CallTransaction(t) =>
      // A thread that owns the slot is refused at once and is outside the call again.
      if OwnsSlot(s, t) then s else s.(pcs := s.pcs[t := WantsTransaction])
    case TakeHandle(t) => s.(holders := {ByThread(t)}, pcs := s.pcs[t := Acquired])
    case Begin(t, ok) =>
      if ok then
        s.(pcs := s.pcs[t := Begun],
           handle := s.handle.(saved := Some(s.handle.contents), pending := [], opener := Some(t)))
      else s.(holders := s.holders - {ByThread(t)}, pcs := s.pcs - {t})
    case Publish(t) =>
      if s.slot.Some? then
        // "transaction already active": the handle goes back without a ROLLBACK.
        s.(holders := s.holders - {ByThread(t)}, pcs := s.pcs - {t})
      else
        s.(holders := s.holders - {ByThread(t)} + {BySlot, ByTransaction(s.nextTx)}, pcs := s.pcs - {t},
           slot := Some(Slot(t, s.nextTx)), txs := s.txs[s.nextTx := Tx(t, Open)], nextTx := s.nextTx + 1)
    case CallStatement(t) =>
      if OwnsSlot(s, t) then
        s.(holders := s.holders + {ByStatement(t)}, pcs := s.pcs[t := OnHeld(s.slot.value.x)])
      else s.(pcs := s.pcs[t := WantsPool])
    case TakeForStatement(t) => s.(holders := {ByThread(t)}, pcs := s.pcs[t := OnPool])
    case RunOnPool(t, stmt) =>
      s.(handle := Exec(effect, s.handle, stmt, t), holders := s.holders - {ByThread(t)}, pcs := s.pcs - {t})
    case RunOnHeld(t, stmt) =>
      s.(handle := Exec(effect, s.handle, stmt, t), holders := s.holders - {ByStatement(t)}, pcs := s.pcs - {t})
    case RunInTransaction(x, stmt) => s.(handle := Exec(effect, s.handle, stmt, s.txs[x].owner))
    case Commit(x, ok, rolledBack) =>
      if ok then s.(handle := CommitHandle(s.handle), txs := s.txs[x := s.txs[x].(phase := Ended)])
      else
        s.(handle := if rolledBack then RollbackHandle(s.handle) else s.handle,
           txs := s.txs[x := s.txs[x].(phase := CommitFailed)])
    case Rollback(x, ok) =>
      s.(handle := if ok then RollbackHandle(s.handle) else s.handle,
         txs := s.txs[x := s.txs[x].(phase := Ended)],
         failedRollbacks := s.failedRollbacks + if !ok && s.handle.saved.Some? then 1 else 0)
    case ClearSlot(x) =>
      // The slot is emptied only if it still names this transaction.
      var cleared := s.(txs := s.txs[x := s.txs[x].(phase := Cleared)]);
      if s.slot == Some(Slot(s.txs[x].owner, x)) then cleared.(slot := None, holders := s.holders - {BySlot})
        else cleared
    case ReleaseHandle(x) => s.(holders := s.holders - {ByTransaction(x)}, txs := s.txs - {x})
  }

  predicate Init<C, S(==)>(s: State<C, S>) {
    && s.holders == {} && s.slot.None? && s.txs == map[] && s.pcs == map[] && s.failedRollbacks == 0
    && s.handle.saved.None? && s.handle.pending == [] && s.handle.opener.None?
  }

  function Run<C, S(!new)>(effect: Effect<C, S>, s: State<C, S>, schedule: seq<Step<S>>): Option<State<C, S>> {
    if schedule == [] then Some(s)
    else
      match Run(effect, s, schedule[..|schedule| - 1])
      case None => None
      case Some(before) =>
        var step := schedule[|schedule| - 1];
        if Enabled(before, step) then Some(Apply(effect, before, step)) else None
  }

  // ----- the invariant -----

  /** The holders are those of one transaction, or one thread, or nobody. */
  ghost predicate HoldersOfOne<C, S>(s: State<C, S>) {
    && (forall t, h :: ByThread(t) in s.holders && h in s.holders ==> h == ByThread(t))
    && (forall x, y :: ByTransaction(x) in s.holders && ByTransaction(y) in s.holders ==> x == y)
  }

  ghost predicate HoldersNamed<C, S>(s: State<C, S>) {
    && (forall x :: ByTransaction(x) in s.holders <==> x in s.txs)
    && (BySlot in s.holders <==> s.slot.Some?)
    && (forall t :: ByStatement(t) in s.holders <==> t in s.pcs && s.pcs[t].OnHeld?)
    && (forall t :: ByThread(t) in s.holders <==>
        t in s.pcs && (s.pcs[t].Acquired? || s.pcs[t].Begun? || s.pcs[t].OnPool?))
  }

  ghost predicate SlotNamesTransaction<C, S>(s: State<C, S>) {
    && (s.slot.Some? ==>
          s.slot.value.x in s.txs && s.txs[s.slot.value.x].owner == s.slot.value.owner
          && !s.txs[s.slot.value.x].phase.Cleared?)
    && (forall x :: x in s.txs && !s.txs[x].phase.Cleared? ==> s.slot == Some(Slot(s.txs[x].owner, x)))
    && (forall x :: x in s.txs ==> x < s.nextTx)
  }

  /** The thread that owns the slot is outside any call, or inside a statement on the held handle. */
  ghost predicate OwnerRouted<C, S>(s: State<C, S>) {
    && (s.slot.Some? && s.slot.value.owner in s.pcs ==> s.pcs[s.slot.value.owner].OnHeld?)
    && (forall t, x :: t in s.pcs && s.pcs[t].OnHeld? && x in s.txs ==> s.pcs[t].x == x && s.txs[x].owner == t)
  }

  predicate Unended(tx: Tx) {
    tx.phase.Open? || tx.phase.CommitFailed?
  }

  /**
   A SQLite transaction is open while somebody has begun it and not ended it; a ROLLBACK that fails
   inside one leaves it open for good.
   */
  ghost predicate OpenBelongs<C, S>(s: State<C, S>) {
    && (forall t :: t in s.pcs && s.pcs[t].Begun? ==>
        s.handle.saved.Some? && s.handle.opener == Some(t) && s.failedRollbacks == 0)
    && (forall x :: x in s.txs && s.txs[x].phase.Open? ==>
        s.handle.saved.Some? && s.handle.opener == Some(s.txs[x].owner))
    && (forall x :: x in s.txs && Unended(s.txs[x]) ==> s.failedRollbacks == 0)
    && (s.failedRollbacks > 0 ==> s.handle.saved.Some?)
    && (s.failedRollbacks == 0 && s.handle.saved.Some? ==> OpenerUnderWay(s))
  }

  ghost predicate OpenerUnderWay<C, S>(s: State<C, S>) {
    && s.handle.opener.Some?
    && ((s.handle.opener.value in s.pcs && s.pcs[s.handle.opener.value].Begun?)
        || exists x :: x in s.txs && s.txs[x].owner == s.handle.opener.value && Unended(s.txs[x]))
  }

  /** Unless a ROLLBACK has failed, every statement since BEGIN was issued for the one who began. */
  ghost predicate PendingOwned<C, S>(s: State<C, S>) {
    s.failedRollbacks == 0 ==>
      forall i :: 0 <= i < |s.handle.pending| ==> s.handle.opener == Some(s.handle.pending[i].issuer)
  }

  /** Replaying the statements since BEGIN on the contents at BEGIN gives the current contents. */
  function Fold<C, S>(effect: Effect<C, S>, stmts: seq<Issued<S>>, contents: C): C {
    if stmts == [] then contents
    else effect(stmts[|stmts| - 1].stmt, Fold(effect, stmts[..|stmts| - 1], contents))
  }

  ghost predicate PendingReplays<C, S>(effect: Effect<C, S>, h: Handle<C, S>) {
    match h.saved
    case Some(saved) => h.contents == Fold(effect, h.pending, saved)
    case None => h.pending == []
  }

  ghost predicate Inv<C, S(!new)>(effect: Effect<C, S>, s: State<C, S>) {
    && HoldersOfOne(s) && HoldersNamed(s) && SlotNamesTransaction(s) && OwnerRouted(s) && OpenBelongs(s)
    && PendingReplays(effect, s.handle) && PendingOwned(s)
  }

  lemma CallTransactionStep<C, S(!new)>(effect: Effect<C, S>, s: State<C, S>, step: Step<S>)
    requires Inv(effect, s) && Enabled(s, step) && step.CallTransaction?
    ensures Inv(effect, Apply(effect, s, step))
  {
  }

  lemma CallStatementStep<C, S(!new)>(effect: Effect<C, S>, s: State<C, S>, step: Step<S>)
    requires Inv(effect, s) && Enabled(s, step) && step.CallStatement?
    ensures Inv(effect, Apply(effect, s, step))
  {
    hide PendingReplays, PendingOwned;
    var s' := Apply(effect, s, step);
    assert s'.handle == s.handle && s'.txs == s.txs && s'.slot == s.slot && s'.failedRollbacks == s.failedRollbacks;
    SamePending(effect, s, s');
    if OwnsSlot(s, step.t) {
      assert ByTransaction(s.slot.value.x) in s.holders;
    }
  }

  lemma SamePending<C, S(!new)>(effect: Effect<C, S>, s: State<C, S>, s': State<C, S>)
    requires s'.handle == s.handle && s'.failedRollbacks == s.failedRollbacks
    ensures PendingReplays(effect, s.handle) ==> PendingReplays(effect, s'.handle)
    ensures PendingOwned(s) ==> PendingOwned(s')
  {
  }

  lemma TakeStep<C, S(!new)>(effect: Effect<C, S>, s: State<C, S>, step: Step<S>)
    requires Inv(effect, s) && Enabled(s, step) && (step.TakeHandle? || step.TakeForStatement?)
    ensures Inv(effect, Apply(effect, s, step))
  {
  }

  lemma BeginStep<C, S(!new)>(effect: Effect<C, S>, s: State<C, S>, step: Step<S>)
    requires Inv(effect, s) && Enabled(s, step) && step.Begin?
    ensures Inv(effect, Apply(effect, s, step))
  {
  }

  lemma PublishStep<C, S(!new)>(effect: Effect<C, S>, s: State<C, S>, step: Step<S>)
    requires Inv(effect, s) && Enabled(s, step) && step.Publish?
    ensures Inv(effect, Apply(effect, s, step))
  {
  }

  /** Running a statement only takes its own holder away. */
  lemma RunPlaces<C, S(!new)>(effect: Effect<C, S>, s: State<C, S>, step: Step<S>)
    requires Inv(effect, s) && Enabled(s, step) && IsStatement(step)
    ensures var s' := Apply(effect, s, step);
            HoldersOfOne(s') && HoldersNamed(s') && SlotNamesTransaction(s') && OwnerRouted(s')
  {
    hide OpenBelongs, PendingReplays, PendingOwned, Exec;
  }

  lemma ExecView<C, S(!new)>(effect: Effect<C, S>, h: Handle<C, S>, stmt: S, issuer: ThreadId)
    ensures var h' := Exec(effect, h, stmt, issuer); h'.saved == h.saved && h'.opener == h.opener
  {
  }

  lemma RunOpens<C, S(!new)>(effect: Effect<C, S>, s: State<C, S>, step: Step<S>)
    requires Inv(effect, s) && Enabled(s, step) && IsStatement(step)
    ensures OpenBelongs(Apply(effect, s, step))
  {
    hide HoldersOfOne, HoldersNamed, SlotNamesTransaction, OwnerRouted, PendingReplays, PendingOwned, Exec;
    match step
    case RunOnPool(t, stmt) => ExecView(effect, s.handle, stmt, t);
    case RunOnHeld(t, stmt) => ExecView(effect, s.handle, stmt, t);
    case RunInTransaction(x, stmt) => ExecView(effect, s.handle, stmt, s.txs[x].owner);
  }

  /** Inside a transaction a statement is issued for the one who began, unless a ROLLBACK has failed. */
  lemma RunIssued<C, S(!new)>(effect: Effect<C, S>, s: State<C, S>, step: Step<S>)
    requires Inv(effect, s) && Enabled(s, step) && IsStatement(step)
    ensures var issuer := if step.RunInTransaction? then s.txs[step.x].owner else step.t;
            && Apply(effect, s, step).handle == Exec(effect, s.handle, step.stmt, issuer)
            && Apply(effect, s, step).failedRollbacks == s.failedRollbacks
            && (s.handle.saved.Some? && s.failedRollbacks == 0 ==> s.handle.opener == Some(issuer))
  {
    hide PendingReplays, PendingOwned, Exec;
    match step
    case RunOnPool(t, _) => if s.failedRollbacks == 0 { PoolHolder(s, t); }
    case RunOnHeld(t, _) => assert ByStatement(t) in s.holders;
    case RunInTransaction(x, _) =>
  }

  lemma ExecPending<C, S(!new)>(effect: Effect<C, S>, h: Handle<C, S>, stmt: S, issuer: ThreadId)
    requires PendingReplays(effect, h)
    ensures PendingReplays(effect, Exec(effect, h, stmt, issuer))
  {
  }

  lemma RunStep<C, S(!new)>(effect: Effect<C, S>, s: State<C, S>, step: Step<S>)
    requires Inv(effect, s) && Enabled(s, step) && IsStatement(step)
    ensures Inv(effect, Apply(effect, s, step))
  {
    RunPlaces(effect, s, step);
    RunOpens(effect, s, step);
    RunIssued(effect, s, step);
    ExecPending(effect, s.handle, step.stmt, if step.RunInTransaction? then s.txs[step.x].owner else step.t);
    RunOwned(effect, s, Apply(effect, s, step), step.stmt, if step.RunInTransaction? then s.txs[step.x].owner
             else step.t);
    hide HoldersOfOne, HoldersNamed, SlotNamesTransaction, OwnerRouted, OpenBelongs, PendingReplays, PendingOwned;
    hide Apply, Exec;
  }

  lemma RunOwned<C, S(!new)>(effect: Effect<C, S>, s: State<C, S>, s': State<C, S>, stmt: S, issuer: ThreadId)
    requires PendingOwned(s) && s'.handle == Exec(effect, s.handle, stmt, issuer)
    requires s'.failedRollbacks == s.failedRollbacks
    requires s.handle.saved.Some? && s.failedRollbacks == 0 ==> s.handle.opener == Some(issuer)
    ensures PendingOwned(s')
  {
  }

  predicate IsEnd<S(!new)>(step: Step<S>) {
    step.Commit? || step.Rollback?
  }

  /** Ending a transaction in SQLite moves its phase and nothing of who holds what. */
  lemma EndPlaces<C, S(!new)>(effect: Effect<C, S>, s: State<C, S>, step: Step<S>)
    requires Inv(effect, s) && Enabled(s, step) && IsEnd(step)
    ensures var s' := Apply(effect, s, step);
            HoldersOfOne(s') && HoldersNamed(s') && SlotNamesTransaction(s') && OwnerRouted(s')
  {
    hide OpenBelongs, PendingReplays, PendingOwned, CommitHandle, RollbackHandle;
  }

  /** The only unended transaction is the one that ends. */
  lemma OnlyOne<C, S(!new)>(s: State<C, S>, x: TxId)
    requires HoldersOfOne(s) && HoldersNamed(s) && x in s.txs
    ensures forall y :: y in s.txs ==> y == x
    ensures forall t :: t in s.pcs ==> !s.pcs[t].Begun?
  {
    assert ByTransaction(x) in s.holders;
    forall y | y in s.txs ensures y == x {
      assert ByTransaction(y) in s.holders;
    }
    forall t | t in s.pcs ensures !s.pcs[t].Begun? {
      assert s.pcs[t].Begun? ==> ByThread(t) in s.holders;
    }
  }

  lemma EndOpens<C, S(!new)>(effect: Effect<C, S>, s: State<C, S>, step: Step<S>)
    requires Inv(effect, s) && Enabled(s, step) && IsEnd(step)
    ensures OpenBelongs(Apply(effect, s, step))
  {
    OnlyOne(s, step.x);
    var s' := Apply(effect, s, step);
    assert step.x in s'.txs && s'.txs[step.x].owner == s.txs[step.x].owner;
    assert step.Commit? && s'.handle.saved.Some? ==> Unended(s'.txs[step.x]);
    hide HoldersOfOne, HoldersNamed, SlotNamesTransaction, OwnerRouted, PendingReplays, PendingOwned;
  }

  lemma EndPending<C, S(!new)>(effect: Effect<C, S>, s: State<C, S>, step: Step<S>)
    requires Inv(effect, s) && Enabled(s, step) && IsEnd(step)
    ensures PendingReplays(effect, Apply(effect, s, step).handle) && PendingOwned(Apply(effect, s, step))
  {
    hide HoldersOfOne, HoldersNamed, SlotNamesTransaction, OwnerRouted, OpenBelongs;
  }

  lemma EndStep<C, S(!new)>(effect: Effect<C, S>, s: State<C, S>, step: Step<S>)
    requires Inv(effect, s) && Enabled(s, step) && IsEnd(step)
    ensures Inv(effect, Apply(effect, s, step))
  {
    EndPlaces(effect, s, step);
    EndOpens(effect, s, step);
    EndPending(effect, s, step);
    hide HoldersOfOne, HoldersNamed, SlotNamesTransaction, OwnerRouted, OpenBelongs, PendingReplays, PendingOwned;
    hide Apply;
  }

  lemma ReleaseStep<C, S(!new)>(effect: Effect<C, S>, s: State<C, S>, step: Step<S>)
    requires Inv(effect, s) && Enabled(s, step) && (step.ClearSlot? || step.ReleaseHandle?)
    ensures Inv(effect, Apply(effect, s, step))
  {
  }

  lemma {:induction false} InvAlways<C, S(!new)>(effect: Effect<C, S>, init: State<C, S>, schedule: seq<Step<S>>)
    requires Init(init) && Run(effect, init, schedule).Some?
    ensures Inv(effect, Run(effect, init, schedule).value)
  {
    if schedule == [] {
    } else {
      InvAlways(effect, init, schedule[..|schedule| - 1]);
      var s, step := Run(effect, init, schedule[..|schedule| - 1]).value, schedule[|schedule| - 1];
      hide Inv, Apply, Enabled;
      match step
      case CallTransaction(_) => CallTransactionStep(effect, s, step);
      case CallStatement(_) => CallStatementStep(effect, s, step);
      case TakeHandle(_) => TakeStep(effect, s, step);
      case TakeForStatement(_) => TakeStep(effect, s, step);
      case Begin(_, _) => BeginStep(effect, s, step);
      case Publish(_) => PublishStep(effect, s, step);
      case RunOnPool(_, _) => RunStep(effect, s, step);
      case RunOnHeld(_, _) => RunStep(effect, s, step);
      case RunInTransaction(_, _) => RunStep(effect, s, step);
      case Commit(_, _, _) => EndStep(effect, s, step);
      case Rollback(_, _) => EndStep(effect, s, step);
      case ClearSlot(_) => ReleaseStep(effect, s, step);
      case ReleaseHandle(_) => ReleaseStep(effect, s, step);
    }
  }

  // ----- main results -----

  /** A filled slot means its transaction holds the one handle, and nothing but its statements shares it. */
  lemma SlotMeansHeld<C, S(!new)>(effect: Effect<C, S>, init: State<C, S>, schedule: seq<Step<S>>)
    requires Init(init) && Run(effect, init, schedule).Some?
    requires Run(effect, init, schedule).value.slot.Some?
    ensures var s := Run(effect, init, schedule).value;
            && ByTransaction(s.slot.value.x) in s.holders
            && (forall h :: h in s.holders ==>
                  h == ByTransaction(s.slot.value.x) || h == BySlot || h == ByStatement(s.slot.value.owner))
  {
    InvAlways(effect, init, schedule);
    hide Run;
    var s := Run(effect, init, schedule).value;
    forall h | h in s.holders
      ensures h == ByTransaction(s.slot.value.x) || h == BySlot || h == ByStatement(s.slot.value.owner)
    {
      assert ByTransaction(s.slot.value.x) in s.holders;
      match h
      case ByThread(t) =>
      case ByStatement(t) =>
      case ByTransaction(x) =>
      case BySlot =>
    }
  }

  /** The owner of the slot never waits for the pool: its statement goes to the held handle at once. */
  lemma OwnerNeverWaits<C, S(!new)>(effect: Effect<C, S>, init: State<C, S>, schedule: seq<Step<S>>, t: ThreadId)
    requires Init(init) && Run(effect, init, schedule).Some?
    requires OwnsSlot(Run(effect, init, schedule).value, t)
    ensures var s := Run(effect, init, schedule).value;
            && (t in s.pcs ==> s.pcs[t] == OnHeld(s.slot.value.x))
            && (Idle(s, t) ==> At(Apply(effect, s, CallStatement(t)), t, OnHeld(s.slot.value.x)))
            && (Idle(s, t) ==> Apply(effect, s, CallTransaction(t)) == s)
  {
    InvAlways(effect, init, schedule);
  }

  /** A thread that has begun a transaction always finds the slot empty. */
  lemma SecondRefusalUnreachable<C,
      S(!new)>(effect: Effect<C, S>, init: State<C, S>, schedule: seq<Step<S>>, t: ThreadId)
    requires Init(init) && Run(effect, init, schedule).Some?
    requires At(Run(effect, init, schedule).value, t, Begun)
    ensures Run(effect, init, schedule).value.slot.None?
  {
    InvAlways(effect, init, schedule);
    hide Run;
    var s := Run(effect, init, schedule).value;
    assert ByThread(t) in s.holders;
  }

  predicate IsStatement<S(!new)>(step: Step<S>) {
    step.RunOnPool? || step.RunOnHeld? || step.RunInTransaction?
  }

  /** The statement is issued through the transaction begun by `owner`, or by that thread itself. */
  predicate BelongsTo<C, S(!new)>(s: State<C, S>, step: Step<S>, owner: ThreadId) {
    match step
    case RunInTransaction(x, _) => x in s.txs && s.txs[x].owner == owner
    case RunOnHeld(t, _) => t == owner
    case _ => false
  }

  lemma PoolHolder<C, S(!new)>(s: State<C, S>, t: ThreadId)
    requires HoldersOfOne(s) && HoldersNamed(s) && SlotNamesTransaction(s) && OpenBelongs(s)
    requires At(s, t, OnPool) && s.failedRollbacks == 0
    ensures s.handle.saved.None?
  {
    assert ByThread(t) in s.holders;
  }

  /**
   Inside an open SQLite transaction only that transaction or its owner thread runs statements,
   unless a ROLLBACK has failed.
   */
  lemma OnlyOwnersInside<C, S(!new)>(effect: Effect<C, S>, init: State<C, S>, schedule: seq<Step<S>>, step: Step<S>)
    requires Init(init) && Run(effect, init, schedule).Some?
    requires Enabled(Run(effect, init, schedule).value, step) && IsStatement(step)
    requires Run(effect, init, schedule).value.handle.saved.Some?
    requires Run(effect, init, schedule).value.failedRollbacks == 0
    ensures var s := Run(effect, init, schedule).value;
            s.handle.opener.Some? && BelongsTo(s, step, s.handle.opener.value)
  {
    InvAlways(effect, init, schedule);
    hide Run;
    var s := Run(effect, init, schedule).value;
    match step
    case RunOnPool(t, _) => PoolHolder(s, t);
    case RunOnHeld(t, _) => assert ByStatement(t) in s.holders;
    case RunInTransaction(x, _) => assert ByTransaction(x) in s.holders;
    case _ =>
  }

  ghost predicate UnderWay<C, S>(s: State<C, S>) {
    || (exists t :: t in s.pcs && s.pcs[t].Begun?)
    || (exists x :: x in s.txs && Unended(s.txs[x]))
  }

  /**
   Once nobody is in the middle of a transaction, the handle is still inside one exactly when a
   ROLLBACK failed; whoever runs the next statement then joins it.
   */
  lemma LeakedExactlyAfterFailedRollback<C, S(!new)>(effect: Effect<C, S>, init: State<C, S>, schedule: seq<Step<S>>)
    requires Init(init) && Run(effect, init, schedule).Some?
    requires !UnderWay(Run(effect, init, schedule).value)
    ensures var s := Run(effect, init, schedule).value;
            s.handle.saved.Some? <==> s.failedRollbacks > 0
  {
    InvAlways(effect, init, schedule);
  }

  function Overwrite(stmt: int, contents: int): int {
    stmt
  }

  const FRESH: State<int, int> := State({}, None, map[], map[], Handle(0, None, [], None), 0, 0)

  /** Thread 1's transaction ends with a ROLLBACK that fails, and its handle goes back to the pool. */
  const LEAKED: State<int, int> :=
    State({}, None, map[], map[], Handle(0, Some(0), [], Some(1)), 1, 1)

  lemma LeakHappens()
    ensures Run(Overwrite, FRESH, [CallTransaction(1), TakeHandle(1), Begin(1, true), Publish(1), Rollback(0, false),
                                   ClearSlot(0), ReleaseHandle(0)]) == Some(LEAKED)
  {
    var open := Handle(0, Some(0), [], Some(1));
    var p0: seq<Step<int>> := [];
    var p1 := p0 + [CallTransaction(1)];
    var p2 := p1 + [TakeHandle(1)];
    var p3 := p2 + [Begin(1, true)];
    var p4 := p3 + [Publish(1)];
    var p5 := p4 + [Rollback(0, false)];
    var p6 := p5 + [ClearSlot(0)];
    var s1 := FRESH.(pcs := map[1 := WantsTransaction]);
    var s2 := FRESH.(holders := {ByThread(1)}, pcs := map[1 := Acquired]);
    var s3 := State({ByThread(1)}, None, map[], map[1 := Begun], open, 0, 0);
    var s4 := State({BySlot, ByTransaction(0)}, Some(Slot(1, 0)), map[0 := Tx(1, Open)], map[], open, 1, 0);
    var s5 := State({BySlot, ByTransaction(0)}, Some(Slot(1, 0)), map[0 := Tx(1, Ended)], map[], open, 1, 1);
    var s6 := State({ByTransaction(0)}, None, map[0 := Tx(1, Cleared)], map[], open, 1, 1);
    hide Run;
    RunNothing(FRESH);
    RunFrom(FRESH, p0, CallTransaction(1), FRESH, s1);
    RunFrom(FRESH, p1, TakeHandle(1), s1, s2);
    RunFrom(FRESH, p2, Begin(1, true), s2, s3);
    RunFrom(FRESH, p3, Publish(1), s3, s4);
    RunFrom(FRESH, p4, Rollback(0, false), s4, s5);
    RunFrom(FRESH, p5, ClearSlot(0), s5, s6);
    RunFrom(FRESH, p6, ReleaseHandle(0), s6, LEAKED);
    assert p6 + [ReleaseHandle(0)]
        == [CallTransaction(1), TakeHandle(1), Begin(1, true), Publish(1), Rollback(0, false),
                                       ClearSlot(0), ReleaseHandle(0)];
  }

  lemma RunNothing(s: State<int, int>)
    ensures Run(Overwrite, s, []) == Some(s)
  {
  }

  predicate Same(a: State<int, int>, b: State<int, int>) {
    && a.holders == b.holders && a.slot == b.slot && a.txs == b.txs && a.pcs == b.pcs
    && a.handle == b.handle && a.nextTx == b.nextTx && a.failedRollbacks == b.failedRollbacks
  }

  lemma RunFrom(init: State<int, int>, schedule: seq<Step<int>>, step: Step<int>, s: State<int, int>, s': State<int,
                int>)
    requires Run(Overwrite, init, schedule) == Some(s)
    requires Enabled(s, step) && Same(Apply(Overwrite, s, step), s')
    ensures Run(Overwrite, init, schedule + [step]) == Some(s')
  {
    RunSnoc(Overwrite, init, schedule, step);
  }

  /** After that leak thread 2 writes inside the transaction that thread 1 could not roll back. */
  lemma StrangerJoinsLeakedTransaction()
    ensures Init(FRESH) && LEAKED.failedRollbacks == 1
    ensures Run(Overwrite, LEAKED, [CallStatement(2), TakeForStatement(2)]).Some?
    ensures var s := Run(Overwrite, LEAKED, [CallStatement(2), TakeForStatement(2)]).value;
            Enabled(s, RunOnPool(2, 7)) && s.handle.saved.Some? && s.handle.opener == Some(1)
  {
    RunFrom(LEAKED, [], CallStatement(2), LEAKED, LEAKED.(pcs := map[2 := WantsPool]));
    RunFrom(LEAKED, [CallStatement(2)], TakeForStatement(2), LEAKED.(pcs := map[2 := WantsPool]),
            LEAKED.(holders := {ByThread(2)}, pcs := map[2 := OnPool]));
  }

  lemma RunSnoc<C, S(!new)>(effect: Effect<C, S>, s: State<C, S>, schedule: seq<Step<S>>, step: Step<S>)
    ensures Run(effect, s, schedule + [step])
         == match Run(effect, s, schedule)
            case None => None
            case Some(before) => if Enabled(before, step) then Some(Apply(effect, before, step)) else None
  {
    assert (schedule + [step])[..|schedule|] == schedule;
  }

  // ----- the handle as a plain transactional database -----

  /** What a reader of committed data would see. */
  function Committed<C, S>(h: Handle<C, S>): C {
    match h.saved case Some(saved) => saved case None => h.contents
  }

  /**
   Committed data changes in two ways only: a statement outside any transaction takes effect at
   once, and a COMMIT that succeeds applies the statements since BEGIN, in order. In particular
   drop, and a failed commit with its ROLLBACK, leave the contents at BEGIN.
   */
  lemma RefinesPlainDatabase<C, S(!new)>(effect: Effect<C, S>, init: State<C, S>, schedule: seq<Step<S>>, step: Step<S>)
    requires Init(init) && Run(effect, init, schedule).Some? && Enabled(Run(effect, init, schedule).value, step)
    ensures var s := Run(effect, init, schedule).value;
            var s' := Apply(effect, s, step);
            Committed(s'.handle) ==
              match step
              case Commit(_, ok, _) => if ok then Fold(effect, s.handle.pending, Committed(s.handle))
                else Committed(s.handle)
              case RunOnPool(_, stmt) => if s.handle.saved.None? then effect(stmt, Committed(s.handle))
                else Committed(s.handle)
              case RunOnHeld(_, stmt) => if s.handle.saved.None? then effect(stmt, Committed(s.handle))
                else Committed(s.handle)
              case _ => Committed(s.handle)
  {
    InvAlways(effect, init, schedule);
  }

  /** A COMMIT applies statements of its own transaction, or of the thread that owns it, and no others. */
  lemma CommitAppliesOwnStatements<C, S(!new)>(effect: Effect<C, S>, init: State<C, S>, schedule: seq<Step<S>>, x: TxId)
    requires Init(init) && Run(effect, init, schedule).Some?
    requires Enabled(Run(effect, init, schedule).value, Commit(x, true, false))
    ensures var s := Run(effect, init, schedule).value;
            && s.failedRollbacks == 0
            && (forall i :: 0 <= i < |s.handle.pending| ==> s.handle.pending[i].issuer == s.txs[x].owner)
            && Apply(effect, s, Commit(x, true, false)).handle.contents
               == Fold(effect, s.handle.pending, s.handle.saved.value)
  {
    InvAlways(effect, init, schedule);
    hide Run;
    var s := Run(effect, init, schedule).value;
    assert s.handle.opener == Some(s.txs[x].owner);
  }

  /**
   A ROLLBACK that succeeds, by itself or after a COMMIT that failed, puts back the contents at BEGIN
   and ends the transaction; a COMMIT ends it and keeps what it has.
   */
  lemma EndsExactly<C, S(!new)>(effect: Effect<C, S>, s: State<C, S>, step: Step<S>)
    requires Enabled(s, step) && s.handle.saved.Some?
    ensures (step.Rollback? && step.ok) || (step.Commit? && !step.ok && step.rolledBack) ==>
              Apply(effect, s, step).handle.contents == s.handle.saved.value
    ensures step.Commit? && step.ok ==> Apply(effect, s, step).handle.contents == s.handle.contents
    ensures step.Rollback? || step.Commit? ==>
              (Apply(effect, s, step).handle.saved.None? <==> step.ok || (step.Commit? && step.rolledBack))
  {
  }

  // ----- progress -----

  /**
   While a thread is inside a call, or a transaction has not let go of the handle, a step that ends
   or continues one can be taken.
   */
  lemma NeverStuck<C, S(!new)>(effect: Effect<C, S>, init: State<C, S>, schedule: seq<Step<S>>, stmt: S)
    requires Init(init) && Run(effect, init, schedule).Some?
    requires var s := Run(effect, init, schedule).value; s.pcs != map[] || s.holders != {}
    ensures exists step: Step<S> ::
              && Enabled(Run(effect, init, schedule).value, step)
              && !step.CallTransaction? && !step.CallStatement? && !step.RunInTransaction?
  {
    InvAlways(effect, init, schedule);
    hide Run, PendingReplays, PendingOwned;
    var s := Run(effect, init, schedule).value;
    if s.holders == {} {
      var t :| t in s.pcs;
      if s.pcs[t].WantsTransaction? {
        assert Enabled(s, TakeHandle(t));
      } else {
        assert ByThread(t) !in s.holders && ByStatement(t) !in s.holders;
        assert Enabled(s, TakeForStatement(t));
      }
    } else {
      var h :| h in s.holders;
      HolderMoves(s, h, stmt);
    }
  }

  lemma HolderMoves<C, S(!new)>(s: State<C, S>, h: Holder, stmt: S)
    requires HoldersNamed(s) && SlotNamesTransaction(s) && h in s.holders
    ensures exists step: Step<S> ::
              Enabled(s, step) && !step.CallTransaction? && !step.CallStatement? && !step.RunInTransaction?
  {
    match h
    case ByThread(t) =>
      if s.pcs[t].Acquired? {
        assert Enabled(s, Begin(t, false));
      } else if s.pcs[t].Begun? {
        assert Enabled(s, Publish(t));
      } else {
        assert Enabled(s, RunOnPool(t, stmt));
      }
    case ByStatement(t) => assert Enabled(s, RunOnHeld(t, stmt));
    case ByTransaction(x) => TransactionMoves(s, x);
    case BySlot => TransactionMoves(s, s.slot.value.x);
  }

  lemma TransactionMoves<C, S(!new)>(s: State<C, S>, x: TxId)
    requires x in s.txs
    ensures exists step: Step<S> ::
              Enabled(s, step) && !step.CallTransaction? && !step.CallStatement? && !step.RunInTransaction?
  {
    match s.txs[x].phase
    case Open => assert Enabled(s, Step<S>.Commit(x, false, false));
    case CommitFailed => assert Enabled(s, Step<S>.Rollback(x, false));
    case Ended => assert Enabled(s, Step<S>.ClearSlot(x));
    case Cleared => assert Enabled(s, Step<S>.ReleaseHandle(x));
  }

  /** A transaction of one thread that begins, runs statements through the slot, and commits. */
  function WholeTransaction<S>(t: ThreadId, x: TxId, stmts: seq<S>): seq<Step<S>> {
    Inside(t, stmts) + [Commit(x, true, false)] + [ClearSlot(x)] + [ReleaseHandle(x)]
  }

  function Inside<S>(t: ThreadId, stmts: seq<S>): seq<Step<S>> {
    if stmts == [] then [CallTransaction(t)] + [TakeHandle(t)] + [Begin(t, true)] + [Publish(t)]
    else Inside(t, stmts[..|stmts| - 1]) + [CallStatement(t)] + [RunOnHeld(t, stmts[|stmts| - 1])]
  }

  lemma RunThen<C, S(!new)>(effect: Effect<C, S>, s: State<C, S>, schedule: seq<Step<S>>, step: Step<S>)
    requires Run(effect, s, schedule).Some? && Enabled(Run(effect, s, schedule).value, step)
    ensures Run(effect, s, schedule + [step]) == Some(Apply(effect, Run(effect, s, schedule).value, step))
  {
    assert (schedule + [step])[..|schedule|] == schedule;
  }

  /** The contents after statements one after the other. */
  function After<C, S>(effect: Effect<C, S>, stmts: seq<S>, contents: C): C {
    if stmts == [] then contents
    else effect(stmts[|stmts| - 1], After(effect, stmts[..|stmts| - 1], contents))
  }

  /** Nobody uses the handle, and the thread is outside any call. */
  ghost predicate Quiet<C, S>(s: State<C, S>, t: ThreadId) {
    s.holders == {} && s.slot.None? && s.txs == map[] && Idle(s, t) && s.handle.saved.None?
  }

  /** The thread is inside its transaction, and has changed the contents so far. */
  ghost predicate InsideNow<C, S>(s: State<C, S>, now: State<C, S>, t: ThreadId, contents: C) {
    && now.holders == {BySlot, ByTransaction(s.nextTx)} && now.slot == Some(Slot(t, s.nextTx))
    && now.txs == map[s.nextTx := Tx(t, Open)] && now.pcs == s.pcs && now.failedRollbacks == s.failedRollbacks
    && now.handle.contents == contents && now.handle.saved == Some(s.handle.contents)
  }

  lemma Begins<C, S(!new)>(effect: Effect<C, S>, s: State<C, S>, t: ThreadId)
    requires Quiet(s, t)
    ensures Run(effect, s, Inside(t, [])).Some?
    ensures InsideNow(s, Run(effect, s, Inside(t, [])).value, t, s.handle.contents)
  {
    var s1 := s.(pcs := s.pcs[t := WantsTransaction]);
    var s2 := s.(holders := {ByThread(t)}, pcs := s.pcs[t := Acquired]);
    var p: seq<Step<S>> := [];
    RunThen(effect, s, p, CallTransaction(t));
    assert p + [CallTransaction(t)] == [CallTransaction(t)];
    RunThen(effect, s, [CallTransaction(t)], TakeHandle(t));
    assert s1.pcs[t := Acquired] == s.pcs[t := Acquired];
    RunThen(effect, s, [CallTransaction(t)] + [TakeHandle(t)], Begin(t, true));
    var s3 := Apply(effect, s2, Begin(t, true));
    RunThen(effect, s, [CallTransaction(t)] + [TakeHandle(t)] + [Begin(t, true)], Publish(t));
    assert Apply(effect, s3, Publish(t)).pcs == s.pcs;
  }

  lemma {:induction false} RunsInside<C, S(!new)>(effect: Effect<C, S>, s: State<C, S>, t: ThreadId, stmts: seq<S>)
    requires Quiet(s, t)
    ensures Run(effect, s, Inside(t, stmts)).Some?
    ensures InsideNow(s, Run(effect, s, Inside(t, stmts)).value, t, After(effect, stmts, s.handle.contents))
  {
    if stmts == [] {
      Begins(effect, s, t);
    } else {
      hide Apply, Enabled, Run;
      var rest, stmt := stmts[..|stmts| - 1], stmts[|stmts| - 1];
      RunsInside(effect, s, t, rest);
      var now := Run(effect, s, Inside(t, rest)).value;
      OneStatement(effect, s, now, t, After(effect, rest, s.handle.contents), stmt);
      RunThen(effect, s, Inside(t, rest), CallStatement(t));
      RunThen(effect, s, Inside(t, rest) + [CallStatement(t)], RunOnHeld(t, stmt));
    }
  }

  lemma OneStatement<C, S(!new)>(effect: Effect<C, S>, s: State<C, S>, now: State<C, S>, t: ThreadId, contents: C,
                                 stmt: S)
    requires Quiet(s, t) && InsideNow(s, now, t, contents)
    ensures Enabled(now, Step<S>.CallStatement(t))
    ensures Enabled(Apply(effect, now, CallStatement(t)), RunOnHeld(t, stmt))
    ensures InsideNow(s, Apply(effect, Apply(effect, now, CallStatement(t)), RunOnHeld(t, stmt)), t,
                      effect(stmt, contents))
  {
    var called := Apply(effect, now, CallStatement(t));
    var after := Apply(effect, called, RunOnHeld(t, stmt));
    assert after.pcs == s.pcs && after.holders == now.holders;
  }

  /**
   With nobody on the handle, a transaction that is not disturbed runs to its COMMIT, applies its
   statements in order, and leaves the handle free.
   */
  lemma UndisturbedTransaction<C, S(!new)>(effect: Effect<C, S>, s: State<C, S>, t: ThreadId, stmts: seq<S>)
    requires Quiet(s, t)
    ensures var after := Run(effect, s, WholeTransaction(t, s.nextTx, stmts));
            && after.Some? && Quiet(after.value, t) && after.value.failedRollbacks == s.failedRollbacks
            && after.value.handle.contents == After(effect, stmts, s.handle.contents)
  {
    RunsInside(effect, s, t, stmts);
    var x, p := s.nextTx, Inside(t, stmts);
    RunThen(effect, s, p, Commit(x, true, false));
    RunThen(effect, s, p + [Commit(x, true, false)], ClearSlot(x));
    RunThen(effect, s, p + [Commit(x, true, false)] + [ClearSlot(x)], ReleaseHandle(x));
    hide Run, Inside, After;
  }
}
