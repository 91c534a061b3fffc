/** Which task a worker is given, over every run of the agent-task protocol. */
module TasksGiven {
  import opened AgentTask
  import opened Text
  import opened Wrappers

  /**
   The step that gives a worker a stored task, in the state before it: a valid, signing read of a
   row that offers it.
   */
  predicate Reuses(s: State, step: Step, t: WorkerId, id: string) {
    && t in s.stages
    && ((step == Load(t, Reads(true, true)) && s.stages[t].Started?)
        || (step == Reload(t, Reads(true, true)) && s.stages[t].Locked?))
    && Offers(Row(s), s.stages[t].failed, id)
  }

  /** A read gives a task exactly so. */
  lemma ReadGives(account: string, s: State, step: Step, id: string)
    requires Enabled(account, s, step) && (step.Load? || step.Reload?)
    ensures Apply(account, s, step).stages[step.t] == Done(Resolved(id)) <==> Reuses(s, step, step.t, id)
  {
    ExamineView(Row(s), step.read, s.stages[step.t].failed);
    hide Examine, Offers, Proceeds;
    NothingOffers(s.stages[step.t].failed, id);
  }

  lemma NothingOffers(failed: Option<string>, id: string)
    ensures !Offers(None, failed, id)
  {
  }

  /** The read that gave it, in a run: the task is not the one the worker reported when it started. */
  ghost predicate ReusedAt(account: string, init: State, steps: seq<Step>, k: nat, t: WorkerId, id: string) {
    && k < |steps| && Run(account, init, steps[..k]).Some?
    && var s := Run(account, init, steps[..k]).value;
       Reuses(s, steps[k], t, id) && Start(t, s.stages[t].failed) in steps[..k]
  }

  /** An attempt of the worker that stored the task and was settled as a success. */
  ghost predicate RegisteredBy(s: State, i: nat, t: WorkerId, id: string) {
    && i < |s.attempts| && s.attempts[i].worker == t && s.attempts[i].id == Some(id) && s.attempts[i].wrote.Some?
    && s.attempts[i].end.Some? && s.attempts[i].end.value.1
  }

  // ----- what the worker reported -----

  predicate Reporting(stage: Stage) {
    stage.Started? || stage.Waiting? || stage.Locked? || stage.Loaded?
  }

  ghost predicate Reported(s: State, steps: seq<Step>) {
    forall t :: t in s.stages && Reporting(s.stages[t]) ==> Start(t, s.stages[t].failed) in steps
  }

  lemma ReportedStep(account: string, s: State, steps: seq<Step>, step: Step)
    requires Reported(s, steps) && Enabled(account, s, step)
    ensures Reported(Apply(account, s, step), steps + [step])
  {
    hide Examine, Blocks, Retained, Forgotten;
    var after := Apply(account, s, step);
    forall t | t in after.stages && Reporting(after.stages[t])
      ensures Start(t, after.stages[t].failed) in steps + [step]
    {
      if step.Start? && step.t == t {
        assert (steps + [step])[|steps|] == step;
      } else {
        assert t in s.stages && Reporting(s.stages[t]) && s.stages[t].failed == after.stages[t].failed;
        assert Start(t, s.stages[t].failed) in steps;
      }
    }
  }

  // ----- what a worker about to settle has done -----

  ghost predicate SettlesOwn(s: State) {
    forall t, id :: t in s.stages && s.stages[t].Settling? && s.stages[t].finish == Resolved(id) ==>
      s.attempts != [] && LastAttempt(s).worker == t && LastAttempt(s).id == Some(id) && LastAttempt(s).wrote.Some?
  }

  lemma SettlesOwnStep(account: string, s: State, step: Step)
    requires LockFits(s) && OpenFits(s) && SettlesOwn(s) && Enabled(account, s, step)
    ensures SettlesOwn(Apply(account, s, step))
  {
    if Quiet(step) {
      QuietView(account, s, step);
      hide Apply, Enabled, LockFits, OpenFits;
    } else if step.Persist? {
      SettlesOwnPersist(account, s, step);
    } else {
      SettlesOwnOther(account, s, step);
    }
  }

  lemma SettlesOwnPersist(account: string, s: State, step: Step)
    requires LockFits(s) && OpenFits(s) && SettlesOwn(s) && Enabled(account, s, step) && step.Persist?
    ensures SettlesOwn(Apply(account, s, step))
  {
    hide Examine, Blocks, Retained, Forgotten, TaskOf, Normalize, FailureKey;
    assert s.lock == Some(step.t);
  }

  lemma SettlesOwnOther(account: string, s: State, step: Step)
    requires LockFits(s) && OpenFits(s) && SettlesOwn(s) && Enabled(account, s, step)
    requires step.Check? || step.Register? || step.Settle?
    ensures SettlesOwn(Apply(account, s, step))
  {
    hide Examine, Blocks, Retained, Forgotten, TaskOf, Normalize, FailureKey;
    assert s.lock == Some(step.t);
  }

  // ----- what a worker has been given -----

  ghost predicate Given(account: string, init: State, steps: seq<Step>, s: State, t: WorkerId, id: string) {
    || (exists k: nat :: ReusedAt(account, init, steps, k, t, id))
    || (exists i: nat :: RegisteredBy(s, i, t, id))
  }

  /** A step that gives a task is a read of it or the settling of an attempt that stored it. */
  lemma GivenBy(account: string, s: State, step: Step, t: WorkerId, id: string)
    requires OpenFits(s) && SettlesOwn(s) && Enabled(account, s, step)
    requires t in Apply(account, s, step).stages && Apply(account, s, step).stages[t] == Done(Resolved(id))
    ensures var after := Apply(account, s, step);
            || (t in s.stages && s.stages[t] == Done(Resolved(id)))
            || Reuses(s, step, t, id)
            || (after.attempts != [] && RegisteredBy(after, |after.attempts| - 1, t, id))
  {
    hide Examine, Blocks, Retained, Forgotten, Offers, FailureKey, TaskOf;
    if step.Load? || step.Reload? {
      ReadGives(account, s, step, id);
    }
  }

  /** A settled attempt stays as it is. */
  lemma SettledStays(account: string, s: State, step: Step, i: nat)
    requires OpenFits(s) && LockFits(s) && Enabled(account, s, step)
    requires i < |s.attempts| && s.attempts[i].end.Some?
    ensures i < |Apply(account, s, step).attempts| && Apply(account, s, step).attempts[i] == s.attempts[i]
  {
    LogView(account, s, step);
    hide Apply, Examine;
    if step.Register? || step.Persist? || step.Settle? {
      assert InAttempt(s.stages[step.t]) && s.lock == Some(step.t);
    }
  }

  /**
   Every worker that is given a task was given one that a row stored while it read it, and that is not
   the one it reported as failed; or it registered and stored that task itself.
   */
  lemma {:induction false} GivenTask(account: string, init: State, steps: seq<Step>, t: WorkerId, id: string)
    requires Init(account, init) && Run(account, init, steps).Some?
    requires var s := Run(account, init, steps).value; t in s.stages && s.stages[t] == Done(Resolved(id))
    ensures Given(account, init, steps, Run(account, init, steps).value, t, id)
  {
    hide Apply, Inv, Init, Enabled, Reuses, RegisteredBy, SettlesOwn, Reported;
    Tracked(account, init, steps);
    if steps == [] {
      NobodyYet(account, init);
    } else {
      var rest, step := steps[..|steps| - 1], steps[|steps| - 1];
      Tracked(account, init, rest);
      var s := Run(account, init, rest).value;
      GivenBy(account, s, step, t, id);
      if t in s.stages && s.stages[t] == Done(Resolved(id)) {
        GivenTask(account, init, rest, t, id);
        StaysGiven(account, init, rest, s, step, t, id);
        assert rest + [step] == steps;
      } else if Reuses(s, step, t, id) {
        ReportedThen(s, step, rest, t, id);
        assert ReusedAt(account, init, steps, |rest|, t, id);
      }
    }
  }

  lemma NobodyYet(account: string, init: State)
    requires Init(account, init)
    ensures init.stages == map[] && SettlesOwn(init) && Reported(init, [])
  {
  }

  lemma ReportedThen(s: State, step: Step, steps: seq<Step>, t: WorkerId, id: string)
    requires Reported(s, steps) && Reuses(s, step, t, id)
    ensures Start(t, s.stages[t].failed) in steps
  {
  }

  lemma {:induction false} Tracked(account: string, init: State, steps: seq<Step>)
    requires Init(account, init) && Run(account, init, steps).Some?
    ensures var s := Run(account, init, steps).value;
            Reported(s, steps) && SettlesOwn(s) && LockFits(s) && OpenFits(s)
  {
    hide Apply, Inv, Init, Enabled, SettlesOwn, Reported;
    InvAlways(account, init, steps);
    InvParts(account, Run(account, init, steps).value);
    hide LockFits, OpenFits;
    if steps == [] {
      NobodyYet(account, init);
    } else {
      var rest, step := steps[..|steps| - 1], steps[|steps| - 1];
      Tracked(account, init, rest);
      var s := Run(account, init, rest).value;
      ReportedStep(account, s, rest, step);
      SettlesOwnStep(account, s, step);
      assert rest + [step] == steps;
    }
  }

  lemma StaysGiven(account: string, init: State, steps: seq<Step>, s: State, step: Step, t: WorkerId, id: string)
    requires Given(account, init, steps, s, t, id) && LockFits(s) && OpenFits(s) && Enabled(account, s, step)
    ensures Given(account, init, steps + [step], Apply(account, s, step), t, id)
  {
    hide Apply, Reuses, LockFits, OpenFits;
    if k: nat :| ReusedAt(account, init, steps, k, t, id) {
      assert (steps + [step])[..k] == steps[..k];
      assert ReusedAt(account, init, steps + [step], k, t, id);
    } else {
      var i: nat :| RegisteredBy(s, i, t, id);
      SettledStays(account, s, step, i);
      assert RegisteredBy(Apply(account, s, step), i, t, id);
    }
  }
}
