/** Where the catalog a caller is given comes from, over every run of the cache protocol. */
module CatalogAnswers {
  import opened OfficialCatalog
  import opened Text
  import opened Wrappers

  /**
   What a caller asked for: its key is the trimmed id, so ids that differ only in white space around
   them share a file.
   */
  ghost predicate Asked(steps: seq<Step>, t: CallerId, key: string, version: string) {
    exists id :: Start(t, id, version) in steps && key == Trim(id)
  }

  /** A read of the caller that did not fail, when the file of that key held the snapshot. */
  ghost predicate ReadOf(init: State, steps: seq<Step>, k: nat, t: CallerId, key: string, snapshot: Snapshot) {
    && k < |steps| && (steps[k] == FirstRead(t, Reads(false)) || steps[k] == SecondRead(t, Reads(false)))
    && Run(init, steps[..k]).Some?
    && key in Run(init, steps[..k]).value.files && Run(init, steps[..k]).value.files[key] == Saved(snapshot)
  }

  ghost predicate ReadFrom(init: State, steps: seq<Step>, t: CallerId, key: string, cached: Option<Snapshot>) {
    cached.Some? ==> exists k: nat :: ReadOf(init, steps, k, t, key, cached.value)
  }

  ghost predicate WroteFor(s: State, key: string, version: string, snapshot: Snapshot) {
    exists i :: 0 <= i < |s.written| && s.written[i].snapshot == snapshot
                && s.written[i].pass.key == key && s.written[i].pass.version == version
  }

  /** A catalog is one that was written for the key and version asked for, or was read from that key's file. */
  ghost predicate Answers(init: State, steps: seq<Step>, s: State, t: CallerId, finish: Finish) {
    finish.Returned? ==>
      exists key ::
        && Asked(steps, t, key, finish.version)
        && (if finish.how.JustFetched? then WroteFor(s, key, finish.version, finish.snapshot)
            else ReadFrom(init, steps, t, key, Some(finish.snapshot)))
  }

  ghost predicate PassTracks(init: State, steps: seq<Step>, t: CallerId, pass: Pass) {
    Asked(steps, t, pass.key, pass.version) && ReadFrom(init, steps, t, pass.key, pass.cached)
  }

  ghost predicate StageTracks(init: State, steps: seq<Step>, s: State, t: CallerId, stage: Stage) {
    match stage
    case Checking(key, version, _) => Asked(steps, t, key, version)
    case Waiting(key, version) => Asked(steps, t, key, version)
    case Locked(key, version) => Asked(steps, t, key, version)
    case Loaded(key, version, cached, _) => Asked(steps, t, key, version) && ReadFrom(init, steps, t, key, cached)
    case Fetching(pass) => PassTracks(init, steps, t, pass)
    case Fetched(pass, _, _) => PassTracks(init, steps, t, pass)
    case Awaiting => true
    case Done(finish) => Answers(init, steps, s, t, finish)
  }

  ghost predicate Tracks(init: State, steps: seq<Step>, s: State) {
    && (forall t :: t in s.stages ==> StageTracks(init, steps, s, t, s.stages[t]))
    && (forall t :: t in s.jobs ==> PassTracks(init, steps, t, s.jobs[t].pass))
  }

  // ----- what has been asked and read stays so -----

  lemma AskedStays(steps: seq<Step>, step: Step, t: CallerId, key: string, version: string)
    requires Asked(steps, t, key, version)
    ensures Asked(steps + [step], t, key, version)
  {
    hide Trim;
    var id :| Start(t, id, version) in steps && key == Trim(id);
    assert Start(t, id, version) in steps + [step];
  }

  lemma ReadStays(init: State, steps: seq<Step>, step: Step, t: CallerId, key: string, cached: Option<Snapshot>)
    requires ReadFrom(init, steps, t, key, cached)
    ensures ReadFrom(init, steps + [step], t, key, cached)
  {
    hide Run;
    if cached.Some? {
      var k: nat :| ReadOf(init, steps, k, t, key, cached.value);
      assert (steps + [step])[..k] == steps[..k];
      assert ReadOf(init, steps + [step], k, t, key, cached.value);
    }
  }

  lemma WroteStays(s: State, after: State, key: string, version: string, snapshot: Snapshot)
    requires WroteFor(s, key, version, snapshot) && s.written <= after.written
    ensures WroteFor(after, key, version, snapshot)
  {
    var i :| 0 <= i < |s.written| && s.written[i].snapshot == snapshot
             && s.written[i].pass.key == key && s.written[i].pass.version == version;
    assert after.written[i] == s.written[i];
  }

  lemma AnswersStay(init: State, steps: seq<Step>, step: Step, s: State, after: State, t: CallerId, finish: Finish)
    requires Answers(init, steps, s, t, finish) && s.written <= after.written
    ensures Answers(init, steps + [step], after, t, finish)
  {
    hide Asked, ReadFrom, WroteFor;
    if finish.Returned? {
      var key :| Asked(steps, t, key, finish.version)
                 && (if finish.how.JustFetched? then WroteFor(s, key, finish.version, finish.snapshot)
                     else ReadFrom(init, steps, t, key, Some(finish.snapshot)));
      AskedStays(steps, step, t, key, finish.version);
      if finish.how.JustFetched? {
        WroteStays(s, after, key, finish.version, finish.snapshot);
      } else {
        ReadStays(init, steps, step, t, key, Some(finish.snapshot));
      }
    }
  }

  lemma StageStays(init: State, steps: seq<Step>, step: Step, s: State, after: State, t: CallerId, stage: Stage)
    requires StageTracks(init, steps, s, t, stage) && s.written <= after.written
    ensures StageTracks(init, steps + [step], after, t, stage)
  {
    hide Asked, ReadFrom, Answers;
    match stage
    case Checking(key, version, _) => AskedStays(steps, step, t, key, version);
    case Waiting(key, version) => AskedStays(steps, step, t, key, version);
    case Locked(key, version) => AskedStays(steps, step, t, key, version);
    case Loaded(key, version, cached, _) =>
      AskedStays(steps, step, t, key, version);
      ReadStays(init, steps, step, t, key, cached);
    case Fetching(pass) => PassStays(init, steps, step, t, pass);
    case Fetched(pass, _, _) => PassStays(init, steps, step, t, pass);
    case Awaiting =>
    case Done(finish) => AnswersStay(init, steps, step, s, after, t, finish);
  }

  lemma PassStays(init: State, steps: seq<Step>, step: Step, t: CallerId, pass: Pass)
    requires PassTracks(init, steps, t, pass)
    ensures PassTracks(init, steps + [step], t, pass)
  {
    hide Asked, ReadFrom;
    AskedStays(steps, step, t, pass.key, pass.version);
    ReadStays(init, steps, step, t, pass.key, pass.cached);
  }

  // ----- one step -----

  /** A read tells only of the file as it is. */
  lemma ReadIs(init: State, steps: seq<Step>, s: State, step: Step, key: string, version: string, read: Read)
    requires Run(init, steps) == Some(s) && read.Reads?
    requires (step.FirstRead? || step.SecondRead?) && step.read == read
    ensures ReadFrom(init, steps + [step], step.t, key, LoadCompatible(s.files, key, version, read.faulted))
  {
    hide Run;
    var cached := LoadCompatible(s.files, key, version, read.faulted);
    assert (steps + [step])[..|steps|] == steps && (steps + [step])[|steps|] == step;
    if cached.Some? {
      assert !read.faulted && read == Reads(false);
      assert ReadOf(init, steps + [step], |steps|, step.t, key, cached.value);
    }
  }

  lemma OthersStay(s: State, step: Step)
    requires Enabled(s, step)
    ensures var after := Apply(s, step);
            && s.written <= after.written
            && (step.Tick? ==> after.stages == s.stages && after.jobs == s.jobs)
            && (!step.Tick? ==>
                  forall u :: u != step.t ==>
                    && (u in after.stages <==> u in s.stages) && (u in s.stages ==> after.stages[u] == s.stages[u])
                    && (u in after.jobs <==> u in s.jobs) && (u in s.jobs ==> after.jobs[u] == s.jobs[u]))
  {
    hide LoadCompatible, HasFresh, Build, CacheKey;
  }

  ghost predicate OwnTrack(init: State, steps: seq<Step>, s: State, t: CallerId) {
    && (t in s.stages ==> StageTracks(init, steps, s, t, s.stages[t]))
    && (t in s.jobs ==> PassTracks(init, steps, t, s.jobs[t].pass))
  }

  /** What is known of the caller before its step is still so for the longer run. */
  ghost predicate Carried(init: State, steps: seq<Step>, s: State, step: Step) {
    && !step.Tick? && Enabled(s, step) && Run(init, steps) == Some(s)
    && (step.t in s.stages ==> StageTracks(init, steps + [step], Apply(s, step), step.t, s.stages[step.t]))
    && (step.t in s.jobs ==> PassTracks(init, steps + [step], step.t, s.jobs[step.t].pass))
  }

  lemma ReadTracks(init: State, steps: seq<Step>, s: State, step: Step)
    requires Carried(init, steps, s, step) && (step.FirstRead? || step.SecondRead?)
    ensures OwnTrack(init, steps + [step], Apply(s, step), step.t)
  {
    hide LoadCompatible, Fresh, Build, Asked, ReadFrom, WroteFor, Run, Answers, Trim;
    var after, t, all := Apply(s, step), step.t, steps + [step];
    NothingAnswered(init, all, after, t);
    if step.read.Reads? {
      var stage := s.stages[t];
      var cached := LoadCompatible(s.files, stage.key, stage.version, step.read.faulted);
      ReadIs(init, steps, s, step, stage.key, stage.version, step.read);
      if step.FirstRead? {
        FromCacheAnswers(init, all, after, t, stage.key, stage.version, cached, FromCache(stage.asked));
      }
    }
  }

  lemma PassesTrack(init: State, steps: seq<Step>, s: State, step: Step)
    requires Carried(init, steps, s, step) && (step.Check? || step.Fetch?)
    ensures OwnTrack(init, steps + [step], Apply(s, step), step.t)
  {
    hide LoadCompatible, Fresh, Build, Asked, ReadFrom, WroteFor, Run, Answers, Trim;
    var after, t, all := Apply(s, step), step.t, steps + [step];
    NothingAnswered(init, all, after, t);
    if step.Check? {
      var stage := s.stages[t];
      FromCacheAnswers(init, all, after, t, stage.key, stage.version, stage.cached, FromCache(s.now));
    } else {
      var pass := s.stages[t].pass;
      FromCacheAnswers(init, all, after, t, pass.key, pass.version, pass.cached, AfterFailedFetch);
    }
  }

  lemma JobTracks(init: State, steps: seq<Step>, s: State, step: Step)
    requires Carried(init, steps, s, step) && (step.Stamp? || step.Write?)
    ensures OwnTrack(init, steps + [step], Apply(s, step), step.t)
  {
    hide LoadCompatible, Fresh, Build, Asked, ReadFrom, WroteFor, Run, Answers, Trim;
    var after, t, all := Apply(s, step), step.t, steps + [step];
    NothingAnswered(init, all, after, t);
    if step.Write? && step.ok {
      WriteAnswers(init, all, s, t);
    }
  }

  lemma QuietTracks(init: State, steps: seq<Step>, s: State, step: Step)
    requires Carried(init, steps, s, step) && (step.Start? || step.Lock? || step.Spawn? || step.Cancel?)
    ensures OwnTrack(init, steps + [step], Apply(s, step), step.t)
  {
    hide LoadCompatible, Fresh, Build, Asked, ReadFrom, WroteFor, Run, Answers, Trim, HasFresh;
    var after, t, all := Apply(s, step), step.t, steps + [step];
    NothingAnswered(init, all, after, t);
    if step.Start? {
      StartAsks(steps, t, step.apiKeyId, step.version);
    }
  }

  lemma OwnTracks(init: State, steps: seq<Step>, s: State, step: Step)
    requires Tracks(init, steps, s) && Run(init, steps) == Some(s) && Enabled(s, step) && !step.Tick?
    ensures OwnTrack(init, steps + [step], Apply(s, step), step.t)
  {
    hide Apply, Enabled, Run, StageTracks, PassTracks, OwnTrack;
    var t := step.t;
    OthersStay(s, step);
    if t in s.stages {
      StageStays(init, steps, step, s, Apply(s, step), t, s.stages[t]);
    }
    if t in s.jobs {
      PassStays(init, steps, step, t, s.jobs[t].pass);
    }
    if step.FirstRead? || step.SecondRead? {
      ReadTracks(init, steps, s, step);
    } else if step.Check? || step.Fetch? {
      PassesTrack(init, steps, s, step);
    } else if step.Stamp? || step.Write? {
      JobTracks(init, steps, s, step);
    } else {
      QuietTracks(init, steps, s, step);
    }
  }

  lemma StartAsks(steps: seq<Step>, t: CallerId, id: string, version: string)
    ensures Asked(steps + [Start(t, id, version)], t, CacheKey(id), version)
  {
    hide Trim;
    assert (steps + [Start(t, id, version)])[|steps|] == Start(t, id, version);
  }

  lemma NothingAnswered(init: State, steps: seq<Step>, s: State, t: CallerId)
    ensures Answers(init, steps, s, t, Error) && Answers(init, steps, s, t, Cancelled)
  {
  }

  lemma FromCacheAnswers(init: State, steps: seq<Step>, s: State, t: CallerId, key: string, version: string,
                         cached: Option<Snapshot>, how: How)
    requires Asked(steps, t, key, version) && ReadFrom(init, steps, t, key, cached) && !how.JustFetched?
    ensures cached.Some? ==> Answers(init, steps, s, t, Returned(cached.value, version, how))
  {
    hide Asked, ReadFrom;
  }

  lemma WriteAnswers(init: State, steps: seq<Step>, s: State, t: CallerId)
    requires t in s.jobs && s.jobs[t].snapshot.Some? && PassTracks(init, steps, t, s.jobs[t].pass)
    ensures var pass, snapshot := s.jobs[t].pass, s.jobs[t].snapshot.value;
            Answers(init, steps, ApplyWrite(s, t, true), t, Returned(snapshot, pass.version, JustFetched))
  {
    hide Asked, ReadFrom;
    var after := ApplyWrite(s, t, true);
    assert after.written[|s.written|] == Written(s.jobs[t].snapshot.value, s.jobs[t].pass);
    assert WroteFor(after, s.jobs[t].pass.key, s.jobs[t].pass.version, s.jobs[t].snapshot.value);
  }

  lemma TracksStep(init: State, steps: seq<Step>, s: State, step: Step)
    requires Tracks(init, steps, s) && Run(init, steps) == Some(s) && Enabled(s, step)
    ensures Tracks(init, steps + [step], Apply(s, step))
  {
    hide Apply, Enabled, Run, StageTracks, PassTracks;
    var after := Apply(s, step);
    OthersStay(s, step);
    if !step.Tick? {
      OwnTracks(init, steps, s, step);
    }
    forall u | u in s.stages ensures StageTracks(init, steps + [step], after, u, s.stages[u]) {
      StageStays(init, steps, step, s, after, u, s.stages[u]);
    }
    forall u | u in s.jobs ensures PassTracks(init, steps + [step], u, s.jobs[u].pass) {
      PassStays(init, steps, step, u, s.jobs[u].pass);
    }
  }

  lemma {:induction false} TracksAlways(init: State, steps: seq<Step>)
    requires Init(init) && Run(init, steps).Some?
    ensures Tracks(init, steps, Run(init, steps).value)
  {
    hide Tracks, Apply, Enabled;
    if steps == [] {
      assert Tracks(init, [], init) by { NothingTracked(init); }
    } else {
      var rest, step := steps[..|steps| - 1], steps[|steps| - 1];
      TracksAlways(init, rest);
      TracksStep(init, rest, Run(init, rest).value, step);
      assert rest + [step] == steps;
    }
  }

  lemma NothingTracked(init: State)
    requires Init(init)
    ensures Tracks(init, [], init)
  {
  }

  // ----- main results -----

  /**
   A catalog that a caller is given belongs to the id and the version it asked for: it was written for
   them if it was just fetched; else a read of that caller, which did not fail, found it in their file.
   */
  lemma AnswerIsOwn(init: State, steps: seq<Step>, t: CallerId)
    requires Init(init) && Run(init, steps).Some?
    requires var s := Run(init, steps).value; t in s.stages && s.stages[t].Done?
    ensures var s := Run(init, steps).value; Answers(init, steps, s, t, s.stages[t].finish)
  {
    hide Run, Answers;
    TracksAlways(init, steps);
  }

  /** Whatever else happens, a caller's result stays what it was; a cancelled one gets none. */
  lemma ResultStays(s: State, step: Step, t: CallerId)
    requires Enabled(s, step) && t in s.stages && s.stages[t].Done?
    ensures t in Apply(s, step).stages && Apply(s, step).stages[t] == s.stages[t]
  {
    hide LoadCompatible, HasFresh, Build, CacheKey;
  }

  /**
   When the fetch fails, a caller whose read under the lock did not fail is given what the file now
   holds, however old, exactly if that is valid and of the version asked for; any other gets an error.
   */
  lemma FailedFetchReturnsStale(init: State, steps: seq<Step>, t: CallerId)
    requires Init(init) && Run(init, steps).Some? && Enabled(Run(init, steps).value, Fetch(t, None))
    requires !Run(init, steps).value.stages[t].pass.faulted
    ensures var s := Run(init, steps).value;
            var pass, after := s.stages[t].pass, Apply(s, Fetch(t, None));
            && after.lock.None?
            && if pass.key in s.files && s.files[pass.key].Saved? && s.files[pass.key].snapshot.response.valid
                  && s.files[pass.key].snapshot.version == pass.version
               then after.stages[t] == Done(Returned(s.files[pass.key].snapshot, pass.version, AfterFailedFetch))
               else after.stages[t] == Done(Error)
  {
    InvAlways(init, steps);
    hide Run;
    assert StageFits(Run(init, steps).value, Run(init, steps).value.stages[t]);
  }
}
