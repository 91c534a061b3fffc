/**
 Choosing which Codex app-server processes to signal: never one that owns the running manager,
 and only the topmost of a chain of matching processes.
 */
module RuntimeReload {
  import opened Wrappers

  type Pid = nat

  /** The parent links of the process table; nothing rules out dangling links or cycles. */
  type Parents = map<Pid, Pid>

  function Parent(parents: Parents, pid: Pid): Option<Pid> {
    if pid in parents then Some(parents[pid]) else None
  }

  /** The process `n` parent steps above `pid`. */
  function Above(parents: Parents, pid: Pid, n: nat): Option<Pid> {
    if n == 0 then Some(pid)
    else
      match Above(parents, pid, n - 1)
      case Some(p) => Parent(parents, p)
      case None => None
  }

  ghost predicate IsAncestor(parents: Parents, pid: Pid, ancestor: Pid) {
    exists n: nat :: n >= 1 && Above(parents, pid, n) == Some(ancestor)
  }

  ghost predicate Acyclic(parents: Parents) {
    forall pid :: !IsAncestor(parents, pid, pid)
  }

  /** `p` lies between `from` and `to` steps above `pid`. */
  ghost predicate Met(parents: Parents, pid: Pid, from: nat, to: nat, p: Pid) {
    exists k: nat :: from <= k <= to && Above(parents, pid, k) == Some(p)
  }

  lemma {:induction false} AboveTwice(parents: Parents, pid: Pid, m: nat, mid: Pid, n: nat)
    requires Above(parents, pid, m) == Some(mid)
    ensures Above(parents, pid, m + n) == Above(parents, mid, n)
  {
    if n > 0 {
      AboveTwice(parents, pid, m, mid, n - 1);
    }
  }

  /** Once a step leads back to an earlier process, later steps stay among those already met. */
  lemma {:induction false} AfterRepeat(parents: Parents, start: Pid, met: set<Pid>, i: nat, n: nat)
    requires forall k: nat :: 1 <= k <= i ==> Above(parents, start, k).Some? && Above(parents, start, k).value in met
    requires forall p :: p in met ==> Met(parents, start, 1, i, p)
    requires Above(parents, start, i + 1).Some? && Above(parents, start, i + 1).value in met
    requires n >= 1
    ensures Above(parents, start, n).Some? && Above(parents, start, n).value in met
  {
    if n > i + 1 {
      AfterRepeat(parents, start, met, i, n - 1);
      var p := Above(parents, start, n - 1).value;
      var k: nat :| 1 <= k <= i && Above(parents, start, k) == Some(p);
      assert Above(parents, start, n) == Parent(parents, p) == Above(parents, start, k + 1);
    }
  }

  lemma {:induction false} NoneStaysNone(parents: Parents, start: Pid, i: nat, n: nat)
    requires Above(parents, start, i).None? && i <= n
    ensures Above(parents, start, n).None?
  {
    if i < n {
      NoneStaysNone(parents, start, i, n - 1);
    }
  }

  method CollectAncestorPids(start: Pid, parents: Parents) returns (ancestors: set<Pid>)
    ensures forall p :: p in ancestors <==> IsAncestor(parents, start, p)
  {
    ancestors := {};
    var current := start;
    ghost var i: nat := 0;
    while current in parents
      invariant Above(parents, start, i) == Some(current)
      invariant ancestors <= parents.Values
      invariant forall k: nat :: 1 <= k <= i ==>
                Above(parents, start, k).Some? && Above(parents, start, k).value in ancestors
      invariant forall p :: p in ancestors ==> Met(parents, start, 1, i, p)
      decreases parents.Values - ancestors
    {
      var parent := parents[current];
      assert Above(parents, start, i + 1) == Some(parent);
      if parent in ancestors {
        forall n: nat | n >= 1
          ensures Above(parents, start, n).Some? && Above(parents, start, n).value in ancestors
        {
          AfterRepeat(parents, start, ancestors, i, n);
        }
        return;
      }
      ancestors := ancestors + {parent};
      current := parent;
      i := i + 1;
    }
    forall n: nat | n >= 1 && Above(parents, start, n).Some?
      ensures Above(parents, start, n).value in ancestors
    {
      if n > i {
        assert Above(parents, start, i + 1).None?;
        NoneStaysNone(parents, start, i + 1, n);
      }
    }
  }

  // ----- candidates and roots -----

  /** The parent links between candidates. */
  function CandidateParents(parents: Parents, candidates: set<Pid>): Parents {
    map pid | pid in parents && pid in candidates && parents[pid] in candidates :: parents[pid]
  }

  predicate IsRoot(parents: Parents, candidates: set<Pid>, pid: Pid) {
    pid in candidates && pid !in CandidateParents(parents, candidates)
  }

  ghost predicate ReachesRoot(parents: Parents, candidates: set<Pid>, pid: Pid) {
    exists n: nat, root :: Above(CandidateParents(parents, candidates), pid, n) == Some(root)
                           && IsRoot(parents, candidates, root)
  }

  /** Climbing from `pid` through candidates comes back to some process. */
  ghost predicate ClimbsIntoCycle(parents: Parents, candidates: set<Pid>, pid: Pid) {
    exists n: nat, p :: Above(CandidateParents(parents, candidates), pid, n) == Some(p)
                        && IsAncestor(CandidateParents(parents, candidates), p, p)
  }

  lemma {:induction false} ClimbStaysInside(parents: Parents, candidates: set<Pid>, pid: Pid, n: nat)
    requires pid in candidates
    ensures var up := Above(CandidateParents(parents, candidates), pid, n);
            up.Some? ==> up.value in candidates
  {
    if n > 0 {
      ClimbStaysInside(parents, candidates, pid, n - 1);
    }
  }

  lemma {:induction false} ClimbIsAncestry(parents: Parents, candidates: set<Pid>, pid: Pid, n: nat)
    ensures var up := Above(CandidateParents(parents, candidates), pid, n);
            up.Some? ==> Above(parents, pid, n) == up
  {
    if n > 0 {
      ClimbIsAncestry(parents, candidates, pid, n - 1);
    }
  }

  /** Climbing either ends at a root or revisits a process: there are finitely many candidates. */
  lemma {:induction false} ClimbEnds(parents: Parents, candidates: set<Pid>, pid: Pid, met: set<Pid>, n: nat, at: Pid)
    requires pid in candidates && at in candidates
    requires Above(CandidateParents(parents, candidates), pid, n) == Some(at)
    requires met <= candidates && at in met
    requires forall p :: p in met ==> Met(CandidateParents(parents, candidates), pid, 0, n, p)
    ensures ReachesRoot(parents, candidates, pid) || ClimbsIntoCycle(parents, candidates, pid)
    decreases candidates - met
  {
    var links := CandidateParents(parents, candidates);
    if at in links {
      var next := links[at];
      assert Above(links, pid, n + 1) == Some(next);
      if next in met {
        var k: nat :| 0 <= k <= n && Above(links, pid, k) == Some(next);
        AboveTwice(links, pid, k, next, n + 1 - k);
        assert IsAncestor(links, next, next);
      } else {
        forall p | p in met
          ensures Met(links, pid, 0, n + 1, p)
        {
          var k: nat :| 0 <= k <= n && Above(links, pid, k) == Some(p);
        }
        ClimbEnds(parents, candidates, pid, met + {next}, n + 1, next);
      }
    }
  }

  /** Nothing is above a root, so a climb that reached one cannot also go round in a cycle. */
  lemma {:induction false} CycleNeverEnds(links: Parents, p: Pid, back: nat, n: nat)
    requires back >= 1 && Above(links, p, back) == Some(p)
    ensures Above(links, p, n).Some?
    decreases n
  {
    if n < back {
      if Above(links, p, n).None? {
        NoneStaysNone(links, p, n, back);
      }
    } else {
      CycleNeverEnds(links, p, back, n - back);
      AboveTwice(links, p, back, p, n - back);
    }
  }

  /** A candidate is covered by a signalled root exactly when its own climb is not cyclic. */
  lemma ReachesRootUnlessCyclic(parents: Parents, candidates: set<Pid>, pid: Pid)
    requires pid in candidates
    ensures ReachesRoot(parents, candidates, pid) <==> !ClimbsIntoCycle(parents, candidates, pid)
  {
    var links := CandidateParents(parents, candidates);
    assert Above(links, pid, 0) == Some(pid);
    ClimbEnds(parents, candidates, pid, {pid}, 0, pid);
    if ReachesRoot(parents, candidates, pid) && ClimbsIntoCycle(parents, candidates, pid) {
      var n: nat, root :| Above(links, pid, n) == Some(root) && IsRoot(parents, candidates, root);
      var m: nat, p :| Above(links, pid, m) == Some(p) && IsAncestor(links, p, p);
      var back: nat :| back >= 1 && Above(links, p, back) == Some(p);
      assert Above(links, pid, n + 1).None?;
      CycleNeverEnds(links, p, back, n + 1);
      AboveTwice(links, pid, m, p, n + 1);
      NoneStaysNone(links, pid, n + 1, m + n + 1);
      assert false;
    }
  }

  lemma AcyclicCandidatesReachRoots(parents: Parents, candidates: set<Pid>, pid: Pid)
    requires Acyclic(parents) && pid in candidates
    ensures ReachesRoot(parents, candidates, pid)
  {
    ReachesRootUnlessCyclic(parents, candidates, pid);
    if ClimbsIntoCycle(parents, candidates, pid) {
      var links := CandidateParents(parents, candidates);
      var n: nat, p :| Above(links, pid, n) == Some(p) && IsAncestor(links, p, p);
      var back: nat :| back >= 1 && Above(links, p, back) == Some(p);
      ClimbIsAncestry(parents, candidates, p, back);
      assert IsAncestor(parents, p, p);
    }
  }

  /** With a cycle of matching processes there is nothing to signal. */
  lemma CyclicCandidatesHaveNoRoot()
    ensures var parents: Parents := map[1 := 2, 2 := 1];
            !ReachesRoot(parents, {1, 2}, 1) && forall pid :: !IsRoot(parents, {1, 2}, pid)
  {
    var parents: Parents := map[1 := 2, 2 := 1];
    var links := CandidateParents(parents, {1, 2});
    assert Above(links, 1, 1) == Some(2);
    assert Above(links, 1, 2) == Some(1);
    assert Above(links, 1, 0) == Some(1);
    assert IsAncestor(links, 1, 1);
    ReachesRootUnlessCyclic(parents, {1, 2}, 1);
  }

  // ----- the reload itself -----

  datatype Reload = Reload(matched: nat, signaled: seq<Pid>, refused: seq<Pid>)

  /**
   `listed` is the process table, `matched` the app servers of this Codex home, `accepts` the
   processes whose signal call succeeds.
   */
  method ReloadCodexAppServers(listed: set<Pid>, parents: Parents, matched: set<Pid>, self: Pid, accepts: set<Pid>)
    returns (r: Reload, ghost candidates: set<Pid>)
    requires matched <= listed
    ensures forall p :: p in candidates <==> p in matched && !IsAncestor(parents, self, p)
    ensures r.matched == |matched|
    ensures forall p :: p in r.signaled || p in r.refused <==> IsRoot(parents, candidates, p)
    ensures forall p :: p in r.signaled <==> IsRoot(parents, candidates, p) && p in accepts
    ensures |r.signaled| + |r.refused| == |set p | p in candidates && IsRoot(parents, candidates, p)|
    ensures forall p :: p in r.signaled ==>
              && p in matched && !IsAncestor(parents, self, p)
              && (p in parents ==> parents[p] !in candidates)
  {
    var protected := CollectAncestorPids(self, parents);
    var candidatePids := matched - protected;
    candidates := candidatePids;
    var roots := set pid | pid in candidatePids && !(pid in parents && parents[pid] in candidatePids);
    assert roots == set p | p in candidates && IsRoot(parents, candidates, p);
    var signaled, refused := [], [];
    var left := roots;
    while left != {}
      invariant left <= roots
      invariant forall p :: p in signaled || p in refused <==> p in roots - left
      invariant forall p :: p in signaled <==> p in roots - left && p in accepts
      invariant |signaled| + |refused| + |left| == |roots|
      decreases left
    {
      var pid :| pid in left;
      assert |left - {pid}| == |left| - 1;
      if pid in accepts {
        signaled := signaled + [pid];
      } else {
        refused := refused + [pid];
      }
      left := left - {pid};
    }
    r := Reload(|matched|, signaled, refused);
  }
}
