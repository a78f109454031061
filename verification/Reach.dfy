/** The states that runs lead to, of a cluster and of the whole service. */
module Reach {
  import C = Cluster
  import S = System

  ghost predicate Ends(n: nat, run: seq<C.Cluster>, steps: seq<C.Step>, c: C.Cluster) {
    C.Run(n, run, steps) && run[|steps|] == c
  }

  ghost predicate Reached(n: nat, c: C.Cluster) {
    exists run: seq<C.Cluster>, steps: seq<C.Step> :: Ends(n, run, steps, c)
  }

  lemma ReachedStart(n: nat)
    ensures Reached(n, C.Start(n))
  {
    assert Ends(n, [C.Start(n)], [], C.Start(n));
  }

  lemma ReachedAfter(n: nat, c: C.Cluster, step: C.Step)
    requires Reached(n, c) && C.Enabled(c, step)
    ensures Reached(n, C.After(c, step))
  {
    var run: seq<C.Cluster>, steps: seq<C.Step> :| Ends(n, run, steps, c);
    var c' := C.After(c, step);
    var run', steps' := run + [c'], steps + [step];
    forall k: nat | k < |steps'|
      ensures C.Enabled(run'[k], steps'[k]) && run'[k + 1] == C.After(run'[k], steps'[k])
    {
      if k < |steps| {
        assert C.Enabled(run[k], steps[k]) && run[k + 1] == C.After(run[k], steps[k]);
      }
    }
    assert Ends(n, run', steps', c');
  }

  ghost predicate ServiceEnds(n: nat, run: seq<S.System>, steps: seq<S.Step>, s: S.System) {
    S.Run(n, run, steps) && run[|steps|] == s
  }

  ghost predicate ServiceReached(n: nat, s: S.System) {
    exists run: seq<S.System>, steps: seq<S.Step> :: ServiceEnds(n, run, steps, s)
  }

  lemma ServiceReachedStart(n: nat)
    ensures ServiceReached(n, S.Start(n))
  {
    assert ServiceEnds(n, [S.Start(n)], [], S.Start(n));
  }

  lemma ServiceReachedAfter(n: nat, s: S.System, step: S.Step)
    requires ServiceReached(n, s) && S.Enabled(s, step)
    ensures ServiceReached(n, S.After(s, step))
  {
    var run: seq<S.System>, steps: seq<S.Step> :| ServiceEnds(n, run, steps, s);
    var s' := S.After(s, step);
    var run', steps' := run + [s'], steps + [step];
    forall k: nat | k < |steps'|
      ensures S.Enabled(run'[k], steps'[k]) && run'[k + 1] == S.After(run'[k], steps'[k])
    {
      if k < |steps| {
        assert S.Enabled(run[k], steps[k]) && run[k + 1] == S.After(run[k], steps[k]);
      }
    }
    assert ServiceEnds(n, run', steps', s');
  }

  // ----- Going on from any state -----

  /** These steps, one after the other, lead from c to c'. */
  ghost predicate Leads(c: C.Cluster, steps: seq<C.Step>, c': C.Cluster)
    decreases |steps|
  {
    if steps == [] then c' == c
    else C.Enabled(c, steps[0]) && Leads(C.After(c, steps[0]), steps[1..], c')
  }

  lemma LeadsOne(c: C.Cluster, step: C.Step, c': C.Cluster)
    requires C.Enabled(c, step) && c' == C.After(c, step)
    ensures Leads(c, [step], c')
  {}

  lemma {:induction false} LeadsOn(c: C.Cluster, steps: seq<C.Step>, c': C.Cluster, more: seq<C.Step>, c'': C.Cluster)
    requires Leads(c, steps, c') && Leads(c', more, c'')
    ensures Leads(c, steps + more, c'')
    decreases |steps|
  {
    if steps == [] {
      assert [] + more == more;
    } else {
      LeadsOn(C.After(c, steps[0]), steps[1..], c', more, c'');
      assert (steps + more)[1..] == steps[1..] + more;
    }
  }

  /** Some run goes on from c to c'. */
  ghost predicate Continues(c: C.Cluster, c': C.Cluster) {
    exists steps: seq<C.Step> :: Leads(c, steps, c')
  }

  lemma ContinuesHere(c: C.Cluster)
    ensures Continues(c, c)
  {
    assert Leads(c, [], c);
  }

  lemma ContinuesStep(n: nat, c: C.Cluster, step: C.Step, c': C.Cluster)
    requires Reached(n, c) && C.Enabled(c, step) && c' == C.After(c, step)
    ensures Reached(n, c') && Continues(c, c')
  {
    ReachedAfter(n, c, step);
    LeadsOne(c, step, c');
  }

  lemma ContinuesOn(c: C.Cluster, c': C.Cluster, c'': C.Cluster)
    requires Continues(c, c') && Continues(c', c'')
    ensures Continues(c, c'')
  {
    var first: seq<C.Step> :| Leads(c, first, c');
    var more: seq<C.Step> :| Leads(c', more, c'');
    LeadsOn(c, first, c', more, c'');
  }

  // ----- The cluster below a service makes a run of its own -----

  /** A step of the service is a step of its cluster, or leaves the cluster as it is. */
  lemma StepBelow(n: nat, s: S.System, step: S.Step)
    requires S.Enabled(s, step) && Reached(n, s.c)
    ensures Reached(n, S.After(s, step).c)
  {
    match step {
      case Raft(r) => ReachedAfter(n, s.c, r);
      case Submit(i, cmd) => ReachedAfter(n, s.c, C.Submit(i, cmd));
      case SaveSnapshot(i, task) =>
        if C.Enabled(s.c, C.Compact(i, task.0)) {
          ReachedAfter(n, s.c, C.Compact(i, task.0));
        }
      case _ =>
    }
  }

  lemma {:induction false} RunBelow(n: nat, run: seq<S.System>, steps: seq<S.Step>, k: nat)
    requires S.Run(n, run, steps) && k < |run|
    ensures Reached(n, run[k].c)
  {
    if k == 0 {
      ReachedStart(n);
    } else {
      RunBelow(n, run, steps, k - 1);
      StepBelow(n, run[k - 1], steps[k - 1]);
    }
  }

  /** So whatever holds of every reachable cluster holds below every reachable service. */
  lemma ReachedBelow(n: nat, s: S.System)
    requires ServiceReached(n, s)
    ensures Reached(n, s.c)
  {
    var run: seq<S.System>, steps: seq<S.Step> :| ServiceEnds(n, run, steps, s);
    RunBelow(n, run, steps, |steps|);
  }
}
