/** The guarantees of the service, over whole runs. */
module SystemSafety {
  import opened Commands
  import opened RaftNode
  import opened HistoryProofs
  import opened ClusterInv
  import opened ClusterProofs
  import opened ClusterConfirm
  import opened Safety
  import opened Replicas
  import opened System
  import opened SystemProofs

  lemma StartSystemOk(n: nat)
    ensures SystemOk(Start(n))
  {
    var s := Start(n);
    StartOk(n);
    forall i: nat | i < |s.sites|
      ensures SiteOk(s.c.nodes[i], s.sites[i]) && WaitsOk(s.sites[i], i, s.born, s.answers)
    {
      assert s.c.nodes[i] == FRESH && s.sites[i] == Restarted(None, 0);
    }
  }

  /** Every state of every run satisfies the invariant. */
  lemma {:induction false} SystemRunOk(n: nat, run: seq<System>, steps: seq<Step>, k: nat)
    requires Run(n, run, steps) && k < |run|
    ensures SystemOk(run[k])
  {
    if k == 0 {
      StartSystemOk(n);
    } else {
      SystemRunOk(n, run, steps, k - 1);
      SystemStepKeeps(run[k - 1], steps[k - 1]);
    }
  }

  /** Facts about requests that a run never takes back. */
  ghost predicate RecordsKept(s: System, s': System) {
    && (forall r :: r in s.answers ==> r in s'.answers && s'.answers[r] == s.answers[r])
    && (forall r :: r in s.born ==> r in s'.born && s'.born[r] == s.born[r])
  }

  lemma ApplyRecords(s: System, s': System, i: nat)
    requires SystemOk(s) && i < |s.sites| && s.sites[i].queue != [] && Applied(s, s', i)
    ensures Told(s.sites[i]).Some? ==> Told(s.sites[i]).value.0 !in s.answers
    ensures RecordsKept(s, s')
  {
    if Told(s.sites[i]).Some? {
      var told := Told(s.sites[i]).value;
      ToldTruth(s, i, told.0, told.1);
    }
  }

  /** A submitter is told something at most once: no waiter's channel is sent to twice. */
  lemma ToldOnce(s: System, step: Step, s': System)
    requires SystemOk(s) && Enabled(s, step) && s' == After(s, step)
    ensures step.Apply? && Told(s.sites[step.i]).Some? ==> Told(s.sites[step.i]).value.0 !in s.answers
    ensures RecordsKept(s, s')
  {
    if step.Apply? {
      ApplyRecords(s, s', step.i);
    }
  }

  lemma RecordsStep(s: System, s': System, s'': System)
    requires RecordsKept(s, s') && RecordsKept(s', s'')
    ensures RecordsKept(s, s'')
  {}

  /** One step of a run: nothing committed or told is taken back. */
  lemma SystemRunStep(n: nat, run: seq<System>, steps: seq<Step>, m: nat, k: nat)
    requires Run(n, run, steps) && m < |steps| && k == m + 1
    ensures Remembers(run[m].c.h, run[k].c.h) && RecordsKept(run[m], run[k])
  {
    SystemRunOk(n, run, steps, m);
    SystemStepKeeps(run[m], steps[m]);
    ToldOnce(run[m], steps[m], run[k]);
  }

  /** Elections won, entries led, indices confirmed and answers given at one moment of a run stay so. */
  lemma {:induction false} SystemRemembers(n: nat, run: seq<System>, steps: seq<Step>, j: nat, k: nat)
    requires Run(n, run, steps) && j <= k < |run|
    ensures Remembers(run[j].c.h, run[k].c.h) && RecordsKept(run[j], run[k])
    decreases k
  {
    if j < k {
      var m: nat := k - 1;
      SystemRemembers(n, run, steps, j, m);
      SystemRunStep(n, run, steps, m, k);
      RemembersStep(run[j].c.h, run[m].c.h, run[k].c.h);
      RecordsStep(run[j], run[m], run[k]);
    } else {
      SelfRemembers(run[k].c.h);
    }
  }

  /**
   Crash recovery equals replay: at every moment each store is the fold of the committed prefix
   it has processed, whether or not it was restarted from a snapshot in between, and the saved
   snapshot is the fold of the prefix it stands for.
   */
  lemma RecoveryIsReplay(n: nat, run: seq<System>, steps: seq<Step>, k: nat, i: nat)
    requires Run(n, run, steps) && k < |run| && i < |run[k].sites|
    ensures i < |run[k].c.nodes|
    ensures var node, site := run[k].c.nodes[i], run[k].sites[i];
      && node.snap <= site.upto <= node.commit <= |node.log|
      && site.replica.state == Fold(node.log[..site.upto])
      && (if site.disk.None? then node.snap == 0 else site.disk.value == Fold(node.log[..node.snap]))
  {
    SystemRunOk(n, run, steps, k);
    assert SiteOk(run[k].c.nodes[i], run[k].sites[i]);
  }

  lemma PrefixInLater(n: nat, run: seq<System>, steps: seq<Step>, j: nat, k: nat, a: nat)
    requires Run(n, run, steps) && j <= k < |run| && a < |run[j].c.nodes|
    ensures IndicesOk(run[j].c.nodes[a])
    ensures CommittedBy(run[k].c.h, run[j].c.nodes[a].log[..run[j].c.nodes[a].commit], run[j].c.nodes[a].term)
  {
    SystemRunOk(n, run, steps, j);
    SystemRemembers(n, run, steps, j, k);
    NodeOwned(run[j].c, a);
    var node := run[j].c.nodes[a];
    var p := node.log[..node.commit];
    CommittedByGrows(run[j].c.h, run[k].c.h, p, p, node.term, node.term);
  }

  /** Committed prefixes of the service never diverge, across servers and across time. */
  lemma CommittedAgree(n: nat, run: seq<System>, steps: seq<Step>, j: nat, k: nat, a: nat, b: nat, x: nat)
    requires Run(n, run, steps) && j <= k < |run| && a < |run[j].c.nodes| && b < |run[k].c.nodes|
    requires x <= run[j].c.nodes[a].commit && x <= run[k].c.nodes[b].commit
    ensures x <= |run[j].c.nodes[a].log| && x <= |run[k].c.nodes[b].log|
    ensures run[j].c.nodes[a].log[..x] == run[k].c.nodes[b].log[..x]
  {
    PrefixInLater(n, run, steps, j, k, a);
    PrefixInLater(n, run, steps, k, k, b);
    SystemRunOk(n, run, steps, k);
    var s, s' := run[j].c.nodes[a], run[k].c.nodes[b];
    CommittedByLine(run[k].c.h, s.log[..s.commit], s.term, s'.log[..s'.commit], s'.term);
    LineAgrees(s.log, s'.log, s.commit, s'.commit, x);
  }

  /**
   Replica agreement: two stores that have processed equally many indices are equal, on whatever
   servers, at whatever moments, whatever crashed or was compacted in between.
   */
  lemma ReplicasAgree(n: nat, run: seq<System>, steps: seq<Step>, j: nat, k: nat, a: nat, b: nat)
    requires Run(n, run, steps) && j <= k < |run| && a < |run[j].sites| && b < |run[k].sites|
    requires run[j].sites[a].upto == run[k].sites[b].upto
    ensures run[j].sites[a].replica.state == run[k].sites[b].replica.state
  {
    RecoveryIsReplay(n, run, steps, j, a);
    RecoveryIsReplay(n, run, steps, k, b);
    CommittedAgree(n, run, steps, j, k, a, b, run[j].sites[a].upto);
  }

  // ----- Submissions -----

  lemma TellingAnswers(s: System, i: nat, s': System)
    requires Enabled(s, Apply(i)) && s' == After(s, Apply(i)) && Told(s.sites[i]).Some?
    ensures Told(s.sites[i]).value.0 in s'.answers
  {}

  /** Over a run no submitter is told something twice. */
  lemma RunToldOnce(n: nat, run: seq<System>, steps: seq<Step>, j: nat, k: nat, i: nat, b: nat)
    requires Run(n, run, steps) && j < k < |steps| && steps[j] == Apply(i) && steps[k] == Apply(b)
    requires Enabled(run[j], steps[j]) && Enabled(run[k], steps[k])
    requires Told(run[j].sites[i]).Some? && Told(run[k].sites[b]).Some?
    ensures Told(run[j].sites[i]).value.0 != Told(run[k].sites[b]).value.0
  {
    var m: nat := j + 1;
    assert run[m] == After(run[j], steps[j]);
    TellingAnswers(run[j], i, run[m]);
    SystemRemembers(n, run, steps, m, k);
    SystemRunOk(n, run, steps, k);
    ToldOnce(run[k], steps[k], After(run[k], steps[k]));
  }

  /** A command stands in any log only where it was submitted: it is applied at one index at most. */
  lemma CommandAtOneIndex(n: nat, run: seq<System>, steps: seq<Step>, k: nat, b: nat, reqId: string, x: nat)
    requires Run(n, run, steps) && k < |run| && b < |run[k].c.nodes|
    requires 1 <= x <= |run[k].c.nodes[b].log| && Carries(run[k].c.nodes[b].log[x - 1], reqId)
    ensures reqId in run[k].born && run[k].born[reqId].index == x
  {
    SystemRunOk(n, run, steps, k);
    NodeOwned(run[k].c, b);
    CarriedWhereBorn(run[k].c.h, run[k].c.nodes[b].log, run[k].born, reqId, x);
  }

  /** What is settled about an index shows wherever that index is committed. */
  lemma SettledShows(s: System, b: nat, x: nat, reqId: string, carries: bool)
    requires SystemOk(s) && b < |s.c.nodes| && Fixed(s.c.h, x, reqId, carries)
    ensures s.c.nodes[b].commit <= |s.c.nodes[b].log|
    ensures 1 <= x <= s.c.nodes[b].commit ==> Carries(s.c.nodes[b].log[x - 1], reqId) == carries
  {
    NodeOwned(s.c, b);
    if 1 <= x <= s.c.nodes[b].commit {
      FixedOnce(s.c.h, s.c.nodes[b], x, reqId, carries);
    }
  }

  lemma AnswerHolds(s: System, reqId: string)
    requires SystemOk(s) && reqId in s.answers
    ensures AnswerTrue(s.c.h, s.born, reqId, s.answers[reqId])
  {}

  /**
   A submitter that was told success: its command is committed at the index Start returned, so any
   server that has, or ever gets, that index committed has the command there.
   */
  lemma SuccessIsCommitted(n: nat, run: seq<System>, steps: seq<Step>, j: nat, k: nat, b: nat, reqId: string, x: nat)
    requires Run(n, run, steps) && j <= k < |run| && b < |run[k].c.nodes|
    requires reqId in run[j].answers && run[j].answers[reqId].Success?
    requires reqId in run[j].born ==> x == run[j].born[reqId].index
    ensures reqId in run[j].born && Fixed(run[j].c.h, x, reqId, true)
    ensures run[k].c.nodes[b].commit <= |run[k].c.nodes[b].log|
    ensures 1 <= x <= run[k].c.nodes[b].commit ==> Carries(run[k].c.nodes[b].log[x - 1], reqId)
  {
    SystemRunOk(n, run, steps, j);
    SystemRunOk(n, run, steps, k);
    SystemRemembers(n, run, steps, j, k);
    AnswerHolds(run[j], reqId);
    FixedGrows(run[j].c.h, run[k].c.h, x, reqId, true);
    SettledShows(run[k], b, x, reqId, true);
  }

  /**
   A submitter that was told that the server does not lead: its command is not committed at any
   index on any server, and never will be.
   */
  lemma RefusedIsNeverCommitted(n: nat, run: seq<System>, steps: seq<Step>, j: nat, k: nat, b: nat, reqId: string, x: nat)
    requires Run(n, run, steps) && j <= k < |run| && b < |run[k].c.nodes|
    requires reqId in run[j].answers && run[j].answers[reqId].ErrNotLeader?
    requires 1 <= x <= run[k].c.nodes[b].commit
    ensures x <= |run[k].c.nodes[b].log| && !Carries(run[k].c.nodes[b].log[x - 1], reqId)
  {
    SystemRunOk(n, run, steps, k);
    SystemRemembers(n, run, steps, j, k);
    NodeOwned(run[k].c, b);
    if Carries(run[k].c.nodes[b].log[x - 1], reqId) {
      CommandAtOneIndex(n, run, steps, k, b, reqId, x);
      AnswerHolds(run[k], reqId);
      SettledShows(run[k], b, x, reqId, false);
    }
  }
}
