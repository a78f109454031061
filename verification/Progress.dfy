/**
 As long as nothing has been compacted, no reachable state of two or more servers is a dead end: from
 each of them some run goes on to a leader that commits any given command.
 */
module Progress {
  import opened Commands
  import opened RaftTypes
  import opened RaftNode
  import opened Reach
  import opened CatchUp
  import opened Electable

  /** No server has compacted its log. */
  ghost predicate Uncompacted(c: C.Cluster) {
    forall j: nat :: j < |c.nodes| ==> c.nodes[j].snap == 0
  }

  /** Leader i of term t has this log, which servers 0 to k - 1 are known to hold. */
  ghost predicate Spreading(c: C.Cluster, i: nat, t: nat, log: Log, k: nat) {
    && i < |c.nodes| && k <= |c.nodes| && Uncompacted(c)
    && c.nodes[i].role.Leader? && c.nodes[i].term == t && c.nodes[i].log == log && log != []
    && |c.nodes[i].next| == |c.nodes[i].matched| == |c.nodes| && c.nodes[i].commit <= |log|
    && (forall j: nat :: j < |c.nodes| ==> c.nodes[j].term <= t)
    && (forall j: nat :: j < k && j != i ==> c.nodes[i].matched[j] == |log|)
    && (k > 1 || (k == 1 && i != 0) ==> c.nodes[i].commit == |log| || !CanCommit(c.nodes[i], i, |log|))
  }

  lemma SpreadsTo(c: C.Cluster, c': C.Cluster, i: nat, t: nat, log: Log, k: nat, p: nat)
    requires Spreading(c, i, t, log, k) && k < |c.nodes| && k != i && p == k + 1
    requires OnlyBoth(c, c', i, k, t) && Confirmed(c.nodes[i], c'.nodes[i], i, k)
    ensures Spreading(c', i, t, log, p)
  {}

  /** One more server has the whole log. */
  lemma SpreadsOne(n: nat, c: C.Cluster, i: nat, t: nat, log: Log, k: nat) returns (c': C.Cluster)
    requires Reached(n, c) && Spreading(c, i, t, log, k) && k < |c.nodes| && k != i
    ensures Reached(n, c') && Continues(c, c') && Spreading(c', i, t, log, k + 1)
  {
    LeaderAndPeer(n, c, i, k, c.nodes[i], c.nodes[k]);
    var rounds;
    c', rounds := CatchesUp(n, c, i, k, c.nodes[i], c.nodes[k]);
    ExchangedContinues(c, c', i, k, 4 * rounds);
    SpreadsTo(c, c', i, t, log, k, k + 1);
  }

  lemma ExchangedContinues(c: C.Cluster, c': C.Cluster, i: nat, p: nat, k: nat)
    requires Exchanged(c, c', i, p, k)
    ensures Continues(c, c')
  {
    var steps: seq<C.Step> :| ExchangesBy(c, c', i, p, k, steps);
  }

  lemma SkipsItself(c: C.Cluster, i: nat, t: nat, log: Log, p: nat)
    requires Spreading(c, i, t, log, i) && p == i + 1
    ensures Spreading(c, i, t, log, p)
  {}

  lemma {:induction false} Spreads(n: nat, c: C.Cluster, i: nat, t: nat, log: Log, k: nat) returns (c': C.Cluster)
    requires Reached(n, c) && Spreading(c, i, t, log, k)
    ensures Reached(n, c') && Continues(c, c') && Spreading(c', i, t, log, |c'.nodes|) && |c'.nodes| == |c.nodes|
    decreases |c.nodes| - k
  {
    ReachedOk(n, c);
    if k == |c.nodes| {
      ContinuesHere(c);
      c' := c;
    } else if k == i {
      SkipsItself(c, i, t, log, k + 1);
      c' := Spreads(n, c, i, t, log, k + 1);
    } else {
      var c1 := SpreadsOne(n, c, i, t, log, k);
      ReachedOk(n, c1);
      c' := Spreads(n, c1, i, t, log, k + 1);
      ContinuesOn(c, c1, c');
    }
  }

  lemma {:induction false} AllHold(matched: seq<nat>, me: nat, k: nat, i: nat)
    requires i <= |matched| && forall j: nat :: j < i && j != me ==> matched[j] >= k
    ensures Holders(matched, me, k, i) == if me < i then i - 1 else i
  {
    if i > 0 {
      AllHold(matched, me, k, i - 1);
    }
  }

  /** What all servers hold is committed. */
  lemma SpreadCommits(c: C.Cluster, i: nat, t: nat, log: Log)
    requires Spreading(c, i, t, log, |c.nodes|) && |c.nodes| >= 2 && log[|log| - 1].term == t
    ensures c.nodes[i].commit == |log|
  {
    AllHold(c.nodes[i].matched, i, |log|, |c.nodes|);
    assert CanCommit(c.nodes[i], i, |log|);
  }

  /** The leader has the command committed as the last entry of its log, in its own term. */
  ghost predicate CommittedLast(c: C.Cluster, i: nat, cmd: Command) {
    && i < |c.nodes| && c.nodes[i].role.Leader? && c.nodes[i].log != []
    && c.nodes[i].commit == |c.nodes[i].log|
    && c.nodes[i].log[|c.nodes[i].log| - 1] == Entry(c.nodes[i].term, Some(cmd))
  }

  lemma SubmittedTo(c: C.Cluster, i: nat, cmd: Command, s: Node, c': C.Cluster)
    requires i < |c.nodes| && s == c.nodes[i] && s.role.Leader?
    requires C.Enabled(c, C.Submit(i, cmd)) && c' == C.After(c, C.Submit(i, cmd))
    ensures c'.nodes == c.nodes[i := s.(log := s.log + [Entry(s.term, Some(cmd))])]
  {}

  lemma SpreadingStarts(c: C.Cluster, i: nat, s: Node, log: Log, c': C.Cluster)
    requires Leading(c, i) && Uncompacted(c) && s == c.nodes[i] && s.commit <= |s.log| < |log|
    requires |s.next| == |s.matched| == |c.nodes| && c'.nodes == c.nodes[i := s.(log := log)]
    ensures Spreading(c', i, s.term, log, 0)
  {}

  lemma StartsSpreading(n: nat, c: C.Cluster, i: nat, cmd: Command, log: Log) returns (c': C.Cluster)
    requires Reached(n, c) && Leading(c, i) && Uncompacted(c)
    requires log == c.nodes[i].log + [Entry(c.nodes[i].term, Some(cmd))]
    ensures Reached(n, c') && Continues(c, c') && Spreading(c', i, c.nodes[i].term, log, 0)
  {
    LeaderAndPeer(n, c, i, i, c.nodes[i], c.nodes[i]);
    c' := C.After(c, C.Submit(i, cmd));
    ContinuesStep(n, c, C.Submit(i, cmd), c');
    SubmittedTo(c, i, cmd, c.nodes[i], c');
    SpreadingStarts(c, i, c.nodes[i], log, c');
  }

  /** From every state that two or more servers can reach without compaction, some run goes on to commit the command. */
  lemma AnythingCanBeCommitted(n: nat, c: C.Cluster, cmd: Command) returns (c': C.Cluster, i: nat)
    requires Reached(n, c) && n >= 2 && Uncompacted(c)
    ensures Reached(n, c') && Continues(c, c') && CommittedLast(c', i, cmd)
  {
    var c1;
    c1, i := SomeoneCanLead(n, c);
    var t, log := c1.nodes[i].term, c1.nodes[i].log + [Entry(c1.nodes[i].term, Some(cmd))];
    var c2 := StartsSpreading(n, c1, i, cmd, log);
    c' := Spreads(n, c2, i, t, log, 0);
    ReachedOk(n, c');
    SpreadCommits(c', i, t, log);
    ContinuesOn(c, c1, c2);
    ContinuesOn(c, c2, c');
  }
}
