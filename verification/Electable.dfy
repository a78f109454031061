/** From every state that two or more servers can reach, some run goes on to a leader. */
module Electable {
  import opened RaftTypes
  import opened RaftNode
  import opened Quorum
  import opened Handlers
  import opened Reach
  import opened CatchUp
  import FirstCommit
  import H = History
  import I = ClusterInv

  // ----- The best log -----

  /** Log a ends in a later term than log b, or in the same and is no shorter. */
  predicate AtLeast(a: Log, b: Log) {
    TermAt(a, |a|) > TermAt(b, |b|) || (TermAt(a, |a|) == TermAt(b, |b|) && |a| >= |b|)
  }

  lemma {:induction false} BestLog(nodes: seq<Node>, k: nat) returns (i: nat)
    requires 0 < k <= |nodes|
    ensures i < k && forall j: nat :: j < k ==> AtLeast(nodes[i].log, nodes[j].log)
    decreases k
  {
    if k == 1 {
      i := 0;
    } else {
      i := BestLog(nodes, k - 1);
      if !AtLeast(nodes[i].log, nodes[k - 1].log) {
        i := k - 1;
      }
    }
  }

  lemma {:induction false} HighestTerm(nodes: seq<Node>, k: nat) returns (i: nat)
    requires 0 < k <= |nodes|
    ensures i < k && forall j: nat :: j < k ==> nodes[j].term <= nodes[i].term
    decreases k
  {
    if k == 1 {
      i := 0;
    } else {
      i := HighestTerm(nodes, k - 1);
      if nodes[i].term < nodes[k - 1].term {
        i := k - 1;
      }
    }
  }

  // ----- Candidacies -----

  /** Nothing that lasts has changed but terms and votes. */
  ghost predicate SameLogs(c: C.Cluster, c': C.Cluster) {
    |c'.nodes| == |c.nodes| && forall j: nat :: j < |c.nodes| ==>
      c'.nodes[j].log == c.nodes[j].log && c'.nodes[j].snap == c.nodes[j].snap
  }

  ghost predicate TermsBelow(c: C.Cluster, t: nat, i: nat) {
    forall j: nat :: j < |c.nodes| && j != i ==> c.nodes[j].term < t
  }

  /** Server i has asked for votes in term t and counted none but its own. */
  ghost predicate Asked(c: C.Cluster, i: nat, t: nat) {
    && i < |c.nodes| && c.nodes[i].role.Candidate? && c.nodes[i].term == t && c.nodes[i].votes == {i}
    && H.Key(i, t) in c.h.reqs && c.h.reqs[H.Key(i, t)] == c.nodes[i].log
  }

  lemma TimesOut(c: C.Cluster, i: nat, t: nat, c': C.Cluster)
    requires I.ClusterOk(c) && i < |c.nodes| && C.Enabled(c, C.Timeout(i)) && c' == C.After(c, C.Timeout(i))
    requires t == c.nodes[i].term + 1
    ensures c'.nodes == c.nodes[i := OnElectionTimeout(c.nodes[i], i)] && Asked(c', i, t)
  {
    assert I.At(c.h, i, c.nodes[i]);
  }

  lemma AsksForVotes(n: nat, c: C.Cluster, i: nat, t: nat) returns (c': C.Cluster)
    requires Reached(n, c) && i < |c.nodes| && !c.nodes[i].role.Leader? && t == c.nodes[i].term + 1
    ensures Reached(n, c') && Continues(c, c') && Asked(c', i, t)
    ensures c'.nodes == c.nodes[i := OnElectionTimeout(c.nodes[i], i)]
  {
    ReachedOk(n, c);
    c' := C.After(c, C.Timeout(i));
    ContinuesStep(n, c, C.Timeout(i), c');
    TimesOut(c, i, t, c');
  }

  /** By timing out again and again a server that does not lead gets to any later term. */
  lemma {:induction false} Outbids(n: nat, c: C.Cluster, i: nat, t: nat) returns (c': C.Cluster)
    requires Reached(n, c) && i < |c.nodes| && !c.nodes[i].role.Leader? && c.nodes[i].term < t
    ensures Reached(n, c') && Continues(c, c') && SameLogs(c, c') && Asked(c', i, t)
    ensures forall j: nat :: j < |c.nodes| && j != i ==> c'.nodes[j] == c.nodes[j]
    decreases t - c.nodes[i].term
  {
    var c1 := AsksForVotes(n, c, i, c.nodes[i].term + 1);
    if c.nodes[i].term + 1 == t {
      c' := c1;
    } else {
      c' := Outbids(n, c1, i, t);
      ContinuesOn(c, c1, c');
    }
  }

  // ----- Counting votes -----

  /** Candidate i has the votes of servers 0 to k - 1, which are no majority, and may have all others. */
  ghost predicate Polling(c: C.Cluster, i: nat, t: nat, k: nat) {
    && i < |c.nodes| && k <= |c.nodes| && c.nodes[i].role.Candidate? && c.nodes[i].term == t
    && c.nodes[i].votes == {i} + Servers(k) && |c.nodes[i].votes| < |c.nodes| / 2 + 1
    && H.Key(i, t) in c.h.reqs && c.h.reqs[H.Key(i, t)] == c.nodes[i].log
    && (forall j: nat :: j < |c.nodes| ==> c.nodes[j].term <= t)
    && (forall j: nat :: k <= j < |c.nodes| && j != i ==>
          c.nodes[j].term < t && AtLeast(c.nodes[i].log, c.nodes[j].log))
  }

  /** A leader, and no server in a later term. */
  ghost predicate Leading(c: C.Cluster, i: nat) {
    && i < |c.nodes| && c.nodes[i].role.Leader?
    && forall j: nat :: j < |c.nodes| ==> c.nodes[j].term <= c.nodes[i].term
  }

  function Granting(s: Node, i: nat, t: nat): Node {
    StepDown(s, t).(votedFor := i)
  }

  lemma Votes(c: C.Cluster, i: nat, t: nat, k: nat, s: Node, c': C.Cluster)
    requires Polling(c, i, t, k) && k < |c.nodes| && k != i && s == c.nodes[k]
    requires C.Enabled(c, C.AnswerVote(k, i, t)) && c' == C.After(c, C.AnswerVote(k, i, t))
    ensures c'.nodes == c.nodes[k := Granting(s, i, t)] && c'.h.reqs == c.h.reqs
    ensures C.VoteAnswer(k, i, t, VoteReply(s.term, true)) in c'.msgs
  {
    GrantedExactly(s, VoteArgsOf(i, t, c.nodes[i].log));
    assert OnVoteRequest(s, VoteArgsOf(i, t, c.nodes[i].log)) == (Granting(s, i, t), VoteReply(s.term, true));
  }

  function Counting(s: Node, n: nat, k: nat): Node {
    var s1 := s.(votes := s.votes + {k});
    if |s1.votes| >= n / 2 + 1 then Lead(s1, n) else s1
  }

  lemma Counts(c: C.Cluster, i: nat, t: nat, k: nat, was: nat, m: C.Message, c': C.Cluster)
    requires i < |c.nodes| && c.nodes[i].role.Candidate? && c.nodes[i].term == t && was < t
    requires m == C.VoteAnswer(k, i, t, VoteReply(was, true)) && m in c.msgs && c' == C.After(c, C.CountVote(m))
    ensures c'.nodes == c.nodes[i := Counting(c.nodes[i], |c.nodes|, k)] && c'.h.reqs == c.h.reqs
  {
    FirstCommit.CountingAsksNothing(c, m, c'.h);
  }

  lemma ServersOn(k: nat)
    ensures Servers(k + 1) == Servers(k) + {k}
  {}

  /** Server k has come to term t with the same log, and the candidate has counted its vote. */
  ghost predicate VoteIn(c: C.Cluster, c': C.Cluster, i: nat, t: nat, k: nat) {
    && i < |c.nodes| && k < |c.nodes| && k != i && |c'.nodes| == |c.nodes| && c'.h.reqs == c.h.reqs
    && c'.nodes[k].term == t && c'.nodes[k].log == c.nodes[k].log && c'.nodes[k].snap == c.nodes[k].snap
    && c'.nodes[i] == Counting(c.nodes[i], |c.nodes|, k)
    && forall j: nat :: j < |c.nodes| && j != i && j != k ==> c'.nodes[j] == c.nodes[j]
  }

  lemma Polled(c: C.Cluster, i: nat, t: nat, k: nat, p: nat, c': C.Cluster)
    requires Polling(c, i, t, k) && VoteIn(c, c', i, t, k) && p == k + 1 && !c'.nodes[i].role.Leader?
    ensures Polling(c', i, t, p)
  {
    ServersOn(k);
    assert c'.nodes[i].votes == c.nodes[i].votes + {k};
  }

  lemma Won(c: C.Cluster, i: nat, t: nat, k: nat, c': C.Cluster)
    requires Polling(c, i, t, k) && VoteIn(c, c', i, t, k) && c'.nodes[i].role.Leader?
    ensures Leading(c', i)
  {}

  lemma VoteInSameLogs(c: C.Cluster, i: nat, t: nat, k: nat, c': C.Cluster)
    requires VoteIn(c, c', i, t, k)
    ensures SameLogs(c, c')
  {}

  lemma Skipped(c: C.Cluster, i: nat, t: nat, k: nat, p: nat)
    requires Polling(c, i, t, k) && k == i && p == k + 1
    ensures Polling(c, i, t, p)
  {
    ServersOn(k);
    assert {i} + Servers(p) == {i} + Servers(k);
  }

  /** One more vote. */
  lemma PollsOne(n: nat, c: C.Cluster, i: nat, t: nat, k: nat) returns (c': C.Cluster)
    requires Reached(n, c) && Polling(c, i, t, k) && k < |c.nodes| && k != i
    ensures Reached(n, c') && Continues(c, c') && VoteIn(c, c', i, t, k)
  {
    var s, m := c.nodes[k], C.VoteAnswer(k, i, t, VoteReply(c.nodes[k].term, true));
    var c1 := C.After(c, C.AnswerVote(k, i, t));
    ContinuesStep(n, c, C.AnswerVote(k, i, t), c1);
    Votes(c, i, t, k, s, c1);
    c' := C.After(c1, C.CountVote(m));
    ContinuesStep(n, c1, C.CountVote(m), c');
    Counts(c1, i, t, k, s.term, m, c');
    ContinuesOn(c, c1, c');
  }

  lemma AllServers(n: nat, i: nat)
    requires i < n
    ensures |{i} + Servers(n)| == n
  {
    ServersSize(n);
    assert {i} + Servers(n) == Servers(n);
  }

  lemma NotAllYet(c: C.Cluster, i: nat, t: nat, k: nat)
    requires Polling(c, i, t, k)
    ensures k < |c.nodes|
  {
    AllServers(|c.nodes|, i);
  }

  lemma PollsNext(n: nat, c: C.Cluster, i: nat, t: nat, k: nat) returns (c': C.Cluster)
    requires Reached(n, c) && Polling(c, i, t, k) && k < |c.nodes|
    ensures Reached(n, c') && Continues(c, c') && SameLogs(c, c')
    ensures if c'.nodes[i].role.Leader? then Leading(c', i) else Polling(c', i, t, k + 1)
  {
    if k == i {
      c' := c;
      ContinuesHere(c);
      Skipped(c, i, t, k, k + 1);
    } else {
      c' := PollsOne(n, c, i, t, k);
      VoteInSameLogs(c, i, t, k, c');
      if c'.nodes[i].role.Leader? {
        Won(c, i, t, k, c');
      } else {
        Polled(c, i, t, k, k + 1, c');
      }
    }
  }

  lemma SameLogsOn(c: C.Cluster, c': C.Cluster, c'': C.Cluster)
    requires SameLogs(c, c') && SameLogs(c', c'')
    ensures SameLogs(c, c'')
  {}

  lemma {:induction false} Polls(n: nat, c: C.Cluster, i: nat, t: nat, k: nat) returns (c': C.Cluster)
    requires Reached(n, c) && Polling(c, i, t, k)
    ensures Reached(n, c') && Continues(c, c') && SameLogs(c, c') && Leading(c', i)
    decreases |c.nodes| - k
  {
    NotAllYet(c, i, t, k);
    var c1 := PollsNext(n, c, i, t, k);
    if c1.nodes[i].role.Leader? {
      c' := c1;
    } else {
      c' := Polls(n, c1, i, t, k + 1);
      ContinuesOn(c, c1, c');
      SameLogsOn(c, c1, c');
    }
  }

  // ----- From any state -----

  lemma PollingStarts(c: C.Cluster, i: nat, t: nat)
    requires |c.nodes| >= 2 && Asked(c, i, t) && TermsBelow(c, t, i)
    requires forall j: nat :: j < |c.nodes| ==> AtLeast(c.nodes[i].log, c.nodes[j].log)
    ensures Polling(c, i, t, 0)
  {
    assert {i} + Servers(0) == {i};
  }

  /** The server with the best log wins, if it does not lead in an old term. */
  lemma BestWins(n: nat, c: C.Cluster, i: nat, t: nat) returns (c': C.Cluster)
    requires Reached(n, c) && n >= 2 && i < |c.nodes| && !c.nodes[i].role.Leader?
    requires forall j: nat :: j < |c.nodes| ==> AtLeast(c.nodes[i].log, c.nodes[j].log) && c.nodes[j].term < t
    ensures Reached(n, c') && Continues(c, c') && SameLogs(c, c') && Leading(c', i)
  {
    ReachedOk(n, c);
    var c1 := Outbids(n, c, i, t);
    PollingStarts(c1, i, t);
    c' := Polls(n, c1, i, t, 0);
    ContinuesOn(c, c1, c');
  }

  lemma Hears(c: C.Cluster, i: nat, m: nat, t: nat, s: Node, c': C.Cluster)
    requires i < |c.nodes| && s == c.nodes[i] && s.term < t
    requires C.Enabled(c, C.AnswerVote(i, m, t)) && c' == C.After(c, C.AnswerVote(i, m, t))
    ensures c'.nodes == c.nodes[i := c'.nodes[i]]
    ensures c'.nodes[i].term == t && c'.nodes[i].role.Follower? && c'.nodes[i].log == s.log && c'.nodes[i].snap == s.snap
  {
    LaterTermTaken(s, VoteArgsOf(m, t, c.h.reqs[H.Key(m, t)]), AppendArgs(0, 0, 0, 0, [], 0));
  }

  lemma Unseated(c: C.Cluster, c': C.Cluster, i: nat, m: nat, x: Node, y: Node, t: nat)
    requires i < |c.nodes| && m < |c.nodes| && i != m && c'.nodes == c.nodes[m := y][i := x]
    requires x.term == t && x.role.Follower? && x.log == c.nodes[i].log && x.snap == c.nodes[i].snap
    requires y.term == t && y.log == c.nodes[m].log && y.snap == c.nodes[m].snap
    ensures SameLogs(c, c') && c'.nodes[i] == x && c'.nodes[m] == y
    ensures forall j: nat :: j < |c.nodes| && j != i && j != m ==> c'.nodes[j] == c.nodes[j]
  {}

  /** A leader of an old term steps down when a server of the latest term asks for its vote. */
  lemma Unseats(n: nat, c: C.Cluster, i: nat, m: nat, t: nat) returns (c': C.Cluster)
    requires Reached(n, c) && i < |c.nodes| && m < |c.nodes| && c.nodes[i].term < c.nodes[m].term
    requires !c.nodes[m].role.Leader? && t == c.nodes[m].term + 1
    ensures Reached(n, c') && Continues(c, c') && SameLogs(c, c') && !c'.nodes[i].role.Leader?
    ensures c'.nodes[i].term == c'.nodes[m].term == t
    ensures forall j: nat :: j < |c.nodes| && j != i && j != m ==> c'.nodes[j] == c.nodes[j]
  {
    var c1 := AsksForVotes(n, c, m, t);
    c' := C.After(c1, C.AnswerVote(i, m, t));
    ContinuesStep(n, c1, C.AnswerVote(i, m, t), c');
    Hears(c1, i, m, t, c.nodes[i], c');
    ContinuesOn(c, c1, c');
    Unseated(c, c', i, m, c'.nodes[i], OnElectionTimeout(c.nodes[m], m), t);
  }

  lemma BestElected(n: nat, c: C.Cluster, i: nat, m: nat) returns (c': C.Cluster)
    requires Reached(n, c) && n >= 2 && i < |c.nodes| && m < |c.nodes| && !c.nodes[m].role.Leader?
    requires forall j: nat :: j < |c.nodes| ==>
      AtLeast(c.nodes[i].log, c.nodes[j].log) && c.nodes[j].term <= c.nodes[m].term
    requires c.nodes[i].role.Leader? ==> c.nodes[i].term < c.nodes[m].term
    ensures Reached(n, c') && Continues(c, c') && SameLogs(c, c') && Leading(c', i)
  {
    if c.nodes[i].role.Leader? {
      var c1 := Unseats(n, c, i, m, c.nodes[m].term + 1);
      c' := BestWins(n, c1, i, c.nodes[m].term + 2);
      ContinuesOn(c, c1, c');
      SameLogsOn(c, c1, c');
    } else {
      c' := BestWins(n, c, i, c.nodes[m].term + 1);
    }
  }

  /**
   From every state that two or more servers can reach, whatever has been lost, crashed or compacted,
   some run goes on to a leader that no server is ahead of in terms.
   */
  lemma SomeoneCanLead(n: nat, c: C.Cluster) returns (c': C.Cluster, i: nat)
    requires Reached(n, c) && n >= 2
    ensures Reached(n, c') && Continues(c, c') && SameLogs(c, c') && Leading(c', i)
  {
    ReachedOk(n, c);
    ContinuesHere(c);
    var m := HighestTerm(c.nodes, n);
    i := BestLog(c.nodes, n);
    if c.nodes[m].role.Leader? {
      c', i := c, m;
    } else if c.nodes[i].role.Leader? && c.nodes[i].term == c.nodes[m].term {
      c' := c;
    } else {
      c' := BestElected(n, c, i, m);
    }
  }
}
