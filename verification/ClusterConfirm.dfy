/** The invariant, step by step: what a leader makes of answers; compaction, delivery, crashes. */
module ClusterConfirm {
  import opened RaftTypes
  import opened RaftNode
  import opened RaftNodeProofs
  import opened History
  import opened HistoryProofs
  import opened Cluster
  import opened ClusterInv
  import opened ClusterProofs
  import opened ClusterSteps
  import opened ClusterShipping

  // ----- Confirmations -----

  /** An answer that counts comes from a shipment of the leader's own reign. */
  lemma AnswerSource(h: State, i: nat, s: Node, src: nat, a: AppendArgs)
    requires At(h, i, s) && ShipmentOk(h, src, a) && a.leader == i && a.term == s.term
    ensures src == s.term
  {}

  lemma ConfirmedPeers(h: State, i: nat, s: Node, s': Node, peer: nat, n: nat, m: nat)
    requires LeaderOk(h, i, s) && s.role.Leader? && peer < |s.next|
    requires m <= |s.log| && m <= Acked(h, peer, s.term) && 1 <= n <= |s.log| + 1
    requires s' == s.(matched := s.matched[peer := m], next := s.next[peer := n])
    ensures LeaderOk(h, i, s')
  {
    forall p: nat | p < |s'.next|
      ensures PeerOk(h, s', p)
    {
      assert PeerOk(h, s, p);
    }
  }

  /** Section 5.4.2: an index the leader may commit was confirmed by a majority in its term. */
  lemma CommitConfirmed(h: State, i: nat, s: Node, k: nat)
    requires ReignsOk(h) && At(h, i, s) && LeaderOk(h, i, s) && s.role.Leader?
    requires 1 <= k <= |s.log| && CanCommit(s, i, k)
    ensures Committed(h, s.term, k)
  {
    assert ReignOk(h, s.term);
    var q := HolderSet(s.matched, i, k, |s.matched|);
    CommitMajority(s, i, k);
    forall v | v in q
      ensures Acked(h, v, s.term) >= k
    {
      if v != i {
        assert PeerOk(h, s, v);
      }
    }
    assert Confirmed(h, s.term, k, q);
  }

  lemma AdvanceNode(h: State, i: nat, s: Node, s': Node)
    requires ReignsOk(h) && At(h, i, s) && NodeOk(h, i, s) && s.role.Leader? && s' == AdvanceCommit(s, i)
    ensures s'.term == s.term && s'.log == s.log && NodeOk(h, i, s')
  {
    ScanCommitHighest(s, i, |s.log|);
    if s'.commit > s.commit {
      CommitConfirmed(h, i, s, s'.commit);
      assert Covers(h, s'.log[..s'.commit], s'.term, s.term, s'.commit);
    }
    SelfGrows(h);
    IndicesKept(h, h, s, s');
    LeaderSame(h, i, s, s');
  }

  lemma SelfGrows(h: State)
    ensures Grows(h, h)
  {}

  lemma MatchNode(h: State, i: nat, s: Node, s1: Node, peer: nat, n: nat, m: nat)
    requires NodeOk(h, i, s) && s.role.Leader? && peer < |s.next|
    requires m <= |s.log| && m <= Acked(h, peer, s.term) && 1 <= n <= |s.log| + 1
    requires s1 == s.(matched := s.matched[peer := m], next := s.next[peer := n])
    ensures NodeOk(h, i, s1)
  {
    ConfirmedPeers(h, i, s, s1, peer, n, m);
    SelfGrows(h);
    IndicesKept(h, h, s, s1);
  }

  /** A successful answer of the leader's own reign counts for what it confirmed. */
  lemma SuccessMatch(h: State, i: nat, s: Node, s1: Node, peer: nat, a: AppendArgs, m: nat)
    requires AcksOk(h) && NodeOk(h, i, s) && s.role.Leader? && peer < |s.next|
    requires Acked(h, peer, s.term) >= LastSent(a)
    requires m == if LastSent(a) > s.matched[peer] then LastSent(a) else s.matched[peer]
    requires s1 == s.(matched := s.matched[peer := m], next := s.next[peer := m + 1])
    ensures NodeOk(h, i, s1)
  {
    assert PeerOk(h, s, peer);
    MatchNode(h, i, s, s1, peer, m + 1, m);
  }

  lemma SuccessShape(s: Node, i: nat, s': Node, peer: nat, a: AppendArgs, r: AppendReply, s1: Node, m: nat)
    requires s.role.Leader? && s.term == a.term && peer < |s.next| == |s.matched|
    requires r.success && r.term == a.term && s' == OnAppendReply(s, i, peer, a, r)
    requires m == if LastSent(a) > s.matched[peer] then LastSent(a) else s.matched[peer]
    requires s1 == s.(matched := s.matched[peer := m], next := s.next[peer := m + 1])
    ensures s' == AdvanceCommit(s1, i)
  {}

  lemma SuccessNode(h: State, i: nat, s: Node, s': Node, peer: nat, src: nat, a: AppendArgs, r: AppendReply)
    requires ReignsOk(h) && AcksOk(h) && At(h, i, s) && NodeOk(h, i, s) && s.role.Leader? && s.term == a.term
    requires ShipmentOk(h, src, a) && AnswerOk(h, peer, src, a, r) && a.leader == i && peer < |s.next|
    requires r.success && s' == OnAppendReply(s, i, peer, a, r)
    ensures s'.term == s.term && s'.log == s.log && NodeOk(h, i, s')
  {
    AnswerSource(h, i, s, src, a);
    var m := if LastSent(a) > s.matched[peer] then LastSent(a) else s.matched[peer];
    var s1 := s.(matched := s.matched[peer := m], next := s.next[peer := m + 1]);
    SuccessMatch(h, i, s, s1, peer, a, m);
    SuccessShape(s, i, s', peer, a, r, s1, m);
    AdvanceNode(h, i, s1, s');
  }

  lemma {:induction false} PastLastBelow(log: Log, snap: nat, t: int, j: nat)
    requires j <= |log|
    ensures -1 <= PastLastOf(log, snap, t, j) <= j + 1 && PastLastOf(log, snap, t, j) != 0
  {
    if j > snap && TermAt(log, j) != t {
      PastLastBelow(log, snap, t, j - 1);
    }
  }

  lemma BackUpBelow(log: Log, snap: nat, r: AppendReply)
    ensures 1 <= BackUp(log, snap, r)
    ensures r.conflictIndex <= |log| + 1 ==> BackUp(log, snap, r) <= |log| + 1
  {
    PastLastBelow(log, snap, r.conflictTerm, |log|);
  }

  lemma FailureNode(h: State, i: nat, s: Node, s': Node, peer: nat, src: nat, a: AppendArgs, r: AppendReply)
    requires VotesOk(h) && At(h, i, s) && NodeOk(h, i, s) && s.role.Leader? && s.term == a.term
    requires ShipmentOk(h, src, a) && AnswerOk(h, peer, src, a, r) && a.leader == i && peer < |s.next|
    requires !r.success && s' == OnAppendReply(s, i, peer, a, r)
    ensures s.term <= s'.term && s'.log == s.log && NodeOk(Raise(h, i, s'.term), i, s')
  {
    AnswerSource(h, i, s, src, a);
    assert PeerOk(h, s, peer);
    BackUpBelow(s.log, s.snap, r);
    var n := BackUp(s.log, s.snap, r);
    assert s.matched[peer := s.matched[peer]] == s.matched;
    var s1 := s.(matched := s.matched[peer := s.matched[peer]], next := s.next[peer := n]);
    assert s' == if r.term > s.term then StepDown(s1, r.term) else s1;
    MatchNode(h, i, s, s1, peer, n, s.matched[peer]);
    SameTermRaise(h, i, s);
    if r.term > s.term {
      StepDownNode(h, i, s1, r.term);
    }
  }

  lemma ReplyNode(h: State, i: nat, s: Node, s': Node, peer: nat, src: nat, a: AppendArgs, r: AppendReply)
    requires Inv(h) && At(h, i, s) && NodeOk(h, i, s) && peer < |h.terms|
    requires ShipmentOk(h, src, a) && AnswerOk(h, peer, src, a, r) && a.leader == i
    requires s' == OnAppendReply(s, i, peer, a, r)
    ensures s.term <= s'.term && s'.log == s.log && NodeOk(Raise(h, i, s'.term), i, s')
  {
    SameTermRaise(h, i, s);
    if s.role.Leader? && s.term == a.term {
      if r.success {
        SuccessNode(h, i, s, s', peer, src, a, r);
      } else {
        FailureNode(h, i, s, s', peer, src, a, r);
      }
    }
  }

  lemma ConfirmLegal(c: Cluster, i: nat, s': Node, from: nat, src: nat, a: AppendArgs, r: AppendReply, c': Cluster)
    requires ActorOk(c, i) && i == a.leader && |c.nodes| == |c.h.terms| && from < |c.nodes|
    requires Sized(c.nodes[i], |c.nodes|) && ShipmentOk(c.h, src, a) && AnswerOk(c.h, from, src, a, r)
    requires s' == OnAppendReply(c.nodes[i], i, from, a, r)
    requires c' == Cluster(c.nodes[i := s'], c.msgs + {}, Raise(c.h, i, s'.term))
    ensures Legal(c, c')
  {
    ReplyNode(c.h, i, c.nodes[i], s', from, src, a, r);
    RaiseLegal(c, c', i, s', Raise(c.h, i, s'.term), {});
  }

  /** What an answer does to the cluster. */
  lemma ConfirmedAfter(c: Cluster, m: Message, i: nat, s': Node)
    requires Enabled(c, Confirm(m)) && i == m.args.leader && i < |c.h.terms|
    requires s' == OnAppendReply(c.nodes[i], i, m.from, m.args, m.reply)
    ensures After(c, Confirm(m)) == Cluster(c.nodes[i := s'], c.msgs + {}, Raise(c.h, i, s'.term))
  {}

  lemma ConfirmStep(c: Cluster, m: Message, i: nat, s': Node)
    requires Enabled(c, Confirm(m)) && i == m.args.leader
    requires s' == OnAppendReply(c.nodes[i], i, m.from, m.args, m.reply)
    requires ActorOk(c, i) && |c.nodes| == |c.h.terms| && MessageOk(c.h, m)
    ensures Legal(c, After(c, Confirm(m)))
  {
    ConfirmedAfter(c, m, i, s');
    ConfirmLegal(c, i, s', m.from, m.src, m.args, m.reply,
                 Cluster(c.nodes[i := s'], c.msgs + {}, Raise(c.h, i, s'.term)));
  }

  // ----- Compaction, delivery, crashes -----

  /** Only snap, applied, commit and what dies in a crash have changed. */
  lemma IndicesNode(h: State, i: nat, s: Node, s': Node)
    requires NodeOk(h, i, s) && IndicesOk(s')
    requires s'.term == s.term && s'.votedFor == s.votedFor && s'.log == s.log && s'.commit <= s.commit
    requires s' == s.(snap := s'.snap, applied := s'.applied) || (s'.role.Follower? && s'.rounds == {})
    ensures NodeOk(h, i, s')
  {
    SelfGrows(h);
    assert s'.log[..s'.commit] <= s.log[..s.commit];
    CommittedByGrows(h, h, s.log[..s.commit], s'.log[..s'.commit], s.term, s.term);
    LeaderSameOrNot(h, i, s, s');
    forall r | r in s'.rounds
      ensures RoundOk(h, s', r)
    {
      assert RoundOk(h, s, r);
    }
  }

  lemma LeaderSameOrNot(h: State, i: nat, s: Node, s': Node)
    requires LeaderOk(h, i, s)
    requires s' == s.(snap := s'.snap, applied := s'.applied) || s'.role.Follower?
    ensures LeaderOk(h, i, s')
  {
    if s'.role.Leader? {
      LeaderSame(h, i, s, s');
    }
  }

  lemma CompactStep(c: Cluster, i: nat, index: nat)
    requires ActorOk(c, i) && Enabled(c, Compact(i, index))
    ensures Legal(c, After(c, Compact(i, index)))
  {
    var s' := OnSnapshot(c.nodes[i], index);
    IndicesNode(c.h, i, c.nodes[i], s');
    SameTermRaise(c.h, i, c.nodes[i]);
    QuietStep(c, After(c, Compact(i, index)), i, s', {});
  }

  lemma DeliverStep(c: Cluster, i: nat)
    requires ActorOk(c, i) && Enabled(c, Deliver(i))
    ensures Legal(c, After(c, Deliver(i)))
  {
    var s' := OnDeliver(c.nodes[i]);
    IndicesNode(c.h, i, c.nodes[i], s');
    SameTermRaise(c.h, i, c.nodes[i]);
    QuietStep(c, After(c, Deliver(i)), i, s', {});
  }

  lemma CrashStep(c: Cluster, i: nat)
    requires ActorOk(c, i) && Enabled(c, Crash(i))
    ensures Legal(c, After(c, Crash(i)))
  {
    var s' := OnRestart(c.nodes[i]);
    IndicesNode(c.h, i, c.nodes[i], s');
    SameTermRaise(c.h, i, c.nodes[i]);
    QuietStep(c, After(c, Crash(i)), i, s', {});
  }

  /** A crash that loses everything but a raised term, and perhaps the old vote. */
  lemma RaisedNode(h: State, i: nat, s: Node, s': Node, t: nat, v: int)
    requires VotesOk(h) && At(h, i, s) && NodeOk(h, i, s) && s.term <= t && (s.term == t ==> v == s.votedFor)
    requires s' == OnRestart(s.(term := t, votedFor := v))
    ensures NodeOk(Raise(h, i, t), i, s')
  {
    var h' := Raise(h, i, t);
    RaiseLocal(h, i, t);
    assert s'.log[..s'.commit] <= s.log[..s.commit];
    CommittedByGrows(h, h', s.log[..s.commit], s'.log[..s'.commit], s.term, t);
  }

  lemma CrashMidwayStep(c: Cluster, c': Cluster, i: nat, s': Node, t: nat, v: int)
    requires ActorOk(c, i) && c.nodes[i].term <= t && (c.nodes[i].term == t ==> v == c.nodes[i].votedFor)
    requires s' == OnRestart(c.nodes[i].(term := t, votedFor := v))
    requires c' == Cluster(c.nodes[i := s'], c.msgs + {}, Raise(c.h, i, t))
    ensures Legal(c, c')
  {
    RaisedNode(c.h, i, c.nodes[i], s', t, v);
    RaiseKeeps(c.h, i, t);
    RaiseLocal(c.h, i, t);
    assert Moves(c, c', i, s', Raise(c.h, i, t), {});
  }

  lemma CrashInVoteStep(c: Cluster, i: nat, term: nat)
    requires ActorOk(c, i) && Enabled(c, CrashInVote(i, term))
    ensures Legal(c, After(c, CrashInVote(i, term)))
  {
    var s' := OnRestart(StepDown(c.nodes[i], term));
    CrashMidwayStep(c, After(c, CrashInVote(i, term)), i, s', term, NOBODY);
  }

  lemma CrashInReceiveStep(c: Cluster, m: Message, i: nat)
    requires Enabled(c, CrashInReceive(m)) && i == m.to && ActorOk(c, i)
    ensures Legal(c, After(c, CrashInReceive(m)))
  {
    var s := c.nodes[i];
    var s' := OnRestart(s.(term := m.args.term));
    CrashMidwayStep(c, After(c, CrashInReceive(m)), i, s', m.args.term, s.votedFor);
  }

  // ----- All steps -----

  lemma StepLegal(c: Cluster, step: Step)
    requires Enabled(c, step) && ActorOk(c, Actor(step)) && |c.nodes| == |c.h.terms|
    requires step.CountVote? || step.Receive? || step.Confirm? ==> MessageOk(c.h, step.m)
    ensures Legal(c, After(c, step))
  {
    match step {
      case Timeout(i) => TimeoutStep(c, i, c.nodes[i].term + 1);
      case AnswerVote(i, cand, term) => AnswerVoteStep(c, i, cand, term);
      case CountVote(m) => CountVoteStep(c, m.cand, m.from, m.term, m.vote);
      case Submit(i, cmd) => SubmitStep(c, i, cmd);
      case OpenRound(i) => OpenRoundStep(c, i);
      case Ship(i, to, round) => ShipStep(c, i, to, round);
      case Receive(m) => ReceiveStep(c, m.to, m.src, m.args);
      case Confirm(m) => ConfirmStep(c, m, m.args.leader, NodeAfter(c, step));
      case Compact(i, index) => CompactStep(c, i, index);
      case Deliver(i) => DeliverStep(c, i);
      case Crash(i) => CrashStep(c, i);
      case CrashInVote(i, term) => CrashInVoteStep(c, i, term);
      case CrashInReceive(m) => CrashInReceiveStep(c, m, m.to);
    }
  }

  /** The invariant is kept by every step any server can take. */
  lemma StepKeeps(c: Cluster, step: Step)
    requires ClusterOk(c) && Enabled(c, step)
    ensures Legal(c, After(c, step)) && ClusterOk(After(c, step))
  {
    StepActor(c, step);
    StepLegal(c, step);
    LegalKeeps(c, After(c, step));
  }

  lemma StepActor(c: Cluster, step: Step)
    requires ClusterOk(c) && Enabled(c, step)
    ensures ActorOk(c, Actor(step)) && |c.nodes| == |c.h.terms|
    ensures step.CountVote? || step.Receive? || step.Confirm? ==> MessageOk(c.h, step.m)
  {
    var i := Actor(step);
    assert At(c.h, i, c.nodes[i]) && NodeOk(c.h, i, c.nodes[i]);
  }

  /** A cluster of fresh servers satisfies the invariant. */
  lemma StartOk(n: nat)
    ensures ClusterOk(Start(n))
  {
    var c := Start(n);
    assert Inv(c.h);
    forall i: nat | i < |c.nodes|
      ensures At(c.h, i, c.nodes[i]) && NodeOk(c.h, i, c.nodes[i])
    {
      assert c.nodes[i] == FRESH;
    }
  }

  /** Every state of every run satisfies the invariant. */
  lemma {:induction false} RunOk(n: nat, run: seq<Cluster>, steps: seq<Step>, k: nat)
    requires Run(n, run, steps) && k < |run|
    ensures ClusterOk(run[k])
  {
    if k == 0 {
      StartOk(n);
    } else {
      RunOk(n, run, steps, k - 1);
      StepKeeps(run[k - 1], steps[k - 1]);
    }
  }
}
