/** The invariant, step by step: submitted commands, heartbeat rounds, shipments and what receivers make of them. */
module ClusterShipping {
  import opened Commands
  import opened RaftTypes
  import opened RaftNode
  import opened RaftNodeProofs
  import opened History
  import opened HistoryProofs
  import opened Cluster
  import opened ClusterInv
  import opened ClusterProofs
  import opened ClusterSteps

  /** A step that moves neither term nor log is legal if its server stays as it should be. */
  lemma QuietStep(c: Cluster, c': Cluster, i: nat, s': Node, sent: set<Message>)
    requires ActorOk(c, i) && s'.term == c.nodes[i].term && s'.log == c.nodes[i].log && NodeOk(c.h, i, s')
    requires forall m :: m in sent ==> MessageOk(c.h, m)
    requires c' == Cluster(c.nodes[i := s'], c.msgs + sent, c.h)
    ensures Legal(c, c')
  {
    SameTermRaise(c.h, i, s');
    RaiseLocal(c.h, i, s'.term);
    assert Moves(c, c', i, s', c.h, sent);
  }

  // ----- Commands and rounds -----

  lemma SubmitNode(h: State, i: nat, s: Node, cmd: Command)
    requires ReignsOk(h) && At(h, i, s) && NodeOk(h, i, s) && s.role.Leader?
    ensures CanExtend(h, s.term, Entry(s.term, Some(cmd)))
    ensures NodeOk(Extend(h, s.term, Entry(s.term, Some(cmd))), i, OnStart(s, cmd))
  {
    var e := Entry(s.term, Some(cmd));
    var h', s' := Extend(h, s.term, e), OnStart(s, cmd);
    ExtendLocal(h, s.term, e);
    IndicesKept(h, h', s, s');
    forall p: nat | p < |s'.next|
      ensures PeerOk(h', s', p)
    {
      assert PeerOk(h, s, p);
    }
  }

  lemma SubmitLegal(c: Cluster, i: nat, s: Node, cmd: Command, e: Entry, c': Cluster)
    requires ActorOk(c, i) && s == c.nodes[i] && s.role.Leader? && e == Entry(s.term, Some(cmd)) && CanExtend(c.h, s.term, e)
    requires c' == Cluster(c.nodes[i := OnStart(s, cmd)], c.msgs + {}, Extend(c.h, s.term, e))
    ensures Legal(c, c')
  {
    SubmitNode(c.h, i, s, cmd);
    ExtendKeeps(c.h, s.term, e);
    ExtendLocal(c.h, s.term, e);
    assert Moves(c, c', i, OnStart(s, cmd), Extend(c.h, s.term, e), {});
  }

  /** What a submission does to the cluster. */
  lemma SubmittedAfter(c: Cluster, i: nat, s: Node, cmd: Command, e: Entry)
    requires Enabled(c, Submit(i, cmd)) && s == c.nodes[i] && At(c.h, i, s) && e == Entry(s.term, Some(cmd))
    requires s.role.Leader? ==> CanExtend(c.h, s.term, e)
    ensures After(c, Submit(i, cmd))
         == if s.role.Leader? then Cluster(c.nodes[i := OnStart(s, cmd)], c.msgs + {}, Extend(c.h, s.term, e))
            else Cluster(c.nodes[i := s], c.msgs + {}, c.h)
  {
    SameTermRaise(c.h, i, s);
  }

  lemma SubmitStep(c: Cluster, i: nat, cmd: Command)
    requires ActorOk(c, i) && Enabled(c, Submit(i, cmd))
    ensures Legal(c, After(c, Submit(i, cmd)))
  {
    var s := c.nodes[i];
    var e := Entry(s.term, Some(cmd));
    if s.role.Leader? {
      SubmitNode(c.h, i, s, cmd);
      SubmittedAfter(c, i, s, cmd, e);
      SubmitLegal(c, i, s, cmd, e, Cluster(c.nodes[i := OnStart(s, cmd)], c.msgs + {}, Extend(c.h, s.term, e)));
    } else {
      SubmittedAfter(c, i, s, cmd, e);
      QuietStep(c, Cluster(c.nodes[i := s], c.msgs + {}, c.h), i, s, {});
    }
  }

  lemma OpenRoundStep(c: Cluster, i: nat)
    requires ActorOk(c, i) && Enabled(c, OpenRound(i))
    ensures Legal(c, After(c, OpenRound(i)))
  {
    OnRoundOk(c.h, i, c.nodes[i]);
    SameTermRaise(c.h, i, c.nodes[i]);
    QuietStep(c, After(c, OpenRound(i)), i, OnRound(c.nodes[i]), {});
  }

  lemma OnRoundOk(h: State, i: nat, s: Node)
    requires NodeOk(h, i, s)
    ensures NodeOk(h, i, OnRound(s))
  {
    assert RoundOk(h, OnRound(s), Round(s.term, s.commit));
    forall r | r in s.rounds
      ensures RoundOk(h, OnRound(s), r)
    {
      assert RoundOk(h, s, r);
    }
    LeaderSame(h, i, s, OnRound(s));
  }

  lemma LeaderSame(h: State, i: nat, s: Node, s': Node)
    requires LeaderOk(h, i, s)
    requires s'.role == s.role && s'.term == s.term && s'.log == s.log && s'.next == s.next && s'.matched == s.matched
    ensures LeaderOk(h, i, s')
  {
    if s'.role.Leader? {
      forall p: nat | p < |s'.next|
        ensures PeerOk(h, s', p)
      {
        assert PeerOk(h, s, p);
      }
    }
  }

  // ----- Shipping -----

  lemma ShipOk(h: State, i: nat, s: Node, to: nat, r: Round, a: AppendArgs)
    requires At(h, i, s) && NodeOk(h, i, s) && r in s.rounds && CanShip(s, to) && a == AppendArgsFor(s, i, to, r)
    ensures ShipmentOk(h, s.term, a)
  {
    assert RoundOk(h, s, r);
  }

  lemma ShippedAfter(c: Cluster, i: nat, to: nat, r: Round, s: Node)
    requires Enabled(c, Ship(i, to, r)) && s == c.nodes[i] && At(c.h, i, s)
    ensures After(c, Ship(i, to, r))
         == Cluster(c.nodes[i := s], c.msgs + {Shipment(to, s.term, AppendArgsFor(s, i, to, r))}, c.h)
  {
    SameTermRaise(c.h, i, s);
  }

  lemma ShipLegal(c: Cluster, i: nat, s: Node, m: Message, c': Cluster)
    requires ActorOk(c, i) && s == c.nodes[i] && MessageOk(c.h, m)
    requires c' == Cluster(c.nodes[i := s], c.msgs + {m}, c.h)
    ensures Legal(c, c')
  {
    QuietStep(c, c', i, s, {m});
  }

  lemma ShipStep(c: Cluster, i: nat, to: nat, r: Round)
    requires ActorOk(c, i) && Enabled(c, Ship(i, to, r))
    ensures Legal(c, After(c, Ship(i, to, r)))
  {
    var s := c.nodes[i];
    var a := AppendArgsFor(s, i, to, r);
    var m := Shipment(to, s.term, a);
    ShipOk(c.h, i, s, to, r, a);
    ShippedAfter(c, i, to, r, s);
    ShipLegal(c, i, s, m, Cluster(c.nodes[i := s], c.msgs + {m}, c.h));
  }

  // ----- Receiving -----

  /** A follower whose entry at prev has the sent term agrees with the leader up to prev. */
  lemma PrevMatches(h: State, log: Log, src: nat, prev: nat)
    requires ReignsOk(h) && Owned(h, log) && src in h.reigns
    requires prev <= |log| && prev <= |h.reigns[src].log| && TermAt(log, prev) == TermAt(h.reigns[src].log, prev)
    ensures log[..prev] == h.reigns[src].log[..prev]
  {
    assert ReignOk(h, src);
    if prev > 0 {
      OwnedMatch(h, log, h.reigns[src].log, prev);
    }
  }

  lemma LeaderTermsDecide(h: State, log: Log, src: nat, target: Log, prev: nat)
    requires Owned(h, log) && src in h.reigns && Owned(h, h.reigns[src].log) && target <= h.reigns[src].log
    ensures TermsDecide(log, target, prev)
  {
    var leaderLog := h.reigns[src].log;
    forall k: nat | prev <= k < |log| && k < |target| && log[k].term == target[k].term
      ensures log[k] == target[k]
    {
      OwnedMatch(h, log, leaderLog, k + 1);
      assert log[..k + 1][k] == leaderLog[..k + 1][k];
    }
  }

  lemma SentTarget(log: Log, leaderLog: Log, a: AppendArgs, target: Log)
    requires a.prev <= |log| && a.prev <= LastSent(a) <= |leaderLog| && log[..a.prev] == leaderLog[..a.prev]
    requires a.entries == leaderLog[a.prev..LastSent(a)] && target == leaderLog[..LastSent(a)]
    ensures target == log[..a.prev] + a.entries
  {}

  /** The loop over the sent entries leaves the follower's log or the leader's prefix. */
  lemma MergeOverwrites(h: State, log: Log, src: nat, a: AppendArgs)
    requires ReignsOk(h) && Owned(h, log) && ShipmentOk(h, src, a)
    requires a.prev <= |log| && TermAt(log, a.prev) == a.prevTerm
    ensures Merge(log, a.prev, a.entries) == Overwrite(log, h.reigns[src].log, LastSent(a))
  {
    var target := h.reigns[src].log[..LastSent(a)];
    PrevMatches(h, log, src, a.prev);
    SentTarget(log, h.reigns[src].log, a, target);
    assert ReignOk(h, src);
    LeaderTermsDecide(h, log, src, target, a.prev);
    MergeResult(log, a.prev, a.entries, target);
  }

  /** What a server holds as committed is in every log it may still be sent. */
  lemma CommittedShipped(h: State, s: Node, src: nat, a: AppendArgs)
    requires ReignsOk(h) && CompleteOk(h) && ShipmentOk(h, src, a)
    requires IndicesOk(s) && CommitOk(h, s) && s.term <= a.term
    ensures s.log[..s.commit] <= h.reigns[src].log
  {
    CommittedByInReign(h, s.log[..s.commit], s.term, src);
  }

  /** What an accepted shipment does to the receiver's fields. */
  lemma AcceptShape(h: State, s: Node, src: nat, a: AppendArgs)
    requires ReignsOk(h) && Owned(h, s.log) && ShipmentOk(h, src, a) && OnAppend(s, a).1.success
    ensures var s' := OnAppend(s, a).0;
      && s.term <= a.term && s'.term == a.term && s'.role.Follower?
      && s'.votedFor == s.votedFor && s'.snap == s.snap && s'.applied == s.applied && s'.rounds == s.rounds
      && s'.log == Overwrite(s.log, h.reigns[src].log, LastSent(a))
      && s'.commit == if a.leaderCommit > s.commit then a.leaderCommit else s.commit
  {
    MergeOverwrites(h, s.log, src, a);
  }

  lemma AcceptCommit(h: State, h': State, s: Node, s': Node, src: nat, a: AppendArgs)
    requires ReignsOk(h) && CompleteOk(h) && Grows(h, h')
    requires ShipmentOk(h, src, a) && IndicesOk(s) && CommitOk(h, s) && s.term <= a.term
    requires s'.term == a.term && s'.snap == s.snap && s'.applied == s.applied
    requires s'.log == Overwrite(s.log, h.reigns[src].log, LastSent(a))
    requires s'.commit == if a.leaderCommit > s.commit then a.leaderCommit else s.commit
    ensures IndicesOk(s') && s.commit <= s'.commit && s.log[..s.commit] <= s'.log
    ensures s'.commit == s.commit || CommitOk(h', s')
  {
    var leaderLog := h.reigns[src].log;
    CommittedShipped(h, s, src, a);
    OverwriteKeeps(s.log, leaderLog, LastSent(a), s.log[..s.commit]);
    if s'.commit != s.commit {
      assert s'.log[..s'.commit] == leaderLog[..a.leaderCommit];
      CommittedByGrows(h, h', leaderLog[..a.leaderCommit], s'.log[..s'.commit], a.term, a.term);
    }
  }

  /** A follower whose term does not fall and whose vote stays is as good as before. */
  lemma FollowsOn(h: State, h': State, i: nat, s: Node, s': Node)
    requires VotesOk(h) && At(h, i, s) && VoteOk(h, i, s) && h'.votes == h.votes
    requires s.term <= s'.term && s'.role.Follower? && s'.votedFor == s.votedFor
    ensures VoteOk(h', i, s') && CandidateOk(h', i, s') && LeaderOk(h', i, s')
  {}

  lemma AcceptNode(h: State, h': State, i: nat, s: Node, s': Node, src: nat, a: AppendArgs)
    requires ReignsOk(h) && CompleteOk(h) && VotesOk(h) && At(h, i, s) && NodeOk(h, i, s) && ShipmentOk(h, src, a)
    requires s.term <= a.term && s'.term == a.term && s'.role.Follower? && s'.votedFor == s.votedFor
    requires s'.snap == s.snap && s'.applied == s.applied && s'.rounds == s.rounds
    requires s'.log == Overwrite(s.log, h.reigns[src].log, LastSent(a))
    requires s'.commit == if a.leaderCommit > s.commit then a.leaderCommit else s.commit
    requires Grows(h, h') && h'.votes == h.votes
    ensures NodeOk(h', i, s')
  {
    FollowsOn(h, h', i, s, s');
    AcceptCommit(h, h', s, s', src, a);
    IndicesKept(h, h', s, s');
  }

  lemma AcceptMoveNode(h: State, h': State, i: nat, s: Node, s': Node, src: nat, a: AppendArgs)
    requires Shape(h) && ReignsOk(h) && LogsOk(h) && CompleteOk(h) && VotesOk(h) && AcksOk(h)
    requires At(h, i, s) && NodeOk(h, i, s) && ShipmentOk(h, src, a)
    requires OnAppend(s, a).1.success && s' == OnAppend(s, a).0
    requires CanAccept(h, i, a.term, src, LastSent(a))
    requires h' == Accept(h, i, a.term, src, LastSent(a)) && Grows(h, h')
    ensures At(h', i, s') && NodeOk(h', i, s')
  {
    AcceptShape(h, s, src, a);
    AcceptNode(h, h', i, s, s', src, a);
  }

  lemma AcceptMove(h: State, h': State, i: nat, s: Node, s': Node, src: nat, a: AppendArgs)
    requires Inv(h) && At(h, i, s) && NodeOk(h, i, s) && ShipmentOk(h, src, a)
    requires OnAppend(s, a).1.success && s' == OnAppend(s, a).0
    requires h' == Accept(h, i, a.term, src, LastSent(a))
    ensures CanAccept(h, i, a.term, src, LastSent(a))
    ensures Inv(h') && Local(h, h', i) && At(h', i, s') && NodeOk(h', i, s')
  {
    AcceptKeeps(h, i, a.term, src, LastSent(a));
    AcceptLocal(h, i, a.term, src, LastSent(a));
    AcceptMoveNode(h, h', i, s, s', src, a);
  }

  lemma RejectShape(s: Node, s': Node, a: AppendArgs)
    requires !OnAppend(s, a).1.success && s' == OnAppend(s, a).0
    ensures s' == s || (s.term <= a.term && s' == s.(role := Follower, term := a.term))
  {}

  lemma RejectMove(h: State, h': State, i: nat, s: Node, s': Node)
    requires Inv(h) && At(h, i, s) && NodeOk(h, i, s)
    requires s' == s || (s.term <= s'.term && s' == s.(role := Follower, term := s'.term))
    requires h' == Raise(h, i, s'.term)
    ensures Inv(h') && Local(h, h', i) && At(h', i, s') && NodeOk(h', i, s')
  {
    RaiseKeeps(h, i, s'.term);
    RejectNode(h, h', i, s, s');
  }

  lemma RejectNode(h: State, h': State, i: nat, s: Node, s': Node)
    requires VotesOk(h) && At(h, i, s) && NodeOk(h, i, s)
    requires s' == s || (s.term <= s'.term && s' == s.(role := Follower, term := s'.term))
    requires h' == Raise(h, i, s'.term)
    ensures Local(h, h', i) && At(h', i, s') && NodeOk(h', i, s')
  {
    RaiseLocal(h, i, s'.term);
    if s' == s {
      SameTermRaise(h, i, s);
    } else {
      IndicesKept(h, h', s, s');
    }
  }

  lemma {:induction false} RunStartBelow(log: Log, snap: nat, k: nat)
    requires k <= |log|
    ensures RunStart(log, snap, k) <= k
  {
    if k > snap + 1 && TermAt(log, k - 1) == TermAt(log, k) {
      RunStartBelow(log, snap, k - 1);
    }
  }

  /** A hint is nothing, one past the receiver's snapshot, or no later than the sent index. */
  lemma HintShape(s: Node, a: AppendArgs)
    ensures OnAppend(s, a).1.conflictIndex <= a.prev
            || (a.term >= s.term && OnAppend(s, a).1.conflictIndex == s.snap + 1)
  {
    if a.prev <= |s.log| {
      RunStartBelow(s.log, s.snap, a.prev);
    }
  }

  /** The hint in an answer never points beyond the log it was given for. */
  lemma HintInRange(h: State, s: Node, src: nat, a: AppendArgs, hint: nat)
    requires ReignsOk(h) && CompleteOk(h) && ShipmentOk(h, src, a) && IndicesOk(s) && CommitOk(h, s)
    requires hint <= a.prev || (a.term >= s.term && hint == s.snap + 1)
    ensures hint <= |h.reigns[src].log| + 1
  {
    if a.term >= s.term {
      CommittedShipped(h, s, src, a);
    }
  }

  lemma AnswerTrue(h: State, h': State, i: nat, s: Node, src: nat, a: AppendArgs)
    requires ReignsOk(h) && CompleteOk(h) && ShipmentOk(h, src, a) && IndicesOk(s) && CommitOk(h, s)
    requires Grows(h, h') && OnAppend(s, a).1.success && a.term == src ==> Acked(h', i, src) >= LastSent(a)
    requires Grows(h, h')
    ensures MessageOk(h', ShipmentAnswer(i, src, a, OnAppend(s, a).1))
  {
    HintShape(s, a);
    HintInRange(h, s, src, a, OnAppend(s, a).1.conflictIndex);
    ShipmentKept(h, h', src, a);
  }

  lemma AcceptedAnswer(h: State, h': State, i: nat, s: Node, s': Node, src: nat, a: AppendArgs, r: AppendReply)
    requires Inv(h) && At(h, i, s) && NodeOk(h, i, s) && ShipmentOk(h, src, a)
    requires OnAppend(s, a) == (s', r) && r.success
    requires h' == Accept(h, i, a.term, src, LastSent(a))
    ensures CanAccept(h, i, a.term, src, LastSent(a))
    ensures Inv(h') && Local(h, h', i) && At(h', i, s') && NodeOk(h', i, s')
    ensures MessageOk(h', ShipmentAnswer(i, src, a, r))
  {
    AcceptMove(h, h', i, s, s', src, a);
    AnswerTrue(h, h', i, s, src, a);
  }

  lemma RejectedAnswer(h: State, h': State, i: nat, s: Node, s': Node, src: nat, a: AppendArgs, r: AppendReply)
    requires Inv(h) && At(h, i, s) && NodeOk(h, i, s) && ShipmentOk(h, src, a)
    requires OnAppend(s, a) == (s', r) && !r.success
    requires h' == Raise(h, i, s'.term)
    ensures Inv(h') && Local(h, h', i) && At(h', i, s') && NodeOk(h', i, s')
    ensures MessageOk(h', ShipmentAnswer(i, src, a, r))
  {
    RejectShape(s, s', a);
    RejectMove(h, h', i, s, s');
    AnswerTrue(h, h', i, s, src, a);
  }

  lemma AcceptedAfter(c: Cluster, i: nat, src: nat, a: AppendArgs, s': Node, r: AppendReply, h': State)
    requires Enabled(c, Receive(Shipment(i, src, a))) && i < |c.h.terms|
    requires OnAppend(c.nodes[i], a) == (s', r) && r.success
    requires CanAccept(c.h, i, a.term, src, LastSent(a)) && h' == Accept(c.h, i, a.term, src, LastSent(a))
    ensures After(c, Receive(Shipment(i, src, a))) == Cluster(c.nodes[i := s'], c.msgs + {ShipmentAnswer(i, src, a, r)}, h')
  {}

  lemma RejectedAfter(c: Cluster, i: nat, src: nat, a: AppendArgs, s': Node, r: AppendReply, h': State)
    requires Enabled(c, Receive(Shipment(i, src, a))) && i < |c.h.terms|
    requires OnAppend(c.nodes[i], a) == (s', r) && !r.success
    requires h' == Raise(c.h, i, s'.term)
    ensures After(c, Receive(Shipment(i, src, a))) == Cluster(c.nodes[i := s'], c.msgs + {ShipmentAnswer(i, src, a, r)}, h')
  {}

  lemma AnsweredLegal(c: Cluster, c': Cluster, i: nat, s': Node, h': State, m: Message)
    requires i < |c.nodes| && Inv(h') && Local(c.h, h', i) && At(h', i, s') && NodeOk(h', i, s') && MessageOk(h', m)
    requires c' == Cluster(c.nodes[i := s'], c.msgs + {m}, h')
    ensures Legal(c, c')
  {
    assert Moves(c, c', i, s', h', {m});
  }

  lemma ReceiveStep(c: Cluster, i: nat, src: nat, a: AppendArgs)
    requires Enabled(c, Receive(Shipment(i, src, a))) && ActorOk(c, i) && ShipmentOk(c.h, src, a)
    ensures Legal(c, After(c, Receive(Shipment(i, src, a))))
  {
    var (s', r) := OnAppend(c.nodes[i], a);
    if r.success {
      var h' := Accept(c.h, i, a.term, src, LastSent(a));
      AcceptedAnswer(c.h, h', i, c.nodes[i], s', src, a, r);
      AcceptedAfter(c, i, src, a, s', r, h');
      AnsweredLegal(c, After(c, Receive(Shipment(i, src, a))), i, s', h', ShipmentAnswer(i, src, a, r));
    } else {
      var h' := Raise(c.h, i, s'.term);
      RejectedAnswer(c.h, h', i, c.nodes[i], s', src, a, r);
      RejectedAfter(c, i, src, a, s', r, h');
      AnsweredLegal(c, After(c, Receive(Shipment(i, src, a))), i, s', h', ShipmentAnswer(i, src, a, r));
    }
  }
}
