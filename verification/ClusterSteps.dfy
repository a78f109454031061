/** The invariant, step by step: timeouts, votes and elections. */
module ClusterSteps {
  import opened RaftTypes
  import opened RaftNode
  import opened History
  import opened HistoryProofs
  import opened Cluster
  import opened ClusterInv
  import opened ClusterProofs
  import opened Quorum

  // ----- Elections -----

  /** A server that runs or leads in its term has voted for itself. */
  lemma OwnVote(h: State, i: nat, s: Node)
    requires ReqsOk(h) && ReignsOk(h) && NodeOk(h, i, s) && !s.role.Follower?
    ensures VotedFor(h, i, s.term, i) && s.votedFor == i
  {
    if s.role.Leader? {
      assert ReignOk(h, s.term);
    }
  }

  lemma CandidateFresh(h: State, i: nat, s: Node, t: nat)
    requires VotesOk(h) && ReqsOk(h) && ReignsOk(h) && At(h, i, s) && t == s.term + 1
    ensures CandidateOk(Campaign(h, i, t), i, OnElectionTimeout(s, i))
  {
    if t in h.reigns {
      assert ReignOk(h, t);
    }
    assert {i} <= Servers(|h.terms|);
  }

  lemma TimeoutNode(h: State, i: nat, s: Node, t: nat)
    requires VotesOk(h) && ReqsOk(h) && ReignsOk(h) && At(h, i, s) && NodeOk(h, i, s) && t == s.term + 1
    ensures NodeOk(Campaign(h, i, t), i, OnElectionTimeout(s, i))
  {
    CampaignGrows(h, i, t);
    CandidateFresh(h, i, s, t);
    IndicesKept(h, Campaign(h, i, t), s, OnElectionTimeout(s, i));
  }

  lemma TimeoutStep(c: Cluster, i: nat, t: nat)
    requires ActorOk(c, i) && Enabled(c, Timeout(i)) && t == c.nodes[i].term + 1
    ensures Legal(c, After(c, Timeout(i)))
  {
    var s := c.nodes[i];
    TimeoutNode(c.h, i, s, t);
    CampaignKeeps(c.h, i, t);
    CampaignLocal(c.h, i, t);
    assert Moves(c, After(c, Timeout(i)), i, OnElectionTimeout(s, i), Campaign(c.h, i, t), {});
  }

  lemma StepDownNode(h: State, i: nat, s: Node, t: nat)
    requires VotesOk(h) && At(h, i, s) && NodeOk(h, i, s) && s.term < t
    ensures NodeOk(Raise(h, i, t), i, StepDown(s, t))
  {
    IndicesKept(h, Raise(h, i, t), s, StepDown(s, t));
  }

  lemma SameTermRaise(h: State, i: nat, s: Node)
    requires At(h, i, s)
    ensures Raise(h, i, s.term) == h
  {}

  /** A step that leaves the log alone and at most raises the term. */
  lemma RaiseLegal(c: Cluster, c': Cluster, i: nat, s': Node, h': State, sent: set<Message>)
    requires ActorOk(c, i) && c.nodes[i].term <= s'.term && s'.log == c.nodes[i].log
    requires h' == Raise(c.h, i, s'.term) && NodeOk(h', i, s')
    requires forall m :: m in sent ==> MessageOk(h', m)
    requires c' == Cluster(c.nodes[i := s'], c.msgs + sent, h')
    ensures Legal(c, c')
  {
    RaiseKeeps(c.h, i, s'.term);
    RaiseLocal(c.h, i, s'.term);
    assert Moves(c, c', i, s', h', sent);
  }

  lemma GrantAllowed(h: State, i: nat, s: Node, a: VoteArgs, log: Log)
    requires VotesOk(h) && ReqsOk(h) && Shape(h) && At(h, i, s) && VoteOk(h, i, s)
    requires Key(a.cand, a.term) in h.reqs && h.reqs[Key(a.cand, a.term)] == log
    requires a == VoteArgsOf(a.cand, a.term, log) && OnVoteRequest(s, a).1.granted
    ensures CanGrant(h, i, a.term, a.cand)
  {}

  lemma GrantNode(h: State, h': State, i: nat, s: Node, s': Node, a: VoteArgs)
    requires VotesOk(h) && ReqsOk(h) && ReignsOk(h) && At(h, i, s) && NodeOk(h, i, s)
    requires CanGrant(h, i, a.term, a.cand) && h' == Grant(h, i, a.term, a.cand) && i != a.cand
    requires OnVoteRequest(s, a).1.granted && s' == OnVoteRequest(s, a).0
    ensures NodeOk(h', i, s')
  {
    if a.term == s.term && !s.role.Follower? {
      OwnVote(h, i, s);
    }
    GrantLocal(h, i, a.term, a.cand);
    IndicesKept(h, h', s, s');
  }

  lemma RefuseNode(h: State, i: nat, s: Node, s': Node, a: VoteArgs)
    requires VotesOk(h) && At(h, i, s) && NodeOk(h, i, s)
    requires !OnVoteRequest(s, a).1.granted && s' == OnVoteRequest(s, a).0
    ensures s.term <= s'.term && s'.log == s.log && NodeOk(Raise(h, i, s'.term), i, s')
  {
    if a.term > s.term {
      StepDownNode(h, i, s, a.term);
    } else {
      SameTermRaise(h, i, s);
    }
  }

  lemma GrantLegal(c: Cluster, i: nat, s: Node, a: VoteArgs, s': Node, m: Message, c': Cluster)
    requires ActorOk(c, i) && s == c.nodes[i] && CanGrant(c.h, i, a.term, a.cand) && i != a.cand
    requires OnVoteRequest(s, a).1.granted && s' == OnVoteRequest(s, a).0
    requires m == VoteAnswer(i, a.cand, a.term, OnVoteRequest(s, a).1)
    requires c' == Cluster(c.nodes[i := s'], c.msgs + {m}, Grant(c.h, i, a.term, a.cand))
    ensures Legal(c, c')
  {
    var h' := Grant(c.h, i, a.term, a.cand);
    GrantNode(c.h, h', i, s, s', a);
    GrantKeeps(c.h, i, a.term, a.cand);
    GrantLocal(c.h, i, a.term, a.cand);
    assert Moves(c, c', i, s', h', {m});
  }

  lemma RefuseLegal(c: Cluster, i: nat, s: Node, a: VoteArgs, s': Node, m: Message, c': Cluster)
    requires ActorOk(c, i) && s == c.nodes[i]
    requires !OnVoteRequest(s, a).1.granted && s' == OnVoteRequest(s, a).0
    requires m == VoteAnswer(i, a.cand, a.term, OnVoteRequest(s, a).1)
    requires c' == Cluster(c.nodes[i := s'], c.msgs + {m}, Raise(c.h, i, s'.term))
    ensures Legal(c, c')
  {
    RefuseNode(c.h, i, s, s', a);
    RaiseLegal(c, c', i, s', Raise(c.h, i, s'.term), {m});
  }

  /** What answering a vote request does to the cluster. */
  lemma AnsweredVote(c: Cluster, i: nat, cand: nat, term: nat, a: VoteArgs, s': Node, r: VoteReply)
    requires Enabled(c, AnswerVote(i, cand, term)) && i < |c.h.terms|
    requires a == VoteArgsOf(cand, term, c.h.reqs[Key(cand, term)]) && OnVoteRequest(c.nodes[i], a) == (s', r)
    requires r.granted ==> CanGrant(c.h, i, term, cand)
    ensures After(c, AnswerVote(i, cand, term))
         == Cluster(c.nodes[i := s'], c.msgs + {VoteAnswer(i, cand, term, r)},
                    if r.granted then Grant(c.h, i, term, cand) else Raise(c.h, i, s'.term))
  {}

  lemma AnswerVoteStep(c: Cluster, i: nat, cand: nat, term: nat)
    requires ActorOk(c, i) && Enabled(c, AnswerVote(i, cand, term))
    ensures Legal(c, After(c, AnswerVote(i, cand, term)))
  {
    var s := c.nodes[i];
    var log := c.h.reqs[Key(cand, term)];
    var a := VoteArgsOf(cand, term, log);
    var (s', r) := OnVoteRequest(s, a);
    var m := VoteAnswer(i, cand, term, r);
    if r.granted {
      GrantAllowed(c.h, i, s, a, log);
      AnsweredVote(c, i, cand, term, a, s', r);
      GrantLegal(c, i, s, a, s', m, Cluster(c.nodes[i := s'], c.msgs + {m}, Grant(c.h, i, term, cand)));
    } else {
      AnsweredVote(c, i, cand, term, a, s', r);
      RefuseLegal(c, i, s, a, s', m, Cluster(c.nodes[i := s'], c.msgs + {m}, Raise(c.h, i, s'.term)));
    }
  }

  /** A majority of votes in a term where nobody has won yet. */
  lemma WinnerUnique(h: State, i: nat, s: Node, q: set<nat>)
    requires ReignsOk(h) && At(h, i, s) && CandidateOk(h, i, s) && s.role.Candidate?
    requires Majority(|h.terms|, q) && forall v :: v in q ==> VotedFor(h, v, s.term, i)
    ensures CanElect(h, i, s.term, q)
  {
    if s.term in h.reigns {
      assert ReignOk(h, s.term);
      var v := Intersect(|h.terms|, q, h.reigns[s.term].voters);
    }
  }

  lemma LeaderFresh(h: State, i: nat, s: Node)
    requires At(h, i, s) && CandidateOk(h, i, s) && s.role.Candidate?
    requires CanElect(h, i, s.term, s.votes)
    ensures LeaderOk(Elect(h, i, s.term, s.votes), i, Lead(s, |h.terms|))
  {
    var h', s' := Elect(h, i, s.term, s.votes), Lead(s, |h.terms|);
    forall p: nat | p < |s'.next|
      ensures PeerOk(h', s', p)
    {}
  }

  lemma WinNode(h: State, i: nat, s: Node)
    requires Shape(h) && VotesOk(h) && AcksOk(h) && At(h, i, s) && NodeOk(h, i, s) && s.role.Candidate?
    requires CanElect(h, i, s.term, s.votes)
    ensures NodeOk(Elect(h, i, s.term, s.votes), i, Lead(s, |h.terms|))
  {
    var h', s' := Elect(h, i, s.term, s.votes), Lead(s, |h.terms|);
    ElectGrows(h, i, s.term, s.votes);
    LeaderFresh(h, i, s);
    IndicesKept(h, h', s, s');
  }

  lemma CountedNode(h: State, i: nat, s: Node, peer: nat)
    requires At(h, i, s) && NodeOk(h, i, s) && s.role.Candidate?
    requires peer < |h.terms| && VotedFor(h, peer, s.term, i)
    ensures NodeOk(h, i, s.(votes := s.votes + {peer}))
  {
    var s' := s.(votes := s.votes + {peer});
    forall r | r in s'.rounds
      ensures RoundOk(h, s', r)
    {
      assert RoundOk(h, s, r);
    }
  }

  lemma WinMove(h: State, i: nat, s: Node, s': Node, peer: nat, r: VoteReply)
    requires Inv(h) && At(h, i, s) && NodeOk(h, i, s) && s.role.Candidate?
    requires peer < |h.terms| && VotedFor(h, peer, s.term, i) && r.granted && r.term <= s.term
    requires s' == OnVoteReply(s, |h.terms|, s.term, peer, r) && s'.role.Leader?
    ensures CanElect(h, i, s.term, s'.votes)
    ensures NodeOk(Elect(h, i, s.term, s'.votes), i, s')
  {
    CountedNode(h, i, s, peer);
    var s1 := s.(votes := s.votes + {peer});
    WinnerUnique(h, i, s1, s1.votes);
    WinNode(h, i, s1);
  }

  lemma CountNode(h: State, i: nat, s: Node, s': Node, term: nat, peer: nat, r: VoteReply)
    requires VotesOk(h) && At(h, i, s) && NodeOk(h, i, s)
    requires peer < |h.terms| && (r.granted ==> VotedFor(h, peer, term, i))
    requires s' == OnVoteReply(s, |h.terms|, term, peer, r) && (s'.role.Leader? ==> s.role.Leader?)
    ensures s.term <= s'.term && s'.log == s.log && NodeOk(Raise(h, i, s'.term), i, s')
  {
    SameTermRaise(h, i, s);
    if s'.term > s.term {
      StepDownNode(h, i, s, r.term);
    } else if s' != s {
      CountedNode(h, i, s, peer);
    }
  }

  lemma WonStep(c: Cluster, i: nat, s': Node, from: nat, term: nat, r: VoteReply)
    requires ActorOk(c, i) && |c.h.terms| == |c.nodes| && from < |c.nodes| && (r.granted ==> VotedFor(c.h, from, term, i))
    requires Enabled(c, CountVote(VoteAnswer(from, i, term, r)))
    requires s' == OnVoteReply(c.nodes[i], |c.nodes|, term, from, r) && s'.role.Leader? && !c.nodes[i].role.Leader?
    ensures Legal(c, After(c, CountVote(VoteAnswer(from, i, term, r))))
  {
    WinMove(c.h, i, c.nodes[i], s', from, r);
    ElectKeeps(c.h, i, term, s'.votes);
    ElectLocal(c.h, i, term, s'.votes);
    assert Moves(c, After(c, CountVote(VoteAnswer(from, i, term, r))), i, s', Elect(c.h, i, term, s'.votes), {});
  }

  lemma NotWonAfter(c: Cluster, i: nat, s': Node, from: nat, term: nat, r: VoteReply)
    requires Enabled(c, CountVote(VoteAnswer(from, i, term, r))) && i < |c.nodes| == |c.h.terms|
    requires s' == OnVoteReply(c.nodes[i], |c.nodes|, term, from, r) && (s'.role.Leader? ==> c.nodes[i].role.Leader?)
    ensures After(c, CountVote(VoteAnswer(from, i, term, r)))
         == Cluster(c.nodes[i := s'], c.msgs + {}, Raise(c.h, i, s'.term))
  {}

  lemma NotWonStep(c: Cluster, i: nat, s': Node, from: nat, term: nat, r: VoteReply)
    requires ActorOk(c, i) && |c.h.terms| == |c.nodes| && from < |c.nodes| && (r.granted ==> VotedFor(c.h, from, term, i))
    requires Enabled(c, CountVote(VoteAnswer(from, i, term, r)))
    requires s' == OnVoteReply(c.nodes[i], |c.nodes|, term, from, r) && (s'.role.Leader? ==> c.nodes[i].role.Leader?)
    ensures Legal(c, After(c, CountVote(VoteAnswer(from, i, term, r))))
  {
    CountNode(c.h, i, c.nodes[i], s', term, from, r);
    NotWonAfter(c, i, s', from, term, r);
    RaiseLegal(c, After(c, CountVote(VoteAnswer(from, i, term, r))), i, s', Raise(c.h, i, s'.term), {});
  }

  lemma CountVoteStep(c: Cluster, i: nat, from: nat, term: nat, r: VoteReply)
    requires ActorOk(c, i) && |c.h.terms| == |c.nodes| && MessageOk(c.h, VoteAnswer(from, i, term, r))
    requires Enabled(c, CountVote(VoteAnswer(from, i, term, r)))
    ensures Legal(c, After(c, CountVote(VoteAnswer(from, i, term, r))))
  {
    var s' := OnVoteReply(c.nodes[i], |c.nodes|, term, from, r);
    if s'.role.Leader? && !c.nodes[i].role.Leader? {
      WonStep(c, i, s', from, term, r);
    } else {
      NotWonStep(c, i, s', from, term, r);
    }
  }
}
