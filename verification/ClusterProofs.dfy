/**
 What a step of one server leaves true of every other server and of every message: the framing part
 of the invariant proof.
 */
module ClusterProofs {
  import opened RaftTypes
  import opened RaftNode
  import opened History
  import opened HistoryProofs
  import opened Cluster
  import opened ClusterInv

  // ----- Facts that persist -----

  lemma CommittedByGrows(h: State, h': State, p: Log, p': Log, t: nat, t': nat)
    requires Remembers(h, h') && CommittedBy(h, p, t) && p' <= p && t <= t'
    ensures CommittedBy(h', p', t')
  {
    if p' != [] {
      var u: nat, n: nat :| Covers(h, p, t, u, n);
      CommittedGrows(h, h', u, n);
      assert Covers(h', p', t', u, n);
    }
  }

  /** A prefix committed by term t is in the log of every reign from t on. */
  lemma CommittedByInReign(h: State, p: Log, t: nat, w: nat)
    requires ReignsOk(h) && CompleteOk(h) && CommittedBy(h, p, t) && w in h.reigns && t <= w
    ensures p <= h.reigns[w].log
  {
    if p != [] {
      var u: nat, n: nat :| Covers(h, p, t, u, n);
      CommittedInReign(h, u, n, w);
    }
  }

  lemma ShipmentKept(h: State, h': State, src: nat, a: AppendArgs)
    requires Grows(h, h') && ShipmentOk(h, src, a)
    ensures ShipmentOk(h', src, a) && h.reigns[src].log <= h'.reigns[src].log
  {
    var log, log' := h.reigns[src].log, h'.reigns[src].log;
    assert ReignGrows(h.reigns[src], h'.reigns[src]);
    assert log'[..a.leaderCommit] == log[..a.leaderCommit];
    CommittedByGrows(h, h', log[..a.leaderCommit], log[..a.leaderCommit], a.term, a.term);
    assert log'[a.prev..LastSent(a)] == log[a.prev..LastSent(a)];
  }

  lemma MessageKept(h: State, h': State, m: Message)
    requires Grows(h, h') && VotesGrow(h, h') && MessageOk(h, m)
    ensures MessageOk(h', m)
  {
    match m {
      case VoteAnswer(_, _, _, _) =>
      case Shipment(_, src, a) => ShipmentKept(h, h', src, a);
      case ShipmentAnswer(from, src, a, _) => ShipmentKept(h, h', src, a);
    }
  }

  lemma LeaderKept(h: State, h': State, i: nat, j: nat, s: Node)
    requires Local(h, h', i) && i != j && LeaderOk(h, j, s)
    ensures LeaderOk(h', j, s)
  {
    if s.role.Leader? {
      assert ReignGrows(h.reigns[s.term], h'.reigns[s.term]);
      forall p: nat | p < |s.next|
        ensures PeerOk(h', s, p)
      {
        assert PeerOk(h, s, p);
      }
    }
  }

  lemma CandidateKept(h: State, h': State, i: nat, j: nat, s: Node)
    requires Local(h, h', i) && i != j && CandidateOk(h, j, s)
    ensures CandidateOk(h', j, s)
  {
    if s.role.Candidate? {
      forall v | v in s.votes
        ensures VotedFor(h', v, s.term, j)
      {
        assert VotedFor(h, v, s.term, j);
      }
    }
  }

  /** The committed part and the open rounds of a server that kept its committed prefix. */
  lemma IndicesKept(h: State, h': State, s: Node, s': Node)
    requires Grows(h, h') && IndicesOk(s) && IndicesOk(s') && CommitOk(h, s)
    requires s.term <= s'.term && s.commit <= s'.commit && s.log[..s.commit] <= s'.log
    requires s'.rounds == s.rounds && forall r :: r in s.rounds ==> RoundOk(h, s, r)
    requires s'.commit == s.commit || CommitOk(h', s')
    ensures CommitOk(h', s') && forall r :: r in s'.rounds ==> RoundOk(h', s', r)
  {
    if s'.commit == s.commit {
      assert s'.log[..s.commit] == s.log[..s.commit];
      CommittedByGrows(h, h', s.log[..s.commit], s'.log[..s.commit], s.term, s'.term);
    }
    forall r | r in s'.rounds
      ensures RoundOk(h', s', r)
    {
      assert RoundOk(h, s, r);
      assert s'.log[..r.commit] == s.log[..r.commit];
      CommittedByGrows(h, h', s.log[..r.commit], s'.log[..r.commit], r.term, r.term);
    }
  }

  lemma OtherKept(h: State, h': State, i: nat, j: nat, s: Node)
    requires Local(h, h', i) && i != j && NodeOk(h, j, s)
    ensures NodeOk(h', j, s)
  {
    LeaderKept(h, h', i, j, s);
    CandidateKept(h, h', i, j, s);
    IndicesKept(h, h', s, s);
  }

  lemma NodesFrame(c: Cluster, i: nat, s': Node, h': State)
    requires Sync(c) && NodesOk(c) && i < |c.nodes| && Local(c.h, h', i)
    requires NodeOk(h', i, s') && At(h', i, s')
    ensures var c' := c.(nodes := c.nodes[i := s'], h := h'); Sync(c') && NodesOk(c')
  {
    var c' := c.(nodes := c.nodes[i := s'], h := h');
    forall j: nat | j < |c'.nodes|
      ensures At(c'.h, j, c'.nodes[j]) && NodeOk(c'.h, j, c'.nodes[j])
    {
      assert At(c.h, j, c.nodes[j]) && NodeOk(c.h, j, c.nodes[j]);
      if j != i {
        OtherKept(c.h, c'.h, i, j, c.nodes[j]);
      }
    }
  }

  lemma MessagesFrame(c: Cluster, h': State, sent: set<Message>)
    requires MessagesOk(c) && Grows(c.h, h') && VotesGrow(c.h, h')
    requires forall m :: m in sent ==> MessageOk(h', m)
    ensures forall m :: m in c.msgs + sent ==> MessageOk(h', m)
  {
    forall m | m in c.msgs + sent
      ensures MessageOk(h', m)
    {
      if m in c.msgs {
        MessageKept(c.h, h', m);
      }
    }
  }

  /** What one server did: a history move, its own new state, and true messages. */
  ghost predicate Moves(c: Cluster, c': Cluster, i: nat, s': Node, h': State, sent: set<Message>) {
    && i < |c.nodes| && Inv(h') && Local(c.h, h', i)
    && At(h', i, s') && NodeOk(h', i, s')
    && (forall m :: m in sent ==> MessageOk(h', m))
    && c' == Cluster(c.nodes[i := s'], c.msgs + sent, h')
  }

  ghost predicate Legal(c: Cluster, c': Cluster) {
    exists i: nat, s': Node, h': State, sent: set<Message> :: Moves(c, c', i, s', h', sent)
  }

  /** What a step may use about the server it runs on. */
  ghost predicate ActorOk(c: Cluster, i: nat) {
    i < |c.nodes| && Inv(c.h) && At(c.h, i, c.nodes[i]) && NodeOk(c.h, i, c.nodes[i])
  }

  lemma LegalKeeps(c: Cluster, c': Cluster)
    requires ClusterOk(c) && Legal(c, c')
    ensures ClusterOk(c')
  {
    var i: nat, s': Node, h': State, sent: set<Message> :| Moves(c, c', i, s', h', sent);
    NodesFrame(c, i, s', h');
    MessagesFrame(c, h', sent);
  }
}
