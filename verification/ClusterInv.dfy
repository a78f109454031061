/** The invariant of a cluster, per server and per message. */
module ClusterInv {
  import opened RaftTypes
  import opened RaftNode
  import opened History
  import opened Cluster
  import opened Quorum

  /** A log prefix that was committed in a term no later than t. */
  ghost predicate CommittedBy(h: State, p: Log, t: nat) {
    p == [] || exists u: nat, n: nat :: Covers(h, p, t, u, n)
  }

  ghost predicate Covers(h: State, p: Log, t: nat, u: nat, n: nat) {
    u <= t && Committed(h, u, n) && p <= h.reigns[u].log[..n]
  }

  /** The history knows every server's term and log. */
  ghost predicate Sync(c: Cluster) {
    && |c.h.terms| == |c.nodes| && |c.h.logs| == |c.nodes|
    && forall i: nat :: i < |c.nodes| ==> At(c.h, i, c.nodes[i])
  }

  ghost predicate At(h: State, i: nat, s: Node) {
    i < |h.terms| && |h.logs| == |h.terms| && h.terms[i] == s.term && h.logs[i] == s.log
  }

  /** Within a term, votedFor only goes from nobody to the one candidate voted for. */
  ghost predicate VoteOk(h: State, i: nat, s: Node) {
    Key(i, s.term) in h.votes ==> s.votedFor == h.votes[Key(i, s.term)]
  }

  ghost predicate CandidateOk(h: State, i: nat, s: Node) {
    s.role.Candidate? ==>
      && Key(i, s.term) in h.reqs && h.reqs[Key(i, s.term)] == s.log
      && s.votes <= Servers(|h.terms|)
      && (forall v :: v in s.votes ==> VotedFor(h, v, s.term, i))
      && !(s.term in h.reigns && h.reigns[s.term].leader == i)
  }

  /** What a leader believes about peer p is true, and within its log. */
  ghost predicate PeerOk(h: State, s: Node, p: nat)
    requires p < |s.next| == |s.matched|
  {
    && 1 <= s.next[p] <= |s.log| + 1
    && s.matched[p] <= |s.log| && s.matched[p] <= Acked(h, p, s.term)
  }

  ghost predicate LeaderOk(h: State, i: nat, s: Node) {
    s.role.Leader? ==>
      && s.term in h.reigns && h.reigns[s.term].leader == i && h.reigns[s.term].log == s.log
      && |s.next| == |s.matched| == |h.terms|
      && forall p: nat :: p < |s.next| ==> PeerOk(h, s, p)
  }

  ghost predicate IndicesOk(s: Node) {
    s.snap <= s.applied <= s.commit <= |s.log|
  }

  ghost predicate CommitOk(h: State, s: Node)
    requires IndicesOk(s)
  {
    CommittedBy(h, s.log[..s.commit], s.term)
  }

  ghost predicate RoundOk(h: State, s: Node, r: Round)
    requires IndicesOk(s)
  {
    r.term <= s.term && r.commit <= s.commit && CommittedBy(h, s.log[..r.commit], r.term)
  }

  ghost predicate NodeOk(h: State, i: nat, s: Node) {
    && VoteOk(h, i, s) && CandidateOk(h, i, s) && LeaderOk(h, i, s)
    && IndicesOk(s) && CommitOk(h, s)
    && forall r :: r in s.rounds ==> RoundOk(h, s, r)
  }

  /** A shipment carries a slice of the log of reign src, labelled with a term up to src. */
  ghost predicate ShipmentOk(h: State, src: nat, a: AppendArgs) {
    && src in h.reigns && a.term <= src
    && a.leader == h.reigns[src].leader && a.leader < |h.terms| && src <= h.terms[a.leader]
    && var log := h.reigns[src].log;
    && a.leaderCommit <= LastSent(a) <= |log|
    && a.prevTerm == TermAt(log, a.prev)
    && a.entries == log[a.prev..LastSent(a)]
    && CommittedBy(h, log[..a.leaderCommit], a.term)
  }

  ghost predicate AnswerOk(h: State, from: nat, src: nat, a: AppendArgs, r: AppendReply)
    requires ShipmentOk(h, src, a)
  {
    && (r.success ==> r.term == a.term)
    && (r.success && a.term == src ==> Acked(h, from, src) >= LastSent(a))
    && r.conflictIndex <= |h.reigns[src].log| + 1
  }

  ghost predicate MessageOk(h: State, m: Message) {
    match m
    case VoteAnswer(from, cand, term, r) =>
      from < |h.terms| && (r.granted ==> VotedFor(h, from, term, cand))
    case Shipment(_, src, a) => ShipmentOk(h, src, a)
    case ShipmentAnswer(from, src, a, r) => ShipmentOk(h, src, a) && AnswerOk(h, from, src, a, r)
  }

  ghost predicate NodesOk(c: Cluster) {
    forall i: nat :: i < |c.nodes| ==> NodeOk(c.h, i, c.nodes[i])
  }

  ghost predicate MessagesOk(c: Cluster) {
    forall m :: m in c.msgs ==> MessageOk(c.h, m)
  }

  ghost predicate ClusterOk(c: Cluster) {
    Sync(c) && Inv(c.h) && NodesOk(c) && MessagesOk(c)
  }
}
