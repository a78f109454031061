/**
 What the handlers of one peer must do, said without the functions they are made of: when a vote is
 granted, who steps down, and where an answer moves a leader's indices.
 */
module Handlers {
  import opened RaftTypes
  import opened RaftNode
  import opened Backup

  // ----- Votes -----

  /** A candidate that asks with its own log. */
  function Asking(a: Node, cand: nat, term: nat): VoteArgs {
    VoteArgs(term, cand, |a.log|, TermAt(a.log, |a.log|))
  }

  /** Nothing but its log keeps a server from voting for the candidate in this term. */
  predicate MayVote(s: Node, term: nat, cand: nat) {
    s.term < term || (s.term == term && (s.votedFor == NOBODY || s.votedFor == cand))
  }

  /**
   A vote is granted exactly if nothing else stands against it and the candidate's log ends in a
   later term, or in the same term and is no shorter.
   */
  lemma GrantedExactly(s: Node, a: VoteArgs)
    ensures OnVoteRequest(s, a).1.granted <==>
      && MayVote(s, a.term, a.cand)
      && (a.lastTerm > TermAt(s.log, |s.log|) || (a.lastTerm == TermAt(s.log, |s.log|) && a.lastIndex >= |s.log|))
  {}

  /** Of any two servers at least one can have the other's vote: no pair of logs refuses both ways. */
  lemma EitherGrants(a: Node, b: Node, i: nat, j: nat, term: nat)
    requires MayVote(a, term, j) && MayVote(b, term, i)
    ensures OnVoteRequest(b, Asking(a, i, term)).1.granted || OnVoteRequest(a, Asking(b, j, term)).1.granted
  {
    GrantedExactly(b, Asking(a, i, term));
    GrantedExactly(a, Asking(b, j, term));
  }

  // ----- Terms spread -----

  /** Whoever is asked or sent entries in a later term ends in that term as a follower. */
  lemma LaterTermTaken(s: Node, v: VoteArgs, a: AppendArgs)
    ensures v.term > s.term ==> OnVoteRequest(s, v).0.term == v.term && OnVoteRequest(s, v).0.role == Follower
    ensures a.term >= s.term ==> OnAppend(s, a).0.term == a.term && OnAppend(s, a).0.role == Follower
  {}

  /** A candidate that asks a server of a later term is refused, and the answer makes it a follower there. */
  lemma StaleCandidateStepsDown(c: Node, s: Node, n: nat, peer: nat, a: VoteArgs)
    requires c.role.Candidate? && a.term == c.term < s.term
    ensures OnVoteRequest(s, a).0 == s && !OnVoteRequest(s, a).1.granted
    ensures OnVoteReply(c, n, a.term, peer, OnVoteRequest(s, a).1)
         == c.(term := s.term, role := Follower, votedFor := NOBODY)
  {}

  /** So does a leader that sends entries to a server of a later term. */
  lemma StaleLeaderStepsDown(l: Node, s: Node, me: nat, peer: nat, a: AppendArgs, l': Node)
    requires l.role.Leader? && peer < |l.next| == |l.matched| && a.term == l.term < s.term
    requires l' == OnAppendReply(l, me, peer, a, OnAppend(s, a).1)
    ensures OnAppend(s, a).0 == s && !OnAppend(s, a).1.success
    ensures l'.role == Follower && l'.term == s.term && l'.votedFor == NOBODY
    ensures l'.log == l.log && l'.commit == l.commit && l'.applied == l.applied && l'.snap == l.snap
  {}

  // ----- Where an answer moves a leader's indices -----

  /** A leader's message to a peer that is not ahead of it in terms, and what the answer makes of the leader. */
  ghost predicate Answered(s: Node, f: Node, me: nat, peer: nat, a: AppendArgs, s': Node) {
    && s.role.Leader? && peer < |s.next| == |s.matched| && s.term == a.term && f.term <= a.term
    && a.prev <= |s.log| && a.prevTerm == TermAt(s.log, a.prev) && f.snap <= |f.log|
    && s' == OnAppendReply(s, me, peer, a, OnAppend(f, a).1)
  }

  /**
   A rejection moves nextIndex back, past nothing but indices at which the logs differ; nothing else
   about the leader changes.
   */
  lemma RejectionMovesBack(s: Node, f: Node, me: nat, peer: nat, a: AppendArgs, s': Node)
    requires Answered(s, f, me, peer, a, s') && Kindred(s.log, f.log) && f.snap <= a.prev
    requires !OnAppend(f, a).1.success
    ensures peer < |s'.next| && s' == s.(next := s.next[peer := s'.next[peer]]) && 1 <= s'.next[peer] <= a.prev
    ensures forall k: nat :: s'.next[peer] <= k <= a.prev && s.snap < k ==>
      k > |f.log| || TermAt(f.log, k) != TermAt(s.log, k)
  {
    BackUpSkipsRejects(s.log, s.snap, f, a, OnAppend(f, a).1, s'.next[peer]);
    forall k: nat | s'.next[peer] <= k <= a.prev && s.snap < k
      ensures k > |f.log| || TermAt(f.log, k) != TermAt(s.log, k)
    {
      assert Rejects(s.log, f.log, k);
    }
  }

  /** A message that starts before what the peer has compacted moves nextIndex up to just behind that. */
  lemma RejectionMovesUp(s: Node, f: Node, me: nat, peer: nat, a: AppendArgs, s': Node)
    requires Answered(s, f, me, peer, a, s') && a.prev < f.snap
    ensures !OnAppend(f, a).1.success && s' == s.(next := s.next[peer := f.snap + 1])
  {}

  /** An acceptance raises matchIndex to what was sent, never lowers it, and sets nextIndex one past it. */
  lemma AcceptanceMovesUp(s: Node, f: Node, me: nat, peer: nat, a: AppendArgs, s': Node)
    requires Answered(s, f, me, peer, a, s') && OnAppend(f, a).1.success
    ensures |s'.next| == |s'.matched| == |s.next|
    ensures s'.matched[peer] == if s.matched[peer] < a.prev + |a.entries| then a.prev + |a.entries| else s.matched[peer]
    ensures s'.next[peer] == s'.matched[peer] + 1
    ensures forall p: nat :: p < |s.next| && p != peer ==> s'.matched[p] == s.matched[p] && s'.next[p] == s.next[p]
    ensures s'.role == s.role && s'.term == s.term && s'.log == s.log
  {}

  /** A check succeeds exactly if the peer has the index, not compacted away, with that term. */
  lemma AcceptedExactly(f: Node, a: AppendArgs)
    requires f.snap <= |f.log|
    ensures OnAppend(f, a).1.success <==>
      f.term <= a.term && f.snap <= a.prev <= |f.log| && TermAt(f.log, a.prev) == a.prevTerm
  {}

  /** A follower that accepts has committed what the leader had, if the message reaches that far. */
  lemma AcceptanceCommits(f: Node, a: AppendArgs)
    requires OnAppend(f, a).1.success && a.leaderCommit <= a.prev + |a.entries|
    ensures OnAppend(f, a).0.commit == if f.commit < a.leaderCommit then a.leaderCommit else f.commit
  {}

  // ----- Compaction -----

  /** The snapshot index rises to that of a newer snapshot and never falls; nothing else changes. */
  lemma SnapshotRaises(s: Node, index: nat)
    ensures OnSnapshot(s, index) == s.(snap := if s.snap < index then index else s.snap)
  {}
}
