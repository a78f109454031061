/**
 One Raft peer on values: its state over an uncompacted log, and what each handler of
 internal/raft/raft.go makes of it. The class in RaftServer.dfy runs the same handlers on
 an offset log; the cluster in Cluster.dfy composes them.
 */
module RaftNode {
  import opened Commands
  import opened RaftTypes

  datatype Role = Follower | Candidate | Leader

  /** The term and commit index that one heartbeat round reads before it builds messages. */
  datatype Round = Round(term: nat, commit: nat)

  /**
   term, votedFor, log, snap are durable (snap is lastIncludedIndex); the rest is volatile.
   votes holds the servers whose votes the running election has counted.
   */
  datatype Node = Node(
    term: nat,
    votedFor: int,
    log: Log,
    snap: nat,
    commit: nat,
    applied: nat,
    role: Role,
    votes: set<nat>,
    next: seq<nat>,
    matched: seq<nat>,
    rounds: set<Round>)

  const NOBODY := -1
  const NO_TERM := -1

  datatype VoteArgs = VoteArgs(term: nat, cand: nat, lastIndex: nat, lastTerm: nat)
  datatype VoteReply = VoteReply(term: nat, granted: bool)
  datatype AppendArgs = AppendArgs(
    term: nat, leader: nat, prev: nat, prevTerm: nat, entries: seq<Entry>, leaderCommit: nat)
  datatype AppendReply = AppendReply(term: nat, success: bool, conflictTerm: int, conflictIndex: nat)

  /** The last index a message's entries reach. */
  function LastSent(a: AppendArgs): nat {
    a.prev + |a.entries|
  }

  const FRESH := Node(0, NOBODY, [], 0, 0, 0, Follower, {}, [], [], {})

  /** A leader keeps one next and one matched index per server. */
  predicate Sized(s: Node, n: nat) {
    s.role.Leader? ==> |s.next| == n && |s.matched| == n
  }

  // ----- Elections -----

  function StepDown(s: Node, term: nat): Node {
    s.(term := term, role := Follower, votedFor := NOBODY)
  }

  function OnVoteRequest(s: Node, a: VoteArgs): (Node, VoteReply) {
    if a.term < s.term then
      (s, VoteReply(s.term, false))
    else
      var s1 := if a.term > s.term then StepDown(s, a.term) else s;
      if (s1.votedFor != NOBODY && s1.votedFor != a.cand) || !UpToDate(a.lastTerm, a.lastIndex, s1.log) then
        (s1, VoteReply(s.term, false))
      else
        (s1.(votedFor := a.cand), VoteReply(s.term, true))
  }

  function OnElectionTimeout(s: Node, me: nat): Node {
    s.(role := Candidate, term := s.term + 1, votedFor := me, votes := {me})
  }

  function VoteArgsOf(cand: nat, term: nat, log: Log): VoteArgs {
    VoteArgs(term, cand, |log|, LastTerm(log))
  }

  function Lead(s: Node, n: nat): Node {
    s.(role := Leader, next := seq(n, i => |s.log| + 1), matched := seq(n, i => 0))
  }

  function OnVoteReply(s: Node, n: nat, electionTerm: nat, peer: nat, r: VoteReply): Node {
    if s.term != electionTerm || !s.role.Candidate? then
      s
    else if r.term > s.term then
      StepDown(s, r.term)
    else if !r.granted then
      s
    else
      var s1 := s.(votes := s.votes + {peer});
      if |s1.votes| >= n / 2 + 1 then Lead(s1, n) else s1
  }

  // ----- Replication, follower side -----

  /** Keep what agrees with the sent entries, cut at the first conflict, append the rest. */
  function Merge(log: Log, prev: nat, entries: seq<Entry>): Log
    requires prev <= |log|
    decreases |entries|
  {
    if entries == [] then log
    else if prev == |log| then log + entries
    else if log[prev].term != entries[0].term then log[..prev] + entries
    else Merge(log, prev + 1, entries[1..])
  }

  /** The first index of the run of equal terms that ends at k, not walking into the snapshot. */
  function RunStart(log: Log, snap: nat, k: nat): nat
    requires k <= |log|
  {
    if k > snap + 1 && TermAt(log, k - 1) == TermAt(log, k) then RunStart(log, snap, k - 1) else k
  }

  function OnAppend(s: Node, a: AppendArgs): (Node, AppendReply) {
    if a.term < s.term then
      (s, AppendReply(s.term, false, NO_TERM, 0))
    else
      var s1 := s.(role := Follower, term := a.term);
      if a.prev < s.snap then
        (s1, AppendReply(a.term, false, NO_TERM, s.snap + 1))
      else if a.prev > |s.log| then
        (s1, AppendReply(a.term, false, NO_TERM, |s.log| + 1))
      else if TermAt(s.log, a.prev) != a.prevTerm then
        (s1, AppendReply(a.term, false, TermAt(s.log, a.prev), RunStart(s.log, s.snap, a.prev)))
      else
        var lastNew := LastSent(a);
        var commit := if a.leaderCommit <= s.commit then s.commit
                      else if a.leaderCommit < lastNew then a.leaderCommit else lastNew;
        (s1.(log := Merge(s.log, a.prev, a.entries), commit := commit), AppendReply(a.term, true, NO_TERM, 0))
  }

  // ----- Replication, leader side -----

  function OnStart(s: Node, cmd: Command): Node {
    if s.role.Leader? then s.(log := s.log + [Entry(s.term, Some(cmd))]) else s
  }

  function OnRound(s: Node): Node {
    s.(rounds := s.rounds + {Round(s.term, s.commit)})
  }

  /** The slice taken for a peer is within the log the leader still holds. */
  predicate CanShip(s: Node, peer: nat) {
    && s.role.Leader? && peer < |s.next| && s.snap < s.next[peer] <= |s.log| + 1
  }

  function AppendArgsFor(s: Node, me: nat, peer: nat, round: Round): AppendArgs
    requires CanShip(s, peer)
  {
    var prev := s.next[peer] - 1;
    AppendArgs(round.term, me, prev, TermAt(s.log, prev), s.log[prev..], round.commit)
  }

  /** One past the last index above snap, and at most j, whose term is t; or -1. */
  function PastLastOf(log: Log, snap: nat, t: int, j: nat): int
    requires j <= |log|
  {
    if j <= snap then -1
    else if TermAt(log, j) == t then j + 1
    else PastLastOf(log, snap, t, j - 1)
  }

  function BackUp(log: Log, snap: nat, r: AppendReply): nat {
    var past := if r.conflictTerm == NO_TERM then -1 else PastLastOf(log, snap, r.conflictTerm, |log|);
    var next := if past == -1 then r.conflictIndex else past;
    if next < 1 then 1 else next
  }

  /** The number of servers other than me, numbered below i, known to hold index k. */
  function Holders(matched: seq<nat>, me: nat, k: nat, i: nat): nat
    requires i <= |matched|
  {
    if i == 0 then 0
    else Holders(matched, me, k, i - 1) + if i - 1 != me && matched[i - 1] >= k then 1 else 0
  }

  predicate CanCommit(s: Node, me: nat, k: nat)
    requires k <= |s.log|
  {
    TermAt(s.log, k) == s.term && 1 + Holders(s.matched, me, k, |s.matched|) >= |s.matched| / 2 + 1
  }

  /** The commit index after looking at indices commit+1..k in turn. */
  function ScanCommit(s: Node, me: nat, k: nat): nat
    requires s.commit <= k <= |s.log|
  {
    if k == s.commit then s.commit
    else if CanCommit(s, me, k) then k
    else ScanCommit(s, me, k - 1)
  }

  function AdvanceCommit(s: Node, me: nat): Node {
    if s.commit <= |s.log| then s.(commit := ScanCommit(s, me, |s.log|)) else s
  }

  function OnAppendReply(s: Node, me: nat, peer: nat, a: AppendArgs, r: AppendReply): Node
    requires s.role.Leader? ==> peer < |s.next| == |s.matched|
  {
    if !s.role.Leader? || s.term != a.term then
      s
    else
      var s1 := if r.term > s.term then StepDown(s, r.term) else s;
      if r.success then
        var newMatch := LastSent(a);
        var m := if newMatch > s.matched[peer] then newMatch else s.matched[peer];
        AdvanceCommit(s1.(matched := s.matched[peer := m], next := s.next[peer := m + 1]), me)
      else
        s1.(next := s.next[peer := BackUp(s.log, s.snap, r)])
  }

  // ----- Compaction, delivery, restart -----

  function OnSnapshot(s: Node, index: nat): Node {
    if index <= s.snap then s else s.(snap := index)
  }

  /** One turn of the apply loop; an index inside the snapshot is skipped, not delivered. */
  function OnDeliver(s: Node): Node {
    s.(applied := if s.applied + 1 <= s.snap then s.snap else s.applied + 1)
  }

  /** The snapshot a leader sends; prefix is the log the snapshot stands for. */
  datatype InstallArgs = InstallArgs(term: nat, leader: nat, index: nat, lastTerm: nat, data: Option<StoreState>)

  /** The suffix beyond the snapshot is kept without looking at the term in front of it. */
  function Installed(log: Log, prefix: Log): Log {
    if |prefix| <= |log| then prefix + log[|prefix|..] else prefix
  }

  function OnInstall(s: Node, a: InstallArgs, prefix: Log): Node {
    if a.term < s.term then
      s
    else
      var s1 := (if a.term > s.term then s.(term := a.term, votedFor := NOBODY) else s).(role := Follower);
      if a.index <= s.snap then
        s1
      else
        s1.(log := Installed(s.log, prefix), snap := a.index,
            commit := if s.commit < a.index then a.index else s.commit,
            applied := if s.applied < a.index then a.index else s.applied)
  }

  function OnRestart(s: Node): Node {
    FRESH.(term := s.term, votedFor := s.votedFor, log := s.log, snap := s.snap, commit := s.snap, applied := s.snap)
  }
}
