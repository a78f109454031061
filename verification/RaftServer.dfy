/**
 One Raft peer as the implementation keeps it: an offset log that starts with a sentinel at
 lastIncludedIndex, updated in place by handlers that run one at a time under a lock. Every
 handler is proved to do to the uncompacted log what RaftNode says.
 */
module RaftServer {
  import opened Commands
  import opened RaftTypes
  import opened RaftNode

  /** What is saved as raft state; the encoding of its fields is not modelled. */
  datatype Saved = Saved(currentTerm: nat, votedFor: int, log: seq<Entry>, lastIncludedIndex: nat, lastIncludedTerm: nat)

  const SENTINEL := Entry(0, None)

  /** Holds a server's durable state; both parts are saved in one action. */
  class Persister {
    var raftState: Option<Saved>
    var snapshot: Option<StoreState>

    constructor ()
      ensures raftState == None && snapshot == None
    {
      raftState, snapshot := None, None;
    }

    method Save(state: Saved, snap: Option<StoreState>)
      modifies this
      ensures raftState == Some(state) && snapshot == snap
    {
      raftState, snapshot := Some(state), snap;
    }
  }

  class Server {
    const n: nat
    const me: nat
    const persister: Persister

    var currentTerm: nat
    var votedFor: int
    var log: seq<Entry>
    var lastIncludedIndex: nat
    var lastIncludedTerm: nat

    var commitIndex: nat
    var lastApplied: nat
    var nextIndex: seq<nat>
    var matchIndex: seq<nat>
    var state: Role
    var votes: nat
    var pendingSnapshot: Option<(nat, Option<StoreState>)>

    /** The entries behind the snapshot, the voters counted, the heartbeat rounds begun. */
    ghost var dropped: Log
    ghost var voters: set<nat>
    ghost var rounds: set<Round>

    ghost predicate Valid()
      reads this
    {
      && me < n && |log| >= 1
      && |dropped| == lastIncludedIndex && LastTerm(dropped) == lastIncludedTerm
      && votes == |voters|
      && (state == Leader ==> |nextIndex| == n && |matchIndex| == n)
    }

    ghost function Memory(): Saved
      reads this
    {
      Saved(currentTerm, votedFor, log, lastIncludedIndex, lastIncludedTerm)
    }

    /** A crash now would lose nothing that has to survive one. */
    ghost predicate Durable()
      reads this, persister
    {
      persister.raftState == Some(Memory())
      || (persister.raftState == None && Memory() == Saved(0, NOBODY, [SENTINEL], 0, 0))
    }

    /** The uncompacted log. */
    ghost function FullLog(): Log
      reads this
      requires |log| >= 1
    {
      dropped + log[1..]
    }

    ghost function Abs(): Node
      reads this
      requires |log| >= 1
    {
      Node(currentTerm, votedFor, FullLog(), lastIncludedIndex, commitIndex, lastApplied, state,
           voters, nextIndex, matchIndex, rounds)
    }

    // ----- Index helpers -----

    function LastLogIndex(): (k: nat)
      reads this
      requires Valid()
      ensures k == |FullLog()|
    {
      lastIncludedIndex + |log| - 1
    }

    /** The offset lookup finds the term the uncompacted log has at that index. */
    function LogTerm(k: nat): (t: nat)
      reads this
      requires Valid() && lastIncludedIndex <= k <= LastLogIndex()
      ensures t == TermAt(FullLog(), k)
    {
      if k == lastIncludedIndex then lastIncludedTerm else log[k - lastIncludedIndex].term
    }

    // ----- Durability and restart -----

    method Persist()
      requires Valid()
      modifies persister
      ensures Durable() && persister.snapshot == old(persister.snapshot)
    {
      PersistWithSnapshot(persister.snapshot);
    }

    method PersistWithSnapshot(data: Option<StoreState>)
      requires Valid()
      modifies persister
      ensures Durable() && persister.snapshot == data
    {
      persister.Save(Saved(currentTerm, votedFor, log, lastIncludedIndex, lastIncludedTerm), data);
    }

    /** Boots from what was saved: the state of before, and nothing volatile. */
    constructor (n: nat, me: nat, persister: Persister, ghost before: Node, ghost behind: Log)
      requires me < n
      requires persister.raftState == None ==> before == FRESH && behind == []
      requires persister.raftState.Some? ==>
        var d := persister.raftState.value;
        && |d.log| >= 1 && |behind| == d.lastIncludedIndex && LastTerm(behind) == d.lastIncludedTerm
        && before.term == d.currentTerm && before.votedFor == d.votedFor
        && before.log == behind + d.log[1..] && before.snap == d.lastIncludedIndex
      ensures Valid() && Durable() && fresh(this)
      ensures this.n == n && this.me == me && this.persister == persister
      ensures Abs() == OnRestart(before)
    {
      this.n, this.me, this.persister := n, me, persister;
      currentTerm, votedFor, log, lastIncludedIndex, lastIncludedTerm := 0, NOBODY, [SENTINEL], 0, 0;
      state, votes, voters, rounds := Follower, 0, {}, {};
      nextIndex, matchIndex, pendingSnapshot := [], [], None;
      dropped := behind;
      commitIndex, lastApplied := 0, 0;
      new;
      if persister.raftState.Some? {
        var d := persister.raftState.value;
        currentTerm, votedFor, log := d.currentTerm, d.votedFor, d.log;
        lastIncludedIndex, lastIncludedTerm := d.lastIncludedIndex, d.lastIncludedTerm;
      }
      lastApplied := lastIncludedIndex;
      commitIndex := lastIncludedIndex;
    }

    /** Compaction up to an applied index leaves the uncompacted log as it is. */
    method Snapshot(index: nat, data: Option<StoreState>)
      requires Valid() && Durable() && index <= lastApplied <= LastLogIndex()
      modifies this, persister
      ensures Valid() && Durable()
      ensures Abs() == OnSnapshot(old(Abs()), index)
      ensures persister.snapshot == if index <= old(lastIncludedIndex) then old(persister.snapshot) else data
    {
      if index <= lastIncludedIndex {
        return;
      }
      var newLastIncludedTerm := LogTerm(index);
      ghost var whole := FullLog();
      log := log[index - lastIncludedIndex..];
      log := log[0 := Entry(log[0].term, None)];
      dropped := whole[..index];
      lastIncludedIndex := index;
      lastIncludedTerm := newLastIncludedTerm;
      assert FullLog() == whole;
      PersistWithSnapshot(data);
    }

    // ----- Elections -----

    method RequestVote(a: VoteArgs) returns (r: VoteReply)
      requires Valid() && Durable()
      modifies this, persister
      ensures Valid() && Durable() && persister.snapshot == old(persister.snapshot)
      ensures (Abs(), r) == OnVoteRequest(old(Abs()), a)
    {
      r := VoteReply(currentTerm, false);
      if a.term < currentTerm {
        return;
      }
      if a.term > currentTerm {
        currentTerm := a.term;
        state := Follower;
        votedFor := NOBODY;
        Persist();
      }
      if votedFor != NOBODY && votedFor != a.cand {
        return;
      }
      var lastIndex := LastLogIndex();
      var lastTerm := LogTerm(lastIndex);
      var logOk := a.lastTerm > lastTerm || (a.lastTerm == lastTerm && a.lastIndex >= lastIndex);
      if !logOk {
        return;
      }
      r := r.(granted := true);
      votedFor := a.cand;
      Persist();
    }

    /** Starts an election and asks every other server for its vote. */
    method StartElection() returns (requests: seq<(nat, VoteArgs)>)
      requires Valid() && Durable() && state != Leader
      modifies this, persister
      ensures Valid() && Durable() && persister.snapshot == old(persister.snapshot)
      ensures Abs() == OnElectionTimeout(old(Abs()), me)
      ensures forall peer: nat, a :: (peer, a) in requests <==>
        peer < n && peer != me && a == VoteArgsOf(me, currentTerm, FullLog())
    {
      state := Candidate;
      currentTerm := currentTerm + 1;
      votedFor := me;
      Persist();
      votes, voters := 1, {me};
      requests := [];
      for i := 0 to n
        invariant Valid() && Durable() && Abs() == OnElectionTimeout(old(Abs()), me)
        invariant persister.snapshot == old(persister.snapshot)
        invariant forall peer: nat, a :: (peer, a) in requests <==>
          peer < i && peer != me && a == VoteArgsOf(me, currentTerm, FullLog())
      {
        if i == me {
          continue;
        }
        var lastIdx := LastLogIndex();
        var lastTerm := LogTerm(lastIdx);
        requests := requests + [(i, VoteArgs(currentTerm, me, lastIdx, lastTerm))];
      }
    }

    /**
     The tail of one vote call. There is one call per peer and election, so a running election
     has not counted the peer yet.
     */
    method OnVote(term: nat, peer: nat, r: VoteReply)
      requires Valid() && Durable()
      requires currentTerm == term && state == Candidate ==> peer !in voters
      modifies this, persister
      ensures Valid() && Durable() && persister.snapshot == old(persister.snapshot)
      ensures Abs() == OnVoteReply(old(Abs()), n, term, peer, r)
    {
      if currentTerm != term || state != Candidate {
        return;
      }
      if r.term > currentTerm {
        Demote(r.term);
        return;
      }
      if r.granted {
        votes, voters := votes + 1, voters + {peer};
        if votes >= n / 2 + 1 {
          BecomeLeader();
        }
      }
    }

    /** Somebody has a higher term: steps down into it. */
    method Demote(term: nat)
      requires Valid()
      modifies this`currentTerm, this`state, this`votedFor, persister
      ensures Valid() && Durable() && persister.snapshot == old(persister.snapshot)
      ensures Abs() == StepDown(old(Abs()), term)
    {
      currentTerm := term;
      state := Follower;
      votedFor := NOBODY;
      Persist();
    }

    method BecomeLeader()
      requires Valid()
      modifies this`state, this`nextIndex, this`matchIndex
      ensures Valid() && Abs() == Lead(old(Abs()), n)
    {
      state := Leader;
      nextIndex, matchIndex := seq(n, i => 0), seq(n, i => 0);
      for i := 0 to n
        invariant Valid() && state == Leader
        invariant forall j :: 0 <= j < i ==> nextIndex[j] == |FullLog()| + 1 && matchIndex[j] == 0
      {
        nextIndex := nextIndex[i := LastLogIndex() + 1];
        matchIndex := matchIndex[i := 0];
      }
    }

    // ----- Replication, follower side -----

    method AppendEntries(a: AppendArgs) returns (r: AppendReply)
      requires Valid() && Durable()
      modifies this, persister
      ensures Valid() && Durable() && persister.snapshot == old(persister.snapshot)
      ensures (Abs(), r) == OnAppend(old(Abs()), a)
    {
      r := AppendReply(currentTerm, false, NO_TERM, 0);
      if a.term < currentTerm {
        return;
      }
      state := Follower;
      currentTerm := a.term;
      Persist();
      r := r.(term := currentTerm);
      if a.prev < lastIncludedIndex {
        r := r.(conflictIndex := lastIncludedIndex + 1, conflictTerm := NO_TERM);
        return;
      }
      if a.prev > LastLogIndex() {
        r := r.(conflictTerm := NO_TERM, conflictIndex := LastLogIndex() + 1);
        return;
      }
      if LogTerm(a.prev) != a.prevTerm {
        var start := ConflictStart(a.prev);
        r := r.(conflictTerm := LogTerm(a.prev), conflictIndex := start);
        return;
      }
      MergeEntries(a.prev, a.entries);
      Persist();
      if a.leaderCommit > commitIndex {
        var lastNewIndex := a.prev + |a.entries|;
        if a.leaderCommit < lastNewIndex {
          commitIndex := a.leaderCommit;
        } else {
          commitIndex := lastNewIndex;
        }
      }
      r := r.(success := true);
    }

    /** Walks back to the first index of the conflicting term. */
    method ConflictStart(prev: nat) returns (k: nat)
      requires Valid() && lastIncludedIndex <= prev <= LastLogIndex()
      ensures k == RunStart(FullLog(), lastIncludedIndex, prev)
    {
      k := prev;
      var conflictTerm := LogTerm(prev);
      while k > lastIncludedIndex + 1 && LogTerm(k - 1) == conflictTerm
        invariant lastIncludedIndex <= k <= prev && LogTerm(k) == conflictTerm
        invariant RunStart(FullLog(), lastIncludedIndex, k) == RunStart(FullLog(), lastIncludedIndex, prev)
      {
        k := k - 1;
      }
    }

    /** Appends the new entries, correcting the log from the first conflict on. */
    method MergeEntries(prev: nat, entries: seq<Entry>)
      requires Valid() && lastIncludedIndex <= prev <= LastLogIndex()
      modifies this`log
      ensures Valid() && FullLog() == Merge(old(FullLog()), prev, entries)
    {
      ghost var whole := FullLog();
      for i := 0 to |entries|
        invariant Valid() && FullLog() == whole && prev + i <= |whole|
        invariant Merge(whole, prev, entries) == Merge(whole, prev + i, entries[i..])
      {
        var idx := prev + 1 + i;
        assert entries[i..][0] == entries[i] && entries[i..][1..] == entries[i + 1..];
        if idx < LastLogIndex() + 1 {
          if LogTerm(idx) != entries[i].term {
            log := log[..idx - lastIncludedIndex];
            log := log + entries[i..];
            assert FullLog() == whole[..prev + i] + entries[i..];
            return;
          }
        } else {
          log := log + entries[i..];
          assert FullLog() == whole + entries[i..];
          return;
        }
      }
      assert entries[|entries|..] == [];
    }

    // ----- Replication, leader side -----

    method Start(cmd: Command) returns (index: int, term: nat, isLeader: bool)
      requires Valid() && Durable()
      modifies this, persister
      ensures Valid() && Durable() && persister.snapshot == old(persister.snapshot)
      ensures Abs() == OnStart(old(Abs()), cmd)
      ensures term == currentTerm && isLeader == (state == Leader)
      ensures index == if isLeader then |FullLog()| else -1
    {
      if state != Leader {
        return -1, currentTerm, false;
      }
      ghost var whole := FullLog();
      log := log + [Entry(currentTerm, Some(cmd))];
      assert FullLog() == whole + [Entry(currentTerm, Some(cmd))];
      index := LastLogIndex();
      term := currentTerm;
      Persist();
      isLeader := true;
    }

    /** A heartbeat round first notes the term and the commit index. */
    method BeginRound() returns (term: nat, commit: nat)
      requires Valid()
      modifies this`rounds
      ensures Valid() && Abs() == OnRound(old(Abs())) && Round(term, commit) in rounds
      ensures term == currentTerm && commit == commitIndex
    {
      term, commit := currentTerm, commitIndex;
      rounds := rounds + {Round(term, commit)};
    }

    /** Later, under another lock, the round builds the message for one peer. */
    method BuildAppend(peer: nat, term: nat, commit: nat) returns (a: Option<AppendArgs>)
      requires Valid() && peer < n
      requires state == Leader ==> nextIndex[peer] <= LastLogIndex() + 1
      ensures a.Some? <==> CanShip(Abs(), peer)
      ensures a.Some? ==> a.value == AppendArgsFor(Abs(), me, peer, Round(term, commit))
    {
      if state != Leader || nextIndex[peer] <= lastIncludedIndex {
        return None;
      }
      var ni := nextIndex[peer];
      var prevLogTerm := LogTerm(ni - 1);
      var entries := log[ni - lastIncludedIndex..];
      assert entries == FullLog()[ni - 1..];
      a := Some(AppendArgs(term, me, ni - 1, prevLogTerm, entries, commit));
    }

    method OnAnswer(peer: nat, a: AppendArgs, r: AppendReply)
      requires Valid() && Durable() && peer < n && lastIncludedIndex <= commitIndex <= LastLogIndex()
      modifies this, persister
      ensures Valid() && Durable() && persister.snapshot == old(persister.snapshot)
      ensures Abs() == OnAppendReply(old(Abs()), me, peer, a, r)
    {
      if state != Leader || currentTerm != a.term {
        return;
      }
      if r.term > currentTerm {
        Demote(r.term);
      }
      if r.success {
        NoteMatch(peer, a.prev + |a.entries|);
        MaybeAdvanceCommitIndex();
      } else {
        var next := NextAfterReject(r);
        nextIndex := nextIndex[peer := next];
      }
    }

    /** The peer holds the log up to newMatch; an older answer changes nothing. */
    method NoteMatch(peer: nat, newMatch: nat)
      requires Valid() && |nextIndex| == |matchIndex| == n && peer < n
      modifies this`matchIndex, this`nextIndex
      ensures Valid()
      ensures var m := if newMatch > old(matchIndex)[peer] then newMatch else old(matchIndex)[peer];
        matchIndex == old(matchIndex)[peer := m] && nextIndex == old(nextIndex)[peer := m + 1]
    {
      if newMatch > matchIndex[peer] {
        matchIndex := matchIndex[peer := newMatch];
      }
      assert matchIndex == old(matchIndex)[peer := matchIndex[peer]];
      nextIndex := nextIndex[peer := matchIndex[peer] + 1];
    }

    /** Uses the follower's hint to avoid going back one index at a time. */
    method NextAfterReject(r: AppendReply) returns (next: nat)
      requires Valid()
      ensures next == BackUp(FullLog(), lastIncludedIndex, r)
    {
      next := r.conflictIndex;
      if r.conflictTerm != NO_TERM {
        var newIndex := FindPast(r.conflictTerm);
        if newIndex != -1 {
          next := newIndex;
        }
      }
      if next < 1 {
        next := 1;
      }
    }

    /** Searches the leader's own log backwards for a term. */
    method FindPast(t: int) returns (newIndex: int)
      requires Valid()
      ensures newIndex == PastLastOf(FullLog(), lastIncludedIndex, t, |FullLog()|)
      ensures newIndex == -1 || newIndex > 0
    {
      var j := LastLogIndex();
      while j > lastIncludedIndex
        invariant lastIncludedIndex <= j <= |FullLog()|
        invariant PastLastOf(FullLog(), lastIncludedIndex, t, j)
                  == PastLastOf(FullLog(), lastIncludedIndex, t, |FullLog()|)
      {
        if LogTerm(j) == t {
          return j + 1;
        }
        j := j - 1;
      }
      newIndex := -1;
    }

    method MaybeAdvanceCommitIndex()
      requires Valid() && |matchIndex| == n && lastIncludedIndex <= commitIndex <= LastLogIndex()
      modifies this`commitIndex
      ensures Valid() && Abs() == AdvanceCommit(old(Abs()), me)
    {
      ghost var s := Abs();
      var k := commitIndex + 1;
      while k <= LastLogIndex()
        invariant Valid() && s.commit < k <= LastLogIndex() + 1
        invariant Abs() == s.(commit := ScanCommit(s, me, k - 1))
      {
        if LogTerm(k) == currentTerm {
          var count := CountHolders(k);
          if count >= n / 2 + 1 {
            commitIndex := k;
          }
        }
        k := k + 1;
      }
    }

    method CountHolders(k: nat) returns (count: nat)
      requires Valid() && |matchIndex| == n
      ensures count == 1 + Holders(matchIndex, me, k, n)
    {
      count := 1;
      for i := 0 to n
        invariant count == 1 + Holders(matchIndex, me, k, i)
      {
        if i != me && matchIndex[i] >= k {
          count := count + 1;
        }
      }
    }

    // ----- Delivery -----

    /** One turn of the apply loop's inner loop: the entry to send up, if any. */
    method ApplyNext() returns (sent: Option<(nat, Option<Command>)>)
      requires Valid() && lastApplied < commitIndex <= LastLogIndex()
      modifies this`lastApplied
      ensures Valid() && Abs() == OnDeliver(old(Abs()))
      ensures sent == if old(lastApplied) + 1 <= lastIncludedIndex then None
                      else Some((lastApplied, FullLog()[lastApplied - 1].command))
    {
      lastApplied := lastApplied + 1;
      if lastApplied <= lastIncludedIndex {
        lastApplied := lastIncludedIndex;
        return None;
      }
      sent := Some((lastApplied, log[lastApplied - lastIncludedIndex].command));
    }

    // ----- Snapshots from a leader -----

    /**
     A raised term is saved only with the snapshot: on a snapshot that is already covered, the
     server answers in a term that a crash makes it forget.
     */
    method InstallSnapshot(a: InstallArgs, ghost prefix: Log) returns (term: nat)
      requires Valid() && Durable() && |prefix| == a.index && LastTerm(prefix) == a.lastTerm
      modifies this, persister
      ensures Valid() && term == old(currentTerm)
      ensures Abs() == OnInstall(old(Abs()), a, prefix)
      ensures var taken := a.term >= old(currentTerm) && a.index > old(lastIncludedIndex);
        && pendingSnapshot == (if taken then Some((a.index, a.data)) else old(pendingSnapshot))
        && persister.snapshot == if taken then a.data else old(persister.snapshot)
      ensures Durable() <==> !(a.term > old(currentTerm) && a.index <= old(lastIncludedIndex))
    {
      term := currentTerm;
      if a.term < currentTerm {
        return;
      }
      if a.term > currentTerm {
        currentTerm := a.term;
        votedFor := NOBODY;
      }
      state := Follower;
      if a.index <= lastIncludedIndex {
        return;
      }
      Adopt(a, prefix);
    }

    /** Takes over a snapshot that reaches past the server's own. */
    method Adopt(a: InstallArgs, ghost prefix: Log)
      requires Valid() && lastIncludedIndex < a.index == |prefix| && LastTerm(prefix) == a.lastTerm
      modifies this, persister
      ensures Valid() && Durable() && pendingSnapshot == Some((a.index, a.data)) && persister.snapshot == a.data
      ensures var s := old(Abs());
        Abs() == s.(log := Installed(s.log, prefix), snap := a.index,
                    commit := if s.commit < a.index then a.index else s.commit,
                    applied := if s.applied < a.index then a.index else s.applied)
    {
      ReplacePrefix(a.index, a.lastTerm, prefix);
      RaiseIndices(a.index);
      PersistWithSnapshot(a.data);
      pendingSnapshot := Some((a.index, a.data));
    }

    method RaiseIndices(index: nat)
      modifies this`commitIndex, this`lastApplied
      ensures commitIndex == if old(commitIndex) < index then index else old(commitIndex)
      ensures lastApplied == if old(lastApplied) < index then index else old(lastApplied)
    {
      if commitIndex < index {
        commitIndex := index;
      }
      if lastApplied < index {
        lastApplied := index;
      }
    }

    /** Trims the log to match a snapshot, keeping the entries past it, if any. */
    method ReplacePrefix(index: nat, lastTerm: nat, ghost prefix: Log)
      requires Valid() && lastIncludedIndex < index == |prefix| && LastTerm(prefix) == lastTerm
      modifies this`log, this`dropped, this`lastIncludedIndex, this`lastIncludedTerm
      ensures Valid() && FullLog() == Installed(old(FullLog()), prefix) && lastIncludedIndex == index
    {
      ghost var whole := FullLog();
      if index <= LastLogIndex() {
        log := log[index - lastIncludedIndex..];
        assert log[1..] == whole[index..];
      } else {
        log := [Entry(lastTerm, None)];
        assert log[1..] == [];
      }
      dropped := prefix;
      lastIncludedIndex := index;
      lastIncludedTerm := lastTerm;
    }
  }
}
