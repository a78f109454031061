/**
 Fast log back-up. After a rejection the leader jumps to where the follower's hint points
 instead of going back one index; it ends up at the same place, in a bounded number of rounds.
 */
module Backup {
  import opened RaftTypes
  import opened RaftNode
  import opened History
  import opened HistoryProofs
  import opened Quorum

  /** Two logs that share a term share everything up to the earlier of its occurrences. */
  ghost predicate SharedAt(a: Log, b: Log, i: nat, j: nat) {
    1 <= i <= |a| && 1 <= j <= |b| && a[i - 1].term == b[j - 1].term ==>
      var m := if i < j then i else j; a[..m] == b[..m]
  }

  ghost predicate Kindred(a: Log, b: Log) {
    Monotone(a) && Monotone(b) && forall i: nat, j: nat :: SharedAt(a, b, i, j)
  }

  /** Any two logs of a cluster are like that, because each term has one leader log. */
  lemma OwnedKindred(h: State, a: Log, b: Log)
    requires ReignsOk(h) && Owned(h, a) && Owned(h, b)
    ensures Kindred(a, b)
  {
    OwnedMonotone(h, a);
    OwnedMonotone(h, b);
    forall i: nat, j: nat
      ensures SharedAt(a, b, i, j)
    {
      if 1 <= i <= |a| && 1 <= j <= |b| && a[i - 1].term == b[j - 1].term {
        assert OwnedAt(h, a, i - 1) && OwnedAt(h, b, j - 1);
        var l := h.reigns[a[i - 1].term].log;
        assert a[..i] == l[..i] && b[..j] == l[..j];
      }
    }
  }

  /** A consistency check at index k would fail. */
  predicate Rejects(leader: Log, follower: Log, k: nat)
    requires k <= |leader|
  {
    k > |follower| || TermAt(follower, k) != TermAt(leader, k)
  }

  lemma {:induction false} RunStartRun(log: Log, snap: nat, k: nat)
    requires k <= |log|
    ensures RunStart(log, snap, k) <= k && (k >= 1 ==> RunStart(log, snap, k) >= 1)
    ensures forall j: nat :: RunStart(log, snap, k) <= j <= k ==> TermAt(log, j) == TermAt(log, k)
    ensures RunStart(log, snap, k) > snap + 1 ==> TermAt(log, RunStart(log, snap, k) - 1) != TermAt(log, k)
    ensures k > snap ==> RunStart(log, snap, k) > snap
  {
    if k > snap + 1 && TermAt(log, k - 1) == TermAt(log, k) {
      RunStartRun(log, snap, k - 1);
    }
  }

  lemma {:induction false} PastLastIs(log: Log, snap: nat, t: int, j: nat, p: int)
    requires j <= |log| && p == PastLastOf(log, snap, t, j)
    ensures p == -1 || snap < p - 1 <= j
    ensures p == -1 ==> forall k: nat :: snap < k <= j ==> TermAt(log, k) != t
    ensures p != -1 ==> TermAt(log, p - 1) == t && forall k: nat :: p <= k <= j ==> TermAt(log, k) != t
  {
    if j > snap && TermAt(log, j) != t {
      PastLastIs(log, snap, t, j - 1, p);
    }
  }

  /** A term the follower has at prev, where the leader has another, ends before prev at the leader. */
  lemma ConflictBelow(leader: Log, follower: Log, prev: nat, j: nat)
    requires Kindred(leader, follower) && 1 <= prev <= |follower| && prev <= |leader|
    requires TermAt(follower, prev) != TermAt(leader, prev)
    requires 1 <= j <= |leader| && TermAt(leader, j) == TermAt(follower, prev)
    ensures j < prev
  {
    assert SharedAt(leader, follower, j, prev);
  }

  /** Between the leader's last entry of the conflicting term and prev, nothing matches. */
  lemma BeyondConflict(leader: Log, follower: Log, prev: nat, p: nat, k: nat)
    requires Kindred(leader, follower) && p <= k <= prev <= |follower| && prev <= |leader| && 1 <= p
    requires TermAt(leader, p - 1) == TermAt(follower, prev)
    requires TermAt(leader, k) != TermAt(follower, prev)
    ensures TermAt(follower, k) != TermAt(leader, k)
  {
    assert TermAt(leader, p - 1) <= TermAt(leader, k) && TermAt(follower, k) <= TermAt(follower, prev);
  }

  /**
   The jump after a rejection goes back at least one index, and every index it skips that the
   leader still holds would have been rejected as well; so it never passes a common prefix.
   */
  lemma BackUpSkipsRejects(leader: Log, snap: nat, f: Node, a: AppendArgs, r: AppendReply, next: nat)
    requires Kindred(leader, f.log) && a.prev <= |leader| && a.prevTerm == TermAt(leader, a.prev)
    requires f.term <= a.term && f.snap <= a.prev && f.snap <= |f.log|
    requires r == OnAppend(f, a).1 && !r.success && next == BackUp(leader, snap, r)
    ensures 1 <= next <= a.prev
    ensures forall k: nat :: next <= k <= a.prev && snap < k ==> Rejects(leader, f.log, k)
  {
    if a.prev <= |f.log| {
      RunStartRun(f.log, f.snap, a.prev);
      var p := PastLastOf(leader, snap, r.conflictTerm, |leader|);
      PastLastIs(leader, snap, r.conflictTerm, |leader|, p);
      if p != -1 {
        ConflictBelow(leader, f.log, a.prev, p - 1);
        forall k: nat | next <= k <= a.prev && snap < k
          ensures Rejects(leader, f.log, k)
        {
          BeyondConflict(leader, f.log, a.prev, p, k);
        }
      }
    }
  }

  // ----- The whole search -----

  /** The answer of a fixed follower to the check in front of next. */
  function Probe(leader: Log, f: Node, t: nat, next: nat): AppendReply
    requires 1 <= next <= |leader| + 1
  {
    OnAppend(f, AppendArgs(t, 0, next - 1, TermAt(leader, next - 1), leader[next - 1..], 0)).1
  }

  /** The leader, compacted up to snap, holds what the follower compacted, and has not gone back behind it. */
  ghost predicate Searching(leader: Log, snap: nat, f: Node, t: nat, next: nat) {
    && Kindred(leader, f.log) && f.term <= t
    && snap <= f.snap < next <= |leader| + 1 && f.snap <= |f.log| && leader[..f.snap] == f.log[..f.snap]
  }

  lemma SnapAccepted(leader: Log, snap: nat, f: Node, t: nat, next: nat)
    requires Searching(leader, snap, f, t, next)
    ensures !Rejects(leader, f.log, f.snap)
  {
    if f.snap > 0 {
      assert leader[f.snap - 1] == leader[..f.snap][f.snap - 1] == f.log[..f.snap][f.snap - 1];
    }
  }

  /** A hint never points into what the leader has compacted. */
  lemma BackUpAbove(leader: Log, snap: nat, f: Node, t: nat, next: nat, next': nat)
    requires Searching(leader, snap, f, t, next) && !Probe(leader, f, t, next).success
    requires next' == BackUp(leader, snap, Probe(leader, f, t, next))
    ensures snap < next'
  {
    var prev: nat := next - 1;
    SnapAccepted(leader, snap, f, t, next);
    if prev <= |f.log| {
      RunStartRun(f.log, f.snap, prev);
      var r := Probe(leader, f, t, next);
      PastLastIs(leader, snap, r.conflictTerm, |leader|, PastLastOf(leader, snap, r.conflictTerm, |leader|));
    }
  }

  lemma ProbeStep(leader: Log, snap: nat, f: Node, t: nat, next: nat)
    requires Searching(leader, snap, f, t, next)
    ensures Probe(leader, f, t, next).success <==> !Rejects(leader, f.log, next - 1)
    ensures !Probe(leader, f, t, next).success ==>
      Searching(leader, snap, f, t, BackUp(leader, snap, Probe(leader, f, t, next)))
      && BackUp(leader, snap, Probe(leader, f, t, next)) < next
  {
    if !Probe(leader, f, t, next).success {
      var a := AppendArgs(t, 0, next - 1, TermAt(leader, next - 1), leader[next - 1..], 0);
      var r := Probe(leader, f, t, next);
      var next' := BackUp(leader, snap, r);
      BackUpSkipsRejects(leader, snap, f, a, r, next');
      BackUpAbove(leader, snap, f, t, next, next');
      SnapAccepted(leader, snap, f, t, next);
    }
  }

  /** Where going back one index at a time stops. */
  function SlowStop(leader: Log, follower: Log, next: nat): nat
    requires 1 <= next <= |leader| + 1
  {
    if next == 1 || !Rejects(leader, follower, next - 1) then next else SlowStop(leader, follower, next - 1)
  }

  /** Where jumping by the follower's hints stops, and after how many rejections. */
  ghost function FastSearch(leader: Log, snap: nat, f: Node, t: nat, next: nat): (nat, nat)
    requires Searching(leader, snap, f, t, next)
    decreases next
  {
    ProbeStep(leader, snap, f, t, next);
    var r := Probe(leader, f, t, next);
    if r.success then (next, 0)
    else var (stop, rounds) := FastSearch(leader, snap, f, t, BackUp(leader, snap, r)); (stop, rounds + 1)
  }

  lemma {:induction false} SlowStopSkips(leader: Log, follower: Log, low: nat, next: nat)
    requires 1 <= low <= next <= |leader| + 1
    requires forall k: nat :: low <= k < next ==> Rejects(leader, follower, k)
    ensures SlowStop(leader, follower, low) == SlowStop(leader, follower, next)
    decreases next
  {
    if low < next {
      SlowStopSkips(leader, follower, low, next - 1);
    }
  }

  /** The fast search stops exactly where going back one index at a time would. */
  lemma {:induction false} FastIsSlow(leader: Log, snap: nat, f: Node, t: nat, next: nat)
    requires Searching(leader, snap, f, t, next)
    ensures FastSearch(leader, snap, f, t, next).0 == SlowStop(leader, f.log, next)
    decreases next
  {
    ProbeStep(leader, snap, f, t, next);
    var r := Probe(leader, f, t, next);
    if !r.success {
      var next' := BackUp(leader, snap, r);
      var a := AppendArgs(t, 0, next - 1, TermAt(leader, next - 1), leader[next - 1..], 0);
      BackUpSkipsRejects(leader, snap, f, a, r, next');
      FastIsSlow(leader, snap, f, t, next');
      SlowStopSkips(leader, f.log, next', next);
    }
  }

  // ----- How many rounds -----

  ghost function TermsUpTo(log: Log, t: nat): set<nat> {
    set e | e in log && e.term <= t :: e.term
  }

  /** After a rejection over a term, the next check succeeds or meets a strictly smaller term. */
  lemma ConflictTermFalls(leader: Log, snap: nat, f: Node, t: nat, next: nat, next': nat)
    requires Searching(leader, snap, f, t, next) && next - 1 <= |f.log|
    requires !Probe(leader, f, t, next).success && next' == BackUp(leader, snap, Probe(leader, f, t, next))
    ensures 1 <= next' < next && 1 <= next - 1
    ensures !Rejects(leader, f.log, next' - 1) || TermAt(f.log, next' - 1) < TermAt(f.log, next - 1)
  {
    ProbeStep(leader, snap, f, t, next);
    SnapAccepted(leader, snap, f, t, next);
    var r := Probe(leader, f, t, next);
    RunStartRun(f.log, f.snap, next - 1);
    var p := PastLastOf(leader, snap, r.conflictTerm, |leader|);
    PastLastIs(leader, snap, r.conflictTerm, |leader|, p);
    assert TermAt(f.log, next' - 1) <= TermAt(f.log, next - 1);
  }

  lemma {:induction false} RoundsBelowTerms(leader: Log, snap: nat, f: Node, t: nat, next: nat)
    requires Searching(leader, snap, f, t, next) && next - 1 <= |f.log|
    ensures FastSearch(leader, snap, f, t, next).1 <= |TermsUpTo(f.log, TermAt(f.log, next - 1))|
    ensures !Rejects(leader, f.log, next - 1) ==> FastSearch(leader, snap, f, t, next).1 == 0
    decreases next
  {
    ProbeStep(leader, snap, f, t, next);
    var r := Probe(leader, f, t, next);
    if !r.success {
      var next' := BackUp(leader, snap, r);
      ConflictTermFalls(leader, snap, f, t, next, next');
      RoundsBelowTerms(leader, snap, f, t, next');
      var ct := TermAt(f.log, next - 1);
      assert f.log[next - 2] in f.log && ct in TermsUpTo(f.log, ct);
      if Rejects(leader, f.log, next' - 1) {
        FewerTerms(f.log, TermAt(f.log, next' - 1), ct);
      }
    }
  }

  lemma FewerTerms(log: Log, a: nat, b: nat)
    requires a < b && b in TermsUpTo(log, b)
    ensures |TermsUpTo(log, a)| < |TermsUpTo(log, b)|
  {
    SubsetSize(TermsUpTo(log, a) + {b}, TermsUpTo(log, b));
  }

  /** The search ends with a check that succeeds. */
  lemma {:induction false} FastSucceeds(leader: Log, snap: nat, f: Node, t: nat, next: nat)
    requires Searching(leader, snap, f, t, next)
    ensures 1 <= FastSearch(leader, snap, f, t, next).0 <= next
    ensures Probe(leader, f, t, FastSearch(leader, snap, f, t, next).0).success
    decreases next
  {
    ProbeStep(leader, snap, f, t, next);
    var r := Probe(leader, f, t, next);
    if !r.success {
      FastSucceeds(leader, snap, f, t, BackUp(leader, snap, r));
    }
  }

  ghost function TermsOf(log: Log): set<nat> {
    set e | e in log :: e.term
  }

  /** At most one rejection per distinct term in the follower's log, and one more; then a check succeeds. */
  lemma FastRounds(leader: Log, snap: nat, f: Node, t: nat, next: nat)
    requires Searching(leader, snap, f, t, next)
    ensures FastSearch(leader, snap, f, t, next).1 <= |TermsOf(f.log)| + 1
    ensures 1 <= FastSearch(leader, snap, f, t, next).0 <= next
    ensures Probe(leader, f, t, FastSearch(leader, snap, f, t, next).0).success
  {
    FastSucceeds(leader, snap, f, t, next);
    ProbeStep(leader, snap, f, t, next);
    if next - 1 <= |f.log| {
      RoundsBelowTerms(leader, snap, f, t, next);
      SubsetSize(TermsUpTo(f.log, TermAt(f.log, next - 1)), TermsOf(f.log));
    } else {
      var next' := BackUp(leader, snap, Probe(leader, f, t, next));
      RoundsBelowTerms(leader, snap, f, t, next');
      SubsetSize(TermsUpTo(f.log, TermAt(f.log, next' - 1)), TermsOf(f.log));
    }
  }

  // ----- Compaction seen through the handlers -----

  /** Compaction changes nothing in what a shipment at or after the snapshot does. */
  lemma CompactionInvisible(s: Node, a: AppendArgs, whole: Node)
    requires whole == s.(snap := 0) && s.snap <= a.prev && s.snap <= |s.log|
    ensures OnAppend(s, a).0 == OnAppend(whole, a).0.(snap := s.snap)
    ensures var r, w := OnAppend(s, a).1, OnAppend(whole, a).1;
      && r.term == w.term && r.success == w.success && r.conflictTerm == w.conflictTerm
      && (r.conflictIndex == w.conflictIndex || (w.conflictIndex < r.conflictIndex && r.conflictIndex <= a.prev
          && (r.conflictIndex == s.snap + 1 || r.conflictIndex == s.snap == a.prev)))
  {
    if a.prev <= |s.log| {
      RunStartSnap(s.log, s.snap, a.prev);
    }
  }

  lemma {:induction false} ScanCommitSnap(s: Node, whole: Node, me: nat, k: nat)
    requires whole == s.(snap := 0) && s.commit <= k <= |s.log|
    ensures ScanCommit(s, me, k) == ScanCommit(whole, me, k)
  {
    assert CanCommit(s, me, k) == CanCommit(whole, me, k);
    if k != s.commit && !CanCommit(s, me, k) {
      ScanCommitSnap(s, whole, me, k - 1);
    }
  }

  /** Nor in how a server votes, or in how far a leader commits. */
  lemma CompactionInvisibleElsewhere(s: Node, v: VoteArgs, me: nat, whole: Node)
    requires whole == s.(snap := 0)
    ensures OnVoteRequest(s, v).0 == OnVoteRequest(whole, v).0.(snap := s.snap)
    ensures OnVoteRequest(s, v).1 == OnVoteRequest(whole, v).1
    ensures AdvanceCommit(s, me) == AdvanceCommit(whole, me).(snap := s.snap)
  {
    if s.commit <= |s.log| {
      ScanCommitSnap(s, whole, me, |s.log|);
    }
  }

  lemma {:induction false} RunStartSnap(log: Log, snap: nat, k: nat)
    requires k <= |log| && snap <= k
    ensures RunStart(log, snap, k) ==
      if RunStart(log, 0, k) > snap then RunStart(log, 0, k) else if k == snap then k else snap + 1
  {
    RunStartRun(log, 0, k);
    if k > snap + 1 && TermAt(log, k - 1) == TermAt(log, k) {
      RunStartSnap(log, snap, k - 1);
    }
  }
}
