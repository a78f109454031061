/** What the handlers of one peer compute, said without their loops. */
module RaftNodeProofs {
  import opened RaftTypes
  import opened RaftNode
  import opened Quorum

  /** Where log and target overlap beyond prev, equal terms mean equal entries. */
  ghost predicate TermsDecide(log: Log, target: Log, prev: nat) {
    forall k: nat :: prev <= k < |log| && k < |target| && log[k].term == target[k].term ==> log[k] == target[k]
  }

  /** A stale prefix changes nothing; anything else leaves exactly what was sent. */
  lemma {:induction false} MergeResult(log: Log, prev: nat, entries: seq<Entry>, target: Log)
    requires prev <= |log| && target == log[..prev] + entries && TermsDecide(log, target, prev)
    ensures Merge(log, prev, entries) == if target <= log then log else target
    decreases |entries|
  {
    if entries != [] && prev < |log| {
      assert target[prev] == entries[0];
      if log[prev].term == entries[0].term {
        assert target == log[..prev + 1] + entries[1..];
        MergeResult(log, prev + 1, entries[1..], target);
      }
    }
  }

  /** The servers, me included, that the leader may count as holding index k. */
  ghost function HolderSet(matched: seq<nat>, me: nat, k: nat, i: nat): (q: set<nat>)
    requires i <= |matched|
    ensures forall v: nat :: v in q <==> v == me || (v < i && matched[v] >= k)
  {
    if i == 0 then {me}
    else HolderSet(matched, me, k, i - 1) + if matched[i - 1] >= k then {i - 1} else {}
  }

  lemma {:induction false} HoldersCount(matched: seq<nat>, me: nat, k: nat, i: nat)
    requires i <= |matched|
    ensures |HolderSet(matched, me, k, i)| == 1 + Holders(matched, me, k, i)
  {
    if i > 0 {
      HoldersCount(matched, me, k, i - 1);
    }
  }

  /** The count reaches the threshold exactly when the leader and the counted peers are a majority. */
  lemma CommitMajority(s: Node, me: nat, k: nat)
    requires k <= |s.log| && me < |s.matched|
    ensures CanCommit(s, me, k) <==>
      TermAt(s.log, k) == s.term && Majority(|s.matched|, HolderSet(s.matched, me, k, |s.matched|))
  {
    HoldersCount(s.matched, me, k, |s.matched|);
  }

  /** The scan stops at the highest index that may be committed, or where it was. */
  lemma {:induction false} ScanCommitHighest(s: Node, me: nat, k: nat)
    requires s.commit <= k <= |s.log|
    ensures var c := ScanCommit(s, me, k);
      && s.commit <= c <= k
      && (c > s.commit ==> CanCommit(s, me, c))
      && forall j :: c < j <= k ==> !CanCommit(s, me, j)
  {
    if k != s.commit && !CanCommit(s, me, k) {
      ScanCommitHighest(s, me, k - 1);
    }
  }
}
