/**
 A leader that keeps exchanging messages with a peer has the whole log confirmed by it after a
 bounded number of exchanges, from any state the cluster can be in.
 */
module CatchUp {
  import opened RaftTypes
  import opened RaftNode
  import opened RaftNodeProofs
  import opened History
  import opened ClusterInv
  import opened ClusterProofs
  import opened ClusterConfirm
  import opened Backup
  import opened Handlers
  import opened Reach
  import Safety

  // ----- One exchange -----

  /** The steps of exchanges between leader i and peer p: a round, a shipment, its receipt, its answer. */
  predicate Exchanging(step: C.Step, i: nat, p: nat) {
    match step
    case OpenRound(j) => j == i
    case Ship(j, to, _) => j == i && to == p
    case Receive(m) => m.Shipment? && m.to == p && m.args.leader == i
    case Confirm(m) => m.ShipmentAnswer? && m.from == p && m.args.leader == i
    case _ => false
  }

  ghost predicate ExchangesBy(c: C.Cluster, c': C.Cluster, i: nat, p: nat, k: nat, steps: seq<C.Step>) {
    Leads(c, steps, c') && |steps| == k && forall j: nat :: j < k ==> Exchanging(steps[j], i, p)
  }

  /** Exactly k steps of exchanges lead from c to c'. */
  ghost predicate Exchanged(c: C.Cluster, c': C.Cluster, i: nat, p: nat, k: nat) {
    exists steps: seq<C.Step> :: ExchangesBy(c, c', i, p, k, steps)
  }

  lemma StepExchanged(n: nat, c: C.Cluster, step: C.Step, c': C.Cluster, i: nat, p: nat)
    requires Reached(n, c) && C.Enabled(c, step) && c' == C.After(c, step) && Exchanging(step, i, p)
    ensures Reached(n, c') && Exchanged(c, c', i, p, 1)
  {
    ReachedAfter(n, c, step);
    LeadsOne(c, step, c');
    assert ExchangesBy(c, c', i, p, 1, [step]);
  }

  lemma ExchangedOn(c: C.Cluster, c': C.Cluster, c'': C.Cluster, i: nat, p: nat, k: nat, m: nat, l: nat)
    requires Exchanged(c, c', i, p, k) && Exchanged(c', c'', i, p, m) && l == k + m
    ensures Exchanged(c, c'', i, p, l)
  {
    var first: seq<C.Step> :| ExchangesBy(c, c', i, p, k, first);
    var more: seq<C.Step> :| ExchangesBy(c', c'', i, p, m, more);
    LeadsOn(c, first, c', more, c'');
    assert ExchangesBy(c, c'', i, p, l, first + more);
  }

  lemma ReachedOk(n: nat, c: C.Cluster)
    requires Reached(n, c)
    ensures ClusterOk(c) && |c.nodes| == n
  {
    var run: seq<C.Cluster>, steps: seq<C.Step> :| Ends(n, run, steps, c);
    RunOk(n, run, steps, |steps|);
    Safety.RunSize(n, run, steps, |steps|);
  }

  function Now(s: Node): Round {
    Round(s.term, s.commit)
  }

  /** What leader i sends peer p now. */
  function Sending(s: Node, i: nat, p: nat): AppendArgs
    requires CanShip(s, p)
  {
    AppendArgsFor(s, i, p, Now(s))
  }

  lemma OpensAndShips(c: C.Cluster, i: nat, p: nat, s: Node, c1: C.Cluster, c2: C.Cluster)
    requires i < |c.nodes| && p < |c.nodes| && i != p && s == c.nodes[i] && CanShip(s, p)
    requires c1 == C.After(c, C.OpenRound(i))
    requires C.Enabled(c1, C.Ship(i, p, Now(s))) && c2 == C.After(c1, C.Ship(i, p, Now(s)))
    ensures c1.nodes == c.nodes[i := OnRound(s)] && c2.nodes == c1.nodes
    ensures C.Shipment(p, s.term, Sending(s, i, p)) in c2.msgs
  {
    assert AppendArgsFor(OnRound(s), i, p, Now(s)) == Sending(s, i, p);
    assert c1.nodes[i := c1.nodes[i]] == c1.nodes;
  }

  lemma ReceivesAndConfirms(c: C.Cluster, i: nat, p: nat, s: Node, f: Node, m: C.Message, c1: C.Cluster, m': C.Message,
                            c2: C.Cluster)
    requires i < |c.nodes| && p < |c.nodes| && i != p && s == c.nodes[i] && f == c.nodes[p]
    requires m.Shipment? && m.to == p && m.args.leader == i && m in c.msgs && c1 == C.After(c, C.Receive(m))
    requires m' == C.ShipmentAnswer(p, m.src, m.args, OnAppend(f, m.args).1)
    requires C.Enabled(c1, C.Confirm(m')) && c2 == C.After(c1, C.Confirm(m'))
    ensures c1.nodes == c.nodes[p := OnAppend(f, m.args).0]
    ensures Sized(s, |c.nodes|)
    ensures c2.nodes == c1.nodes[i := OnAppendReply(s, i, p, m.args, OnAppend(f, m.args).1)]
  {}

  lemma ShipsTo(n: nat, c: C.Cluster, i: nat, p: nat, s: Node) returns (c': C.Cluster)
    requires Reached(n, c) && i < |c.nodes| && p < |c.nodes| && i != p && s == c.nodes[i] && CanShip(s, p)
    ensures Reached(n, c') && Exchanged(c, c', i, p, 2)
    ensures c'.nodes == c.nodes[i := OnRound(s)] && C.Shipment(p, s.term, Sending(s, i, p)) in c'.msgs
  {
    var c1 := C.After(c, C.OpenRound(i));
    StepExchanged(n, c, C.OpenRound(i), c1, i, p);
    c' := C.After(c1, C.Ship(i, p, Now(s)));
    StepExchanged(n, c1, C.Ship(i, p, Now(s)), c', i, p);
    OpensAndShips(c, i, p, s, c1, c');
    ExchangedOn(c, c1, c', i, p, 1, 1, 2);
  }

  lemma Answers(n: nat, c: C.Cluster, i: nat, p: nat, s: Node, f: Node, m: C.Message) returns (c': C.Cluster)
    requires Reached(n, c) && i < |c.nodes| && p < |c.nodes| && i != p && s == c.nodes[i] && f == c.nodes[p]
    requires m.Shipment? && m.to == p && m.args.leader == i && m in c.msgs && Sized(s, |c.nodes|)
    ensures Reached(n, c') && Exchanged(c, c', i, p, 2)
    ensures c'.nodes == c.nodes[p := OnAppend(f, m.args).0]
      [i := OnAppendReply(s, i, p, m.args, OnAppend(f, m.args).1)]
  {
    var m' := C.ShipmentAnswer(p, m.src, m.args, OnAppend(f, m.args).1);
    var c1 := C.After(c, C.Receive(m));
    StepExchanged(n, c, C.Receive(m), c1, i, p);
    c' := C.After(c1, C.Confirm(m'));
    StepExchanged(n, c1, C.Confirm(m'), c', i, p);
    ReceivesAndConfirms(c, i, p, s, f, m, c1, m', c');
    ExchangedOn(c, c1, c', i, p, 1, 1, 2);
  }

  lemma Replaced(nodes: seq<Node>, i: nat, p: nat, x: Node, y: Node, z: Node)
    requires i < |nodes| && p < |nodes| && i != p
    ensures nodes[i := x][p := y][i := z] == nodes[p := y][i := z]
  {}

  /** One exchange, and what it does to the two servers. */
  lemma Exchanges(n: nat, c: C.Cluster, i: nat, p: nat, s: Node, f: Node) returns (c': C.Cluster)
    requires Reached(n, c) && i < |c.nodes| && p < |c.nodes| && i != p && s == c.nodes[i] && f == c.nodes[p]
    requires s.role.Leader? && CanShip(s, p) && |s.next| == |s.matched| == |c.nodes|
    ensures Reached(n, c') && Exchanged(c, c', i, p, 4)
    ensures c'.nodes == c.nodes[p := OnAppend(f, Sending(s, i, p)).0]
      [i := OnAppendReply(OnRound(s), i, p, Sending(s, i, p), OnAppend(f, Sending(s, i, p)).1)]
  {
    var c1 := ShipsTo(n, c, i, p, s);
    c' := Answers(n, c1, i, p, OnRound(s), f, C.Shipment(p, s.term, Sending(s, i, p)));
    Replaced(c.nodes, i, p, OnRound(s), c'.nodes[p], c'.nodes[i]);
    ExchangedOn(c, c1, c', i, p, 2, 2, 4);
  }

  // ----- Where exchanges lead -----

  lemma Shared(h: State, i: nat, p: nat, s: Node, f: Node)
    requires ReignsOk(h) && CompleteOk(h) && NodeOk(h, i, s) && NodeOk(h, p, f) && p < |h.terms|
    requires Owned(h, s.log) && Owned(h, f.log) && s.role.Leader? && f.term <= s.term
    ensures |s.next| == |s.matched| == |h.terms| && 1 <= s.next[p] <= |s.log| + 1 && s.matched[p] <= |s.log|
    ensures s.commit <= |s.log| && Kindred(s.log, f.log) && f.snap <= |f.log|
    ensures f.snap <= |s.log| && s.log[..f.snap] == f.log[..f.snap]
  {
    assert PeerOk(h, s, p);
    OwnedKindred(h, s.log, f.log);
    CommittedByInReign(h, f.log[..f.commit], f.term, s.term);
    assert f.log[..f.commit][..f.snap] == f.log[..f.snap];
  }

  /** What the leader and the peer share in every reachable state. */
  lemma LeaderAndPeer(n: nat, c: C.Cluster, i: nat, p: nat, s: Node, f: Node)
    requires Reached(n, c) && i < |c.nodes| && p < |c.nodes| && s == c.nodes[i] && f == c.nodes[p]
    requires s.role.Leader? && f.term <= s.term
    ensures |s.next| == |s.matched| == |c.nodes| && 1 <= s.next[p] <= |s.log| + 1 && s.matched[p] <= |s.log|
    ensures s.commit <= |s.log| && Kindred(s.log, f.log) && f.snap <= |f.log|
    ensures f.snap <= |s.log| && s.log[..f.snap] == f.log[..f.snap]
  {
    ReachedOk(n, c);
    Safety.NodeOwned(c, i);
    Safety.NodeOwned(c, p);
    Shared(c.h, i, p, s, f);
  }

  lemma SameAnswer(s: Node, f: Node, f0: Node, i: nat, p: nat)
    requires CanShip(s, p) && f.log == f0.log && f.snap == f0.snap && f.term <= s.term && f0.term <= s.term
    ensures OnAppend(f, Sending(s, i, p)).1 == Probe(s.log, f0, s.term, s.next[p])
    ensures !OnAppend(f, Sending(s, i, p)).1.success ==>
      OnAppend(f, Sending(s, i, p)).0 == f.(role := Follower, term := s.term)
  {}

  /** What a leader is after its peer has confirmed the whole log. */
  ghost predicate Confirmed(s: Node, s': Node, i: nat, p: nat) {
    && p < |s.next| == |s.matched| && |s'.matched| == |s.matched| && |s'.next| == |s.next|
    && s'.role.Leader? && s'.term == s.term && s'.log == s.log && s'.snap == s.snap
    && s'.matched == s.matched[p := |s.log|] && s'.next == s.next[p := |s.log| + 1]
    && s'.commit <= |s'.log| && (s'.commit == |s.log| || !CanCommit(s', i, |s.log|))
  }

  lemma AcceptedAll(s: Node, f: Node, i: nat, p: nat, s': Node)
    requires s.role.Leader? && CanShip(s, p) && p < |s.next| == |s.matched| && s.matched[p] <= |s.log|
    requires s.commit <= |s.log| && OnAppend(f, Sending(s, i, p)).1.success
    requires s' == OnAppendReply(OnRound(s), i, p, Sending(s, i, p), OnAppend(f, Sending(s, i, p)).1)
    ensures Confirmed(s, s', i, p)
  {
    var k := |s.log|;
    var s1 := OnRound(s).(matched := s.matched[p := k], next := s.next[p := k + 1]);
    assert s' == AdvanceCommit(s1, i);
    ScanCommitHighest(s1, i, k);
  }

  /** Nothing but the leader and the peer has changed, and the peer only took over the term and entries. */
  ghost predicate OnlyBoth(c: C.Cluster, c': C.Cluster, i: nat, p: nat, term: nat) {
    && i < |c.nodes| && p < |c.nodes| && i != p && |c'.nodes| == |c.nodes|
    && c'.nodes == c.nodes[p := c'.nodes[p]][i := c'.nodes[i]]
    && c'.nodes[p].term == term && c'.nodes[p].snap == c.nodes[p].snap
  }

  lemma RejectedThen(s: Node, f: Node, f0: Node, i: nat, p: nat, s': Node)
    requires s.role.Leader? && CanShip(s, p) && p < |s.next| == |s.matched| && f.log == f0.log && f.snap == f0.snap
    requires f.term <= s.term && Searching(s.log, s.snap, f0, s.term, s.next[p])
    requires !OnAppend(f, Sending(s, i, p)).1.success
    requires s' == OnAppendReply(OnRound(s), i, p, Sending(s, i, p), OnAppend(f, Sending(s, i, p)).1)
    ensures s' == OnRound(s).(next := s'.next) && s'.next == s.next[p := s'.next[p]] && s'.next[p] < s.next[p]
    ensures Searching(s.log, s.snap, f0, s.term, s'.next[p])
    ensures FastSearch(s.log, s.snap, f0, s.term, s.next[p]).1
         == FastSearch(s.log, s.snap, f0, s.term, s'.next[p]).1 + 1
  {
    SameAnswer(s, f, f0, i, p);
    ProbeStep(s.log, s.snap, f0, s.term, s.next[p]);
  }

  lemma StillOnlyBoth(c: C.Cluster, c1: C.Cluster, c2: C.Cluster, i: nat, p: nat, term: nat)
    requires OnlyBoth(c, c1, i, p, term) && OnlyBoth(c1, c2, i, p, term)
    ensures OnlyBoth(c, c2, i, p, term)
  {}

  lemma ConfirmedAfter(s: Node, s1: Node, s2: Node, i: nat, p: nat)
    requires p < |s.next| == |s.matched| == |s1.next| && s1 == OnRound(s).(next := s1.next)
    requires s1.next == s.next[p := s1.next[p]] && Confirmed(s1, s2, i, p)
    ensures Confirmed(s, s2, i, p)
  {}

  /** The search of the fast back-up, exchange by exchange, and its end. */
  lemma {:induction false} Searches(n: nat, c: C.Cluster, i: nat, p: nat, s: Node, f: Node, f0: Node)
    returns (c': C.Cluster, k: nat)
    requires Reached(n, c) && i < |c.nodes| && p < |c.nodes| && i != p && s == c.nodes[i] && f == c.nodes[p]
    requires s.role.Leader? && f.term <= s.term && f.log == f0.log && f.snap == f0.snap
    requires p < |s.next| && Searching(s.log, s.snap, f0, s.term, s.next[p])
    ensures Reached(n, c') && Exchanged(c, c', i, p, k) && OnlyBoth(c, c', i, p, s.term)
    ensures k == 4 * (FastSearch(s.log, s.snap, f0, s.term, s.next[p]).1 + 1) && Confirmed(s, c'.nodes[i], i, p)
    decreases s.next[p]
  {
    LeaderAndPeer(n, c, i, p, s, f);
    var c1 := Exchanges(n, c, i, p, s, f);
    SameAnswer(s, f, f0, i, p);
    if OnAppend(f, Sending(s, i, p)).1.success {
      AcceptedAll(s, f, i, p, c1.nodes[i]);
      c', k := c1, 4;
    } else {
      RejectedThen(s, f, f0, i, p, c1.nodes[i]);
      var m;
      c', m := Searches(n, c1, i, p, c1.nodes[i], c1.nodes[p], f0);
      k := 4 + m;
      ExchangedOn(c, c1, c', i, p, 4, m, k);
      StillOnlyBoth(c, c1, c', i, p, s.term);
      ConfirmedAfter(s, c1.nodes[i], c'.nodes[i], i, p);
    }
  }

  /**
   From every reachable state, a leader and a peer that is not ahead of it in terms need at most as
   many exchanges as the peer's log has distinct terms, and two more, until the leader knows that the
   peer holds its whole log; unless the leader has compacted what it would have to send.
   */
  lemma CatchesUp(n: nat, c: C.Cluster, i: nat, p: nat, s: Node, f: Node) returns (c': C.Cluster, k: nat)
    requires Reached(n, c) && i < |c.nodes| && p < |c.nodes| && i != p && s == c.nodes[i] && f == c.nodes[p]
    requires s.role.Leader? && f.term <= s.term && p < |s.next| && s.snap < s.next[p] && s.snap <= f.snap
    ensures Reached(n, c') && Exchanged(c, c', i, p, 4 * k) && k <= |TermsOf(f.log)| + 2
    ensures OnlyBoth(c, c', i, p, s.term) && Confirmed(s, c'.nodes[i], i, p)
  {
    LeaderAndPeer(n, c, i, p, s, f);
    if f.snap < s.next[p] {
      c', k := FromAbove(n, c, i, p, s, f);
    } else {
      k := 2;
      c' := FromBelow(n, c, i, p, s, f);
    }
  }

  lemma FromAbove(n: nat, c: C.Cluster, i: nat, p: nat, s: Node, f: Node) returns (c': C.Cluster, k: nat)
    requires Reached(n, c) && i < |c.nodes| && p < |c.nodes| && i != p && s == c.nodes[i] && f == c.nodes[p]
    requires s.role.Leader? && f.term <= s.term && p < |s.next| && Searching(s.log, s.snap, f, s.term, s.next[p])
    ensures Reached(n, c') && Exchanged(c, c', i, p, 4 * k) && k <= |TermsOf(f.log)| + 2
    ensures OnlyBoth(c, c', i, p, s.term) && Confirmed(s, c'.nodes[i], i, p)
  {
    var m;
    c', m := Searches(n, c, i, p, s, f, f);
    FastRounds(s.log, s.snap, f, s.term, s.next[p]);
    k := FastSearch(s.log, s.snap, f, s.term, s.next[p]).1 + 1;
  }

  lemma NothingToSearch(leader: Log, snap: nat, f: Node, t: nat, next: nat)
    requires Searching(leader, snap, f, t, next) && next == f.snap + 1
    ensures FastSearch(leader, snap, f, t, next).1 == 0
  {
    ProbeStep(leader, snap, f, t, next);
    SnapAccepted(leader, snap, f, t, next);
  }

  lemma StartsBelow(s: Node, f: Node, i: nat, p: nat, s': Node, f': Node)
    requires s.role.Leader? && f.term <= s.term && p < |s.next| == |s.matched| && CanShip(s, p) && f.snap <= |f.log|
    requires s.next[p] <= f.snap && f' == OnAppend(f, Sending(s, i, p)).0
    requires s' == OnAppendReply(OnRound(s), i, p, Sending(s, i, p), OnAppend(f, Sending(s, i, p)).1)
    ensures s' == OnRound(s).(next := s.next[p := f.snap + 1]) && f' == f.(role := Follower, term := s.term)
  {
    RejectionMovesUp(OnRound(s), f, i, p, Sending(s, i, p), s');
  }

  /** The one exchange that moves up behind what the peer has compacted. */
  lemma BelowSnapshot(n: nat, c: C.Cluster, i: nat, p: nat, s: Node, f: Node) returns (c': C.Cluster)
    requires Reached(n, c) && i < |c.nodes| && p < |c.nodes| && i != p && s == c.nodes[i] && f == c.nodes[p]
    requires s.role.Leader? && f.term <= s.term && p < |s.next| && s.snap < s.next[p] <= f.snap
    ensures Reached(n, c') && Exchanged(c, c', i, p, 4) && OnlyBoth(c, c', i, p, s.term)
    ensures c'.nodes[i] == OnRound(s).(next := s.next[p := f.snap + 1])
    ensures c'.nodes[p] == f.(role := Follower, term := s.term)
  {
    LeaderAndPeer(n, c, i, p, s, f);
    c' := Exchanges(n, c, i, p, s, f);
    StartsBelow(s, f, i, p, c'.nodes[i], c'.nodes[p]);
  }

  lemma SearchAbove(s: Node, f: Node, p: nat, s1: Node)
    requires p < |s.next| && s1 == OnRound(s).(next := s.next[p := f.snap + 1])
    requires s.snap <= f.snap && Kindred(s.log, f.log) && f.term <= s.term
    requires f.snap <= |f.log| && f.snap <= |s.log| && s.log[..f.snap] == f.log[..f.snap]
    ensures Searching(s1.log, s1.snap, f, s1.term, s1.next[p])
    ensures FastSearch(s1.log, s1.snap, f, s1.term, s1.next[p]).1 == 0
  {
    NothingToSearch(s.log, s.snap, f, s.term, f.snap + 1);
  }

  /** From there the first check is accepted. */
  lemma AtSnapshot(n: nat, c: C.Cluster, i: nat, p: nat, s: Node, f: Node, f0: Node) returns (c': C.Cluster)
    requires Reached(n, c) && i < |c.nodes| && p < |c.nodes| && i != p && s == c.nodes[i] && f == c.nodes[p]
    requires s.role.Leader? && f.term <= s.term && f.log == f0.log && f.snap == f0.snap && p < |s.next|
    requires Searching(s.log, s.snap, f0, s.term, s.next[p])
    requires FastSearch(s.log, s.snap, f0, s.term, s.next[p]).1 == 0
    ensures Reached(n, c') && Exchanged(c, c', i, p, 4)
    ensures OnlyBoth(c, c', i, p, s.term) && Confirmed(s, c'.nodes[i], i, p)
  {
    var k;
    c', k := Searches(n, c, i, p, s, f, f0);
  }

  lemma FromBelow(n: nat, c: C.Cluster, i: nat, p: nat, s: Node, f: Node) returns (c': C.Cluster)
    requires Reached(n, c) && i < |c.nodes| && p < |c.nodes| && i != p && s == c.nodes[i] && f == c.nodes[p]
    requires s.role.Leader? && f.term <= s.term && p < |s.next| == |s.matched|
    requires s.snap < s.next[p] <= f.snap
    requires Kindred(s.log, f.log) && f.snap <= |f.log| && f.snap <= |s.log| && s.log[..f.snap] == f.log[..f.snap]
    ensures Reached(n, c') && Exchanged(c, c', i, p, 8)
    ensures OnlyBoth(c, c', i, p, s.term) && Confirmed(s, c'.nodes[i], i, p)
  {
    var c1 := BelowSnapshot(n, c, i, p, s, f);
    var s1 := OnRound(s).(next := s.next[p := f.snap + 1]);
    SearchAbove(s, f, p, s1);
    c' := AtSnapshot(n, c1, i, p, s1, c1.nodes[p], f);
    ExchangedOn(c, c1, c', i, p, 4, 4, 8);
    StillOnlyBoth(c, c1, c', i, p, s.term);
    ConfirmedAfter(s, s1, c'.nodes[i], i, p);
  }
}
