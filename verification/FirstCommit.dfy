/**
 A service of two or more servers can elect a leader, commit a command and tell its submitter; with
 fewer servers none of this ever happens.
 */
module FirstCommit {
  import opened Commands
  import opened RaftTypes
  import opened RaftNode
  import opened RaftNodeProofs
  import opened Quorum
  import opened Replicas
  import opened Reach
  import H = History
  import I = ClusterInv
  import K = ClusterConfirm
  import P = SystemProofs
  import Q = SystemSafety
  import Safety

  // ----- Steps of Raft that stores do not notice -----

  predicate Silent(r: C.Step) {
    r.Timeout? || r.AnswerVote? || r.CountVote? || r.OpenRound? || r.Ship? || r.Receive? || r.Confirm?
  }

  lemma SilentStep(n: nat, s: S.System, r: C.Step) returns (s': S.System)
    requires ServiceReached(n, s) && Silent(r) && C.Enabled(s.c, r) && C.Actor(r) < |s.sites|
    ensures ServiceReached(n, s') && s'.c == C.After(s.c, r)
    ensures s'.sites == s.sites && s'.born == s.born && s'.answers == s.answers
  {
    ServiceReachedAfter(n, s, S.Raft(r));
    s' := S.After(s, S.Raft(r));
    assert s.sites[C.Actor(r) := s.sites[C.Actor(r)]] == s.sites;
  }

  // ----- An election -----

  const VOTER := FRESH.(term := 1, votedFor := 0)

  ghost function Candidate0(k: nat): Node {
    FRESH.(term := 1, votedFor := 0, role := Candidate, votes := Servers(k + 1))
  }

  /** Server 0 has asked for votes in term 1 and counted those of servers 1 to k. */
  ghost predicate Polling(c: C.Cluster, n: nat, k: nat) {
    && |c.nodes| == n && k < n
    && H.Key(0, 1) in c.h.reqs && c.h.reqs[H.Key(0, 1)] == []
    && c.nodes[0] == (if k < n / 2 then Candidate0(k) else Lead(Candidate0(k), n))
    && (forall j: nat :: 1 <= j <= k ==> c.nodes[j] == VOTER)
    && (forall j: nat :: k < j < n ==> c.nodes[j] == FRESH)
  }

  lemma Asked(n: nat)
    requires n >= 2
    ensures C.Enabled(C.Start(n), C.Timeout(0)) && Polling(C.After(C.Start(n), C.Timeout(0)), n, 0)
  {
    var c := C.Start(n);
    assert Servers(1) == Servers(0) + {0} == {0};
    assert c.nodes[0] == FRESH;
  }

  lemma VoteCast(c: C.Cluster, n: nat, k: nat, p: nat, c': C.Cluster)
    requires Polling(c, n, k) && k < n / 2 && p == k + 1
    requires C.Enabled(c, C.AnswerVote(p, 0, 1)) && c' == C.After(c, C.AnswerVote(p, 0, 1))
    ensures c'.nodes == c.nodes[p := VOTER] && c'.h.reqs == c.h.reqs
    ensures C.VoteAnswer(p, 0, 1, VoteReply(0, true)) in c'.msgs
  {
    assert c.nodes[p] == FRESH;
  }

  lemma OneMore(p: nat, q: nat)
    requires q == p + 1
    ensures Servers(q) == Servers(p) + {p} && |Servers(q)| == q
  {
    ServersSize(q);
  }

  lemma CountedNode(n: nat, k: nat, p: nat, s: Node, s': Node)
    requires k < n / 2 && p == k + 1 && s == Candidate0(k)
    requires s' == OnVoteReply(s, n, 1, p, VoteReply(0, true))
    ensures s' == if p < n / 2 then Candidate0(p) else Lead(Candidate0(p), n)
  {
    OneMore(p, p + 1);
    var counted := s.(votes := s.votes + {p});
    assert counted == Candidate0(p);
  }

  lemma CountingAsksNothing(c: C.Cluster, m: C.Message, h': H.State)
    requires C.Enabled(c, C.CountVote(m)) && h' == C.HistoryAfter(c, C.CountVote(m))
    ensures h'.reqs == c.h.reqs
  {}

  lemma VoteCounted(c: C.Cluster, n: nat, k: nat, p: nat, m: C.Message, c': C.Cluster)
    requires |c.nodes| == n && k < n / 2 && p == k + 1 && c.nodes[0] == Candidate0(k)
    requires m == C.VoteAnswer(p, 0, 1, VoteReply(0, true)) && m in c.msgs && c' == C.After(c, C.CountVote(m))
    ensures c'.h.reqs == c.h.reqs
    ensures c'.nodes == c.nodes[0 := if p < n / 2 then Candidate0(p) else Lead(Candidate0(p), n)]
  {
    CountedNode(n, k, p, c.nodes[0], OnVoteReply(c.nodes[0], n, 1, p, VoteReply(0, true)));
    CountingAsksNothing(c, m, c'.h);
  }

  lemma PollingNext(c: C.Cluster, n: nat, k: nat, p: nat, c': C.Cluster)
    requires Polling(c, n, k) && k < n / 2 && p == k + 1 && c'.h.reqs == c.h.reqs
    requires c'.nodes == c.nodes[p := VOTER][0 := if p < n / 2 then Candidate0(p) else Lead(Candidate0(p), n)]
    ensures Polling(c', n, p)
  {}

  lemma Polled(n: nat, s: S.System, k: nat) returns (s': S.System)
    requires ServiceReached(n, s) && Polling(s.c, n, k) && k < n / 2 && |s.sites| == n
    ensures ServiceReached(n, s') && Polling(s'.c, n, k + 1)
    ensures s'.sites == s.sites && s'.born == s.born && s'.answers == s.answers
  {
    var p: nat := k + 1;
    var s1 := SilentStep(n, s, C.AnswerVote(p, 0, 1));
    VoteCast(s.c, n, k, p, s1.c);
    var m := C.VoteAnswer(p, 0, 1, VoteReply(0, true));
    s' := SilentStep(n, s1, C.CountVote(m));
    VoteCounted(s1.c, n, k, p, m, s'.c);
    PollingNext(s.c, n, k, p, s'.c);
  }

  lemma {:induction false} Elected(n: nat, s: S.System, k: nat) returns (s': S.System)
    requires ServiceReached(n, s) && Polling(s.c, n, k) && k <= n / 2 && |s.sites| == n
    ensures ServiceReached(n, s') && Polling(s'.c, n, n / 2)
    ensures s'.sites == s.sites && s'.born == s.born && s'.answers == s.answers
    decreases n / 2 - k
  {
    if k < n / 2 {
      var s1 := Polled(n, s, k);
      s' := Elected(n, s1, k + 1);
    } else {
      s' := s;
    }
  }

  // ----- A command shipped to a majority -----

  const PING := AppendArgs(1, 0, 0, 0, [], 0)
  const ROUND := Round(1, 0)

  /** A server that any shipment of term 1 from the start of the log will be accepted by. */
  predicate Open(s: Node) {
    s.term <= 1 && s.log == [] && s.snap == 0 && s.commit == 0
  }

  predicate Leading(s: Node, n: nat, e: Entry) {
    && s.role.Leader? && s.term == 1 && e.term == 1 && s.log == [e] && s.snap == 0 && s.applied == 0 && s.commit <= 1
    && ROUND in s.rounds && |s.next| == |s.matched| == n
  }

  /** Server 0 leads with one command, which servers 1 to k have confirmed. */
  ghost predicate Shipping(c: C.Cluster, n: nat, e: Entry, k: nat) {
    && |c.nodes| == n && k < n && Leading(c.nodes[0], n, e)
    && (forall j: nat :: 1 <= j <= k ==> c.nodes[0].matched[j] == 1)
    && (forall j: nat :: k < j < n ==> c.nodes[0].next[j] == 1 && c.nodes[0].matched[j] == 0 && Open(c.nodes[j]))
    && (k > 0 && c.nodes[0].commit == 0 ==> !CanCommit(c.nodes[0], 0, 1))
  }

  ghost function ArgsOf(e: Entry): AppendArgs {
    PING.(entries := [e])
  }

  lemma FirstArgs(s: Node, n: nat, e: Entry, p: nat)
    requires Leading(s, n, e) && p < n && s.next[p] == 1
    ensures CanShip(s, p) && AppendArgsFor(s, 0, p, ROUND) == ArgsOf(e)
  {
    assert s.log[0..] == [e];
  }

  lemma ShipSends(c: C.Cluster, p: nat, s: Node, a: AppendArgs, c': C.Cluster)
    requires C.Enabled(c, C.Ship(0, p, ROUND)) && s == c.nodes[0] && a == AppendArgsFor(s, 0, p, ROUND)
    requires c' == C.After(c, C.Ship(0, p, ROUND))
    ensures c'.nodes == c.nodes[0 := s] && c'.msgs == c.msgs + {C.Shipment(p, s.term, a)}
  {}

  lemma Shipped(c: C.Cluster, n: nat, e: Entry, k: nat, p: nat, c': C.Cluster)
    requires Shipping(c, n, e, k) && p == k + 1 && p < n
    requires C.Enabled(c, C.Ship(0, p, ROUND)) && c' == C.After(c, C.Ship(0, p, ROUND))
    ensures c'.nodes == c.nodes && C.Shipment(p, 1, ArgsOf(e)) in c'.msgs
  {
    FirstArgs(c.nodes[0], n, e, p);
    ShipSends(c, p, c.nodes[0], ArgsOf(e), c');
    assert c.nodes[0 := c.nodes[0]] == c.nodes;
  }

  lemma Taken(s: Node, e: Entry)
    requires Open(s)
    ensures OnAppend(s, ArgsOf(e)).1 == AppendReply(1, true, NO_TERM, 0)
  {}

  lemma Received(c: C.Cluster, n: nat, e: Entry, p: nat, m: C.Message, c': C.Cluster)
    requires m == C.Shipment(p, 1, ArgsOf(e)) && m in c.msgs && 0 < p < |c.nodes| && Open(c.nodes[p])
    requires c' == C.After(c, C.Receive(m))
    ensures c'.nodes == c.nodes[p := c'.nodes[p]]
    ensures C.ShipmentAnswer(p, 1, ArgsOf(e), AppendReply(1, true, NO_TERM, 0)) in c'.msgs
  {
    Taken(c.nodes[p], e);
  }

  lemma Confirms(s: Node, n: nat, e: Entry, p: nat, s': Node)
    requires Leading(s, n, e) && p < n && s.matched[p] <= 1
    requires s' == OnAppendReply(s, 0, p, ArgsOf(e), AppendReply(1, true, NO_TERM, 0))
    ensures Leading(s', n, e) && s'.matched == s.matched[p := 1] && s'.next == s.next[p := 2]
    ensures s.commit <= s'.commit
    ensures s'.commit == 0 ==> !CanCommit(s', 0, 1)
  {
    var s1 := s.(matched := s.matched[p := 1], next := s.next[p := 2]);
    ScanCommitHighest(s1, 0, 1);
    assert s' == AdvanceCommit(s1, 0);
  }

  lemma Confirmed(c: C.Cluster, n: nat, e: Entry, p: nat, m: C.Message, c': C.Cluster)
    requires m == C.ShipmentAnswer(p, 1, ArgsOf(e), AppendReply(1, true, NO_TERM, 0)) && m in c.msgs
    requires |c.nodes| == n && 0 < p < n && Leading(c.nodes[0], n, e) && c.nodes[0].matched[p] == 0
    requires c' == C.After(c, C.Confirm(m))
    ensures c'.nodes == c.nodes[0 := c'.nodes[0]] && Leading(c'.nodes[0], n, e)
    ensures c'.nodes[0].matched == c.nodes[0].matched[p := 1] && c'.nodes[0].next == c.nodes[0].next[p := 2]
    ensures c'.nodes[0].commit == 0 ==> !CanCommit(c'.nodes[0], 0, 1)
  {
    Confirms(c.nodes[0], n, e, p, c'.nodes[0]);
  }

  lemma ShippingNext(c: C.Cluster, n: nat, e: Entry, k: nat, p: nat, c': C.Cluster, s0: Node, sp: Node)
    requires Shipping(c, n, e, k) && p == k + 1 && p < n && c'.nodes == c.nodes[p := sp][0 := s0] && Leading(s0, n, e)
    requires s0.matched == c.nodes[0].matched[p := 1] && s0.next == c.nodes[0].next[p := 2]
    requires s0.commit == 0 ==> !CanCommit(s0, 0, 1)
    ensures Shipping(c', n, e, p)
  {}

  lemma OneConfirms(n: nat, s: S.System, e: Entry, k: nat) returns (s': S.System)
    requires ServiceReached(n, s) && Shipping(s.c, n, e, k) && k + 1 < n && |s.sites| == n
    ensures ServiceReached(n, s') && Shipping(s'.c, n, e, k + 1)
    ensures s'.sites == s.sites && s'.born == s.born && s'.answers == s.answers
  {
    var p: nat := k + 1;
    var s1 := SilentStep(n, s, C.Ship(0, p, ROUND));
    Shipped(s.c, n, e, k, p, s1.c);
    var m := C.Shipment(p, 1, ArgsOf(e));
    var s2 := SilentStep(n, s1, C.Receive(m));
    Received(s1.c, n, e, p, m, s2.c);
    var m' := C.ShipmentAnswer(p, 1, ArgsOf(e), AppendReply(1, true, NO_TERM, 0));
    s' := SilentStep(n, s2, C.Confirm(m'));
    Confirmed(s2.c, n, e, p, m', s'.c);
    ShippingNext(s.c, n, e, k, p, s'.c, s'.c.nodes[0], s2.c.nodes[p]);
  }

  lemma {:induction false} MajorityConfirms(n: nat, s: S.System, e: Entry, k: nat) returns (s': S.System)
    requires ServiceReached(n, s) && Shipping(s.c, n, e, k) && k <= n / 2 < n && |s.sites| == n
    ensures ServiceReached(n, s') && Shipping(s'.c, n, e, n / 2)
    ensures s'.sites == s.sites && s'.born == s.born && s'.answers == s.answers
    decreases n / 2 - k
  {
    if k < n / 2 {
      var s1 := OneConfirms(n, s, e, k);
      s' := MajorityConfirms(n, s1, e, k + 1);
    } else {
      s' := s;
    }
  }

  lemma {:induction false} HoldersOfFirst(matched: seq<nat>, k: nat, i: nat)
    requires k < i <= |matched| && forall j: nat :: 1 <= j <= k ==> matched[j] == 1
    ensures Holders(matched, 0, 1, i) >= k
    decreases i
  {
    if i > k + 1 {
      HoldersOfFirst(matched, k, i - 1);
    } else if k > 0 {
      HoldersOfFirst(matched, k - 1, k);
    }
  }

  lemma Commits(c: C.Cluster, n: nat, e: Entry)
    requires Shipping(c, n, e, n / 2) && n >= 2
    ensures c.nodes[0].commit == 1
  {
    HoldersOfFirst(c.nodes[0].matched, n / 2, n);
    assert TermAt(c.nodes[0].log, 1) == 1;
  }

  // ----- From a submission to its answer -----

  /** Server 0 leads in term 1 with an empty log, and its store has seen nothing. */
  ghost predicate Ready(s: S.System, n: nat) {
    && Polling(s.c, n, n / 2) && n >= 2 && |s.sites| == n && s.sites[0] == S.Restarted(None, 0)
    && s.born == map[] && s.answers == map[]
  }

  lemma GetsReady(n: nat) returns (s: S.System)
    requires n >= 2
    ensures ServiceReached(n, s) && Ready(s, n)
  {
    var s0 := S.Start(n);
    ServiceReachedStart(n);
    Asked(n);
    var s1 := SilentStep(n, s0, C.Timeout(0));
    s := Elected(n, s1, 0);
  }

  const WAITING := S.Restarted(None, 0)

  ghost predicate Submitted(s: S.System, n: nat, cmd: Command) {
    && |s.sites| == n > 0 && s.answers == map[]
    && s.sites[0] == WAITING.(replica := WAITING.replica.(pending := map[1 := cmd.reqId]))
  }

  lemma Submits(n: nat, s: S.System, cmd: Command) returns (s': S.System)
    requires ServiceReached(n, s) && Ready(s, n)
    ensures ServiceReached(n, s') && Submitted(s', n, cmd)
    ensures s'.c.nodes == s.c.nodes[0 := OnStart(s.c.nodes[0], cmd)]
  {
    ServiceReachedAfter(n, s, S.Submit(0, cmd));
    s' := S.After(s, S.Submit(0, cmd));
  }

  lemma ShippingStarts(c: C.Cluster, n: nat, e: Entry, cmd: Command, c': C.Cluster)
    requires Polling(c, n, n / 2) && n >= 2 && e == Entry(1, Some(cmd))
    requires c'.nodes == c.nodes[0 := OnRound(OnStart(c.nodes[0], cmd))]
    ensures Shipping(c', n, e, 0)
  {}

  lemma StartsShipping(n: nat, cmd: Command, e: Entry) returns (s: S.System)
    requires n >= 2 && e == Entry(1, Some(cmd))
    ensures ServiceReached(n, s) && Submitted(s, n, cmd) && Shipping(s.c, n, e, 0)
  {
    var s0 := GetsReady(n);
    var s1 := Submits(n, s0, cmd);
    s := SilentStep(n, s1, C.OpenRound(0));
    ShippingStarts(s0.c, n, e, cmd, s.c);
  }

  /** Server 0 leads and has one command committed, which its submitter still waits for. */
  lemma FirstIsCommitted(n: nat, cmd: Command, e: Entry) returns (s: S.System)
    requires n >= 2 && e == Entry(1, Some(cmd))
    ensures ServiceReached(n, s) && Submitted(s, n, cmd)
    ensures |s.c.nodes| == n && Leading(s.c.nodes[0], n, e) && s.c.nodes[0].commit == 1
  {
    var s0 := StartsShipping(n, cmd, e);
    s := MajorityConfirms(n, s0, e, 0);
    Commits(s.c, n, e);
  }

  ghost predicate Told(s: S.System, n: nat, cmd: Command) {
    && |s.c.nodes| == n > 0 && s.c.nodes[0].role.Leader? && s.c.nodes[0].commit == 1
    && s.c.nodes[0].log == [Entry(1, Some(cmd))]
    && cmd.reqId in s.answers && s.answers[cmd.reqId] == Success
  }

  lemma Delivers(n: nat, s: S.System, cmd: Command) returns (s': S.System)
    requires ServiceReached(n, s) && Submitted(s, n, cmd) && n > 0
    requires |s.c.nodes| == n && Leading(s.c.nodes[0], n, Entry(1, Some(cmd))) && s.c.nodes[0].commit == 1
    ensures ServiceReached(n, s') && |s'.c.nodes| == n && s'.answers == map[] && |s'.sites| == n
    ensures s'.c.nodes[0] == OnDeliver(s.c.nodes[0])
    ensures s'.sites[0] == s.sites[0].(queue := [(1, Some(cmd))])
  {
    ServiceReachedAfter(n, s, S.Raft(C.Deliver(0)));
    s' := S.After(s, S.Raft(C.Deliver(0)));
  }

  lemma Tells(n: nat, s: S.System, cmd: Command) returns (s': S.System)
    requires ServiceReached(n, s) && |s.c.nodes| == n > 0 && |s.sites| == n
    requires s.sites[0].queue == [(1, Some(cmd))] && s.sites[0].replica.pending == map[1 := cmd.reqId]
    ensures ServiceReached(n, s') && s'.c == s.c && cmd.reqId in s'.answers && s'.answers[cmd.reqId] == Success
  {
    ServiceReachedAfter(n, s, S.Apply(0));
    s' := S.After(s, S.Apply(0));
  }

  /** With two or more servers, any command can be the first one committed, and its submitter told so. */
  lemma FirstIsTold(n: nat, cmd: Command) returns (s: S.System)
    requires n >= 2
    ensures ServiceReached(n, s) && Told(s, n, cmd)
  {
    var s0 := FirstIsCommitted(n, cmd, Entry(1, Some(cmd)));
    var s1 := Delivers(n, s0, cmd);
    s := Tells(n, s1, cmd);
  }

  // ----- Exactly which services can -----

  const ANY := Delete("", "")

  /** With at most one server nobody ever wins an election. */
  lemma TooFew(n: nat, c: C.Cluster)
    requires n <= 1 && Reached(n, c)
    ensures Safety.Unelected(c) && I.ClusterOk(c)
  {
    var run: seq<C.Cluster>, steps: seq<C.Step> :| Ends(n, run, steps, c);
    Safety.LoneServerNeverLeads(n, run, steps, |steps|);
    K.RunOk(n, run, steps, |steps|);
  }

  ghost predicate LeadsAt(n: nat, c: C.Cluster, i: nat) {
    Reached(n, c) && i < |c.nodes| && c.nodes[i].role.Leader?
  }

  /** Some run of n servers has a leader exactly when there are two of them or more. */
  lemma SomeoneLeads(n: nat)
    ensures (exists c: C.Cluster, i: nat :: LeadsAt(n, c, i)) <==> n >= 2
  {
    if n >= 2 {
      var s := FirstIsTold(n, ANY);
      ReachedBelow(n, s);
      assert LeadsAt(n, s.c, 0);
    } else if c: C.Cluster, i: nat :| LeadsAt(n, c, i) {
      TooFew(n, c);
      assert false;
    }
  }

  ghost predicate CommitsAt(n: nat, c: C.Cluster, i: nat) {
    Reached(n, c) && i < |c.nodes| && c.nodes[i].commit > 0
  }

  lemma NothingCommitted(c: C.Cluster, i: nat)
    requires I.ClusterOk(c) && c.h.reigns == map[] && i < |c.nodes|
    ensures c.nodes[i].commit == 0
  {
    Safety.NodeOwned(c, i);
  }

  /** Some run of n servers commits an entry exactly when there are two of them or more. */
  lemma SomethingIsCommitted(n: nat)
    ensures (exists c: C.Cluster, i: nat :: CommitsAt(n, c, i)) <==> n >= 2
  {
    if n >= 2 {
      var s := FirstIsTold(n, ANY);
      ReachedBelow(n, s);
      assert CommitsAt(n, s.c, 0);
    } else if c: C.Cluster, i: nat :| CommitsAt(n, c, i) {
      TooFew(n, c);
      NothingCommitted(c, i);
      assert false;
    }
  }

  ghost predicate SucceedsAt(n: nat, s: S.System, reqId: string) {
    ServiceReached(n, s) && reqId in s.answers && s.answers[reqId] == Success
  }

  lemma ServiceOk(n: nat, s: S.System)
    requires ServiceReached(n, s)
    ensures P.SystemOk(s)
  {
    var run: seq<S.System>, steps: seq<S.Step> :| ServiceEnds(n, run, steps, s);
    Q.SystemRunOk(n, run, steps, |steps|);
  }

  lemma NobodyTold(s: S.System, reqId: string)
    requires P.SystemOk(s) && s.c.h.reigns == map[] && reqId in s.answers
    ensures s.answers[reqId] != Success
  {
    Q.AnswerHolds(s, reqId);
  }

  /** Some run of a service of n servers answers a submission with success exactly when n >= 2. */
  lemma SomeoneSucceeds(n: nat)
    ensures (exists s: S.System, reqId: string :: SucceedsAt(n, s, reqId)) <==> n >= 2
  {
    if n >= 2 {
      var s := FirstIsTold(n, ANY);
      assert SucceedsAt(n, s, ANY.reqId);
    } else if s: S.System, reqId: string :| SucceedsAt(n, s, reqId) {
      ReachedBelow(n, s);
      TooFew(n, s.c);
      ServiceOk(n, s);
      NobodyTold(s, reqId);
      assert false;
    }
  }
}
