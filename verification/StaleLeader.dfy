/**
 A new leader whose store has not applied yet what the old leader committed runs a job a second time
 for one occurrence: a run of two servers that ends so, for every job that is due.
 */
module StaleLeader {
  import opened Commands
  import opened RaftTypes
  import opened RaftNode
  import opened Replicas
  import opened Firing
  import Electable
  import FirstCommit
  import H = History
  import I = ClusterInv
  import Q = SystemSafety
  import S = System

  /** A run of two servers so far. */
  datatype Story = Story(run: seq<S.System>, steps: seq<S.Step>)

  ghost predicate Unfolds(t: Story) {
    S.Run(2, t.run, t.steps)
  }

  ghost function Last(t: Story): S.System
    requires Unfolds(t)
  {
    t.run[|t.steps|]
  }

  /** t' goes on where t ends. */
  ghost predicate GoesOn(t: Story, t': Story) {
    Unfolds(t) && Unfolds(t') && t.run <= t'.run && t.steps <= t'.steps
  }

  lemma Go(t: Story, step: S.Step) returns (t': Story)
    requires Unfolds(t) && S.Enabled(Last(t), step)
    ensures GoesOn(t, t') && Last(t') == S.After(Last(t), step)
    ensures |t'.steps| == |t.steps| + 1 && t'.steps[|t.steps|] == step
  {
    t' := Story(t.run + [S.After(Last(t), step)], t.steps + [step]);
    forall k: nat | k < |t'.steps|
      ensures S.Enabled(t'.run[k], t'.steps[k]) && t'.run[k + 1] == S.After(t'.run[k], t'.steps[k])
    {
      if k < |t.steps| {
        assert S.Enabled(t.run[k], t.steps[k]) && t.run[k + 1] == S.After(t.run[k], t.steps[k]);
      }
    }
  }

  lemma GoesFurther(t: Story, t': Story, t'': Story)
    requires GoesOn(t, t') && GoesOn(t', t'')
    ensures GoesOn(t, t'')
  {}

  /** Only servers differ. */
  ghost predicate SameStores(s: S.System, s': S.System) {
    s'.sites == s.sites && s'.born == s.born && s'.answers == s.answers
  }

  lemma GoSilent(t: Story, r: C.Step, i: nat) returns (t': Story)
    requires Unfolds(t) && FirstCommit.Silent(r) && i == C.Actor(r) && i < 2
    requires |Last(t).c.nodes| == |Last(t).sites| == 2 && C.Enabled(Last(t).c, r)
    ensures GoesOn(t, t') && Last(t').c == C.After(Last(t).c, r)
    ensures SameStores(Last(t), Last(t'))
  {
    t' := Go(t, S.Raft(r));
    assert Last(t).sites[i := Last(t).sites[i]] == Last(t).sites;
  }

  // ----- An election between two servers with the same log -----

  ghost predicate Pair(s: S.System, i: nat, j: nat) {
    |s.c.nodes| == |s.sites| == 2 && i < 2 && j == 1 - i
  }

  lemma Grants(c: C.Cluster, i: nat, j: nat, term: nat, s: Node, c': C.Cluster)
    requires |c.nodes| == 2 && i < 2 && j == 1 - i && s == c.nodes[j] && s.term < term
    requires H.Key(i, term) in c.h.reqs && c.h.reqs[H.Key(i, term)] == s.log
    requires c' == C.After(c, C.AnswerVote(j, i, term))
    ensures c'.nodes == c.nodes[j := Electable.Granting(s, i, term)]
    ensures C.VoteAnswer(j, i, term, VoteReply(s.term, true)) in c'.msgs
  {
    assert OnVoteRequest(s, VoteArgsOf(i, term, s.log)) == (Electable.Granting(s, i, term), VoteReply(s.term, true));
  }

  function Elected(s: Node, i: nat, j: nat): Node {
    Lead(OnElectionTimeout(s, i).(votes := {i, j}), 2)
  }

  lemma Counts(c: C.Cluster, i: nat, j: nat, term: nat, was: nat, s: Node, c': C.Cluster)
    requires |c.nodes| == 2 && i < 2 && j == 1 - i && was < term == s.term + 1
    requires c.nodes[i] == OnElectionTimeout(s, i) && C.VoteAnswer(j, i, term, VoteReply(was, true)) in c.msgs
    requires c' == C.After(c, C.CountVote(C.VoteAnswer(j, i, term, VoteReply(was, true))))
    ensures c'.nodes == c.nodes[i := Elected(s, i, j)]
  {
    assert {i} + {j} == {i, j};
    assert OnVoteReply(c.nodes[i], 2, term, j, VoteReply(was, true)) == Elected(s, i, j);
  }

  lemma StoryOk(t: Story)
    requires Unfolds(t)
    ensures I.ClusterOk(Last(t).c)
  {
    Q.SystemRunOk(2, t.run, t.steps, |t.steps|);
  }

  lemma AsksFirst(t: Story, i: nat, j: nat, term: nat, a: Node, b: Node) returns (t': Story)
    requires Unfolds(t) && Pair(Last(t), i, j) && a == Last(t).c.nodes[i] && b == Last(t).c.nodes[j]
    requires !a.role.Leader? && term == a.term + 1
    ensures GoesOn(t, t') && Pair(Last(t'), i, j) && SameStores(Last(t), Last(t'))
    ensures Electable.Asked(Last(t').c, i, term)
    ensures Last(t').c.nodes[i] == OnElectionTimeout(a, i) && Last(t').c.nodes[j] == b
  {
    StoryOk(t);
    t' := GoSilent(t, C.Timeout(i), i);
    Electable.TimesOut(Last(t).c, i, term, Last(t').c);
  }

  lemma Polls(t: Story, i: nat, j: nat, term: nat, a: Node, b: Node) returns (t': Story)
    requires Unfolds(t) && Pair(Last(t), i, j) && a == Last(t).c.nodes[i] && b == Last(t).c.nodes[j]
    requires !a.role.Leader? && term == a.term + 1 && b.term < term && a.log == b.log
    ensures GoesOn(t, t') && Pair(Last(t'), i, j) && SameStores(Last(t), Last(t'))
    ensures Last(t').c.nodes[i] == OnElectionTimeout(a, i) && Last(t').c.nodes[j] == Electable.Granting(b, i, term)
    ensures C.VoteAnswer(j, i, term, VoteReply(b.term, true)) in Last(t').c.msgs
  {
    var t1 := AsksFirst(t, i, j, term, a, b);
    t' := GoSilent(t1, C.AnswerVote(j, i, term), j);
    Grants(Last(t1).c, i, j, term, b, Last(t').c);
    GoesFurther(t, t1, t');
  }

  lemma Wins(t: Story, i: nat, j: nat, term: nat, a: Node, b: Node) returns (t': Story)
    requires Unfolds(t) && Pair(Last(t), i, j) && a == Last(t).c.nodes[i] && b == Last(t).c.nodes[j]
    requires !a.role.Leader? && term == a.term + 1 && b.term < term && a.log == b.log
    ensures GoesOn(t, t') && Pair(Last(t'), i, j) && SameStores(Last(t), Last(t'))
    ensures Last(t').c.nodes[i] == Elected(a, i, j) && Last(t').c.nodes[j] == Electable.Granting(b, i, term)
  {
    var t1 := Polls(t, i, j, term, a, b);
    t' := GoSilent(t1, C.CountVote(C.VoteAnswer(j, i, term, VoteReply(b.term, true))), i);
    Counts(Last(t1).c, i, j, term, b.term, a, Last(t').c);
    GoesFurther(t, t1, t');
  }

  // ----- A command that both servers get -----

  function EntryOf(s: Node, cmd: Command): Entry {
    Entry(s.term, Some(cmd))
  }

  /** The leader, before the command, and its peer have the same log, and the leader knows that. */
  predicate Abreast(s: Node, b: Node, i: nat, j: nat) {
    && i < 2 && j == 1 - i && s.role.Leader? && |s.next| == |s.matched| == 2
    && s.next[j] == |s.log| + 1 && s.matched[j] <= |s.log| && s.snap == 0 && s.commit <= |s.log|
    && b.log == s.log && b.snap == 0 && b.term <= s.term
  }

  function Sending(s: Node, i: nat, cmd: Command): AppendArgs {
    AppendArgs(s.term, i, |s.log|, TermAt(s.log, |s.log|), [EntryOf(s, cmd)], s.commit)
  }

  /** The leader with a command submitted and a round begun. */
  function Begun(s: Node, cmd: Command): Node {
    OnRound(OnStart(s, cmd))
  }

  function Replicated(s: Node, j: nat, cmd: Command): Node
    requires j < |s.next| == |s.matched|
  {
    Begun(s, cmd).(matched := s.matched[j := |s.log| + 1], next := s.next[j := |s.log| + 2], commit := |s.log| + 1)
  }

  function Following(b: Node, s: Node, cmd: Command): Node {
    b.(role := Follower, term := s.term, log := s.log + [EntryOf(s, cmd)],
       commit := if s.commit <= b.commit then b.commit else s.commit)
  }

  lemma Ships(c: C.Cluster, i: nat, j: nat, s: Node, b: Node, cmd: Command, round: Round, c': C.Cluster)
    requires |c.nodes| == 2 && Abreast(s, b, i, j) && c.nodes[i] == Begun(s, cmd) && round == Round(s.term, s.commit)
    requires C.Enabled(c, C.Ship(i, j, round)) && c' == C.After(c, C.Ship(i, j, round))
    ensures c'.nodes == c.nodes && C.Shipment(j, s.term, Sending(s, i, cmd)) in c'.msgs
  {
    var log := c.nodes[i].log;
    assert log[|s.log|..] == [EntryOf(s, cmd)];
    assert TermAt(log, |s.log|) == TermAt(s.log, |s.log|);
    assert AppendArgsFor(c.nodes[i], i, j, round) == Sending(s, i, cmd);
    assert c.nodes[i := c.nodes[i]] == c.nodes;
  }

  function Took(s: Node): AppendReply {
    AppendReply(s.term, true, NO_TERM, 0)
  }

  lemma Takes(s: Node, b: Node, i: nat, j: nat, cmd: Command)
    requires Abreast(s, b, i, j)
    ensures OnAppend(b, Sending(s, i, cmd)) == (Following(b, s, cmd), Took(s))
  {
    assert Merge(b.log, |b.log|, [EntryOf(s, cmd)]) == s.log + [EntryOf(s, cmd)];
  }

  lemma Receives(c: C.Cluster, i: nat, j: nat, s: Node, b: Node, cmd: Command, m: C.Message, c': C.Cluster)
    requires |c.nodes| == 2 && Abreast(s, b, i, j) && c.nodes[j] == b
    requires m == C.Shipment(j, s.term, Sending(s, i, cmd)) && m in c.msgs && c' == C.After(c, C.Receive(m))
    ensures c'.nodes == c.nodes[j := Following(b, s, cmd)]
    ensures C.ShipmentAnswer(j, s.term, Sending(s, i, cmd), Took(s)) in c'.msgs
  {
    Takes(s, b, i, j, cmd);
  }

  lemma Settles(s: Node, b: Node, i: nat, j: nat, cmd: Command)
    requires Abreast(s, b, i, j)
    ensures OnAppendReply(Begun(s, cmd), i, j, Sending(s, i, cmd), Took(s)) == Replicated(s, j, cmd)
  {
    var k := |s.log| + 1;
    var s1 := Begun(s, cmd).(matched := s.matched[j := k], next := s.next[j := k + 1]);
    assert TermAt(s1.log, k) == s1.term;
    assert Holders(s1.matched, i, k, 1) == if j == 0 then 1 else 0;
    assert Holders(s1.matched, i, k, 2) == 1;
    assert CanCommit(s1, i, k);
  }

  lemma Confirms(c: C.Cluster, i: nat, j: nat, s: Node, b: Node, cmd: Command, m: C.Message, c': C.Cluster)
    requires |c.nodes| == 2 && Abreast(s, b, i, j) && c.nodes[i] == Begun(s, cmd)
    requires m == C.ShipmentAnswer(j, s.term, Sending(s, i, cmd), Took(s)) && m in c.msgs
    requires C.Enabled(c, C.Confirm(m)) && c' == C.After(c, C.Confirm(m))
    ensures c'.nodes == c.nodes[i := Replicated(s, j, cmd)]
  {
    Settles(s, b, i, j, cmd);
  }

  /** A new command at a leader, and its submitter waiting for it. */
  lemma Submits(t: Story, i: nat, cmd: Command, s: Node) returns (t': Story)
    requires Unfolds(t) && |Last(t).c.nodes| == |Last(t).sites| == 2 && i < 2 && s == Last(t).c.nodes[i]
    requires s.role.Leader? && cmd.reqId !in Last(t).born && cmd.reqId !in Last(t).answers
    ensures GoesOn(t, t') && |t'.steps| == |t.steps| + 1 && t'.steps[|t.steps|] == S.Submit(i, cmd)
    ensures Last(t').c.nodes == Last(t).c.nodes[i := OnStart(s, cmd)]
    ensures Last(t').sites == Last(t).sites[i := S.SubmitSite(Last(t).sites[i], s, cmd)]
    ensures Last(t').answers == Last(t).answers
    ensures Last(t').born == Last(t).born[cmd.reqId := S.Birth(i, s.term, |s.log| + 1)]
  {
    t' := Go(t, S.Submit(i, cmd));
  }

  lemma Reaches(t: Story, i: nat, j: nat, cmd: Command, s: Node, b: Node) returns (t': Story)
    requires Unfolds(t) && Pair(Last(t), i, j) && Abreast(s, b, i, j)
    requires Last(t).c.nodes[i] == OnStart(s, cmd) && Last(t).c.nodes[j] == b
    ensures GoesOn(t, t') && Pair(Last(t'), i, j) && SameStores(Last(t), Last(t'))
    ensures Last(t').c.nodes[i] == Begun(s, cmd) && Last(t').c.nodes[j] == Following(b, s, cmd)
    ensures C.ShipmentAnswer(j, s.term, Sending(s, i, cmd), Took(s)) in Last(t').c.msgs
  {
    var round := Round(s.term, s.commit);
    var t1 := GoSilent(t, C.OpenRound(i), i);
    var t2 := GoSilent(t1, C.Ship(i, j, round), i);
    Ships(Last(t1).c, i, j, s, b, cmd, round, Last(t2).c);
    var m := C.Shipment(j, s.term, Sending(s, i, cmd));
    t' := GoSilent(t2, C.Receive(m), j);
    Receives(Last(t2).c, i, j, s, b, cmd, m, Last(t').c);
    GoesFurther(t, t1, t2);
    GoesFurther(t, t2, t');
  }

  lemma Replicates(t: Story, i: nat, j: nat, cmd: Command, s: Node, b: Node) returns (t': Story)
    requires Unfolds(t) && Pair(Last(t), i, j) && Abreast(s, b, i, j)
    requires Last(t).c.nodes[i] == OnStart(s, cmd) && Last(t).c.nodes[j] == b
    ensures GoesOn(t, t') && Pair(Last(t'), i, j) && SameStores(Last(t), Last(t'))
    ensures Last(t').c.nodes[i] == Replicated(s, j, cmd) && Last(t').c.nodes[j] == Following(b, s, cmd)
  {
    var t1 := Reaches(t, i, j, cmd, s, b);
    var m := C.ShipmentAnswer(j, s.term, Sending(s, i, cmd), Took(s));
    t' := GoSilent(t1, C.Confirm(m), i);
    Confirms(Last(t1).c, i, j, s, b, cmd, m, Last(t').c);
    GoesFurther(t, t1, t');
  }

  // ----- A committed command that a store applies -----

  lemma Applies(t: Story, i: nat, cmd: Command, s: Node, site: S.Site) returns (t': Story)
    requires Unfolds(t) && |Last(t).c.nodes| == |Last(t).sites| == 2 && i < 2
    requires s == Last(t).c.nodes[i] && site == Last(t).sites[i] && site.queue == [] && s.snap == 0
    requires s.applied < s.commit <= |s.log| && s.log[s.applied].command == Some(cmd)
    ensures GoesOn(t, t') && |Last(t').c.nodes| == |Last(t').sites| == 2
    ensures Last(t').c.nodes == Last(t).c.nodes[i := s.(applied := s.applied + 1)]
    ensures Last(t').sites == Last(t).sites[i := Last(t').sites[i]] && Last(t').sites[i].queue == []
    ensures Last(t').sites[i].replica == OnApply(site.replica, cmd, s.applied + 1)
    ensures Last(t').sites[i].upto == s.applied + 1 && Last(t').born == Last(t).born
    ensures Last(t').answers == Answered(Last(t).answers, site.replica.pending, s.applied + 1, cmd)
  {
    var t1 := Go(t, S.Raft(C.Deliver(i)));
    var site1 := site.(queue := [(s.applied + 1, Some(cmd))]);
    assert site.queue + [(s.applied + 1, Some(cmd))] == site1.queue;
    assert Last(t1).sites == Last(t).sites[i := site1];
    t' := Go(t1, S.Step.Apply(i));
    GoesFurther(t, t1, t');
  }

  function Answered(answers: map<string, Outcome>, pending: map<nat, string>, x: nat, cmd: Command):
    map<string, Outcome>
  {
    if x in pending then answers[pending[x] := Verdict(pending[x], cmd)] else answers
  }

  // ----- The story -----

  lemma StillAbreast(s: Node, b: Node, i: nat, j: nat, cmd: Command, s': Node)
    requires Abreast(s, b, i, j) && s' == Replicated(s, j, cmd).(applied := s'.applied)
    ensures Abreast(s', Following(b, s, cmd), i, j)
  {}

  /** What a server shows: its Raft state, and what its store and its waiters hold. */
  ghost predicate Shows(s: S.System, i: nat, node: Node, state: StoreState, upto: nat, pending: map<nat, string>) {
    && i < |s.c.nodes| == |s.sites| == 2 && s.c.nodes[i] == node && s.sites[i].queue == []
    && s.sites[i].replica.state == state && s.sites[i].upto == upto && s.sites[i].replica.pending == pending
  }

  /** A leader that has applied all it holds gets one more command committed and applied. */
  lemma Stores(t: Story, i: nat, j: nat, cmd: Command, s: Node, b: Node, state: StoreState) returns (t': Story)
    requires Unfolds(t) && Pair(Last(t), i, j) && Abreast(s, b, i, j) && Last(t).c.nodes[j] == b
    requires Shows(Last(t), i, s, state, |s.log|, map[]) && s.applied == |s.log|
    requires cmd.reqId !in Last(t).born && cmd.reqId !in Last(t).answers
    ensures GoesOn(t, t') && |t.steps| < |t'.steps| && t'.steps[|t.steps|] == S.Submit(i, cmd)
    ensures Pair(Last(t'), i, j) && Last(t').c.nodes[j] == Following(b, s, cmd)
    ensures Shows(Last(t'), i, Replicated(s, j, cmd).(applied := |s.log| + 1), Apply(state, cmd), |s.log| + 1, map[])
    ensures Last(t').sites[j] == Last(t).sites[j]
    ensures Last(t').answers == Last(t).answers[cmd.reqId := Success]
    ensures Last(t').born.Keys == Last(t).born.Keys + {cmd.reqId}
  {
    var t1 := Submits(t, i, cmd, s);
    var t2 := Replicates(t1, i, j, cmd, s, b);
    t' := Applies(t2, i, cmd, Replicated(s, j, cmd), Last(t2).sites[i]);
    GoesFurther(t, t1, t2);
    GoesFurther(t, t2, t');
    assert map[|s.log| + 1 := cmd.reqId] - {|s.log| + 1} == map[];
  }

  lemma Opens() returns (t: Story)
    ensures Unfolds(t) && Pair(Last(t), 0, 1) && Last(t).born == map[] && Last(t).answers == map[]
    ensures Shows(Last(t), 0, Elected(FRESH, 0, 1), EMPTY, 0, map[])
    ensures Shows(Last(t), 1, Electable.Granting(FRESH, 0, 1), EMPTY, 0, map[])
  {
    var t0 := Story([S.Start(2)], []);
    t := Wins(t0, 0, 1, 1, FRESH, FRESH);
  }

  function Created(job: Job): Command {
    Upsert("create", job)
  }

  function Holding(job: Job): StoreState {
    Apply(EMPTY, Created(job))
  }

  function First0(job: Job): Node {
    Replicated(Elected(FRESH, 0, 1), 1, Created(job)).(applied := 1)
  }

  function First1(job: Job): Node {
    Following(Electable.Granting(FRESH, 0, 1), Elected(FRESH, 0, 1), Created(job))
  }

  /** Server 0 leads, and its store holds the job; server 1 has the command, not yet known as committed. */
  lemma Creates(job: Job) returns (t: Story)
    ensures Unfolds(t) && Pair(Last(t), 0, 1) && Abreast(First0(job), First1(job), 0, 1)
    ensures Shows(Last(t), 0, First0(job), Holding(job), 1, map[])
    ensures Shows(Last(t), 1, First1(job), EMPTY, 0, map[])
    ensures Last(t).born.Keys == {"create"} && Last(t).answers.Keys == {"create"}
  {
    var t0 := Opens();
    var s, b := Elected(FRESH, 0, 1), Electable.Granting(FRESH, 0, 1);
    t := Stores(t0, 0, 1, Created(job), s, b, EMPTY);
    StillAbreast(s, b, 0, 1, Created(job), First0(job));
  }

  function Then0(job: Job, sent: Command): Node {
    Replicated(First0(job), 1, sent).(applied := 2)
  }

  function Then1(job: Job, sent: Command): Node {
    Following(First1(job), First0(job), sent).(applied := 1)
  }

  lemma IdsApart()
    ensures "old" != "create" && "new" != "create" && "new" != "old"
  {
    assert "old"[0] != "create"[0] && "new"[0] != "create"[0] && "new"[0] != "old"[0];
  }

  ghost predicate Unused(s: S.System, reqId: string) {
    reqId !in s.born && reqId !in s.answers
  }

  /**
   The old leader has the command committed and applied, and has told its submitter; the store of
   server 1 has applied only the command that created the job.
   */
  lemma OldLeader(t: Story, job: Job, sent: Command, spare: string) returns (t': Story)
    requires Unfolds(t) && Pair(Last(t), 0, 1) && Abreast(First0(job), First1(job), 0, 1)
    requires Shows(Last(t), 0, First0(job), Holding(job), 1, map[])
    requires Shows(Last(t), 1, First1(job), EMPTY, 0, map[])
    requires Last(t).born.Keys == {"create"} && Last(t).answers.Keys == {"create"}
    requires sent.reqId != "create" && spare != "create" && spare != sent.reqId
    ensures GoesOn(t, t') && |t.steps| < |t'.steps| && t'.steps[|t.steps|] == S.Submit(0, sent)
    ensures Pair(Last(t'), 0, 1) && Last(t').c.nodes[0] == Then0(job, sent)
    ensures Shows(Last(t'), 1, Then1(job, sent), Holding(job), 1, map[])
    ensures sent.reqId in Last(t').answers && Last(t').answers[sent.reqId] == Success && Unused(Last(t'), spare)
  {
    var t1 := Stores(t, 0, 1, sent, First0(job), First1(job), Holding(job));
    t' := Applies(t1, 1, Created(job), Following(First1(job), First0(job), sent), Last(t1).sites[1]);
    GoesFurther(t, t1, t');
  }

  function Lead1(job: Job, sent: Command): Node {
    Elected(Then1(job, sent), 1, 0)
  }

  function Vote0(job: Job, sent: Command): Node {
    Electable.Granting(Then0(job, sent), 1, 2)
  }

  lemma NewAbreast(job: Job, sent: Command)
    ensures Abreast(Lead1(job, sent), Vote0(job, sent), 1, 0) && |Lead1(job, sent).log| == 2
    ensures Lead1(job, sent).log[1].command == Some(sent)
    ensures Lead1(job, sent).commit == Lead1(job, sent).applied == 1 && Lead1(job, sent).snap == 0
  {}

  /** Server 1 wins the next election, and its store has applied nothing more. */
  lemma NewLeader(t: Story, job: Job, sent: Command) returns (t': Story)
    requires Unfolds(t) && Pair(Last(t), 0, 1) && Last(t).c.nodes[0] == Then0(job, sent)
    requires Shows(Last(t), 1, Then1(job, sent), Holding(job), 1, map[])
    ensures GoesOn(t, t') && Pair(Last(t'), 1, 0) && Last(t').c.nodes[0] == Vote0(job, sent)
    ensures Shows(Last(t'), 1, Lead1(job, sent), Holding(job), 1, map[])
    ensures Last(t').born == Last(t).born && Last(t').answers == Last(t).answers
  {
    t' := Wins(t, 1, 0, 2, Then1(job, sent), Then0(job, sent));
  }

  /** A command of the new leader is committed, and told so, after the old one's reaches its store. */
  lemma NewCommand(t: Story, job: Job, sent: Command, again: Command) returns (t': Story)
    requires Unfolds(t) && Pair(Last(t), 1, 0) && Last(t).c.nodes[0] == Vote0(job, sent)
    requires Shows(Last(t), 1, Lead1(job, sent), Holding(job), 1, map[])
    requires again.reqId !in Last(t).born && again.reqId !in Last(t).answers
    ensures GoesOn(t, t') && |t.steps| < |t'.steps| && t'.steps[|t.steps|] == S.Submit(1, again)
    ensures again.reqId in Last(t').answers && Last(t').answers[again.reqId] == Success
    ensures forall r :: r in Last(t).answers ==> r in Last(t').answers && Last(t').answers[r] == Last(t).answers[r]
  {
    var s := Lead1(job, sent);
    NewAbreast(job, sent);
    var t1 := Submits(t, 1, again, s);
    var t2 := Replicates(t1, 1, 0, again, s, Vote0(job, sent));
    var s2 := Replicated(s, 0, again);
    var t3 := Applies(t2, 1, sent, s2, Last(t2).sites[1]);
    t' := Applies(t3, 1, again, s2.(applied := 2), Last(t3).sites[1]);
    GoesFurther(t, t1, t2);
    GoesFurther(t, t2, t3);
    GoesFurther(t, t3, t');
  }

  // ----- Two executions for one occurrence -----

  lemma ActHappened(t: Story, t': Story, a: Act, s: S.System, node: Node)
    requires GoesOn(t, t') && a.look == a.submit == |t.steps| < |t'.steps| && s == Last(t)
    requires Shows(s, a.server, node, Holding(a.job), 1, map[])
    requires Sched.ActionFor(a.pass, a.job, a.now) == Sched.Fire && NextOf(a).Some?
    requires t'.steps[|t.steps|] == S.Submit(a.server, CommandOf(a))
    ensures Acts(t'.run, t'.steps, a)
  {
    assert t'.run[|t.steps|] == s;
  }

  lemma ActStays(t: Story, t': Story, a: Act)
    requires GoesOn(t, t') && Acts(t.run, t.steps, a)
    ensures Acts(t'.run, t'.steps, a)
  {}

  lemma SuccessStays(t: Story, t': Story, a: Act)
    requires GoesOn(t, t') && Succeeded(t.run, a, |t.steps|)
    ensures Succeeded(t'.run, a, |t.steps|)
  {
    assert t'.run[|t.steps|] == Last(t);
  }

  /** The old leader has run the job, and the new one has won without having applied that. */
  ghost predicate RanOnce(t: Story, a: Act, job: Job, now: Instant) {
    && Unfolds(t) && Acts(t.run, t.steps, a) && Succeeded(t.run, a, |t.steps|)
    && a.job == job && a.now == now && a.pass == Sched.Ticking && a.server == 0 && a.reqId == "old"
    && Pair(Last(t), 1, 0) && Last(t).c.nodes[0] == Vote0(job, CommandOf(a))
    && Shows(Last(t), 1, Lead1(job, CommandOf(a)), Holding(job), 1, map[])
    && Unused(Last(t), "new")
  }

  lemma OldRuns(job: Job, now: Instant) returns (t: Story, a: Act)
    requires Sched.ActionFor(Sched.Ticking, job, now) == Sched.Fire && Sched.Upcoming(job.cronExpr, now).Some?
    ensures RanOnce(t, a, job, now)
  {
    var t1 := Creates(job);
    a := Act(Sched.Ticking, 0, |t1.steps|, now, |t1.steps|, "old", job);
    IdsApart();
    var t2 := OldLeader(t1, job, CommandOf(a), "new");
    ActHappened(t1, t2, a, Last(t1), First0(job));
    t := NewLeader(t2, job, CommandOf(a));
    ActStays(t2, t, a);
  }

  /** Both servers have run the job, at the same time and for the same occurrence, each told of success. */
  ghost predicate RanTwice(t: Story, a: Act, b: Act, toldA: nat, toldB: nat, job: Job, now: Instant) {
    && Unfolds(t) && Acts(t.run, t.steps, a) && Acts(t.run, t.steps, b) && a.reqId != b.reqId && a.server != b.server
    && a.job == b.job == job && a.now == b.now == now && a.pass == b.pass == Sched.Ticking
    && toldA <= b.look && Succeeded(t.run, a, toldA) && Succeeded(t.run, b, toldB)
  }

  /** The new leader's scheduler acts on what its store holds. */
  lemma NewAct(t: Story, job: Job, now: Instant, sent: Command, b: Act) returns (t': Story)
    requires b == Act(Sched.Ticking, 1, |t.steps|, now, |t.steps|, "new", job) && NextOf(b).Some?
    requires Sched.ActionFor(Sched.Ticking, job, now) == Sched.Fire
    requires Unfolds(t) && Pair(Last(t), 1, 0) && Last(t).c.nodes[0] == Vote0(job, sent)
    requires Shows(Last(t), 1, Lead1(job, sent), Holding(job), 1, map[])
    requires Unused(Last(t), "new")
    ensures GoesOn(t, t') && Acts(t'.run, t'.steps, b) && Succeeded(t'.run, b, |t'.steps|)
  {
    t' := NewCommand(t, job, sent, CommandOf(b));
    ActHappened(t, t', b, Last(t), Lead1(job, sent));
  }

  lemma NewRuns(t: Story, a: Act, job: Job, now: Instant) returns (t': Story, b: Act)
    requires Sched.ActionFor(Sched.Ticking, job, now) == Sched.Fire && Sched.Upcoming(job.cronExpr, now).Some?
    requires RanOnce(t, a, job, now)
    ensures RanTwice(t', a, b, |t.steps|, |t'.steps|, job, now)
  {
    b := Act(Sched.Ticking, 1, |t.steps|, now, |t.steps|, "new", job);
    t' := NewAct(t, job, now, CommandOf(a), b);
    ActStays(t, t', a);
    SuccessStays(t, t', a);
  }

  /**
   Every job that is due can be run twice for one occurrence: by the old leader, and after its
   submission succeeded by a new one that has not applied it yet.
   */
  lemma StaleLeaderRepeats(job: Job, now: Instant)
    requires Sched.ActionFor(Sched.Ticking, job, now) == Sched.Fire && Sched.Upcoming(job.cronExpr, now).Some?
    ensures exists t: Story, a: Act, b: Act, toldA: nat, toldB: nat :: RanTwice(t, a, b, toldA, toldB, job, now)
  {
    var t, a := OldRuns(job, now);
    var t', b := NewRuns(t, a, job, now);
    assert RanTwice(t', a, b, |t.steps|, |t'.steps|, job, now);
  }
}
