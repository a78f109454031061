/**
 A cluster of peers exchanging messages that may be lost, duplicated, reordered or delayed
 without bound: the set of messages only grows, and any of them may arrive at any moment.
 Timeouts, crashes and compaction happen at any moment, too.
 */
module Cluster {
  import opened Commands
  import opened RaftTypes
  import opened RaftNode
  import opened History

  /**
   A request for votes is its entry in the history's reqs; it is broadcast. A shipment is one
   AppendEntries call; src is history: the term of the leader whose log it carries, which the
   label args.term may be older than. An answer carries its request, as the reply closure does.
   */
  datatype Message =
    | VoteAnswer(from: nat, cand: nat, term: nat, vote: VoteReply)
    | Shipment(to: nat, src: nat, args: AppendArgs)
    | ShipmentAnswer(from: nat, src: nat, args: AppendArgs, reply: AppendReply)

  datatype Cluster = Cluster(nodes: seq<Node>, msgs: set<Message>, h: State)

  /**
   RequestVote saves its state twice, after raising the term and after voting, and AppendEntries
   twice, before and after touching the log: the last two steps are crashes in between.
   */
  datatype Step =
    | Timeout(i: nat)
    | AnswerVote(i: nat, cand: nat, term: nat)
    | CountVote(m: Message)
    | Submit(i: nat, cmd: Command)
    | OpenRound(i: nat)
    | Ship(i: nat, to: nat, round: Round)
    | Receive(m: Message)
    | Confirm(m: Message)
    | Compact(i: nat, index: nat)
    | Deliver(i: nat)
    | Crash(i: nat)
    | CrashInVote(i: nat, term: nat)
    | CrashInReceive(m: Message)

  predicate CrashOf(step: Step) {
    step.Crash? || step.CrashInVote? || step.CrashInReceive?
  }

  /**
   The guards the implementation itself has. That a leader's tables have the right size and its
   slices lie within its log holds in every reachable state, and so does the bound on Compact.
   */
  ghost predicate Enabled(c: Cluster, step: Step) {
    match step
    case Timeout(i) => i < |c.nodes| && !c.nodes[i].role.Leader?
    case AnswerVote(i, cand, term) => i < |c.nodes| && i != cand && Key(cand, term) in c.h.reqs
    case CountVote(m) => m in c.msgs && m.VoteAnswer? && m.cand < |c.nodes|
    case Submit(i, cmd) => i < |c.nodes|
    case OpenRound(i) => i < |c.nodes|
    case Ship(i, to, round) =>
      i < |c.nodes| && to < |c.nodes| && to != i && round in c.nodes[i].rounds && CanShip(c.nodes[i], to)
    case Receive(m) => m in c.msgs && m.Shipment? && m.to < |c.nodes|
    case Confirm(m) =>
      && m in c.msgs && m.ShipmentAnswer? && m.args.leader < |c.nodes| && m.from < |c.nodes|
      && Sized(c.nodes[m.args.leader], |c.nodes|)
    case Compact(i, index) => i < |c.nodes| && index <= c.nodes[i].applied
    case Deliver(i) => i < |c.nodes| && c.nodes[i].applied < c.nodes[i].commit
    case Crash(i) => i < |c.nodes|
    case CrashInVote(i, term) =>
      i < |c.nodes| && c.nodes[i].term < term && exists cand :: Key(cand, term) in c.h.reqs
    case CrashInReceive(m) => m in c.msgs && m.Shipment? && m.to < |c.nodes| && c.nodes[m.to].term <= m.args.term
  }

  /** The server a step runs on. */
  function Actor(step: Step): nat {
    match step
    case Timeout(i) => i
    case AnswerVote(i, _, _) => i
    case CountVote(m) => if m.VoteAnswer? then m.cand else 0
    case Submit(i, _) => i
    case OpenRound(i) => i
    case Ship(i, _, _) => i
    case Receive(m) => if m.Shipment? then m.to else 0
    case Confirm(m) => if m.ShipmentAnswer? then m.args.leader else 0
    case Compact(i, _) => i
    case Deliver(i) => i
    case Crash(i) => i
    case CrashInVote(i, _) => i
    case CrashInReceive(m) => if m.Shipment? then m.to else 0
  }

  ghost function VoteOn(c: Cluster, step: Step): (Node, VoteReply)
    requires step.AnswerVote? && Enabled(c, step)
  {
    OnVoteRequest(c.nodes[step.i], VoteArgsOf(step.cand, step.term, c.h.reqs[Key(step.cand, step.term)]))
  }

  ghost function NodeAfter(c: Cluster, step: Step): Node
    requires Enabled(c, step)
  {
    var s := c.nodes[Actor(step)];
    match step
    case Timeout(i) => OnElectionTimeout(s, i)
    case AnswerVote(_, _, _) => VoteOn(c, step).0
    case CountVote(m) => OnVoteReply(s, |c.nodes|, m.term, m.from, m.vote)
    case Submit(i, cmd) => OnStart(s, cmd)
    case OpenRound(i) => OnRound(s)
    case Ship(_, _, _) => s
    case Receive(m) => OnAppend(s, m.args).0
    case Confirm(m) => OnAppendReply(s, m.args.leader, m.from, m.args, m.reply)
    case Compact(i, index) => OnSnapshot(s, index)
    case Deliver(i) => OnDeliver(s)
    case Crash(i) => OnRestart(s)
    case CrashInVote(i, term) => OnRestart(StepDown(s, term))
    case CrashInReceive(m) => OnRestart(s.(term := m.args.term))
  }

  ghost function Sent(c: Cluster, step: Step): set<Message>
    requires Enabled(c, step)
  {
    match step
    case AnswerVote(i, cand, term) => {VoteAnswer(i, cand, term, VoteOn(c, step).1)}
    case Ship(i, to, round) =>
      {Shipment(to, c.nodes[i].term, AppendArgsFor(c.nodes[i], i, to, round))}
    case Receive(m) =>
      {ShipmentAnswer(m.to, m.src, m.args, OnAppend(c.nodes[m.to], m.args).1)}
    case _ => {}
  }

  /** The history move a step amounts to; the last branch is any step without a move of its own. */
  ghost function HistoryAfter(c: Cluster, step: Step): State
    requires Enabled(c, step)
  {
    var i := Actor(step);
    var s := c.nodes[i];
    var s' := NodeAfter(c, step);
    if step.Timeout? && Shape(c.h) && i < |c.h.terms| then
      Campaign(c.h, i, s'.term)
    else if step.AnswerVote? && VoteOn(c, step).1.granted && CanGrant(c.h, i, step.term, step.cand) then
      Grant(c.h, i, step.term, step.cand)
    else if step.CountVote? && s'.role.Leader? && !s.role.Leader? && CanElect(c.h, i, s.term, s'.votes) then
      Elect(c.h, i, s.term, s'.votes)
    else if step.Submit? && s.role.Leader? && CanExtend(c.h, s.term, Entry(s.term, Some(step.cmd))) then
      Extend(c.h, s.term, Entry(s.term, Some(step.cmd)))
    else if step.Receive? && OnAppend(s, step.m.args).1.success
            && CanAccept(c.h, i, step.m.args.term, step.m.src, LastSent(step.m.args)) then
      Accept(c.h, i, step.m.args.term, step.m.src, LastSent(step.m.args))
    else if i < |c.h.terms| then
      Raise(c.h, i, s'.term)
    else
      c.h
  }

  ghost function After(c: Cluster, step: Step): Cluster
    requires Enabled(c, step)
  {
    Cluster(c.nodes[Actor(step) := NodeAfter(c, step)], c.msgs + Sent(c, step), HistoryAfter(c, step))
  }

  ghost function Start(n: nat): Cluster {
    Cluster(seq(n, i => FRESH), {}, State(seq(n, i => 0), seq(n, i => []), map[], map[], map[], map[]))
  }

  /** A run: any steps in any order from a cluster of n fresh servers. */
  ghost predicate Run(n: nat, run: seq<Cluster>, steps: seq<Step>) {
    && |run| == |steps| + 1 && run[0] == Start(n)
    && forall k: nat :: k < |steps| ==> Enabled(run[k], steps[k]) && run[k + 1] == After(run[k], steps[k])
  }
}
