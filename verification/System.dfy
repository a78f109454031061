/**
 The whole service: a Raft cluster with one store per server on top. What Raft delivers waits in a
 channel; stores apply it, tell submitters, and hand snapshots to background tasks that reach
 Raft in any order, or never.
 */
module System {
  import opened Commands
  import opened RaftNode
  import opened Replicas
  import C = Cluster

  /**
   upto is history: the index the store has processed; queue is what Raft has sent up since;
   tasks are the snapshots on their way to Raft; disk is the snapshot the persister holds.
   */
  datatype Site = Site(
    replica: Replica,
    upto: nat,
    queue: seq<(nat, Option<Command>)>,
    tasks: set<(nat, StoreState)>,
    disk: Option<StoreState>)

  /** Where a submitted command was first put: the leader, its term, and the index Start returned. */
  datatype Birth = Birth(server: nat, term: nat, index: nat)

  /** born and answers are history: accepted requests, and what submitters were told. */
  datatype System = System(
    c: C.Cluster,
    sites: seq<Site>,
    born: map<string, Birth>,
    answers: map<string, Outcome>)

  /**
   Raft is any cluster step that does not involve the store by itself. Submit uses a request id
   never used before. GiveUp may strike at any index: a timed-out submitter removes whatever
   waits there. SaveSnapshot has no guard either: that a task's index has been applied is proved.
   */
  datatype Step =
    | Raft(step: C.Step)
    | Submit(i: nat, cmd: Command)
    | Apply(i: nat)
    | SaveSnapshot(i: nat, task: (nat, StoreState))
    | GiveUp(i: nat, index: nat)

  ghost predicate Enabled(s: System, step: Step) {
    match step
    case Raft(r) => C.Enabled(s.c, r) && !r.Submit? && !r.Compact? && C.Actor(r) < |s.sites|
    case Submit(i, cmd) => i < |s.c.nodes| && i < |s.sites| && cmd.reqId !in s.born && cmd.reqId !in s.answers
    case Apply(i) => i < |s.sites| && s.sites[i].queue != []
    case SaveSnapshot(i, task) => i < |s.c.nodes| && i < |s.sites| && task in s.sites[i].tasks
    case GiveUp(i, index) => i < |s.sites|
  }

  /** A server that starts, or starts again, with what the persister holds. */
  function Restarted(disk: Option<StoreState>, snap: nat): Site {
    Site(Replica(if disk.None? then EMPTY else disk.value, map[], 0), snap, [], {}, disk)
  }

  /** What a Raft step of its server does to a site. */
  function SiteAfter(site: Site, node: Node, r: C.Step): Site {
    if C.CrashOf(r) then
      Restarted(site.disk, node.snap)
    else if r.Deliver? && node.snap <= node.applied < |node.log| then
      site.(queue := site.queue + [(node.applied + 1, node.log[node.applied].command)])
    else
      site
  }

  function SubmitSite(site: Site, node: Node, cmd: Command): Site {
    if node.role.Leader? then
      site.(replica := site.replica.(pending := site.replica.pending[|node.log| + 1 := cmd.reqId]))
    else
      site
  }

  /** The store handles the first message of its channel. */
  function ApplySite(site: Site): Site
    requires site.queue != []
  {
    var (index, command) := site.queue[0];
    match command
    case None => site.(upto := index, queue := site.queue[1..])
    case Some(cmd) =>
      var due := Due(site.replica, cmd, index);
      site.(replica := OnApply(site.replica, cmd, index), upto := index, queue := site.queue[1..],
            tasks := if due.Some? then site.tasks + {due.value} else site.tasks)
  }

  /** A snapshot task reaches Raft, which saves it unless it has a newer one. */
  function SaveSite(site: Site, node: Node, task: (nat, StoreState)): Site {
    site.(tasks := site.tasks - {task}, disk := if task.0 <= node.snap then site.disk else Some(task.1))
  }

  function GiveUpSite(site: Site, index: nat): Site {
    site.(replica := site.replica.(pending := site.replica.pending - {index}))
  }

  /** The waiter, if any, that the next application tells something, and what. */
  function Told(site: Site): Option<(string, Outcome)>
    requires site.queue != []
  {
    var (index, command) := site.queue[0];
    if command.Some? && index in site.replica.pending
    then Some((site.replica.pending[index], Verdict(site.replica.pending[index], command.value)))
    else None
  }

  ghost function Compacted(c: C.Cluster, i: nat, index: nat): C.Cluster
    requires i < |c.nodes|
  {
    if C.Enabled(c, C.Compact(i, index)) then C.After(c, C.Compact(i, index)) else c
  }

  ghost function After(s: System, step: Step): System
    requires Enabled(s, step)
  {
    match step
    case Raft(r) =>
      var i := C.Actor(r);
      s.(c := C.After(s.c, r), sites := s.sites[i := SiteAfter(s.sites[i], s.c.nodes[i], r)])
    case Submit(i, cmd) =>
      var node := s.c.nodes[i];
      s.(c := C.After(s.c, C.Submit(i, cmd)), sites := s.sites[i := SubmitSite(s.sites[i], node, cmd)],
         born := if node.role.Leader? then s.born[cmd.reqId := Birth(i, node.term, |node.log| + 1)] else s.born,
         answers := if node.role.Leader? then s.answers else s.answers[cmd.reqId := ErrNotLeader])
    case Apply(i) =>
      var told := Told(s.sites[i]);
      s.(sites := s.sites[i := ApplySite(s.sites[i])],
         answers := if told.Some? then s.answers[told.value.0 := told.value.1] else s.answers)
    case SaveSnapshot(i, task) =>
      s.(c := Compacted(s.c, i, task.0), sites := s.sites[i := SaveSite(s.sites[i], s.c.nodes[i], task)])
    case GiveUp(i, index) =>
      s.(sites := s.sites[i := GiveUpSite(s.sites[i], index)])
  }

  ghost function Start(n: nat): System {
    System(C.Start(n), seq(n, i => Restarted(None, 0)), map[], map[])
  }

  ghost predicate Run(n: nat, run: seq<System>, steps: seq<Step>) {
    && |run| == |steps| + 1 && run[0] == Start(n)
    && forall k: nat :: k < |steps| ==> Enabled(run[k], steps[k]) && run[k + 1] == After(run[k], steps[k])
  }
}
