/**
 The replicated job store as a function of the commands applied to it, and what any sequence
 of commands leaves in it.
 */
module Replicas {
  import opened Commands
  import opened RaftTypes

  const MAX_RUNS := 10
  const SNAP_THRESHOLD := 100

  const EMPTY := StoreState(map[], map[])

  /** The newest entries, up to the cap. */
  function Capped(runs: seq<RunRecord>): seq<RunRecord> {
    if |runs| > MAX_RUNS then runs[|runs| - MAX_RUNS..] else runs
  }

  function RunsOf(s: StoreState, id: string): seq<RunRecord> {
    if id in s.runs then s.runs[id] else []
  }

  function Noted(job: Job, run: RunRecord): Job {
    job.(lastRun := run.startedAt, lastStatus := run.status)
  }

  function Apply(s: StoreState, cmd: Command): StoreState {
    match cmd
    case Upsert(_, job) => s.(jobs := s.jobs[job.id := job])
    case Delete(_, id) => StoreState(s.jobs - {id}, s.runs - {id})
    case Record(_, run) =>
      StoreState(if run.jobId in s.jobs then s.jobs[run.jobId := Noted(s.jobs[run.jobId], run)] else s.jobs,
                 s.runs[run.jobId := Capped(RunsOf(s, run.jobId) + [run])])
  }

  /** An entry without a command is skipped. */
  function ApplyEntry(s: StoreState, command: Option<Command>): StoreState {
    match command
    case None => s
    case Some(cmd) => Apply(s, cmd)
  }

  /** The store after a log prefix. */
  function Fold(log: Log): StoreState {
    if log == [] then EMPTY else ApplyEntry(Fold(log[..|log| - 1]), log[|log| - 1].command)
  }

  // ----- What a sequence of commands leaves behind -----

  predicate Deletes(e: Entry, id: string) {
    e.command.Some? && e.command.value.Delete? && e.command.value.id == id
  }

  predicate Upserts(e: Entry, id: string) {
    e.command.Some? && e.command.value.Upsert? && e.command.value.job.id == id
  }

  predicate Records(e: Entry, id: string) {
    e.command.Some? && e.command.value.Record? && e.command.value.run.jobId == id
  }

  function Deleting(id: string): Entry -> bool {
    e => Deletes(e, id)
  }

  function Upserting(id: string): Entry -> bool {
    e => Upserts(e, id)
  }

  /** One past the last entry with a property, or 0. */
  function PastLast(log: Log, p: Entry -> bool): (k: nat)
    ensures k <= |log|
    ensures k > 0 ==> p(log[k - 1])
    ensures forall i :: k <= i < |log| ==> !p(log[i])
  {
    if log == [] then 0
    else if p(log[|log| - 1]) then |log|
    else PastLast(log[..|log| - 1], p)
  }

  /** The runs recorded for id, in order. */
  function RunsRecorded(log: Log, id: string): seq<RunRecord> {
    if log == [] then []
    else
      var front, e := RunsRecorded(log[..|log| - 1], id), log[|log| - 1];
      if Records(e, id) then front + [e.command.value.run] else front
  }

  function SinceDelete(log: Log, id: string): Log {
    log[PastLast(log, Deleting(id))..]
  }

  /** The last upsert of id since its last delete, with the last run recorded after that, if any. */
  function JobLeft(log: Log, id: string): Option<Job> {
    var since := SinceDelete(log, id);
    var k := PastLast(since, Upserting(id));
    if k == 0 then None
    else
      var job := since[k - 1].command.value.job;
      var runs := RunsRecorded(since[k..], id);
      Some(if runs == [] then job
           else job.(lastRun := runs[|runs| - 1].startedAt, lastStatus := runs[|runs| - 1].status))
  }

  lemma PastLastStep(log: Log, e: Entry, p: Entry -> bool)
    ensures PastLast(log + [e], p) == if p(e) then |log| + 1 else PastLast(log, p)
  {
    assert (log + [e])[..|log|] == log;
  }

  lemma SinceDeleteStep(log: Log, e: Entry, id: string)
    ensures SinceDelete(log + [e], id) == if Deletes(e, id) then [] else SinceDelete(log, id) + [e]
  {
    PastLastStep(log, e, Deleting(id));
  }

  lemma RunsRecordedStep(log: Log, e: Entry, id: string)
    ensures RunsRecorded(log + [e], id)
         == RunsRecorded(log, id) + if Records(e, id) then [e.command.value.run] else []
  {
    assert (log + [e])[..|log|] == log;
  }

  /** How one more entry changes the job left for id. */
  function JobNext(left: Option<Job>, e: Entry, id: string): Option<Job> {
    if Deletes(e, id) then None
    else if Upserts(e, id) then Some(e.command.value.job)
    else if Records(e, id) && left.Some? then Some(Noted(left.value, e.command.value.run))
    else left
  }

  lemma JobSinceStep(since: Log, e: Entry, id: string, k: nat)
    requires k == PastLast(since, Upserting(id)) && !Upserts(e, id) && k > 0
    ensures PastLast(since + [e], Upserting(id)) == k
    ensures RunsRecorded((since + [e])[k..], id)
         == RunsRecorded(since[k..], id) + if Records(e, id) then [e.command.value.run] else []
  {
    PastLastStep(since, e, Upserting(id));
    assert (since + [e])[k..] == since[k..] + [e];
    RunsRecordedStep(since[k..], e, id);
  }

  lemma JobLeftStep(log: Log, e: Entry, id: string)
    ensures JobLeft(log + [e], id) == JobNext(JobLeft(log, id), e, id)
  {
    SinceDeleteStep(log, e, id);
    if !Deletes(e, id) {
      var since := SinceDelete(log, id);
      var k := PastLast(since, Upserting(id));
      PastLastStep(since, e, Upserting(id));
      if Upserts(e, id) {
        assert (since + [e])[|since| + 1..] == [];
      } else if k > 0 {
        JobSinceStep(since, e, id, k);
      }
    }
  }

  lemma CappedStep(runs: seq<RunRecord>, run: RunRecord)
    ensures Capped(Capped(runs) + [run]) == Capped(runs + [run])
  {}

  lemma FoldStep(log: Log, e: Entry)
    ensures Fold(log + [e]) == ApplyEntry(Fold(log), e.command)
  {
    assert (log + [e])[..|log|] == log;
  }

  lemma ApplyRuns(s: StoreState, e: Entry, id: string)
    ensures RunsOf(ApplyEntry(s, e.command), id)
         == if Deletes(e, id) then []
            else if Records(e, id) then Capped(RunsOf(s, id) + [e.command.value.run])
            else RunsOf(s, id)
  {}

  function JobOf(s: StoreState, id: string): Option<Job> {
    if id in s.jobs then Some(s.jobs[id]) else None
  }

  lemma ApplyJob(s: StoreState, e: Entry, id: string)
    ensures JobOf(ApplyEntry(s, e.command), id) == JobNext(JobOf(s, id), e, id)
  {}

  lemma {:induction false} RunsCapped(log: Log, id: string)
    ensures RunsOf(Fold(log), id) == Capped(RunsRecorded(SinceDelete(log, id), id))
    decreases |log|
  {
    if log != [] {
      var front, e := log[..|log| - 1], log[|log| - 1];
      assert log == front + [e];
      RunsCapped(front, id);
      FoldStep(front, e);
      ApplyRuns(Fold(front), e, id);
      SinceDeleteStep(front, e, id);
      var since := SinceDelete(front, id);
      RunsRecordedStep(since, e, id);
      if Records(e, id) {
        CappedStep(RunsRecorded(since, id), e.command.value.run);
      }
    }
  }

  lemma CappedIs(runs: seq<RunRecord>, held: seq<RunRecord>)
    requires held == Capped(runs)
    ensures |held| == (if |runs| < 10 then |runs| else 10)
    ensures forall k: nat :: k < |held| ==> held[k] == runs[|runs| - |held| + k]
  {
    assert held == runs[|runs| - |held|..];
  }

  /** After any commands, the run history of id is the newest ten of the runs recorded since its last delete. */
  lemma RunsHeld(log: Log, id: string, recorded: seq<RunRecord>, held: seq<RunRecord>)
    requires recorded == RunsRecorded(SinceDelete(log, id), id) && held == RunsOf(Fold(log), id)
    ensures |held| == (if |recorded| < 10 then |recorded| else 10)
    ensures forall k: nat :: k < |held| ==> held[k] == recorded[|recorded| - |held| + k]
  {
    RunsCapped(log, id);
    CappedIs(recorded, held);
  }

  /** After any commands, the job is its last upsert since its last delete, with the last later run noted. */
  lemma {:induction false} JobHeld(log: Log, id: string)
    ensures JobOf(Fold(log), id) == JobLeft(log, id)
    decreases |log|
  {
    if log != [] {
      var front, e := log[..|log| - 1], log[|log| - 1];
      assert log == front + [e];
      JobHeld(front, id);
      FoldStep(front, e);
      ApplyJob(Fold(front), e, id);
      JobLeftStep(front, e, id);
    }
  }

  /** A log's prefix decides the store it leaves. */
  lemma FoldPrefix(a: Log, b: Log, m: nat, k: nat)
    requires m <= k <= |a| && a[..k] <= b
    ensures Fold(a[..m]) == Fold(b[..m]) && (m < k ==> a[m] == b[m])
  {
    assert a[..k][..m] == a[..m] == b[..m];
  }

  // ----- A replica with its waiters -----

  datatype Outcome = Success | ErrNotLeader

  /** The store, the request waiting at each index, and the commands applied since the last snapshot. */
  datatype Replica = Replica(state: StoreState, pending: map<nat, string>, count: nat)

  /** What a waiter is told when cmd is applied at its index. */
  function Verdict(reqId: string, cmd: Command): Outcome {
    if cmd.reqId == reqId then Success else ErrNotLeader
  }

  function OnApply(r: Replica, cmd: Command, index: nat): Replica {
    Replica(Apply(r.state, cmd), r.pending - {index}, if r.count + 1 >= SNAP_THRESHOLD then 0 else r.count + 1)
  }

  /** The snapshot that applying a command makes due, as the index and state to save. */
  function Due(r: Replica, cmd: Command, index: nat): Option<(nat, StoreState)> {
    if r.count + 1 >= SNAP_THRESHOLD then Some((index, Apply(r.state, cmd))) else None
  }

  // ----- When a snapshot falls due -----

  /** The replica after a boot and the commands applied since, each at its index. */
  function AfterAll(r: Replica, done: seq<(nat, Command)>): Replica {
    if done == [] then r
    else OnApply(AfterAll(r, done[..|done| - 1]), done[|done| - 1].1, done[|done| - 1].0)
  }

  lemma HundredTurns(n: nat, count: nat)
    requires count == n % 100
    ensures (n + 1) % 100 == if count + 1 >= 100 then 0 else count + 1
  {}

  lemma AfterOne(r: Replica, done: seq<(nat, Command)>, index: nat, cmd: Command)
    ensures AfterAll(r, done + [(index, cmd)]) == OnApply(AfterAll(r, done), cmd, index)
  {
    assert (done + [(index, cmd)])[..|done|] == done;
  }

  lemma {:induction false} CountApplied(r: Replica, done: seq<(nat, Command)>)
    requires r.count == 0
    ensures AfterAll(r, done).count == |done| % 100
    decreases |done|
  {
    if done != [] {
      CountApplied(r, done[..|done| - 1]);
      HundredTurns(|done| - 1, AfterAll(r, done[..|done| - 1]).count);
    }
  }

  /** Since a boot, exactly every hundredth application yields a snapshot: the state it leaves, at its index. */
  lemma SnapshotEveryHundredth(r: Replica, done: seq<(nat, Command)>, index: nat, cmd: Command)
    requires r.count == 0
    ensures Due(AfterAll(r, done), cmd, index) ==
      if (|done| + 1) % 100 == 0 then Some((index, AfterAll(r, done + [(index, cmd)]).state)) else None
  {
    CountApplied(r, done);
    HundredTurns(|done|, AfterAll(r, done).count);
    AfterOne(r, done, index, cmd);
  }
}
