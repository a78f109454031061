/**
 Firing due jobs, on one store. Each submitted command is taken to be applied, or lost for good,
 before the scheduler looks at the store again; a submission that fails may have been applied all
 the same. Firing.dfy has the schedulers of all servers, without that restriction.
 */
module Scheduler {
  import opened Commands
  import opened CronNext
  import opened CronParse
  import opened RaftTypes
  import opened Replicas

  // ----- The next occurrence -----

  function Upcoming(expr: string, now: Instant): Option<Instant> {
    var e := Reading(expr);
    if e.Err? || NextAfter(e.value, now) == ZERO_TIME then None else Some(NextAfter(e.value, now))
  }

  /** The next occurrence of an accepted expression; none if the expression is invalid. */
  method NextRun(expr: string, now: Instant) returns (next: Option<Instant>)
    ensures next == Upcoming(expr, now)
  {
    var e := Parse(expr);
    if e.Err? {
      return None;
    }
    var t := Next(e.value, now);
    if t == ZERO_TIME {
      return None;
    }
    next := Some(t);
  }

  /** An occurrence lies ahead, and it is the first one there is. */
  lemma UpcomingIsFirst(expr: string, now: Instant)
    requires Upcoming(expr, now).Some?
    ensures var next := Upcoming(expr, now).value;
      && Reading(expr).Ok? && now < next && next % NANOS_PER_MINUTE == 0
      && Matches(Reading(expr).value, next / NANOS_PER_MINUTE)
      && forall k :: now < k * NANOS_PER_MINUTE < next ==> !Matching(Reading(expr).value)(k)
  {
    NextIsLeast(Reading(expr).value, now);
  }

  /** There is a next occurrence exactly for an accepted expression whose first match is not the zero time. */
  lemma UpcomingExactly(expr: string, now: Instant)
    ensures Upcoming(expr, now).Some? <==> Reading(expr).Ok? && !FirstAtZero(Reading(expr).value, now)
    ensures now >= ZERO_TIME ==> (Upcoming(expr, now).Some? <==> Reading(expr).Ok?)
  {
    if Reading(expr).Ok? {
      AcceptedRuns(expr, now);
    }
  }

  // ----- What firing may do -----

  function Advanced(s: StoreState, job: Job, next: Instant): StoreState {
    Apply(s, Upsert("", job.(nextRun := next)))
  }

  function Logged(s: StoreState, run: RunRecord): StoreState {
    Apply(s, Record("", run))
  }

  /** The submission of the new occurrence fails, fails and is applied, or succeeds. */
  ghost predicate MayAdvance(s: StoreState, s': StoreState, job: Job, next: Option<Instant>) {
    s' == s || (next.Some? && s' == Advanced(s, job, next.value))
  }

  /** The job ran: its new occurrence had been stored, and its run may have been recorded. */
  ghost predicate MayRecord(s: StoreState, s': StoreState, job: Job, next: Option<Instant>) {
    next.Some? &&
    (s' == Advanced(s, job, next.value)
     || exists run: RunRecord :: run.jobId == job.id && s' == Logged(Advanced(s, job, next.value), run))
  }

  ghost predicate Fired(s: StoreState, s': StoreState, job: Job, next: Option<Instant>, ran: bool) {
    if ran then MayRecord(s, s', job, next) else MayAdvance(s, s', job, next)
  }

  // ----- Seen from one job -----

  /** A job differs at most in when it ran last, and how that went. */
  ghost predicate SameButNoted(job: Job, job': Job) {
    job' == job.(lastRun := job'.lastRun, lastStatus := job'.lastStatus)
  }

  ghost predicate JobFired(job: Job, job': Job, next: Option<Instant>, ran: bool) {
    if ran then next.Some? && SameButNoted(job.(nextRun := next.value), job')
    else job' == job || (next.Some? && job' == job.(nextRun := next.value))
  }

  lemma FiredView(s: StoreState, s': StoreState, job: Job, next: Option<Instant>, ran: bool)
    requires Fired(s, s', job, next, ran) && job.id in s.jobs && s.jobs[job.id] == job
    ensures s'.jobs.Keys == s.jobs.Keys && JobFired(job, s'.jobs[job.id], next, ran)
    ensures forall id :: id in s.jobs && id != job.id ==> s'.jobs[id] == s.jobs[id]
  {}

  /** The two ways of going through the jobs: the regular tick, and catching up after a start. */
  datatype Pass = Ticking | Reconciling

  datatype Action = Ignore | Advance | Fire

  const SKIP := "skip"
  const RUN_ONCE := "run_once"

  /** What a pass does about a job. */
  function ActionFor(pass: Pass, job: Job, now: Instant): Action {
    match pass
    case Ticking => if job.nextRun == ZERO_TIME || job.nextRun > now then Ignore else Fire
    case Reconciling =>
      if job.nextRun == ZERO_TIME || job.nextRun >= now then Ignore
      else if job.catchupPolicy == SKIP then Advance
      else if job.catchupPolicy == RUN_ONCE then Fire
      else Ignore
  }

  /** What an action does to one job, and whether it ran it. */
  ghost predicate JobDone(action: Action, job: Job, job': Job, next: Option<Instant>, ran: bool) {
    match action
    case Ignore => job' == job && !ran
    case Advance => JobFired(job, job', next, false) && !ran
    case Fire => JobFired(job, job', next, ran)
  }

  ghost predicate JobPassed(pass: Pass, job: Job, job': Job, now: Instant, ran: bool) {
    JobDone(ActionFor(pass, job, now), job, job', Upcoming(job.cronExpr, now), ran)
  }

  /** A whole pass: every job is dealt with, and run at most once. */
  ghost predicate Passed(pass: Pass, s: StoreState, s': StoreState, now: Instant, ran: seq<string>) {
    && s'.jobs.Keys == s.jobs.Keys && NoDuplicates(ran) && (forall id :: id in ran ==> id in s.jobs)
    && forall id :: id in s.jobs ==> JobPassed(pass, s.jobs[id], s'.jobs[id], now, id in ran)
  }

  ghost predicate NoDuplicates(ids: seq<string>) {
    forall i, j :: 0 <= i < j < |ids| ==> ids[i] != ids[j]
  }

  /** Every job is filed under its own id. */
  ghost predicate WellFiled(s: StoreState) {
    forall id :: id in s.jobs ==> s.jobs[id].id == id
  }

  /** All jobs of a store, each once. */
  ghost predicate Listed(s: StoreState, jobs: seq<Job>) {
    && (forall k :: 0 <= k < |jobs| ==> jobs[k].id in s.jobs && s.jobs[jobs[k].id] == jobs[k])
    && (forall i, j :: 0 <= i < j < |jobs| ==> jobs[i].id != jobs[j].id)
    && forall id :: id in s.jobs ==> s.jobs[id] in jobs
  }

  ghost predicate DoneAt(pass: Pass, s: StoreState, job: Job, now: Instant, ran: seq<string>) {
    job.id in s.jobs && JobPassed(pass, job, s.jobs[job.id], now, job.id in ran)
  }

  ghost predicate AheadAt(s: StoreState, job: Job, ran: seq<string>) {
    job.id in s.jobs && s.jobs[job.id] == job && job.id !in ran
  }

  /** The first k jobs have been dealt with, the others are as they were. */
  ghost predicate Progress(pass: Pass, s0: StoreState, s: StoreState, jobs: seq<Job>, k: nat, now: Instant,
                           ran: seq<string>) {
    && s.jobs.Keys == s0.jobs.Keys && NoDuplicates(ran) && k <= |jobs|
    && (forall id :: id in ran ==> id in s0.jobs)
    && (forall i :: 0 <= i < k ==> DoneAt(pass, s, jobs[i], now, ran))
    && (forall i :: k <= i < |jobs| ==> AheadAt(s, jobs[i], ran))
  }

  /** What an action does to the store. */
  ghost predicate Handled(action: Action, s: StoreState, s': StoreState, job: Job, next: Option<Instant>, ran: bool) {
    match action
    case Ignore => s' == s && !ran
    case Advance => Fired(s, s', job, next, false) && !ran
    case Fire => Fired(s, s', job, next, ran)
  }

  /** What a pass does to the store for one job. */
  ghost predicate HandledIn(pass: Pass, s: StoreState, s': StoreState, job: Job, now: Instant, ran: bool) {
    exists next: Option<Instant> ::
      next == Upcoming(job.cronExpr, now) && Handled(ActionFor(pass, job, now), s, s', job, next, ran)
  }

  lemma HandledView(action: Action, s: StoreState, s': StoreState, job: Job, next: Option<Instant>, ran: bool)
    requires Handled(action, s, s', job, next, ran) && job.id in s.jobs && s.jobs[job.id] == job
    ensures s'.jobs.Keys == s.jobs.Keys && JobDone(action, job, s'.jobs[job.id], next, ran)
    ensures forall id :: id in s.jobs && id != job.id ==> s'.jobs[id] == s.jobs[id]
  {
    if action != Ignore {
      FiredView(s, s', job, next, ran);
    }
  }

  lemma DoneKept(pass: Pass, s: StoreState, s': StoreState, job: Job, other: Job, now: Instant, ran: seq<string>,
                 ran': seq<string>)
    requires DoneAt(pass, s, other, now, ran) && other.id != job.id && s'.jobs.Keys == s.jobs.Keys
    requires s'.jobs[other.id] == s.jobs[other.id] && (ran' == ran || ran' == ran + [job.id])
    ensures DoneAt(pass, s', other, now, ran')
  {}

  lemma AheadKept(s: StoreState, s': StoreState, job: Job, other: Job, ran: seq<string>, ran': seq<string>)
    requires AheadAt(s, other, ran) && other.id != job.id && s'.jobs.Keys == s.jobs.Keys
    requires s'.jobs[other.id] == s.jobs[other.id] && (ran' == ran || ran' == ran + [job.id])
    ensures AheadAt(s', other, ran')
  {}

  lemma RanOnce(ran: seq<string>, id: string, r: bool, ran': seq<string>)
    requires NoDuplicates(ran) && id !in ran && ran' == ran + if r then [id] else []
    ensures NoDuplicates(ran') && (id in ran' <==> r)
  {}

  lemma ProgressStep(pass: Pass, s0: StoreState, s: StoreState, s': StoreState, jobs: seq<Job>, k: nat, now: Instant,
                     ran: seq<string>, ran': seq<string>, r: bool)
    requires Listed(s0, jobs) && Progress(pass, s0, s, jobs, k, now, ran) && k < |jobs|
    requires HandledIn(pass, s, s', jobs[k], now, r)
    requires ran' == ran + if r then [jobs[k].id] else []
    ensures Progress(pass, s0, s', jobs, k + 1, now, ran')
  {
    var job := jobs[k];
    assert AheadAt(s, job, ran);
    HandledView(ActionFor(pass, job, now), s, s', job, Upcoming(job.cronExpr, now), r);
    RanOnce(ran, job.id, r, ran');
    assert DoneAt(pass, s', job, now, ran');
    forall i | 0 <= i < k
      ensures DoneAt(pass, s', jobs[i], now, ran')
    {
      DoneKept(pass, s, s', job, jobs[i], now, ran, ran');
    }
    forall i | k < i < |jobs|
      ensures AheadAt(s', jobs[i], ran')
    {
      AheadKept(s, s', job, jobs[i], ran, ran');
    }
  }

  lemma Appended(before: seq<string>, ran: seq<string>, more: seq<string>, middle: seq<string>, after: seq<string>)
    requires middle == before + ran && after == middle + more
    ensures after == before + (ran + more)
  {}

  lemma ProgressDone(pass: Pass, s0: StoreState, s: StoreState, jobs: seq<Job>, now: Instant, ran: seq<string>)
    requires WellFiled(s0) && Listed(s0, jobs) && Progress(pass, s0, s, jobs, |jobs|, now, ran)
    ensures Passed(pass, s0, s, now, ran)
  {
    forall id | id in s0.jobs
      ensures JobPassed(pass, s0.jobs[id], s.jobs[id], now, id in ran)
    {
      var i :| 0 <= i < |jobs| && jobs[i] == s0.jobs[id];
      assert DoneAt(pass, s, jobs[i], now, ran);
    }
  }

  /** The store of any log is well filed. */
  lemma {:induction false} FoldWellFiled(log: Log)
    ensures WellFiled(Fold(log))
    decreases |log|
  {
    if log != [] {
      FoldWellFiled(log[..|log| - 1]);
    }
  }

  // ----- What is sent -----

  /**
   What the scheduler cannot choose, in turn: the ids it draws, which of its submissions succeed, and
   what its executions return.
   */
  datatype Fate = Fate(ids: nat -> string, accepts: nat -> bool, results: nat -> RunRecord)

  /**
   What is sent for one job: nothing unless there is something to do and a next occurrence, and
   otherwise that occurrence first. The job runs exactly when it is to be fired and this succeeded,
   and then what execution e returned follows.
   */
  ghost predicate Served(fate: Fate, action: Action, job: Job, next: Option<Instant>, now: Instant, e: nat,
                         before: seq<Command>, after: seq<Command>, ran: bool) {
    if action == Ignore || next.None? then after == before && !ran
    else
      var k := |before|;
      var upsert := Upsert(fate.ids(k), job.(nextRun := next.value));
      && (ran <==> action == Fire && fate.accepts(k))
      && if !ran then after == before + [upsert]
         else RunSent(fate.ids(k + 1), fate.results(e), job, now, before + [upsert], after)
  }

  ghost predicate RunSent(reqId: string, result: RunRecord, job: Job, now: Instant, before: seq<Command>,
                          after: seq<Command>) {
    exists run: RunRecord :: Completed(run, result, job, now) && after == before + [Record(reqId, run)]
  }

  /** The recorded run is what the execution returned, under the job's id and with missing times filled in. */
  ghost predicate Completed(run: RunRecord, result: RunRecord, job: Job, now: Instant) {
    && run.jobId == job.id && run.startedAt == (if result.startedAt == ZERO_TIME then now else result.startedAt)
    && (result.finishedAt != ZERO_TIME ==> run.finishedAt == result.finishedAt)
    && run.exitCode == result.exitCode && run.output == result.output && run.status == result.status
  }

  /** An accepted occurrence is in the store. */
  ghost predicate Stored(fate: Fate, action: Action, job: Job, next: Option<Instant>, k: nat, s: StoreState) {
    action != Ignore && next.Some? && fate.accepts(k) ==> job.id in s.jobs && s.jobs[job.id].nextRun == next.value
  }

  // ----- What a whole pass sends -----

  /** The jobs run in a pass, whose first execution has the given number. */
  datatype Executions = Executions(first: nat, ids: seq<string>)

  /** The i-th execution of a pass was of this job and returned this run. */
  ghost predicate ReturnedBy(fate: Fate, run: RunRecord, job: Job, now: Instant, ran: Executions, i: nat) {
    i < |ran.ids| && ran.ids[i] == job.id && Completed(run, fate.results(ran.first + i), job, now)
  }

  /** The command records what one of the executions of this job returned. */
  ghost predicate RecordedBy(fate: Fate, cmd: Command, reqId: string, job: Job, now: Instant, ran: Executions) {
    cmd.Record? && cmd.reqId == reqId && exists i: nat :: ReturnedBy(fate, cmd.run, job, now, ran, i)
  }

  /** The k-th command is the job with its next occurrence; it runs exactly if it is to be fired and k succeeded. */
  ghost predicate ServedBy(fate: Fate, action: Action, job: Job, job': Job, next: Instant, now: Instant,
                           sent: seq<Command>, k: nat, ran: Executions) {
    && k < |sent| && sent[k] == Upsert(fate.ids(k), job.(nextRun := next))
    && (job.id in ran.ids <==> action == Fire && fate.accepts(k))
    && (fate.accepts(k) ==> job'.nextRun == next)
    && (job.id in ran.ids ==> k + 1 < |sent| && RecordedBy(fate, sent[k + 1], fate.ids(k + 1), job, now, ran))
  }

  /** A job that is to be fired or moved on and has a next occurrence was served since the given index. */
  ghost predicate ServedSince(fate: Fate, pass: Pass, job: Job, job': Job, now: Instant, from: nat, sent: seq<Command>,
                              ran: Executions) {
    var action, next := ActionFor(pass, job, now), Upcoming(job.cronExpr, now);
    if action == Ignore || next.None? then job.id !in ran.ids
    else exists k: nat :: from <= k && ServedBy(fate, action, job, job', next.value, now, sent, k, ran)
  }

  /** The job a command is about. */
  function Subject(cmd: Command): string {
    match cmd
    case Upsert(_, job) => job.id
    case Delete(_, id) => id
    case Record(_, run) => run.jobId
  }

  predicate SameKind(a: Command, b: Command) {
    (a.Upsert? <==> b.Upsert?) && (a.Record? <==> b.Record?)
  }

  /** Since the given index no two commands of a kind are about one job. */
  ghost predicate OnceEach(sent: seq<Command>, from: nat) {
    forall i, j :: from <= i < j < |sent| && SameKind(sent[i], sent[j]) ==> Subject(sent[i]) != Subject(sent[j])
  }

  /** Since the given index only jobs with something to do, among the first k, were written about. */
  ghost predicate OnlyAbout(pass: Pass, jobs: seq<Job>, k: nat, now: Instant, sent: seq<Command>, from: nat)
    requires k <= |jobs|
  {
    forall i :: from <= i < |sent| ==> AboutOne(pass, jobs, k, now, sent[i])
  }

  ghost predicate AboutOne(pass: Pass, jobs: seq<Job>, k: nat, now: Instant, cmd: Command)
    requires k <= |jobs|
  {
    exists m :: 0 <= m < k && jobs[m].id == Subject(cmd) && ActionFor(pass, jobs[m], now) != Ignore
  }

  ghost predicate ServedAt(fate: Fate, pass: Pass, job: Job, s: StoreState, now: Instant, from: nat,
                           sent: seq<Command>, ran: Executions) {
    job.id in s.jobs && ServedSince(fate, pass, job, s.jobs[job.id], now, from, sent, ran)
  }

  /** The first k jobs have been served, each once, and nothing else was sent. */
  ghost predicate Serving(fate: Fate, pass: Pass, jobs: seq<Job>, k: nat, s: StoreState, now: Instant, from: nat,
                          sent: seq<Command>, ran: Executions) {
    && k <= |jobs| && from <= |sent|
    && (forall i :: 0 <= i < k ==> ServedAt(fate, pass, jobs[i], s, now, from, sent, ran))
    && OnlyAbout(pass, jobs, k, now, sent, from) && OnceEach(sent, from)
  }

  /** A whole pass: every job that is to be fired or moved on is served, once, and nothing else is sent. */
  ghost predicate AllServed(fate: Fate, pass: Pass, s: StoreState, s': StoreState, now: Instant, from: nat,
                            sent: seq<Command>, ran: Executions) {
    && s'.jobs.Keys == s.jobs.Keys
    && (forall id :: id in s.jobs ==>
          ServedSince(fate, pass, s.jobs[id], s'.jobs[id], now, from, sent, ran))
    && (forall i :: from <= i < |sent| ==>
          Subject(sent[i]) in s.jobs && ActionFor(pass, s.jobs[Subject(sent[i])], now) != Ignore)
    && OnceEach(sent, from)
  }

  lemma ServedNow(fate: Fate, action: Action, job: Job, job': Job, next: Option<Instant>, now: Instant, e: nat,
                  sent: seq<Command>, sent': seq<Command>, ran: Executions, ran': Executions, r: bool)
    requires action != Ignore && next.Some? && e == ran.first + |ran.ids|
    requires ran' == ran.(ids := ran.ids + if r then [job.id] else []) && (job.id in ran'.ids <==> r)
    requires Served(fate, action, job, next, now, e, sent, sent', r) && (fate.accepts(|sent|) ==> job'.nextRun == next.value)
    ensures ServedBy(fate, action, job, job', next.value, now, sent', |sent|, ran')
  {
    if r {
      var run: RunRecord :| Completed(run, fate.results(e), job, now) &&
        sent' == sent + [Upsert(fate.ids(|sent|), job.(nextRun := next.value))] + [Record(fate.ids(|sent| + 1), run)];
      assert ReturnedBy(fate, run, job, now, ran', |ran.ids|);
    }
  }

  lemma ServedJob(fate: Fate, pass: Pass, job: Job, s': StoreState, now: Instant, from: nat, e: nat,
                  sent: seq<Command>, sent': seq<Command>, ran: Executions, ran': Executions, r: bool)
    requires from <= |sent| && job.id in s'.jobs && e == ran.first + |ran.ids|
    requires ran' == ran.(ids := ran.ids + if r then [job.id] else []) && (job.id in ran'.ids <==> r)
    requires Served(fate, ActionFor(pass, job, now), job, Upcoming(job.cronExpr, now), now, e, sent, sent', r)
    requires Stored(fate, ActionFor(pass, job, now), job, Upcoming(job.cronExpr, now), |sent|, s')
    ensures ServedSince(fate, pass, job, s'.jobs[job.id], now, from, sent', ran')
  {
    var action, next := ActionFor(pass, job, now), Upcoming(job.cronExpr, now);
    if action != Ignore && next.Some? {
      ServedNow(fate, action, job, s'.jobs[job.id], next, now, e, sent, sent', ran, ran', r);
      assert ServedBy(fate, action, job, s'.jobs[job.id], next.value, now, sent', |sent|, ran');
    }
  }

  lemma RecordedMore(fate: Fate, cmd: Command, reqId: string, job: Job, now: Instant, ran: Executions, ran': Executions)
    requires RecordedBy(fate, cmd, reqId, job, now, ran) && ran'.first == ran.first && ran.ids <= ran'.ids
    ensures RecordedBy(fate, cmd, reqId, job, now, ran')
  {
    var i: nat :| ReturnedBy(fate, cmd.run, job, now, ran, i);
    assert ReturnedBy(fate, cmd.run, job, now, ran', i);
  }

  /** What was served stays served when more is sent. */
  lemma ServedMore(fate: Fate, pass: Pass, job: Job, job': Job, now: Instant, from: nat, sent: seq<Command>,
                   sent': seq<Command>, ran: Executions, ran': Executions)
    requires ServedSince(fate, pass, job, job', now, from, sent, ran) && sent <= sent'
    requires ran'.first == ran.first && ran.ids <= ran'.ids && (job.id in ran'.ids ==> job.id in ran.ids)
    ensures ServedSince(fate, pass, job, job', now, from, sent', ran')
  {
    var action, next := ActionFor(pass, job, now), Upcoming(job.cronExpr, now);
    if action != Ignore && next.Some? {
      var k: nat :| from <= k && ServedBy(fate, action, job, job', next.value, now, sent, k, ran);
      if job.id in ran.ids {
        RecordedMore(fate, sent[k + 1], fate.ids(k + 1), job, now, ran, ran');
      }
      assert ServedBy(fate, action, job, job', next.value, now, sent', k, ran');
    }
  }

  /** What is sent for a job is about this job: at most one command of each kind. */
  lemma ServedShape(fate: Fate, action: Action, job: Job, next: Option<Instant>, now: Instant, e: nat,
                    sent: seq<Command>, sent': seq<Command>, ran: bool)
    requires Served(fate, action, job, next, now, e, sent, sent', ran)
    ensures sent <= sent' && |sent'| <= |sent| + 2 && (action == Ignore ==> sent' == sent)
    ensures forall i :: |sent| <= i < |sent'| ==> Subject(sent'[i]) == job.id
    ensures |sent'| == |sent| + 2 ==> sent'[|sent|].Upsert? && sent'[|sent| + 1].Record?
  {}

  lemma OnlyAboutStep(pass: Pass, jobs: seq<Job>, k: nat, now: Instant, sent: seq<Command>, sent': seq<Command>,
                      from: nat)
    requires k < |jobs| && OnlyAbout(pass, jobs, k, now, sent, from) && sent <= sent' && from <= |sent|
    requires ActionFor(pass, jobs[k], now) == Ignore ==> sent' == sent
    requires forall i :: |sent| <= i < |sent'| ==> Subject(sent'[i]) == jobs[k].id
    ensures OnlyAbout(pass, jobs, k + 1, now, sent', from)
  {
    forall i | from <= i < |sent'|
      ensures AboutOne(pass, jobs, k + 1, now, sent'[i])
    {
      assert i < |sent| ==> AboutOne(pass, jobs, k, now, sent[i]) && sent'[i] == sent[i];
    }
  }

  lemma OnceEachStep(pass: Pass, jobs: seq<Job>, k: nat, now: Instant, sent: seq<Command>, sent': seq<Command>,
                     from: nat)
    requires k < |jobs| && OnlyAbout(pass, jobs, k, now, sent, from) && sent <= sent' && from <= |sent|
    requires forall m, m' :: 0 <= m < m' < |jobs| ==> jobs[m].id != jobs[m'].id
    requires forall i :: |sent| <= i < |sent'| ==> Subject(sent'[i]) == jobs[k].id
    requires |sent'| <= |sent| + 2
    requires |sent'| == |sent| + 2 ==> sent'[|sent|].Upsert? && sent'[|sent| + 1].Record?
    requires OnceEach(sent, from)
    ensures OnceEach(sent', from)
  {
    forall i, j | from <= i < j < |sent'| && SameKind(sent'[i], sent'[j])
      ensures Subject(sent'[i]) != Subject(sent'[j])
    {
      if i < |sent| {
        assert AboutOne(pass, jobs, k, now, sent[i]) && sent'[i] == sent[i];
        assert j < |sent| ==> sent'[j] == sent[j];
      }
    }
  }

  lemma ServedAtKept(fate: Fate, pass: Pass, job: Job, other: Job, s: StoreState, s': StoreState, now: Instant,
                     from: nat, sent: seq<Command>, sent': seq<Command>, ran: Executions, ran': Executions)
    requires ServedAt(fate, pass, other, s, now, from, sent, ran) && other.id != job.id && sent <= sent'
    requires s'.jobs.Keys == s.jobs.Keys && s'.jobs[other.id] == s.jobs[other.id]
    requires ran' == ran || ran' == ran.(ids := ran.ids + [job.id])
    ensures ServedAt(fate, pass, other, s', now, from, sent', ran')
  {
    ServedMore(fate, pass, other, s.jobs[other.id], now, from, sent, sent', ran, ran');
  }

  /** What one job's turn does to what the pass has sent, seen apart from how it was computed. */
  ghost predicate Turn(fate: Fate, pass: Pass, job: Job, s: StoreState, s': StoreState, now: Instant, e: nat,
                       sent: seq<Command>, sent': seq<Command>, ran: bool) {
    && Served(fate, ActionFor(pass, job, now), job, Upcoming(job.cronExpr, now), now, e, sent, sent', ran)
    && Stored(fate, ActionFor(pass, job, now), job, Upcoming(job.cronExpr, now), |sent|, s')
    && s'.jobs.Keys == s.jobs.Keys && forall id :: id in s.jobs && id != job.id ==> s'.jobs[id] == s.jobs[id]
  }

  lemma OthersServed(fate: Fate, pass: Pass, jobs: seq<Job>, k: nat, s: StoreState, s': StoreState, now: Instant,
                     from: nat, sent: seq<Command>, sent': seq<Command>, ran: Executions, ran': Executions)
    requires k < |jobs| && sent <= sent' && s'.jobs.Keys == s.jobs.Keys
    requires forall m, m' :: 0 <= m < m' < |jobs| ==> jobs[m].id != jobs[m'].id
    requires forall i :: 0 <= i < k ==> ServedAt(fate, pass, jobs[i], s, now, from, sent, ran)
    requires forall id :: id in s.jobs && id != jobs[k].id ==> s'.jobs[id] == s.jobs[id]
    requires ran' == ran || ran' == ran.(ids := ran.ids + [jobs[k].id])
    ensures forall i :: 0 <= i < k ==> ServedAt(fate, pass, jobs[i], s', now, from, sent', ran')
  {
    forall i | 0 <= i < k
      ensures ServedAt(fate, pass, jobs[i], s', now, from, sent', ran')
    {
      ServedAtKept(fate, pass, jobs[k], jobs[i], s, s', now, from, sent, sent', ran, ran');
    }
  }

  lemma AddedRun(ran: Executions, id: string, r: bool, ran': Executions)
    requires ran' == ran.(ids := ran.ids + if r then [id] else [])
    ensures ran' == ran || ran' == ran.(ids := ran.ids + [id])
  {
    assert ran.ids + [] == ran.ids;
  }

  lemma ThisServed(fate: Fate, pass: Pass, job: Job, s: StoreState, s': StoreState, now: Instant, from: nat, e: nat,
                   sent: seq<Command>, sent': seq<Command>, ran: Executions, ran': Executions, r: bool)
    requires Turn(fate, pass, job, s, s', now, e, sent, sent', r) && job.id in s.jobs
    requires from <= |sent| && e == ran.first + |ran.ids|
    requires ran' == ran.(ids := ran.ids + if r then [job.id] else []) && (job.id in ran'.ids <==> r)
    ensures ServedAt(fate, pass, job, s', now, from, sent', ran')
  {
    ServedJob(fate, pass, job, s', now, from, e, sent, sent', ran, ran', r);
  }

  lemma ServingStep(fate: Fate, pass: Pass, jobs: seq<Job>, k: nat, s: StoreState, s': StoreState, now: Instant,
                    from: nat, e: nat, sent: seq<Command>, sent': seq<Command>, ran: Executions, ran': Executions,
                    r: bool)
    requires Serving(fate, pass, jobs, k, s, now, from, sent, ran) && k < |jobs|
    requires forall m, m' :: 0 <= m < m' < |jobs| ==> jobs[m].id != jobs[m'].id
    requires Turn(fate, pass, jobs[k], s, s', now, e, sent, sent', r) && jobs[k].id in s.jobs
    requires e == ran.first + |ran.ids|
    requires ran' == ran.(ids := ran.ids + if r then [jobs[k].id] else []) && (jobs[k].id in ran'.ids <==> r)
    ensures Serving(fate, pass, jobs, k + 1, s', now, from, sent', ran')
  {
    var job := jobs[k];
    ThisServed(fate, pass, job, s, s', now, from, e, sent, sent', ran, ran', r);
    ServedShape(fate, ActionFor(pass, job, now), job, Upcoming(job.cronExpr, now), now, e, sent, sent', r);
    AddedRun(ran, job.id, r, ran');
    OthersServed(fate, pass, jobs, k, s, s', now, from, sent, sent', ran, ran');
    OnlyAboutStep(pass, jobs, k, now, sent, sent', from);
    OnceEachStep(pass, jobs, k, now, sent, sent', from);
  }

  /** One turn of the loop of a pass. */
  lemma PassStep(fate: Fate, pass: Pass, s0: StoreState, s: StoreState, s': StoreState, jobs: seq<Job>, k: nat,
                 now: Instant, from: nat, e: nat, sent: seq<Command>, sent': seq<Command>, ran: Executions,
                 ran': Executions, r: bool)
    requires Listed(s0, jobs) && Progress(pass, s0, s, jobs, k, now, ran.ids) && k < |jobs|
    requires Serving(fate, pass, jobs, k, s, now, from, sent, ran)
    requires HandledIn(pass, s, s', jobs[k], now, r)
    requires Served(fate, ActionFor(pass, jobs[k], now), jobs[k], Upcoming(jobs[k].cronExpr, now), now, e, sent, sent', r)
    requires e == ran.first + |ran.ids|
    requires Stored(fate, ActionFor(pass, jobs[k], now), jobs[k], Upcoming(jobs[k].cronExpr, now), |sent|, s')
    requires ran' == ran.(ids := ran.ids + if r then [jobs[k].id] else [])
    ensures Progress(pass, s0, s', jobs, k + 1, now, ran'.ids)
    ensures Serving(fate, pass, jobs, k + 1, s', now, from, sent', ran')
  {
    var job := jobs[k];
    ProgressStep(pass, s0, s, s', jobs, k, now, ran.ids, ran'.ids, r);
    assert AheadAt(s, job, ran.ids);
    HandledView(ActionFor(pass, job, now), s, s', job, Upcoming(job.cronExpr, now), r);
    RanOnce(ran.ids, job.id, r, ran'.ids);
    assert Turn(fate, pass, job, s, s', now, e, sent, sent', r);
    ServingStep(fate, pass, jobs, k, s, s', now, from, e, sent, sent', ran, ran', r);
  }

  lemma ServingDone(fate: Fate, pass: Pass, s0: StoreState, s: StoreState, jobs: seq<Job>, now: Instant, from: nat,
                    sent: seq<Command>, ran: Executions)
    requires WellFiled(s0) && Listed(s0, jobs) && s.jobs.Keys == s0.jobs.Keys
    requires Serving(fate, pass, jobs, |jobs|, s, now, from, sent, ran)
    ensures AllServed(fate, pass, s0, s, now, from, sent, ran)
  {
    forall id | id in s0.jobs
      ensures ServedSince(fate, pass, s0.jobs[id], s.jobs[id], now, from, sent, ran)
    {
      var i :| 0 <= i < |jobs| && jobs[i] == s0.jobs[id];
      assert ServedAt(fate, pass, jobs[i], s, now, from, sent, ran);
    }
    forall i | from <= i < |sent|
      ensures Subject(sent[i]) in s0.jobs && ActionFor(pass, s0.jobs[Subject(sent[i])], now) != Ignore
    {
      assert AboutOne(pass, jobs, |jobs|, now, sent[i]);
    }
  }

  // ----- In so many words -----

  /** The job was sent with its next occurrence as command k, which is stored if that succeeded. */
  ghost predicate SentOn(fate: Fate, job: Job, job': Job, next: Instant, from: nat, sent: seq<Command>, k: nat) {
    && from <= k < |sent| && sent[k] == Upsert(fate.ids(k), job.(nextRun := next))
    && (fate.accepts(k) ==> job'.nextRun == next)
  }

  /** A tick runs a job that is due and has a next occurrence, if that is accepted; any other job stays as it is. */
  ghost predicate Ticked(fate: Fate, job: Job, job': Job, now: Instant, from: nat, sent: seq<Command>, ran: bool) {
    var next := Upcoming(job.cronExpr, now);
    if job.nextRun != ZERO_TIME && job.nextRun <= now && next.Some? then
      exists k: nat :: SentOn(fate, job, job', next.value, from, sent, k) && (ran <==> fate.accepts(k))
    else
      job' == job && !ran
  }

  /**
   After a start a job whose occurrence has passed is moved on under "skip", and also run under
   "run_once", if that is accepted; any other job stays as it is.
   */
  ghost predicate Reconciled(fate: Fate, job: Job, job': Job, now: Instant, from: nat, sent: seq<Command>, ran: bool) {
    var next := Upcoming(job.cronExpr, now);
    if job.nextRun != ZERO_TIME && job.nextRun < now && next.Some? && job.catchupPolicy == "skip" then
      !ran && exists k: nat :: SentOn(fate, job, job', next.value, from, sent, k)
    else if job.nextRun != ZERO_TIME && job.nextRun < now && next.Some? && job.catchupPolicy == "run_once" then
      exists k: nat :: SentOn(fate, job, job', next.value, from, sent, k) && (ran <==> fate.accepts(k))
    else
      job' == job && !ran
  }

  ghost predicate EachTicked(fate: Fate, s: StoreState, s': StoreState, now: Instant, from: nat, sent: seq<Command>,
                             ran: seq<string>) {
    && s'.jobs.Keys == s.jobs.Keys
    && forall id :: id in s.jobs ==> Ticked(fate, s.jobs[id], s'.jobs[id], now, from, sent, id in ran)
  }

  ghost predicate EachReconciled(fate: Fate, s: StoreState, s': StoreState, now: Instant, from: nat,
                                 sent: seq<Command>, ran: seq<string>) {
    && s'.jobs.Keys == s.jobs.Keys
    && forall id :: id in s.jobs ==> Reconciled(fate, s.jobs[id], s'.jobs[id], now, from, sent, id in ran)
  }

  lemma ServedSent(fate: Fate, pass: Pass, job: Job, job': Job, now: Instant, from: nat, sent: seq<Command>, ran: Executions)
    returns (k: nat)
    requires ServedSince(fate, pass, job, job', now, from, sent, ran)
    requires ActionFor(pass, job, now) != Ignore && Upcoming(job.cronExpr, now).Some?
    ensures SentOn(fate, job, job', Upcoming(job.cronExpr, now).value, from, sent, k)
    ensures job.id in ran.ids <==> ActionFor(pass, job, now) == Fire && fate.accepts(k)
  {
    k :| from <= k && ServedBy(fate, ActionFor(pass, job, now), job, job', Upcoming(job.cronExpr, now).value, now, sent,
                               k, ran);
  }

  lemma TicksEach(fate: Fate, s: StoreState, s': StoreState, now: Instant, from: nat, sent: seq<Command>, ran: Executions)
    requires WellFiled(s) && Passed(Ticking, s, s', now, ran.ids)
    requires AllServed(fate, Ticking, s, s', now, from, sent, ran)
    ensures EachTicked(fate, s, s', now, from, sent, ran.ids)
  {
    forall id | id in s.jobs
      ensures Ticked(fate, s.jobs[id], s'.jobs[id], now, from, sent, id in ran.ids)
    {
      assert JobPassed(Ticking, s.jobs[id], s'.jobs[id], now, id in ran.ids);
      if ActionFor(Ticking, s.jobs[id], now) != Ignore && Upcoming(s.jobs[id].cronExpr, now).Some? {
        var k := ServedSent(fate, Ticking, s.jobs[id], s'.jobs[id], now, from, sent, ran);
      }
    }
  }

  lemma ReconcilesEach(fate: Fate, s: StoreState, s': StoreState, now: Instant, from: nat, sent: seq<Command>,
                       ran: Executions)
    requires WellFiled(s) && Passed(Reconciling, s, s', now, ran.ids)
    requires AllServed(fate, Reconciling, s, s', now, from, sent, ran)
    ensures EachReconciled(fate, s, s', now, from, sent, ran.ids)
  {
    forall id | id in s.jobs
      ensures Reconciled(fate, s.jobs[id], s'.jobs[id], now, from, sent, id in ran.ids)
    {
      assert JobPassed(Reconciling, s.jobs[id], s'.jobs[id], now, id in ran.ids);
      if ActionFor(Reconciling, s.jobs[id], now) != Ignore && Upcoming(s.jobs[id].cronExpr, now).Some? {
        var k := ServedSent(fate, Reconciling, s.jobs[id], s'.jobs[id], now, from, sent, ran);
      }
    }
  }

  // ----- The scheduler -----

  class Scheduler {
    const fate: Fate

    var state: StoreState
    /** The commands sent and the jobs run so far, in order. */
    var submitted: seq<Command>
    var executed: seq<string>

    constructor (state: StoreState, fate: Fate)
      ensures this.state == state && this.fate == fate && submitted == [] && executed == []
    {
      this.fate, this.state, submitted, executed := fate, state, [], [];
    }

    /** Every command went out under an id of its own, the next one of the source. */
    ghost predicate OwnIds()
      reads this
    {
      forall k: nat :: k < |submitted| ==> submitted[k].reqId == fate.ids(k)
    }

    /** The next id of the source. */
    function NewReqId(): string
      reads this
    {
      fate.ids(|submitted|)
    }

    /** True if the submission succeeds, and then the command was applied; false whether or not it was. */
    method Submit(cmd: Command) returns (ok: bool)
      requires OwnIds() && cmd.reqId == NewReqId()
      modifies this`state, this`submitted
      ensures OwnIds() && (state == old(state) || state == Apply(old(state), cmd))
      ensures ok == fate.accepts(|old(submitted)|) && (ok ==> state == Apply(old(state), cmd))
      ensures submitted == old(submitted) + [cmd]
    {
      ok := fate.accepts(|submitted|);
      submitted := submitted + [cmd];
      var applied: bool := *;
      if ok || applied {
        state := Apply(state, cmd);
      }
    }

    /** The executor returns whatever fate has for this execution. */
    method Execute(j: Job) returns (run: RunRecord)
      modifies this`executed
      ensures executed == old(executed) + [j.id] && run == fate.results(|old(executed)|)
    {
      run := fate.results(|executed|);
      executed := executed + [j.id];
    }

    /** The jobs in the store, in any order. */
    method ListJobs() returns (jobs: seq<Job>)
      requires WellFiled(state)
      ensures Listed(state, jobs)
    {
      jobs := [];
      var left := state.jobs.Keys;
      while left != {}
        invariant left <= state.jobs.Keys
        invariant forall k :: 0 <= k < |jobs| ==>
          jobs[k].id in state.jobs && jobs[k].id !in left && state.jobs[jobs[k].id] == jobs[k]
        invariant forall i, j :: 0 <= i < j < |jobs| ==> jobs[i].id != jobs[j].id
        invariant forall id :: id in state.jobs && id !in left ==> state.jobs[id] in jobs
        decreases left
      {
        var id :| id in left;
        jobs := jobs + [state.jobs[id]];
        left := left - {id};
      }
    }

    /** Runs a job and then records the run, which may fail. */
    method RunAndRecord(j: Job, now: Instant) returns (ghost run: RunRecord)
      requires OwnIds()
      modifies this
      ensures OwnIds()
      ensures Completed(run, fate.results(|old(executed)|), j, now)
      ensures submitted == old(submitted) + [Record(fate.ids(|old(submitted)|), run)]
      ensures executed == old(executed) + [j.id]
      ensures state == old(state) || state == Logged(old(state), run)
    {
      var r := Execute(j);
      r := r.(jobId := j.id);
      if r.startedAt == ZERO_TIME {
        r := r.(startedAt := now);
      }
      if r.finishedAt == ZERO_TIME {
        var clock: Instant := *;
        r := r.(finishedAt := clock);
      }
      run := r;
      var recorded := Submit(Record(NewReqId(), r));
    }

    /** Computes the next occurrence and sends the job with it to the store. */
    method StoreNext(job: Job, now: Instant) returns (ok: bool, j: Job)
      requires OwnIds()
      modifies this`state, this`submitted
      ensures OwnIds() && MayAdvance(old(state), state, job, Upcoming(job.cronExpr, now))
      ensures ok <==> Upcoming(job.cronExpr, now).Some? && fate.accepts(|old(submitted)|)
      ensures ok ==> Upcoming(job.cronExpr, now) == Some(j.nextRun) && j == job.(nextRun := j.nextRun)
      ensures ok ==> state == Advanced(old(state), job, j.nextRun)
      ensures Served(fate, Advance, job, Upcoming(job.cronExpr, now), now, |executed|, old(submitted), submitted, false)
    {
      var next := NextRun(job.cronExpr, now);
      if next.None? {
        return false, job;
      }
      j := job.(nextRun := next.value);
      ok := Submit(Upsert(NewReqId(), j));
    }

    /** Stores the next occurrence first, then runs the job, then records the run. */
    method FireJob(job: Job, now: Instant) returns (ghost ran: bool)
      requires OwnIds()
      modifies this
      ensures OwnIds() && Fired(old(state), state, job, Upcoming(job.cronExpr, now), ran)
      ensures executed == old(executed) + if ran then [job.id] else []
      ensures Served(fate, Fire, job, Upcoming(job.cronExpr, now), now, |old(executed)|, old(submitted), submitted, ran)
      ensures Stored(fate, Fire, job, Upcoming(job.cronExpr, now), |old(submitted)|, state)
    {
      var ok, j := StoreNext(job, now);
      ran := ok;
      if ok {
        ghost var run := RunAndRecord(j, now);
        assert Completed(run, fate.results(|old(executed)|), job, now);
      }
    }

    /** Moves a job on to its next occurrence without running it. */
    method AdvanceNextRun(job: Job, now: Instant)
      requires OwnIds()
      modifies this`state, this`submitted
      ensures OwnIds() && Fired(old(state), state, job, Upcoming(job.cronExpr, now), false)
      ensures Served(fate, Advance, job, Upcoming(job.cronExpr, now), now, |executed|, old(submitted), submitted, false)
      ensures Stored(fate, Advance, job, Upcoming(job.cronExpr, now), |old(submitted)|, state)
    {
      var ok, j := StoreNext(job, now);
    }

    /** The jobs executed since the log of executions was as given. */
    ghost function RanSince(before: seq<string>): seq<string>
      reads this
      requires before <= executed
    {
      executed[|before|..]
    }

    /** Skips a job without an occurrence or with one still ahead, and fires any other. */
    method FireIfDue(j: Job, now: Instant) returns (ghost ran: bool)
      requires OwnIds()
      modifies this
      ensures OwnIds() && HandledIn(Ticking, old(state), state, j, now, ran)
      ensures Served(fate, ActionFor(Ticking, j, now), j, Upcoming(j.cronExpr, now), now, |old(executed)|, old(submitted),
                     submitted, ran)
      ensures Stored(fate, ActionFor(Ticking, j, now), j, Upcoming(j.cronExpr, now), |old(submitted)|, state)
      ensures executed == old(executed) + if ran then [j.id] else []
    {
      ran := false;
      if !(j.nextRun == ZERO_TIME || j.nextRun > now) {
        ran := FireJob(j, now);
      }
      assert Handled(ActionFor(Ticking, j, now), old(state), state, j, Upcoming(j.cronExpr, now), ran);
    }

    /** Fires every due job. */
    method Tick(now: Instant)
      requires WellFiled(state) && OwnIds()
      modifies this
      ensures old(executed) <= executed && OwnIds()
      ensures Passed(Ticking, old(state), state, now, RanSince(old(executed)))
      ensures AllServed(fate, Ticking, old(state), state, now, |old(submitted)|, submitted,
                        Executions(|old(executed)|, RanSince(old(executed))))
      ensures EachTicked(fate, old(state), state, now, |old(submitted)|, submitted, RanSince(old(executed)))
    {
      ghost var s0, before: seq<string>, ran, from := state, executed, Executions(|executed|, []), |submitted|;
      var jobs := ListJobs();
      for k := 0 to |jobs|
        invariant OwnIds() && executed == before + ran.ids && Progress(Ticking, s0, state, jobs, k, now, ran.ids)
        invariant ran.first == |before|
        invariant Serving(fate, Ticking, jobs, k, state, now, from, submitted, ran)
      {
        ghost var s, sent, ranBefore, executedBefore := state, submitted, ran, executed;
        ghost var r := FireIfDue(jobs[k], now);
        ghost var more := if r then [jobs[k].id] else [];
        ran := ranBefore.(ids := ranBefore.ids + more);
        Appended(before, ranBefore.ids, more, executedBefore, executed);
        PassStep(fate, Ticking, s0, s, state, jobs, k, now, from, |executedBefore|, sent, submitted, ranBefore, ran, r);
      }
      ProgressDone(Ticking, s0, state, jobs, now, ran.ids);
      ServingDone(fate, Ticking, s0, state, jobs, now, from, submitted, ran);
      TicksEach(fate, s0, state, now, from, submitted, ran);
      assert RanSince(before) == ran.ids;
    }

    /** Deals with one job whose occurrence may have passed. */
    method CatchUp(j: Job, now: Instant) returns (ghost ran: bool)
      requires OwnIds()
      modifies this
      ensures OwnIds() && HandledIn(Reconciling, old(state), state, j, now, ran)
      ensures Served(fate, ActionFor(Reconciling, j, now), j, Upcoming(j.cronExpr, now), now, |old(executed)|, old(submitted),
                     submitted, ran)
      ensures Stored(fate, ActionFor(Reconciling, j, now), j, Upcoming(j.cronExpr, now), |old(submitted)|, state)
      ensures executed == old(executed) + if ran then [j.id] else []
    {
      ran := false;
      if !(j.nextRun == ZERO_TIME || j.nextRun >= now) {
        if j.catchupPolicy == SKIP {
          AdvanceNextRun(j, now);
        } else if j.catchupPolicy == RUN_ONCE {
          ran := FireJob(j, now);
        }
      }
      assert Handled(ActionFor(Reconciling, j, now), old(state), state, j, Upcoming(j.cronExpr, now), ran);
    }

    /** After a start: skips or fires every job whose occurrence has passed, as its policy says. */
    method ReconcileMissedJobs(now: Instant)
      requires WellFiled(state) && OwnIds()
      modifies this
      ensures old(executed) <= executed && OwnIds()
      ensures Passed(Reconciling, old(state), state, now, RanSince(old(executed)))
      ensures AllServed(fate, Reconciling, old(state), state, now, |old(submitted)|, submitted,
                        Executions(|old(executed)|, RanSince(old(executed))))
      ensures EachReconciled(fate, old(state), state, now, |old(submitted)|, submitted, RanSince(old(executed)))
    {
      ghost var s0, before: seq<string>, ran, from := state, executed, Executions(|executed|, []), |submitted|;
      var jobs := ListJobs();
      for k := 0 to |jobs|
        invariant OwnIds() && executed == before + ran.ids && Progress(Reconciling, s0, state, jobs, k, now, ran.ids)
        invariant ran.first == |before|
        invariant Serving(fate, Reconciling, jobs, k, state, now, from, submitted, ran)
      {
        ghost var s, sent, ranBefore, executedBefore := state, submitted, ran, executed;
        ghost var r := CatchUp(jobs[k], now);
        ghost var more := if r then [jobs[k].id] else [];
        ran := ranBefore.(ids := ranBefore.ids + more);
        Appended(before, ranBefore.ids, more, executedBefore, executed);
        PassStep(fate, Reconciling, s0, s, state, jobs, k, now, from, |executedBefore|, sent, submitted, ranBefore, ran, r);
      }
      ProgressDone(Reconciling, s0, state, jobs, now, ran.ids);
      ServingDone(fate, Reconciling, s0, state, jobs, now, from, submitted, ran);
      ReconcilesEach(fate, s0, state, now, from, submitted, ran);
      assert RanSince(before) == ran.ids;
    }
  }

  // ----- At most one execution per occurrence -----

  /** A pass of the scheduler at some time, or any other command that reaches the store. */
  datatype Event =
    | Look(pass: Pass, now: Instant, ran: seq<string>)
    | Other(cmd: Command)

  ghost predicate Follows(s: StoreState, event: Event, s': StoreState) {
    match event
    case Look(pass, now, ran) => Passed(pass, s, s', now, ran)
    case Other(cmd) => s' == Apply(s, cmd)
  }

  ghost predicate Trace(states: seq<StoreState>, events: seq<Event>) {
    && |states| == |events| + 1
    && forall k: nat :: k < |events| ==> Follows(states[k], events[k], states[k + 1])
  }

  predicate Runs(event: Event, id: string) {
    event.Look? && id in event.ran
  }

  /** Neither replaces nor deletes the job. */
  predicate LeavesAlone(event: Event, id: string) {
    event.Other? ==> match event.cmd
                     case Upsert(_, job) => job.id != id
                     case Delete(_, target) => target != id
                     case Record(_, _) => true
  }

  /** The job is waiting for an occurrence no earlier than next. */
  ghost predicate Waits(s: StoreState, id: string, expr: string, next: Instant) {
    id in s.jobs && s.jobs[id].cronExpr == expr && s.jobs[id].nextRun >= next
  }

  lemma WaitsOn(s: StoreState, event: Event, s': StoreState, id: string, expr: string, next: Instant)
    requires Follows(s, event, s') && LeavesAlone(event, id) && Waits(s, id, expr, next)
    ensures Waits(s', id, expr, next)
  {
    if event.Look? {
      assert JobPassed(event.pass, s.jobs[id], s'.jobs[id], event.now, id in event.ran);
      if Upcoming(expr, event.now).Some? {
        UpcomingIsFirst(expr, event.now);
      }
    }
  }

  lemma RunStarts(s: StoreState, event: Event, s': StoreState, id: string)
    requires Follows(s, event, s') && Runs(event, id)
    ensures id in s.jobs && s.jobs[id].nextRun != ZERO_TIME && s.jobs[id].nextRun <= event.now
    ensures Upcoming(s.jobs[id].cronExpr, event.now).Some?
    ensures Waits(s', id, s.jobs[id].cronExpr, Upcoming(s.jobs[id].cronExpr, event.now).value)
  {
    assert JobPassed(event.pass, s.jobs[id], s'.jobs[id], event.now, true);
  }

  lemma WaitsStep(states: seq<StoreState>, events: seq<Event>, m: nat, k: nat, id: string, expr: string, next: Instant)
    requires Trace(states, events) && m < |events| && k == m + 1
    requires LeavesAlone(events[m], id) && Waits(states[m], id, expr, next)
    ensures Waits(states[k], id, expr, next)
  {
    WaitsOn(states[m], events[m], states[k], id, expr, next);
  }

  lemma {:induction false} WaitsUntil(states: seq<StoreState>, events: seq<Event>, a: nat, b: nat, id: string,
                                      expr: string, next: Instant)
    requires Trace(states, events) && a <= b <= |events| && Waits(states[a], id, expr, next)
    requires forall c: nat :: a <= c < b ==> LeavesAlone(events[c], id)
    ensures Waits(states[b], id, expr, next)
    decreases b
  {
    if a < b {
      var m: nat := b - 1;
      WaitsUntil(states, events, a, m, id, expr, next);
      WaitsStep(states, events, m, b, id, expr, next);
    }
  }

  /**
   Once a job has run at some time, it does not run again before the first occurrence after that
   time, however often the scheduler looks and however many occurrences were missed before: two
   runs are always separated by an occurrence, and each look runs the job at most once.
   */
  lemma AtMostOncePerOccurrence(states: seq<StoreState>, events: seq<Event>, a: nat, b: nat, id: string)
    requires Trace(states, events) && a < b < |events| && Runs(events[a], id) && Runs(events[b], id)
    requires forall c: nat :: a < c < b ==> LeavesAlone(events[c], id)
    ensures NoDuplicates(events[a].ran) && NoDuplicates(events[b].ran) && id in states[a].jobs
    ensures var next := Upcoming(states[a].jobs[id].cronExpr, events[a].now);
      next.Some? && events[a].now < next.value <= events[b].now
    ensures exists m :: events[a].now < m * NANOS_PER_MINUTE <= events[b].now &&
                        Matching(Reading(states[a].jobs[id].cronExpr).value)(m)
  {
    RunStarts(states[a], events[a], states[a + 1], id);
    RunStarts(states[b], events[b], states[b + 1], id);
    var expr := states[a].jobs[id].cronExpr;
    var next := Upcoming(expr, events[a].now).value;
    WaitsUntil(states, events, a + 1, b, id, expr, next);
    UpcomingIsFirst(expr, events[a].now);
    var m := next / NANOS_PER_MINUTE;
    assert m * NANOS_PER_MINUTE == next && Matching(Reading(expr).value)(m);
  }
}
