/**
 The schedulers of all servers on top of the replicated store, over whole runs. A scheduler acts on
 the store of its own server, which may be behind: exactly when it has seen what was done about a
 job before, it takes up a later occurrence.
 */
module Firing {
  import opened Commands
  import opened RaftTypes
  import opened History
  import opened HistoryProofs
  import opened ClusterProofs
  import opened Safety
  import opened Replicas
  import opened CronNext
  import opened CronParse
  import opened System
  import opened SystemProofs
  import opened SystemSafety
  import C = Cluster
  import Sched = Scheduler

  /** A scheduler that deals with a job: its server, when it read its store, its clock then, what it read and sent. */
  datatype Act = Act(pass: Sched.Pass, server: nat, look: nat, now: Instant, submit: nat, reqId: string, job: Job)

  function NextOf(a: Act): Option<Instant> {
    Sched.Upcoming(a.job.cronExpr, a.now)
  }

  function CommandOf(a: Act): Command
    requires NextOf(a).Some?
  {
    Upsert(a.reqId, a.job.(nextRun := NextOf(a).value))
  }

  /** The job was in the store and due, and its next occurrence was submitted later. */
  ghost predicate Acts(run: seq<System>, steps: seq<Step>, a: Act) {
    && |run| == |steps| + 1 && a.look <= a.submit < |steps| && a.server < |run[a.look].sites|
    && a.job.id in run[a.look].sites[a.server].replica.state.jobs
    && run[a.look].sites[a.server].replica.state.jobs[a.job.id] == a.job
    && Sched.ActionFor(a.pass, a.job, a.now) != Sched.Ignore && NextOf(a).Some?
    && steps[a.submit] == Submit(a.server, CommandOf(a))
  }

  /** The index up to which the store had processed the log when the scheduler read it. */
  ghost function SeenBy(run: seq<System>, a: Act): nat
    requires a.look < |run| && a.server < |run[a.look].sites|
  {
    run[a.look].sites[a.server].upto
  }

  /** The submission succeeded, so that the job was run if it was to be fired. */
  ghost predicate Succeeded(run: seq<System>, a: Act, told: nat) {
    told < |run| && a.reqId in run[told].answers && run[told].answers[a.reqId].Success?
  }

  /** The first y entries of the log of a server that has them committed. */
  ghost predicate CommittedLog(run: seq<System>, k: nat, d: nat, log: Log) {
    && k < |run| && d < |run[k].c.nodes| && |log| <= run[k].c.nodes[d].commit
    && log <= run[k].c.nodes[d].log
  }

  // ----- A submitted command keeps its place -----

  lemma Accepted(n: nat, run: seq<System>, steps: seq<Step>, m: nat, i: nat, cmd: Command, k: nat, d: nat, x: nat)
    requires Run(n, run, steps) && m < |steps| && steps[m] == Submit(i, cmd) && k < |run| && d < |run[k].c.nodes|
    requires 1 <= x <= run[k].c.nodes[d].commit <= |run[k].c.nodes[d].log|
    requires Carries(run[k].c.nodes[d].log[x - 1], cmd.reqId)
    ensures m < k && i < |run[m].c.nodes| && run[m].c.nodes[i].role.Leader? && x == |run[m].c.nodes[i].log| + 1
    ensures cmd.reqId in run[k].born && run[k].born[cmd.reqId] == Birth(i, run[m].c.nodes[i].term, x)
  {
    CommandAtOneIndex(n, run, steps, k, d, cmd.reqId, x);
    assert Enabled(run[m], steps[m]) && run[m + 1] == After(run[m], steps[m]);
    if k <= m {
      SystemRemembers(n, run, steps, k, m);
      assert false;
    }
    if !run[m].c.nodes[i].role.Leader? {
      RefusedIsNeverCommitted(n, run, steps, m + 1, k, d, cmd.reqId, x);
      assert false;
    }
    SystemRemembers(n, run, steps, m + 1, k);
  }

  lemma EntryPlaced(n: nat, run: seq<System>, steps: seq<Step>, m: nat, m': nat, i: nat, cmd: Command)
    requires Run(n, run, steps) && m < |steps| && m' == m + 1 && steps[m] == Submit(i, cmd)
    requires i < |run[m].c.nodes| && run[m].c.nodes[i].role.Leader?
    ensures var t, x := run[m].c.nodes[i].term, |run[m].c.nodes[i].log| + 1;
      && t in run[m'].c.h.reigns && |run[m'].c.h.reigns[t].log| >= x
      && run[m'].c.h.reigns[t].log[x - 1] == Entry(t, Some(cmd))
  {
    SystemRunOk(n, run, steps, m);
    SubmitExtends(run[m].c, i, cmd, run[m].c.nodes[i], run[m'].c.h);
  }

  /** Where a submitted command is committed, the entry is the one its leader created. */
  lemma CommandStands(n: nat, run: seq<System>, steps: seq<Step>, m: nat, i: nat, cmd: Command, k: nat, d: nat, x: nat)
    requires Run(n, run, steps) && m < |steps| && steps[m] == Submit(i, cmd) && k < |run| && d < |run[k].c.nodes|
    requires 1 <= x <= run[k].c.nodes[d].commit <= |run[k].c.nodes[d].log|
    requires Carries(run[k].c.nodes[d].log[x - 1], cmd.reqId)
    ensures run[k].c.nodes[d].log[x - 1].command == Some(cmd)
  {
    Accepted(n, run, steps, m, i, cmd, k, d, x);
    EntryPlaced(n, run, steps, m, m + 1, i, cmd);
    SystemRemembers(n, run, steps, m + 1, k);
    SystemRunOk(n, run, steps, k);
    NodeOwned(run[k].c, d);
    SameEntry(run[m + 1].c.h, run[k].c.h, run[k].born, run[k].c.nodes[d].log, cmd, run[m].c.nodes[i].term, x);
  }

  lemma SameEntry(h: State, h': State, born: map<string, Birth>, log: Log, cmd: Command, t: nat, x: nat)
    requires ReignsGrow(h, h') && Owned(h', log) && BornOk(h', born) && 1 <= x <= |log|
    requires Carries(log[x - 1], cmd.reqId) && cmd.reqId in born && born[cmd.reqId].term == t
    requires t in h.reigns && |h.reigns[t].log| >= x && h.reigns[t].log[x - 1] == Entry(t, Some(cmd))
    ensures log[x - 1].command == Some(cmd)
  {
    var u := log[x - 1].term;
    assert OwnedAt(h', log, x - 1);
    assert log[..x][x - 1] == log[x - 1];
    assert OwnEntry(h', u, x) && EntryBorn(h', born, u, x);
    assert ReignGrows(h.reigns[t], h'.reigns[t]);
  }

  /**
   A submission succeeds only on the server that made it, at the moment its own store applies the
   command: the scheduler that goes on to run the job has its next occurrence before it.
   */
  lemma SuccessApplies(n: nat, run: seq<System>, steps: seq<Step>, m: nat, j: nat, cmd: Command, k: nat, i: nat)
    requires Run(n, run, steps) && m < |steps| && steps[m] == Submit(j, cmd)
    requires k < |steps| && steps[k] == Step.Apply(i) && Enabled(run[k], steps[k])
    requires Told(run[k].sites[i]) == Some((cmd.reqId, Success))
    ensures i == j && m < k && i < |run[k + 1].sites|
    ensures run[k + 1].sites[i].replica.state == Replicas.Apply(run[k].sites[i].replica.state, cmd)
  {
    SystemRunOk(n, run, steps, k);
    var node, site := run[k].c.nodes[i], run[k].sites[i];
    assert SiteOk(node, site) && WaitsOk(site, i, run[k].born, run[k].answers);
    NodeOwned(run[k].c, i);
    var x: nat := site.queue[0].0;
    ToldShape(node, site, x);
    Accepted(n, run, steps, m, j, cmd, k, i, x);
    CommandStands(n, run, steps, m, j, cmd, k, i, x);
  }

  // ----- What an earlier look saw -----

  lemma {:induction false} TermsRise(n: nat, run: seq<System>, steps: seq<Step>, j: nat, k: nat, i: nat)
    requires Run(n, run, steps) && j <= k < |run| && i < |run[j].c.nodes|
    ensures i < |run[k].c.nodes| && run[j].c.nodes[i].term <= run[k].c.nodes[i].term
    decreases k
  {
    if j < k {
      var m: nat := k - 1;
      TermsRise(n, run, steps, j, m, i);
      SystemRunOk(n, run, steps, m);
      assert Enabled(run[m], steps[m]) && run[k] == After(run[m], steps[m]);
      TermStep(run[m], steps[m], run[k], i);
    }
  }

  lemma TermStep(s: System, step: Step, s': System, i: nat)
    requires SystemOk(s) && Enabled(s, step) && s' == After(s, step) && i < |s.c.nodes|
    ensures i < |s'.c.nodes| && s.c.nodes[i].term <= s'.c.nodes[i].term
  {
    match step {
      case Raft(r) => TermKept(s.c, r, i);
      case Submit(j, cmd) => TermKept(s.c, C.Submit(j, cmd), i);
      case SaveSnapshot(j, task) =>
        if C.Enabled(s.c, C.Compact(j, task.0)) {
          TermKept(s.c, C.Compact(j, task.0), i);
        }
      case _ =>
    }
  }

  /** What a server had committed is in its log when it leads later. */
  lemma LedLater(n: nat, run: seq<System>, steps: seq<Step>, j: nat, k: nat, i: nat)
    requires Run(n, run, steps) && j <= k < |run| && i < |run[j].c.nodes| && i < |run[k].c.nodes|
    requires run[k].c.nodes[i].role.Leader?
    ensures run[j].c.nodes[i].commit <= |run[j].c.nodes[i].log|
    ensures run[j].c.nodes[i].log[..run[j].c.nodes[i].commit] <= run[k].c.nodes[i].log
  {
    var s := run[j].c.nodes[i];
    PrefixInLater(n, run, steps, j, k, i);
    TermsRise(n, run, steps, j, k, i);
    SystemRunOk(n, run, steps, k);
    NodeOwned(run[k].c, i);
    CommittedByInReign(run[k].c.h, s.log[..s.commit], s.term, run[k].c.nodes[i].term);
  }

  /** What a store had processed is a fold of what is committed later. */
  lemma SeenAgrees(n: nat, run: seq<System>, steps: seq<Step>, j: nat, i: nat, k: nat, d: nat, log: Log, seen: nat)
    requires Run(n, run, steps) && j <= k < |run| && i < |run[j].sites| && seen == run[j].sites[i].upto <= |log|
    requires CommittedLog(run, k, d, log)
    ensures run[j].sites[i].replica.state == Fold(log[..seen])
  {
    RecoveryIsReplay(n, run, steps, j, i);
    CommittedAgree(n, run, steps, j, k, i, d, seen);
    assert log[..seen] == run[k].c.nodes[d].log[..seen];
  }

  /** What a store had processed is in the log of its server when that leads later. */
  lemma SeenWithin(n: nat, run: seq<System>, steps: seq<Step>, j: nat, k: nat, i: nat)
    requires Run(n, run, steps) && j <= k < |run| && i < |run[j].sites| && i < |run[k].c.nodes|
    requires run[k].c.nodes[i].role.Leader?
    ensures run[j].sites[i].upto <= |run[k].c.nodes[i].log|
  {
    RecoveryIsReplay(n, run, steps, j, i);
    LedLater(n, run, steps, j, k, i);
  }

  /** An act saw only what stands before its own command, and saw it as any server has it. */
  lemma SeenBefore(n: nat, run: seq<System>, steps: seq<Step>, a: Act, k: nat, d: nat, log: Log, x: nat)
    requires Run(n, run, steps) && Acts(run, steps, a) && CommittedLog(run, k, d, log)
    requires 1 <= x <= |log| && log[x - 1].command == Some(CommandOf(a))
    ensures SeenBy(run, a) < x && run[a.look].sites[a.server].replica.state == Fold(log[..SeenBy(run, a)])
  {
    NodesStay(n, run, steps, k, d);
    Accepted(n, run, steps, a.submit, a.server, CommandOf(a), k, d, x);
    SeenWithin(n, run, steps, a.look, a.submit, a.server);
    SeenAgrees(n, run, steps, a.look, a.server, k, d, log, SeenBy(run, a));
  }

  lemma NodesStay(n: nat, run: seq<System>, steps: seq<Step>, k: nat, d: nat)
    requires Run(n, run, steps) && k < |run| && d < |run[k].c.nodes|
    ensures run[k].c.nodes[d].commit <= |run[k].c.nodes[d].log|
  {
    SystemRunOk(n, run, steps, k);
    NodeOwned(run[k].c, d);
  }

  // ----- A job that waits -----

  /**
   After index lo and up to hi nobody edits or deletes the job, except for the command at x and for
   schedulers that, when they looked, had seen that one.
   */
  ghost predicate LeftAlone(run: seq<System>, steps: seq<Step>, log: Log, lo: nat, hi: nat, x: nat, id: string)
    requires hi <= |log|
  {
    forall z: nat :: lo < z <= hi && z != x ==> LeftAloneAt(run, steps, log, z, x, id)
  }

  ghost predicate LeftAloneAt(run: seq<System>, steps: seq<Step>, log: Log, z: nat, x: nat, id: string)
    requires 0 < z <= |log|
  {
    && !Deletes(log[z - 1], id)
    && (Upserts(log[z - 1], id) ==> z > x && exists c: Act :: MovedBy(run, steps, log, z, c, x))
  }

  /** The command at z moves a job on, by a scheduler that had seen index x. */
  ghost predicate MovedBy(run: seq<System>, steps: seq<Step>, log: Log, z: nat, c: Act, x: nat)
    requires 0 < z <= |log|
  {
    Acts(run, steps, c) && log[z - 1].command == Some(CommandOf(c)) && x <= SeenBy(run, c)
  }

  lemma FoldFront(log: Log, z: nat)
    requires 1 <= z <= |log|
    ensures Fold(log[..z]) == ApplyEntry(Fold(log[..z - 1]), log[z - 1].command)
  {
    assert log[..z][..z - 1] == log[..z - 1];
  }

  /** Whoever moves a waiting job on when it is due makes it wait for a later occurrence. */
  lemma MovedWaits(c: Act, s: StoreState, id: string, expr: string, next: Instant)
    requires Sched.Waits(s, id, expr, next) && c.job == s.jobs[id]
    requires Sched.ActionFor(c.pass, c.job, c.now) != Sched.Ignore && NextOf(c).Some?
    ensures next <= c.job.nextRun <= c.now < NextOf(c).value && c.job.cronExpr == expr
  {
    Sched.UpcomingIsFirst(expr, c.now);
  }

  lemma EntryWaits(s: StoreState, e: Entry, id: string, expr: string, next: Instant)
    requires Sched.Waits(s, id, expr, next) && !Deletes(e, id)
    requires Upserts(e, id) ==> e.command.value.job.cronExpr == expr && e.command.value.job.nextRun >= next
    ensures Sched.Waits(ApplyEntry(s, e.command), id, expr, next)
  {}

  lemma {:induction false} WaitsThrough(n: nat, run: seq<System>, steps: seq<Step>, a: Act, k: nat, d: nat, log: Log,
                                        x: nat, z: nat)
    requires Run(n, run, steps) && Acts(run, steps, a) && CommittedLog(run, k, d, log) && 1 <= x <= z <= |log|
    requires log[x - 1].command == Some(CommandOf(a)) && LeftAlone(run, steps, log, x, z, x, a.job.id)
    ensures Sched.Waits(Fold(log[..z]), a.job.id, a.job.cronExpr, NextOf(a).value)
    decreases z
  {
    FoldFront(log, z);
    if x < z {
      WaitsThrough(n, run, steps, a, k, d, log, x, z - 1);
      assert LeftAloneAt(run, steps, log, z, x, a.job.id);
      if Upserts(log[z - 1], a.job.id) {
        var c: Act :| MovedBy(run, steps, log, z, c, x);
        SeenBefore(n, run, steps, c, k, d, log, z);
        WaitsThrough(n, run, steps, a, k, d, log, x, SeenBy(run, c));
        MovedWaits(c, Fold(log[..SeenBy(run, c)]), a.job.id, a.job.cronExpr, NextOf(a).value);
      }
      EntryWaits(Fold(log[..z - 1]), log[z - 1], a.job.id, a.job.cronExpr, NextOf(a).value);
    }
  }

  predicate EditsAt(log: Log, z: nat, id: string)
    requires 0 < z <= |log|
  {
    Deletes(log[z - 1], id) || Upserts(log[z - 1], id)
  }

  /** Records aside, a stretch of the log without commands about a job leaves it as it was. */
  lemma {:induction false} Untouched(log: Log, p: nat, q: nat, id: string)
    requires p <= q <= |log|
    requires forall z: nat :: p < z <= q ==> !EditsAt(log, z, id)
    ensures id in Fold(log[..p]).jobs <==> id in Fold(log[..q]).jobs
    ensures id in Fold(log[..p]).jobs ==> Fold(log[..p]).jobs[id].nextRun == Fold(log[..q]).jobs[id].nextRun
    decreases q
  {
    if p < q {
      Untouched(log, p, q - 1, id);
      assert !EditsAt(log, q, id);
      FoldFront(log, q);
    }
  }

  // ----- At most once per occurrence, on any servers -----

  lemma MinuteBetween(expr: string, now: Instant, later: Instant)
    requires Sched.Upcoming(expr, now).Some? && Sched.Upcoming(expr, now).value <= later
    ensures now < Sched.Upcoming(expr, now).value
    ensures exists m :: now < m * NANOS_PER_MINUTE <= later && Matching(Reading(expr).value)(m)
  {
    Sched.UpcomingIsFirst(expr, now);
    var next := Sched.Upcoming(expr, now).value;
    var m := next / NANOS_PER_MINUTE;
    assert m * NANOS_PER_MINUTE == next && Matching(Reading(expr).value)(m);
  }

  /**
   A scheduler whose store had processed what another one did about a job acts on a later occurrence:
   their times are separated by it, whatever servers they run on and whoever led in between.
   */
  lemma InformedActsLater(n: nat, run: seq<System>, steps: seq<Step>, a: Act, b: Act, k: nat, d: nat, log: Log, x: nat)
    requires Run(n, run, steps) && Acts(run, steps, a) && Acts(run, steps, b) && a.job.id == b.job.id
    requires CommittedLog(run, k, d, log) && 1 <= x <= SeenBy(run, b) <= |log|
    requires log[x - 1].command == Some(CommandOf(a)) && LeftAlone(run, steps, log, x, SeenBy(run, b), x, a.job.id)
    requires run[b.look].sites[b.server].replica.state == Fold(log[..SeenBy(run, b)])
    ensures a.job.nextRun <= a.now < NextOf(a).value <= b.job.nextRun <= b.now && b.job.cronExpr == a.job.cronExpr
    ensures exists m :: a.now < m * NANOS_PER_MINUTE <= b.now && Matching(Reading(a.job.cronExpr).value)(m)
  {
    var next := NextOf(a).value;
    WaitsThrough(n, run, steps, a, k, d, log, x, SeenBy(run, b));
    MovedWaits(b, Fold(log[..SeenBy(run, b)]), a.job.id, a.job.cronExpr, next);
    MinuteBetween(a.job.cronExpr, a.now, b.now);
  }

  /** It cannot be settled both ways whether an index carries a request. */
  lemma FixedBoth(h: State, x: nat, reqId: string, p: bool, q: bool)
    requires ReignsOk(h) && CompleteOk(h) && Fixed(h, x, reqId, p) && Fixed(h, x, reqId, q)
    ensures p == q
  {
    var u: nat, m: nat :| FixedBy(h, x, reqId, p, u, m);
    var w: nat, k: nat :| FixedBy(h, x, reqId, q, w, k);
    CommittedLine(h, u, m, w, k);
    var a, b := h.reigns[u].log, h.reigns[w].log;
    assert a[..m][x - 1] == a[x - 1] && b[..k][x - 1] == b[x - 1];
  }

  /** A command whose submitter was told of success stands at its index in every committed log. */
  lemma StandsWhereTold(n: nat, run: seq<System>, steps: seq<Step>, a: Act, told: nat, k: nat, d: nat, log: Log, x: nat)
    requires Run(n, run, steps) && Acts(run, steps, a) && Succeeded(run, a, told)
    requires a.reqId in run[told].born ==> x == run[told].born[a.reqId].index
    requires CommittedLog(run, k, d, log) && x <= |log|
    ensures 1 <= x && log[x - 1].command == Some(CommandOf(a))
  {
    var later := if told <= k then k else told;
    SystemRunOk(n, run, steps, told);
    SystemRunOk(n, run, steps, k);
    SystemRunOk(n, run, steps, later);
    SystemRemembers(n, run, steps, told, later);
    SystemRemembers(n, run, steps, k, later);
    AnswerHolds(run[told], a.reqId);
    NodeOwned(run[k].c, d);
    var carries := Carries(run[k].c.nodes[d].log[x - 1], a.reqId);
    CommitFixes(run[k].c.h, run[k].c.nodes[d], x, a.reqId);
    FixedGrows(run[told].c.h, run[later].c.h, x, a.reqId, true);
    FixedGrows(run[k].c.h, run[later].c.h, x, a.reqId, carries);
    FixedBoth(run[later].c.h, x, a.reqId, true, carries);
    CommandStands(n, run, steps, a.submit, a.server, CommandOf(a), k, d, x);
  }

  /**
   At most one execution per occurrence, across servers: a job that was run is not taken up again
   before the next occurrence by a scheduler whose store had processed that, provided that nobody
   else edits the job and that every scheduler that moved it on in between had processed that, too.
   */
  lemma OncePerOccurrence(n: nat, run: seq<System>, steps: seq<Step>, a: Act, b: Act, told: nat, log: Log, x: nat)
    requires Run(n, run, steps) && Acts(run, steps, a) && Acts(run, steps, b) && a.job.id == b.job.id
    requires Succeeded(run, a, told) && (a.reqId in run[told].born ==> x == run[told].born[a.reqId].index)
    requires x <= SeenBy(run, b) == |log| && CommittedLog(run, b.look, b.server, log)
    requires LeftAlone(run, steps, log, x, |log|, x, a.job.id)
    ensures a.job.nextRun <= a.now < NextOf(a).value <= b.job.nextRun <= b.now && b.job.cronExpr == a.job.cronExpr
    ensures exists m :: a.now < m * NANOS_PER_MINUTE <= b.now && Matching(Reading(a.job.cronExpr).value)(m)
  {
    StandsWhereTold(n, run, steps, a, told, b.look, b.server, log, x);
    SeenAgrees(n, run, steps, b.look, b.server, b.look, b.server, log, |log|);
    InformedActsLater(n, run, steps, a, b, b.look, b.server, log, x);
  }

  /** Schedulers that saw nothing happen to a job in between read the same occurrence. */
  lemma SameOccurrence(log: Log, p: nat, q: nat, id: string)
    requires p <= |log| && q <= |log| && id in Fold(log[..p]).jobs && id in Fold(log[..q]).jobs
    requires forall z: nat :: 0 < z <= |log| && (p < z <= q || q < z <= p) ==> !EditsAt(log, z, id)
    ensures Fold(log[..p]).jobs[id].nextRun == Fold(log[..q]).jobs[id].nextRun
  {
    if p <= q {
      Untouched(log, p, q, id);
    } else {
      Untouched(log, q, p, id);
    }
  }

  lemma BothBefore(run: seq<System>, steps: seq<Step>, log: Log, p: nat, q: nat, lo: nat, x: nat, id: string)
    requires lo <= p < x < |log| && lo <= q < x && id in Fold(log[..p]).jobs && id in Fold(log[..q]).jobs
    requires LeftAlone(run, steps, log, lo, |log| - 1, x, id)
    ensures Fold(log[..p]).jobs[id].nextRun == Fold(log[..q]).jobs[id].nextRun
  {
    forall z: nat | 0 < z <= |log| && (p < z <= q || q < z <= p)
      ensures !EditsAt(log, z, id)
    {
      assert LeftAloneAt(run, steps, log, z, x, id);
    }
    SameOccurrence(log, p, q, id);
  }

  /**
   Of two executions of a job whose commands stand at x and y, the second is for a later occurrence
   exactly when its scheduler's store had processed index x, and otherwise for the same one: as
   under a new leader that has not applied yet what the old one committed.
   */
  lemma LaterExactlyWhenInformed(n: nat, run: seq<System>, steps: seq<Step>, a: Act, b: Act, toldA: nat, toldB: nat,
                                 k: nat, d: nat, log: Log, lo: nat, x: nat, y: nat)
    requires Run(n, run, steps) && Acts(run, steps, a) && Acts(run, steps, b) && a.job.id == b.job.id
    requires Succeeded(run, a, toldA) && (a.reqId in run[toldA].born ==> x == run[toldA].born[a.reqId].index)
    requires Succeeded(run, b, toldB) && (b.reqId in run[toldB].born ==> y == run[toldB].born[b.reqId].index)
    requires CommittedLog(run, k, d, log) && x < y == |log|
    requires lo == (if SeenBy(run, a) < SeenBy(run, b) then SeenBy(run, a) else SeenBy(run, b))
    requires LeftAlone(run, steps, log, lo, y - 1, x, a.job.id)
    ensures x <= SeenBy(run, b) <==> a.job.nextRun < b.job.nextRun
    ensures SeenBy(run, b) < x ==> b.job.nextRun == a.job.nextRun
  {
    StandsWhereTold(n, run, steps, a, toldA, k, d, log, x);
    StandsWhereTold(n, run, steps, b, toldB, k, d, log, y);
    SeenBefore(n, run, steps, a, k, d, log, x);
    SeenBefore(n, run, steps, b, k, d, log, y);
    if x <= SeenBy(run, b) {
      InformedActsLater(n, run, steps, a, b, k, d, log, x);
    } else {
      BothBefore(run, steps, log, SeenBy(run, a), SeenBy(run, b), lo, x, a.job.id);
    }
  }
}
