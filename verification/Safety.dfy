/**
 What every run of a cluster guarantees: messages lost, repeated, reordered or delayed,
 servers crashing and restarting, logs compacted, at any moment.
 */
module Safety {
  import opened RaftTypes
  import opened RaftNode
  import opened RaftNodeProofs
  import opened History
  import opened HistoryProofs
  import opened Cluster
  import opened ClusterInv
  import opened ClusterProofs
  import opened ClusterShipping
  import opened ClusterConfirm
  import opened Backup

  // ----- Along a run -----

  lemma RemembersStep(h: State, h': State, h'': State)
    requires Remembers(h, h') && Remembers(h', h'')
    ensures Remembers(h, h'')
  {
    forall t | t in h.reigns
      ensures t in h''.reigns && ReignGrows(h.reigns[t], h''.reigns[t])
    {
      assert ReignGrows(h.reigns[t], h'.reigns[t]) && ReignGrows(h'.reigns[t], h''.reigns[t]);
    }
    forall v: nat, t: nat
      ensures Acked(h, v, t) <= Acked(h'', v, t)
    {
      assert Acked(h, v, t) <= Acked(h', v, t);
    }
  }

  lemma LegalRemembers(c: Cluster, c': Cluster)
    requires Legal(c, c')
    ensures Remembers(c.h, c'.h)
  {
    var i: nat, s': Node, h': State, sent: set<Message> :| Moves(c, c', i, s', h', sent);
  }

  lemma RunStep(n: nat, run: seq<Cluster>, steps: seq<Step>, k: nat)
    requires Run(n, run, steps) && k < |steps|
    ensures ClusterOk(run[k]) && Enabled(run[k], steps[k])
    ensures run[k + 1] == After(run[k], steps[k]) && Legal(run[k], run[k + 1])
  {
    RunOk(n, run, steps, k);
    StepKeeps(run[k], steps[k]);
  }

  lemma StepRemembers(n: nat, run: seq<Cluster>, steps: seq<Step>, m: nat, k: nat)
    requires Run(n, run, steps) && m < |steps| && k == m + 1
    ensures Remembers(run[m].h, run[k].h)
  {
    RunStep(n, run, steps, m);
    LegalRemembers(run[m], run[k]);
  }

  /** Elections won, entries led and indices confirmed at one moment of a run stay so. */
  lemma {:induction false} RunRemembers(n: nat, run: seq<Cluster>, steps: seq<Step>, j: nat, k: nat)
    requires Run(n, run, steps) && j <= k < |run|
    ensures Remembers(run[j].h, run[k].h)
    decreases k
  {
    if j < k {
      var m: nat := k - 1;
      RunRemembers(n, run, steps, j, m);
      StepRemembers(n, run, steps, m, k);
      RemembersStep(run[j].h, run[m].h, run[k].h);
    }
  }

  // ----- Election safety -----

  /** At most one server ever leads in a term: two leaders of one term, ever, are the same. */
  lemma ElectionSafety(n: nat, run: seq<Cluster>, steps: seq<Step>, j: nat, k: nat, a: nat, b: nat)
    requires Run(n, run, steps) && j <= k < |run| && a < |run[j].nodes| && b < |run[k].nodes|
    requires run[j].nodes[a].role.Leader? && run[k].nodes[b].role.Leader?
    requires run[j].nodes[a].term == run[k].nodes[b].term
    ensures a == b
  {
    RunOk(n, run, steps, j);
    RunOk(n, run, steps, k);
    RunRemembers(n, run, steps, j, k);
    assert NodeOk(run[j].h, a, run[j].nodes[a]) && NodeOk(run[k].h, b, run[k].nodes[b]);
    var t := run[j].nodes[a].term;
    assert ReignGrows(run[j].h.reigns[t], run[k].h.reigns[t]);
  }

  lemma {:induction false} RunSize(n: nat, run: seq<Cluster>, steps: seq<Step>, k: nat)
    requires Run(n, run, steps) && k < |run|
    ensures |run[k].nodes| == n
  {
    if k > 0 {
      RunSize(n, run, steps, k - 1);
    }
  }

  /** Votes arrive only in answers of other servers, and a lone server has none to ask. */
  ghost predicate Unelected(c: Cluster) {
    && |c.nodes| <= 1 && (forall i: nat :: i < |c.nodes| ==> !c.nodes[i].role.Leader?)
    && (forall m :: m in c.msgs ==> !m.VoteAnswer?) && c.h.reigns == map[]
  }

  lemma OnlyVotesElect(c: Cluster, step: Step, i: nat)
    requires Enabled(c, step) && i == Actor(step) && i < |c.nodes|
    ensures NodeAfter(c, step).role.Leader? ==> step.CountVote? || c.nodes[i].role.Leader?
    ensures forall m :: m in Sent(c, step) && m.VoteAnswer? ==> step.AnswerVote?
  {}

  lemma NoReignYet(c: Cluster, step: Step, h': State)
    requires Enabled(c, step) && !step.CountVote? && c.h.reigns == map[] && h' == HistoryAfter(c, step)
    ensures h'.reigns == map[]
  {}

  lemma NobodyToAsk(c: Cluster, step: Step)
    requires ClusterOk(c) && Enabled(c, step) && |c.nodes| <= 1
    ensures !step.AnswerVote?
  {}

  lemma UnelectedStep(c: Cluster, step: Step, c': Cluster)
    requires ClusterOk(c) && Enabled(c, step) && Unelected(c) && Actor(step) < |c.nodes| && c' == After(c, step)
    ensures Unelected(c')
  {
    NobodyToAsk(c, step);
    OnlyVotesElect(c, step, Actor(step));
    NoReignYet(c, step, c'.h);
  }

  /** A cluster of at most one server never has a leader: its own vote is never counted towards a majority. */
  lemma {:induction false} LoneServerNeverLeads(n: nat, run: seq<Cluster>, steps: seq<Step>, k: nat)
    requires n <= 1 && Run(n, run, steps) && k < |run|
    ensures Unelected(run[k])
  {
    if k > 0 {
      LoneServerNeverLeads(n, run, steps, k - 1);
      RunStep(n, run, steps, k - 1);
      StepActor(run[k - 1], steps[k - 1]);
      UnelectedStep(run[k - 1], steps[k - 1], run[k]);
    }
  }

  // ----- Log matching -----

  lemma NodeOwned(c: Cluster, i: nat)
    requires ClusterOk(c) && i < |c.nodes|
    ensures At(c.h, i, c.nodes[i]) && NodeOk(c.h, i, c.nodes[i]) && Owned(c.h, c.nodes[i].log)
  {}

  /** Equal terms at an index mean equal logs up to it, across servers and across time. */
  lemma LogMatching(n: nat, run: seq<Cluster>, steps: seq<Step>, j: nat, k: nat, a: nat, b: nat, x: nat)
    requires Run(n, run, steps) && j <= k < |run|
    requires a < |run[j].nodes| && b < |run[k].nodes|
    requires 1 <= x <= |run[j].nodes[a].log| && x <= |run[k].nodes[b].log|
    requires TermAt(run[j].nodes[a].log, x) == TermAt(run[k].nodes[b].log, x)
    ensures run[j].nodes[a].log[..x] == run[k].nodes[b].log[..x]
  {
    RunOk(n, run, steps, j);
    RunOk(n, run, steps, k);
    NodeOwned(run[j], a);
    NodeOwned(run[k], b);
    RunRemembers(n, run, steps, j, k);
    OwnedGrows(run[j].h, run[k].h, run[j].nodes[a].log);
    OwnedMatch(run[k].h, run[j].nodes[a].log, run[k].nodes[b].log, x);
  }

  /** Terms never decrease along any server's log. */
  lemma TermsAscend(n: nat, run: seq<Cluster>, steps: seq<Step>, k: nat, a: nat)
    requires Run(n, run, steps) && k < |run| && a < |run[k].nodes|
    ensures Monotone(run[k].nodes[a].log)
  {
    RunOk(n, run, steps, k);
    NodeOwned(run[k], a);
    OwnedMonotone(run[k].h, run[k].nodes[a].log);
  }

  /** Any two logs of a run are related as fast back-up needs them to be. */
  lemma RunKindred(n: nat, run: seq<Cluster>, steps: seq<Step>, j: nat, k: nat, a: nat, b: nat)
    requires Run(n, run, steps) && j <= k < |run|
    requires a < |run[j].nodes| && b < |run[k].nodes|
    ensures Kindred(run[k].nodes[b].log, run[j].nodes[a].log)
  {
    RunOk(n, run, steps, j);
    RunOk(n, run, steps, k);
    NodeOwned(run[j], a);
    NodeOwned(run[k], b);
    RunRemembers(n, run, steps, j, k);
    OwnedGrows(run[j].h, run[k].h, run[j].nodes[a].log);
    OwnedKindred(run[k].h, run[k].nodes[b].log, run[j].nodes[a].log);
  }

  // ----- State machine safety -----

  /** Committed prefixes lie on one line. */
  lemma CommittedByLine(h: State, p: Log, t: nat, q: Log, u: nat)
    requires ReignsOk(h) && CompleteOk(h) && CommittedBy(h, p, t) && CommittedBy(h, q, u)
    ensures p <= q || q <= p
  {
    if p != [] && q != [] {
      var a: nat, m: nat :| Covers(h, p, t, a, m);
      var b: nat, k: nat :| Covers(h, q, u, b, k);
      CommittedLine(h, a, m, b, k);
    }
  }

  lemma CommittedAt(n: nat, run: seq<Cluster>, steps: seq<Step>, j: nat, k: nat, a: nat)
    requires Run(n, run, steps) && j <= k < |run| && a < |run[j].nodes|
    ensures IndicesOk(run[j].nodes[a])
    ensures CommittedBy(run[k].h, run[j].nodes[a].log[..run[j].nodes[a].commit], run[j].nodes[a].term)
  {
    RunOk(n, run, steps, j);
    NodeOwned(run[j], a);
    RunRemembers(n, run, steps, j, k);
    var p := run[j].nodes[a].log[..run[j].nodes[a].commit];
    CommittedByGrows(run[j].h, run[k].h, p, p, run[j].nodes[a].term, run[j].nodes[a].term);
  }

  /**
   Whatever one server holds committed up to an index at one moment, and another at any other
   moment, is the same: no two servers ever apply different entries at an index.
   */
  lemma StateMachineSafety(n: nat, run: seq<Cluster>, steps: seq<Step>, j: nat, k: nat, a: nat, b: nat, x: nat)
    requires Run(n, run, steps) && j <= k < |run|
    requires a < |run[j].nodes| && b < |run[k].nodes|
    requires x <= run[j].nodes[a].commit && x <= run[k].nodes[b].commit
    ensures x <= |run[j].nodes[a].log| && x <= |run[k].nodes[b].log|
    ensures run[j].nodes[a].log[..x] == run[k].nodes[b].log[..x]
  {
    CommittedAt(n, run, steps, j, k, a);
    CommittedAt(n, run, steps, k, k, b);
    RunOk(n, run, steps, k);
    var s, s' := run[j].nodes[a], run[k].nodes[b];
    CommittedByLine(run[k].h, s.log[..s.commit], s.term, s'.log[..s'.commit], s'.term);
    LineAgrees(s.log, s'.log, s.commit, s'.commit, x);
  }

  lemma LineAgrees(a: Log, b: Log, m: nat, k: nat, x: nat)
    requires x <= m <= |a| && x <= k <= |b| && (a[..m] <= b[..k] || b[..k] <= a[..m])
    ensures a[..x] == b[..x]
  {
    assert a[..m][..x] == a[..x] && b[..k][..x] == b[..x];
  }

  // ----- Leader completeness -----

  /** A committed prefix was in the log of every later leader from its election on. */
  lemma CommittedByInStart(h: State, p: Log, t: nat, w: nat)
    requires ReignsOk(h) && CompleteOk(h) && CommittedBy(h, p, t) && w in h.reigns && t < w
    ensures p <= h.reigns[w].start
  {
    if p != [] {
      var u: nat, m: nat :| Covers(h, p, t, u, m);
      CommittedLive(h, u, m);
      assert CompleteAt(h, u, m, w);
    }
  }

  lemma LeaderReign(n: nat, run: seq<Cluster>, steps: seq<Step>, k: nat, j: nat, b: nat)
    requires Run(n, run, steps) && k <= j < |run| && b < |run[k].nodes| && run[k].nodes[b].role.Leader?
    ensures run[k].nodes[b].term in run[j].h.reigns
    ensures run[j].h.reigns[run[k].nodes[b].term].start <= run[k].nodes[b].log
  {
    RunOk(n, run, steps, k);
    NodeOwned(run[k], b);
    RunRemembers(n, run, steps, k, j);
    var w := run[k].nodes[b].term;
    assert ReignOk(run[k].h, w) && ReignGrows(run[k].h.reigns[w], run[j].h.reigns[w]);
  }

  /**
   What any server held committed in some term is in the log of every leader from that term on, and
   of a leader of a later term even before the commit.
   */
  lemma LeaderCompleteness(n: nat, run: seq<Cluster>, steps: seq<Step>, j: nat, k: nat, a: nat, b: nat)
    requires Run(n, run, steps) && j < |run| && k < |run|
    requires a < |run[j].nodes| && b < |run[k].nodes| && run[k].nodes[b].role.Leader?
    requires run[j].nodes[a].term < run[k].nodes[b].term || (run[j].nodes[a].term == run[k].nodes[b].term && j <= k)
    ensures run[j].nodes[a].commit <= |run[j].nodes[a].log|
    ensures run[j].nodes[a].log[..run[j].nodes[a].commit] <= run[k].nodes[b].log
  {
    var s := run[j].nodes[a];
    if j <= k {
      CommittedAt(n, run, steps, j, k, a);
      RunOk(n, run, steps, k);
      NodeOwned(run[k], b);
      CommittedByInReign(run[k].h, s.log[..s.commit], s.term, run[k].nodes[b].term);
    } else {
      CommittedAt(n, run, steps, j, j, a);
      RunOk(n, run, steps, j);
      LeaderReign(n, run, steps, k, j, b);
      CommittedByInStart(run[j].h, s.log[..s.commit], s.term, run[k].nodes[b].term);
    }
  }

  /** A leader's commit index moves only to entries of its own term that a majority confirmed. */
  lemma LeaderCommitsByQuorum(h: State, i: nat, s: Node, from: nat, src: nat, a: AppendArgs, r: AppendReply, s': Node)
    requires ReignsOk(h) && AcksOk(h) && At(h, i, s) && NodeOk(h, i, s)
    requires ShipmentOk(h, src, a) && AnswerOk(h, from, src, a, r) && a.leader == i && from < |h.terms|
    requires s' == OnAppendReply(s, i, from, a, r) && s'.commit != s.commit
    ensures s'.role.Leader? && s.commit < s'.commit <= |s'.log|
    ensures s'.log[s'.commit - 1].term == s'.term && Committed(h, s'.term, s'.commit)
  {
    AnswerSource(h, i, s, src, a);
    var m := if LastSent(a) > s.matched[from] then LastSent(a) else s.matched[from];
    var s1 := s.(matched := s.matched[from := m], next := s.next[from := m + 1]);
    SuccessMatch(h, i, s, s1, from, a, m);
    SuccessShape(s, i, s', from, a, r, s1, m);
    ScannedByQuorum(h, i, s1, s');
  }

  lemma ScannedByQuorum(h: State, i: nat, s: Node, s': Node)
    requires ReignsOk(h) && At(h, i, s) && LeaderOk(h, i, s) && s.role.Leader? && s.commit <= |s.log|
    requires s' == AdvanceCommit(s, i) && s'.commit != s.commit
    ensures s.commit < s'.commit <= |s'.log|
    ensures s'.log[s'.commit - 1].term == s'.term && Committed(h, s'.term, s'.commit)
  {
    ScanCommitHighest(s, i, |s.log|);
    CommitConfirmed(h, i, s, s'.commit);
  }

  /** A leader that stays one moves its commit index only on answers. */
  lemma OnlyAnswersCommit(c: Cluster, step: Step, i: nat)
    requires Enabled(c, step) && i == Actor(step) && i < |c.nodes|
    requires NodeAfter(c, step).role.Leader? && NodeAfter(c, step).commit != c.nodes[i].commit
    ensures step.Confirm?
  {}

  /** Over a run, a leader's commit index moves only up to an entry of its own term that a majority confirmed. */
  lemma RunLeaderCommits(n: nat, run: seq<Cluster>, steps: seq<Step>, k: nat, i: nat, s: Node, s': Node)
    requires Run(n, run, steps) && k < |steps| && i < |run[k].nodes| && i < |run[k + 1].nodes|
    requires s == run[k].nodes[i] && s' == run[k + 1].nodes[i] && s'.role.Leader? && s'.commit != s.commit
    ensures s.commit < s'.commit <= |s'.log|
    ensures s'.log[s'.commit - 1].term == s'.term && Committed(run[k].h, s'.term, s'.commit)
  {
    RunStep(n, run, steps, k);
    StepActor(run[k], steps[k]);
    OnlyAnswersCommit(run[k], steps[k], i);
    var m := steps[k].m;
    LeaderCommitsByQuorum(run[k].h, i, s, m.from, m.src, m.args, m.reply, s');
  }

  // ----- Nothing committed is taken back -----

  /** The committed prefix stays in the log, whatever is truncated. */
  ghost predicate Kept(s: Node, s': Node, crash: bool) {
    && s.commit <= |s.log| && s.log[..s.commit] <= s'.log
    && s.term <= s'.term && s.snap <= s'.snap
    && (!crash ==> s.commit <= s'.commit && s.applied <= s'.applied)
  }

  lemma ReceiveKept(h: State, i: nat, s: Node, src: nat, a: AppendArgs, s': Node)
    requires ReignsOk(h) && CompleteOk(h) && LogsOk(h) && At(h, i, s) && IndicesOk(s) && CommitOk(h, s)
    requires ShipmentOk(h, src, a) && s' == OnAppend(s, a).0
    ensures Kept(s, s', false)
  {
    if OnAppend(s, a).1.success {
      AcceptShape(h, s, src, a);
      CommittedShipped(h, s, src, a);
      OverwriteKeeps(s.log, h.reigns[src].log, LastSent(a), s.log[..s.commit]);
    } else {
      RejectShape(s, s', a);
    }
  }

  lemma ConfirmKept(i: nat, s: Node, from: nat, a: AppendArgs, r: AppendReply, s': Node)
    requires IndicesOk(s) && (s.role.Leader? ==> from < |s.next| == |s.matched|)
    requires s' == OnAppendReply(s, i, from, a, r)
    ensures Kept(s, s', false)
  {
    if s.role.Leader? && s.term == a.term && r.success {
      var k := if LastSent(a) > s.matched[from] then LastSent(a) else s.matched[from];
      var s0 := if r.term > s.term then StepDown(s, r.term) else s;
      var s1 := s0.(matched := s.matched[from := k], next := s.next[from := k + 1]);
      ScanCommitHighest(s1, i, |s1.log|);
    }
  }

  lemma OtherwiseKept(c: Cluster, step: Step)
    requires Enabled(c, step) && !step.Receive? && !step.Confirm?
    requires Actor(step) < |c.nodes| && IndicesOk(c.nodes[Actor(step)])
    ensures Kept(c.nodes[Actor(step)], NodeAfter(c, step), CrashOf(step))
  {}

  lemma ActorKept(c: Cluster, step: Step, i: nat)
    requires Enabled(c, step) && i == Actor(step) && ActorOk(c, i)
    requires step.CountVote? || step.Receive? || step.Confirm? ==> MessageOk(c.h, step.m)
    ensures Kept(c.nodes[i], NodeAfter(c, step), CrashOf(step))
  {
    if step.Receive? {
      ReceiveKept(c.h, i, c.nodes[i], step.m.src, step.m.args, NodeAfter(c, step));
    } else if step.Confirm? {
      ConfirmKept(i, c.nodes[i], step.m.from, step.m.args, step.m.reply, NodeAfter(c, step));
    } else {
      OtherwiseKept(c, step);
    }
  }

  /**
   No step removes an index at or below the commit index, and only a crash, which forgets what
   was only known to be committed, moves commit or applied back.
   */
  lemma CommittedKept(c: Cluster, step: Step, i: nat)
    requires ClusterOk(c) && Enabled(c, step) && i < |c.nodes|
    ensures Kept(c.nodes[i], After(c, step).nodes[i], CrashOf(step))
  {
    if i == Actor(step) {
      StepActor(c, step);
      ActorKept(c, step, i);
    } else {
      NodeOwned(c, i);
    }
  }

  lemma AcceptKeepsPrefix(h: State, i: nat, s: Node, src: nat, a: AppendArgs, s': Node, p: Log)
    requires ReignsOk(h) && CompleteOk(h) && LogsOk(h) && At(h, i, s)
    requires ShipmentOk(h, src, a) && OnAppend(s, a).1.success && s' == OnAppend(s, a).0
    requires p <= s.log && CommittedBy(h, p, s.term)
    ensures p <= s'.log
  {
    AcceptShape(h, s, src, a);
    CommittedByInReign(h, p, s.term, src);
    OverwriteKeeps(s.log, h.reigns[src].log, LastSent(a), p);
  }

  lemma OtherwiseLonger(c: Cluster, step: Step)
    requires Enabled(c, step) && Actor(step) < |c.nodes|
    requires step.Receive? ==> !OnAppend(c.nodes[Actor(step)], step.m.args).1.success
    ensures c.nodes[Actor(step)].log <= NodeAfter(c, step).log
  {}

  /** A committed prefix stays in a log even when a crash made the server forget that it is committed. */
  lemma PrefixKept(c: Cluster, step: Step, i: nat, p: Log, s': Node)
    requires ClusterOk(c) && Enabled(c, step) && i < |c.nodes|
    requires p <= c.nodes[i].log && CommittedBy(c.h, p, c.nodes[i].term)
    requires s' == if i == Actor(step) then NodeAfter(c, step) else c.nodes[i]
    ensures p <= s'.log
  {
    if i == Actor(step) {
      StepActor(c, step);
      if step.Receive? && OnAppend(c.nodes[i], step.m.args).1.success {
        AcceptKeepsPrefix(c.h, i, c.nodes[i], step.m.src, step.m.args, s', p);
      } else {
        OtherwiseLonger(c, step);
      }
    }
  }

  lemma TermKept(c: Cluster, step: Step, i: nat)
    requires ClusterOk(c) && Enabled(c, step) && i < |c.nodes|
    ensures c.nodes[i].term <= After(c, step).nodes[i].term
  {
    CommittedKept(c, step, i);
  }

  /** What a server ever had committed is in its log ever after, through any crashes and truncations. */
  lemma {:induction false} CommittedForever(n: nat, run: seq<Cluster>, steps: seq<Step>, j: nat, k: nat, i: nat)
    requires Run(n, run, steps) && j <= k < |run| && i < |run[j].nodes| && i < |run[k].nodes|
    ensures run[j].nodes[i].commit <= |run[j].nodes[i].log|
    ensures run[j].nodes[i].log[..run[j].nodes[i].commit] <= run[k].nodes[i].log
    ensures run[j].nodes[i].term <= run[k].nodes[i].term
    decreases k
  {
    RunSize(n, run, steps, j);
    RunSize(n, run, steps, k);
    IndicesOrdered(n, run, steps, j, i);
    if j < k {
      var m: nat := k - 1;
      RunSize(n, run, steps, m);
      CommittedForever(n, run, steps, j, m, i);
      StillCommitted(n, run, steps, j, m, k, i);
    }
  }

  lemma StillCommitted(n: nat, run: seq<Cluster>, steps: seq<Step>, j: nat, m: nat, k: nat, i: nat)
    requires Run(n, run, steps) && j <= m < |steps| && k == m + 1
    requires i < |run[j].nodes| && i < |run[m].nodes| && i < |run[k].nodes|
    requires run[j].nodes[i].commit <= |run[j].nodes[i].log|
    requires run[j].nodes[i].log[..run[j].nodes[i].commit] <= run[m].nodes[i].log
    requires run[j].nodes[i].term <= run[m].nodes[i].term
    ensures run[j].nodes[i].log[..run[j].nodes[i].commit] <= run[k].nodes[i].log
    ensures run[j].nodes[i].term <= run[k].nodes[i].term
  {
    var p := run[j].nodes[i].log[..run[j].nodes[i].commit];
    CommittedAt(n, run, steps, j, m, i);
    RunStep(n, run, steps, m);
    assert CommittedBy(run[m].h, p, run[m].nodes[i].term) by {
      SelfGrows(run[m].h);
      CommittedByGrows(run[m].h, run[m].h, p, p, run[j].nodes[i].term, run[m].nodes[i].term);
    }
    PrefixKept(run[m], steps[m], i, p, run[k].nodes[i]);
    TermKept(run[m], steps[m], i);
  }

  // ----- Leader index safety -----

  /**
   In every state a leader's nextIndex and matchIndex stay within its log, so that whatever peer
   it does not have to send a snapshot to, the slice it takes and the term it looks up exist.
   */
  lemma LeaderIndexSafety(n: nat, run: seq<Cluster>, steps: seq<Step>, k: nat, i: nat, p: nat)
    requires Run(n, run, steps) && k < |run| && i < |run[k].nodes| && p < |run[k].nodes|
    requires run[k].nodes[i].role.Leader?
    ensures Sized(run[k].nodes[i], |run[k].nodes|)
    ensures 1 <= run[k].nodes[i].next[p] <= |run[k].nodes[i].log| + 1
    ensures run[k].nodes[i].matched[p] <= |run[k].nodes[i].log|
    ensures run[k].nodes[i].next[p] > run[k].nodes[i].snap ==> CanShip(run[k].nodes[i], p)
  {
    RunOk(n, run, steps, k);
    NodeOwned(run[k], i);
    assert PeerOk(run[k].h, run[k].nodes[i], p);
  }

  /** The indices of a server are always ordered, and its snapshot never outruns its log. */
  lemma IndicesOrdered(n: nat, run: seq<Cluster>, steps: seq<Step>, k: nat, i: nat)
    requires Run(n, run, steps) && k < |run| && i < |run[k].nodes|
    ensures run[k].nodes[i].snap <= run[k].nodes[i].applied <= run[k].nodes[i].commit <= |run[k].nodes[i].log|
  {
    RunOk(n, run, steps, k);
    NodeOwned(run[k], i);
  }

  // ----- Delivery -----

  /** The snapshot index server i booted from, last. */
  ghost function Boot(run: seq<Cluster>, steps: seq<Step>, i: nat, k: nat): nat
    requires k < |run| && k <= |steps| && forall j :: 0 <= j < |run| ==> i < |run[j].nodes|
  {
    if k == 0 then 0
    else if CrashOf(steps[k - 1]) && Actor(steps[k - 1]) == i then run[k].nodes[i].snap
    else Boot(run, steps, i, k - 1)
  }

  /** What server i's apply loop sent up since it last booted: (index, entry), in order. */
  ghost function Outbox(run: seq<Cluster>, steps: seq<Step>, i: nat, k: nat): seq<(nat, Entry)>
    requires k < |run| && k <= |steps| && forall j :: 0 <= j < |run| ==> i < |run[j].nodes|
  {
    if k == 0 then []
    else if CrashOf(steps[k - 1]) && Actor(steps[k - 1]) == i then []
    else
      var s := run[k - 1].nodes[i];
      if steps[k - 1] == Deliver(i) && s.snap <= s.applied < |s.log|
      then Outbox(run, steps, i, k - 1) + [(s.applied + 1, s.log[s.applied])]
      else Outbox(run, steps, i, k - 1)
  }

  /** Box is what server s was sent up from index boot + 1 to its applied index. */
  ghost predicate InOrder(box: seq<(nat, Entry)>, boot: nat, s: Node) {
    && boot + |box| == s.applied <= s.commit <= |s.log|
    && forall d: nat :: d < |box| ==> box[d] == (boot + 1 + d, s.log[boot + d])
  }

  lemma InOrderKept(box: seq<(nat, Entry)>, boot: nat, s: Node, s': Node)
    requires InOrder(box, boot, s) && Kept(s, s', false) && IndicesOk(s') && s'.applied == s.applied
    ensures InOrder(box, boot, s')
  {
    forall d: nat | d < |box|
      ensures box[d] == (boot + 1 + d, s'.log[boot + d])
    {
      assert s.log[..s.commit][boot + d] == s'.log[boot + d];
    }
  }

  /** Only delivery and crashes move a server's applied index. */
  lemma AppliedMoves(c: Cluster, step: Step, s': Node)
    requires Enabled(c, step) && Actor(step) < |c.nodes| && s' == NodeAfter(c, step)
    ensures CrashOf(step) ==> s'.applied == s'.snap
    ensures !CrashOf(step) && !step.Deliver? ==> s'.applied == c.nodes[Actor(step)].applied
  {}

  /**
   The apply loop delivers consecutive indices from the boot-time snapshot on, each once and
   each with the committed entry at that index, however the other handlers interleave.
   */
  lemma {:induction false} DeliveryInOrder(n: nat, run: seq<Cluster>, steps: seq<Step>, i: nat, k: nat)
    requires Run(n, run, steps) && k < |run| && forall j :: 0 <= j < |run| ==> i < |run[j].nodes|
    ensures InOrder(Outbox(run, steps, i, k), Boot(run, steps, i, k), run[k].nodes[i])
  {
    IndicesOrdered(n, run, steps, k, i);
    if k > 0 {
      DeliveryInOrder(n, run, steps, i, k - 1);
      RunStep(n, run, steps, k - 1);
      IndicesOrdered(n, run, steps, k - 1, i);
      CommittedKept(run[k - 1], steps[k - 1], i);
      DeliveryStep(run, steps, i, k);
    }
  }

  lemma DeliveryStep(run: seq<Cluster>, steps: seq<Step>, i: nat, k: nat)
    requires 0 < k < |run| && k <= |steps| && forall j :: 0 <= j < |run| ==> i < |run[j].nodes|
    requires Enabled(run[k - 1], steps[k - 1]) && run[k] == After(run[k - 1], steps[k - 1])
    requires IndicesOk(run[k - 1].nodes[i]) && IndicesOk(run[k].nodes[i])
    requires Kept(run[k - 1].nodes[i], run[k].nodes[i], CrashOf(steps[k - 1]))
    requires InOrder(Outbox(run, steps, i, k - 1), Boot(run, steps, i, k - 1), run[k - 1].nodes[i])
    ensures InOrder(Outbox(run, steps, i, k), Boot(run, steps, i, k), run[k].nodes[i])
  {
    var c, step := run[k - 1], steps[k - 1];
    var box, boot := Outbox(run, steps, i, k - 1), Boot(run, steps, i, k - 1);
    if Actor(step) == i {
      AppliedMoves(c, step, run[k].nodes[i]);
    }
    if step == Deliver(i) {
      DeliverInOrder(box, boot, c.nodes[i], run[k].nodes[i]);
    } else if !(CrashOf(step) && Actor(step) == i) {
      InOrderKept(box, boot, c.nodes[i], run[k].nodes[i]);
    }
  }

  lemma DeliverInOrder(box: seq<(nat, Entry)>, boot: nat, s: Node, s': Node)
    requires InOrder(box, boot, s) && IndicesOk(s) && s.applied < s.commit && s' == OnDeliver(s)
    ensures InOrder(box + [(s.applied + 1, s.log[s.applied])], boot, s')
  {}
}
