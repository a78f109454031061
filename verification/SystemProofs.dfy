/**
 What the service as a whole guarantees in every run: replicas agree, recovery amounts to replay,
 and submitters are told the truth.
 */
module SystemProofs {
  import opened Commands
  import opened RaftTypes
  import opened RaftNode
  import opened History
  import opened HistoryProofs
  import opened ClusterInv
  import opened ClusterConfirm
  import opened ClusterShipping
  import opened Safety
  import opened Replicas
  import opened System

  // ----- Sites -----

  ghost predicate QueueOk(node: Node, site: Site) {
    && site.upto + |site.queue| == node.applied <= node.commit <= |node.log|
    && forall d: nat :: d < |site.queue| ==> site.queue[d] == (site.upto + 1 + d, node.log[site.upto + d].command)
  }

  ghost predicate TaskOk(node: Node, site: Site, task: (nat, StoreState)) {
    task.0 <= site.upto <= |node.log| && task.1 == Fold(node.log[..task.0])
  }

  ghost predicate DiskOk(node: Node, site: Site) {
    && node.snap <= site.upto <= |node.log|
    && if site.disk.None? then node.snap == 0 else site.disk.value == Fold(node.log[..node.snap])
  }

  /** A store is the fold of what it has processed, and so are its snapshots, on their way and saved. */
  ghost predicate SiteOk(node: Node, site: Site) {
    && QueueOk(node, site) && DiskOk(node, site)
    && site.replica.state == Fold(node.log[..site.upto])
    && forall task :: task in site.tasks ==> TaskOk(node, site, task)
  }

  ghost predicate SitesOk(s: System) {
    |s.sites| == |s.c.nodes| && forall i: nat :: i < |s.sites| ==> SiteOk(s.c.nodes[i], s.sites[i])
  }

  /** Nothing a site depends on is above the commit index, so truncation cannot hurt it. */
  lemma SiteKept(node: Node, node': Node, site: Site)
    requires SiteOk(node, site) && Kept(node, node', false) && IndicesOk(node')
    requires node'.applied == node.applied && node'.snap == node.snap
    ensures SiteOk(node', site)
  {
    var a, b, k := node.log, node'.log, node.commit;
    assert a[..k] <= b;
    forall m: nat | m <= node.applied
      ensures Fold(a[..m]) == Fold(b[..m]) && (m < k ==> a[m] == b[m])
    {
      FoldPrefix(a, b, m, k);
    }
    forall task | task in site.tasks
      ensures TaskOk(node', site, task)
    {
      assert TaskOk(node, site, task);
    }
  }

  lemma RestartedOk(node: Node, node': Node, site: Site)
    requires SiteOk(node, site) && Kept(node, node', true) && IndicesOk(node')
    requires node'.applied == node'.snap == node.snap
    ensures SiteOk(node', Restarted(site.disk, node.snap))
  {
    FoldPrefix(node.log, node'.log, node.snap, node.commit);
  }

  lemma DeliveredOk(node: Node, node': Node, site: Site, site': Site)
    requires SiteOk(node, site) && IndicesOk(node) && node.applied < node.commit && node' == OnDeliver(node)
    requires site' == site.(queue := site.queue + [(node.applied + 1, node.log[node.applied].command)])
    ensures SiteOk(node', site')
  {
    forall task | task in site'.tasks
      ensures TaskOk(node', site', task)
    {
      assert TaskOk(node, site, task);
    }
  }

  lemma ApplyOk(node: Node, site: Site)
    requires SiteOk(node, site) && site.queue != []
    ensures SiteOk(node, ApplySite(site))
  {
    var index, command := site.queue[0].0, site.queue[0].1;
    var site' := ApplySite(site);
    assert site.queue[0] == (site.upto + 1, node.log[site.upto].command);
    assert node.log[..index] == node.log[..site.upto] + [node.log[site.upto]];
    FoldStep(node.log[..site.upto], node.log[site.upto]);
    forall d: nat | d < |site'.queue|
      ensures site'.queue[d] == (site'.upto + 1 + d, node.log[site'.upto + d].command)
    {
      assert site'.queue[d] == site.queue[d + 1];
    }
    forall task | task in site'.tasks
      ensures TaskOk(node, site', task)
    {
      assert task in site.tasks ==> TaskOk(node, site, task);
    }
  }

  lemma SaveOk(node: Node, site: Site, task: (nat, StoreState))
    requires SiteOk(node, site) && task in site.tasks
    ensures SiteOk(OnSnapshot(node, task.0), SaveSite(site, node, task))
  {
    var node', site' := OnSnapshot(node, task.0), SaveSite(site, node, task);
    assert TaskOk(node, site, task);
    forall t | t in site'.tasks
      ensures TaskOk(node', site', t)
    {
      assert TaskOk(node, site, t);
    }
  }

  /** What the store above relies on about a Raft step of its server. */
  ghost predicate Moved(node: Node, node': Node, r: C.Step) {
    && Kept(node, node', C.CrashOf(r)) && IndicesOk(node) && IndicesOk(node')
    && (C.CrashOf(r) ==> node'.applied == node'.snap == node.snap)
    && (r.Deliver? ==> node.applied < node.commit && node' == OnDeliver(node))
    && (!C.CrashOf(r) && !r.Deliver? && !r.Compact? ==> node'.applied == node.applied && node'.snap == node.snap)
  }

  /** Only compaction moves the snapshot index. */
  lemma SnapMoves(c: C.Cluster, r: C.Step)
    requires C.Enabled(c, r) && C.Actor(r) < |c.nodes| && IndicesOk(c.nodes[C.Actor(r)])
    ensures !r.Compact? ==> C.NodeAfter(c, r).snap == c.nodes[C.Actor(r)].snap
    ensures r.Deliver? ==> c.nodes[C.Actor(r)].applied < c.nodes[C.Actor(r)].commit
    ensures r.Deliver? ==> C.NodeAfter(c, r) == OnDeliver(c.nodes[C.Actor(r)])
  {}

  lemma ActorMoved(c: C.Cluster, r: C.Step, i: nat, node': Node)
    requires C.Enabled(c, r) && i == C.Actor(r) && i < |c.nodes| && node' == C.NodeAfter(c, r)
    requires IndicesOk(c.nodes[i]) && IndicesOk(node') && Kept(c.nodes[i], node', C.CrashOf(r))
    ensures Moved(c.nodes[i], node', r)
  {
    AppliedMoves(c, r, node');
    SnapMoves(c, r);
  }

  /** A Raft step and what it does to the store above it keep the site in order. */
  lemma RaftSiteOk(node: Node, node': Node, r: C.Step, site: Site)
    requires Moved(node, node', r) && SiteOk(node, site) && !r.Compact?
    ensures SiteOk(node', SiteAfter(site, node, r))
  {
    if C.CrashOf(r) {
      RestartedOk(node, node', site);
    } else if r.Deliver? {
      DeliveredOk(node, node', site, SiteAfter(site, node, r));
    } else {
      SiteKept(node, node', site);
    }
  }

  // ----- Where commands come from -----

  predicate Carries(e: Entry, reqId: string) {
    e.command.Some? && e.command.value.reqId == reqId
  }

  ghost predicate EntryBorn(h: State, born: map<string, Birth>, t: nat, n: nat) {
    OwnEntry(h, t, n) ==>
      var command := h.reigns[t].log[n - 1].command;
      && command.Some? && command.value.reqId in born
      && born[command.value.reqId].term == t && born[command.value.reqId].index == n
  }

  /** Every entry a leader created carries an accepted request, put at that index in that term. */
  ghost predicate BornOk(h: State, born: map<string, Birth>) {
    forall t: nat, n: nat :: EntryBorn(h, born, t, n)
  }

  ghost predicate SameOwn(h: State, h': State) {
    forall t: nat, n: nat :: OwnEntry(h', t, n) ==> OwnEntry(h, t, n) && h'.reigns[t].log[n - 1] == h.reigns[t].log[n - 1]
  }

  /** Reigns change only by elections, which add one without an entry of its own, and by submissions. */
  lemma ReignsAfter(c: C.Cluster, r: C.Step, h': State, t: nat)
    requires C.Enabled(c, r) && !r.Submit? && h' == C.HistoryAfter(c, r) && t in h'.reigns
    ensures (t in c.h.reigns && h'.reigns[t] == c.h.reigns[t]) || h'.reigns[t].start == h'.reigns[t].log
  {}

  /** Only a submission to a leader creates an entry. */
  lemma OnlySubmitCreates(c: C.Cluster, r: C.Step, h': State)
    requires C.Enabled(c, r) && !r.Submit? && h' == C.HistoryAfter(c, r) && ReignsOk(h')
    ensures SameOwn(c.h, h')
  {
    forall t: nat, n: nat | OwnEntry(h', t, n)
      ensures OwnEntry(c.h, t, n) && h'.reigns[t].log[n - 1] == c.h.reigns[t].log[n - 1]
    {
      assert ReignOk(h', t);
      ReignsAfter(c, r, h', t);
    }
  }

  /** What the layer above may use about a step of the cluster. */
  ghost predicate ClusterMoved(c: C.Cluster, c': C.Cluster, r: C.Step, i: nat) {
    && ClusterOk(c') && Remembers(c.h, c'.h) && i < |c.nodes| == |c'.nodes|
    && c'.nodes == c.nodes[i := c'.nodes[i]] && Moved(c.nodes[i], c'.nodes[i], r)
    && (!r.Submit? ==> SameOwn(c.h, c'.h))
  }

  lemma StepMoves(c: C.Cluster, r: C.Step, i: nat)
    requires ClusterOk(c) && C.Enabled(c, r) && i == C.Actor(r) && i < |c.nodes|
    ensures ClusterMoved(c, C.After(c, r), r, i)
  {
    var c' := C.After(c, r);
    StepKeeps(c, r);
    LegalRemembers(c, c');
    CommittedKept(c, r, i);
    NodeOwned(c, i);
    NodeOwned(c', i);
    ActorMoved(c, r, i, c'.nodes[i]);
    if !r.Submit? {
      OnlySubmitCreates(c, r, c'.h);
    }
  }

  lemma BornKept(h: State, h': State, born: map<string, Birth>)
    requires BornOk(h, born) && SameOwn(h, h')
    ensures BornOk(h', born)
  {
    forall t: nat, n: nat
      ensures EntryBorn(h', born, t, n)
    {
      assert EntryBorn(h, born, t, n);
    }
  }

  lemma SubmitExtends(c: C.Cluster, i: nat, cmd: Command, node: Node, h': State)
    requires ClusterOk(c) && i < |c.nodes| && node == c.nodes[i] && h' == C.HistoryAfter(c, C.Submit(i, cmd))
    ensures if node.role.Leader?
            then node.term in c.h.reigns && c.h.reigns[node.term].log == node.log
              && c.h.reigns[node.term].leader < |c.h.logs|
              && h' == Extend(c.h, node.term, Entry(node.term, Some(cmd)))
            else h'.reigns == c.h.reigns
  {
    NodeOwned(c, i);
    var e := Entry(node.term, Some(cmd));
    if node.role.Leader? {
      SubmitNode(c.h, i, node, cmd);
    }
    SubmittedAfter(c, i, node, cmd, e);
    assert h' == C.After(c, C.Submit(i, cmd)).h;
  }

  lemma ExtendBorn(h: State, h': State, t: nat, e: Entry, born: map<string, Birth>, born': map<string, Birth>, i: nat)
    requires BornOk(h, born) && t in h.reigns && h.reigns[t].leader < |h.logs| && h' == Extend(h, t, e)
    requires e.command.Some? && e.command.value.reqId !in born
    requires born' == born[e.command.value.reqId := Birth(i, t, |h.reigns[t].log| + 1)]
    ensures BornOk(h', born')
  {
    forall u: nat, n: nat
      ensures EntryBorn(h', born', u, n)
    {
      assert EntryBorn(h, born, u, n);
    }
  }

  lemma SubmitBorn(c: C.Cluster, i: nat, cmd: Command, node: Node, h': State, born: map<string, Birth>,
                   born': map<string, Birth>)
    requires ClusterOk(c) && i < |c.nodes| && node == c.nodes[i] && h' == C.HistoryAfter(c, C.Submit(i, cmd))
    requires BornOk(c.h, born) && cmd.reqId !in born
    requires born' == if node.role.Leader? then born[cmd.reqId := Birth(i, node.term, |node.log| + 1)] else born
    ensures BornOk(h', born')
  {
    SubmitExtends(c, i, cmd, node, h');
    ExtensionBorn(c.h, i, cmd, node, h', born, born');
  }

  lemma ExtensionBorn(h: State, i: nat, cmd: Command, node: Node, h': State, born: map<string, Birth>,
                      born': map<string, Birth>)
    requires if node.role.Leader?
             then node.term in h.reigns && h.reigns[node.term].log == node.log
               && h.reigns[node.term].leader < |h.logs|
               && h' == Extend(h, node.term, Entry(node.term, Some(cmd)))
             else h'.reigns == h.reigns
    requires BornOk(h, born) && cmd.reqId !in born
    requires born' == if node.role.Leader? then born[cmd.reqId := Birth(i, node.term, |node.log| + 1)] else born
    ensures BornOk(h', born')
  {
    if node.role.Leader? {
      ExtendBorn(h, h', node.term, Entry(node.term, Some(cmd)), born, born', i);
    } else {
      BornKept(h, h', born);
    }
  }

  /** In every log, a command stands only where it was born. */
  lemma CarriedWhereBorn(h: State, log: Log, born: map<string, Birth>, reqId: string, n: nat)
    requires ReignsOk(h) && Owned(h, log) && BornOk(h, born) && 1 <= n <= |log| && Carries(log[n - 1], reqId)
    ensures reqId in born && born[reqId].index == n
  {
    var t := log[n - 1].term;
    assert OwnedAt(h, log, n - 1);
    assert log[..n][n - 1] == log[n - 1];
    assert OwnEntry(h, t, n) && EntryBorn(h, born, t, n);
  }

  // ----- What submitters are told -----

  /** Committed through index m of reign u, and index n does, or does not, carry the request. */
  ghost predicate FixedBy(h: State, n: nat, reqId: string, carries: bool, u: nat, m: nat) {
    Committed(h, u, m) && 1 <= n <= m && Carries(h.reigns[u].log[n - 1], reqId) == carries
  }

  /** It is settled for good whether index n carries the request. */
  ghost predicate Fixed(h: State, n: nat, reqId: string, carries: bool) {
    exists u: nat, m: nat :: FixedBy(h, n, reqId, carries, u, m)
  }

  lemma FixedGrows(h: State, h': State, n: nat, reqId: string, carries: bool)
    requires Remembers(h, h') && Fixed(h, n, reqId, carries)
    ensures Fixed(h', n, reqId, carries)
  {
    var u: nat, m: nat :| FixedBy(h, n, reqId, carries, u, m);
    CommittedGrows(h, h', u, m);
    assert ReignGrows(h.reigns[u], h'.reigns[u]);
    assert FixedBy(h', n, reqId, carries, u, m);
  }

  ghost predicate AnswerTrue(h: State, born: map<string, Birth>, reqId: string, outcome: Outcome) {
    match outcome
    case Success => reqId in born && Fixed(h, born[reqId].index, reqId, true)
    case ErrNotLeader => reqId in born ==> Fixed(h, born[reqId].index, reqId, false)
  }

  ghost predicate AnswersOk(h: State, born: map<string, Birth>, answers: map<string, Outcome>) {
    forall reqId :: reqId in answers ==> AnswerTrue(h, born, reqId, answers[reqId])
  }

  lemma AnswersKept(h: State, h': State, born: map<string, Birth>, born': map<string, Birth>, answers: map<string, Outcome>)
    requires Remembers(h, h') && AnswersOk(h, born, answers)
    requires forall r :: r in answers ==> (r in born <==> r in born') && (r in born ==> born'[r] == born[r])
    ensures AnswersOk(h', born', answers)
  {
    forall reqId | reqId in answers
      ensures AnswerTrue(h', born', reqId, answers[reqId])
    {
      assert AnswerTrue(h, born, reqId, answers[reqId]);
      if reqId in born {
        var carries := answers[reqId].Success?;
        FixedGrows(h, h', born[reqId].index, reqId, carries);
      }
    }
  }

  /** Who waits at an index was put there by this server, and has not been told anything. */
  ghost predicate WaitsOk(site: Site, i: nat, born: map<string, Birth>, answers: map<string, Outcome>) {
    forall n :: n in site.replica.pending ==>
      var r := site.replica.pending[n];
      r in born && born[r].server == i && born[r].index == n && r !in answers
  }

  ghost predicate WaitersOk(s: System) {
    forall i: nat :: i < |s.sites| ==> WaitsOk(s.sites[i], i, s.born, s.answers)
  }

  /** What is committed at a server settles what that index carries. */
  lemma CommitFixes(h: State, node: Node, n: nat, reqId: string)
    requires IndicesOk(node) && CommitOk(h, node) && 1 <= n <= node.commit
    ensures Fixed(h, n, reqId, Carries(node.log[n - 1], reqId))
  {
    var p := node.log[..node.commit];
    var u: nat, m: nat :| Covers(h, p, node.term, u, m);
    assert p[n - 1] == h.reigns[u].log[..m][n - 1];
    assert FixedBy(h, n, reqId, Carries(node.log[n - 1], reqId), u, m);
  }

  /** A committed index cannot be settled both ways. */
  lemma FixedOnce(h: State, node: Node, n: nat, reqId: string, carries: bool)
    requires ReignsOk(h) && CompleteOk(h) && IndicesOk(node) && CommitOk(h, node) && 1 <= n <= node.commit
    requires Fixed(h, n, reqId, carries)
    ensures Carries(node.log[n - 1], reqId) == carries
  {
    var u: nat, m: nat :| FixedBy(h, n, reqId, carries, u, m);
    CommitFixes(h, node, n, reqId);
    var w: nat, k: nat :| FixedBy(h, n, reqId, Carries(node.log[n - 1], reqId), w, k);
    CommittedLine(h, u, m, w, k);
    var a, b := h.reigns[u].log, h.reigns[w].log;
    assert a[..m][n - 1] == a[n - 1] && b[..k][n - 1] == b[n - 1];
  }

  // ----- The invariant -----

  ghost predicate SystemOk(s: System) {
    && ClusterOk(s.c) && SitesOk(s) && BornOk(s.c.h, s.born) && WaitersOk(s)
    && AnswersOk(s.c.h, s.born, s.answers)
  }

  lemma SelfRemembers(h: State)
    ensures Remembers(h, h)
  {}

  /** One site changed, and everything told or born since is accounted for. */
  lemma SiteFrame(s: System, s': System, i: nat)
    requires SystemOk(s) && i < |s.sites| && |s'.c.nodes| == |s.c.nodes| && i < |s'.sites|
    requires s'.c.nodes == s.c.nodes[i := s'.c.nodes[i]] && s'.sites == s.sites[i := s'.sites[i]]
    requires ClusterOk(s'.c) && SiteOk(s'.c.nodes[i], s'.sites[i])
    requires BornOk(s'.c.h, s'.born) && AnswersOk(s'.c.h, s'.born, s'.answers)
    requires forall j: nat :: j < |s'.sites| ==> WaitsOk(s'.sites[j], j, s'.born, s'.answers)
    ensures SystemOk(s')
  {
    forall j: nat | j < |s'.sites|
      ensures SiteOk(s'.c.nodes[j], s'.sites[j])
    {
      assert SiteOk(s.c.nodes[j], s.sites[j]);
    }
  }

  /** One site changed by what its store did. */
  lemma StoreFrame(s: System, s': System, i: nat, site': Site)
    requires ClusterOk(s.c) && SitesOk(s) && BornOk(s.c.h, s.born) && i < |s.sites|
    requires s'.c == s.c && s'.born == s.born && s'.sites == s.sites[i := site'] && SiteOk(s.c.nodes[i], site')
    requires AnswersOk(s'.c.h, s'.born, s'.answers) && WaitersOk(s')
    ensures SystemOk(s')
  {
    forall j: nat | j < |s'.sites|
      ensures SiteOk(s'.c.nodes[j], s'.sites[j])
    {
      assert SiteOk(s.c.nodes[j], s.sites[j]);
    }
  }

  /** A step of the cluster below that no submission or answer comes with. */
  lemma QuietKeeps(s: System, s': System, r: C.Step, i: nat, site': Site)
    requires SystemOk(s) && i < |s.sites| && ClusterMoved(s.c, s'.c, r, i) && !r.Submit?
    requires s' == s.(c := s'.c, sites := s.sites[i := site'])
    requires SiteOk(s'.c.nodes[i], site') && site'.replica.pending.Items <= s.sites[i].replica.pending.Items
    ensures SystemOk(s')
  {
    BornKept(s.c.h, s'.c.h, s.born);
    AnswersKept(s.c.h, s'.c.h, s.born, s.born, s.answers);
    FewerWait(s, i, site');
    SiteFrame(s, s', i);
  }

  lemma FewerWait(s: System, i: nat, site': Site)
    requires WaitersOk(s) && i < |s.sites| && site'.replica.pending.Items <= s.sites[i].replica.pending.Items
    ensures WaitersOk(s.(sites := s.sites[i := site']))
  {
    var pending, pending' := s.sites[i].replica.pending, site'.replica.pending;
    assert WaitsOk(s.sites[i], i, s.born, s.answers);
    forall n | n in pending'
      ensures n in pending && pending[n] == pending'[n]
    {
      assert (n, pending'[n]) in pending'.Items;
    }
    forall j: nat | j < |s.sites| && j != i
      ensures WaitsOk(s.sites[j], j, s.born, s.answers)
    {}
  }

  lemma SiteAfterWaits(site: Site, node: Node, r: C.Step)
    ensures SiteAfter(site, node, r).replica.pending.Items <= site.replica.pending.Items
  {}

  lemma RaftKeeps(s: System, r: C.Step, i: nat, s': System)
    requires SystemOk(s) && Enabled(s, Raft(r)) && i == C.Actor(r) && ClusterMoved(s.c, s'.c, r, i)
    requires s' == s.(c := s'.c, sites := s.sites[i := SiteAfter(s.sites[i], s.c.nodes[i], r)])
    ensures SystemOk(s')
  {
    assert SiteOk(s.c.nodes[i], s.sites[i]);
    RaftSiteOk(s.c.nodes[i], s'.c.nodes[i], r, s.sites[i]);
    SiteAfterWaits(s.sites[i], s.c.nodes[i], r);
    QuietKeeps(s, s', r, i, SiteAfter(s.sites[i], s.c.nodes[i], r));
  }

  // ----- Submitting -----

  lemma SubmitSiteOk(node: Node, site: Site, cmd: Command)
    requires SiteOk(node, site) && IndicesOk(node)
    ensures SiteOk(OnStart(node, cmd), SubmitSite(site, node, cmd))
  {
    var node', site' := OnStart(node, cmd), SubmitSite(site, node, cmd);
    assert node'.log[..node.commit] == node.log[..node.commit];
    SiteKept(node, node', site);
    SameStoreOk(node', site, site');
  }

  /** How a submission changes the records of what was accepted and told. */
  ghost predicate Submitted(s: System, s': System, i: nat, cmd: Command)
    requires i < |s.c.nodes| && i < |s.sites|
  {
    var node := s.c.nodes[i];
    && s'.sites == s.sites[i := SubmitSite(s.sites[i], node, cmd)]
    && s'.born == (if node.role.Leader? then s.born[cmd.reqId := Birth(i, node.term, |node.log| + 1)] else s.born)
    && s'.answers == (if node.role.Leader? then s.answers else s.answers[cmd.reqId := ErrNotLeader])
  }

  lemma SubmitWaits(s: System, s': System, i: nat, cmd: Command, j: nat)
    requires WaitersOk(s) && i < |s.c.nodes| && i < |s.sites| && j < |s.sites| && Submitted(s, s', i, cmd)
    requires cmd.reqId !in s.born && cmd.reqId !in s.answers
    ensures WaitsOk(s'.sites[j], j, s'.born, s'.answers)
  {
    assert WaitsOk(s.sites[j], j, s.born, s.answers);
  }

  lemma SubmitAnswers(s: System, s': System, i: nat, cmd: Command)
    requires i < |s.c.nodes| && i < |s.sites| && Submitted(s, s', i, cmd) && Remembers(s.c.h, s'.c.h)
    requires AnswersOk(s.c.h, s.born, s.answers) && cmd.reqId !in s.born && cmd.reqId !in s.answers
    ensures AnswersOk(s'.c.h, s'.born, s'.answers)
  {
    AnswersKept(s.c.h, s'.c.h, s.born, s'.born, s.answers);
  }

  lemma SubmitKeeps(s: System, i: nat, cmd: Command, s': System)
    requires SystemOk(s) && Enabled(s, Submit(i, cmd)) && ClusterMoved(s.c, s'.c, C.Submit(i, cmd), i)
    requires Submitted(s, s', i, cmd) && BornOk(s'.c.h, s'.born) && s'.c.nodes[i] == OnStart(s.c.nodes[i], cmd)
    ensures SystemOk(s')
  {
    assert SiteOk(s.c.nodes[i], s.sites[i]);
    SubmitSiteOk(s.c.nodes[i], s.sites[i], cmd);
    SubmitAnswers(s, s', i, cmd);
    forall j: nat | j < |s'.sites|
      ensures WaitsOk(s'.sites[j], j, s'.born, s'.answers)
    {
      SubmitWaits(s, s', i, cmd, j);
    }
    SiteFrame(s, s', i);
  }

  // ----- Applying -----

  lemma ToldShape(node: Node, site: Site, n: nat)
    requires SiteOk(node, site) && IndicesOk(node) && site.queue != [] && n == site.queue[0].0
    ensures 1 <= n <= node.commit && site.queue[0].1 == node.log[n - 1].command
  {
    assert site.queue[0] == (site.upto + 1, node.log[site.upto].command);
  }

  /** A waiter is told the truth, and it has not been told anything before. */
  lemma ToldTruth(s: System, i: nat, reqId: string, outcome: Outcome)
    requires SystemOk(s) && i < |s.sites| && s.sites[i].queue != [] && Told(s.sites[i]) == Some((reqId, outcome))
    ensures reqId !in s.answers && AnswerTrue(s.c.h, s.born, reqId, outcome)
  {
    var node, site := s.c.nodes[i], s.sites[i];
    assert SiteOk(node, site) && WaitsOk(site, i, s.born, s.answers);
    var n := site.queue[0].0;
    NodeOwned(s.c, i);
    ToldShape(node, site, n);
    CommitFixes(s.c.h, node, n, reqId);
  }

  ghost predicate Applied(s: System, s': System, i: nat)
    requires i < |s.sites| && s.sites[i].queue != []
  {
    var told := Told(s.sites[i]);
    && s'.c == s.c && s'.born == s.born && s'.sites == s.sites[i := ApplySite(s.sites[i])]
    && s'.answers == if told.Some? then s.answers[told.value.0 := told.value.1] else s.answers
  }

  /** Whoever is told something no longer waits, anywhere. */
  lemma ApplyWaits(s: System, s': System, i: nat, j: nat)
    requires WaitersOk(s) && i < |s.sites| && s.sites[i].queue != [] && Applied(s, s', i) && j < |s.sites|
    ensures WaitsOk(s'.sites[j], j, s'.born, s'.answers)
  {
    assert WaitsOk(s.sites[j], j, s.born, s.answers) && WaitsOk(s.sites[i], i, s.born, s.answers);
  }

  lemma ApplyAnswers(s: System, s': System, i: nat)
    requires SystemOk(s) && i < |s.sites| && s.sites[i].queue != [] && Applied(s, s', i)
    ensures AnswersOk(s'.c.h, s'.born, s'.answers)
  {
    var told := Told(s.sites[i]);
    if told.Some? {
      ToldTruth(s, i, told.value.0, told.value.1);
    }
  }

  lemma ApplyKeeps(s: System, i: nat, s': System)
    requires SystemOk(s) && i < |s.sites| && s.sites[i].queue != [] && Applied(s, s', i)
    ensures SystemOk(s')
  {
    assert SiteOk(s.c.nodes[i], s.sites[i]);
    ApplyOk(s.c.nodes[i], s.sites[i]);
    ApplyAnswers(s, s', i);
    forall j: nat | j < |s'.sites|
      ensures WaitsOk(s'.sites[j], j, s'.born, s'.answers)
    {
      ApplyWaits(s, s', i, j);
    }
    StoreFrame(s, s', i, ApplySite(s.sites[i]));
  }

  // ----- Snapshots and timeouts -----

  /** A snapshot task that reaches Raft is about a prefix Raft has delivered. */
  lemma SnapshotNeverAhead(s: System, i: nat, task: (nat, StoreState))
    requires SystemOk(s) && Enabled(s, SaveSnapshot(i, task))
    ensures C.Enabled(s.c, C.Compact(i, task.0))
    ensures task.0 <= s.sites[i].upto <= s.c.nodes[i].applied <= |s.c.nodes[i].log|
    ensures task.1 == Fold(s.c.nodes[i].log[..task.0])
  {
    assert SiteOk(s.c.nodes[i], s.sites[i]);
    assert TaskOk(s.c.nodes[i], s.sites[i], task);
  }

  lemma SaveKeeps(s: System, i: nat, task: (nat, StoreState), s': System)
    requires SystemOk(s) && i < |s.sites| && task in s.sites[i].tasks
    requires ClusterMoved(s.c, s'.c, C.Compact(i, task.0), i) && s'.c.nodes[i] == OnSnapshot(s.c.nodes[i], task.0)
    requires s' == s.(c := s'.c, sites := s.sites[i := SaveSite(s.sites[i], s.c.nodes[i], task)])
    ensures SystemOk(s')
  {
    assert SiteOk(s.c.nodes[i], s.sites[i]);
    SaveOk(s.c.nodes[i], s.sites[i], task);
    QuietKeeps(s, s', C.Compact(i, task.0), i, SaveSite(s.sites[i], s.c.nodes[i], task));
  }

  lemma SameStoreOk(node: Node, site: Site, site': Site)
    requires SiteOk(node, site) && site' == site.(replica := site.replica.(pending := site'.replica.pending))
    ensures SiteOk(node, site')
  {
    forall task | task in site'.tasks
      ensures TaskOk(node, site', task)
    {
      assert TaskOk(node, site, task);
    }
  }

  lemma GiveUpKeeps(s: System, i: nat, site': Site, s': System)
    requires SystemOk(s) && i < |s.sites| && s' == s.(sites := s.sites[i := site'])
    requires site' == s.sites[i].(replica := s.sites[i].replica.(pending := site'.replica.pending))
    requires site'.replica.pending.Items <= s.sites[i].replica.pending.Items
    ensures SystemOk(s')
  {
    assert SiteOk(s.c.nodes[i], s.sites[i]);
    SameStoreOk(s.c.nodes[i], s.sites[i], site');
    FewerWait(s, i, site');
    StoreFrame(s, s', i, site');
  }

  // ----- Every step, every run -----

  lemma RaftStep(s: System, r: C.Step, s': System)
    requires SystemOk(s) && Enabled(s, Raft(r)) && s' == After(s, Raft(r))
    ensures SystemOk(s') && Remembers(s.c.h, s'.c.h)
  {
    StepMoves(s.c, r, C.Actor(r));
    RaftKeeps(s, r, C.Actor(r), s');
  }

  lemma SubmitShape(s: System, i: nat, cmd: Command, s': System)
    requires Enabled(s, Submit(i, cmd)) && s' == After(s, Submit(i, cmd))
    ensures Submitted(s, s', i, cmd) && s'.c == C.After(s.c, C.Submit(i, cmd))
  {}

  lemma SubmitCluster(c: C.Cluster, i: nat, cmd: Command, c': C.Cluster)
    requires ClusterOk(c) && i < |c.nodes| && c' == C.After(c, C.Submit(i, cmd))
    ensures ClusterMoved(c, c', C.Submit(i, cmd), i)
    ensures c'.h == C.HistoryAfter(c, C.Submit(i, cmd)) && c'.nodes[i] == OnStart(c.nodes[i], cmd)
  {
    StepMoves(c, C.Submit(i, cmd), i);
  }

  lemma SubmittedBorn(s: System, i: nat, cmd: Command, s': System)
    requires ClusterOk(s.c) && BornOk(s.c.h, s.born) && i < |s.c.nodes| && i < |s.sites| && cmd.reqId !in s.born
    requires Submitted(s, s', i, cmd) && s'.c.h == C.HistoryAfter(s.c, C.Submit(i, cmd))
    ensures BornOk(s'.c.h, s'.born)
  {
    SubmitBorn(s.c, i, cmd, s.c.nodes[i], s'.c.h, s.born, s'.born);
  }

  lemma SubmitLands(s: System, i: nat, cmd: Command, s': System)
    requires SystemOk(s) && i < |s.c.nodes| && i < |s.sites| && cmd.reqId !in s.born && cmd.reqId !in s.answers
    requires Submitted(s, s', i, cmd) && s'.c == C.After(s.c, C.Submit(i, cmd))
    ensures SystemOk(s') && Remembers(s.c.h, s'.c.h)
  {
    SubmitCluster(s.c, i, cmd, s'.c);
    SubmittedBorn(s, i, cmd, s');
    SubmitKeeps(s, i, cmd, s');
  }

  lemma SubmitStep(s: System, i: nat, cmd: Command, s': System)
    requires SystemOk(s) && Enabled(s, Submit(i, cmd)) && s' == After(s, Submit(i, cmd))
    ensures SystemOk(s') && Remembers(s.c.h, s'.c.h)
  {
    SubmitShape(s, i, cmd, s');
    SubmitLands(s, i, cmd, s');
  }

  lemma SaveStep(s: System, i: nat, task: (nat, StoreState), s': System)
    requires SystemOk(s) && Enabled(s, SaveSnapshot(i, task)) && s' == After(s, SaveSnapshot(i, task))
    ensures SystemOk(s') && Remembers(s.c.h, s'.c.h)
  {
    SnapshotNeverAhead(s, i, task);
    StepMoves(s.c, C.Compact(i, task.0), i);
    SaveKeeps(s, i, task, s');
  }

  lemma QuietStoreStep(s: System, step: Step, s': System)
    requires SystemOk(s) && Enabled(s, step) && (step.Apply? || step.GiveUp?) && s' == After(s, step)
    ensures SystemOk(s') && s'.c == s.c
  {
    if step.Apply? {
      ApplyKeeps(s, step.i, s');
    } else {
      GiveUpKeeps(s, step.i, GiveUpSite(s.sites[step.i], step.index), s');
    }
  }

  /** Every step of the service keeps the invariant and forgets nothing committed. */
  lemma SystemStepKeeps(s: System, step: Step)
    requires SystemOk(s) && Enabled(s, step)
    ensures SystemOk(After(s, step)) && Remembers(s.c.h, After(s, step).c.h)
  {
    var s' := After(s, step);
    match step {
      case Raft(r) => RaftStep(s, r, s');
      case Submit(i, cmd) => SubmitStep(s, i, cmd, s');
      case SaveSnapshot(i, task) => SaveStep(s, i, task, s');
      case _ =>
        QuietStoreStep(s, step, s');
        SelfRemembers(s.c.h);
    }
  }
}
