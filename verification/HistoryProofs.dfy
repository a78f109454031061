/** Every move of the history protocol keeps its invariant. */
module HistoryProofs {
  import opened RaftTypes
  import opened Quorum
  import opened History

  // ----- What only ever grows -----

  ghost predicate ReignGrows(a: Reign, b: Reign) {
    a.leader == b.leader && a.voters == b.voters && a.start == b.start && a.log <= b.log
  }

  ghost predicate TermsGrow(h: State, h': State) {
    |h'.terms| == |h.terms| && forall v :: 0 <= v < |h.terms| ==> h.terms[v] <= h'.terms[v]
  }

  ghost predicate ReignsGrow(h: State, h': State) {
    forall t :: t in h.reigns ==> t in h'.reigns && ReignGrows(h.reigns[t], h'.reigns[t])
  }

  ghost predicate AcksGrow(h: State, h': State) {
    forall v: nat, t: nat :: Acked(h, v, t) <= Acked(h', v, t)
  }

  /** New confirmations only come from servers that have not moved past the term. */
  ghost predicate AcksTimely(h: State, h': State) {
    forall v: nat, t: nat ::
      v < |h.terms| && Acked(h', v, t) > Acked(h, v, t) ==> h.terms[v] <= t
  }

  ghost predicate VotesGrow(h: State, h': State) {
    forall k :: k in h.votes ==> k in h'.votes && h'.votes[k] == h.votes[k]
  }

  ghost predicate ReqsGrow(h: State, h': State) {
    forall k :: k in h.reqs ==> k in h'.reqs && h'.reqs[k] == h.reqs[k]
  }

  ghost predicate Grows(h: State, h': State) {
    TermsGrow(h, h') && ReignsGrow(h, h') && AcksGrow(h, h') && AcksTimely(h, h')
  }

  lemma ChoosableShrinks(h: State, h': State, t: nat, n: nat)
    requires Grows(h, h') && Choosable(h', t, n)
    ensures Choosable(h, t, n)
  {
    var q :| Backed(h', t, n, q);
    forall v | v in q
      ensures Supports(h, t, n, v)
    {
      assert Supports(h', t, n, v);
    }
    assert Backed(h, t, n, q);
  }

  lemma OwnedGrows(h: State, h': State, log: Log)
    requires ReignsGrow(h, h') && Owned(h, log)
    ensures Owned(h', log)
  {
    forall k: nat | k < |log|
      ensures OwnedAt(h', log, k)
    {
      assert OwnedAt(h, log, k);
    }
  }

  /** A live old entry of a grown state was live before. */
  lemma LiveBefore(h: State, h': State, t: nat, n: nat)
    requires Grows(h, h') && Live(h', t, n)
    requires t in h.reigns && n <= |h.reigns[t].log|
    ensures Live(h, t, n)
    ensures h'.reigns[t].log[..n] == h.reigns[t].log[..n]
  {
    ChoosableShrinks(h, h', t, n);
    assert ReignGrows(h.reigns[t], h'.reigns[t]);
  }

  // ----- Log matching -----

  /** Two owned logs with the same term at an index agree up to that index. */
  lemma OwnedMatch(h: State, a: Log, b: Log, k: nat)
    requires Owned(h, a) && Owned(h, b)
    requires 1 <= k <= |a| && k <= |b| && a[k - 1].term == b[k - 1].term
    ensures a[..k] == b[..k]
  {
    assert OwnedAt(h, a, k - 1) && OwnedAt(h, b, k - 1);
    var l := h.reigns[a[k - 1].term].log;
    assert a[..k] == l[..k] == b[..k];
  }


  /** Terms never decrease along an owned log. */
  lemma OwnedMonotone(h: State, log: Log)
    requires ReignsOk(h) && Owned(h, log)
    ensures Monotone(log)
  {
    forall i, j | 0 <= i <= j < |log|
      ensures log[i].term <= log[j].term
    {
      assert OwnedAt(h, log, j);
      var t := log[j].term;
      assert ReignOk(h, t);
      assert log[i] == log[..j + 1][i] == h.reigns[t].log[i];
    }
  }

  /** The last entry of an owned log lies beyond the election-time log of its term. */
  lemma BeyondStart(h: State, log: Log)
    requires ReignsOk(h) && Owned(h, log) && log != []
    ensures var t := LastTerm(log); t in h.reigns && log <= h.reigns[t].log && |h.reigns[t].start| < |log|
  {
    var k := |log| - 1;
    assert OwnedAt(h, log, k);
    assert log[..k + 1] == log;
    var t := log[k].term;
    assert ReignOk(h, t);
  }

  /** Section 5.4.1: a log at least as up-to-date covers every live entry the other log holds. */
  lemma UpToDateCovers(h: State, voter: Log, cand: Log, t: nat, n: nat)
    requires ReignsOk(h) && CompleteOk(h) && Owned(h, voter) && Owned(h, cand)
    requires Live(h, t, n) && h.reigns[t].log[..n] <= voter
    requires UpToDate(LastTerm(cand), |cand|, voter)
    ensures h.reigns[t].log[..n] <= cand
  {
    var p := h.reigns[t].log[..n];
    assert voter[n - 1] == p[n - 1];
    OwnedMonotone(h, voter);
    assert LastTerm(voter) >= t;
    if cand != [] {
      BeyondStart(h, cand);
      var u := LastTerm(cand);
      if u == LastTerm(voter) {
        BeyondStart(h, voter);
        assert voter <= cand;
      } else {
        assert CompleteAt(h, t, n, u);
        assert p <= h.reigns[u].start <= h.reigns[u].log;
      }
    }
  }

  // ----- Votes, requests and reigns under growth -----

  lemma LogsKept(h: State, h': State)
    requires LogsOk(h) && ReignsGrow(h, h') && h'.logs == h.logs
    ensures LogsOk(h')
  {
    forall v: nat | v < |h'.logs|
      ensures Owned(h', h'.logs[v])
    {
      OwnedGrows(h, h', h.logs[v]);
    }
  }

  lemma ReqsKept(h: State, h': State)
    requires ReqsOk(h) && ReignsGrow(h, h') && TermsGrow(h, h')
    requires h'.reqs == h.reqs
    requires VotesGrow(h, h')
    ensures ReqsOk(h')
  {
    forall k | k in h'.reqs
      ensures Owned(h', h'.reqs[k])
    {
      OwnedGrows(h, h', h.reqs[k]);
    }
  }

  lemma ReignKept(h: State, h': State, t: nat)
    requires t in h.reigns && ReignOk(h, t) && ReignsGrow(h, h')
    requires |h'.terms| == |h.terms|
    requires h'.reigns[t] == h.reigns[t]
    requires VotesGrow(h, h') && ReqsGrow(h, h')
    requires Acked(h', h.reigns[t].leader, t) == Acked(h, h.reigns[t].leader, t)
    ensures ReignOk(h', t)
  {
    OwnedGrows(h, h', h.reigns[t].log);
    forall v | v in h.reigns[t].voters
      ensures VotedFor(h', v, t, h.reigns[t].leader)
    {
      assert VotedFor(h, v, t, h.reigns[t].leader);
    }
  }

  /** Retention, coverage and completeness survive a step that only raises terms. */
  lemma LiveKept(h: State, h': State)
    requires Shape(h) && RetainedOk(h) && CompleteOk(h)
    requires TermsGrow(h, h') && h'.logs == h.logs && h'.reigns == h.reigns && h'.acks == h.acks
    ensures RetainedOk(h') && CompleteOk(h')
  {
    forall v: nat, t: nat, n: nat
      ensures RetainedAt(h', v, t, n)
    {
      assert RetainedAt(h, v, t, n);
      if Live(h', t, n) {
        LiveBefore(h, h', t, n);
      }
    }
    forall t: nat, n: nat, w: nat
      ensures CompleteAt(h', t, n, w)
    {
      assert CompleteAt(h, t, n, w);
      if Live(h', t, n) {
        LiveBefore(h, h', t, n);
      }
    }
  }

  // ----- Raise -----

  lemma RaiseKeepsTables(h: State, v: nat, t: nat)
    requires Shape(h) && VotesOk(h) && AcksOk(h) && v < |h.terms| && h.terms[v] <= t
    ensures var h' := Raise(h, v, t); Shape(h') && VotesOk(h') && AcksOk(h')
  {}

  lemma RaiseKeepsReigns(h: State, v: nat, t: nat)
    requires Shape(h) && ReqsOk(h) && LogsOk(h) && ReignsOk(h) && v < |h.terms| && h.terms[v] <= t
    ensures var h' := Raise(h, v, t); ReqsOk(h') && LogsOk(h') && ReignsOk(h')
  {
    var h' := Raise(h, v, t);
    LogsKept(h, h');
    ReqsKept(h, h');
    forall u | u in h'.reigns
      ensures ReignOk(h', u)
    {
      ReignKept(h, h', u);
    }
  }

  lemma RaiseKeeps(h: State, v: nat, t: nat)
    requires Inv(h) && v < |h.terms| && h.terms[v] <= t
    ensures Inv(Raise(h, v, t))
  {
    var h' := Raise(h, v, t);
    RaiseLocal(h, v, t);
    RaiseKeepsTables(h, v, t);
    RaiseKeepsReigns(h, v, t);
    LiveKept(h, h');
    LateKept(h, h');
    CoveredKept(h, h');
  }

  lemma LateKept(h: State, h': State)
    requires LateOk(h) && h'.reqs == h.reqs && h'.reigns == h.reigns && h'.votes == h.votes
    ensures LateOk(h')
  {
    forall c, k: nat, v | c in h'.reqs && k < |h'.reqs[c]|
      ensures LateAt(h', c, k, v)
    {
      assert LateAt(h, c, k, v);
    }
  }

  lemma CoveredKept(h: State, h': State)
    requires CoveredOk(h) && Grows(h, h')
    requires h'.reqs == h.reqs && h'.reigns == h.reigns && h'.votes == h.votes && h'.acks == h.acks
    ensures CoveredOk(h')
  {
    forall v: nat, w: nat, t: nat, n: nat
      ensures CoveredAt(h', v, w, t, n)
    {
      assert CoveredAt(h, v, w, t, n);
      if Live(h', t, n) {
        LiveBefore(h, h', t, n);
      }
    }
  }

  // ----- Campaign -----

  ghost predicate CanCampaign(h: State, c: nat, t: nat) {
    Shape(h) && c < |h.terms| && h.terms[c] < t
  }

  lemma CampaignGrows(h: State, c: nat, t: nat)
    requires CanCampaign(h, c, t) && VotesOk(h) && ReqsOk(h)
    ensures var h' := Campaign(h, c, t);
      && Grows(h, h') && VotesGrow(h, h') && ReqsGrow(h, h')
      && Shape(h') && VotesOk(h')
  {}

  lemma CampaignKeepsReigns(h: State, c: nat, t: nat)
    requires CanCampaign(h, c, t) && LogsOk(h) && ReignsOk(h)
    requires var h' := Campaign(h, c, t); Grows(h, h') && VotesGrow(h, h') && ReqsGrow(h, h')
    ensures var h' := Campaign(h, c, t); LogsOk(h') && ReignsOk(h')
  {
    var h' := Campaign(h, c, t);
    LogsKept(h, h');
    forall u | u in h'.reigns
      ensures ReignOk(h', u)
    {
      ReignKept(h, h', u);
    }
  }

  lemma CampaignKeepsReqs(h: State, c: nat, t: nat)
    requires CanCampaign(h, c, t) && VotesOk(h) && ReqsOk(h) && LogsOk(h) && AcksOk(h)
    ensures var h' := Campaign(h, c, t); ReqsOk(h') && AcksOk(h')
  {
    var h' := Campaign(h, c, t);
    CampaignGrows(h, c, t);
    forall k | k in h'.reqs
      ensures Owned(h', h'.reqs[k])
    {
      OwnedGrows(h, h', if k == Key(c, t) then h.logs[c] else h.reqs[k]);
    }
  }

  lemma CampaignKeepsLate(h: State, c: nat, t: nat)
    requires CanCampaign(h, c, t) && VotesOk(h) && ReqsOk(h) && ReignsOk(h) && LateOk(h)
    ensures LateOk(Campaign(h, c, t))
  {
    var h' := Campaign(h, c, t);
    forall r, k: nat, v | r in h'.reqs && k < |h'.reqs[r]|
      ensures LateAt(h', r, k, v)
    {
      var u := h'.reqs[r][k].term;
      if u >= r.term && u in h.reigns && v in h.reigns[u].voters {
        assert ReignOk(h, u);
        assert VotedFor(h, v, u, h.reigns[u].leader);
        if r == Key(c, t) {
          assert v != c;
          assert !VotedFor(h, v, t, c);
        } else {
          assert LateAt(h, r, k, v);
          assert !VotedFor(h, v, r.term, r.id);
        }
      }
    }
  }

  lemma CampaignKeepsCovered(h: State, c: nat, t: nat)
    requires CanCampaign(h, c, t) && VotesOk(h) && ReqsOk(h) && RetainedOk(h) && CoveredOk(h)
    ensures CoveredOk(Campaign(h, c, t))
  {
    var h' := Campaign(h, c, t);
    CampaignGrows(h, c, t);
    forall v: nat, w: nat, u: nat, n: nat
      ensures CoveredAt(h', v, w, u, n)
    {
      assert CoveredAt(h, v, w, u, n) && RetainedAt(h, v, u, n);
      if Live(h', u, n) {
        LiveBefore(h, h', u, n);
      }
    }
  }

  lemma CampaignKeeps(h: State, c: nat, t: nat)
    requires Inv(h) && CanCampaign(h, c, t)
    ensures Inv(Campaign(h, c, t))
  {
    CampaignGrows(h, c, t);
    CampaignKeepsReigns(h, c, t);
    CampaignKeepsReqs(h, c, t);
    CampaignKeepsLate(h, c, t);
    CampaignKeepsCovered(h, c, t);
    LiveKept(h, Campaign(h, c, t));
  }

  // ----- Grant -----

  lemma GrantKeepsTables(h: State, v: nat, t: nat, c: nat)
    requires CanGrant(h, v, t, c) && VotesOk(h) && AcksOk(h)
    ensures var h' := Grant(h, v, t, c); Shape(h') && VotesOk(h') && AcksOk(h') && Grows(h, h')
  {}

  lemma GrantKeepsReigns(h: State, v: nat, t: nat, c: nat)
    requires CanGrant(h, v, t, c) && VotesOk(h) && ReqsOk(h) && LogsOk(h) && ReignsOk(h)
    ensures var h' := Grant(h, v, t, c); ReqsOk(h') && LogsOk(h') && ReignsOk(h')
  {
    var h' := Grant(h, v, t, c);
    LogsKept(h, h');
    ReqsKept(h, h');
    forall u | u in h'.reigns
      ensures ReignOk(h', u)
    {
      ReignKept(h, h', u);
    }
  }

  lemma GrantKeepsLate(h: State, v: nat, t: nat, c: nat)
    requires CanGrant(h, v, t, c) && VotesOk(h) && ReignsOk(h) && LateOk(h)
    ensures LateOk(Grant(h, v, t, c))
  {
    var h' := Grant(h, v, t, c);
    forall r, k: nat, w | r in h'.reqs && k < |h'.reqs[r]|
      ensures LateAt(h', r, k, w)
    {
      assert LateAt(h, r, k, w);
      var u := h'.reqs[r][k].term;
      if u >= r.term && u in h.reigns && w in h.reigns[u].voters {
        assert ReignOk(h, u);
        assert VotedFor(h, w, u, h.reigns[u].leader);
      }
    }
  }

  lemma GrantKeepsCovered(h: State, v: nat, t: nat, c: nat)
    requires CanGrant(h, v, t, c) && VotesOk(h) && ReqsOk(h) && ReignsOk(h) && LogsOk(h)
    requires RetainedOk(h) && CoveredOk(h) && CompleteOk(h)
    ensures CoveredOk(Grant(h, v, t, c))
  {
    var h' := Grant(h, v, t, c);
    assert Grows(h, h');
    forall a: nat, w: nat, u: nat, n: nat
      ensures CoveredAt(h', a, w, u, n)
    {
      assert CoveredAt(h, a, w, u, n) && RetainedAt(h, a, u, n);
      if Live(h', u, n) {
        LiveBefore(h, h', u, n);
        if Key(a, w) == Key(v, t) && u < w && Acked(h, v, u) >= n {
          UpToDateCovers(h, h.logs[v], h.reqs[Key(c, t)], u, n);
        }
      }
    }
  }

  lemma GrantKeeps(h: State, v: nat, t: nat, c: nat)
    requires Inv(h) && CanGrant(h, v, t, c)
    ensures Inv(Grant(h, v, t, c))
  {
    GrantKeepsTables(h, v, t, c);
    GrantKeepsReigns(h, v, t, c);
    GrantKeepsLate(h, v, t, c);
    GrantKeepsCovered(h, v, t, c);
    LiveKept(h, Grant(h, v, t, c));
  }

  // ----- Elect -----

  /** No entry of the winner's log is of its own term or a later one. */
  lemma WinnerLogOlder(h: State, c: nat, t: nat, q: set<nat>)
    requires CanElect(h, c, t, q) && ReqsOk(h) && ReignsOk(h) && LateOk(h)
    ensures forall k: nat :: k < |h.reqs[Key(c, t)]| ==> h.reqs[Key(c, t)][k].term < t
  {
    var log := h.reqs[Key(c, t)];
    forall k: nat | k < |log|
      ensures log[k].term < t
    {
      var u := log[k].term;
      assert OwnedAt(h, log, k);
      assert ReignOk(h, u);
      var v := Intersect(|h.terms|, h.reigns[u].voters, q);
      assert LateAt(h, Key(c, t), k, v) && VotedFor(h, v, t, c);
    }
  }

  lemma ElectGrows(h: State, c: nat, t: nat, q: set<nat>)
    requires CanElect(h, c, t, q) && Shape(h) && VotesOk(h) && AcksOk(h)
    ensures var h' := Elect(h, c, t, q);
      Grows(h, h') && VotesGrow(h, h') && ReqsGrow(h, h') && Shape(h') && VotesOk(h') && AcksOk(h')
  {}

  lemma ElectKeepsOwned(h: State, c: nat, t: nat, q: set<nat>)
    requires CanElect(h, c, t, q) && ReqsOk(h) && LogsOk(h)
    requires var h' := Elect(h, c, t, q); Grows(h, h') && VotesGrow(h, h')
    ensures var h' := Elect(h, c, t, q); ReqsOk(h') && LogsOk(h')
  {
    var h' := Elect(h, c, t, q);
    LogsKept(h, h');
    ReqsKept(h, h');
  }

  lemma ElectKeepsReigns(h: State, c: nat, t: nat, q: set<nat>)
    requires CanElect(h, c, t, q) && ReqsOk(h) && ReignsOk(h) && LateOk(h)
    requires var h' := Elect(h, c, t, q); Grows(h, h') && VotesGrow(h, h') && ReqsGrow(h, h')
    ensures ReignsOk(Elect(h, c, t, q))
  {
    var h' := Elect(h, c, t, q);
    WinnerLogOlder(h, c, t, q);
    forall u | u in h'.reigns
      ensures ReignOk(h', u)
    {
      if u == t {
        OwnedGrows(h, h', h.reqs[Key(c, t)]);
        forall v | v in q
          ensures VotedFor(h', v, t, c)
        {
          assert VotedFor(h, v, t, c);
        }
      } else {
        ReignKept(h, h', u);
      }
    }
  }

  lemma ElectKeepsLate(h: State, c: nat, t: nat, q: set<nat>)
    requires CanElect(h, c, t, q) && ReqsOk(h) && LateOk(h)
    ensures LateOk(Elect(h, c, t, q))
  {
    var h' := Elect(h, c, t, q);
    forall r, k: nat, v | r in h'.reqs && k < |h'.reqs[r]|
      ensures LateAt(h', r, k, v)
    {
      assert LateAt(h, r, k, v) && OwnedAt(h, h.reqs[r], k);
    }
  }

  /** A fresh reign holds no entry of its own, so what is live is what was live before. */
  lemma ElectLive(h: State, c: nat, t: nat, q: set<nat>, u: nat, n: nat)
    requires CanElect(h, c, t, q)
    requires forall k: nat :: k < |h.reqs[Key(c, t)]| ==> h.reqs[Key(c, t)][k].term < t
    requires var h' := Elect(h, c, t, q); Grows(h, h') && Live(h', u, n)
    ensures u != t && Live(h, u, n)
  {
    LiveBefore(h, Elect(h, c, t, q), u, n);
  }

  lemma ElectKeepsCovered(h: State, c: nat, t: nat, q: set<nat>)
    requires CanElect(h, c, t, q) && ReqsOk(h) && ReignsOk(h) && LateOk(h)
    requires RetainedOk(h) && CoveredOk(h) && Grows(h, Elect(h, c, t, q))
    ensures var h' := Elect(h, c, t, q); RetainedOk(h') && CoveredOk(h')
  {
    var h' := Elect(h, c, t, q);
    WinnerLogOlder(h, c, t, q);
    forall v: nat, u: nat, n: nat
      ensures RetainedAt(h', v, u, n)
    {
      assert RetainedAt(h, v, u, n);
      if Live(h', u, n) {
        ElectLive(h, c, t, q, u, n);
      }
    }
    forall v: nat, w: nat, u: nat, n: nat
      ensures CoveredAt(h', v, w, u, n)
    {
      assert CoveredAt(h, v, w, u, n);
      if Live(h', u, n) {
        ElectLive(h, c, t, q, u, n);
      }
    }
  }

  /** Section 5.4.3: quorum intersection carries every live entry into the winner's log. */
  lemma ElectComplete(h: State, c: nat, t: nat, q: set<nat>, u: nat, n: nat)
    requires CanElect(h, c, t, q) && VotesOk(h) && CoveredOk(h) && Live(h, u, n) && u < t
    ensures h.reigns[u].log[..n] <= h.reqs[Key(c, t)]
  {
    var b :| Backed(h, u, n, b);
    var v := Intersect(|h.terms|, b, q);
    assert Supports(h, u, n, v) && VotedFor(h, v, t, c);
    assert CoveredAt(h, v, t, u, n);
  }

  lemma ElectKeepsComplete(h: State, c: nat, t: nat, q: set<nat>)
    requires CanElect(h, c, t, q) && VotesOk(h) && ReqsOk(h) && ReignsOk(h) && LateOk(h)
    requires CoveredOk(h) && CompleteOk(h) && Grows(h, Elect(h, c, t, q))
    ensures CompleteOk(Elect(h, c, t, q))
  {
    var h' := Elect(h, c, t, q);
    WinnerLogOlder(h, c, t, q);
    forall u: nat, n: nat, w: nat
      ensures CompleteAt(h', u, n, w)
    {
      assert CompleteAt(h, u, n, w);
      if Live(h', u, n) {
        ElectLive(h, c, t, q, u, n);
        if w == t && u < w {
          ElectComplete(h, c, t, q, u, n);
        }
      }
    }
  }

  lemma ElectKeeps(h: State, c: nat, t: nat, q: set<nat>)
    requires Inv(h) && CanElect(h, c, t, q)
    ensures Inv(Elect(h, c, t, q))
  {
    ElectGrows(h, c, t, q);
    ElectKeepsOwned(h, c, t, q);
    ElectKeepsReigns(h, c, t, q);
    ElectKeepsLate(h, c, t, q);
    ElectKeepsCovered(h, c, t, q);
    ElectKeepsComplete(h, c, t, q);
  }

  // ----- Extend -----

  lemma ExtendGrows(h: State, t: nat, e: Entry)
    requires CanExtend(h, t, e) && Acked(h, h.reigns[t].leader, t) == |h.reigns[t].log|
    ensures var h' := Extend(h, t, e); Grows(h, h') && VotesGrow(h, h') && ReqsGrow(h, h')
  {
    var h' := Extend(h, t, e);
    assert ReignGrows(h.reigns[t], h'.reigns[t]);
  }

  lemma ExtendKeepsTables(h: State, t: nat, e: Entry)
    requires CanExtend(h, t, e) && VotesOk(h) && AcksOk(h)
    ensures var h' := Extend(h, t, e); Shape(h') && VotesOk(h') && AcksOk(h')
  {}

  /** The log of a reign, with an entry of its own term appended, is owned. */
  lemma ExtendOwned(h: State, t: nat, e: Entry)
    requires CanExtend(h, t, e) && ReignsOk(h) && ReignsGrow(h, Extend(h, t, e))
    ensures var h' := Extend(h, t, e); Owned(h', h.reigns[t].log + [e])
  {
    var h' := Extend(h, t, e);
    var log := h.reigns[t].log + [e];
    assert ReignOk(h, t);
    OwnedGrows(h, h', h.reigns[t].log);
    forall k: nat | k < |log|
      ensures OwnedAt(h', log, k)
    {
      if k < |h.reigns[t].log| {
        assert OwnedAt(h', h.reigns[t].log, k);
        assert log[..k + 1] == h.reigns[t].log[..k + 1];
      }
    }
  }

  lemma ExtendKeepsOwned(h: State, t: nat, e: Entry)
    requires CanExtend(h, t, e) && ReqsOk(h) && LogsOk(h) && ReignsOk(h)
    requires var h' := Extend(h, t, e); Grows(h, h') && VotesGrow(h, h')
    ensures var h' := Extend(h, t, e); ReqsOk(h') && LogsOk(h')
  {
    var h' := Extend(h, t, e);
    ExtendOwned(h, t, e);
    ReqsKept(h, h');
    forall v: nat | v < |h'.logs|
      ensures Owned(h', h'.logs[v])
    {
      if v != h.reigns[t].leader {
        OwnedGrows(h, h', h.logs[v]);
      }
    }
  }

  lemma ExtendKeepsReigns(h: State, t: nat, e: Entry)
    requires CanExtend(h, t, e) && ReignsOk(h)
    requires var h' := Extend(h, t, e); Grows(h, h') && VotesGrow(h, h') && ReqsGrow(h, h')
    ensures ReignsOk(Extend(h, t, e))
  {
    var h' := Extend(h, t, e);
    forall u | u in h'.reigns
      ensures ReignOk(h', u)
    {
      if u == t {
        ExtendOwned(h, t, e);
        assert ReignOk(h, t);
        forall v | v in h.reigns[t].voters
          ensures VotedFor(h', v, t, h.reigns[t].leader)
        {
          assert VotedFor(h, v, t, h.reigns[t].leader);
        }
      } else {
        ReignKept(h, h', u);
      }
    }
  }

  lemma ExtendKeepsLate(h: State, t: nat, e: Entry)
    requires CanExtend(h, t, e) && LateOk(h)
    ensures LateOk(Extend(h, t, e))
  {
    var h' := Extend(h, t, e);
    forall r, k: nat, v | r in h'.reqs && k < |h'.reqs[r]|
      ensures LateAt(h', r, k, v)
    {
      assert LateAt(h, r, k, v);
    }
  }

  /** The new entry has been confirmed by nobody but its leader. */
  lemma ExtendAcks(h: State, t: nat, e: Entry, v: nat, n: nat)
    requires CanExtend(h, t, e) && AcksOk(h) && n > |h.reigns[t].log|
    requires Acked(Extend(h, t, e), v, t) >= n
    ensures v == h.reigns[t].leader && n == |h.reigns[t].log| + 1
  {}

  lemma ExtendKeepsRetained(h: State, t: nat, e: Entry)
    requires CanExtend(h, t, e) && ReignsOk(h) && AcksOk(h) && RetainedOk(h) && Grows(h, Extend(h, t, e))
    ensures RetainedOk(Extend(h, t, e))
  {
    var h' := Extend(h, t, e);
    assert ReignOk(h, t);
    forall v: nat, u: nat, n: nat
      ensures RetainedAt(h', v, u, n)
    {
      assert RetainedAt(h, v, u, n);
      if Live(h', u, n) && Acked(h', v, u) >= n {
        if u == t && n > |h.reigns[t].log| {
          ExtendAcks(h, t, e, v, n);
        } else {
          LiveBefore(h, h', u, n);
        }
      }
    }
  }

  lemma ExtendKeepsCovered(h: State, t: nat, e: Entry)
    requires CanExtend(h, t, e) && VotesOk(h) && ReignsOk(h) && AcksOk(h) && CoveredOk(h)
    requires Grows(h, Extend(h, t, e))
    ensures CoveredOk(Extend(h, t, e))
  {
    var h' := Extend(h, t, e);
    assert ReignOk(h, t);
    forall v: nat, w: nat, u: nat, n: nat
      ensures CoveredAt(h', v, w, u, n)
    {
      assert CoveredAt(h, v, w, u, n);
      if Live(h', u, n) && Acked(h', v, u) >= n {
        if u == t && n > |h.reigns[t].log| {
          ExtendAcks(h, t, e, v, n);
        } else {
          LiveBefore(h, h', u, n);
        }
      }
    }
  }

  /** An entry appended while a later leader exists can no longer be committed. */
  lemma ExtendTooLate(h: State, t: nat, e: Entry, n: nat, w: nat)
    requires CanExtend(h, t, e) && VotesOk(h) && ReignsOk(h) && AcksOk(h)
    requires w in h.reigns && t < w && n > |h.reigns[t].log|
    ensures !Choosable(Extend(h, t, e), t, n)
  {
    var h' := Extend(h, t, e);
    if Choosable(h', t, n) {
      var b :| Backed(h', t, n, b);
      assert ReignOk(h, w);
      var v := Intersect(|h.terms|, b, h.reigns[w].voters);
      assert Supports(h', t, n, v) && VotedFor(h, v, w, h.reigns[w].leader);
      ExtendAcks(h, t, e, v, n);
      assert false;
    }
  }

  lemma ExtendKeepsComplete(h: State, t: nat, e: Entry)
    requires CanExtend(h, t, e) && VotesOk(h) && ReignsOk(h) && AcksOk(h) && CompleteOk(h)
    requires Grows(h, Extend(h, t, e))
    ensures CompleteOk(Extend(h, t, e))
  {
    var h' := Extend(h, t, e);
    forall u: nat, n: nat, w: nat
      ensures CompleteAt(h', u, n, w)
    {
      assert CompleteAt(h, u, n, w);
      if Live(h', u, n) && w in h'.reigns && u < w {
        if u == t && n > |h.reigns[t].log| {
          ExtendTooLate(h, t, e, n, w);
        } else {
          LiveBefore(h, h', u, n);
        }
      }
    }
  }

  lemma ExtendKeeps(h: State, t: nat, e: Entry)
    requires Inv(h) && CanExtend(h, t, e)
    ensures Inv(Extend(h, t, e))
  {
    assert ReignOk(h, t);
    ExtendGrows(h, t, e);
    ExtendKeepsTables(h, t, e);
    ExtendKeepsOwned(h, t, e);
    ExtendKeepsReigns(h, t, e);
    ExtendKeepsLate(h, t, e);
    ExtendKeepsRetained(h, t, e);
    ExtendKeepsCovered(h, t, e);
    ExtendKeepsComplete(h, t, e);
  }

  // ----- Accept -----

  lemma AcceptGrows(h: State, v: nat, t: nat, src: nat, m: nat)
    requires CanAccept(h, v, t, src, m) && VotesOk(h) && AcksOk(h)
    ensures var h' := Accept(h, v, t, src, m);
      Grows(h, h') && Shape(h') && VotesOk(h') && AcksOk(h')
  {}

  lemma PrefixOwned(h: State, log: Log, m: nat)
    requires Owned(h, log) && m <= |log|
    ensures Owned(h, log[..m])
  {
    forall k: nat | k < m
      ensures OwnedAt(h, log[..m], k)
    {
      assert OwnedAt(h, log, k) && log[..m][..k + 1] == log[..k + 1];
    }
  }

  lemma AcceptKeepsOwned(h: State, v: nat, t: nat, src: nat, m: nat)
    requires CanAccept(h, v, t, src, m) && ReqsOk(h) && LogsOk(h) && ReignsOk(h)
    requires Grows(h, Accept(h, v, t, src, m))
    ensures var h' := Accept(h, v, t, src, m); ReqsOk(h') && LogsOk(h')
  {
    var h' := Accept(h, v, t, src, m);
    ReqsKept(h, h');
    assert ReignOk(h, src);
    PrefixOwned(h, h.reigns[src].log, m);
    forall a: nat | a < |h'.logs|
      ensures Owned(h', h'.logs[a])
    {
      OwnedGrows(h, h', h'.logs[a]);
    }
  }

  lemma AcceptKeepsReigns(h: State, v: nat, t: nat, src: nat, m: nat)
    requires CanAccept(h, v, t, src, m) && ReignsOk(h) && LateOk(h)
    requires Grows(h, Accept(h, v, t, src, m))
    ensures var h' := Accept(h, v, t, src, m); ReignsOk(h') && LateOk(h')
  {
    var h' := Accept(h, v, t, src, m);
    forall u | u in h'.reigns
      ensures ReignOk(h', u)
    {
      assert ReignOk(h, u);
      ReignKept(h, h', u);
    }
    LateKept(h, h');
  }

  /** What a log shares with the shipped log survives the overwriting. */
  lemma OverwriteKeeps(log: Log, leaderLog: Log, m: nat, p: Log)
    requires m <= |leaderLog| && p <= log && p <= leaderLog
    ensures p <= Overwrite(log, leaderLog, m)
  {
    if |p| > m {
      assert leaderLog[..m] == p[..m];
    }
  }

  lemma AcceptRetains(h: State, v: nat, t: nat, src: nat, m: nat, u: nat, n: nat)
    requires CanAccept(h, v, t, src, m) && ReignsOk(h) && AcksOk(h)
    requires RetainedAt(h, v, u, n) && CompleteAt(h, u, n, src) && Live(h, u, n)
    requires Acked(Accept(h, v, t, src, m), v, u) >= n
    ensures h.reigns[u].log[..n] <= Overwrite(h.logs[v], h.reigns[src].log, m)
  {
    if Acked(h, v, u) >= n {
      assert ReignOk(h, src);
      OverwriteKeeps(h.logs[v], h.reigns[src].log, m, h.reigns[u].log[..n]);
    } else {
      AcceptConfirms(h, v, t, src, m, u, n);
      assert h.reigns[u].log[..n] <= h.reigns[src].log[..m];
    }
  }

  /** What acceptance newly confirms is what was shipped, to the leader it came from. */
  lemma AcceptConfirms(h: State, v: nat, t: nat, src: nat, m: nat, u: nat, n: nat)
    requires CanAccept(h, v, t, src, m) && Acked(h, v, u) < n <= Acked(Accept(h, v, t, src, m), v, u)
    ensures u == src && n <= m
  {}

  lemma AcceptKeepsRetained(h: State, v: nat, t: nat, src: nat, m: nat)
    requires CanAccept(h, v, t, src, m) && ReignsOk(h) && AcksOk(h) && RetainedOk(h) && CompleteOk(h)
    requires Grows(h, Accept(h, v, t, src, m))
    ensures RetainedOk(Accept(h, v, t, src, m))
  {
    var h' := Accept(h, v, t, src, m);
    forall a: nat, u: nat, n: nat
      ensures RetainedAt(h', a, u, n)
    {
      assert RetainedAt(h, a, u, n);
      if a < |h'.logs| && Live(h', u, n) && Acked(h', a, u) >= n {
        LiveBefore(h, h', u, n);
        if a == v {
          assert CompleteAt(h, u, n, src);
          AcceptRetains(h, v, t, src, m, u, n);
        }
      }
    }
  }

  lemma AcceptKeepsCovered(h: State, v: nat, t: nat, src: nat, m: nat)
    requires CanAccept(h, v, t, src, m) && VotesOk(h) && CoveredOk(h)
    requires Grows(h, Accept(h, v, t, src, m))
    ensures CoveredOk(Accept(h, v, t, src, m))
  {
    var h' := Accept(h, v, t, src, m);
    forall a: nat, w: nat, u: nat, n: nat
      ensures CoveredAt(h', a, w, u, n)
    {
      assert CoveredAt(h, a, w, u, n);
      if Live(h', u, n) {
        LiveBefore(h, h', u, n);
      }
    }
  }

  lemma AcceptKeepsComplete(h: State, v: nat, t: nat, src: nat, m: nat)
    requires CanAccept(h, v, t, src, m) && CompleteOk(h) && Grows(h, Accept(h, v, t, src, m))
    ensures CompleteOk(Accept(h, v, t, src, m))
  {
    var h' := Accept(h, v, t, src, m);
    forall u: nat, n: nat, w: nat
      ensures CompleteAt(h', u, n, w)
    {
      assert CompleteAt(h, u, n, w);
      if Live(h', u, n) {
        LiveBefore(h, h', u, n);
      }
    }
  }

  lemma AcceptKeeps(h: State, v: nat, t: nat, src: nat, m: nat)
    requires Inv(h) && CanAccept(h, v, t, src, m)
    ensures Inv(Accept(h, v, t, src, m))
  {
    AcceptGrows(h, v, t, src, m);
    AcceptKeepsOwned(h, v, t, src, m);
    AcceptKeepsReigns(h, v, t, src, m);
    AcceptKeepsRetained(h, v, t, src, m);
    AcceptKeepsCovered(h, v, t, src, m);
    AcceptKeepsComplete(h, v, t, src, m);
  }

  // ----- What a move of server i cannot touch -----

  /** A move of server i: nothing is forgotten, and other servers' votes and reigns stay. */
  ghost predicate Local(h: State, h': State, i: nat) {
    && Grows(h, h') && VotesGrow(h, h') && ReqsGrow(h, h')
    && |h'.logs| == |h.logs|
    && (forall j :: 0 <= j < |h.terms| && j != i ==> h'.terms[j] == h.terms[j])
    && (forall j :: 0 <= j < |h.logs| && j != i ==> h'.logs[j] == h.logs[j])
    && (forall k :: k in h'.votes && k.id != i ==> k in h.votes)
    && (forall t :: t in h'.reigns && h'.reigns[t].leader != i ==> t in h.reigns && h'.reigns[t] == h.reigns[t])
  }

  lemma RaiseLocal(h: State, v: nat, t: nat)
    requires v < |h.terms| && h.terms[v] <= t
    ensures Local(h, Raise(h, v, t), v)
  {}

  lemma CampaignLocal(h: State, c: nat, t: nat)
    requires CanCampaign(h, c, t) && VotesOk(h) && ReqsOk(h)
    ensures Local(h, Campaign(h, c, t), c)
  {
    CampaignGrows(h, c, t);
  }

  lemma GrantLocal(h: State, v: nat, t: nat, c: nat)
    requires CanGrant(h, v, t, c)
    ensures Local(h, Grant(h, v, t, c), v)
  {}

  lemma ElectLocal(h: State, c: nat, t: nat, q: set<nat>)
    requires CanElect(h, c, t, q) && Shape(h) && VotesOk(h) && AcksOk(h)
    ensures Local(h, Elect(h, c, t, q), c)
  {
    ElectGrows(h, c, t, q);
  }

  lemma ExtendLocal(h: State, t: nat, e: Entry)
    requires CanExtend(h, t, e) && ReignsOk(h)
    ensures Local(h, Extend(h, t, e), h.reigns[t].leader)
  {
    assert ReignOk(h, t);
    ExtendGrows(h, t, e);
  }

  lemma AcceptLocal(h: State, v: nat, t: nat, src: nat, m: nat)
    requires CanAccept(h, v, t, src, m) && VotesOk(h) && AcksOk(h)
    ensures Local(h, Accept(h, v, t, src, m), v)
  {
    AcceptGrows(h, v, t, src, m);
  }

  // ----- Committed entries -----

  /** What a later state of a run still knows about an earlier one. */
  ghost predicate Remembers(h: State, h': State) {
    |h'.terms| == |h.terms| && ReignsGrow(h, h') && AcksGrow(h, h')
  }

  lemma CommittedGrows(h: State, h': State, t: nat, n: nat)
    requires Remembers(h, h') && Committed(h, t, n)
    ensures Committed(h', t, n) && h'.reigns[t].log[..n] == h.reigns[t].log[..n]
  {
    assert ReignGrows(h.reigns[t], h'.reigns[t]);
    var q :| Confirmed(h, t, n, q);
    assert Confirmed(h', t, n, q);
  }

  lemma CommittedLive(h: State, t: nat, n: nat)
    requires Committed(h, t, n)
    ensures Live(h, t, n)
  {
    var q :| Confirmed(h, t, n, q);
    forall v | v in q
      ensures Supports(h, t, n, v)
    {}
    assert Backed(h, t, n, q);
  }

  /** Section 5.4.3: a committed entry is in the log of every later reign. */
  lemma CommittedInReign(h: State, t: nat, n: nat, w: nat)
    requires ReignsOk(h) && CompleteOk(h) && Committed(h, t, n) && w in h.reigns && t <= w
    ensures h.reigns[t].log[..n] <= h.reigns[w].log
  {
    CommittedLive(h, t, n);
    assert ReignOk(h, w) && CompleteAt(h, t, n, w);
  }

  /** Any two committed entries lie on one line: one prefix contains the other. */
  lemma CommittedLine(h: State, t: nat, n: nat, u: nat, k: nat)
    requires ReignsOk(h) && CompleteOk(h) && Committed(h, t, n) && Committed(h, u, k)
    ensures h.reigns[t].log[..n] <= h.reigns[u].log[..k] || h.reigns[u].log[..k] <= h.reigns[t].log[..n]
  {
    if t <= u {
      CommittedInReign(h, t, n, u);
    } else {
      CommittedInReign(h, u, k, t);
    }
  }
}
