/**
 What a leader's snapshot does to the receiver's log. The suffix past the snapshot is kept
 without comparing terms at its last index, unlike Figure 13 of the extended Raft paper, so
 log matching survives exactly when that comparison would have succeeded.
 */
module InstallSnapshot {
  import opened Commands
  import opened RaftTypes
  import opened RaftNode
  import opened History
  import opened HistoryProofs
  import opened Quorum

  /** A leader's snapshot stands for an owned prefix; the kept suffix was owned behind its own. */
  lemma InstallKeepsMatching(h: State, log: Log, prefix: Log)
    requires Owned(h, log) && Owned(h, prefix)
    ensures Owned(h, Installed(log, prefix))
            <==> |log| <= |prefix| || TermAt(log, |prefix|) == LastTerm(prefix)
  {
    var k := |prefix|;
    if k < |log| {
      if k > 0 && TermAt(log, k) == LastTerm(prefix) {
        OwnedMatch(h, log, prefix, k);
        assert log[..k] == prefix;
      }
      if log[..k] == prefix {
        assert Installed(log, prefix) == log;
      } else if Owned(h, Installed(log, prefix)) {
        MismatchFound(h, log, prefix);
      }
    } else if k == |log| {
      assert Installed(log, prefix) == prefix;
    }
  }

  lemma MismatchFound(h: State, log: Log, prefix: Log)
    requires Owned(h, log) && |prefix| < |log| && Owned(h, prefix + log[|prefix|..])
    ensures log[..|prefix|] == prefix
  {
    var k := |prefix|;
    var mixed := prefix + log[k..];
    OwnedMatch(h, log, mixed, k + 1);
    assert log[..k] == log[..k + 1][..k] == mixed[..k + 1][..k] == prefix;
  }

  /** The indices stay ordered whatever is installed. */
  lemma InstallKeepsIndices(s: Node, a: InstallArgs, prefix: Log)
    requires s.snap <= s.applied <= s.commit <= |s.log| && |prefix| == a.index
    ensures var s' := OnInstall(s, a, prefix);
      && s'.snap <= s'.applied <= s'.commit <= |s'.log|
      && s.term <= s'.term && s.commit <= s'.commit && s.applied <= s'.applied && s.snap <= s'.snap
  {}

  /** A snapshot of a leader not behind in terms, and ahead of the own one, is taken over in full. */
  lemma InstallTakes(s: Node, a: InstallArgs, prefix: Log, s': Node)
    requires a.term >= s.term && a.index > s.snap && |prefix| == a.index && s' == OnInstall(s, a, prefix)
    ensures s'.term == a.term && s'.role == Follower && s'.snap == a.index && prefix <= s'.log
    ensures s'.commit >= a.index && s'.applied >= a.index
    ensures |s'.log| == (if |s.log| < a.index then a.index else |s.log|)
    ensures forall k: nat :: a.index <= k < |s.log| ==> s'.log[k] == s.log[k]
  {}

  // ----- A receiver that the guard misses -----

  const OLD_A := Entry(1, Some(Delete("a", "")))
  const OLD_B := Entry(1, Some(Delete("b", "")))
  const NEWER := Entry(2, Some(Delete("c", "")))

  /** A server asks for votes in a new term; h' is the history after that. */
  lemma Asks(h: State, h': State, c: nat, t: nat)
    requires Inv(h) && CanCampaign(h, c, t) && h' == Campaign(h, c, t)
    ensures Inv(h') && Shape(h')
  {
    CampaignKeeps(h, c, t);
  }

  lemma Votes(h: State, h': State, v: nat, t: nat, c: nat)
    requires Inv(h) && CanGrant(h, v, t, c) && h' == Grant(h, v, t, c)
    ensures Inv(h') && Shape(h')
  {
    GrantKeeps(h, v, t, c);
  }

  lemma Wins(h: State, h': State, c: nat, t: nat, v: nat)
    requires Inv(h) && |h.terms| == 3 && c < 3 && v < 3 && c != v && h.terms[c] == t && t !in h.reigns
    requires Key(c, t) in h.reqs && VotedFor(h, c, t, c) && VotedFor(h, v, t, c) && h' == Elect(h, c, t, {c, v})
    ensures Inv(h') && Shape(h')
  {
    TwoOfThree({c, v});
    ElectKeeps(h, c, t, {c, v});
  }

  lemma TwoOfThree(q: set<nat>)
    requires q <= {0, 1, 2} && |q| == 2
    ensures Majority(3, q)
  {}

  lemma Appends(h: State, h': State, t: nat, e: Entry)
    requires Inv(h) && CanExtend(h, t, e) && h' == Extend(h, t, e)
    ensures Inv(h') && Shape(h')
  {
    ExtendKeeps(h, t, e);
  }

  /** Server 0 has won term 1 and appended two entries that nobody else got. */
  const LOST := State(
    [1, 1, 0], [[OLD_A, OLD_B], [], []],
    map[Key(0, 1) := []],
    map[Key(0, 1) := 0, Key(1, 1) := 0],
    map[1 := Reign(0, {0, 1}, [], [OLD_A, OLD_B])],
    map[Key(0, 1) := 2])

  lemma LostCampaign() returns (h: State)
    ensures Inv(h) && Shape(h)
    ensures h == State([1, 0, 0], [[], [], []], map[Key(0, 1) := []], map[Key(0, 1) := 0], map[], map[])
  {
    var h0 := State([0, 0, 0], [[], [], []], map[], map[], map[], map[]);
    assert Inv(h0);
    h := State([1, 0, 0], [[], [], []], map[Key(0, 1) := []], map[Key(0, 1) := 0], map[], map[]);
    Asks(h0, h, 0, 1);
  }

  lemma LostElection() returns (h: State)
    ensures Inv(h) && Shape(h)
    ensures h == LOST.(logs := [[], [], []], reigns := map[1 := Reign(0, {0, 1}, [], [])], acks := map[Key(0, 1) := 0])
  {
    var h0 := LostCampaign();
    var h1 := h0.(terms := [1, 1, 0], votes := map[Key(0, 1) := 0, Key(1, 1) := 0]);
    Votes(h0, h1, 1, 1, 0);
    h := h1.(reigns := map[1 := Reign(0, {0, 1}, [], [])], acks := map[Key(0, 1) := 0]);
    Wins(h1, h, 0, 1, 1);
  }

  lemma Extended(h: State, t: nat, e: Entry, h': State, c: nat, logs: seq<Log>, r: Reign, acks: map<Key, nat>)
    requires t in h.reigns && h.reigns[t].leader == c && c < |h.logs|
    requires r == h.reigns[t].(log := h.reigns[t].log + [e])
    requires logs == h.logs[c := r.log] && acks == h.acks[Key(c, t) := |r.log|]
    requires h' == h.(logs := logs, reigns := h.reigns[t := r], acks := acks)
    ensures h' == Extend(h, t, e)
  {}

  const LOST_BEGUN := LOST.(
    logs := [[OLD_A], [], []], reigns := map[1 := Reign(0, {0, 1}, [], [OLD_A])], acks := map[Key(0, 1) := 1])

  lemma LostBegins(h: State)
    requires h == LOST.(logs := [[], [], []], reigns := map[1 := Reign(0, {0, 1}, [], [])], acks := map[Key(0, 1) := 0])
    ensures LOST_BEGUN == Extend(h, 1, OLD_A)
  {
    Extended(h, 1, OLD_A, LOST_BEGUN, 0, LOST_BEGUN.logs, LOST_BEGUN.reigns[1], LOST_BEGUN.acks);
  }

  lemma LostEnds()
    ensures LOST == Extend(LOST_BEGUN, 1, OLD_B)
  {
    Extended(LOST_BEGUN, 1, OLD_B, LOST, 0, LOST.logs, LOST.reigns[1], LOST.acks);
  }

  lemma LostReign()
    ensures Inv(LOST) && Shape(LOST)
  {
    var h := LostElection();
    LostBegins(h);
    Appends(h, LOST_BEGUN, 1, OLD_A);
    LostEnds();
    Appends(LOST_BEGUN, LOST, 1, OLD_B);
  }

  /** Server 1 has won term 2 without those entries and committed one of its own with server 2. */
  const NEW := State(
    [1, 2, 2], [[OLD_A, OLD_B], [NEWER], [NEWER]],
    map[Key(0, 1) := [], Key(1, 2) := []],
    map[Key(0, 1) := 0, Key(1, 1) := 0, Key(1, 2) := 1, Key(2, 2) := 1],
    map[1 := Reign(0, {0, 1}, [], [OLD_A, OLD_B]), 2 := Reign(1, {1, 2}, [], [NEWER])],
    map[Key(0, 1) := 2, Key(1, 2) := 1, Key(2, 2) := 1])

  lemma NewCampaign() returns (h: State)
    ensures Inv(h) && Shape(h)
    ensures h == LOST.(terms := [1, 2, 0], reqs := NEW.reqs, votes := LOST.votes[Key(1, 2) := 1])
  {
    LostReign();
    h := LOST.(terms := [1, 2, 0], reqs := NEW.reqs, votes := LOST.votes[Key(1, 2) := 1]);
    Asks(LOST, h, 1, 2);
  }

  lemma NewElection() returns (h: State)
    ensures Inv(h) && Shape(h)
    ensures h == NEW.(logs := LOST.logs, reigns := LOST.reigns[2 := Reign(1, {1, 2}, [], [])],
                      acks := LOST.acks[Key(1, 2) := 0])
  {
    var h1 := NewCampaign();
    var h2 := h1.(terms := NEW.terms, votes := NEW.votes);
    Votes(h1, h2, 2, 2, 1);
    h := h2.(reigns := LOST.reigns[2 := Reign(1, {1, 2}, [], [])], acks := LOST.acks[Key(1, 2) := 0]);
    Wins(h2, h, 1, 2, 2);
  }

  const NEW_BEGUN := NEW.(logs := [[OLD_A, OLD_B], [NEWER], []], acks := LOST.acks[Key(1, 2) := 1])

  lemma NewBegins(h: State)
    requires h == NEW.(logs := LOST.logs, reigns := LOST.reigns[2 := Reign(1, {1, 2}, [], [])],
                       acks := LOST.acks[Key(1, 2) := 0])
    ensures NEW_BEGUN == Extend(h, 2, NEWER)
  {
    Extended(h, 2, NEWER, NEW_BEGUN, 1, NEW_BEGUN.logs, NEW.reigns[2], NEW_BEGUN.acks);
  }

  lemma NewAccepted()
    ensures CanAccept(NEW_BEGUN, 2, 2, 2, 1) && NEW == Accept(NEW_BEGUN, 2, 2, 2, 1)
  {
    var log := [NEWER];
    assert log[..1] == log;
    assert NEW.logs == NEW_BEGUN.logs[2 := log];
    assert NEW.acks == NEW_BEGUN.acks[Key(2, 2) := 1];
  }

  lemma NewConfirmed()
    ensures Committed(NEW, 2, 1)
  {
    TwoOfThree({1, 2});
    assert Confirmed(NEW, 2, 1, {1, 2});
  }

  lemma NewReign()
    ensures Inv(NEW)
  {
    var h := NewElection();
    NewBegins(h);
    Appends(h, NEW_BEGUN, 2, NEWER);
    NewAccepted();
    AcceptKeeps(NEW_BEGUN, 2, 2, 2, 1);
  }

  /**
   The case the guard misses, in a history three servers can have: a receiver that was cut off keeps
   a stale suffix behind a committed prefix it never followed.
   */
  lemma StaleSuffixKept()
    ensures exists h: State, v: nat, t: nat, k: nat ::
      StaleAt(h, v, t, k)
  {
    NewReign();
    NewConfirmed();
    InstallKeepsMatching(NEW, NEW.logs[0], NEW.reigns[2].log[..1]);
    assert StaleAt(NEW, 0, 2, 1);
  }

  ghost predicate StaleAt(h: State, v: nat, t: nat, k: nat) {
    && Inv(h) && v < |h.logs| && Committed(h, t, k)
    && !Owned(h, Installed(h.logs[v], h.reigns[t].log[..k]))
  }

  // ----- What is kept is stale -----

  /**
   Behind a committed prefix that it does not match, a receiver keeps only entries of terms before
   the prefix was committed, and no leader from then on has that term at that index: the next
   shipment that reaches there replaces it.
   */
  lemma KeptSuffixIsStale(h: State, v: nat, t: nat, n: nat, prefix: Log, x: nat, w: nat)
    requires Inv(h) && v < |h.logs| && Committed(h, t, n) && prefix <= h.reigns[t].log[..n]
    requires |prefix| < |h.logs[v]| && TermAt(h.logs[v], |prefix|) != LastTerm(prefix)
    requires |prefix| <= x < |h.logs[v]|
    ensures h.logs[v][x].term < t
    ensures w in h.reigns && t <= w && x < |h.reigns[w].log| ==> h.reigns[w].log[x].term != h.logs[v][x].term
  {
    var u := h.logs[v][x].term;
    if t <= u {
      MatchesLater(h, h.logs[v], t, n, prefix, x, u);
    } else if w in h.reigns && t <= w && x < |h.reigns[w].log| && h.reigns[w].log[x].term == u {
      MatchesLater(h, h.logs[v], t, n, prefix, x, w);
    }
  }

  /** A log that shares an entry past the prefix with a leader from then on matches the prefix. */
  lemma MatchesLater(h: State, log: Log, t: nat, n: nat, prefix: Log, x: nat, w: nat)
    requires ReignsOk(h) && CompleteOk(h) && Owned(h, log) && Committed(h, t, n) && prefix <= h.reigns[t].log[..n]
    requires |prefix| <= x < |log| && t <= w
    requires w == log[x].term || (w in h.reigns && x < |h.reigns[w].log| && h.reigns[w].log[x].term == log[x].term)
    ensures TermAt(log, |prefix|) == LastTerm(prefix)
  {
    assert OwnedAt(h, log, x);
    CommittedInReign(h, t, n, w);
    assert ReignOk(h, w);
    OwnedMatch(h, log, h.reigns[w].log, x + 1);
    PrefixMatches(log, h.reigns[w].log, prefix, x);
  }

  lemma PrefixMatches(log: Log, leaderLog: Log, prefix: Log, x: nat)
    requires |prefix| <= x < |log| && x < |leaderLog| && log[..x + 1] == leaderLog[..x + 1] && prefix <= leaderLog
    ensures TermAt(log, |prefix|) == LastTerm(prefix)
  {
    assert log[..x + 1][..|prefix|] == leaderLog[..x + 1][..|prefix|] == prefix;
    if prefix != [] {
      assert log[..|prefix|][|prefix| - 1] == prefix[|prefix| - 1];
    }
  }
}
