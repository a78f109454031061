/**
 The protocol stripped of messages and volatile state: every server has a term and an
 uncompacted log, and four history maps remember what has been promised so far. Each
 server action of the implementation is one of the six moves below (or none).
 */
module History {
  import opened RaftTypes
  import opened Quorum

  /** A server together with a term. */
  datatype Key = Key(id: nat, term: nat)

  /** A won election: who leads, who voted, the log at the election and the log by now. */
  datatype Reign = Reign(leader: nat, voters: set<nat>, start: Log, log: Log)

  /**
   terms, logs: each server's current term and uncompacted log;
   reqs: the log a candidate asked votes for, per candidacy;
   votes: the candidate a server voted for, per term;
   reigns: the won elections, per term;
   acks: the highest index a server has confirmed to the leader of a term.
   */
  datatype State = State(
    terms: seq<nat>,
    logs: seq<Log>,
    reqs: map<Key, Log>,
    votes: map<Key, nat>,
    reigns: map<nat, Reign>,
    acks: map<Key, nat>)

  function Acked(h: State, v: nat, t: nat): nat {
    if Key(v, t) in h.acks then h.acks[Key(v, t)] else 0
  }

  // ----- Properties -----

  ghost predicate OwnedAt(h: State, log: Log, k: nat)
    requires k < |log|
  {
    log[k].term in h.reigns && log[..k + 1] <= h.reigns[log[k].term].log
  }

  /** Every entry, with everything before it, comes from the log of the leader of its term. */
  ghost predicate Owned(h: State, log: Log) {
    forall k: nat :: k < |log| ==> OwnedAt(h, log, k)
  }

  /** Index n of the leader log of term t holds an entry the leader created itself. */
  ghost predicate OwnEntry(h: State, t: nat, n: nat) {
    t in h.reigns && 1 <= n <= |h.reigns[t].log| && h.reigns[t].log[n - 1].term == t
  }

  ghost predicate Supports(h: State, t: nat, n: nat, v: nat) {
    v < |h.terms| && (h.terms[v] <= t || Acked(h, v, t) >= n)
  }

  ghost predicate Backed(h: State, t: nat, n: nat, q: set<nat>) {
    Majority(|h.terms|, q) && forall v :: v in q ==> Supports(h, t, n, v)
  }

  /** Some majority has confirmed index n to the leader of term t, or may still do so. */
  ghost predicate Choosable(h: State, t: nat, n: nat) {
    exists q :: Backed(h, t, n, q)
  }

  ghost predicate Confirmed(h: State, t: nat, n: nat, q: set<nat>) {
    Majority(|h.terms|, q) && forall v :: v in q ==> Acked(h, v, t) >= n
  }

  /** Index n of the leader log of term t was confirmed by a majority, and is of term t. */
  ghost predicate Committed(h: State, t: nat, n: nat) {
    OwnEntry(h, t, n) &&
    exists q :: Confirmed(h, t, n, q)
  }

  // ----- The invariant, clause by clause -----

  ghost predicate Shape(h: State) {
    |h.logs| == |h.terms|
  }

  ghost predicate VotesOk(h: State) {
    forall k :: k in h.votes ==>
      k.id < |h.terms| && k.term <= h.terms[k.id] && Key(h.votes[k], k.term) in h.reqs
  }

  ghost predicate ReqsOk(h: State) {
    forall k :: k in h.reqs ==>
      && k.id < |h.terms| && k.term <= h.terms[k.id]
      && k in h.votes && h.votes[k] == k.id
      && Owned(h, h.reqs[k])
  }

  ghost predicate VotedFor(h: State, v: nat, t: nat, c: nat) {
    Key(v, t) in h.votes && h.votes[Key(v, t)] == c
  }

  ghost predicate ReignOk(h: State, t: nat)
    requires t in h.reigns
  {
    var r := h.reigns[t];
    && Majority(|h.terms|, r.voters)
    && (forall v :: v in r.voters ==> VotedFor(h, v, t, r.leader))
    && Key(r.leader, t) in h.reqs && h.reqs[Key(r.leader, t)] == r.start
    && r.start <= r.log
    && (forall k: nat :: k < |r.start| ==> r.start[k].term < t)
    && (forall k: nat :: |r.start| <= k < |r.log| ==> r.log[k].term == t)
    && Acked(h, r.leader, t) == |r.log|
    && Owned(h, r.log)
  }

  ghost predicate ReignsOk(h: State) {
    forall t :: t in h.reigns ==> ReignOk(h, t)
  }

  ghost predicate LogsOk(h: State) {
    forall v: nat :: v < |h.logs| ==> Owned(h, h.logs[v])
  }

  /** A candidacy whose log already holds an entry of its own term or later cannot win. */
  ghost predicate LateAt(h: State, c: Key, k: nat, v: nat)
    requires c in h.reqs && k < |h.reqs[c]|
  {
    var t := h.reqs[c][k].term;
    t >= c.term && t in h.reigns && v in h.reigns[t].voters ==> !VotedFor(h, v, c.term, c.id)
  }

  ghost predicate LateOk(h: State) {
    forall c, k: nat, v :: c in h.reqs && k < |h.reqs[c]| ==> LateAt(h, c, k, v)
  }

  ghost predicate AcksOk(h: State) {
    forall k :: k in h.acks ==>
      && k.id < |h.terms| && k.term <= h.terms[k.id]
      && k.term in h.reigns && h.acks[k] <= |h.reigns[k.term].log|
  }

  /** Index n of reign t is the leader's own entry and is, or may become, committed. */
  ghost predicate Live(h: State, t: nat, n: nat) {
    OwnEntry(h, t, n) && Choosable(h, t, n)
  }

  /** A server keeps what it confirmed for as long as that could be committed. */
  ghost predicate RetainedAt(h: State, v: nat, t: nat, n: nat) {
    v < |h.logs| && Live(h, t, n) && Acked(h, v, t) >= n ==> h.reigns[t].log[..n] <= h.logs[v]
  }

  ghost predicate RetainedOk(h: State) {
    forall v: nat, t: nat, n: nat :: RetainedAt(h, v, t, n)
  }

  /** A candidate that got a vote holds everything its voter had confirmed before. */
  ghost predicate CoveredAt(h: State, v: nat, w: nat, t: nat, n: nat) {
    && Key(v, w) in h.votes && Key(h.votes[Key(v, w)], w) in h.reqs && t < w
    && Live(h, t, n) && Acked(h, v, t) >= n
    ==>
    h.reigns[t].log[..n] <= h.reqs[Key(h.votes[Key(v, w)], w)]
  }

  ghost predicate CoveredOk(h: State) {
    forall v: nat, w: nat, t: nat, n: nat :: CoveredAt(h, v, w, t, n)
  }

  /** Leader completeness, for every entry that is or may become committed. */
  ghost predicate CompleteAt(h: State, t: nat, n: nat, w: nat) {
    Live(h, t, n) && w in h.reigns && t < w ==> h.reigns[t].log[..n] <= h.reigns[w].start
  }

  ghost predicate CompleteOk(h: State) {
    forall t: nat, n: nat, w: nat :: CompleteAt(h, t, n, w)
  }

  ghost predicate Inv(h: State) {
    && Shape(h) && VotesOk(h) && ReqsOk(h) && ReignsOk(h) && LogsOk(h)
    && LateOk(h) && AcksOk(h) && RetainedOk(h) && CoveredOk(h) && CompleteOk(h)
  }

  // ----- The moves -----

  /** A server learns of a higher term. */
  function Raise(h: State, v: nat, t: nat): State
    requires v < |h.terms|
  {
    h.(terms := h.terms[v := t])
  }

  /** A server starts an election in a new term and votes for itself. */
  function Campaign(h: State, c: nat, t: nat): State
    requires Shape(h) && c < |h.terms|
  {
    h.(terms := h.terms[c := t],
       reqs := h.reqs[Key(c, t) := h.logs[c]],
       votes := h.votes[Key(c, t) := c])
  }

  ghost predicate CanGrant(h: State, v: nat, t: nat, c: nat) {
    && v < |h.terms| && Shape(h) && h.terms[v] <= t
    && Key(c, t) in h.reqs
    && (Key(v, t) in h.votes ==> h.votes[Key(v, t)] == c)
    && UpToDate(LastTerm(h.reqs[Key(c, t)]), |h.reqs[Key(c, t)]|, h.logs[v])
  }

  /** A server votes. */
  function Grant(h: State, v: nat, t: nat, c: nat): State
    requires v < |h.terms|
  {
    h.(terms := h.terms[v := t], votes := h.votes[Key(v, t) := c])
  }

  ghost predicate CanElect(h: State, c: nat, t: nat, q: set<nat>) {
    && c < |h.terms| && h.terms[c] == t && Majority(|h.terms|, q) && t !in h.reigns
    && Key(c, t) in h.reqs
    && forall v :: v in q ==> VotedFor(h, v, t, c)
  }

  /** A candidate has collected a majority. */
  function Elect(h: State, c: nat, t: nat, q: set<nat>): State
    requires Key(c, t) in h.reqs
  {
    var log := h.reqs[Key(c, t)];
    h.(reigns := h.reigns[t := Reign(c, q, log, log)], acks := h.acks[Key(c, t) := |log|])
  }

  ghost predicate CanExtend(h: State, t: nat, e: Entry) {
    && t in h.reigns && e.term == t
    && var c := h.reigns[t].leader;
    c < |h.terms| && Shape(h) && h.terms[c] == t && h.logs[c] == h.reigns[t].log
  }

  /** The leader of term t appends an entry to its own log. */
  function Extend(h: State, t: nat, e: Entry): State
    requires t in h.reigns && h.reigns[t].leader < |h.logs|
  {
    var r := h.reigns[t];
    var log := r.log + [e];
    h.(logs := h.logs[r.leader := log],
       reigns := h.reigns[t := r.(log := log)],
       acks := h.acks[Key(r.leader, t) := |log|])
  }

  /** What is left of a log after a leader's first m entries were shipped to it. */
  function Overwrite(log: Log, leaderLog: Log, m: nat): Log
    requires m <= |leaderLog|
  {
    if leaderLog[..m] <= log then log else leaderLog[..m]
  }

  ghost predicate CanAccept(h: State, v: nat, t: nat, src: nat, m: nat) {
    && v < |h.terms| && Shape(h) && h.terms[v] <= t <= src
    && src in h.reigns && m <= |h.reigns[src].log|
  }

  /**
   A server takes over the first m entries of the log of reign src, in a message labelled
   with term t. Only a message labelled with the term of the shipped log is a confirmation.
   */
  function Accept(h: State, v: nat, t: nat, src: nat, m: nat): State
    requires v < |h.terms| && Shape(h) && src in h.reigns && m <= |h.reigns[src].log|
  {
    var log := Overwrite(h.logs[v], h.reigns[src].log, m);
    h.(terms := h.terms[v := t],
       logs := h.logs[v := log],
       acks := if src == t then h.acks[Key(v, t) := if m > Acked(h, v, t) then m else Acked(h, v, t)]
               else h.acks)
  }
}
