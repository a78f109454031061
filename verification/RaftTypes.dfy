/** Log entries and the arithmetic of absolute log indices. */
module RaftTypes {
  import opened Commands

  datatype Entry = Entry(term: nat, command: Option<Command>)

  /** An uncompacted log; absolute index k >= 1 is element k-1, index 0 is the sentinel. */
  type Log = seq<Entry>

  /** The term at an absolute index; the sentinel at index 0 has term 0. */
  function TermAt(log: Log, k: nat): nat
    requires k <= |log|
  {
    if k == 0 then 0 else log[k - 1].term
  }

  function LastTerm(log: Log): nat {
    TermAt(log, |log|)
  }

  /** The voting restriction: a candidate's last (term, index) is at least the voter's. */
  predicate UpToDate(lastTerm: nat, lastIndex: nat, log: Log) {
    lastTerm > LastTerm(log) || (lastTerm == LastTerm(log) && lastIndex >= |log|)
  }

  ghost predicate Monotone(log: Log) {
    forall i, j :: 0 <= i <= j < |log| ==> log[i].term <= log[j].term
  }
}
