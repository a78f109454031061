/**
 The replicated store as the implementation keeps it: maps updated in place under a lock, and a
 table of the channels on which submitters wait.
 */
module Store {
  import opened Commands
  import opened RaftTypes
  import opened RaftNode
  import opened RaftServer
  import opened Replicas

  /** A channel with room for one value; a second send would block forever. */
  class Channel {
    var buffer: Option<Outcome>

    constructor ()
      ensures buffer == None
    {
      buffer := None;
    }

    method Send(outcome: Outcome)
      requires buffer.None?
      modifies this
      ensures buffer == Some(outcome)
    {
      buffer := Some(outcome);
    }
  }

  lemma Fewer<K, V>(m: map<K, V>, k: K)
    requires k in m
    ensures |m - {k}| < |m|
  {
    assert (m - {k}).Keys == m.Keys - {k};
  }

  datatype Waiter = Waiter(ch: Channel, reqId: string)

  /** What Raft sends up: a snapshot to install, or the command at an index. */
  datatype Message =
    | Snapshot(data: Option<StoreState>)
    | Committed(command: Option<Command>, index: nat)

  class Store {
    const rf: Server?
    var jobs: map<string, Job>
    var runs: map<string, seq<RunRecord>>
    var pending: map<nat, Waiter>
    var applyCount: nat

    ghost function Channels(): set<Channel>
      reads this
    {
      set index | index in pending :: pending[index].ch
    }

    /** No two waiters share a channel, and nothing has been sent to a channel still in the table. */
    ghost predicate Valid()
      reads this, Channels()
    {
      && (forall i, j :: i in pending && j in pending && i != j ==> pending[i].ch != pending[j].ch)
      && (forall i :: i in pending ==> pending[i].ch.buffer.None?)
    }

    ghost function State(): StoreState
      reads this
    {
      StoreState(jobs, runs)
    }

    ghost function Abs(): Replica
      reads this
    {
      Replica(State(), Waiting(), applyCount)
    }

    ghost function Waiting(): map<nat, string>
      reads this
    {
      map index | index in pending :: pending[index].reqId
    }

    /** Boots from the saved snapshot, if there is one. */
    constructor (rf: Server?, persister: Persister?)
      ensures Valid() && fresh(this) && this.rf == rf
      ensures Abs() == Replica(if persister == null || persister.snapshot.None? then EMPTY else persister.snapshot.value,
                               map[], 0)
    {
      this.rf := rf;
      jobs, runs, pending, applyCount := map[], map[], map[], 0;
      new;
      if persister != null {
        InstallSnapshot(persister.snapshot);
      }
    }

    // ----- Submitting -----

    /**
     The part of a submission that runs under the lock. The submitter is refused at once when
     the server does not lead; otherwise it waits on ch for the outcome at index.
     */
    method Submit(cmd: Command) returns (ch: Channel?, index: int)
      requires Valid() && (rf != null ==> rf.Valid() && rf.Durable())
      modifies this`pending, rf, if rf == null then {} else {rf.persister}
      ensures Valid()
      ensures rf != null ==> rf.Valid() && rf.Durable() && rf.Abs() == OnStart(old(rf.Abs()), cmd)
      ensures ch == null <==> rf == null || rf.Abs().role != Leader
      ensures ch == null ==> pending == old(pending)
      ensures ch != null ==>
        && fresh(ch) && ch.buffer == None && index == |rf.Abs().log|
        && rf.Abs().log[index - 1] == Entry(rf.Abs().term, Some(cmd))
        && pending == old(pending)[index := Waiter(ch, cmd.reqId)]
    {
      if rf == null {
        return null, -1;
      }
      var term, isLeader;
      index, term, isLeader := rf.Start(cmd);
      if !isLeader {
        return null, -1;
      }
      ch := new Channel();
      pending := pending[index := Waiter(ch, cmd.reqId)];
    }

    /** A submitter that waited too long removes whatever waits at its index. */
    method GiveUp(index: nat)
      requires Valid()
      modifies this`pending
      ensures Valid() && pending == old(pending) - {index}
    {
      pending := pending - {index};
    }

    // ----- Applying -----

    /** Without a Raft peer the store counts on and takes no snapshots. */
    ghost function ApplyHere(r: Replica, cmd: Command, index: nat): Replica {
      if rf == null then OnApply(r, cmd, index).(count := r.count + 1) else OnApply(r, cmd, index)
    }

    ghost function DueHere(r: Replica, cmd: Command, index: nat): Option<(nat, StoreState)> {
      if rf == null then None else Due(r, cmd, index)
    }

    /** One message from Raft, and the snapshot that becomes due. */
    method Receive(m: Message) returns (due: Option<(nat, StoreState)>)
      requires Valid()
      modifies this, Channels()
      ensures Valid()
      ensures m.Committed? && m.command.Some? ==>
        && Abs() == ApplyHere(old(Abs()), m.command.value, m.index)
        && due == DueHere(old(Abs()), m.command.value, m.index)
        && (m.index in old(pending) ==>
              old(pending[m.index].ch).buffer == Some(Verdict(old(pending[m.index].reqId), m.command.value)))
      ensures m.Committed? && m.command.None? ==>
        Abs() == old(Abs()) && forall ch :: ch in old(Channels()) ==> ch.buffer == None
      ensures m.Snapshot? ==>
        && State() == (if m.data.None? then old(State()) else m.data.value) && pending == map[]
        && forall ch :: ch in old(Channels()) ==> ch.buffer == Some(ErrNotLeader)
    {
      due := None;
      if m.Snapshot? {
        InstallSnapshot(m.data);
        FailAll();
      } else if m.command.Some? {
        due := ApplyCommand(m.command.value, m.index);
      }
    }

    /** Takes the waiter at index out of the table and tells it the outcome. */
    method Tell(index: nat, outcome: Outcome)
      requires Valid() && index in pending
      modifies this`pending, pending[index].ch
      ensures Valid() && pending == old(pending) - {index}
      ensures old(pending[index].ch).buffer == Some(outcome)
      ensures Waiting() == old(Waiting()) - {index} && Channels() == old(Channels()) - {old(pending[index].ch)}
    {
      var entry := pending[index];
      pending := pending - {index};
      entry.ch.Send(outcome);
      forall ch | ch in old(Channels()) && ch != entry.ch
        ensures ch in Channels()
      {
        var i :| i in old(pending) && old(pending)[i].ch == ch;
        assert i in pending && pending[i].ch == ch;
      }
    }

    /** A server that receives a snapshot does not lead: every submitter is refused. */
    method FailAll()
      requires Valid()
      modifies this`pending, Channels()
      ensures Valid() && pending == map[]
      ensures forall ch :: ch in old(Channels()) ==> ch.buffer == Some(ErrNotLeader)
    {
      while pending != map[]
        invariant Valid() && Channels() <= old(Channels())
        invariant forall ch :: ch in old(Channels()) ==> ch in Channels() || ch.buffer == Some(ErrNotLeader)
        modifies this`pending, Channels()
        decreases |pending|
      {
        var index :| index in pending;
        Fewer(pending, index);
        Tell(index, ErrNotLeader);
      }
    }

    method ApplyCommand(cmd: Command, index: nat) returns (due: Option<(nat, StoreState)>)
      requires Valid()
      modifies this, Channels()
      ensures Valid() && Abs() == ApplyHere(old(Abs()), cmd, index)
      ensures due == DueHere(old(Abs()), cmd, index)
      ensures index in old(pending) ==>
        old(pending[index].ch).buffer == Some(Verdict(old(pending[index].reqId), cmd))
    {
      Mutate(cmd);
      if index in pending {
        Tell(index, if cmd.reqId == pending[index].reqId then Success else ErrNotLeader);
      }
      assert Waiting() == old(Waiting()) - {index};
      due := None;
      applyCount := applyCount + 1;
      if rf != null && applyCount >= SNAP_THRESHOLD {
        var data := EncodeSnapshot();
        due := Some((index, data));
        applyCount := 0;
      }
    }

    /** The state change of one command. */
    method Mutate(cmd: Command)
      modifies this`jobs, this`runs
      ensures State() == Apply(old(State()), cmd)
    {
      match cmd {
        case Upsert(_, job) =>
          jobs := jobs[job.id := job];
        case Delete(_, id) =>
          jobs := jobs - {id};
          runs := runs - {id};
        case Record(_, r) =>
          if r.jobId in jobs {
            var j := jobs[r.jobId];
            jobs := jobs[r.jobId := j.(lastRun := r.startedAt, lastStatus := r.status)];
          }
          runs := runs[r.jobId := (if r.jobId in runs then runs[r.jobId] else []) + [r]];
          if |runs[r.jobId]| > MAX_RUNS {
            runs := runs[r.jobId := runs[r.jobId][|runs[r.jobId]| - MAX_RUNS..]];
          }
      }
    }

    // ----- Snapshots -----

    method EncodeSnapshot() returns (data: StoreState)
      ensures data == State()
    {
      data := StoreState(jobs, runs);
    }

    /** An empty snapshot is ignored. */
    method InstallSnapshot(data: Option<StoreState>)
      modifies this`jobs, this`runs
      ensures State() == if data.None? then old(State()) else data.value
    {
      if data.None? {
        return;
      }
      jobs := data.value.jobs;
      runs := data.value.runs;
    }
  }
}
