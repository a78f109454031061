/** The commands that flow through the replicated log, and the records they carry. */
module Commands {

  datatype Option<+T> = None | Some(value: T)

  /** Instants are integers counted from the zero time, so 0 is the zero time. */
  type Instant = int

  const ZERO_TIME: Instant := 0

  datatype Job = Job(
    id: string,
    name: string,
    cronExpr: string,
    executor: string,
    payload: string,
    catchupPolicy: string,
    nextRun: Instant,
    lastRun: Instant,
    lastStatus: string,
    createdAt: Instant)

  datatype RunRecord = RunRecord(
    jobId: string,
    startedAt: Instant,
    finishedAt: Instant,
    exitCode: int,
    output: string,
    status: string)

  /** One constructor per command type; `reqId` is unique per submission. */
  datatype Command =
    | Upsert(reqId: string, job: Job)
    | Delete(reqId: string, id: string)
    | Record(reqId: string, run: RunRecord)

  /** The replicated state, in the decoded form of a snapshot. */
  datatype StoreState = StoreState(jobs: map<string, Job>, runs: map<string, seq<RunRecord>>)
}
