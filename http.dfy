/** The JSON responses the handlers return, and what a handler leaves behind. */
module Http {
  import opened Jobs

  datatype Body =
    | Summary(totalSessions: nat, completedSessions: nat, uniquePaidJobs: nat, processedJobs: nat)
    | Received
    | Error(message: string)

  datatype Response = Response(status: int, body: Body)

  /** A handler's response together with the jobs table it leaves. */
  datatype Outcome = Outcome(response: Response, rows: Table)
}
