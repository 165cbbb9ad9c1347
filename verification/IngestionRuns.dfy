/** The status of an ingestion run, shared by the backfills and the collector. */
module IngestionRuns {

  datatype Status = RunRunning | RunSucceeded | RunFailed

  /** Starting a run that exists already resumes it if it had failed, and leaves it alone otherwise. */
  function Resumed(status: Status): Status {
    if status.RunFailed? then RunRunning else status
  }
}
