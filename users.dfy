/**
 * Per-user job metrics: the queue listing folded by the user in its
 * second column.
 */
module Users {
  import Text
  import opened QueueListing

  /** The counters kept per user. */
  type UserJobMetrics = JobMetrics

  /**
   * `ParseUsersMetrics`: the users that occur on lines with four or
   * more fields, each with its pending, running and suspended job counts
   * and the cpus, gpus and memory of its running jobs.
   */
  method ParseUsersMetrics(input: string) returns (users: map<string, UserJobMetrics>)
    ensures users == QueueTotals(input)
    ensures users.Keys == Entities(QueueRecords(input))
    ensures forall u :: u in users ==> users[u] == Tally(QueueRecords(input), u)
  {
    users := ParseQueueMetrics(input);
    AggregateIsTally(Text.Lines(input));
  }
}
