/**
 * Per-account job metrics: the queue listing folded by the account in its
 * second column.
 */
module Accounts {
  import Text
  import opened QueueListing

  /** The counters kept per account. */
  type AccountMetrics = JobMetrics

  /**
   * `ParseAccountsMetrics`: the accounts that occur on lines with four or
   * more fields, each with its pending, running and suspended job counts
   * and the cpus, gpus and memory of its running jobs.
   */
  method ParseAccountsMetrics(input: string) returns (accounts: map<string, AccountMetrics>)
    ensures accounts == QueueTotals(input)
    ensures accounts.Keys == Entities(QueueRecords(input))
    ensures forall a :: a in accounts ==> accounts[a] == Tally(QueueRecords(input), a)
  {
    accounts := ParseQueueMetrics(input);
    AggregateIsTally(Text.Lines(input));
  }
}
