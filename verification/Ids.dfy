/**
  Names shared by every component.  Senna's identifiers are UUID strings and
  key suffixes; only their equality matters, so they are numbers here.
 */
module Ids {
  type BatchId = nat
  type QueueName = nat
  type WorkerId = nat

  /** A member of a batch's jobs or callbacks set: a job, a linked child batch,
      or the n-th callback job that a batch issued ("<batch>:callback:<n>"). */
  datatype Id =
    | Job(n: nat)
    | Child(batch: BatchId)
    | Callback(batch: BatchId, n: nat)

  datatype Option<+T> = None | Some(value: T)
}
