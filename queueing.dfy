/** The `:default` job queue, seen only as the record ids handed to `perform_later`. */
module Queueing {

  class JobQueue {
    /** Ids of the records enqueued so far, oldest first. */
    var enqueued: seq<nat>

    constructor ()
      ensures enqueued == []
    {
      enqueued := [];
    }

    /** `perform_later(record)`: one more job for the record with this id. */
    method PerformLater(id: nat)
      modifies this
      ensures enqueued == old(enqueued) + [id]
    {
      enqueued := enqueued + [id];
    }
  }
}
