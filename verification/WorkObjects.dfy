/** Work items and work queues. One class stands for both plain and delayable
    items: a plain item is one that is never scheduled. */
module WorkObjects {

  datatype Flags = Flags(running: bool, canceling: bool, queued: bool, delayed: bool) {
    /** The mask the query and cancel calls return. */
    function Bits(): (r: nat)
      ensures r == 0 <==> !running && !canceling && !queued && !delayed
      ensures r % 2 == 1 <==> running
      ensures r / 2 % 2 == 1 <==> canceling
      ensures r / 4 % 2 == 1 <==> queued
      ensures r / 8 == if delayed then 1 else 0
    {
      (if running then 1 else 0) + (if canceling then 2 else 0) + (if queued then 4 else 0) + (if delayed then 8 else 0)
    }
  }

  const IDLE := Flags(false, false, false, false)

  class Work {
    const magic: bool              // initialised by the library
    const handler: bool            // has a handler function
    const sync: bool               // its completion semaphore exists
    var flags: Flags
    var submissionId: nat          // unsigned 32-bit counters
    var runningId: nat
    var completionId: nat
    var queue: WorkQueue?          // most recently selected work queue
    var delayQueue: WorkQueue?     // queue selected for delayed submission
    var deadline: nat              // 32-bit tick

    constructor (handler: bool, sync: bool)
      ensures magic && this.handler == handler && this.sync == sync
      ensures flags == IDLE && submissionId == runningId == completionId == 0
      ensures queue == null && delayQueue == null && deadline == 0
    {
      this.magic, this.handler, this.sync := true, handler, sync;
      flags := IDLE;
      submissionId, runningId, completionId := 0, 0, 0;
      queue, delayQueue, deadline := null, null, 0;
    }
  }

  /** A node of the immediate list: a work item, or the worker's stop marker. */
  datatype Link = Of(work: Work) | Stop

  class WorkQueue {
    var fifo: seq<Link>
    var count: nat
    var delayed: seq<Work>
    var current: Work?
    var started: bool
    var stopping: bool
    var draining: bool
    var plugged: bool

    /** Zeroed storage, before the queue is started. */
    constructor ()
      ensures fifo == [] && count == 0 && delayed == [] && current == null
      ensures !started && !stopping && !draining && !plugged
    {
      fifo, count, delayed, current := [], 0, [], null;
      started, stopping, draining, plugged := false, false, false, false;
    }
  }
}
