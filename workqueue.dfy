/** The rate-limited work queue the controller uses, seen through its interface: `Add`, `Get`,
    `Done`, `Forget`, `AddRateLimited`, `ShutDown`. The state is abstract: the set of items
    waiting to be handed out, the set handed out and not yet `Done`, the items waiting out a
    back-off, and the per-item failure counts. A ghost log records every call. */
module WorkQueue {
  import opened Types

  /** A queued item: the controller queues "namespace/name" strings, but the queue holds `interface{}`. */
  datatype Item = KeyItem(key: string) | NonString(id: nat)

  datatype Call =
    | AddCall(item: Item)
    | GetCall(item: Item)
    | GetShutdownCall
    | DoneCall(item: Item)
    | ForgetCall(item: Item)
    | AddRateLimitedCall(item: Item)
    | ShutDownCall

  /** `counts` with one more failure of `item`. */
  function Bump(counts: map<Item, nat>, item: Item): map<Item, nat> {
    counts[item := (if item in counts then counts[item] else 0) + 1]
  }

  class RateLimitingQueue {
    /** Added and not yet handed out; an item in `processing` too is handed out only after `Done`. */
    var pending: set<Item>
    /** Handed out by `Get`, `Done` not yet called. */
    var processing: set<Item>
    /** Re-added by `AddRateLimited`, back-off not yet elapsed. */
    var waiting: set<Item>
    /** Consecutive failures per item, which set the back-off; `Forget` clears them. */
    var requeues: map<Item, nat>
    var shuttingDown: bool
    ghost var calls: seq<Call>

    constructor ()
      ensures pending == {} && processing == {} && waiting == {} && requeues == map[]
      ensures !shuttingDown && calls == []
    {
      pending, processing, waiting, requeues := {}, {}, {}, map[];
      shuttingDown := false;
      calls := [];
    }

    /** `Get` blocks until it has an item to hand out or the queue shuts down. */
    predicate CanGet()
      reads this
    {
      pending - processing != {} || shuttingDown
    }

    /** The whole effect of `Add(item)`. */
    twostate predicate AddedOnly(item: Item)
      reads this
    {
      && pending == (if old(shuttingDown) then old(pending) else old(pending) + {item})
      && processing == old(processing) && waiting == old(waiting) && requeues == old(requeues)
      && shuttingDown == old(shuttingDown)
      && calls == old(calls) + [AddCall(item)]
    }

    /** Marks `item` as needing processing; a no-op once shutting down, and coalesced with an
        earlier `Add` of the same item that has not been handed out. */
    method Add(item: Item)
      modifies this
      ensures AddedOnly(item)
    {
      if !shuttingDown {
        pending := pending + {item};
      }
      calls := calls + [AddCall(item)];
    }

    /** Hands out an item that is pending and not being processed, or reports shutdown (`None`)
        when there is none and the queue is shutting down. No item is handed out twice
        without a `Done` in between. */
    method Get() returns (item: Option<Item>)
      requires CanGet()
      modifies this
      ensures item.None? <==> old(pending - processing) == {}
      ensures item.None? ==> pending == old(pending) && processing == old(processing)
      ensures item.None? ==> calls == old(calls) + [GetShutdownCall]
      ensures item.Some? ==> item.value in old(pending) && item.value !in old(processing)
      ensures item.Some? ==> pending == old(pending) - {item.value}
      ensures item.Some? ==> processing == old(processing) + {item.value}
      ensures item.Some? ==> calls == old(calls) + [GetCall(item.value)]
      ensures waiting == old(waiting) && requeues == old(requeues) && shuttingDown == old(shuttingDown)
    {
      if pending - processing == {} {
        item := None;
        calls := calls + [GetShutdownCall];
      } else {
        var x :| x in pending - processing;
        item := Some(x);
        pending := pending - {x};
        processing := processing + {x};
        calls := calls + [GetCall(x)];
      }
    }

    /** Ends the processing of `item`; if it was added again meanwhile it can be handed out again. */
    method Done(item: Item)
      modifies this
      ensures processing == old(processing) - {item}
      ensures pending == old(pending) && waiting == old(waiting) && requeues == old(requeues)
      ensures shuttingDown == old(shuttingDown)
      ensures calls == old(calls) + [DoneCall(item)]
    {
      processing := processing - {item};
      calls := calls + [DoneCall(item)];
    }

    /** Clears the failure count of `item`. */
    method Forget(item: Item)
      modifies this
      ensures requeues == old(requeues) - {item}
      ensures pending == old(pending) && processing == old(processing) && waiting == old(waiting)
      ensures shuttingDown == old(shuttingDown)
      ensures calls == old(calls) + [ForgetCall(item)]
    {
      requeues := requeues - {item};
      calls := calls + [ForgetCall(item)];
    }

    /** Counts one more failure of `item` and re-adds it after a back-off (exponential in that
        count); nothing is re-added once shutting down. */
    method AddRateLimited(item: Item)
      modifies this
      ensures requeues == Bump(old(requeues), item)
      ensures waiting == (if old(shuttingDown) then old(waiting) else old(waiting) + {item})
      ensures pending == old(pending) && processing == old(processing)
      ensures shuttingDown == old(shuttingDown)
      ensures calls == old(calls) + [AddRateLimitedCall(item)]
    {
      var n := if item in requeues then requeues[item] else 0;
      requeues := requeues[item := n + 1];
      if !shuttingDown {
        waiting := waiting + {item};
      }
      calls := calls + [AddRateLimitedCall(item)];
    }

    /** Stops accepting items; `Get` keeps handing out what is pending, then reports shutdown. */
    method ShutDown()
      modifies this
      ensures shuttingDown
      ensures pending == old(pending) && processing == old(processing) && waiting == old(waiting)
      ensures requeues == old(requeues)
      ensures calls == old(calls) + [ShutDownCall]
    {
      shuttingDown := true;
      calls := calls + [ShutDownCall];
    }
  }
}
