/**
 * The rate-limiting work queue the mounters drive (workqueue.RateLimitingInterface),
 * reduced to the per-key state their workers read and write: the pending
 * keys in order, the keys marked dirty (added and not yet handed out), the
 * keys being processed, the per-key requeue count kept by the rate limiter,
 * and the keys waiting out their back-off. Timing is not modelled: a
 * waiting key is released by DelayElapsed.
 */
module WorkQueue {

  ghost predicate Distinct(s: seq<string>) {
    forall i, j :: 0 <= i < j < |s| ==> s[i] != s[j]
  }

  /** What Get returns: a key, the shut-down signal, or nothing yet (Get would block). */
  datatype GetResult = Item(key: string) | ShuttingDown | Empty

  class RateLimitingQueue {
    var pending: seq<string>
    var dirty: set<string>
    var processing: set<string>
    var requeues: map<string, nat>
    var waiting: seq<string>
    var shuttingDown: bool

    /**
     * Each key is pending at most once, and a key is pending exactly when
     * it is dirty and not being processed: a key re-added while it is
     * processed waits for Done.
     */
    ghost predicate Valid()
      reads this
    {
      && Distinct(pending)
      && (forall i :: 0 <= i < |pending| ==> pending[i] in dirty && pending[i] !in processing)
      && (forall k :: k in dirty && k !in processing ==> k in pending)
    }

    /** The queue after Add(key), relative to the state before it. */
    twostate predicate AddedKey(key: string)
      reads this
    {
      && pending == (if old(shuttingDown) || key in old(dirty) || key in old(processing)
                     then old(pending) else old(pending) + [key])
      && dirty == (if old(shuttingDown) then old(dirty) else old(dirty) + {key})
      && processing == old(processing) && requeues == old(requeues)
      && waiting == old(waiting) && shuttingDown == old(shuttingDown)
    }

    /** The queue is as it was. */
    twostate predicate Unchanged()
      reads this
    {
      && pending == old(pending) && dirty == old(dirty) && processing == old(processing)
      && requeues == old(requeues) && waiting == old(waiting) && shuttingDown == old(shuttingDown)
    }

    /** workqueue.NewRateLimitingQueue: everything empty. */
    constructor ()
      ensures Valid()
      ensures pending == [] && dirty == {} && processing == {} && requeues == map[] && waiting == []
      ensures !shuttingDown
    {
      pending, dirty, processing, requeues, waiting := [], {}, {}, map[], [];
      shuttingDown := false;
    }

    /** NumRequeues: how often the key went through AddRateLimited since it was last forgotten. */
    function NumRequeues(key: string): (n: nat)
      reads this
      ensures key !in requeues ==> n == 0
      ensures key in requeues ==> n == requeues[key]
    {
      if key in requeues then requeues[key] else 0
    }

    /**
     * Add: nothing once shutting down or when the key is already dirty
     * (coalescing); otherwise the key becomes dirty and, unless it is being
     * processed, joins the end of the pending keys.
     */
    method Add(key: string)
      requires Valid()
      modifies this
      ensures Valid()
      ensures AddedKey(key)
    {
      if shuttingDown || key in dirty {
        return;
      }
      dirty := dirty + {key};
      if key !in processing {
        pending := pending + [key];
      }
    }

    /**
     * Get: the first pending key, now being processed and no longer dirty;
     * with nothing pending, the shut-down signal or (while running) nothing.
     */
    method Get() returns (r: GetResult)
      requires Valid()
      modifies this
      ensures Valid()
      ensures old(pending) == [] ==> r == (if shuttingDown then ShuttingDown else Empty)
      ensures old(pending) == [] ==> pending == old(pending) && dirty == old(dirty) && processing == old(processing)
      ensures old(pending) != [] ==> r == Item(old(pending)[0])
      ensures old(pending) != [] ==>
                && pending == old(pending)[1..]
                && dirty == old(dirty) - {r.key}
                && processing == old(processing) + {r.key}
      ensures r.Item? ==> r.key !in old(processing)
      ensures requeues == old(requeues) && waiting == old(waiting) && shuttingDown == old(shuttingDown)
    {
      if pending == [] {
        r := if shuttingDown then ShuttingDown else Empty;
        return;
      }
      var key := pending[0];
      pending := pending[1..];
      processing := processing + {key};
      dirty := dirty - {key};
      r := Item(key);
    }

    /** Done: the key is no longer processed; if it was re-added meanwhile it becomes pending again. */
    method Done(key: string)
      requires Valid()
      requires key in processing
      modifies this
      ensures Valid()
      ensures processing == old(processing) - {key}
      ensures pending == if key in old(dirty) then old(pending) + [key] else old(pending)
      ensures dirty == old(dirty) && requeues == old(requeues)
      ensures waiting == old(waiting) && shuttingDown == old(shuttingDown)
    {
      processing := processing - {key};
      if key in dirty {
        pending := pending + [key];
      }
    }

    /** Forget: the rate limiter drops the key's failure count. */
    method Forget(key: string)
      modifies this
      ensures requeues == old(requeues) - {key}
      ensures NumRequeues(key) == 0
      ensures pending == old(pending) && dirty == old(dirty) && processing == old(processing)
      ensures waiting == old(waiting) && shuttingDown == old(shuttingDown)
    {
      requeues := requeues - {key};
    }

    /**
     * AddRateLimited: the failure count goes up by one and the key waits out
     * its back-off before it is added again (a queue that is shutting down
     * takes no delayed adds).
     */
    method AddRateLimited(key: string)
      modifies this
      ensures requeues == old(requeues)[key := old(NumRequeues(key)) + 1]
      ensures NumRequeues(key) == old(NumRequeues(key)) + 1
      ensures waiting == if old(shuttingDown) then old(waiting) else old(waiting) + [key]
      ensures pending == old(pending) && dirty == old(dirty) && processing == old(processing)
      ensures shuttingDown == old(shuttingDown)
    {
      requeues := requeues[key := NumRequeues(key) + 1];
      if !shuttingDown {
        waiting := waiting + [key];
      }
    }

    /** The back-off of the `i`-th waiting key has elapsed: it is added. */
    method DelayElapsed(i: nat)
      requires Valid()
      requires i < |waiting|
      modifies this
      ensures Valid()
      ensures waiting == old(waiting[..i] + waiting[i + 1..])
      ensures var key := old(waiting[i]);
              && pending == (if old(shuttingDown) || key in old(dirty) || key in old(processing)
                             then old(pending) else old(pending) + [key])
              && dirty == (if old(shuttingDown) then old(dirty) else old(dirty) + {key})
      ensures processing == old(processing) && requeues == old(requeues)
      ensures shuttingDown == old(shuttingDown)
    {
      var key := waiting[i];
      waiting := waiting[..i] + waiting[i + 1..];
      Add(key);
    }

    /** ShutDown: no further adds are taken, and Get reports the shut-down once drained. */
    method ShutDown()
      modifies this
      ensures shuttingDown
      ensures pending == old(pending) && dirty == old(dirty) && processing == old(processing)
      ensures requeues == old(requeues) && waiting == old(waiting)
    {
      shuttingDown := true;
    }
  }
}
