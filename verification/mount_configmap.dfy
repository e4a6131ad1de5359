/**
 * mount_configmap.go: the informer-driven ConfigMap mounter. Event handlers
 * put keys on a rate-limiting queue; a worker takes them off one at a time,
 * mounts the cached ConfigMap and runs the command, and applies the retry
 * policy. The writer's outcome, the cache lookup and the initial Get are
 * parameters; a log.Fatalln is an Exited step.
 */
module ConfigMapMount {
  import opened Wrappers
  import opened GoStrings
  import opened Kube
  import opened SourceRef
  import opened WorkQueue

  /** How many times a failing key is re-added before the worker gives up. */
  const MaxRetries: nat := 5

  /** What processNextItem does with a key after processItem. */
  datatype Action = Forget | Retry | GiveUp

  /**
   * The retry policy: forget the key on success; on failure re-add it
   * rate-limited while it has been requeued fewer than MaxRetries times,
   * else give up (which also forgets it).
   */
  function RetryAction(failed: bool, numRequeues: nat): (a: Action)
    ensures a == Forget <==> !failed
    ensures a == Retry <==> failed && numRequeues < MaxRetries
    ensures a == GiveUp <==> failed && numRequeues >= MaxRetries
  {
    if !failed then Forget
    else if numRequeues < MaxRetries then Retry
    else GiveUp
  }

  /** The requeue count after an action: Retry adds one, Forget and GiveUp clear it. */
  function CountAfter(a: Action, numRequeues: nat): nat {
    if a == Retry then numRequeues + 1 else 0
  }

  /** The actions taken for `n` consecutive failed attempts, starting from requeue count `count`. */
  function FailedAttempts(count: nat, n: nat): seq<Action>
    decreases n
  {
    if n == 0 then []
    else
      var a := RetryAction(true, count);
      [a] + FailedAttempts(CountAfter(a, count), n - 1)
  }

  function Repeat(a: Action, n: nat): (s: seq<Action>)
    ensures |s| == n && forall i :: 0 <= i < n ==> s[i] == a
  {
    if n == 0 then [] else [a] + Repeat(a, n - 1)
  }

  /**
   * The retry bound: a key that keeps failing from requeue count `count`
   * (at most MaxRetries) is re-added MaxRetries - count more times and then
   * given up on. From a fresh key that is five retries, six attempts.
   */
  lemma {:induction false} RetryBudget(count: nat)
    requires count <= MaxRetries
    ensures FailedAttempts(count, MaxRetries - count + 1) == Repeat(Retry, MaxRetries - count) + [GiveUp]
    decreases MaxRetries - count
  {
    if count < MaxRetries {
      RetryBudget(count + 1);
    }
  }

  /** After giving up the count is back to zero, so the next failure starts a fresh budget. */
  lemma {:induction false} GivingUpRestartsBudget(n: nat)
    ensures FailedAttempts(0, MaxRetries + 1 + n) == FailedAttempts(0, MaxRetries + 1) + FailedAttempts(0, n)
  {
    AttemptsSplit(0, MaxRetries + 1, n);
    RetryBudget(0);
    assert FailedAttempts(0, MaxRetries + 1)[MaxRetries] == GiveUp;
  }

  lemma {:induction false} AttemptsSplit(count: nat, m: nat, n: nat)
    requires m > 0
    ensures FailedAttempts(count, m + n) ==
            FailedAttempts(count, m) + FailedAttempts(CountAfterAll(count, m), n)
    decreases m
  {
    var a := RetryAction(true, count);
    if m > 1 {
      AttemptsSplit(CountAfter(a, count), m - 1, n);
    }
  }

  /** The requeue count after `m` consecutive failures. */
  function CountAfterAll(count: nat, m: nat): nat
    decreases m
  {
    if m == 0 then count else CountAfterAll(CountAfter(RetryAction(true, count), count), m - 1)
  }

  /** What processItem reports: nil, an error, or a log.Fatalln inside Mount. */
  datatype ItemResult = ItemOk | ItemFailed | ItemFatal(reason: Fatal)

  /** One round of the worker loop; processNextItem returns false exactly for Quit. */
  datatype Step = Quit | Wait | Handled(key: string, action: Action) | Exited(key: string, reason: Fatal)

  class ConfigMapMounter {
    const source: ObjectRef
    const mountLocation: string
    const cmdFile: string
    const queue: RateLimitingQueue
    var effects: seq<Effect>
    var started: bool

    ghost predicate Valid()
      reads this, queue
    {
      queue.Valid()
    }

    /**
     * NewConfigMapMounter: the source from the flag value (cut at the first
     * dot), the mount location with one trailing "/" removed, an empty queue.
     */
    constructor (configMap: string, mountDir: string, cmd: string,
                 kubeNamespace: string, serviceAccountFile: Option<string>)
      ensures Valid() && fresh(queue)
      ensures source == ParseFirstDot(configMap, kubeNamespace, serviceAccountFile)
      ensures mountLocation == TrimSuffix(mountDir, "/") && cmdFile == cmd
      ensures queue.pending == [] && queue.dirty == {} && queue.processing == {}
      ensures queue.requeues == map[] && queue.waiting == [] && !queue.shuttingDown
      ensures effects == [] && !started
    {
      source := ParseFirstDot(configMap, kubeNamespace, serviceAccountFile);
      mountLocation := TrimSuffix(mountDir, "/");
      cmdFile := cmd;
      queue := new RateLimitingQueue();
      effects := [];
      started := false;
    }

    /** AddFunc: the object's key is queued whenever the key function succeeds. */
    method HandleAdd(obj: Object)
      requires Valid()
      modifies queue
      ensures Valid()
      ensures KeyFunc(obj).Some? ==> queue.AddedKey(KeyFunc(obj).value)
      ensures KeyFunc(obj).None? ==> queue.Unchanged()
    {
      var key := KeyFunc(obj);
      if key.Some? {
        queue.Add(key.value);
      }
    }

    /** UpdateFunc: the new object's key is queued only when `Data` changed. */
    method HandleUpdate(oldObj: Object, newObj: Object)
      requires Valid()
      modifies queue
      ensures Valid()
      ensures UpdateEventKey(oldObj, newObj).Some? ==> queue.AddedKey(UpdateEventKey(oldObj, newObj).value)
      ensures UpdateEventKey(oldObj, newObj).None? ==> queue.Unchanged()
    {
      var key := UpdateEventKey(oldObj, newObj);
      if key.Some? {
        queue.Add(key.value);
      }
    }

    /** Run: starts the informer and the worker; this variant mounts nothing up front. */
    method Run()
      modifies this`started
      ensures started
    {
      started := true;
    }

    /**
     * Mount: with no ConfigMap given, Get it first (fatal on error); then
     * write the projection of its Data to the mount location (fatal if the
     * writer cannot be created or the write fails).
     */
    method Mount(configMap: Option<Resource>, fetched: FetchResult, writer: WriterResult)
      returns (fatal: Option<Fatal>)
      modifies this`effects
      ensures configMap.None? && fetched.FetchFailed? ==> fatal == Some(GetFailed) && effects == old(effects)
      ensures configMap.Some? || fetched.Fetched? ==>
                var r := if configMap.Some? then configMap.value else fetched.r;
                && fatal == WriterFatal(writer)
                && effects == old(effects) + (if writer.Written? then [Published(mountLocation, Projection(r.data))] else [])
    {
      var r: Resource;
      if configMap.None? {
        if fetched.FetchFailed? {
          return Some(GetFailed);
        }
        r := fetched.r;
      } else {
        r := configMap.value;
      }
      var payload := BuildPayload(r.data);
      BuildPayloadIsProjection(r.data, payload);
      fatal := WriterFatal(writer);
      if fatal.None? {
        effects := effects + [Published(mountLocation, payload)];
      }
    }

    /**
     * processItem: an error only when the cache lookup fails; a key no
     * longer cached is success with no action; a cached ConfigMap is
     * mounted and then the command runs if one is set. The command's
     * result is discarded, so it never makes the item fail.
     */
    method ProcessItem(key: string, lookup: Lookup, writer: WriterResult) returns (result: ItemResult)
      modifies this`effects
      ensures result == ItemFailed <==> lookup.LookupFailed?
      ensures !lookup.Cached? ==> effects == old(effects)
      ensures lookup.NotCached? ==> result == ItemOk
      ensures lookup.Cached? && writer.Written? ==>
                result == ItemOk &&
                effects == old(effects) + [Published(mountLocation, Projection(lookup.r.data))] + CommandEffects(cmdFile)
      ensures lookup.Cached? && !writer.Written? ==>
                result == ItemFatal(WriterFatal(writer).value) && effects == old(effects)
    {
      if lookup.LookupFailed? {
        return ItemFailed;
      }
      if lookup.NotCached? {
        return ItemOk;
      }
      var fatal := Mount(Some(lookup.r), FetchFailed, writer);
      if fatal.Some? {
        return ItemFatal(fatal.value);
      }
      if |cmdFile| > 0 {
        effects := effects + [RanCommand(cmdFile)];
      }
      result := ItemOk;
    }

    /**
     * processNextItem: take the next key, process it, apply the retry
     * policy and mark the key done. A fatal error ends the process before
     * the deferred Done runs, so the key stays in processing.
     */
    method ProcessNextItem(lookup: Lookup, writer: WriterResult) returns (step: Step)
      requires Valid()
      modifies this`effects, queue
      ensures Valid()
      ensures old(queue.pending) == [] ==>
                step == (if queue.shuttingDown then Quit else Wait) && queue.Unchanged() && effects == old(effects)
      ensures old(queue.pending) != [] ==>
                && (step.Handled? || step.Exited?)
                && step.key == old(queue.pending[0])
                && queue.pending == old(queue.pending[1..])
                && queue.dirty == old(queue.dirty) - {step.key}
                && queue.shuttingDown == old(queue.shuttingDown)
      ensures step.Exited? <==> old(queue.pending) != [] && lookup.Cached? && !writer.Written?
      ensures step.Exited? ==>
                && step.reason == WriterFatal(writer).value
                && queue.processing == old(queue.processing) + {step.key}
                && queue.requeues == old(queue.requeues) && queue.waiting == old(queue.waiting)
                && effects == old(effects)
      ensures step.Handled? ==>
                && step.action == RetryAction(lookup.LookupFailed?, old(queue.NumRequeues(step.key)))
                && queue.processing == old(queue.processing)
                && queue.NumRequeues(step.key) == CountAfter(step.action, old(queue.NumRequeues(step.key)))
                && (step.action == Retry ==>
                      queue.requeues == old(queue.requeues)[step.key := old(queue.NumRequeues(step.key)) + 1]
                      && queue.waiting == old(queue.waiting) + (if queue.shuttingDown then [] else [step.key]))
                && (step.action != Retry ==>
                      queue.requeues == old(queue.requeues) - {step.key} && queue.waiting == old(queue.waiting))
                && effects == old(effects) + (if lookup.Cached? then [Published(mountLocation, Projection(lookup.r.data))] + CommandEffects(cmdFile) else [])
    {
      var got := queue.Get();
      if !got.Item? {
        return if got.ShuttingDown? then Quit else Wait;
      }
      var key := got.key;
      var result := ProcessItem(key, lookup, writer);
      if result.ItemFatal? {
        return Exited(key, result.reason);
      }
      var action := RetryAction(result.ItemFailed?, queue.NumRequeues(key));
      if action == Retry {
        queue.AddRateLimited(key);
      } else {
        queue.Forget(key);
      }
      queue.Done(key);
      step := Handled(key, action);
    }
  }
}
