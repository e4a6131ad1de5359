/**
 * mount_secret.go: the Secret mounter. It shares the event filter, the
 * worker and the retry policy with the ConfigMap mounter of
 * mount_configmap.go, but splits its flag value at every dot and mounts
 * once up front before the informer and the worker start.
 */
module SecretMount {
  import opened Wrappers
  import opened GoStrings
  import opened Kube
  import opened SourceRef
  import opened WorkQueue
  import opened ConfigMapMount

  class SecretMounter {
    const source: ObjectRef
    const mountLocation: string
    const cmdFile: string
    const queue: RateLimitingQueue
    var effects: seq<Effect>
    var started: bool

    ghost predicate Valid()
      reads this, queue
    {
      queue.Valid()
    }

    /**
     * NewSecretMounter: the source from the flag value (split at every dot,
     * namespace from KUBE_NAMESPACE or "default" unless there are exactly two
     * parts), the mount location with one trailing "/" removed, an empty queue.
     */
    constructor (secret: string, mountDir: string, cmd: string, kubeNamespace: string)
      ensures Valid() && fresh(queue)
      ensures source == ParseEveryDot(secret, kubeNamespace)
      ensures mountLocation == TrimSuffix(mountDir, "/") && cmdFile == cmd
      ensures queue.pending == [] && queue.dirty == {} && queue.processing == {}
      ensures queue.requeues == map[] && queue.waiting == [] && !queue.shuttingDown
      ensures effects == [] && !started
    {
      source := ParseEveryDot(secret, kubeNamespace);
      mountLocation := TrimSuffix(mountDir, "/");
      cmdFile := cmd;
      queue := new RateLimitingQueue();
      effects := [];
      started := false;
    }

    /** AddFunc: the object's key is queued whenever the key function succeeds. */
    method HandleAdd(obj: Object)
      requires Valid()
      modifies queue
      ensures Valid()
      ensures KeyFunc(obj).Some? ==> queue.AddedKey(KeyFunc(obj).value)
      ensures KeyFunc(obj).None? ==> queue.Unchanged()
    {
      var key := KeyFunc(obj);
      if key.Some? {
        queue.Add(key.value);
      }
    }

    /** UpdateFunc: the new Secret's key is queued only when `Data` changed. */
    method HandleUpdate(oldObj: Object, newObj: Object)
      requires Valid()
      modifies queue
      ensures Valid()
      ensures UpdateEventKey(oldObj, newObj).Some? ==> queue.AddedKey(UpdateEventKey(oldObj, newObj).value)
      ensures UpdateEventKey(oldObj, newObj).None? ==> queue.Unchanged()
    {
      var key := UpdateEventKey(oldObj, newObj);
      if key.Some? {
        queue.Add(key.value);
      }
    }

    /**
     * Run: one Mount(nil) (Get, then write) before the informer and the
     * worker start; a failure there is fatal and nothing starts.
     */
    method Run(fetched: FetchResult, writer: WriterResult) returns (fatal: Option<Fatal>)
      modifies this`effects, this`started
      ensures fatal == if fetched.FetchFailed? then Some(GetFailed) else WriterFatal(writer)
      ensures fatal.None? ==> started && effects == old(effects) + [Published(mountLocation, Projection(fetched.r.data))]
      ensures fatal.Some? ==> started == old(started) && effects == old(effects)
    {
      fatal := Mount(None, fetched, writer);
      if fatal.None? {
        started := true;
      }
    }

    /**
     * Mount: with no Secret given, Get it first (fatal on error); then write
     * the projection of its Data to the mount location (fatal if the writer
     * cannot be created or the write fails).
     */
    method Mount(secret: Option<Resource>, fetched: FetchResult, writer: WriterResult)
      returns (fatal: Option<Fatal>)
      modifies this`effects
      ensures secret.None? && fetched.FetchFailed? ==> fatal == Some(GetFailed) && effects == old(effects)
      ensures secret.Some? || fetched.Fetched? ==>
                var r := if secret.Some? then secret.value else fetched.r;
                && fatal == WriterFatal(writer)
                && effects == old(effects) + (if writer.Written? then [Published(mountLocation, Projection(r.data))] else [])
    {
      var r: Resource;
      if secret.None? {
        if fetched.FetchFailed? {
          return Some(GetFailed);
        }
        r := fetched.r;
      } else {
        r := secret.value;
      }
      var payload := BuildPayload(r.data);
      BuildPayloadIsProjection(r.data, payload);
      fatal := WriterFatal(writer);
      if fatal.None? {
        effects := effects + [Published(mountLocation, payload)];
      }
    }

    /**
     * processItem: an error only when the cache lookup fails; a key no
     * longer cached is success with no action; a cached Secret is mounted
     * and then the command runs if one is set, its result discarded.
     */
    method ProcessItem(key: string, lookup: Lookup, writer: WriterResult) returns (result: ItemResult)
      modifies this`effects
      ensures result == ItemFailed <==> lookup.LookupFailed?
      ensures !lookup.Cached? ==> effects == old(effects)
      ensures lookup.NotCached? ==> result == ItemOk
      ensures lookup.Cached? && writer.Written? ==>
                result == ItemOk &&
                effects == old(effects) + [Published(mountLocation, Projection(lookup.r.data))] + CommandEffects(cmdFile)
      ensures lookup.Cached? && !writer.Written? ==>
                result == ItemFatal(WriterFatal(writer).value) && effects == old(effects)
    {
      if lookup.LookupFailed? {
        return ItemFailed;
      }
      if lookup.NotCached? {
        return ItemOk;
      }
      var fatal := Mount(Some(lookup.r), FetchFailed, writer);
      if fatal.Some? {
        return ItemFatal(fatal.value);
      }
      if |cmdFile| > 0 {
        effects := effects + [RanCommand(cmdFile)];
      }
      result := ItemOk;
    }

    /**
     * processNextItem: the same worker step as the ConfigMap mounter's:
     * Forget on success, AddRateLimited below MaxRetries, Forget otherwise,
     * Done always unless a fatal error ended the process.
     */
    method ProcessNextItem(lookup: Lookup, writer: WriterResult) returns (step: Step)
      requires Valid()
      modifies this`effects, queue
      ensures Valid()
      ensures old(queue.pending) == [] ==>
                step == (if queue.shuttingDown then Quit else Wait) && queue.Unchanged() && effects == old(effects)
      ensures old(queue.pending) != [] ==>
                && (step.Handled? || step.Exited?)
                && step.key == old(queue.pending[0])
                && queue.pending == old(queue.pending[1..])
                && queue.dirty == old(queue.dirty) - {step.key}
                && queue.shuttingDown == old(queue.shuttingDown)
      ensures step.Exited? <==> old(queue.pending) != [] && lookup.Cached? && !writer.Written?
      ensures step.Exited? ==>
                && step.reason == WriterFatal(writer).value
                && queue.processing == old(queue.processing) + {step.key}
                && queue.requeues == old(queue.requeues) && queue.waiting == old(queue.waiting)
                && effects == old(effects)
      ensures step.Handled? ==>
                && step.action == RetryAction(lookup.LookupFailed?, old(queue.NumRequeues(step.key)))
                && queue.processing == old(queue.processing)
                && queue.NumRequeues(step.key) == CountAfter(step.action, old(queue.NumRequeues(step.key)))
                && (step.action == Retry ==>
                      queue.requeues == old(queue.requeues)[step.key := old(queue.NumRequeues(step.key)) + 1]
                      && queue.waiting == old(queue.waiting) + (if queue.shuttingDown then [] else [step.key]))
                && (step.action != Retry ==>
                      queue.requeues == old(queue.requeues) - {step.key} && queue.waiting == old(queue.waiting))
                && effects == old(effects) + (if lookup.Cached? then [Published(mountLocation, Projection(lookup.r.data))] + CommandEffects(cmdFile) else [])
    {
      var got := queue.Get();
      if !got.Item? {
        return if got.ShuttingDown? then Quit else Wait;
      }
      var key := got.key;
      var result := ProcessItem(key, lookup, writer);
      if result.ItemFatal? {
        return Exited(key, result.reason);
      }
      var action := RetryAction(result.ItemFailed?, queue.NumRequeues(key));
      if action == Retry {
        queue.AddRateLimited(key);
      } else {
        queue.Forget(key);
      }
      queue.Done(key);
      step := Handled(key, action);
    }
  }
}
