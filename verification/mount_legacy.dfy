/**
 * mount.go: the older ConfigMap mounter. It has no work queue: it mounts
 * once at Run, then every Add event and every Update event whose `Data`
 * changed remounts directly and runs the command. Each mount Gets the
 * ConfigMap afresh; the Get and the writer's outcome are parameters.
 */
module LegacyMount {
  import opened Wrappers
  import opened GoStrings
  import opened Kube
  import opened SourceRef

  class LegacyConfigMapMounter {
    const source: ObjectRef
    const mountLocation: string
    const cmdFile: string
    var effects: seq<Effect>
    var watching: bool

    /**
     * NewConfigMapMounter: the flag value split at every dot, exactly as
     * the Secret mounter does; one trailing "/" removed from the mount location.
     */
    constructor (configMap: string, mountDir: string, cmd: string, kubeNamespace: string)
      ensures source == ParseEveryDot(configMap, kubeNamespace)
      ensures mountLocation == TrimSuffix(mountDir, "/") && cmdFile == cmd
      ensures effects == [] && !watching
    {
      source := ParseEveryDot(configMap, kubeNamespace);
      mountLocation := TrimSuffix(mountDir, "/");
      cmdFile := cmd;
      effects := [];
      watching := false;
    }

    /** Mount: Get the ConfigMap (fatal on error) and write the projection of its Data. */
    method Mount(fetched: FetchResult, writer: WriterResult) returns (fatal: Option<Fatal>)
      modifies this`effects
      ensures fatal == if fetched.FetchFailed? then Some(GetFailed) else WriterFatal(writer)
      ensures effects == old(effects) +
                (if fatal.None? then [Published(mountLocation, Projection(fetched.r.data))] else [])
    {
      if fetched.FetchFailed? {
        return Some(GetFailed);
      }
      var payload := BuildPayload(fetched.r.data);
      BuildPayloadIsProjection(fetched.r.data, payload);
      fatal := WriterFatal(writer);
      if fatal.None? {
        effects := effects + [Published(mountLocation, payload)];
      }
    }

    /** ReMount: Mount, then run the command if and only if one is set. */
    method ReMount(fetched: FetchResult, writer: WriterResult) returns (fatal: Option<Fatal>)
      modifies this`effects
      ensures fatal == if fetched.FetchFailed? then Some(GetFailed) else WriterFatal(writer)
      ensures fatal.None? ==>
                effects == old(effects) + [Published(mountLocation, Projection(fetched.r.data))] + CommandEffects(cmdFile)
      ensures fatal.Some? ==> effects == old(effects)
    {
      fatal := Mount(fetched, writer);
      if fatal.None? && |cmdFile| > 0 {
        effects := effects + [RanCommand(cmdFile)];
      }
    }

    /** Run: one Mount before the watch starts; the command is not run for it. */
    method Run(fetched: FetchResult, writer: WriterResult) returns (fatal: Option<Fatal>)
      modifies this`effects, this`watching
      ensures fatal == if fetched.FetchFailed? then Some(GetFailed) else WriterFatal(writer)
      ensures fatal.None? ==> watching && effects == old(effects) + [Published(mountLocation, Projection(fetched.r.data))]
      ensures fatal.Some? ==> watching == old(watching) && effects == old(effects)
    {
      fatal := Mount(fetched, writer);
      if fatal.None? {
        watching := true;
      }
    }

    /** AddFunc: every Add event remounts, whatever the object. */
    method HandleAdd(obj: Object, fetched: FetchResult, writer: WriterResult) returns (fatal: Option<Fatal>)
      modifies this`effects
      ensures fatal == if fetched.FetchFailed? then Some(GetFailed) else WriterFatal(writer)
      ensures fatal.None? ==>
                effects == old(effects) + [Published(mountLocation, Projection(fetched.r.data))] + CommandEffects(cmdFile)
      ensures fatal.Some? ==> effects == old(effects)
    {
      fatal := ReMount(fetched, writer);
    }

    /** UpdateFunc: remount only when both objects are ConfigMaps whose `Data` differ. */
    method HandleUpdate(oldObj: Object, newObj: Object, fetched: FetchResult, writer: WriterResult)
      returns (fatal: Option<Fatal>)
      modifies this`effects
      ensures !DataChanged(oldObj, newObj) ==> fatal == None && effects == old(effects)
      ensures DataChanged(oldObj, newObj) ==>
                && fatal == (if fetched.FetchFailed? then Some(GetFailed) else WriterFatal(writer))
                && effects == old(effects) +
                     (if fatal.None? then [Published(mountLocation, Projection(fetched.r.data))] + CommandEffects(cmdFile) else [])
    {
      fatal := None;
      if DataChanged(oldObj, newObj) {
        fatal := ReMount(fetched, writer);
      }
    }
  }
}
