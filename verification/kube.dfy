/**
 * The slice of the Kubernetes API the mounters touch: object metadata, the
 * `Data` map of a ConfigMap or Secret, the informer's key function, the
 * change filter of the Update handlers, and the projection of `Data` into
 * the payload handed to the atomic directory writer.
 */
module Kube {
  import opened Wrappers

  /** Go strings and byte slices alike are byte sequences. */
  type Bytes = seq<bv8>

  /** apiv1.NamespaceDefault. */
  const DefaultNamespace: string := "default"

  /** The permission bits every projected file gets: octal 0777. */
  const FileMode: int := 0x1FF

  /** apiv1.ObjectReference, reduced to what the mounters set. */
  datatype ObjectRef = ObjectRef(name: string, namespace: string)

  datatype ObjectMeta = ObjectMeta(name: string, namespace: string, resourceVersion: string)

  /**
   * A `Data` field. reflect.DeepEqual tells a nil map from an empty one,
   * so the two are kept apart here; ranging over either yields nothing.
   */
  datatype DataMap = Nil | Entries(m: map<string, Bytes>) {
    function Contents(): map<string, Bytes> {
      if Nil? then map[] else m
    }
  }

  /** A ConfigMap or Secret as the cache holds it. */
  datatype Resource = Resource(meta: ObjectMeta, data: DataMap)

  /**
   * What an informer hands to an event handler: the watched kind, or
   * something else. The informer delivers only the watched kind, so an
   * object that fails the Update handlers' type assertion and one without
   * metadata, which fails MetaNamespaceKeyFunc in the Add handlers, cannot
   * be told apart here: `Foreign` stands for both.
   */
  datatype Object = Watched(r: Resource) | Foreign

  /** cache.MetaNamespaceKeyFunc: "namespace/name", or "name" without a namespace. */
  function KeyFunc(obj: Object): (key: Option<string>)
    ensures key.Some? <==> obj.Watched?
    ensures key.Some? && obj.r.meta.namespace == "" ==> key.value == obj.r.meta.name
    ensures key.Some? && obj.r.meta.namespace != "" ==>
              key.value == obj.r.meta.namespace + "/" + obj.r.meta.name
  {
    match obj
    case Foreign => None
    case Watched(r) =>
      if r.meta.namespace == "" then Some(r.meta.name)
      else Some(r.meta.namespace + "/" + r.meta.name)
  }

  /**
   * The change test of every UpdateFunc: both objects are of the watched
   * kind and their `Data` fields are not deeply equal.
   */
  predicate DataChanged(oldObj: Object, newObj: Object): (changed: bool)
    ensures changed <==>
              && oldObj.Watched? && newObj.Watched?
              && (oldObj.r.data.Nil? != newObj.r.data.Nil?
                  || oldObj.r.data.Contents() != newObj.r.data.Contents())
  {
    oldObj.Watched? && newObj.Watched? && oldObj.r.data != newObj.r.data
  }

  /**
   * The UpdateFunc filter shared by the ConfigMap and Secret mounters: the
   * key to enqueue, present exactly when both objects are of the watched
   * kind and their `Data` fields are not deeply equal.
   */
  function UpdateEventKey(oldObj: Object, newObj: Object): (key: Option<string>)
    ensures key.Some? <==> oldObj.Watched? && newObj.Watched? && oldObj.r.data != newObj.r.data
    ensures key.Some? ==> key == KeyFunc(newObj)
  {
    if DataChanged(oldObj, newObj) then KeyFunc(newObj)
    else None
  }

  /** A metadata-only update (new resourceVersion, same Data) enqueues nothing. */
  lemma MetadataOnlyUpdateIgnored(oldObj: Resource, newMeta: ObjectMeta)
    ensures UpdateEventKey(Watched(oldObj), Watched(Resource(newMeta, oldObj.data))) == None
  {
  }

  /**
   * DeepEqual's nil-versus-empty distinction: an update from a nil `Data` to
   * an empty one is enqueued, although both project to the same payload.
   */
  lemma NilToEmptyDataIsEnqueued(oldMeta: ObjectMeta, newMeta: ObjectMeta)
    ensures UpdateEventKey(Watched(Resource(oldMeta, Nil)), Watched(Resource(newMeta, Entries(map[])))).Some?
    ensures Projection(Nil) == Projection(Entries(map[]))
  {
  }

  /** volume.FileProjection: the bytes and the mode of one projected file. */
  datatype FileProjection = FileProjection(mode: int, data: Bytes)

  /** What the atomic writer receives: file name to projection. */
  type Payload = map<string, FileProjection>

  /** The payload that the mounters' `for k, v := range Data` loops build. */
  function Projection(data: DataMap): Payload {
    map k | k in data.Contents() :: FileProjection(FileMode, data.Contents()[k])
  }

  /**
   * The payload loop of Mount: one entry per key of `Data`, each with mode
   * 0777 and the value's bytes, and no other entry.
   */
  method BuildPayload(data: DataMap) returns (payload: Payload)
    ensures payload.Keys == data.Contents().Keys
    ensures forall k :: k in payload ==> payload[k] == FileProjection(FileMode, data.Contents()[k])
  {
    var m := data.Contents();
    payload := map[];
    var remaining := m.Keys;
    while remaining != {}
      invariant remaining <= m.Keys
      invariant payload.Keys == m.Keys - remaining
      invariant forall k :: k in payload ==> payload[k] == FileProjection(FileMode, m[k])
      decreases remaining
    {
      var k :| k in remaining;
      payload := payload[k := FileProjection(FileMode, m[k])];
      remaining := remaining - {k};
    }
  }

  /** The loop builds exactly the projection. */
  lemma BuildPayloadIsProjection(data: DataMap, payload: Payload)
    requires payload.Keys == data.Contents().Keys
    requires forall k :: k in payload ==> payload[k] == FileProjection(FileMode, data.Contents()[k])
    ensures payload == Projection(data)
  {
  }

  /**
   * The outcome of volume.NewAtomicWriter followed by writer.Write. The
   * writer itself is not part of this model: only whether it succeeded.
   */
  datatype WriterResult = WriterCreateFailed | WriteFailed | Written

  /** The result of a client Get of the watched object. */
  datatype FetchResult = FetchFailed | Fetched(r: Resource)

  /** The informer store's answer to GetByKey. */
  datatype Lookup = LookupFailed | NotCached | Cached(r: Resource)

  /** Why a mounter called log.Fatalln, which ends the process. */
  datatype Fatal = GetFailed | WriterCreateFailure | WriteFailure

  /** The outside effects of a mounter, in order. */
  datatype Effect = Published(location: string, payload: Payload) | RanCommand(path: string)

  /** The fatal error the writer stage reports, if any. */
  function WriterFatal(w: WriterResult): (f: Option<Fatal>)
    ensures f.None? <==> w.Written?
  {
    match w
    case WriterCreateFailed => Some(WriterCreateFailure)
    case WriteFailed => Some(WriteFailure)
    case Written => None
  }

  /** The effects of the optional post-update command: `cmd` runs iff it is non-empty. */
  function CommandEffects(cmd: string): (e: seq<Effect>)
    ensures cmd == "" <==> e == []
    ensures cmd != "" ==> e == [RanCommand(cmd)]
  {
    if |cmd| > 0 then [RanCommand(cmd)] else []
  }
}
