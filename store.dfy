/**
 * The dynamic client and the API server behind it, at the interface the
 * provider relies on: get, create, update and delete of a document addressed
 * by (resource descriptor, namespace, name), with a NotFound outcome that is
 * distinguishable from every other failure.
 *
 * The server side is the pure functions GetSpec, CreateSpec, UpdateSpec and
 * DeleteSpec over a State value; the class Cluster holds that state in fields
 * and its methods are proved to follow those functions.  Transport
 * failures are modelled by `failures`: every request about a key listed
 * there fails with the recorded reason.  Refusals of one verb, such as an
 * update forbidden to the provider's credentials or an admission webhook
 * rejecting a create, are modelled by `rejections`: a write request whose
 * (verb, key) pair is listed there fails with the recorded error, while a Get
 * of the same key is still answered.
 */
module ObjectStore {
  import opened Wrappers
  import opened Documents

  /** A group/version/resource triple naming an object kind in the store. */
  datatype Descriptor = Descriptor(group: string, version: string, resource: string)

  const ValsSecrets := Descriptor("digitalis.io", "v1", "valssecrets")
  const DbSecrets := Descriptor("digitalis.io", "v1beta1", "dbsecrets")

  /** The address of one stored object. */
  datatype Key = Key(gvr: Descriptor, namespace: string, name: string)

  datatype ApiError =
    | NotFound
    | AlreadyExists
    | Conflict
    | Invalid(reason: string)
    | Transport(reason: string)
    | DecodeFailed

  /** One request sent to the store, as the server saw it. */
  datatype Call =
    | GetCall(key: Key)
    | CreateCall(key: Key, obj: Object)
    | UpdateCall(key: Key, obj: Object)
    | DeleteCall(key: Key)

  /** The write verbs, each of which the server may refuse on its own. */
  datatype Verb = CreateVerb | UpdateVerb | DeleteVerb

  datatype State = State(
    objects: map<Key, Object>,
    failures: map<Key, string>,
    rejections: map<(Verb, Key), ApiError>,
    nextVersion: nat)

  /**
   * What the server keeps true of its records: every object sits under its own
   * name and namespace, names are non-empty, and every stored version token is
   * set and older than the next one the server hands out.
   */
  predicate Consistent(st: State)
  {
    && st.nextVersion >= 1
    && forall k | k in st.objects ::
         && k.name != ""
         && st.objects[k].meta.name == k.name
         && st.objects[k].meta.namespace == k.namespace
         && 1 <= st.objects[k].meta.resourceVersion < st.nextVersion
  }

  /** The key a request for `obj` under `gvr` and `ns` addresses. */
  function KeyOf(gvr: Descriptor, ns: string, obj: Object): Key
  {
    Key(gvr, ns, obj.meta.name)
  }

  /** `obj` as the server stores it, stamped with version token `v`. */
  function Stamp(obj: Object, v: nat): Object
  {
    obj.(meta := obj.meta.(resourceVersion := v))
  }

  function GetSpec(st: State, k: Key): (r: Result<Object, ApiError>)
    ensures r.Ok? <==> k in st.objects && k !in st.failures
    ensures r.Ok? ==> r.value == st.objects[k]
    ensures k in st.failures ==> r == Err(Transport(st.failures[k]))
    ensures r == Err(NotFound) <==> k !in st.failures && k !in st.objects
  {
    if k in st.failures then Err(Transport(st.failures[k]))
    else if k in st.objects then Ok(st.objects[k])
    else Err(NotFound)
  }

  function CreateSpec(st: State, gvr: Descriptor, ns: string, obj: Object): (r: (State, Result<Object, ApiError>))
    requires Consistent(st)
    ensures Consistent(r.0)
    ensures r.1.Ok? <==> r.0 != st
    ensures var k := KeyOf(gvr, ns, obj);
      r.1.Ok? <==>
        && k !in st.failures && (CreateVerb, k) !in st.rejections
        && obj.meta.name != "" && obj.meta.namespace == ns
        && obj.meta.resourceVersion == 0
        && k !in st.objects
    ensures r.1.Ok? ==>
      r.0 == st.(objects := st.objects[KeyOf(gvr, ns, obj) := r.1.value], nextVersion := st.nextVersion + 1)
    ensures r.1.Ok? ==> r.1.value == Stamp(obj, st.nextVersion)
    ensures r.1.Err? ==> r.0 == st
    ensures (CreateVerb, KeyOf(gvr, ns, obj)) in st.rejections && KeyOf(gvr, ns, obj) !in st.failures ==>
      r.1 == Err(st.rejections[(CreateVerb, KeyOf(gvr, ns, obj))])
  {
    var k := KeyOf(gvr, ns, obj);
    if k in st.failures then (st, Err(Transport(st.failures[k])))
    else if (CreateVerb, k) in st.rejections then (st, Err(st.rejections[(CreateVerb, k)]))
    else if obj.meta.name == "" then (st, Err(Invalid("name is required")))
    else if obj.meta.namespace != ns then (st, Err(Invalid("namespace does not match the request")))
    else if obj.meta.resourceVersion != 0 then (st, Err(Invalid("resourceVersion should not be set on objects to be created")))
    else if k in st.objects then (st, Err(AlreadyExists))
    else
      var stored := Stamp(obj, st.nextVersion);
      (st.(objects := st.objects[k := stored], nextVersion := st.nextVersion + 1), Ok(stored))
  }

  function UpdateSpec(st: State, gvr: Descriptor, ns: string, obj: Object): (r: (State, Result<Object, ApiError>))
    requires Consistent(st)
    ensures Consistent(r.0)
    ensures r.1.Ok? <==> r.0 != st
    ensures var k := KeyOf(gvr, ns, obj);
      r.1.Ok? <==>
        && k !in st.failures && (UpdateVerb, k) !in st.rejections
        && obj.meta.name != "" && obj.meta.namespace == ns
        && k in st.objects
        && obj.meta.resourceVersion == st.objects[k].meta.resourceVersion
    ensures r.1.Ok? ==> var k := KeyOf(gvr, ns, obj);
      && r.0 == st.(objects := st.objects[k := r.1.value], nextVersion := st.nextVersion + 1)
      && r.1.value == Stamp(obj, st.nextVersion)
    ensures r.1.Err? ==> r.0 == st
    ensures (UpdateVerb, KeyOf(gvr, ns, obj)) in st.rejections && KeyOf(gvr, ns, obj) !in st.failures ==>
      r.1 == Err(st.rejections[(UpdateVerb, KeyOf(gvr, ns, obj))])
  {
    var k := KeyOf(gvr, ns, obj);
    if k in st.failures then (st, Err(Transport(st.failures[k])))
    else if (UpdateVerb, k) in st.rejections then (st, Err(st.rejections[(UpdateVerb, k)]))
    else if obj.meta.name == "" then (st, Err(Invalid("name is required")))
    else if obj.meta.namespace != ns then (st, Err(Invalid("namespace does not match the request")))
    else if k !in st.objects then (st, Err(NotFound))
    else if obj.meta.resourceVersion != st.objects[k].meta.resourceVersion then (st, Err(Conflict))
    else
      var stored := Stamp(obj, st.nextVersion);
      (st.(objects := st.objects[k := stored], nextVersion := st.nextVersion + 1), Ok(stored))
  }

  function DeleteSpec(st: State, k: Key): (r: (State, Result<(), ApiError>))
    requires Consistent(st)
    ensures Consistent(r.0)
    ensures r.1.Ok? <==> k in st.objects && k !in st.failures && (DeleteVerb, k) !in st.rejections
    ensures r.1.Ok? ==> r.0 == st.(objects := st.objects - {k})
    ensures r.1.Err? ==> r.0 == st
    ensures (DeleteVerb, k) in st.rejections && k !in st.failures ==> r.1 == Err(st.rejections[(DeleteVerb, k)])
  {
    if k in st.failures then (st, Err(Transport(st.failures[k])))
    else if (DeleteVerb, k) in st.rejections then (st, Err(st.rejections[(DeleteVerb, k)]))
    else if k !in st.objects then (st, Err(NotFound))
    else (st.(objects := st.objects - {k}), Ok(()))
  }

  /** The store, as the provider's dynamic client reaches it. */
  class Cluster {
    var objects: map<Key, Object>
    var failures: map<Key, string>
    var rejections: map<(Verb, Key), ApiError>
    var nextVersion: nat
    /** Every request the store has received, oldest first. */
    ghost var calls: seq<Call>

    function Snapshot(): State
      reads this
    {
      State(objects, failures, rejections, nextVersion)
    }

    predicate Valid()
      reads this
    {
      Consistent(Snapshot())
    }

    constructor (initial: State)
      requires Consistent(initial)
      ensures Valid() && Snapshot() == initial && calls == []
    {
      objects, failures, rejections, nextVersion := initial.objects, initial.failures, initial.rejections, initial.nextVersion;
      calls := [];
    }

    method Get(gvr: Descriptor, ns: string, name: string) returns (r: Result<Object, ApiError>)
      modifies this`calls
      ensures r == GetSpec(Snapshot(), Key(gvr, ns, name))
      ensures calls == old(calls) + [GetCall(Key(gvr, ns, name))]
    {
      var k := Key(gvr, ns, name);
      calls := calls + [GetCall(k)];
      if k in failures {
        r := Err(Transport(failures[k]));
      } else if k in objects {
        r := Ok(objects[k]);
      } else {
        r := Err(NotFound);
      }
    }

    method Create(gvr: Descriptor, ns: string, obj: Object) returns (r: Result<Object, ApiError>)
      requires Valid()
      modifies this
      ensures Valid()
      ensures (Snapshot(), r) == CreateSpec(old(Snapshot()), gvr, ns, obj)
      ensures calls == old(calls) + [CreateCall(KeyOf(gvr, ns, obj), obj)]
    {
      var k := KeyOf(gvr, ns, obj);
      calls := calls + [CreateCall(k, obj)];
      if k in failures {
        r := Err(Transport(failures[k]));
      } else if (CreateVerb, k) in rejections {
        r := Err(rejections[(CreateVerb, k)]);
      } else if obj.meta.name == "" {
        r := Err(Invalid("name is required"));
      } else if obj.meta.namespace != ns {
        r := Err(Invalid("namespace does not match the request"));
      } else if obj.meta.resourceVersion != 0 {
        r := Err(Invalid("resourceVersion should not be set on objects to be created"));
      } else if k in objects {
        r := Err(AlreadyExists);
      } else {
        var stored := Stamp(obj, nextVersion);
        objects := objects[k := stored];
        nextVersion := nextVersion + 1;
        r := Ok(stored);
      }
    }

    method Update(gvr: Descriptor, ns: string, obj: Object) returns (r: Result<Object, ApiError>)
      requires Valid()
      modifies this
      ensures Valid()
      ensures (Snapshot(), r) == UpdateSpec(old(Snapshot()), gvr, ns, obj)
      ensures calls == old(calls) + [UpdateCall(KeyOf(gvr, ns, obj), obj)]
    {
      var k := KeyOf(gvr, ns, obj);
      calls := calls + [UpdateCall(k, obj)];
      if k in failures {
        r := Err(Transport(failures[k]));
      } else if (UpdateVerb, k) in rejections {
        r := Err(rejections[(UpdateVerb, k)]);
      } else if obj.meta.name == "" {
        r := Err(Invalid("name is required"));
      } else if obj.meta.namespace != ns {
        r := Err(Invalid("namespace does not match the request"));
      } else if k !in objects {
        r := Err(NotFound);
      } else if obj.meta.resourceVersion != objects[k].meta.resourceVersion {
        r := Err(Conflict);
      } else {
        var stored := Stamp(obj, nextVersion);
        objects := objects[k := stored];
        nextVersion := nextVersion + 1;
        r := Ok(stored);
      }
    }

    method Delete(gvr: Descriptor, ns: string, name: string) returns (r: Result<(), ApiError>)
      requires Valid()
      modifies this
      ensures Valid()
      ensures (Snapshot(), r) == DeleteSpec(old(Snapshot()), Key(gvr, ns, name))
      ensures calls == old(calls) + [DeleteCall(Key(gvr, ns, name))]
    {
      var k := Key(gvr, ns, name);
      calls := calls + [DeleteCall(k)];
      if k in failures {
        r := Err(Transport(failures[k]));
      } else if (DeleteVerb, k) in rejections {
        r := Err(rejections[(DeleteVerb, k)]);
      } else if k !in objects {
        r := Err(NotFound);
      } else {
        objects := objects - {k};
        r := Ok(());
      }
    }
  }
}
