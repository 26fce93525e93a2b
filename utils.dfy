/**
 * internal/provider/utils.go: building the generic document from a plan, the
 * typed Get helpers, the get-then-create-or-update upsert, and Delete, for the
 * ValsSecret and DbSecret kinds.
 */
module Utils {
  import opened Wrappers
  import opened Documents
  import opened ObjectStore
  import opened Models

  // ---------------------------------------------------------------------------
  // Lists become maps keyed by name

  /**
   * The map that a Go range loop `m[name(e)] = value(e)` over `entries`
   * leaves behind: a later entry with the same name overwrites an earlier one.
   */
  function IndexByName<E, V>(entries: seq<E>, name: E -> string, value: E -> V): map<string, V>
  {
    if entries == [] then map[]
    else
      var last := entries[|entries| - 1];
      IndexByName(entries[..|entries| - 1], name, value)[name(last) := value(last)]
  }

  /** The index of the last entry called `n`, or -1 when there is none. */
  function LastNamed<E>(entries: seq<E>, name: E -> string, n: string): (j: int)
    ensures -1 <= j < |entries|
    ensures j >= 0 ==> name(entries[j]) == n
    ensures forall i | j < i < |entries| :: name(entries[i]) != n
  {
    if entries == [] then -1
    else if name(entries[|entries| - 1]) == n then |entries| - 1
    else LastNamed(entries[..|entries| - 1], name, n)
  }

  /** A name is a key exactly when some entry has it, and the last such entry wins. */
  lemma {:induction false} IndexByNameLastWins<E, V>(entries: seq<E>, name: E -> string, value: E -> V, n: string)
    ensures var j := LastNamed(entries, name, n);
      && (n in IndexByName(entries, name, value) <==> j >= 0)
      && (j >= 0 ==> IndexByName(entries, name, value)[n] == value(entries[j]))
  {
    if entries != [] {
      IndexByNameLastWins(entries[..|entries| - 1], name, value, n);
    }
  }

  /** The keys of the map are exactly the names in the list. */
  lemma {:induction false} IndexByNameKeys<E, V>(entries: seq<E>, name: E -> string, value: E -> V)
    ensures IndexByName(entries, name, value).Keys == set i | 0 <= i < |entries| :: name(entries[i])
  {
    if entries != [] {
      var init := entries[..|entries| - 1];
      IndexByNameKeys(init, name, value);
      var names := set i | 0 <= i < |entries| :: name(entries[i]);
      var initNames := set i | 0 <= i < |init| :: name(init[i]);
      assert names == initNames + {name(entries[|entries| - 1])} by {
        forall x | x in names ensures x in initNames + {name(entries[|entries| - 1])} {
          var i :| 0 <= i < |entries| && name(entries[i]) == x;
          if i < |init| { assert name(init[i]) == x; }
        }
        forall x | x in initNames ensures x in names {
          var i :| 0 <= i < |init| && name(init[i]) == x;
          assert name(entries[i]) == x;
        }
      }
    }
  }

  /** The range loop itself, filling the map entry by entry. */
  method BuildIndex<E, V>(entries: seq<E>, name: E -> string, value: E -> V) returns (m: map<string, V>)
    ensures m == IndexByName(entries, name, value)
  {
    m := map[];
    var i := 0;
    while i < |entries|
      invariant 0 <= i <= |entries|
      invariant m == IndexByName(entries[..i], name, value)
    {
      assert entries[..i + 1][..i] == entries[..i];
      m := m[name(entries[i]) := value(entries[i])];
      i := i + 1;
    }
    assert entries[..|entries|] == entries;
  }

  /** The rollout loop: the list keeps its length, its order and its duplicates. */
  method BuildRollouts(targets: seq<RolloutTarget>) returns (rollouts: seq<RolloutEntry>)
    ensures |rollouts| == |targets|
    ensures forall i | 0 <= i < |targets| :: rollouts[i] == RolloutEntry(targets[i].name, targets[i].kind)
  {
    rollouts := [];
    for i := 0 to |targets|
      invariant |rollouts| == i
      invariant forall j | 0 <= j < i :: rollouts[j] == RolloutEntry(targets[j].name, targets[j].kind)
    {
      rollouts := rollouts + [RolloutEntry(targets[i].name, targets[i].kind)];
    }
  }

  function RefName(r: ValsSecretReference): string { r.name }
  function RefValue(r: ValsSecretReference): DataRef { DataRef(r.ref, r.encoding) }
  function TemplateName(t: TemplateEntry): string { t.name }
  function TemplateValue(t: TemplateEntry): string { t.value }
  function Rollout(t: RolloutTarget): RolloutEntry { RolloutEntry(t.name, t.kind) }

  // ---------------------------------------------------------------------------
  // Documents built from a plan

  /** The document CreateValsSecret sends: no version token is set. */
  function EncodeValsSecret(plan: ValsSecretResourceModel): Object
  {
    Object(ValsSecretApiVersion, ValsSecretKind,
      Meta(plan.name, plan.namespace, 0),
      ValsSpec(ValsSecretSpec(plan.name, plan.ttl, plan.secretType,
        IndexByName(plan.secretRef, RefName, RefValue),
        IndexByName(plan.template, TemplateName, TemplateValue))))
  }

  /** The document CreateDbSecret sends: `renew` is not part of it. */
  function EncodeDbSecret(plan: DbSecretResourceModel): Object
  {
    Object(DbSecretApiVersion, DbSecretKind,
      Meta(plan.name, plan.namespace, 0),
      DbSpec(DbSecretSpec(Vault(plan.vaultRole, plan.vaultMount),
        IndexByName(plan.template, TemplateName, TemplateValue),
        seq(|plan.rollout|, i requires 0 <= i < |plan.rollout| => Rollout(plan.rollout[i])))))
  }

  /** The layout of the ValsSecret document, field by field. */
  lemma ValsSecretDocument(plan: ValsSecretResourceModel)
    ensures var o := EncodeValsSecret(plan);
      && o.apiVersion == "digitalis.io/v1" && o.kind == "ValsSecret"
      && o.meta == Meta(plan.name, plan.namespace, 0)
      && o.spec.ValsSpec?
      && o.spec.vals.name == plan.name
      && o.spec.vals.ttl == plan.ttl && o.spec.vals.secretType == plan.secretType
      && o.spec.vals.data.Keys == (set i | 0 <= i < |plan.secretRef| :: plan.secretRef[i].name)
      && o.spec.vals.template.Keys == (set i | 0 <= i < |plan.template| :: plan.template[i].name)
      && (forall n | n in o.spec.vals.data ::
            var j := LastNamed(plan.secretRef, RefName, n);
            0 <= j && o.spec.vals.data[n] == DataRef(plan.secretRef[j].ref, plan.secretRef[j].encoding))
      && (forall n | n in o.spec.vals.template ::
            var j := LastNamed(plan.template, TemplateName, n);
            0 <= j && o.spec.vals.template[n] == plan.template[j].value)
  {
    IndexByNameKeys(plan.secretRef, RefName, RefValue);
    IndexByNameKeys(plan.template, TemplateName, TemplateValue);
    forall n | n in IndexByName(plan.secretRef, RefName, RefValue)
      ensures var j := LastNamed(plan.secretRef, RefName, n);
        0 <= j && IndexByName(plan.secretRef, RefName, RefValue)[n] == DataRef(plan.secretRef[j].ref, plan.secretRef[j].encoding)
    {
      IndexByNameLastWins(plan.secretRef, RefName, RefValue, n);
    }
    forall n | n in IndexByName(plan.template, TemplateName, TemplateValue)
      ensures var j := LastNamed(plan.template, TemplateName, n);
        0 <= j && IndexByName(plan.template, TemplateName, TemplateValue)[n] == plan.template[j].value
    {
      IndexByNameLastWins(plan.template, TemplateName, TemplateValue, n);
    }
  }

  /** The layout of the DbSecret document, field by field. */
  lemma DbSecretDocument(plan: DbSecretResourceModel)
    ensures var o := EncodeDbSecret(plan);
      && o.apiVersion == "digitalis.io/v1beta1" && o.kind == "DbSecret"
      && o.meta == Meta(plan.name, plan.namespace, 0)
      && o.spec.DbSpec?
      && o.spec.db.vault == Vault(plan.vaultRole, plan.vaultMount)
      && o.spec.db.template.Keys == (set i | 0 <= i < |plan.template| :: plan.template[i].name)
      && (forall n | n in o.spec.db.template ::
            var j := LastNamed(plan.template, TemplateName, n);
            0 <= j && o.spec.db.template[n] == plan.template[j].value)
      && |o.spec.db.rollout| == |plan.rollout|
      && (forall i | 0 <= i < |plan.rollout| ::
            o.spec.db.rollout[i] == RolloutEntry(plan.rollout[i].name, plan.rollout[i].kind))
  {
    IndexByNameKeys(plan.template, TemplateName, TemplateValue);
    forall n | n in IndexByName(plan.template, TemplateName, TemplateValue)
      ensures var j := LastNamed(plan.template, TemplateName, n);
        0 <= j && IndexByName(plan.template, TemplateName, TemplateValue)[n] == plan.template[j].value
    {
      IndexByNameLastWins(plan.template, TemplateName, TemplateValue, n);
    }
  }

  // ---------------------------------------------------------------------------
  // Get and upsert

  /** GetValsSecret / GetDbSecret: a store Get followed by the typed conversion. */
  function GetTypedSpec<S>(st: State, k: Key, specOf: Spec -> Option<S>): Result<Typed<S>, ApiError>
  {
    match GetSpec(st, k)
    case Err(e) => Err(e)
    case Ok(o) =>
      match Decode(o, specOf)
      case None => Err(DecodeFailed)
      case Some(t) => Ok(t)
  }

  /** The conversion of a locally built document that ends a successful upsert. */
  function Converted<S>(obj: Object, specOf: Spec -> Option<S>): Result<Typed<S>, ApiError>
  {
    match Decode(obj, specOf)
    case None => Err(DecodeFailed)
    case Some(t) => Ok(t)
  }

  /** One upsert as the store sees it: the new state, the requests sent, and what is returned. */
  datatype UpsertRun<S> = UpsertRun(state: State, calls: seq<Call>, result: Result<Typed<S>, ApiError>)

  /** The key the upsert of `doc` addresses. */
  function TargetKey(gvr: Descriptor, doc: Object): Key
  {
    Key(gvr, doc.meta.namespace, doc.meta.name)
  }

  /**
   * The body shared by CreateValsSecret and CreateDbSecret, after the document
   * is built: Get; any error other than NotFound is returned; NotFound, or an
   * object without a name, leads to Create; a found object leads to Update with
   * its version token copied onto the document.  On success the result is the
   * conversion of the document that was sent, not of the server's answer.
   */
  function UpsertSpec<S>(st: State, gvr: Descriptor, doc: Object, specOf: Spec -> Option<S>): UpsertRun<S>
    requires Consistent(st)
  {
    var ns := doc.meta.namespace;
    var k := TargetKey(gvr, doc);
    var fetched := GetTypedSpec(st, k, specOf);
    if fetched.Err? && fetched.error != NotFound then
      UpsertRun(st, [GetCall(k)], Err(fetched.error))
    else if fetched.Err? || fetched.value.meta.name == "" then
      var (st', created) := CreateSpec(st, gvr, ns, doc);
      UpsertRun(st', [GetCall(k), CreateCall(KeyOf(gvr, ns, doc), doc)],
        if created.Err? then Err(created.error) else Converted(doc, specOf))
    else
      var sent := Stamp(doc, fetched.value.meta.resourceVersion);
      var (st', updated) := UpdateSpec(st, gvr, ns, sent);
      UpsertRun(st', [GetCall(k), UpdateCall(KeyOf(gvr, ns, sent), sent)],
        if updated.Err? then Err(updated.error) else Converted(sent, specOf))
  }

  /** A document the upsert can write: named, unversioned, and of the expected shape. */
  predicate Writable<S>(doc: Object, specOf: Spec -> Option<S>)
  {
    doc.meta.name != "" && doc.meta.resourceVersion == 0 && specOf(doc.spec).Some?
  }

  /**
   * A failed Get other than NotFound (transport, authorization or conversion
   * failure) is returned as it is, and no Create and no Update is sent.
   */
  lemma GetFailureStopsUpsert<S>(st: State, gvr: Descriptor, doc: Object, specOf: Spec -> Option<S>)
    requires Consistent(st)
    requires GetTypedSpec(st, TargetKey(gvr, doc), specOf).Err?
    requires GetTypedSpec(st, TargetKey(gvr, doc), specOf).error != NotFound
    ensures var run := UpsertSpec(st, gvr, doc, specOf);
      && run.state == st
      && run.calls == [GetCall(TargetKey(gvr, doc))]
      && run.result == GetTypedSpec(st, TargetKey(gvr, doc), specOf)
      && (TargetKey(gvr, doc) in st.failures ==> run.result == Err(Transport(st.failures[TargetKey(gvr, doc)])))
  {
  }

  /**
   * Against an absent identity the upsert sends one Get and exactly one Create,
   * never an Update, and stores the document under a fresh version token.
   */
  lemma AbsentObjectIsCreated<S>(st: State, gvr: Descriptor, doc: Object, specOf: Spec -> Option<S>)
    requires Consistent(st)
    requires TargetKey(gvr, doc) !in st.objects && TargetKey(gvr, doc) !in st.failures
    requires (CreateVerb, TargetKey(gvr, doc)) !in st.rejections
    requires Writable(doc, specOf)
    ensures var run := UpsertSpec(st, gvr, doc, specOf);
      && run.calls == [GetCall(TargetKey(gvr, doc)), CreateCall(TargetKey(gvr, doc), doc)]
      && (forall c | c in run.calls :: !c.UpdateCall?)
      && run.state.objects == st.objects[TargetKey(gvr, doc) := Stamp(doc, st.nextVersion)]
      && run.result == Ok(Typed(doc.apiVersion, doc.kind, doc.meta, specOf(doc.spec).value))
  {
    assert GetSpec(st, TargetKey(gvr, doc)) == Err(NotFound);
  }

  /**
   * Against an existing identity the upsert sends one Get and exactly one
   * Update, never a Create; the Update carries the stored version token, which
   * is set, so unless the server refuses the update it succeeds; the result is
   * the sent document with that token.
   */
  lemma PresentObjectIsUpdated<S>(st: State, gvr: Descriptor, doc: Object, specOf: Spec -> Option<S>)
    requires Consistent(st)
    requires TargetKey(gvr, doc) in st.objects && TargetKey(gvr, doc) !in st.failures
    requires (UpdateVerb, TargetKey(gvr, doc)) !in st.rejections
    requires specOf(st.objects[TargetKey(gvr, doc)].spec).Some? && specOf(doc.spec).Some?
    ensures var k := TargetKey(gvr, doc);
      var token := st.objects[k].meta.resourceVersion;
      var run := UpsertSpec(st, gvr, doc, specOf);
      && token != 0
      && run.calls == [GetCall(k), UpdateCall(k, Stamp(doc, token))]
      && (forall c | c in run.calls :: !c.CreateCall?)
      && run.state.objects == st.objects[k := Stamp(doc, st.nextVersion)]
      && run.result == Ok(Typed(doc.apiVersion, doc.kind, Stamp(doc, token).meta, specOf(doc.spec).value))
  {
    var k := TargetKey(gvr, doc);
    assert st.objects[k].meta.name == k.name != "";
  }

  /**
   * A write the server refuses after it answered the Get: the refusal is
   * returned as it is, the store is unchanged, and the requests sent are the
   * Get and the one refused write (Create for an absent object, Update with
   * the fetched token for a present one).
   */
  lemma WriteRejectionIsReturned<S>(st: State, gvr: Descriptor, doc: Object, specOf: Spec -> Option<S>)
    requires Consistent(st)
    requires TargetKey(gvr, doc) !in st.failures
    requires TargetKey(gvr, doc) in st.objects ==> specOf(st.objects[TargetKey(gvr, doc)].spec).Some?
    requires (if TargetKey(gvr, doc) in st.objects then UpdateVerb else CreateVerb, TargetKey(gvr, doc)) in st.rejections
    ensures var k := TargetKey(gvr, doc);
      var verb := if k in st.objects then UpdateVerb else CreateVerb;
      var run := UpsertSpec(st, gvr, doc, specOf);
      && run.result == Err(st.rejections[(verb, k)])
      && run.state == st
      && run.calls == [GetCall(k),
                       if k in st.objects then UpdateCall(k, Stamp(doc, st.objects[k].meta.resourceVersion))
                       else CreateCall(k, doc)]
  {
    var k := TargetKey(gvr, doc);
    if k in st.objects {
      assert st.objects[k].meta.name == k.name != "";
    } else {
      assert GetSpec(st, k) == Err(NotFound);
    }
  }

  /**
   * An upsert that fails leaves the store as it was, whichever request
   * failed: the Get, or the Create or Update it led to.
   */
  lemma FailedUpsertChangesNothing<S>(st: State, gvr: Descriptor, doc: Object, specOf: Spec -> Option<S>)
    requires Consistent(st)
    requires specOf(doc.spec).Some?
    ensures var run := UpsertSpec(st, gvr, doc, specOf);
      run.result.Err? ==> run.state == st
  {
  }

  /** Every Update the upsert sends carries the version token of the object its Get returned. */
  lemma UpdateCarriesFetchedToken<S>(st: State, gvr: Descriptor, doc: Object, specOf: Spec -> Option<S>)
    requires Consistent(st)
    ensures forall c | c in UpsertSpec(st, gvr, doc, specOf).calls && c.UpdateCall? ::
      c.key in st.objects && c.obj.meta.resourceVersion == st.objects[c.key].meta.resourceVersion != 0
  {
  }

  /** The upsert writes at most its own key: every other object is left as it was. */
  lemma UpsertTouchesOnlyItsKey<S>(st: State, gvr: Descriptor, doc: Object, specOf: Spec -> Option<S>, other: Key)
    requires Consistent(st)
    requires other != TargetKey(gvr, doc)
    ensures var run := UpsertSpec(st, gvr, doc, specOf);
      && (other in run.state.objects <==> other in st.objects)
      && (other in st.objects ==> run.state.objects[other] == st.objects[other])
  {
  }

  /**
   * A successful upsert leaves the document stored under its own key, with
   * its spec and identity as sent and a set version token.
   */
  lemma UpsertSuccessStoresDocument<S>(st: State, gvr: Descriptor, doc: Object, specOf: Spec -> Option<S>)
    requires Consistent(st)
    requires UpsertSpec(st, gvr, doc, specOf).result.Ok?
    ensures var run := UpsertSpec(st, gvr, doc, specOf);
      var k := TargetKey(gvr, doc);
      && k in run.state.objects
      && run.state.objects[k] == Stamp(doc, run.state.objects[k].meta.resourceVersion)
      && run.state.objects[k].meta.resourceVersion != 0
      && k !in run.state.failures
  {
  }

  /**
   * Upserting the same document twice: the second run takes the Update path,
   * the stored object differs from the first run's only in its fresh version
   * token, and both runs return the same object apart from the token.
   */
  lemma UpsertTwiceIsIdempotent<S>(st: State, gvr: Descriptor, doc: Object, specOf: Spec -> Option<S>)
    requires Consistent(st)
    requires TargetKey(gvr, doc) !in st.failures
    requires (UpdateVerb, TargetKey(gvr, doc)) !in st.rejections
    requires Writable(doc, specOf)
    requires UpsertSpec(st, gvr, doc, specOf).result.Ok?
    ensures var first := UpsertSpec(st, gvr, doc, specOf);
      var second := UpsertSpec(first.state, gvr, doc, specOf);
      var k := TargetKey(gvr, doc);
      && |second.calls| == 2 && second.calls[1].UpdateCall?
      && second.result.Ok?
      && second.result.value.spec == first.result.value.spec
      && second.result.value.meta.(resourceVersion := 0) == first.result.value.meta.(resourceVersion := 0)
      && k in first.state.objects && k in second.state.objects
      && Stamp(second.state.objects[k], 0) == Stamp(first.state.objects[k], 0)
  {
    var k := TargetKey(gvr, doc);
    var first := UpsertSpec(st, gvr, doc, specOf);
    if k in st.objects {
      if specOf(st.objects[k].spec).Some? {
        PresentObjectIsUpdated(st, gvr, doc, specOf);
      }
    } else {
      AbsentObjectIsCreated(st, gvr, doc, specOf);
    }
    assert k in first.state.objects;
  }

  method GetTyped<S>(c: Cluster, gvr: Descriptor, ns: string, name: string, specOf: Spec -> Option<S>)
    returns (r: Result<Typed<S>, ApiError>)
    modifies c`calls
    ensures r == GetTypedSpec(c.Snapshot(), Key(gvr, ns, name), specOf)
    ensures c.calls == old(c.calls) + [GetCall(Key(gvr, ns, name))]
  {
    var obj := c.Get(gvr, ns, name);
    if obj.Err? {
      return Err(obj.error);
    }
    var secret := Decode(obj.value, specOf);
    if secret.None? {
      return Err(DecodeFailed);
    }
    r := Ok(secret.value);
  }

  /** The get-then-create-or-update steps, run against the store. */
  method Upsert<S>(c: Cluster, gvr: Descriptor, doc: Object, specOf: Spec -> Option<S>)
    returns (r: Result<Typed<S>, ApiError>)
    requires c.Valid()
    modifies c
    ensures c.Valid()
    ensures var run := UpsertSpec(old(c.Snapshot()), gvr, doc, specOf);
      && c.Snapshot() == run.state
      && c.calls == old(c.calls) + run.calls
      && r == run.result
  {
    var ns := doc.meta.namespace;
    var obj := doc;
    var secret := GetTyped(c, gvr, ns, doc.meta.name, specOf);
    if secret.Err? && secret.error != NotFound {
      return Err(secret.error);
    }
    if secret.Err? || secret.value.meta.name == "" {
      var out := c.Create(gvr, ns, obj);
      if out.Err? {
        return Err(out.error);
      }
    } else {
      obj := Stamp(obj, secret.value.meta.resourceVersion);
      var out := c.Update(gvr, ns, obj);
      if out.Err? {
        return Err(out.error);
      }
    }
    r := Converted(obj, specOf);
  }

  // ---------------------------------------------------------------------------
  // The operations of utils.go

  method GetValsSecret(c: Cluster, secretName: string, namespace: string) returns (r: Result<ValsSecret, ApiError>)
    modifies c`calls
    ensures r == GetTypedSpec(c.Snapshot(), Key(ValsSecrets, namespace, secretName), ValsSpecOf)
    ensures c.calls == old(c.calls) + [GetCall(Key(ValsSecrets, namespace, secretName))]
  {
    r := GetTyped(c, ValsSecrets, namespace, secretName, ValsSpecOf);
  }

  method GetDbSecret(c: Cluster, secretName: string, namespace: string) returns (r: Result<DbSecret, ApiError>)
    modifies c`calls
    ensures r == GetTypedSpec(c.Snapshot(), Key(DbSecrets, namespace, secretName), DbSpecOf)
    ensures c.calls == old(c.calls) + [GetCall(Key(DbSecrets, namespace, secretName))]
  {
    r := GetTyped(c, DbSecrets, namespace, secretName, DbSpecOf);
  }

  method CreateValsSecret(c: Cluster, plan: ValsSecretResourceModel) returns (r: Result<ValsSecret, ApiError>)
    requires c.Valid()
    modifies c
    ensures c.Valid()
    ensures var run := UpsertSpec(old(c.Snapshot()), ValsSecrets, EncodeValsSecret(plan), ValsSpecOf);
      && c.Snapshot() == run.state
      && c.calls == old(c.calls) + run.calls
      && r == run.result
  {
    var refs := BuildIndex(plan.secretRef, RefName, RefValue);
    var templates := BuildIndex(plan.template, TemplateName, TemplateValue);
    var obj := Object(ValsSecretApiVersion, ValsSecretKind,
      Meta(plan.name, plan.namespace, 0),
      ValsSpec(ValsSecretSpec(plan.name, plan.ttl, plan.secretType, refs, templates)));
    r := Upsert(c, ValsSecrets, obj, ValsSpecOf);
  }

  method CreateDbSecret(c: Cluster, plan: DbSecretResourceModel) returns (r: Result<DbSecret, ApiError>)
    requires c.Valid()
    modifies c
    ensures c.Valid()
    ensures var run := UpsertSpec(old(c.Snapshot()), DbSecrets, EncodeDbSecret(plan), DbSpecOf);
      && c.Snapshot() == run.state
      && c.calls == old(c.calls) + run.calls
      && r == run.result
  {
    var templates := BuildIndex(plan.template, TemplateName, TemplateValue);
    var rollouts := BuildRollouts(plan.rollout);
    var obj := Object(DbSecretApiVersion, DbSecretKind,
      Meta(plan.name, plan.namespace, 0),
      DbSpec(DbSecretSpec(Vault(plan.vaultRole, plan.vaultMount), templates, rollouts)));
    assert rollouts == seq(|plan.rollout|, i requires 0 <= i < |plan.rollout| => Rollout(plan.rollout[i]));
    r := Upsert(c, DbSecrets, obj, DbSpecOf);
  }

  method DeleteValsSecret(c: Cluster, secretName: string, namespace: string) returns (r: Result<(), ApiError>)
    requires c.Valid()
    modifies c
    ensures c.Valid()
    ensures (c.Snapshot(), r) == DeleteSpec(old(c.Snapshot()), Key(ValsSecrets, namespace, secretName))
    ensures c.calls == old(c.calls) + [DeleteCall(Key(ValsSecrets, namespace, secretName))]
  {
    r := c.Delete(ValsSecrets, namespace, secretName);
  }

  method DeleteDbSecret(c: Cluster, secretName: string, namespace: string) returns (r: Result<(), ApiError>)
    requires c.Valid()
    modifies c
    ensures c.Valid()
    ensures (c.Snapshot(), r) == DeleteSpec(old(c.Snapshot()), Key(DbSecrets, namespace, secretName))
    ensures c.calls == old(c.calls) + [DeleteCall(Key(DbSecrets, namespace, secretName))]
  {
    r := c.Delete(DbSecrets, namespace, secretName);
  }
}
