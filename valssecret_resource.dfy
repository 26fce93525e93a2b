/**
 * internal/provider/valssecret_resource.go: the `valsoperator_valssecret`
 * resource.  Create and Update both run the upsert of utils.go and, on
 * success, store the plan as it is; Read refreshes name, namespace and ttl
 * from the cluster; Delete removes the object named by the prior state.
 *
 * A handler's outcome is the `Response` it leaves: what it passed to
 * `State.Set` (nothing when it stopped at an error) and its error
 * diagnostics.  The dynamic client the resource was configured with is the
 * `Cluster` argument.
 */
module ValsSecretResource {
  import opened Wrappers
  import opened Documents
  import opened ObjectStore
  import opened Models
  import opened Utils

  // ---------------------------------------------------------------------------
  // Schema

  /** The `ttl` default. */
  const DefaultTtl: int64 := 3600
  /** The `type` default. */
  const DefaultSecretType := "Opaque"

  /** The resource block as written: `ttl` and `type` may be left out. */
  datatype Configuration = Configuration(
    name: string,
    namespace: string,
    secretRef: seq<ValsSecretReference>,
    template: seq<TemplateEntry>,
    secretType: Option<string>,
    ttl: Option<int64>)

  /** The plan the framework derives from a configuration: the schema defaults fill what is left out. */
  function Planned(cfg: Configuration): (plan: ValsSecretResourceModel)
    ensures plan.name == cfg.name && plan.namespace == cfg.namespace
    ensures plan.secretRef == cfg.secretRef && plan.template == cfg.template
    ensures cfg.ttl.Some? ==> plan.ttl == cfg.ttl.value
    ensures cfg.ttl.None? ==> plan.ttl == 3600
    ensures cfg.secretType.Some? ==> plan.secretType == cfg.secretType.value
    ensures cfg.secretType.None? ==> plan.secretType == "Opaque"
  {
    ValsSecretResourceModel(cfg.name, cfg.namespace, cfg.secretRef, cfg.template,
      if cfg.secretType.Some? then cfg.secretType.value else DefaultSecretType,
      if cfg.ttl.Some? then cfg.ttl.value else DefaultTtl)
  }

  /**
   * What Terraform plans for an existing resource.  No attribute carries
   * RequiresReplace, so every change, a change of name or namespace included,
   * is an update in place.
   */
  function PlanChange(prior: ValsSecretResourceModel, plan: ValsSecretResourceModel): PlannedChange
  {
    if prior == plan then NoChange else UpdateInPlace
  }

  /** A configuration without ttl and type applies as a document with ttl 3600 and type Opaque. */
  lemma DefaultsReachTheDocument(cfg: Configuration)
    requires cfg.ttl.None? && cfg.secretType.None?
    ensures EncodeValsSecret(Planned(cfg)).spec.vals.ttl == 3600
    ensures EncodeValsSecret(Planned(cfg)).spec.vals.secretType == "Opaque"
  {
  }

  // ---------------------------------------------------------------------------
  // Responses

  /** Create and Update, as the store sees them: the upsert of the plan's document. */
  function ApplySpec(st: State, plan: ValsSecretResourceModel): (UpsertRun<ValsSecretSpec>, Response<ValsSecretResourceModel>)
    requires Consistent(st)
  {
    var run := UpsertSpec(st, ValsSecrets, EncodeValsSecret(plan), ValsSpecOf);
    (run, ApplyResponse(plan, run.result))
  }

  /** The key of the object a resource state names. */
  function StateKey(state: ValsSecretResourceModel): Key
  {
    Key(ValsSecrets, state.namespace, state.name)
  }

  /**
   * Read: on a failed fetch, the error diagnostic and no state; otherwise the
   * prior state with name, namespace and ttl taken from the fetched object.
   */
  function ReadSpec(st: State, state: ValsSecretResourceModel): (resp: Response<ValsSecretResourceModel>)
  {
    match GetTypedSpec(st, StateKey(state), ValsSpecOf)
    case Err(e) =>
      Response(None, [ReadFailed(e)])
    case Ok(s) =>
      Response(Some(state.(name := s.meta.name, namespace := s.meta.namespace, ttl := s.spec.ttl)), [])
  }

  /** The detail text of a failed Delete. */
  const DeleteErrorDetail := "Error deleting valssecret: "

  // ---------------------------------------------------------------------------
  // Properties of the lifecycle

  /**
   * Read changes nothing but name, namespace and ttl: secret_ref, template and
   * type keep their prior values, and a failed fetch sets no state.
   */
  lemma ReadRefreshesOnlyIdentityAndTtl(st: State, state: ValsSecretResourceModel)
    ensures var resp := ReadSpec(st, state);
      var fetched := GetTypedSpec(st, StateKey(state), ValsSpecOf);
      && (resp.setState.Some? <==> fetched.Ok?)
      && (fetched.Err? ==>
            resp.diagnostics == [ReadFailed(fetched.error)])
      && (resp.setState.Some? ==>
            && resp.setState.value.secretRef == state.secretRef
            && resp.setState.value.template == state.template
            && resp.setState.value.secretType == state.secretType
            && StateKey(state) in st.objects
            && resp.setState.value.ttl == st.objects[StateKey(state)].spec.vals.ttl)
  {
  }

  /** Reading a resource whose object is gone from the cluster is an error naming NotFound. */
  lemma ReadOfMissingObjectFails(st: State, state: ValsSecretResourceModel)
    requires StateKey(state) !in st.objects && StateKey(state) !in st.failures
    ensures ReadSpec(st, state) ==
      Response(None, [ReadFailed(NotFound)])
  {
    assert GetSpec(st, StateKey(state)) == Err(NotFound);
  }

  /**
   * A successful apply stores the plan verbatim, and reading it back right
   * away yields that same state: the refreshed name, namespace and ttl are the
   * plan's.
   */
  lemma ApplyThenReadReturnsPlan(st: State, plan: ValsSecretResourceModel)
    requires Consistent(st)
    requires ApplySpec(st, plan).0.result.Ok?
    ensures ApplySpec(st, plan).1 == Response(Some(plan), [])
    ensures ReadSpec(ApplySpec(st, plan).0.state, plan) == Response(Some(plan), [])
  {
    var doc := EncodeValsSecret(plan);
    UpsertSuccessStoresDocument(st, ValsSecrets, doc, ValsSpecOf);
    assert TargetKey(ValsSecrets, doc) == StateKey(plan);
  }

  /**
   * Update runs the same upsert as Create, so an Update whose object is gone
   * from the cluster creates it: one Get, one Create and no Update are sent.
   */
  lemma UpdateOfAbsentObjectCreatesIt(st: State, plan: ValsSecretResourceModel)
    requires Consistent(st)
    requires StateKey(plan) !in st.objects && StateKey(plan) !in st.failures
    requires (CreateVerb, StateKey(plan)) !in st.rejections
    requires plan.name != ""
    ensures var (run, resp) := ApplySpec(st, plan);
      && run.calls == [GetCall(StateKey(plan)), CreateCall(StateKey(plan), EncodeValsSecret(plan))]
      && resp == Response(Some(plan), [])
      && StateKey(plan) in run.state.objects
  {
    var doc := EncodeValsSecret(plan);
    assert TargetKey(ValsSecrets, doc) == StateKey(plan);
    AbsentObjectIsCreated(st, ValsSecrets, doc, ValsSpecOf);
  }

  /**
   * A rename is planned as an update in place, and the upsert under the new
   * name leaves the object under the old name where it was: it is never
   * deleted.
   */
  lemma RenameOrphansOldObject(st: State, prior: ValsSecretResourceModel, plan: ValsSecretResourceModel)
    requires Consistent(st)
    requires StateKey(prior) != StateKey(plan)
    requires StateKey(prior) in st.objects
    ensures PlanChange(prior, plan) == UpdateInPlace
    ensures var after := ApplySpec(st, plan).0.state;
      StateKey(prior) in after.objects && after.objects[StateKey(prior)] == st.objects[StateKey(prior)]
  {
    var doc := EncodeValsSecret(plan);
    assert TargetKey(ValsSecrets, doc) == StateKey(plan);
    UpsertTouchesOnlyItsKey(st, ValsSecrets, doc, ValsSpecOf, StateKey(prior));
  }

  /** After a successful Delete the object is gone, so the next Read fails with NotFound. */
  lemma DeleteThenReadFails(st: State, state: ValsSecretResourceModel)
    requires Consistent(st)
    requires DeleteSpec(st, StateKey(state)).1.Ok?
    ensures DeleteResponse<ValsSecretResourceModel>(DeleteErrorDetail, DeleteSpec(st, StateKey(state)).1) == Response(None, [])
    ensures ReadSpec(DeleteSpec(st, StateKey(state)).0, state).diagnostics ==
      [ReadFailed(NotFound)]
  {
    var after := DeleteSpec(st, StateKey(state)).0;
    assert after.failures == st.failures;
    ReadOfMissingObjectFails(after, state);
  }

  // ---------------------------------------------------------------------------
  // The handlers

  method Create(c: Cluster, plan: ValsSecretResourceModel) returns (resp: Response<ValsSecretResourceModel>)
    requires c.Valid()
    modifies c
    ensures c.Valid()
    ensures var (run, expected) := ApplySpec(old(c.Snapshot()), plan);
      && c.Snapshot() == run.state
      && c.calls == old(c.calls) + run.calls
      && resp == expected
  {
    var result := CreateValsSecret(c, plan);
    if result.Err? {
      return Response(None, [ApplyFailed(result.error)]);
    }
    resp := Response(Some(plan), []);
  }

  method Read(c: Cluster, state: ValsSecretResourceModel) returns (resp: Response<ValsSecretResourceModel>)
    modifies c`calls
    ensures resp == ReadSpec(c.Snapshot(), state)
    ensures c.calls == old(c.calls) + [GetCall(StateKey(state))]
  {
    var s := GetValsSecret(c, state.name, state.namespace);
    if s.Err? {
      return Response(None, [ReadFailed(s.error)]);
    }
    var refreshed := state;
    refreshed := refreshed.(name := s.value.meta.name);
    refreshed := refreshed.(namespace := s.value.meta.namespace);
    refreshed := refreshed.(ttl := s.value.spec.ttl);
    resp := Response(Some(refreshed), []);
  }

  method Update(c: Cluster, plan: ValsSecretResourceModel) returns (resp: Response<ValsSecretResourceModel>)
    requires c.Valid()
    modifies c
    ensures c.Valid()
    ensures var (run, expected) := ApplySpec(old(c.Snapshot()), plan);
      && c.Snapshot() == run.state
      && c.calls == old(c.calls) + run.calls
      && resp == expected
  {
    var result := CreateValsSecret(c, plan);
    if result.Err? {
      return Response(None, [ApplyFailed(result.error)]);
    }
    resp := Response(Some(plan), []);
  }

  /** Delete: removes exactly the object the prior state names. */
  method Delete(c: Cluster, data: ValsSecretResourceModel) returns (resp: Response<ValsSecretResourceModel>)
    requires c.Valid()
    modifies c
    ensures c.Valid()
    ensures var (st, result) := DeleteSpec(old(c.Snapshot()), StateKey(data));
      && c.Snapshot() == st
      && resp == DeleteResponse(DeleteErrorDetail, result)
    ensures c.calls == old(c.calls) + [DeleteCall(StateKey(data))]
  {
    var err := DeleteValsSecret(c, data.name, data.namespace);
    resp := Response(None, []);
    if err.Err? {
      resp := Response(None, [Diagnostic("Delete error", DeleteErrorDetail, Some(err.error))]);
    }
  }
}
