/**
 * internal/provider/dbvalssecret_resource.go: the DbSecret resource.  Create
 * and Update both run the upsert of utils.go and, on success, store the plan
 * as it is; Read refreshes only name and namespace; Delete removes the object
 * named by the prior state.  Name and namespace require replacement, so an
 * identity change is never applied in place.
 */
module DbSecretResource {
  import opened Wrappers
  import opened Documents
  import opened ObjectStore
  import opened Models
  import opened Utils

  // ---------------------------------------------------------------------------
  // Schema

  /** The `renew` default. */
  const DefaultRenew := true

  /** The resource block as written: `renew` may be left out. */
  datatype Configuration = Configuration(
    name: string,
    namespace: string,
    vaultRole: string,
    vaultMount: string,
    template: seq<TemplateEntry>,
    renew: Option<bool>,
    rollout: seq<RolloutTarget>)

  /** The plan the framework derives from a configuration: `renew` defaults to true. */
  function Planned(cfg: Configuration): (plan: DbSecretResourceModel)
    ensures plan.name == cfg.name && plan.namespace == cfg.namespace
    ensures plan.vaultRole == cfg.vaultRole && plan.vaultMount == cfg.vaultMount
    ensures plan.template == cfg.template && plan.rollout == cfg.rollout
    ensures cfg.renew.Some? ==> plan.renew == cfg.renew.value
    ensures cfg.renew.None? ==> plan.renew
  {
    DbSecretResourceModel(cfg.name, cfg.namespace, cfg.vaultRole, cfg.vaultMount, cfg.template,
      if cfg.renew.Some? then cfg.renew.value else DefaultRenew, cfg.rollout)
  }

  /**
   * What Terraform plans for an existing resource: name and namespace carry
   * RequiresReplace, so changing either replaces the resource; any other
   * change is an update in place.
   */
  function PlanChange(prior: DbSecretResourceModel, plan: DbSecretResourceModel): PlannedChange
  {
    if prior.name != plan.name || prior.namespace != plan.namespace then Replace
    else if prior == plan then NoChange
    else UpdateInPlace
  }

  /** The key of the object a resource state names. */
  function StateKey(state: DbSecretResourceModel): Key
  {
    Key(DbSecrets, state.namespace, state.name)
  }

  /** A configuration without `renew` is planned with renewal on; `renew` never reaches the document. */
  lemma RenewDefaultsToTrue(cfg: Configuration, renew: bool)
    requires cfg.renew.None?
    ensures Planned(cfg).renew
    ensures EncodeDbSecret(Planned(cfg)) == EncodeDbSecret(Planned(cfg).(renew := renew))
  {
  }

  /**
   * Replacement is planned exactly when the identity changes, so an update in
   * place always upserts under the prior state's key and never leaves an
   * object behind under an old name.
   */
  lemma InPlaceUpdateKeepsIdentity(prior: DbSecretResourceModel, plan: DbSecretResourceModel)
    ensures PlanChange(prior, plan) == Replace <==> StateKey(prior) != StateKey(plan)
    ensures PlanChange(prior, plan) == UpdateInPlace ==>
      TargetKey(DbSecrets, EncodeDbSecret(plan)) == StateKey(prior)
  {
  }

  // ---------------------------------------------------------------------------
  // Responses

  /** Create and Update, as the store sees them: the upsert of the plan's document. */
  function ApplySpec(st: State, plan: DbSecretResourceModel): (UpsertRun<DbSecretSpec>, Response<DbSecretResourceModel>)
    requires Consistent(st)
  {
    var run := UpsertSpec(st, DbSecrets, EncodeDbSecret(plan), DbSpecOf);
    (run, ApplyResponse(plan, run.result))
  }

  /**
   * Read: on a failed fetch, the error diagnostic and no state; otherwise the
   * prior state with name and namespace taken from the fetched object.
   */
  function ReadSpec(st: State, state: DbSecretResourceModel): Response<DbSecretResourceModel>
  {
    match GetTypedSpec(st, StateKey(state), DbSpecOf)
    case Err(e) => Response(None, [ReadFailed(e)])
    case Ok(s) => Response(Some(state.(name := s.meta.name, namespace := s.meta.namespace)), [])
  }

  /** The detail text of a failed Delete. */
  const DeleteErrorDetail := "Error deleting DbSecret: "

  // ---------------------------------------------------------------------------
  // Properties of the lifecycle

  /**
   * Read changes nothing but name and namespace, and those to the values it
   * looked up by: vault role and mount, template, rollout and renew keep their
   * prior values, so drift in the cluster's spec is never reported.
   */
  lemma ReadRefreshesOnlyIdentity(st: State, state: DbSecretResourceModel)
    ensures var resp := ReadSpec(st, state);
      var fetched := GetTypedSpec(st, StateKey(state), DbSpecOf);
      && (resp.setState.Some? <==> fetched.Ok?)
      && (fetched.Err? ==> resp.diagnostics == [ReadFailed(fetched.error)])
      && (resp.setState.Some? && Consistent(st) ==> resp.setState.value == state)
  {
    var k := StateKey(state);
    if GetTypedSpec(st, k, DbSpecOf).Ok? && Consistent(st) {
      assert st.objects[k].meta.name == k.name;
    }
  }

  /** Reading a resource whose object is gone from the cluster is an error naming NotFound. */
  lemma ReadOfMissingObjectFails(st: State, state: DbSecretResourceModel)
    requires StateKey(state) !in st.objects && StateKey(state) !in st.failures
    ensures ReadSpec(st, state) == Response(None, [ReadFailed(NotFound)])
  {
    assert GetSpec(st, StateKey(state)) == Err(NotFound);
  }

  /** A successful apply stores the plan verbatim, and reading it back right away yields that same state. */
  lemma ApplyThenReadReturnsPlan(st: State, plan: DbSecretResourceModel)
    requires Consistent(st)
    requires ApplySpec(st, plan).0.result.Ok?
    ensures ApplySpec(st, plan).1 == Response(Some(plan), [])
    ensures ReadSpec(ApplySpec(st, plan).0.state, plan) == Response(Some(plan), [])
  {
    var doc := EncodeDbSecret(plan);
    UpsertSuccessStoresDocument(st, DbSecrets, doc, DbSpecOf);
    assert TargetKey(DbSecrets, doc) == StateKey(plan);
  }

  /**
   * Update runs the same upsert as Create, so an Update whose object is gone
   * from the cluster creates it: one Get, one Create and no Update are sent.
   */
  lemma UpdateOfAbsentObjectCreatesIt(st: State, plan: DbSecretResourceModel)
    requires Consistent(st)
    requires StateKey(plan) !in st.objects && StateKey(plan) !in st.failures
    requires (CreateVerb, StateKey(plan)) !in st.rejections
    requires plan.name != ""
    ensures var (run, resp) := ApplySpec(st, plan);
      && run.calls == [GetCall(StateKey(plan)), CreateCall(StateKey(plan), EncodeDbSecret(plan))]
      && resp == Response(Some(plan), [])
      && StateKey(plan) in run.state.objects
  {
    var doc := EncodeDbSecret(plan);
    assert TargetKey(DbSecrets, doc) == StateKey(plan);
    AbsentObjectIsCreated(st, DbSecrets, doc, DbSpecOf);
  }

  /** After a successful Delete the object is gone, so the next Read fails with NotFound. */
  lemma DeleteThenReadFails(st: State, state: DbSecretResourceModel)
    requires Consistent(st)
    requires DeleteSpec(st, StateKey(state)).1.Ok?
    ensures DeleteResponse<DbSecretResourceModel>(DeleteErrorDetail, DeleteSpec(st, StateKey(state)).1) == Response(None, [])
    ensures ReadSpec(DeleteSpec(st, StateKey(state)).0, state).diagnostics == [ReadFailed(NotFound)]
  {
    var after := DeleteSpec(st, StateKey(state)).0;
    assert after.failures == st.failures;
    ReadOfMissingObjectFails(after, state);
  }

  /**
   * Creating the `example` DbSecret in `default` against an empty cluster:
   * one Get that finds nothing, then one Create of the v1beta1 DbSecret
   * document, and the returned object echoes the identity and vault fields.
   */
  lemma CreateExampleDbSecret()
    ensures var plan := DbSecretResourceModel("example", "default", "role", "cass000",
              [TemplateEntry("CASSANDRA_USERNAME", "{{ .username }}")], true, [RolloutTarget("Deployment", "my-app")]);
      var (run, resp) := ApplySpec(State(map[], map[], map[], 1), plan);
      var k := Key(DbSecrets, "default", "example");
      && |run.calls| == 2 && run.calls[0] == GetCall(k)
      && run.calls[1].CreateCall? && run.calls[1].key == k
      && run.calls[1].obj.apiVersion == "digitalis.io/v1beta1" && run.calls[1].obj.kind == "DbSecret"
      && run.calls[1].obj.spec.db.rollout == [RolloutEntry("my-app", "Deployment")]
      && run.calls[1].obj.spec.db.template == map["CASSANDRA_USERNAME" := "{{ .username }}"]
      && run.result.Ok?
      && run.result.value.meta == Meta("example", "default", 0)
      && run.result.value.spec.vault == Vault("role", "cass000")
      && resp == Response(Some(plan), [])
  {
    var plan := DbSecretResourceModel("example", "default", "role", "cass000",
      [TemplateEntry("CASSANDRA_USERNAME", "{{ .username }}")], true, [RolloutTarget("Deployment", "my-app")]);
    var st := State(map[], map[], map[], 1);
    var doc := EncodeDbSecret(plan);
    assert TargetKey(DbSecrets, doc) == Key(DbSecrets, "default", "example");
    AbsentObjectIsCreated(st, DbSecrets, doc, DbSpecOf);
    DbSecretDocument(plan);
  }

  // ---------------------------------------------------------------------------
  // The handlers

  method Create(c: Cluster, plan: DbSecretResourceModel) returns (resp: Response<DbSecretResourceModel>)
    requires c.Valid()
    modifies c
    ensures c.Valid()
    ensures var (run, expected) := ApplySpec(old(c.Snapshot()), plan);
      && c.Snapshot() == run.state
      && c.calls == old(c.calls) + run.calls
      && resp == expected
  {
    var result := CreateDbSecret(c, plan);
    if result.Err? {
      return Response(None, [ApplyFailed(result.error)]);
    }
    resp := Response(Some(plan), []);
  }

  method Read(c: Cluster, state: DbSecretResourceModel) returns (resp: Response<DbSecretResourceModel>)
    modifies c`calls
    ensures resp == ReadSpec(c.Snapshot(), state)
    ensures c.calls == old(c.calls) + [GetCall(StateKey(state))]
  {
    var s := GetDbSecret(c, state.name, state.namespace);
    if s.Err? {
      return Response(None, [ReadFailed(s.error)]);
    }
    var refreshed := state;
    refreshed := refreshed.(name := s.value.meta.name);
    refreshed := refreshed.(namespace := s.value.meta.namespace);
    resp := Response(Some(refreshed), []);
  }

  method Update(c: Cluster, plan: DbSecretResourceModel) returns (resp: Response<DbSecretResourceModel>)
    requires c.Valid()
    modifies c
    ensures c.Valid()
    ensures var (run, expected) := ApplySpec(old(c.Snapshot()), plan);
      && c.Snapshot() == run.state
      && c.calls == old(c.calls) + run.calls
      && resp == expected
  {
    var result := CreateDbSecret(c, plan);
    if result.Err? {
      return Response(None, [ApplyFailed(result.error)]);
    }
    resp := Response(Some(plan), []);
  }

  /** Delete: removes exactly the object the prior state names. */
  method Delete(c: Cluster, data: DbSecretResourceModel) returns (resp: Response<DbSecretResourceModel>)
    requires c.Valid()
    modifies c
    ensures c.Valid()
    ensures var (st, result) := DeleteSpec(old(c.Snapshot()), StateKey(data));
      && c.Snapshot() == st
      && resp == DeleteResponse(DeleteErrorDetail, result)
    ensures c.calls == old(c.calls) + [DeleteCall(StateKey(data))]
  {
    var err := DeleteDbSecret(c, data.name, data.namespace);
    resp := Response(None, []);
    if err.Err? {
      resp := Response(None, [Diagnostic("Delete error", DeleteErrorDetail, Some(err.error))]);
    }
  }
}
