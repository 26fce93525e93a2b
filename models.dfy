/**
 * The Terraform-side models of the two managed resources, and the parts of a
 * framework response the CRUD handlers write.  Unset `types.String`
 * attributes are read with `ValueString()`, which gives "", so they are plain
 * strings here.  The `secret_ref` fields are plain Go strings in the source,
 * so an omitted optional `encoding` is not represented (see the README).
 */
module Models {
  import opened Wrappers
  import opened Documents
  import opened ObjectStore

  /** One `secret_ref` block: a named external reference and its encoding. */
  datatype ValsSecretReference = ValsSecretReference(name: string, ref: string, encoding: string)

  /** One `template` block (the Go types ValsSecretTemplate and DbSecretTemplate have this same shape). */
  datatype TemplateEntry = TemplateEntry(name: string, value: string)

  /** `ValsSecretResourceModel`: the plan and state of a `valsoperator_valssecret` resource. */
  datatype ValsSecretResourceModel = ValsSecretResourceModel(
    name: string,
    namespace: string,
    secretRef: seq<ValsSecretReference>,
    template: seq<TemplateEntry>,
    secretType: string,
    ttl: int64)

  /** One `rollout` block (`TfDbRolloutTarget`): kind is Deployment or StatefulSet. */
  datatype RolloutTarget = RolloutTarget(kind: string, name: string)

  /** `DbSecretResourceModel`: the plan and state of a DbSecret resource. */
  datatype DbSecretResourceModel = DbSecretResourceModel(
    name: string,
    namespace: string,
    vaultRole: string,
    vaultMount: string,
    template: seq<TemplateEntry>,
    renew: bool,
    rollout: seq<RolloutTarget>)

  /**
   * An error diagnostic: its summary, the fixed text of its detail and, when the
   * detail formats an error with `%v`, that error.
   */
  datatype Diagnostic = Diagnostic(summary: string, detail: string, cause: Option<ApiError>)

  /**
   * What a Create, Read or Update handler leaves in its response: the value it
   * passed to `State.Set` (None when it returned before setting state) and the
   * error diagnostics it added.
   */
  datatype Response<M> = Response(setState: Option<M>, diagnostics: seq<Diagnostic>)

  /**
   * The response of a resource's Create or Update after the upsert: the plan
   * itself as the new state, or the "Apply failed" diagnostic and no state.
   */
  function ApplyResponse<M, T>(plan: M, result: Result<T, ApiError>): (resp: Response<M>)
    ensures resp.setState.Some? <==> result.Ok?
    ensures resp.setState.Some? ==> resp.setState.value == plan && resp.diagnostics == []
    ensures result.Err? ==> resp.diagnostics == [ApplyFailed(result.error)]
  {
    match result
    case Ok(_) => Response(Some(plan), [])
    case Err(e) => Response(None, [ApplyFailed(e)])
  }

  function ApplyFailed(e: ApiError): Diagnostic
  {
    Diagnostic("Apply failed", "Error applying: ", Some(e))
  }

  /**
   * The response of a resource's Delete: no state in either case, and the
   * "Delete error" diagnostic, with the resource's own detail text, exactly
   * when the store refused.
   */
  function DeleteResponse<M>(detail: string, result: Result<(), ApiError>): (resp: Response<M>)
    ensures resp.setState.None?
    ensures result.Ok? ==> resp.diagnostics == []
    ensures result.Err? ==> resp.diagnostics == [Diagnostic("Delete error", detail, Some(result.error))]
  {
    match result
    case Ok(_) => Response(None, [])
    case Err(e) => Response(None, [Diagnostic("Delete error", detail, Some(e))])
  }

  /** The diagnostic of a failed fetch in a resource's Read. */
  function ReadFailed(e: ApiError): Diagnostic
  {
    Diagnostic("Unexpected Resource Read Secret", "Error getting secret from Kubernetes: ", Some(e))
  }

  /** Terraform's plan for an existing resource whose configuration changed. */
  datatype PlannedChange = NoChange | UpdateInPlace | Replace
}
