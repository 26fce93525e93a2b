/**
 * The documents the provider exchanges with the cluster.
 *
 * The Go code builds an untyped nested map (`unstructured.Unstructured`) and
 * converts it to and from the typed `ValsSecret` / `DbSecret` structs by
 * reflection.  Here the document is a datatype whose spec payload is a tagged
 * union of the two kinds, and the typed view is a generic record over the spec.
 * Only the fields the provider reads or writes are represented.
 */
module Documents {
  import opened Wrappers

  /** Go's int64, the type of `ttl` on the wire and in the Terraform model. */
  newtype int64 = x: int | -0x8000_0000_0000_0000 <= x < 0x8000_0000_0000_0000

  /**
   * Object metadata.  The resource version is an opaque token assigned by the
   * server; the model writes it as a natural number, 0 standing for the unset
   * (empty) token.
   */
  datatype Meta = Meta(name: string, namespace: string, resourceVersion: nat)

  /** One `spec.data` value of a ValsSecret: `{ref, encoding}`. */
  datatype DataRef = DataRef(ref: string, encoding: string)

  /** `spec` of a ValsSecret (apiVersion digitalis.io/v1). */
  datatype ValsSecretSpec = ValsSecretSpec(
    name: string,
    ttl: int64,
    secretType: string,
    data: map<string, DataRef>,
    template: map<string, string>)

  /** `spec.vault` of a DbSecret. */
  datatype Vault = Vault(role: string, mount: string)

  /** One element of `spec.rollout` of a DbSecret: `{name, kind}`. */
  datatype RolloutEntry = RolloutEntry(name: string, kind: string)

  /** `spec` of a DbSecret (apiVersion digitalis.io/v1beta1); there is no `renew` field. */
  datatype DbSecretSpec = DbSecretSpec(
    vault: Vault,
    template: map<string, string>,
    rollout: seq<RolloutEntry>)

  datatype Spec = ValsSpec(vals: ValsSecretSpec) | DbSpec(db: DbSecretSpec)

  /** The generic document: type stamp, identity and version token, and spec. */
  datatype Object = Object(apiVersion: string, kind: string, meta: Meta, spec: Spec)

  /** The typed view the converter produces from a document. */
  datatype Typed<S> = Typed(apiVersion: string, kind: string, meta: Meta, spec: S)

  type ValsSecret = Typed<ValsSecretSpec>
  type DbSecret = Typed<DbSecretSpec>

  const ValsSecretApiVersion := "digitalis.io/v1"
  const ValsSecretKind := "ValsSecret"
  const DbSecretApiVersion := "digitalis.io/v1beta1"
  const DbSecretKind := "DbSecret"

  /** The ValsSecret payload, when a spec has that shape. */
  function ValsSpecOf(s: Spec): Option<ValsSecretSpec>
  {
    if s.ValsSpec? then Some(s.vals) else None
  }

  /** The DbSecret payload, when a spec has that shape. */
  function DbSpecOf(s: Spec): Option<DbSecretSpec>
  {
    if s.DbSpec? then Some(s.db) else None
  }

  /**
   * The converter `FromUnstructured`: it fails (None) when the spec does not
   * have the expected shape, and otherwise keeps the type stamp and metadata.
   */
  function Decode<S>(o: Object, specOf: Spec -> Option<S>): Option<Typed<S>>
  {
    match specOf(o.spec)
    case None => None
    case Some(s) => Some(Typed(o.apiVersion, o.kind, o.meta, s))
  }
}
