/** The custom resources and secrets in the Kubernetes store, and the store's rules for writing them. */
module Objects {
  import opened Conditions

  datatype Option<+T> = None | Some(value: T)

  datatype NamespacedName = NamespacedName(namespace: string, name: string)

  const FINALIZER := "finalizer.gcp.managed.openshift.io"
  const CCS_FINALIZER := "finalizer.gcp.managed.openshift.io/ccs"
  const REFERENCE_NAMESPACE := "gcp-project-operator"
  const ACCOUNT_NAME_DEFAULT := "osd-managed-admin"

  /** Every stored object: metadata, specification and status. */
  datatype Object<S, T> = Object(version: nat, deleting: bool, finalizers: seq<string>, spec: S, status: T)

  datatype ClaimSpec = ClaimSpec(
    credentialSecret: NamespacedName, region: string, projectID: string, link: NamespacedName, zones: seq<string>,
    ccs: bool, ccsSecret: NamespacedName, ccsProjectID: string, sharedVPC: bool)
  datatype ClaimState = Unset | Pending | PendingProject | Ready | Error
  datatype ClaimStatus = ClaimStatus(conditions: Option<seq<Condition>>, state: ClaimState)
  type Claim = Object<ClaimSpec, ClaimStatus>

  datatype ReferenceSpec = ReferenceSpec(
    projectID: string, link: NamespacedName, ccs: bool, ccsSecret: NamespacedName, accountName: string, sharedVPC: bool)
  datatype ReferenceState = RefUnset | RefCreating | RefReady | RefError
  datatype ReferenceStatus = ReferenceStatus(conditions: Option<seq<Condition>>, state: ReferenceState)
  type Reference = Object<ReferenceSpec, ReferenceStatus>

  /** A secret remembers only whether the operator made it. */
  datatype SecretOrigin = MadeByUser | MadeByOperator
  type Secret = Object<SecretOrigin, ()>

  /** The name of the reference that belongs to a claim. */
  function ReferenceName(claim: NamespacedName): NamespacedName {
    NamespacedName(REFERENCE_NAMESPACE, claim.namespace + "-" + claim.name)
  }

  /** A claim may point at secrets of its own namespace only. */
  predicate ValidClaim(name: NamespacedName, spec: ClaimSpec) {
    && (spec.ccs ==> spec.ccsSecret.namespace == "" || spec.ccsSecret.namespace == name.namespace)
    && (spec.credentialSecret.namespace == "" || spec.credentialSecret.namespace == name.namespace)
  }

  predicate ValidReference(spec: ReferenceSpec) {
    spec.ccs ==> spec.ccsSecret.namespace == "" || spec.ccsSecret.namespace == spec.link.namespace
  }

  /** The reference the claim controller builds from a claim. */
  function NewReference(name: NamespacedName, claim: ClaimSpec, version: nat): Reference {
    Object(version, false, [],
           ReferenceSpec(if claim.ccs then claim.ccsProjectID else "", name, claim.ccs, claim.ccsSecret, "", claim.sharedVPC),
           ReferenceStatus(None, RefUnset))
  }

  /** The reference is for this claim, and has from it what it needs: field by field. */
  predicate BuiltFrom(name: NamespacedName, claim: ClaimSpec, reference: ReferenceSpec) {
    && reference.link == name && reference.projectID == (if claim.ccs then claim.ccsProjectID else "")
    && reference.ccs == claim.ccs && reference.ccsSecret == claim.ccsSecret
    && reference.sharedVPC == claim.sharedVPC && reference.accountName == ""
  }

  /** A service account name carries the default name and a random suffix. */
  predicate GeneratedName(account: string) {
    ACCOUNT_NAME_DEFAULT + "-" <= account && |ACCOUNT_NAME_DEFAULT + "-"| < |account|
  }

  predicate AccountNamed(account: string) {
    GeneratedName(account) || account == ACCOUNT_NAME_DEFAULT
  }

  // The store's rules: optimistic concurrency on the version, deletion held up by finalizers.

  /** A write is accepted only for the stored version. */
  predicate Current<S, T>(stored: Option<Object<S, T>>, copy: Object<S, T>) {
    stored.Some? && stored.value.version == copy.version
  }

  /** An update of metadata and specification may not add finalizers to an object that is being deleted. */
  predicate Accepted<S, T>(stored: Option<Object<S, T>>, copy: Object<S, T>) {
    && Current(stored, copy)
    && (stored.value.deleting ==> forall f :: f in copy.finalizers ==> f in stored.value.finalizers)
  }

  function Updated<S, T>(stored: Object<S, T>, copy: Object<S, T>, version: nat): Object<S, T> {
    stored.(version := version, finalizers := copy.finalizers, spec := copy.spec)
  }

  function StatusUpdated<S, T>(stored: Object<S, T>, copy: Object<S, T>, version: nat): Object<S, T> {
    stored.(version := version, status := copy.status)
  }

  /** An object marked for deletion disappears with its last finalizer. */
  function Kept<S, T>(stored: Object<S, T>): Option<Object<S, T>> {
    if stored.deleting && stored.finalizers == [] then None else Some(stored)
  }

  function Deleted<S, T>(stored: Object<S, T>, version: nat): Option<Object<S, T>> {
    if stored.deleting then Kept(stored) else Kept(stored.(deleting := true, version := version))
  }
}
