/** What every reachable state keeps, claim name by claim name. Each predicate speaks only of the parts it concerns. */
module Invariant {
  import opened Objects
  import opened Protocol

  type Secrets = map<NamespacedName, Secret>
  type Names = map<string, NamespacedName>
  type Projects = map<string, Project>

  /** The CCS finalizer is on the secret. */
  predicate Held(secrets: Secrets, key: NamespacedName) {
    key in secrets && CCS_FINALIZER in secrets[key].finalizers
  }

  /** The parts of a claim's specification that nobody changes. */
  predicate SameClaim(a: ClaimSpec, b: ClaimSpec) {
    a.ccs == b.ccs && a.ccsSecret == b.ccsSecret && a.credentialSecret == b.credentialSecret && a.sharedVPC == b.sharedVPC
  }

  // Versions

  predicate Older<S, T>(stored: Option<Object<S, T>>, clock: nat) {
    stored.Some? ==> stored.value.version < clock
  }

  /** A copy with the stored version is the stored object. */
  predicate Faithful<S(==), T(==)>(stored: Option<Object<S, T>>, copy: Object<S, T>) {
    Current(stored, copy) ==> stored.value == copy
  }

  function Lookup(secrets: Secrets, key: NamespacedName): Option<Secret> {
    if key in secrets then Some(secrets[key]) else None
  }

  predicate FreshStore(clock: nat, claim: Option<Claim>, reference: Option<Reference>, secrets: Secrets) {
    Older(claim, clock) && Older(reference, clock) && forall key | key in secrets :: secrets[key].version < clock
  }

  predicate FreshClaimPass(clock: nat, claim: Option<Claim>, secrets: Secrets, p: ClaimPass) {
    p.ClaimRunning? ==>
      && p.local.version < clock && Faithful(claim, p.local)
      && (p.secret.Some? ==> p.secret.value.version < clock && Faithful(Lookup(secrets, p.local.spec.ccsSecret), p.secret.value))
  }

  predicate FreshReferencePass(clock: nat, claim: Option<Claim>, reference: Option<Reference>, p: ReferencePass) {
    p.ReferenceRunning? ==>
      && p.local.version < clock && Faithful(reference, p.local)
      && (p.claim.Some? ==> p.claim.value.version < clock && Faithful(claim, p.claim.value))
  }

  // The reference and the pass working on it

  predicate MintedFor(names: Names, name: string, n: NamespacedName) {
    name in names && names[name] == n
  }

  predicate Shaped(n: NamespacedName, ids: Names, accountNames: Names, r: Reference) {
    && (r.finalizers == [] || r.finalizers == [FINALIZER])
    && r.spec.link == n && ValidReference(r.spec)
    && (r.spec.projectID != "" && !r.spec.ccs ==> MintedFor(ids, r.spec.projectID, n))
    && (r.spec.accountName != "" ==> MintedFor(accountNames, r.spec.accountName, n) && AccountNamed(r.spec.accountName))
    && (FINALIZER in r.finalizers ==> r.spec.accountName != "")
    && (r.status.state == RefReady ==> (FINALIZER in r.finalizers || r.deleting) && r.spec.projectID != "")
  }

  predicate ShapedStored(n: NamespacedName, ids: Names, accountNames: Names, reference: Option<Reference>) {
    reference.Some? ==>
      && Shaped(n, ids, accountNames, reference.value)
      && (reference.value.deleting ==> FINALIZER in reference.value.finalizers)
  }

  predicate ShapedLocal(n: NamespacedName, ids: Names, accountNames: Names, p: ReferencePass) {
    p.ReferenceRunning? ==>
      && Shaped(n, ids, accountNames, p.local)
      && (!p.closing && p.local.deleting ==> FINALIZER in p.local.finalizers)
  }

  predicate ClaimShaped(claim: Option<Claim>) {
    claim.Some? && claim.value.deleting ==> claim.value.finalizers != []
  }

  /** A working pass on a reference that holds its finalizer has the stored reference before it, up to a deletion mark. */
  predicate Linked(reference: Option<Reference>, p: ReferencePass) {
    p.ReferenceRunning? && !p.closing ==>
      && p.project == p.local.spec.projectID && p.account == p.local.spec.accountName
      && (FINALIZER in p.local.finalizers ==>
            && reference.Some?
            && reference.value == p.local.(version := reference.value.version, deleting := reference.value.deleting)
            && (p.local.deleting ==> reference.value.deleting))
  }

  // The claim outlives its reference

  predicate HoldsFinalizer(reference: Option<Reference>) {
    reference.Some? && FINALIZER in reference.value.finalizers
  }

  predicate ClaimHoldsFinalizer(claim: Option<Claim>) {
    claim.Some? && FINALIZER in claim.value.finalizers
  }

  /** The claim is on its way out: no pass can create its reference again. */
  predicate Ending(claim: Option<Claim>, reference: Option<Reference>, p: ClaimPass) {
    claim.Some? && claim.value.deleting && reference.None? && (p.ClaimRunning? ==> p.local.deleting)
  }

  predicate ClaimStays(claim: Option<Claim>, reference: Option<Reference>) {
    HoldsFinalizer(reference) ==> ClaimHoldsFinalizer(claim)
  }

  predicate PendingIsPrepared(claim: Option<Claim>, reference: Option<Reference>, secrets: Secrets, p: ClaimPass) {
    claim.Some? && claim.value.status.state == PendingProject ==>
      || Ending(claim, reference, p)
      || (FINALIZER in claim.value.finalizers && (claim.value.spec.ccs ==> Held(secrets, claim.value.spec.ccsSecret)))
  }

  /** What the reference pass saw of the claim still binds while nobody else wrote the reference. */
  predicate SnapshotBinds(claim: Option<Claim>, reference: Option<Reference>, secrets: Secrets, p: ReferencePass) {
    p.ReferenceRunning? && p.claim.Some? && Current(reference, p.local)
    && (p.claim.value.status.state == PendingProject || HoldsFinalizer(reference)) ==>
      && ClaimHoldsFinalizer(claim) && SameClaim(claim.value.spec, p.claim.value.spec)
      && (p.claim.value.status.state == PendingProject && claim.value.spec.ccs ==> Held(secrets, claim.value.spec.ccsSecret))
  }

  predicate ClaimPassKnows(claim: Option<Claim>, reference: Option<Reference>, secrets: Secrets, p: ClaimPass, disturbed: bool) {
    p.ClaimRunning? ==>
      && (p.refAbsent ==> reference.None?)
      && (p.held ==> Held(secrets, p.local.spec.ccsSecret))
      && (!p.closing && p.local.deleting ==> claim.Some? && claim.value.deleting)
      && (!p.local.deleting && !disturbed ==>
            && (reference.Some? ==> !reference.value.deleting)
            && (p.refSeen ==> reference.Some?))
  }

  /** A working pass that read the claim with its finalizer works for the claim that is stored,
      and has released the customer's secret for good, unless a user forges the finalizer. */
  predicate ClaimPassServes(claim: Option<Claim>, secrets: Secrets, forged: set<NamespacedName>, p: ClaimPass) {
    p.ClaimRunning? && !p.closing ==>
      && (FINALIZER in p.local.finalizers ==> ClaimHoldsFinalizer(claim) && SameClaim(claim.value.spec, p.local.spec))
      && (p.released && p.local.deleting ==> p.local.spec.ccsSecret in forged || !Held(secrets, p.local.spec.ccsSecret))
  }

  predicate DeletionFollowsClaim(claim: Option<Claim>, reference: Option<Reference>, disturbed: bool) {
    reference.Some? && reference.value.deleting && !disturbed ==> claim.Some? && claim.value.deleting
  }

  /** The reference was built from this claim and not from an earlier one of the same name. */
  predicate Matches(r: ReferenceSpec, claim: ClaimSpec) {
    r.ccs ==> claim.ccs && claim.ccsSecret == r.ccsSecret
  }

  predicate CredentialsStay(claim: Option<Claim>, reference: Option<Reference>, secrets: Secrets) {
    HoldsFinalizer(reference) && reference.value.spec.ccs && claim.Some? && Matches(reference.value.spec, claim.value.spec) ==>
      Held(secrets, reference.value.spec.ccsSecret)
  }

  /** A secret carries the operator's finalizer only on behalf of a claim that holds its own, or because a user forged it. */
  predicate HeldForClaim(claim: Option<Claim>, secrets: Secrets, forged: set<NamespacedName>) {
    forall key | key in secrets && CCS_FINALIZER in secrets[key].finalizers ::
      key in forged || (ClaimHoldsFinalizer(claim) && claim.value.spec.ccs && claim.value.spec.ccsSecret == key)
  }

  predicate MarkedMeansDeleted(secrets: Secrets, deleted: set<NamespacedName>) {
    forall key | key in secrets :: secrets[key].deleting <==> key in deleted
  }

  // The project

  /** The reference has the project's name, and its finalizer keeps it from going away. */
  predicate Keeps(reference: Option<Reference>, id: string) {
    HoldsFinalizer(reference) && reference.value.spec.projectID == id && !reference.value.spec.ccs
  }

  /** The reference has the project's name, finalizer or not. */
  predicate Bears(reference: Option<Reference>, id: string) {
    reference.Some? && reference.value.spec.projectID == id && !reference.value.spec.ccs
  }

  /** The projects made for a claim: an active one is kept by the reference, unless it was abandoned, and then it stays so. */
  predicate Ownership(n: NamespacedName, reference: Option<Reference>, ids: Names, projects: Projects) {
    forall id | id in projects && projects[id].creator == Some(n) ::
      && MintedFor(ids, id, n)
      && (projects[id].state == Active && !projects[id].abandoned ==> Keeps(reference, id))
      && (projects[id].abandoned ==> !Bears(reference, id))
  }

  /** A generated principal has grants only while its account exists, or after others took the account away. */
  predicate GrantsNeedAccounts(n: NamespacedName, projects: Projects, accountNames: Names) {
    forall id | id in projects ::
      forall grant | grant in projects[id].grants && grant.1.ServiceAccount? && MintedFor(accountNames, grant.1.account, n) ::
        grant.1.account in projects[id].accounts || grant.1.account in projects[id].taken.accounts
  }

  predicate NoGrants(p: Project, account: string) {
    forall grant | grant in p.grants :: grant.1 != ServiceAccount(account)
  }

  /** The names a pass is bound to were made for this claim, and customers' projects are neither listed nor created. */
  predicate BoundNames(n: NamespacedName, ccs: bool, project: string, account: string, know: Knowledge, ids: Names, accountNames: Names) {
    && (!ccs && project != "" ==> MintedFor(ids, project, n))
    && (account != "" ==> MintedFor(accountNames, account, n))
    && (ccs ==> know.listed == NotListed && !know.createFailed && know.billing == "")
    && (know.account != NotRead ==> account != "")
    && (know.revoked || know.granted != {} ==> know.account != NotRead)
  }

  predicate KnowsProject(project: string, deleting: bool, know: Knowledge, projects: Projects) {
    && (know.listed == Missing && !know.createFailed ==> project !in projects)
    && (know.listed == Found(DeleteRequested) ==> project in projects && projects[project].state != Active)
    && (know.listed == Found(Active) ==>
          && !know.createFailed && project in projects
          && (!deleting ==> projects[project].state == Active || projects[project].taken.closed))
  }

  predicate KnowsContents(project: string, account: string, deleting: bool, know: Knowledge, projects: Projects) {
    && (know.apis != {} || know.billing != "" || know.granted != {} || know.account == Present ==> project in projects)
    && (know.revoked ==> deleting)
    && (project in projects ==>
          var q := projects[project];
          && (know.account == Absent ==> account !in q.accounts)
          && (know.revoked ==> NoGrants(q, account))
          && know.apis <= q.apis + q.taken.apis
          && (know.billing != "" ==> q.billing != "" || q.taken.unlinked)
          && (know.account == Present ==> account in q.accounts || account in q.taken.accounts)
          && (!deleting ==> GrantsOf(know.granted, ServiceAccount(account)) <= q.grants + q.taken.grants))
  }

  /** What was granted to groups is there, or others took it away; whatever a revoked group has, it was given afterwards. */
  predicate KnowsGroups(project: string, know: Knowledge, projects: Projects) {
    && (know.groupGrants != {} ==> project in projects)
    && (project in projects ==>
          var q := projects[project];
          && know.groupGrants <= q.grants + q.taken.grants
          && (forall grant | grant in q.grants && grant.1 in know.groupsRevoked :: grant in q.given))
    && (forall grant | grant in know.groupGrants :: grant.1.Group?)
    && (forall who | who in know.groupsRevoked :: who.Group?)
  }

  predicate KnowsSecret(claim: Option<Claim>, deleting: bool, know: Knowledge, secrets: Secrets, traces: Traces) {
    know.secret != NotRead ==>
      && claim.Some?
      && var key := claim.value.spec.credentialSecret;
      && (know.secret == Present && key !in traces.deleted ==> key in secrets)
      && (know.secret == Absent && deleting ==> (LeftBehind(secrets, key) <==> key in traces.hidden))
  }

  predicate Knows(n: NamespacedName, p: ReferencePass, secrets: Secrets, traces: Traces, c: Cloud) {
    p.ReferenceRunning? ==>
      && BoundNames(n, p.local.spec.ccs, p.project, p.account, p.know, c.ids, c.accountNames)
      && KnowsProject(p.project, p.local.deleting, p.know, c.projects)
      && KnowsContents(p.project, p.account, p.local.deleting, p.know, c.projects)
      && KnowsGroups(p.project, p.know, c.projects)
      && KnowsSecret(p.claim, p.local.deleting, p.know, secrets, traces)
  }

  // Ready

  /** The project has what a Ready reference stands for, but for what others took away and nobody has restored. */
  predicate ReadyProject(p: Project, spec: ReferenceSpec) {
    && (forall api | api in REQUIRED_APIS :: api in p.apis || api in p.taken.apis)
    && (spec.accountName in p.accounts || spec.accountName in p.taken.accounts)
    && (forall role | role in AccountRoles(spec.sharedVPC) ::
          (role, ServiceAccount(spec.accountName)) in p.grants || (role, ServiceAccount(spec.accountName)) in p.taken.grants)
    && (!spec.ccs ==> (p.state == Active || p.taken.closed) && (p.billing != "" || p.taken.unlinked))
  }

  predicate ReadyReference(reference: Option<Reference>, projects: Projects) {
    reference.Some? && reference.value.status.state == RefReady && !reference.value.deleting ==>
      var spec := reference.value.spec;
      FINALIZER in reference.value.finalizers && spec.projectID in projects && ReadyProject(projects[spec.projectID], spec)
  }

  predicate ReadyCredentials(claim: Option<Claim>, reference: Option<Reference>, secrets: Secrets, deleted: set<NamespacedName>) {
    reference.Some? && reference.value.status.state == RefReady && !reference.value.deleting ==>
      claim.Some? && (claim.value.spec.credentialSecret in secrets || claim.value.spec.credentialSecret in deleted)
  }

  predicate ReadyClaim(claim: Option<Claim>) {
    claim.Some? && claim.value.status.state == ClaimState.Ready ==>
      claim.value.spec.zones != [] && claim.value.spec.projectID != ""
  }

  predicate PublishedAgrees(published: Option<string>, claim: Option<Claim>, reference: Option<Reference>) {
    published.Some? ==>
      && claim.Some? && claim.value.spec.projectID == published.value
      && HoldsFinalizer(reference)
      && reference.value.spec.projectID == published.value && reference.value.status.state == RefReady
  }

  predicate StoreInv(n: NamespacedName, s: Slot, c: Cloud) {
    && FreshStore(s.clock, s.claim, s.reference, s.secrets)
    && FreshClaimPass(s.clock, s.claim, s.secrets, s.claimPass)
    && FreshReferencePass(s.clock, s.claim, s.reference, s.refPass)
    && ClaimShaped(s.claim)
    && ShapedStored(n, c.ids, c.accountNames, s.reference)
    && ShapedLocal(n, c.ids, c.accountNames, s.refPass)
    && Linked(s.reference, s.refPass)
  }

  predicate ClaimInv(s: Slot) {
    && ClaimStays(s.claim, s.reference)
    && ClaimPassKnows(s.claim, s.reference, s.secrets, s.claimPass, s.referenceDisturbed)
    && ClaimPassServes(s.claim, s.secrets, s.traces.forged, s.claimPass)
    && DeletionFollowsClaim(s.claim, s.reference, s.referenceDisturbed)
  }

  predicate PendingInv(s: Slot) {
    && PendingIsPrepared(s.claim, s.reference, s.secrets, s.claimPass)
    && SnapshotBinds(s.claim, s.reference, s.secrets, s.refPass)
  }

  predicate SecretInv(s: Slot) {
    && CredentialsStay(s.claim, s.reference, s.secrets)
    && HeldForClaim(s.claim, s.secrets, s.traces.forged)
    && MarkedMeansDeleted(s.secrets, s.traces.deleted)
  }

  predicate ProjectInv(n: NamespacedName, s: Slot, c: Cloud) {
    && "" !in c.projects
    && Ownership(n, s.reference, c.ids, c.projects)
    && GrantsNeedAccounts(n, c.projects, c.accountNames)
    && Knows(n, s.refPass, s.secrets, s.traces, c)
  }

  predicate ReadyInv(s: Slot, c: Cloud) {
    && ReadyReference(s.reference, c.projects)
    && ReadyCredentials(s.claim, s.reference, s.secrets, s.traces.deleted)
    && ReadyClaim(s.claim)
    && PublishedAgrees(s.published, s.claim, s.reference)
  }

  predicate SlotInv(n: NamespacedName, s: Slot, c: Cloud) {
    StoreInv(n, s, c) && ClaimInv(s) && PendingInv(s) && SecretInv(s) && ProjectInv(n, s, c) && ReadyInv(s, c)
  }

  predicate Inv(s: System) {
    forall n | n in s.slots :: SlotInv(n, s.slots[n], s.cloud)
  }
}
