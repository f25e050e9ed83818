/** The two controllers, the users and the cloud as one labelled transition system.
    A label fixes everything a step leaves open; a run is a sequence of enabled steps in any order.
    A controller's step is one API call of a pass, allowed by what that pass has read so far. */
module Protocol {
  import opened Operations
  import opened Lists
  import opened Conditions
  import opened Objects

  /** What became of a call: carried out; not carried out; carried out although the caller was told it failed. */
  datatype Outcome = Ok | Fail | Lost

  // The cloud

  datatype Lifecycle = Active | DeleteRequested | Unspecified
  datatype Principal = ServiceAccount(account: string) | Group(email: string)

  type Grants = set<(string, Principal)>

  /** What others took away from a project and nobody has restored: its life, its link to a billing account, and so on. */
  datatype Taken = Taken(closed: bool, unlinked: bool, apis: set<string>, accounts: set<string>, grants: Grants)

  const NOTHING_TAKEN := Taken(false, false, {}, {}, {})

  /** `creator` is the claim whose reference created the project, `abandoned` says that this reference gave the name up again,
      and `given` are the grants made since the operator last revoked their holder. */
  datatype Project = Project(
    state: Lifecycle, creator: Option<NamespacedName>, abandoned: bool, billing: string,
    apis: set<string>, accounts: set<string>, grants: Grants, taken: Taken, given: Grants)

  /** `ids` and `accountNames` record for which claim each generated name was made. */
  datatype Cloud = Cloud(projects: map<string, Project>, ids: map<string, NamespacedName>, accountNames: map<string, NamespacedName>)

  const REQUIRED_APIS: seq<string> := [
    "serviceusage.googleapis.com", "cloudresourcemanager.googleapis.com", "storage-component.googleapis.com",
    "storage-api.googleapis.com", "dns.googleapis.com", "iam.googleapis.com", "compute.googleapis.com",
    "cloudapis.googleapis.com", "iamcredentials.googleapis.com", "servicemanagement.googleapis.com",
    "networksecurity.googleapis.com", "iap.googleapis.com"]

  const BILLING_API := "cloudbilling.googleapis.com"

  /** The roles of the service account; a shared network needs more. */
  function AccountRoles(sharedVPC: bool): seq<string> {
    var required := [
      "roles/compute.admin", "roles/dns.admin", "roles/iam.roleAdmin", "roles/iam.securityAdmin",
      "roles/iam.serviceAccountAdmin", "roles/iam.serviceAccountKeyAdmin", "roles/iam.serviceAccountUser", "roles/storage.admin"];
    var more := [
      "roles/iam.securityReviewer", "roles/compute.loadBalancerAdmin", "roles/resourcemanager.tagUser", "roles/compute.networkAdmin"];
    if sharedVPC then required + more else required
  }

  /** The roles of the groups that have access to a customer's project. */
  function ConsoleRoles(readOnly: bool): seq<string> {
    if readOnly then ["roles/viewer"]
    else [
      "roles/compute.admin", "roles/editor", "roles/resourcemanager.projectIamAdmin", "roles/servicemanagement.quotaAdmin",
      "roles/iam.serviceAccountAdmin", "roles/serviceusage.serviceUsageAdmin", "roles/iam.roleAdmin",
      "roles/cloudsupport.techSupportEditor", "roles/iap.tunnelResourceAccessor"]
  }

  function AsSet(roles: seq<string>): set<string> {
    set role | role in roles
  }

  function GrantsOf(roles: set<string>, who: Principal): Grants {
    set role | role in roles :: (role, who)
  }

  function Without(grants: Grants, who: Principal): Grants {
    set grant | grant in grants && grant.1 != who
  }

  // One claim name: its stored objects and the passes its two controllers are in

  /** `closing` means that only the trailing status write is left, `wrote` that the store has taken a write of the pass's own object;
      `local` is the last copy the store answered with;
      `held` and `released` say whether the customer's secret was last seen with the operator's finalizer or without. */
  datatype ClaimPass =
    | ClaimIdle
    | ClaimRunning(closing: bool, wrote: bool, local: Claim, refAbsent: bool, refSeen: bool, secret: Option<Secret>, held: bool, released: bool, reply: Error)

  datatype Presence = NotRead | Present | Absent
  datatype Listing = NotListed | Missing | Found(state: Lifecycle)

  /** What a reference pass has learnt about the cloud and the credential secret. */
  datatype Knowledge = Knowledge(
    listed: Listing, createFailed: bool, apis: set<string>, billing: string, account: Presence, revoked: bool,
    granted: set<string>, groupGrants: Grants, groupsRevoked: set<Principal>, secret: Presence)

  const NOTHING_KNOWN := Knowledge(NotListed, false, {}, "", NotRead, false, {}, {}, {}, NotRead)

  /** `project` and `account` are the names the pass started with: the cloud client is bound to them. */
  datatype ReferencePass =
    | ReferenceIdle
    | ReferenceRunning(closing: bool, wrote: bool, project: string, account: string, local: Reference, claim: Option<Claim>, know: Knowledge, reply: Error)

  /** What became of secrets: `deleted` since they were last made; `forged` by a user, who put the operator's finalizer on them;
      `hidden` from a reference pass, whose last read failed although the operator's secret was there, and still is. */
  datatype Traces = Traces(deleted: set<NamespacedName>, forged: set<NamespacedName>, hidden: set<NamespacedName>)

  /** `clock` is the next resource version. `published` is the project ID that the reference controller wrote into an empty claim,
      for as long as that claim and that reference live. `referenceDisturbed` says that a user deleted the last reference made. */
  datatype Slot = Slot(
    clock: nat, claim: Option<Claim>, reference: Option<Reference>, secrets: map<NamespacedName, Secret>,
    claimPass: ClaimPass, refPass: ReferencePass,
    published: Option<string>, referenceDisturbed: bool, traces: Traces)

  datatype System = System(slots: map<NamespacedName, Slot>, cloud: Cloud)

  const EMPTY_SLOT := Slot(0, None, None, map[], ClaimIdle, ReferenceIdle, None, false, Traces({}, {}, {}))

  // Labels

  datatype UserAct =
    | CreateClaim(finalizers: seq<string>, spec: ClaimSpec)
    | DeleteClaim
    | DeleteReference
    | CreateSecret(key: NamespacedName, finalizers: seq<string>)
    | DeleteSecret(key: NamespacedName)

  datatype ClaimAct =
    | CStart
    | CEnd
    | CReadReference
    | CCreateReference
    | CDeleteReference
    | CSetLink
    | CAddFinalizer
    | CDropFinalizer
    | CStatus(claimStatus: ClaimStatus)
    | CReadSecret
    | CHoldSecret
    | CReleaseSecret

  datatype ReferenceAct =
    | RStart
    | REnd
    | RReadClaim
    | RAddFinalizer
    | RDropFinalizer
    | RMintID(id: string)
    | RClearID
    | RMintAccount(accountName: string)
    | RStatus(status: ReferenceStatus)
    | RList
    | RCreateProject
    | RDeleteProject
    | RListApis
    | REnableApi(api: string)
    | RReadBilling
    | RSetBilling(billing: string)
    | RReadAccount
    | RCreateAccount
    | RDeleteAccount
    | RGrant(who: Principal, roles: set<string>)
    | RRevoke(who: Principal)
    | RReadSecret
    | RCreateSecret
    | RDeleteSecret
    | RSetZones(zones: seq<string>)
    | RPublishID
    | RClaimReady

  datatype Label =
    | ByUser(name: NamespacedName, user: UserAct)
    | ByClaimController(name: NamespacedName, claimAct: ClaimAct, o: Outcome)
    | ByReferenceController(name: NamespacedName, refAct: ReferenceAct, o: Outcome)
    | ByOutsider(id: string, project: Project)

  // User steps

  predicate UserMay(s: Slot, a: UserAct) {
    match a
    case CreateClaim(_, _) => s.claim.None?
    case DeleteClaim => s.claim.Some?
    case DeleteReference => s.reference.Some?
    case CreateSecret(key, _) => key !in s.secrets
    case DeleteSecret(key) => key in s.secrets
  }

  function StoreSecret(secrets: map<NamespacedName, Secret>, key: NamespacedName, secret: Option<Secret>): map<NamespacedName, Secret> {
    if secret.Some? then secrets[key := secret.value] else secrets - {key}
  }

  function UserStep(s: Slot, a: UserAct): Slot
    requires UserMay(s, a)
  {
    match a
    case CreateClaim(finalizers, spec) =>
      s.(claim := Some(Object(s.clock, false, finalizers, spec, ClaimStatus(None, Unset))), clock := s.clock + 1, published := None)
    case DeleteClaim =>
      s.(claim := Deleted(s.claim.value, s.clock), clock := s.clock + 1)
    case DeleteReference =>
      s.(reference := Deleted(s.reference.value, s.clock), clock := s.clock + 1, referenceDisturbed := true,
         published := if Deleted(s.reference.value, s.clock).None? then None else s.published)
    case CreateSecret(key, finalizers) =>
      s.(secrets := s.secrets[key := Object(s.clock, false, finalizers, MadeByUser, ())], clock := s.clock + 1,
         traces := s.traces.(deleted := s.traces.deleted - {key},
                             forged := if CCS_FINALIZER in finalizers then s.traces.forged + {key} else s.traces.forged - {key}))
    case DeleteSecret(key) =>
      s.(secrets := StoreSecret(s.secrets, key, Deleted(s.secrets[key], s.clock)), clock := s.clock + 1,
         traces := s.traces.(deleted := s.traces.deleted + {key}, hidden := s.traces.hidden - {key}))
  }

  // The claim controller

  /** The states a pass may write, from the state its local copy was stored with. */
  predicate ClaimStateMay(n: NamespacedName, p: ClaimPass, next: ClaimState)
    requires p.ClaimRunning?
  {
    var state := p.local.status.state;
    || next == state
    || next == ClaimState.Error
    || (next == Pending && state in {Unset, ClaimState.Error})
    || (next == PendingProject && state in {Pending, ClaimState.Error} && !p.local.deleting
        && p.refSeen && p.local.spec.link == ReferenceName(n) && FINALIZER in p.local.finalizers
        && (p.local.spec.ccs ==> p.held))
  }

  predicate ClaimMay(n: NamespacedName, s: Slot, a: ClaimAct) {
    var p := s.claimPass;
    match a
    case CStart => p.ClaimIdle? && s.claim.Some?
    case CEnd => p.ClaimRunning?
    case CReadReference => p.ClaimRunning? && !p.closing
    case CCreateReference => p.ClaimRunning? && !p.closing && !p.local.deleting && p.refAbsent && ValidClaim(n, p.local.spec)
    case CDeleteReference => p.ClaimRunning? && !p.closing && p.local.deleting
    case CSetLink => p.ClaimRunning? && !p.closing && !p.local.deleting
    case CAddFinalizer => p.ClaimRunning? && !p.closing && !p.local.deleting && FINALIZER !in p.local.finalizers
    case CDropFinalizer => p.ClaimRunning? && !p.closing && p.local.deleting && p.refAbsent && (p.local.spec.ccs ==> p.released)
    case CStatus(status) => p.ClaimRunning? && ClaimStateMay(n, p, status.state)
    case CReadSecret => p.ClaimRunning? && !p.closing && p.local.spec.ccs
    case CHoldSecret =>
      p.ClaimRunning? && !p.closing && p.local.spec.ccs && !p.local.deleting && p.secret.Some? && FINALIZER in p.local.finalizers
    case CReleaseSecret => p.ClaimRunning? && !p.closing && p.local.spec.ccs && p.local.deleting && p.refAbsent && p.secret.Some?
  }

  /** Update of the claim's metadata and specification; nothing but the trailing status write follows it. */
  function ClaimUpdate(s: Slot, copy: Claim, o: Outcome): Slot
    requires s.claimPass.ClaimRunning?
  {
    var p := s.claimPass.(closing := true);
    if o.Fail? || !Accepted(s.claim, copy) then s.(claimPass := p.(reply := Failed))
    else
      var stored := Updated(s.claim.value, copy, s.clock);
      s.(clock := s.clock + 1, claim := Kept(stored),
         claimPass := if o.Ok? then p.(wrote := true, local := stored, reply := NoError) else p.(wrote := true, reply := Failed))
  }

  function ClaimStatusUpdate(s: Slot, copy: Claim, o: Outcome): Slot
    requires s.claimPass.ClaimRunning?
  {
    var p := s.claimPass.(closing := true);
    if o.Fail? || !Current(s.claim, copy) then s.(claimPass := p.(reply := Failed))
    else
      var stored := StatusUpdated(s.claim.value, copy, s.clock);
      s.(clock := s.clock + 1, claim := Some(stored),
         claimPass := if o.Ok? then p.(wrote := true, local := stored, reply := NoError) else p.(wrote := true, reply := Failed))
  }

  /** Update of the CCS secret's finalizers. */
  function SecretUpdate(s: Slot, copy: Secret, held: bool, o: Outcome): Slot
    requires s.claimPass.ClaimRunning?
  {
    var p := s.claimPass;
    var key := p.local.spec.ccsSecret;
    var stored := if key in s.secrets then Some(s.secrets[key]) else None;
    if o.Fail? || !Accepted(stored, copy) then s.(claimPass := p.(reply := Failed, held := held && p.held, released := !held && p.released))
    else
      var secret := Updated(stored.value, copy, s.clock);
      s.(clock := s.clock + 1, secrets := StoreSecret(s.secrets, key, Kept(secret)),
         claimPass := if o.Ok? then p.(secret := Some(secret), reply := NoError, held := held, released := !held)
                      else p.(reply := Failed, held := held && p.held, released := !held && p.released))
  }

  function ReferenceCreation(n: NamespacedName, s: Slot, o: Outcome): Slot
    requires s.claimPass.ClaimRunning?
  {
    var p := s.claimPass;
    if o.Fail? then s.(claimPass := p.(reply := Failed))
    else if s.reference.Some? then s.(claimPass := p.(reply := AlreadyExists))
    else
      s.(clock := s.clock + 1, reference := Some(NewReference(n, p.local.spec, s.clock)), referenceDisturbed := false,
         claimPass := p.(refAbsent := false, refSeen := true, reply := if o.Ok? then NoError else Failed))
  }

  function ReferenceDeletion(s: Slot, o: Outcome): Slot
    requires s.claimPass.ClaimRunning?
  {
    var p := s.claimPass;
    if o.Fail? then s.(claimPass := p.(reply := Failed))
    else if s.reference.None? then s.(claimPass := p.(reply := NotFound))
    else
      var left := Deleted(s.reference.value, s.clock);
      s.(clock := s.clock + 1, reference := left, published := if left.None? then None else s.published,
         claimPass := p.(reply := if o.Ok? then NoError else Failed))
  }

  function ClaimStep(n: NamespacedName, s: Slot, a: ClaimAct, o: Outcome): Slot
    requires ClaimMay(n, s, a)
  {
    var p := s.claimPass;
    match a
    case CStart => s.(claimPass := ClaimRunning(false, false, s.claim.value, false, false, None, false, false, NoError))
    case CEnd => s.(claimPass := ClaimIdle)
    case CReadReference =>
      if !o.Ok? then s.(claimPass := p.(reply := Failed))
      else if s.reference.None? then s.(claimPass := p.(reply := NotFound, refAbsent := true))
      else s.(claimPass := p.(reply := NoError, refSeen := true))
    case CCreateReference => ReferenceCreation(n, s, o)
    case CDeleteReference => ReferenceDeletion(s, o)
    case CSetLink => ClaimUpdate(s, p.local.(spec := p.local.spec.(link := ReferenceName(n))), o)
    case CAddFinalizer => ClaimUpdate(s, p.local.(finalizers := p.local.finalizers + [FINALIZER]), o)
    case CDropFinalizer => ClaimUpdate(s, p.local.(finalizers := Filtered(p.local.finalizers, FINALIZER)), o)
    case CStatus(status) => ClaimStatusUpdate(s, p.local.(status := status), o)
    case CReadSecret =>
      var key := p.local.spec.ccsSecret;
      if !o.Ok? then s.(claimPass := p.(reply := Failed))
      else if key !in s.secrets then s.(claimPass := p.(reply := NotFound, released := true))
      else
        var held := CCS_FINALIZER in s.secrets[key].finalizers;
        s.(claimPass := p.(reply := NoError, secret := Some(s.secrets[key]), held := p.held || held, released := !held))
    case CHoldSecret => SecretUpdate(s, p.secret.value.(finalizers := p.secret.value.finalizers + [CCS_FINALIZER]), true, o)
    case CReleaseSecret => SecretUpdate(s, p.secret.value.(finalizers := Filtered(p.secret.value.finalizers, CCS_FINALIZER)), false, o)
  }

  // The reference controller

  /** The pass may still act, on a reference that is not being deleted and not yet Ready, for a claim seen in PendingProject. */
  predicate Building(p: ReferencePass) {
    && p.ReferenceRunning? && !p.closing && !p.local.deleting
    && p.local.status.state != RefReady && ValidReference(p.local.spec)
    && p.claim.Some? && p.claim.value.status.state == PendingProject
  }

  /** The project may be configured: it is a customer's, or it was listed as active. */
  predicate Configuring(p: ReferencePass) {
    && Building(p) && FINALIZER in p.local.finalizers && !p.know.createFailed
    && (p.local.spec.ccs || p.know.listed == Found(Active))
  }

  predicate CleaningUp(p: ReferencePass) {
    p.ReferenceRunning? && !p.closing && p.local.deleting && p.claim.Some?
  }

  /** Everything a Ready reference stands for was seen in this pass. */
  predicate Configured(p: ReferencePass)
    requires p.ReferenceRunning?
  {
    && FINALIZER in p.local.finalizers && p.project != "" && p.local.spec.projectID == p.project
    && AccountNamed(p.account) && p.local.spec.accountName == p.account
    && p.claim.Some? && p.claim.value.status.state == PendingProject && !p.local.deleting && ValidReference(p.local.spec)
    && (forall api | api in REQUIRED_APIS :: api in p.know.apis)
    && p.know.account == Present
    && (forall role | role in AccountRoles(p.local.spec.sharedVPC) :: role in p.know.granted)
    && p.know.secret == Present
    && (!p.local.spec.ccs ==> p.know.listed == Found(Active) && p.know.billing != "")
  }

  /** Everything the reference stands for is gone, as far as this pass could see. */
  predicate CleanedUp(p: ReferencePass)
    requires p.ReferenceRunning?
  {
    && p.know.account == Absent && !p.know.createFailed
    && (p.local.spec.ccs || p.know.listed == Missing || p.know.listed == Found(DeleteRequested))
    && p.know.secret == Absent
  }

  predicate ReferenceStateMay(p: ReferencePass, next: ReferenceState)
    requires p.ReferenceRunning?
  {
    var state := p.local.status.state;
    || next == state
    || (next == RefCreating && state == RefUnset)
    || (next == RefError && (state != RefReady || !ValidReference(p.local.spec)))
    || (next == RefReady && Configured(p))
  }

  /** The pass may hand results over to the claim. */
  predicate Publishing(p: ReferencePass) {
    p.ReferenceRunning? && !p.closing && !p.local.deleting && p.local.status.state == RefReady && p.claim.Some?
  }

  /** The name was never generated before and means nothing to any project. */
  predicate Unused(c: Cloud, account: string) {
    && account !in c.accountNames
    && (forall id | id in c.projects ::
          && account !in c.projects[id].accounts
          && (forall grant | grant in c.projects[id].grants + c.projects[id].given :: grant.1 != ServiceAccount(account)))
  }

  predicate ReferenceMay(n: NamespacedName, s: Slot, c: Cloud, a: ReferenceAct) {
    var p := s.refPass;
    match a
    case RStart => p.ReferenceIdle? && s.reference.Some?
    case REnd => p.ReferenceRunning?
    case RReadClaim => p.ReferenceRunning? && !p.closing && p.claim.None?
    case RAddFinalizer => Building(p) && FINALIZER !in p.local.finalizers && p.project != "" && AccountNamed(p.account)
    case RDropFinalizer => CleaningUp(p) && CleanedUp(p)
    case RMintID(id) => Building(p) && p.project == "" && id != "" && id !in c.ids && id !in c.projects
    case RClearID => Building(p) && p.know.createFailed
    case RMintAccount(account) =>
      Building(p) && !AccountNamed(p.account) && GeneratedName(account) && Unused(c, account)
    case RStatus(status) => p.ReferenceRunning? && ReferenceStateMay(p, status.state)
    case RList => p.ReferenceRunning? && !p.closing && !p.local.spec.ccs && !p.know.createFailed
    case RCreateProject =>
      && Building(p) && FINALIZER in p.local.finalizers && !p.local.spec.ccs && p.project != ""
      && p.know.listed == Missing && !p.know.createFailed
    case RDeleteProject => CleaningUp(p) && !p.local.spec.ccs && p.know.listed == Found(Active)
    case RListApis => Configuring(p)
    case REnableApi(api) => Configuring(p) && (api in REQUIRED_APIS || api == BILLING_API)
    case RReadBilling => Configuring(p) && !p.local.spec.ccs
    case RSetBilling(_) => Configuring(p) && !p.local.spec.ccs
    case RReadAccount => Configuring(p) || CleaningUp(p)
    case RCreateAccount => Configuring(p)
    case RDeleteAccount => CleaningUp(p) && p.know.account == Present && p.know.revoked
    case RGrant(who, roles) =>
      && Configuring(p)
      && if who.Group? then roles == AsSet(ConsoleRoles(true)) || roles == AsSet(ConsoleRoles(false))
         else who == ServiceAccount(p.account) && p.know.account == Present && roles == AsSet(AccountRoles(p.local.spec.sharedVPC))
    case RRevoke(who) =>
      CleaningUp(p) && (who.Group? || (who == ServiceAccount(p.account) && p.know.account == Present))
    case RReadSecret => Configuring(p) || CleaningUp(p)
    case RCreateSecret => Configuring(p) && p.know.secret == Absent
    case RDeleteSecret => CleaningUp(p) && p.know.secret == Present
    case RSetZones(_) => Publishing(p) && p.claim.value.spec.zones == []
    case RPublishID => Publishing(p) && p.claim.value.spec.projectID == ""
    case RClaimReady => Publishing(p) && p.claim.value.spec.zones != [] && p.claim.value.spec.projectID != ""
  }

  function Reply(s: Slot, reply: Error): Slot
    requires s.refPass.ReferenceRunning?
  {
    s.(refPass := s.refPass.(reply := reply))
  }

  function ReferenceUpdate(s: Slot, copy: Reference, o: Outcome): Slot
    requires s.refPass.ReferenceRunning?
  {
    var p := s.refPass.(closing := true);
    if o.Fail? || !Accepted(s.reference, copy) then s.(refPass := p.(reply := Failed))
    else
      var stored := Updated(s.reference.value, copy, s.clock);
      s.(clock := s.clock + 1, reference := Kept(stored), published := if Kept(stored).None? then None else s.published,
         refPass := if o.Ok? then p.(wrote := true, local := stored, reply := NoError) else p.(wrote := true, reply := Failed))
  }

  function ReferenceStatusUpdate(s: Slot, copy: Reference, o: Outcome): Slot
    requires s.refPass.ReferenceRunning?
  {
    var p := s.refPass.(closing := true);
    if o.Fail? || !Current(s.reference, copy) then s.(refPass := p.(reply := Failed))
    else
      var stored := StatusUpdated(s.reference.value, copy, s.clock);
      s.(clock := s.clock + 1, reference := Some(stored),
         refPass := if o.Ok? then p.(wrote := true, local := stored, reply := NoError) else p.(wrote := true, reply := Failed))
  }

  /** Update of the claim's specification by the reference controller; `published` is what the write makes public. */
  function HandOverUpdate(s: Slot, copy: Claim, published: Option<string>, o: Outcome): Slot
    requires s.refPass.ReferenceRunning?
  {
    var p := s.refPass;
    if o.Fail? || !Accepted(s.claim, copy) then s.(refPass := p.(closing := true, reply := Failed))
    else
      var stored := Updated(s.claim.value, copy, s.clock);
      s.(clock := s.clock + 1, claim := Kept(stored), published := published,
         refPass := if o.Ok? then p.(claim := Some(stored), reply := NoError) else p.(closing := true, reply := Failed))
  }

  function HandOverStatus(s: Slot, copy: Claim, o: Outcome): Slot
    requires s.refPass.ReferenceRunning?
  {
    var p := s.refPass.(closing := true);
    if o.Fail? || !Current(s.claim, copy) then s.(refPass := p.(reply := Failed))
    else
      var stored := StatusUpdated(s.claim.value, copy, s.clock);
      s.(clock := s.clock + 1, claim := Some(stored),
         refPass := if o.Ok? then p.(claim := Some(stored), reply := NoError) else p.(reply := Failed))
  }

  function StartedPass(s: Slot): Slot
    requires s.reference.Some?
  {
    var r := s.reference.value;
    s.(refPass := ReferenceRunning(false, false, r.spec.projectID, r.spec.accountName, r, None, NOTHING_KNOWN, NoError))
  }

  function ClaimRead(s: Slot, o: Outcome): Slot
    requires s.refPass.ReferenceRunning?
  {
    if !o.Ok? then Reply(s, Failed)
    else if s.claim.None? then Reply(s, NotFound)
    else s.(refPass := s.refPass.(claim := s.claim, reply := NoError))
  }

  /** The operator made the secret, and it is not on its way out. */
  predicate LeftBehind(secrets: map<NamespacedName, Secret>, key: NamespacedName) {
    key in secrets && secrets[key].spec == MadeByOperator && !secrets[key].deleting
  }

  /** A read that fails for any reason counts as: there is no secret. */
  function SecretRead(s: Slot, o: Outcome): Slot
    requires s.refPass.ReferenceRunning? && s.refPass.claim.Some?
  {
    var p := s.refPass;
    var key := p.claim.value.spec.credentialSecret;
    var hidden := if !o.Ok? && LeftBehind(s.secrets, key) then {key} else {};
    var presence := if o.Ok? && key in s.secrets then Present else Absent;
    s.(traces := s.traces.(hidden := hidden),
       refPass := p.(know := p.know.(secret := presence), reply := if !o.Ok? then Failed else if key in s.secrets then NoError else NotFound))
  }

  function SecretCreation(s: Slot, o: Outcome): Slot
    requires s.refPass.ReferenceRunning? && s.refPass.claim.Some?
  {
    var p := s.refPass;
    var key := p.claim.value.spec.credentialSecret;
    if o.Fail? then Reply(s, Failed)
    else if key in s.secrets then Reply(s, AlreadyExists)
    else
      s.(clock := s.clock + 1, secrets := s.secrets[key := Object(s.clock, false, [], MadeByOperator, ())],
         traces := s.traces.(deleted := s.traces.deleted - {key}),
         refPass := if o.Ok? then p.(know := p.know.(secret := Present), reply := NoError) else p.(reply := Failed))
  }

  function SecretDeletion(s: Slot, o: Outcome): Slot
    requires s.refPass.ReferenceRunning? && s.refPass.claim.Some?
  {
    var p := s.refPass;
    var key := p.claim.value.spec.credentialSecret;
    var unsure := p.(know := p.know.(secret := NotRead));
    if o.Fail? then s.(refPass := unsure.(reply := Failed))
    else if key !in s.secrets then s.(refPass := unsure.(reply := NotFound))
    else
      var left := Deleted(s.secrets[key], s.clock);
      s.(clock := s.clock + 1, secrets := StoreSecret(s.secrets, key, left),
         traces := s.traces.(deleted := if left.Some? then s.traces.deleted + {key} else s.traces.deleted, hidden := s.traces.hidden - {key}),
         refPass := if o.Ok? then p.(know := p.know.(secret := Absent), reply := NoError) else unsure.(reply := Failed))
  }

  predicate EditsReference(a: ReferenceAct) {
    a.RAddFinalizer? || a.RDropFinalizer? || a.RClearID? || a.RMintID? || a.RMintAccount?
  }

  /** The copy of the reference that an update sends. */
  function Edited(local: Reference, a: ReferenceAct): Reference {
    match a
    case RAddFinalizer => local.(finalizers := local.finalizers + [FINALIZER])
    case RDropFinalizer => local.(finalizers := Filtered(local.finalizers, FINALIZER))
    case RMintID(id) => local.(spec := local.spec.(projectID := id))
    case RClearID => local.(spec := local.spec.(projectID := ""))
    case RMintAccount(account) => local.(spec := local.spec.(accountName := account))
    case _ => local
  }

  /** The steps that touch stored objects only. */
  function ReferenceStoreStep(n: NamespacedName, s: Slot, c: Cloud, a: ReferenceAct, o: Outcome): Slot
    requires ReferenceMay(n, s, c, a)
  {
    var p := s.refPass;
    if EditsReference(a) then ReferenceUpdate(s, Edited(p.local, a), o) else
    match a
    case RStart => StartedPass(s)
    case REnd => s.(refPass := ReferenceIdle)
    case RReadClaim => ClaimRead(s, o)
    case RStatus(status) => ReferenceStatusUpdate(s, p.local.(status := status), o)
    case RReadSecret => SecretRead(s, o)
    case RCreateSecret => SecretCreation(s, o)
    case RDeleteSecret => SecretDeletion(s, o)
    case RSetZones(zones) => HandOverUpdate(s, p.claim.value.(spec := p.claim.value.spec.(zones := zones)), s.published, o)
    case RPublishID =>
      HandOverUpdate(s, p.claim.value.(spec := p.claim.value.spec.(projectID := p.local.spec.projectID)), Some(p.local.spec.projectID), o)
    case RClaimReady => HandOverStatus(s, p.claim.value.(status := p.claim.value.status.(state := ClaimState.Ready)), o)
    case _ => s
  }

  /** What a cloud call lets the pass know. Only a call that reports success teaches anything; a failed write may have happened. */
  function CloudKnowledge(p: ReferencePass, projects: map<string, Project>, a: ReferenceAct, o: Outcome): Knowledge
    requires p.ReferenceRunning?
  {
    var k := p.know;
    var there := p.project in projects;
    match a
    case RList => if !o.Ok? then k else k.(listed := if there then Found(projects[p.project].state) else Missing)
    case RCreateProject => if o.Ok? then k.(listed := Found(Active)) else k.(createFailed := true)
    case RDeleteProject => if !o.Ok? || !there then k else k.(listed := Found(DeleteRequested))
    case RListApis => if !o.Ok? || !there then k else k.(apis := projects[p.project].apis)
    case REnableApi(api) => if !o.Ok? || !there then k else k.(apis := k.apis + {api})
    case RReadBilling => if !o.Ok? || !there then k else k.(billing := projects[p.project].billing)
    case RSetBilling(billing) => k.(billing := if !o.Ok? || !there then "" else billing)
    case RReadAccount =>
      if !o.Ok? then k else k.(account := if there && p.account in projects[p.project].accounts then Present else Absent)
    case RCreateAccount =>
      if !o.Ok? || !there || p.account in projects[p.project].accounts then k.(account := NotRead, granted := {}, revoked := false)
      else k.(account := Present)
    case RDeleteAccount =>
      if !o.Ok? || !there then k.(account := NotRead, granted := {}, revoked := false) else k.(account := Absent)
    case RGrant(who, roles) =>
      if !o.Ok? || !there then k
      else if who == ServiceAccount(p.account) then k.(granted := k.granted + roles)
      else k.(groupGrants := k.groupGrants + GrantsOf(roles, who))
    case RRevoke(who) =>
      if !o.Ok? || !there then k
      else if who == ServiceAccount(p.account) then k.(revoked := true)
      else k.(groupsRevoked := k.groupsRevoked + {who})
    case _ => k
  }

  /** What a cloud call answers. */
  function CloudAnswer(p: ReferencePass, projects: map<string, Project>, a: ReferenceAct, o: Outcome): Error
    requires p.ReferenceRunning?
  {
    var there := p.project in projects;
    match a
    case RList => if o.Ok? then NoError else Failed
    case RCreateProject => if o.Ok? then NoError else Failed
    case RReadAccount =>
      if !o.Ok? then Failed else if there && p.account in projects[p.project].accounts then NoError else NotFound
    case RCreateAccount =>
      if o.Fail? || !there then Failed
      else if p.account in projects[p.project].accounts then AlreadyExists
      else if o.Ok? then NoError else Failed
    case _ => if o.Ok? && there then NoError else Failed
  }

  /** What a cloud call changes in the project the client is bound to. Revoking a group takes its access away
      from every claim that uses the project. */
  function ProjectAfter(p: Project, account: string, a: ReferenceAct): Project {
    match a
    case RDeleteProject => p.(state := if p.state == Active then DeleteRequested else p.state)
    case REnableApi(api) => p.(apis := p.apis + {api}, taken := p.taken.(apis := p.taken.apis - {api}))
    case RSetBilling(billing) => p.(billing := billing, taken := p.taken.(unlinked := false))
    case RCreateAccount => p.(accounts := p.accounts + {account}, taken := p.taken.(accounts := p.taken.accounts - {account}))
    case RDeleteAccount => p.(accounts := p.accounts - {account})
    case RGrant(who, roles) =>
      var more := GrantsOf(roles, who);
      p.(grants := p.grants + more, given := p.given + more, taken := p.taken.(grants := p.taken.grants - more))
    case RRevoke(who) =>
      var left := Without(p.grants, who);
      p.(grants := left, given := Without(p.given, who),
         taken := if who.Group? then p.taken.(grants := p.taken.grants + (p.grants - left)) else p.taken)
    case _ => p
  }

  function NewProject(n: NamespacedName): Project {
    Project(Active, Some(n), false, "", {}, {}, {}, NOTHING_TAKEN, {})
  }

  /** A stored update that takes the project's name out of the reference abandons the project. */
  function CloudAfterUpdate(s: Slot, c: Cloud, copy: Reference, o: Outcome): Cloud
    requires s.refPass.ReferenceRunning?
  {
    var id := s.refPass.project;
    if o.Fail? || !Accepted(s.reference, copy) || copy.spec.projectID == id || id !in c.projects then c
    else c.(projects := c.projects[id := c.projects[id].(abandoned := true)])
  }

  function CloudStep(n: NamespacedName, s: Slot, c: Cloud, a: ReferenceAct, o: Outcome): Cloud
    requires ReferenceMay(n, s, c, a)
  {
    match a
    case RMintID(id) => c.(ids := c.ids[id := n])
    case RMintAccount(account) => c.(accountNames := c.accountNames[account := n])
    case RCreateProject =>
      if o.Fail? || s.refPass.project in c.projects then c
      else c.(projects := c.projects[s.refPass.project := NewProject(n)])
    case RClearID => CloudAfterUpdate(s, c, Edited(s.refPass.local, a), o)
    case RDeleteProject => OnProject(s, c, a, o)
    case REnableApi(_) => OnProject(s, c, a, o)
    case RSetBilling(_) => OnProject(s, c, a, o)
    case RCreateAccount => OnProject(s, c, a, o)
    case RDeleteAccount => OnProject(s, c, a, o)
    case RGrant(_, _) => OnProject(s, c, a, o)
    case RRevoke(_) => OnProject(s, c, a, o)
    case _ => c
  }

  function OnProject(s: Slot, c: Cloud, a: ReferenceAct, o: Outcome): Cloud
    requires s.refPass.ReferenceRunning?
  {
    var id := s.refPass.project;
    if o.Fail? || id !in c.projects then c
    else c.(projects := c.projects[id := ProjectAfter(c.projects[id], s.refPass.account, a)])
  }

  predicate ReadsCloud(a: ReferenceAct) {
    a.RList? || a.RListApis? || a.RReadBilling? || a.RReadAccount?
  }

  predicate WritesProject(a: ReferenceAct) {
    a.RDeleteProject? || a.REnableApi? || a.RSetBilling? || a.RCreateAccount? || a.RDeleteAccount? || a.RGrant? || a.RRevoke?
  }

  predicate OnCloud(a: ReferenceAct) {
    || a.RList? || a.RListApis? || a.RReadBilling? || a.RReadAccount? || a.RCreateProject?
    || a.RDeleteProject? || a.REnableApi? || a.RSetBilling? || a.RCreateAccount? || a.RDeleteAccount? || a.RGrant? || a.RRevoke?
  }

  function ReferenceStep(n: NamespacedName, s: Slot, c: Cloud, a: ReferenceAct, o: Outcome): Slot
    requires ReferenceMay(n, s, c, a)
  {
    if OnCloud(a) then
      s.(refPass := s.refPass.(know := CloudKnowledge(s.refPass, c.projects, a, o), reply := CloudAnswer(s.refPass, c.projects, a, o)))
    else ReferenceStoreStep(n, s, c, a, o)
  }

  // Outsiders

  /** What others have taken away once they have made `q` of `p`. */
  function TakenAfter(p: Project, q: Project): Taken {
    Taken(p.taken.closed || q.state != p.state, q.billing == "" && (p.taken.unlinked || p.billing != ""),
          p.taken.apis + p.apis - q.apis, p.taken.accounts + p.accounts - q.accounts, p.taken.grants + p.grants - q.grants)
  }

  /** Outsiders may do anything to a project except revive it, or act on service accounts made for claims other than by taking away. */
  predicate OutsiderMay(c: Cloud, id: string, q: Project) {
    if id in c.projects then
      var p := c.projects[id];
      && q.creator == p.creator && q.abandoned == p.abandoned
      && (q.state == Active ==> p.state == Active)
      && q.taken == TakenAfter(p, q) && q.given == p.given + (q.grants - p.grants)
      && (forall account | account in q.accounts && account in c.accountNames :: account in p.accounts)
      && (forall grant | grant in q.grants && grant.1.ServiceAccount? && grant.1.account in c.accountNames :: grant in p.grants)
    else
      && id != "" && id !in c.ids && q.creator.None? && !q.abandoned && q.taken == NOTHING_TAKEN && q.given == q.grants
      && (forall account | account in q.accounts :: account !in c.accountNames)
      && (forall grant | grant in q.grants && grant.1.ServiceAccount? :: grant.1.account !in c.accountNames)
  }

  // Steps and runs

  predicate Enabled(s: System, l: Label) {
    match l
    case ByUser(n, a) => n in s.slots && UserMay(s.slots[n], a)
    case ByClaimController(n, a, _) => n in s.slots && ClaimMay(n, s.slots[n], a)
    case ByReferenceController(n, a, _) => n in s.slots && ReferenceMay(n, s.slots[n], s.cloud, a)
    case ByOutsider(id, q) => OutsiderMay(s.cloud, id, q)
  }

  function Apply(s: System, l: Label): System
    requires Enabled(s, l)
  {
    match l
    case ByUser(n, a) => s.(slots := s.slots[n := UserStep(s.slots[n], a)])
    case ByClaimController(n, a, o) => s.(slots := s.slots[n := ClaimStep(n, s.slots[n], a, o)])
    case ByReferenceController(n, a, o) =>
      System(s.slots[n := ReferenceStep(n, s.slots[n], s.cloud, a, o)], CloudStep(n, s.slots[n], s.cloud, a, o))
    case ByOutsider(id, q) => s.(cloud := s.cloud.(projects := s.cloud.projects[id := q]))
  }

  ghost predicate Step(s: System, t: System) {
    exists l :: Enabled(s, l) && t == Apply(s, l)
  }

  /** Nothing has happened yet; the cloud may already hold projects of others. */
  predicate Init(s: System) {
    && (forall n | n in s.slots :: s.slots[n] == EMPTY_SLOT)
    && s.cloud.ids == map[] && s.cloud.accountNames == map[]
    && (forall id | id in s.cloud.projects ::
          id != "" && s.cloud.projects[id].creator.None? && s.cloud.projects[id].taken == NOTHING_TAKEN
          && s.cloud.projects[id].given <= s.cloud.projects[id].grants)
  }

  ghost predicate StepAt(run: seq<System>, i: nat)
    requires i < |run| - 1
  {
    Step(run[i], run[i + 1])
  }

  ghost predicate IsRun(run: seq<System>) {
    && run != []
    && (forall i :: 0 <= i < |run| - 1 ==> StepAt(run, i))
  }

  ghost predicate LeadsTo(run: seq<System>, s: System) {
    IsRun(run) && Init(run[0]) && run[|run| - 1] == s
  }

  ghost predicate Reachable(s: System) {
    exists run :: LeadsTo(run, s)
  }

  lemma RunGrows(run: seq<System>, s: System, l: Label)
    requires LeadsTo(run, s) && Enabled(s, l)
    ensures LeadsTo(run + [Apply(s, l)], Apply(s, l))
  {
    var longer := run + [Apply(s, l)];
    forall i | 0 <= i < |longer| - 1 ensures StepAt(longer, i) {
      if i < |run| - 1 {
        assert StepAt(run, i);
      }
    }
  }
}
