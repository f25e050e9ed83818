/** The reference controller's operations, in the form of the code that runs them. Every call they make is a step of the protocol. */
module ReferenceAdapters {
  import opened Operations
  import opened Lists
  import opened Conditions
  import opened Objects
  import opened Protocol
  import opened Shapes
  import opened Worlds
  import Invariant
  import Safety

  const API_RETRIES := 3

  /** The groups were granted the roles in this pass. */
  predicate GroupsGranted(emails: seq<string>, roles: seq<string>, know: Knowledge) {
    GroupGrants(emails, roles) <= know.groupGrants
  }

  /** Everybody who is to have access to a customer's project was given it in this pass. */
  predicate ConsoleAccess(config: OperatorConfig, know: Knowledge) {
    && GroupsGranted(config.consoleAccess, ConsoleRoles(false), know)
    && GroupsGranted(config.readOnlyAccess, ConsoleRoles(true), know)
  }

  /** Everybody's access to a customer's project was taken away in this pass. */
  predicate AccessRevoked(emails: seq<string>, know: Knowledge) {
    forall email | email in emails :: Group(email) in know.groupsRevoked
  }

  predicate AllAccessRevoked(config: OperatorConfig, know: Knowledge) {
    AccessRevoked(config.consoleAccess, know) && AccessRevoked(config.readOnlyAccess, know)
  }

  /** The groups have the roles in the project, but for what others took away from them. */
  ghost predicate GroupsHave(projects: map<string, Project>, id: string, emails: seq<string>, roles: seq<string>) {
    forall email, role | email in emails && role in roles ::
      id in projects && (role, Group(email)) in projects[id].grants + projects[id].taken.grants
  }

  /** What the groups have in the project, they were given after they were last revoked. */
  ghost predicate GroupsOut(projects: map<string, Project>, id: string, emails: seq<string>) {
    id in projects ==>
      forall grant | grant in projects[id].grants && grant.1.Group? && grant.1.email in emails :: grant in projects[id].given
  }

  /** Some of the APIs were enabled, and nothing else was learnt. */
  predicate EnablesSome(before: Knowledge, apis: set<string>, after: Knowledge) {
    after == before.(apis := after.apis) && before.apis <= after.apis <= before.apis + apis
  }

  predicate EnablesFirst(before: Knowledge, apis: seq<string>, count: nat, after: Knowledge) {
    EnablesSome(before, AsSet(apis), after) && forall k :: 0 <= k < |apis| && k < count ==> apis[k] in after.apis
  }

  lemma OneMoreAPI(before: Knowledge, apis: seq<string>, count: nat, middle: Knowledge, after: Knowledge)
    requires count < |apis| && EnablesFirst(before, apis, count, middle) && EnablesSome(middle, {apis[count]}, after)
    ensures EnablesSome(before, AsSet(apis), after)
    ensures apis[count] in after.apis ==> EnablesFirst(before, apis, count + 1, after)
  {
  }

  /** The name under which the cloud knows a billing account. */
  function BillingAccountName(billingAccount: string): string {
    "billingAccounts/" +
    if billingAccount != "" && billingAccount[|billingAccount| - 1] == '\n' then billingAccount[..|billingAccount| - 1] else billingAccount
  }

  /** The configured billing account is this one, perhaps with a newline after it. */
  predicate Configures(configured: string, account: string) {
    (account == "" || account[|account| - 1] != '\n') && (configured == account || configured == account + "\n")
  }

  lemma AccountIsTrimmed(configured: string, account: string)
    requires Configures(configured, account)
    ensures BillingAccountName(configured) == "billingAccounts/" + account
  {
    assert (account + "\n")[..|account|] == account;
  }

  // What the calls of a pass do to it

  /** A write of the pass's own object: it is taken, or the pass keeps the copy it had. */
  predicate Stores(before: ReferencePass, after: ReferencePass) {
    && before.ReferenceRunning? && after.ReferenceRunning?
    && after == before.(closing := true, wrote := after.wrote, local := after.local, reply := after.reply)
    && (before.wrote || after.reply == NoError ==> after.wrote) && (after.reply != NoError ==> after.local == before.local)
  }

  /** Nothing is left to do for the reference, as far as the pass has seen. */
  predicate SeenAtRest(p: ReferencePass) {
    p.ReferenceRunning? &&
    if p.local.deleting then FINALIZER !in p.local.finalizers
    else if !ValidReference(p.local.spec) then p.local.status.state == RefError
    else p.local.status.state == RefReady && p.claim.Some? && p.claim.value.status.state == ClaimState.Ready
  }

  /** The controller does not forget the reference: it runs again after a while, or because it has written the reference;
      or the pass has seen that there is nothing left to do. */
  predicate KeptInMind(p: ReferencePass, delay: nat) {
    p.ReferenceRunning? && (delay > 0 || p.wrote || SeenAtRest(p))
  }

  /** The reference is Ready, and what the pass last wrote into the claim was taken. */
  predicate HandingOver(p: ReferencePass) {
    && p.ReferenceRunning? && !p.local.deleting && ValidReference(p.local.spec) && p.local.status.state == RefReady
    && p.claim.Some? && p.reply == NoError
  }

  /** The reference is Ready, its claim is not, and the write at the end was not taken. */
  predicate Forgotten(p: ReferencePass) {
    && p.ReferenceRunning? && !p.local.deleting && p.local.status.state == RefReady
    && p.claim.Some? && p.claim.value.status.state != ClaimState.Ready && !p.wrote && p.reply != NoError
  }

  lemma StoredInMind(before: ReferencePass, after: ReferencePass, delay: nat)
    requires after == before || Stores(before, after)
    ensures KeptInMind(before, delay) ==> KeptInMind(after, delay)
    ensures HandingOver(before) && Stores(before, after) ==> KeptInMind(after, delay) || Forgotten(after)
  {
  }

  lemma EditStep(n: NamespacedName, s: Slot, c: Cloud, a: ReferenceAct, o: Outcome)
    requires ReferenceMay(n, s, c, a) && EditsReference(a)
    ensures ReferenceStep(n, s, c, a, o) == ReferenceUpdate(s, Edited(s.refPass.local, a), o)
    ensures !a.RClearID? ==> CloudStep(n, s, c, a, o).projects == c.projects
  {
  }

  lemma UpdateEffect(s: Slot, copy: Reference, o: Outcome)
    requires s.refPass.ReferenceRunning?
    ensures var t := ReferenceUpdate(s, copy, o);
            && Stores(s.refPass, t.refPass)
            && (t.refPass.reply == NoError ==> t.refPass.local.spec == copy.spec && t.refPass.local.finalizers == copy.finalizers)
  {
  }

  /** An update of the stored object that nobody disturbs. */
  lemma SmoothUpdate(s: Slot, copy: Reference)
    requires s.refPass.ReferenceRunning? && s.reference == Some(s.refPass.local)
    requires copy == s.refPass.local.(finalizers := copy.finalizers, spec := copy.spec)
    requires copy.deleting ==> forall f :: f in copy.finalizers ==> f in s.refPass.local.finalizers
    ensures var t := ReferenceUpdate(s, copy, Ok);
            && t.refPass.reply == NoError && t.refPass.local == copy.(version := s.clock)
            && t.claim == s.claim && t.secrets == s.secrets && t.reference == Kept(t.refPass.local) && t.clock >= s.clock
  {
  }

  lemma StatusStep(n: NamespacedName, s: Slot, c: Cloud, status: ReferenceStatus, o: Outcome)
    requires ReferenceMay(n, s, c, RStatus(status))
    ensures ReferenceStep(n, s, c, RStatus(status), o) == ReferenceStatusUpdate(s, s.refPass.local.(status := status), o)
    ensures CloudStep(n, s, c, RStatus(status), o) == c
  {
  }

  lemma StatusEffect(s: Slot, copy: Reference, o: Outcome)
    requires s.refPass.ReferenceRunning? && copy == s.refPass.local.(status := copy.status)
    ensures var t := ReferenceStatusUpdate(s, copy, o);
            && Stores(s.refPass, t.refPass) && (t.refPass.reply == NoError ==> t.refPass.local.status == copy.status)
            && t.claim == s.claim && t.secrets == s.secrets && t.clock >= s.clock
            && (t.reference == s.reference
                || (s.reference.Some? && t.reference.Some?
                    && t.reference.value == s.reference.value.(version := s.clock, status := copy.status)))
            && (s.reference == Some(s.refPass.local) && o == Ok ==>
                  t.refPass.reply == NoError && t.reference == Some(t.refPass.local) && t.refPass.local == copy.(version := s.clock))
  {
  }

  lemma CallStep(n: NamespacedName, s: Slot, c: Cloud, a: ReferenceAct, o: Outcome)
    requires ReferenceMay(n, s, c, a) && OnCloud(a)
    ensures ReferenceStep(n, s, c, a, o)
            == s.(refPass := s.refPass.(know := CloudKnowledge(s.refPass, c.projects, a, o), reply := CloudAnswer(s.refPass, c.projects, a, o)))
  {
  }

  /** A pass's own calls do not get in its way. */
  lemma CallStaysFavourable(n: NamespacedName, s: Slot, c: Cloud, a: ReferenceAct, groups: bool)
    requires ReferenceMay(n, s, c, a) && OnCloud(a) && FavourableObjects(s.claim, s.reference, c.projects, groups)
    requires s.reference == Some(s.refPass.local) && s.refPass.project == s.refPass.local.spec.projectID
    ensures FavourableObjects(s.claim, s.reference, CloudStep(n, s, c, a, Ok).projects, groups)
    ensures c.projects.Keys <= CloudStep(n, s, c, a, Ok).projects.Keys
    ensures a.RCreateProject? ==> s.refPass.project in CloudStep(n, s, c, a, Ok).projects
  {
  }

  function AccountsOf(projects: map<string, Project>, id: string): set<string> {
    if id in projects then projects[id].accounts else {}
  }

  /** The cloud after a call that is carried out. */
  function Called(n: NamespacedName, s: Slot, c: Cloud, a: ReferenceAct): Cloud {
    if ReferenceMay(n, s, c, a) then CloudStep(n, s, c, a, Ok) else c
  }

  lemma CallKeepsAccounts(n: NamespacedName, s: Slot, c: Cloud, a: ReferenceAct)
    requires s.refPass.ReferenceRunning? && (a.RReadAccount? || a.RCreateAccount?)
    ensures var p, d := s.refPass, Called(n, s, c, a);
            && AccountsOf(c.projects, p.project) <= AccountsOf(d.projects, p.project)
            && (a.RReadAccount? ==> d == c && (CloudAnswer(p, c.projects, a, Ok) == NoError <==> p.account in AccountsOf(c.projects, p.project)))
            && (a.RCreateAccount? && ReferenceMay(n, s, c, a) && CloudAnswer(p, c.projects, a, Ok) == NoError ==>
                  p.account in AccountsOf(d.projects, p.project))
  {
  }

  lemma MintStep(n: NamespacedName, s: Slot, c: Cloud, a: ReferenceAct, o: Outcome)
    requires ReferenceMay(n, s, c, a) && (a.RMintID? || a.RMintAccount?)
    ensures if a.RMintID? then a.id != "" && a.id !in c.projects else GeneratedName(a.accountName)
  {
  }

  lemma SecretReadStep(n: NamespacedName, s: Slot, c: Cloud, o: Outcome)
    requires ReferenceMay(n, s, c, RReadSecret)
    ensures var t, p := ReferenceStep(n, s, c, RReadSecret, o), s.refPass;
            && CloudStep(n, s, c, RReadSecret, o) == c && p.claim.Some?
            && t == s.(refPass := p.(know := p.know.(secret := t.refPass.know.secret), reply := t.refPass.reply), traces := t.traces)
            && t.refPass.know.secret == (if t.refPass.reply == NoError then Present else Absent)
            && (o == Ok ==> (t.refPass.reply == NoError <==> p.claim.value.spec.credentialSecret in s.secrets))
  {
  }

  lemma SecretCreationStep(n: NamespacedName, s: Slot, c: Cloud, o: Outcome)
    requires ReferenceMay(n, s, c, RCreateSecret)
    ensures var t, p := ReferenceStep(n, s, c, RCreateSecret, o), s.refPass;
            && CloudStep(n, s, c, RCreateSecret, o) == c && p.claim.Some?
            && t.claim == s.claim && t.reference == s.reference && KeepsSecrets(s.secrets, t.secrets) && t.clock >= s.clock
            && t.refPass == p.(know := p.know.(secret := t.refPass.know.secret), reply := t.refPass.reply)
            && (t.refPass.reply == NoError ==> t.refPass.know.secret == Present)
            && (o == Ok && p.claim.value.spec.credentialSecret !in s.secrets ==> t.refPass.reply == NoError)
  {
  }

  lemma SecretDeletionStep(n: NamespacedName, s: Slot, c: Cloud, o: Outcome)
    requires ReferenceMay(n, s, c, RDeleteSecret)
    ensures var t, p := ReferenceStep(n, s, c, RDeleteSecret, o), s.refPass;
            && CloudStep(n, s, c, RDeleteSecret, o) == c && p.claim.Some?
            && t.claim == s.claim && t.reference == s.reference && t.clock >= s.clock
            && t.refPass == p.(know := p.know.(secret := t.refPass.know.secret), reply := t.refPass.reply)
            && (t.refPass.reply == NoError ==> t.refPass.know.secret == Absent)
            && (o == Ok && p.claim.value.spec.credentialSecret in s.secrets ==> t.refPass.reply == NoError)
  {
  }

  lemma GrantTeaches(p: ReferencePass, projects: map<string, Project>, who: Principal, roles: set<string>, o: Outcome)
    requires p.ReferenceRunning? && (who.Group? || who == ServiceAccount(p.account))
    ensures CloudKnowledge(p, projects, RGrant(who, roles), o)
            == if CloudAnswer(p, projects, RGrant(who, roles), o) == NoError then WithGrant(p.know, who, roles) else p.know
  {
  }

  /** What a pass knows once the roles were granted. */
  function WithGrant(know: Knowledge, who: Principal, roles: set<string>): Knowledge {
    if who.Group? then know.(groupGrants := know.groupGrants + GrantsOf(roles, who)) else know.(granted := know.granted + roles)
  }

  function BillingIn(projects: map<string, Project>, id: string): string {
    if id in projects then projects[id].billing else ""
  }

  /** What a pass that reads or sets the link to a billing account is told, is so. */
  lemma BillingIsTold(n: NamespacedName, s: Slot, c: Cloud, a: ReferenceAct)
    requires ReferenceMay(n, s, c, a) && (a.RReadBilling? || a.RSetBilling?)
    ensures var p, d := s.refPass, Called(n, s, c, a).projects;
            CloudAnswer(p, c.projects, a, Ok) == NoError ==> BillingIn(d, p.project) == CloudKnowledge(p, c.projects, a, Ok).billing
    ensures forall id | id in c.projects && id != s.refPass.project :: id in Called(n, s, c, a).projects && Called(n, s, c, a).projects[id] == c.projects[id]
  {
  }

  function GrantsIn(projects: map<string, Project>, id: string): Grants {
    if id in projects then projects[id].grants else {}
  }

  /** In the project, a grant that is answered without error adds exactly what it asks for. */
  lemma GrantAdds(n: NamespacedName, s: Slot, c: Cloud, who: Principal, roles: set<string>)
    requires ReferenceMay(n, s, c, RGrant(who, roles))
    ensures var id, d := s.refPass.project, Called(n, s, c, RGrant(who, roles)).projects;
            && AccountsOf(c.projects, id) == AccountsOf(d, id)
            && GrantsIn(d, id) == GrantsIn(c.projects, id) + (if id in c.projects then GrantsOf(roles, who) else {})
            && (CloudAnswer(s.refPass, c.projects, RGrant(who, roles), Ok) == NoError <==> id in c.projects)
            && forall other | other in c.projects && other != id :: other in d && d[other] == c.projects[other]
  {
  }

  /** What a pass knows once the principal's grants were revoked. */
  function WithRevoked(know: Knowledge, who: Principal): Knowledge {
    if who.Group? then know.(groupsRevoked := know.groupsRevoked + {who}) else know.(revoked := true)
  }

  /** Some of the groups had their grants revoked, and nothing else was learnt. */
  predicate RevokesSome(before: Knowledge, emails: seq<string>, after: Knowledge) {
    && after == before.(groupsRevoked := after.groupsRevoked)
    && before.groupsRevoked <= after.groupsRevoked <= before.groupsRevoked + Groups(emails)
  }

  function Groups(emails: seq<string>): set<Principal> {
    set email | email in emails :: Group(email)
  }

  /** The grants that give each of the groups each of the roles. */
  function GroupGrants(emails: seq<string>, roles: seq<string>): Grants {
    set email, role | email in emails && role in roles :: (role, Group(email))
  }

  lemma GroupGrantsOfMore(emails: seq<string>, email: string, roles: seq<string>)
    ensures GroupGrants(emails + [email], roles) == GroupGrants(emails, roles) + GrantsOf(AsSet(roles), Group(email))
  {
  }

  /** What a pass knows once the first of the groups were granted the roles. */
  function WithGroups(know: Knowledge, emails: seq<string>, count: nat, roles: seq<string>): Knowledge
    requires count <= |emails|
  {
    know.(groupGrants := know.groupGrants + GroupGrants(emails[..count], roles))
  }

  /** Some of these were granted to groups, and nothing else was learnt. */
  predicate GrantsSome(before: Knowledge, grants: Grants, after: Knowledge) {
    after == before.(groupGrants := after.groupGrants) && before.groupGrants <= after.groupGrants <= before.groupGrants + grants
  }

  predicate GrantsAll(before: Knowledge, grants: Grants, after: Knowledge) {
    after == before.(groupGrants := before.groupGrants + grants)
  }

  lemma GrantsAdd(before: Knowledge, first: Grants, middle: Knowledge, second: Grants, after: Knowledge)
    requires GrantsAll(before, first, middle) && GrantsSome(middle, second, after)
    ensures GrantsSome(before, first + second, after) && (GrantsAll(middle, second, after) ==> GrantsAll(before, first + second, after))
  {
  }

  lemma NoGroups(know: Knowledge, emails: seq<string>, roles: seq<string>)
    ensures WithGroups(know, emails, 0, roles) == know
    ensures GrantsAll(know, GroupGrants(emails, roles), WithGroups(know, emails, |emails|, roles))
  {
    assert GroupGrants(emails[..0], roles) == {} && emails[..|emails|] == emails;
  }

  lemma OneMoreGroup(know: Knowledge, emails: seq<string>, count: nat, roles: seq<string>)
    requires count < |emails|
    ensures WithGrant(WithGroups(know, emails, count, roles), Group(emails[count]), AsSet(roles)) == WithGroups(know, emails, count + 1, roles)
    ensures GrantsSome(know, GroupGrants(emails, roles), WithGroups(know, emails, count, roles))
  {
    assert emails[..count + 1] == emails[..count] + [emails[count]];
    GroupGrantsOfMore(emails[..count], emails[count], roles);
  }

  /** The copy of the claim that a hand-over sends. */
  function HandedOver(claim: Claim, reference: Reference, a: ReferenceAct): Claim {
    match a
    case RSetZones(zones) => claim.(spec := claim.spec.(zones := zones))
    case RPublishID => claim.(spec := claim.spec.(projectID := reference.spec.projectID))
    case RClaimReady => claim.(status := claim.status.(state := ClaimState.Ready))
    case _ => claim
  }

  lemma HandOverEffect(s: Slot, copy: Claim, published: Option<string>, o: Outcome)
    requires s.refPass.ReferenceRunning?
    ensures var t, p := HandOverUpdate(s, copy, published, o), s.refPass;
            && t.reference == s.reference && t.secrets == s.secrets && t.clock >= s.clock
            && t.refPass == p.(closing := p.closing || t.refPass.reply != NoError, claim := t.refPass.claim, reply := t.refPass.reply)
            && (t.refPass.reply == NoError ==> t.refPass.claim.Some? && t.refPass.claim.value.spec == copy.spec)
            && (s.claim.Some? && copy == s.claim.value.(spec := copy.spec) && (copy.deleting ==> copy.finalizers != []) && o == Ok ==>
                  t.refPass.reply == NoError && t.claim == t.refPass.claim == Some(copy.(version := s.clock)))
  {
  }

  predicate HandedOverTo(s: Slot, t: Slot, copy: Claim, o: Outcome)
    requires s.refPass.ReferenceRunning?
  {
    t == HandOverUpdate(s, copy, s.published, o) || t == HandOverUpdate(s, copy, Some(copy.spec.projectID), o)
  }

  lemma HandOverStep(n: NamespacedName, s: Slot, c: Cloud, a: ReferenceAct, o: Outcome)
    requires ReferenceMay(n, s, c, a) && (a.RSetZones? || a.RPublishID?)
    ensures s.refPass.claim.Some?
    ensures HandedOverTo(s, ReferenceStep(n, s, c, a, o), HandedOver(s.refPass.claim.value, s.refPass.local, a), o)
    ensures CloudStep(n, s, c, a, o) == c
  {
  }

  lemma HandOverMeans(n: NamespacedName, s: Slot, c: Cloud, a: ReferenceAct, o: Outcome)
    requires ReferenceMay(n, s, c, a) && (a.RSetZones? || a.RPublishID?)
    ensures s.refPass.claim.Some?
    ensures var t, copy, p := ReferenceStep(n, s, c, a, o), HandedOver(s.refPass.claim.value, s.refPass.local, a), s.refPass;
            && CloudStep(n, s, c, a, o) == c
            && t.reference == s.reference && t.secrets == s.secrets && t.clock >= s.clock
            && t.refPass == p.(closing := p.closing || t.refPass.reply != NoError, claim := t.refPass.claim, reply := t.refPass.reply)
            && (t.refPass.reply == NoError ==> t.refPass.claim.Some? && t.refPass.claim.value.spec == copy.spec)
            && (s.claim == p.claim && (copy.deleting ==> copy.finalizers != []) && o == Ok ==>
                  t.refPass.reply == NoError && t.claim == t.refPass.claim == Some(copy.(version := s.clock)))
  {
    HandOverStep(n, s, c, a, o);
    var copy := HandedOver(s.refPass.claim.value, s.refPass.local, a);
    HandOverEffect(s, copy, s.published, o);
    HandOverEffect(s, copy, Some(copy.spec.projectID), o);
  }

  lemma ClaimReadyStep(n: NamespacedName, s: Slot, c: Cloud, o: Outcome)
    requires ReferenceMay(n, s, c, RClaimReady)
    ensures s.refPass.claim.Some?
    ensures var t, copy, p := ReferenceStep(n, s, c, RClaimReady, o), HandedOver(s.refPass.claim.value, s.refPass.local, RClaimReady), s.refPass;
            && CloudStep(n, s, c, RClaimReady, o) == c
            && t.reference == s.reference && t.clock >= s.clock
            && t.refPass == p.(closing := true, claim := t.refPass.claim, reply := t.refPass.reply)
            && (t.refPass.reply == NoError ==> t.refPass.claim.Some? && t.refPass.claim.value.status.state == ClaimState.Ready)
            && (s.claim == p.claim && o == Ok ==> t.refPass.reply == NoError && t.claim == t.refPass.claim == Some(copy.(version := s.clock)))
  {
  }

  /** The copy in memory has the state that the pass last read. */
  predicate SameState(p: ReferencePass, reference: Reference)
    requires p.ReferenceRunning?
  {
    && reference.status.state == p.local.status.state
    && (reference.status.conditions.Some? <==> p.local.status.conditions.Some?)
  }

  predicate AttachedTo(smooth: bool, calm: bool, groups: bool, start: Slot, s: Slot, projects: map<string, Project>, reference: Reference) {
    && s.refPass.ReferenceRunning? && ReferenceStateMay(s.refPass, reference.status.state)
    && (smooth ==>
          && calm && s.claimPass == start.claimPass && s.clock >= start.clock
          && (s.reference.Some? && !s.reference.value.deleting ==> KeepsSecrets(start.secrets, s.secrets))
          && StaysFavourable(s.claim, s.reference, s.secrets, projects, groups)
          && (s.reference.Some? ==>
                && s.reference == Some(s.refPass.local) && SameState(s.refPass, reference)
                && Unresolved(reference.status.conditions, ConditionError, RECONCILE_ERROR)
                   == Unresolved(s.refPass.local.status.conditions, ConditionError, RECONCILE_ERROR)))
  }

  predicate SeeingIn(smooth: bool, s: Slot, reference: Reference, claim: Claim)
    requires s.refPass.ReferenceRunning?
  {
    var p := s.refPass;
    && !p.closing && SameState(p, reference)
    && p.claim == Some(claim)
    && reference == p.local.(status := reference.status)
    && p.project == reference.spec.projectID && p.account == reference.spec.accountName
    && (!reference.deleting ==> ValidReference(reference.spec))
    && (smooth ==> s.reference == Some(p.local) && s.claim == Some(claim))
  }

  /** A call on the cloud leaves the pass at work. */
  lemma CallKeepsAttached(n: NamespacedName, smooth: bool, calm: bool, groups: bool, start: Slot, was: Slot, cloud: Cloud,
                          s: Slot, c: Cloud, a: ReferenceAct, o: Outcome, reference: Reference, claim: Claim)
    requires AttachedTo(smooth, calm, groups, start, was, cloud.projects, reference) && SeeingIn(smooth, was, reference, claim)
    requires ReferenceMay(n, s, c, a) && OnCloud(a) && s.refPass == was.refPass && (smooth ==> s == was && c == cloud && o == Ok)
    ensures var t, d := ReferenceStep(n, s, c, a, o), CloudStep(n, s, c, a, o);
            AttachedTo(smooth, calm, groups, start, t, d.projects, reference) && SeeingIn(smooth, t, reference, claim)
  {
    CallStep(n, s, c, a, o);
    if smooth {
      CallStaysFavourable(n, s, c, a, groups);
    }
  }

  /** Storing a status leaves the pass at its end. */
  lemma StatusKeepsAttached(smooth: bool, calm: bool, groups: bool, start: Slot, was: Slot, projects: map<string, Project>,
                            before: Reference, after: Reference, s: Slot)
    requires smooth ==> AttachedTo(smooth, calm, groups, start, was, projects, before) && was.reference == Some(was.refPass.local)
    requires s.refPass.ReferenceRunning? && ReferenceStateMay(s.refPass, after.status.state)
    requires smooth ==>
               && s.claim == was.claim && s.secrets == was.secrets && s.claimPass == was.claimPass && s.clock >= was.clock
               && s.reference == Some(after) && s.refPass.local == after
               && after == was.refPass.local.(version := after.version, status := after.status)
               && (after.status.state == RefReady ==> after.spec.projectID != "")
    ensures AttachedTo(smooth, calm, groups, start, s, projects, after)
  {
  }

  /** Handing over leaves the pass at its end, or, with the answer in memory, at work. */
  lemma HandOverKeepsAttached(n: NamespacedName, smooth: bool, calm: bool, groups: bool, start: Slot, was: Slot, cloud: Cloud,
                              s: Slot, c: Cloud, a: ReferenceAct, o: Outcome, reference: Reference, claim: Claim)
    requires AttachedTo(smooth, calm, groups, start, was, cloud.projects, reference) && SeeingIn(smooth, was, reference, claim)
    requires ReferenceMay(n, s, c, a) && (a.RSetZones? || a.RPublishID?)
    requires s.refPass == was.refPass && (smooth ==> s == was && c == cloud && o == Ok)
    requires ReferenceStep(n, s, c, a, o).claimPass == s.claimPass
    ensures var t, d := ReferenceStep(n, s, c, a, o), CloudStep(n, s, c, a, o);
            && AttachedTo(smooth, calm, groups, start, t, d.projects, reference)
            && (t.refPass.reply == NoError ==> t.refPass.claim.Some? && SeeingIn(smooth, t, reference, t.refPass.claim.value))
  {
    HandOverMeans(n, s, c, a, o);
  }

  lemma ClaimReadyKeepsAttached(n: NamespacedName, smooth: bool, calm: bool, groups: bool, start: Slot, was: Slot, cloud: Cloud,
                                s: Slot, c: Cloud, o: Outcome, reference: Reference, claim: Claim)
    requires AttachedTo(smooth, calm, groups, start, was, cloud.projects, reference) && SeeingIn(smooth, was, reference, claim)
    requires ReferenceMay(n, s, c, RClaimReady)
    requires s.refPass == was.refPass && (smooth ==> s == was && c == cloud && o == Ok)
    requires ReferenceStep(n, s, c, RClaimReady, o).claimPass == s.claimPass
    ensures AttachedTo(smooth, calm, groups, start, ReferenceStep(n, s, c, RClaimReady, o), CloudStep(n, s, c, RClaimReady, o).projects, reference)
  {
    ClaimReadyStep(n, s, c, o);
  }

  /** One failed probe, and what its pass makes of it: an error if the condition timed out, or else another try after half a minute. */
  ghost predicate ProbedOnce(before: seq<Condition>, after: seq<Condition>, delay: nat, err: Error) {
    exists now: Time ::
      after == ProbeFailed(before, now) && if TimedOut(before, now) then err == ComputeNotReady else err == NoError && delay == 30
  }

  /** One report of the error that a pass met, or that there was none. */
  ghost predicate ReportedOnce(before: seq<Condition>, after: seq<Condition>, failure: Error) {
    exists e: Event ::
      && e.Report? && e.kind == ConditionError && after == After(before, [e])
      && e.status == (if failure == NoError then False else True)
      && e.reason == (if failure == NoError then RECONCILE_ERROR + "Resolved" else RECONCILE_ERROR)
  }

  lemma ReportIsEvent(conditions: seq<Condition>, e: Event)
    requires e.Report?
    ensures After(conditions, [e]) == Set(conditions, e.kind, e.status, e.reason, e.message, e.now)
  {
    assert [e][..0] == [];
  }

  /** Cleaning up does not bring a project back. */
  lemma CallStaysHalted(n: NamespacedName, s: Slot, c: Cloud, a: ReferenceAct, r: Reference, groups: bool)
    requires CleaningUp(s.refPass) && s.refPass.project == r.spec.projectID && Halted(r, c.projects, groups)
    requires a.RReadAccount? || a.RRevoke? || a.RDeleteAccount? || a.RList?
    ensures Halted(r, Called(n, s, c, a).projects, groups)
  {
  }

  class ReferenceAdapter {
    const world: World
    const name: NamespacedName
    const config: OperatorConfig
    var projectClaim: Claim
    var projectReference: Reference
    /** Nothing stands in the way of this pass, and nobody disturbs it. */
    ghost const smooth: bool
    /** The slot the pass started from. */
    ghost const start: Slot

    constructor (world: World, name: NamespacedName, config: OperatorConfig, claim: Claim, reference: Reference,
                 ghost smooth: bool, ghost start: Slot)
      ensures this.world == world && this.name == name && this.config == config && this.smooth == smooth && this.start == start
      ensures projectClaim == claim && projectReference == reference
    {
      this.world := world;
      this.name := name;
      this.config := config;
      this.projectClaim := claim;
      this.projectReference := reference;
      this.smooth := smooth;
      this.start := start;
    }

    function TheSlot(): Slot
      requires name in world.sys.slots
      reads world
    {
      world.sys.slots[name]
    }

    function Pass(): ReferencePass
      requires name in world.sys.slots
      reads world
    {
      world.sys.slots[name].refPass
    }

    ghost function TheShape(): Shape
      requires name in world.sys.slots
      reads world
    {
      ShapeOf(TheSlot().claim, TheSlot().reference)
    }

    /** The service accounts of the project that the pass is bound to. */
    ghost function TheAccounts(): set<string>
      requires name in world.sys.slots && Pass().ReferenceRunning?
      reads world
    {
      AccountsOf(world.sys.cloud.projects, Pass().project)
    }

    /** A pass is under way, and the status in memory is one that it may store at its end. */
    ghost predicate Attached()
      reads this, world
    {
      && world.Valid() && name in world.sys.slots && Pass().ReferenceRunning?
      && AttachedTo(smooth, world.Calm(), HasGroups(config), start, TheSlot(), world.sys.cloud.projects, projectReference)
    }

    /** The pass has stored nothing yet: what it has in memory is what it read, condition texts aside. */
    ghost predicate Seeing(claim: Claim)
      reads this, world
    {
      Attached() && SeeingIn(smooth, TheSlot(), projectReference, claim)
    }

    ghost predicate Working()
      reads this, world
    {
      Seeing(projectClaim)
    }

    /** What the first operations have found out when they let the later ones go on. */
    ghost predicate Facts(done: nat)
      requires Working()
      reads this, world
    {
      && !Pass().know.createFailed
      && (done > 0 ==> projectReference.status.conditions.Some?)
      && (done > 1 ==> !projectReference.deleting)
      && (done > 2 ==> projectReference.status.state != RefReady)
      && (done > 3 ==> projectClaim.status.state == PendingProject)
      && (done > 4 ==> projectReference.status.state != RefUnset)
      && (done > 5 ==> projectReference.spec.projectID != "")
      && (done > 6 ==> AccountNamed(projectReference.spec.accountName))
      && (done > 7 ==> FINALIZER in projectReference.finalizers)
      && (done > 8 ==> Configuring(Pass()) && (!projectReference.spec.ccs ==> Pass().know.billing == BillingAccountName(config.billingAccount))
                       && (smooth ==> projectReference.spec.projectID in world.sys.cloud.projects))
      && (done > 9 ==> Configured(Pass()) && (projectReference.spec.ccs ==> ConsoleAccess(config, Pass().know)))
    }

    /** What every operation promises: the state is fit for the next one if the loop goes on;
        otherwise, if nothing stood in the way, the stored objects have advanced. */
    ghost predicate Leaves(done: nat, result: OperationResult, err: Error, before: Shape)
      reads this, world
    {
      && Attached()
      && if GoesOn(result, err) then Working() && Facts(done) && (smooth ==> TheShape() == before)
         else
           && (smooth ==> err == NoError && ReferenceHandled(before, TheShape()) && Wakes(if result.requeue then result.delay else 0, before))
           && (err == NoError ==> InMind(if result.requeue then result.delay else 0))
    }

    /** However the pass went, its reference is not forgotten, or the write at the end of the pass is still to come. */
    ghost predicate InMind(delay: nat)
      requires name in world.sys.slots
      reads this, world
    {
      KeptInMind(Pass(), delay) || (HandingOver(Pass()) && ConditionsInMemory() != [])
    }

    ghost predicate Untouched(sys: System, reference: Reference, claim: Claim)
      reads this, world
    {
      world.sys == sys && projectReference == reference && projectClaim == claim
    }

    /** The controller does not forget the reference: it runs again after a while, or because it has written the reference
        or is about to, unless there is nothing left to do for it. */
    ghost predicate Wakes(delay: nat, before: Shape)
      requires name in world.sys.slots
      reads this, world
    {
      delay > 0 || TheShape().reference != before.reference || ConditionsInMemory() != [] || AtRest(TheShape())
    }

    function ConditionsInMemory(): seq<Condition>
      reads this
    {
      if projectReference.status.conditions.Some? then projectReference.status.conditions.value else []
    }

    /** What is in memory is what is stored, and what the pass last read. */
    ghost predicate Fresh()
      requires name in world.sys.slots && Pass().ReferenceRunning?
      reads this, world
    {
      TheSlot().reference == Some(projectReference) && Pass().local == projectReference
    }

    /** Of the stored objects nothing has changed but the reference's conditions. */
    ghost predicate OnlyConditionsChanged(was: Slot, before: Reference)
      requires name in world.sys.slots && Pass().ReferenceRunning?
      reads this, world
    {
      && TheSlot().claim == was.claim && TheSlot().secrets == was.secrets && TheSlot().claimPass == was.claimPass
      && Fresh()
      && projectReference == before.(version := projectReference.version,
                                     status := before.status.(conditions := projectReference.status.conditions))
      && (before.status.conditions.Some? ==> projectReference.status.conditions.Some?)
    }

    /** The reference is Ready, and its claim has no zones yet. */
    ghost predicate AwaitingZones()
      reads this
    {
      && projectReference.status.conditions.Some? && !projectReference.deleting && projectReference.status.state == RefReady
      && projectClaim.status.state != ClaimState.Ready && projectClaim.spec.zones == []
    }

    /** In a quiet world, the Compute API is not ready. */
    predicate NotReadyYet() {
      world.quiet && world.zonesError == ComputeNotReady
    }

    // Calls

    method Update(a: ReferenceAct) returns (err: Error)
      requires Attached() && !Pass().closing && SameState(Pass(), projectReference)
      requires EditsReference(a) && Settled(a) && ReferenceMay(name, TheSlot(), world.sys.cloud, a)
      requires projectReference == Edited(Pass().local, a).(status := projectReference.status)
      requires smooth ==>
                 && TheSlot().reference == Some(Pass().local) && !a.RClearID?
                 && ((projectReference.deleting && projectReference.finalizers == [])
                     || StaysFavourable(TheSlot().claim, Some(projectReference), TheSlot().secrets, world.sys.cloud.projects, HasGroups(config)))
      modifies world, this`projectReference
      ensures Attached() && Pass().reply == err && Stores(old(Pass()), Pass())
      ensures err == NoError ==> Pass().local.spec == old(projectReference.spec) && Pass().local.finalizers == old(projectReference.finalizers)
      ensures smooth ==>
                && err == NoError && TheSlot().claim == old(TheSlot().claim)
                && (TheSlot().reference == if old(projectReference.deleting && projectReference.finalizers == []) then None else Some(projectReference))
                && projectReference == old(projectReference.(version := TheSlot().clock, status := Pass().local.status))
    {
      ghost var s, c, o;
      ghost var copy := Edited(Pass().local, a);
      err, s, c, o := world.ReferenceCall(name, a);
      EditStep(name, s, c, a, o);
      UpdateEffect(s, copy, o);
      if smooth {
        SmoothUpdate(s, copy);
      }
      if err == NoError {
        projectReference := Pass().local;
      }
    }

    /** Stores a project ID that nobody ever used. */
    method UpdateProjectID() returns (err: Error)
      requires Working() && Building(Pass()) && Pass().project == ""
      modifies world, this`projectReference
      ensures Attached() && Pass().reply == err && Stores(old(Pass()), Pass())
      ensures err == NoError ==>
                Pass().local.spec == old(projectReference.spec).(projectID := Pass().local.spec.projectID) && Pass().local.spec.projectID != ""
      ensures smooth ==>
                && err == NoError && TheSlot().claim == old(TheSlot().claim)
                && TheSlot().reference == Some(projectReference)
                && projectReference.spec.projectID != ""
                && projectReference == old(projectReference.(version := TheSlot().clock, status := Pass().local.status)).(
                     spec := old(projectReference.spec).(projectID := projectReference.spec.projectID))
    {
      ghost var s, c, o;
      var projectID;
      ghost var local := Pass().local;
      projectID, err, s, c, o := world.MintID(name);
      projectReference := projectReference.(spec := projectReference.spec.(projectID := projectID));
      EditStep(name, s, c, RMintID(projectID), o);
      MintStep(name, s, c, RMintID(projectID), o);
      UpdateEffect(s, Edited(local, RMintID(projectID)), o);
      if smooth {
        SmoothUpdate(s, Edited(local, RMintID(projectID)));
      }
      if err == NoError {
        projectReference := Pass().local;
      }
    }

    method UpdateServiceAccountName() returns (err: Error)
      requires Working() && Building(Pass()) && !AccountNamed(Pass().account)
      modifies world, this`projectReference
      ensures Attached() && Pass().reply == err && Stores(old(Pass()), Pass())
      ensures err == NoError ==>
                Pass().local.spec == old(projectReference.spec).(accountName := Pass().local.spec.accountName) && AccountNamed(Pass().local.spec.accountName)
      ensures smooth ==>
                && err == NoError && TheSlot().claim == old(TheSlot().claim)
                && TheSlot().reference == Some(projectReference)
                && AccountNamed(projectReference.spec.accountName)
                && projectReference == old(projectReference.(version := TheSlot().clock, status := Pass().local.status)).(
                     spec := old(projectReference.spec).(accountName := projectReference.spec.accountName))
    {
      ghost var s, c, o;
      var account;
      ghost var local := Pass().local;
      account, err, s, c, o := world.MintAccount(name);
      projectReference := projectReference.(spec := projectReference.spec.(accountName := account));
      EditStep(name, s, c, RMintAccount(account), o);
      MintStep(name, s, c, RMintAccount(account), o);
      UpdateEffect(s, Edited(local, RMintAccount(account)), o);
      if smooth {
        SmoothUpdate(s, Edited(local, RMintAccount(account)));
      }
      if err == NoError {
        projectReference := Pass().local;
      }
    }

    /** Stores the status in memory; an answer replaces the copy in memory. */
    method StatusUpdate() returns (err: Error)
      requires world.Valid() && name in world.sys.slots && Pass().ReferenceRunning?
      requires ReferenceStateMay(Pass(), projectReference.status.state) && (smooth ==> world.quiet)
      modifies world, this`projectReference
      ensures world.Valid() && name in world.sys.slots && Pass().ReferenceRunning?
      ensures ReferenceStateMay(Pass(), projectReference.status.state)
      ensures projectReference.status == old(projectReference.status) && err == Pass().reply && Stores(old(Pass()), Pass())
      ensures err == NoError ==> Pass().local.status == projectReference.status
      ensures world.quiet ==>
                && TheSlot().claim == old(TheSlot().claim) && TheSlot().secrets == old(TheSlot().secrets)
                && TheSlot().claimPass == old(TheSlot().claimPass) && world.sys.cloud == old(world.sys.cloud)
                && TheSlot().clock >= old(TheSlot().clock)
                && (TheSlot().reference == old(TheSlot().reference)
                    || (old(TheSlot().reference.Some?) && TheSlot().reference.Some?
                        && TheSlot().reference.value == old(TheSlot().reference.value.(version := TheSlot().clock, status := projectReference.status))))
      ensures world.quiet && old(TheSlot().reference == Some(Pass().local)) ==>
                && err == NoError && TheSlot().reference == Some(projectReference) && projectReference == Pass().local
                && projectReference == old(Pass().local.(version := TheSlot().clock, status := projectReference.status))
    {
      ghost var s, c, o;
      ghost var local := Pass().local;
      err, s, c, o := world.ReferenceCall(name, RStatus(projectReference.status));
      StatusStep(name, s, c, projectReference.status, o);
      StatusEffect(s, local.(status := projectReference.status), o);
      if err == NoError {
        projectReference := Pass().local;
      }
    }

    /** A call on the cloud: the pass learns from it and goes on working. */
    method CallCloud(a: ReferenceAct) returns (err: Error, ghost projects: map<string, Project>, ghost o: Outcome)
      requires Working() && OnCloud(a) && ReferenceMay(name, TheSlot(), world.sys.cloud, a)
      modifies world
      ensures Working()
      ensures Pass() == old(Pass()).(know := CloudKnowledge(old(Pass()), projects, a, o), reply := err)
      ensures err == CloudAnswer(old(Pass()), projects, a, o)
      ensures world.quiet ==> o == Ok && projects == old(world.sys.cloud.projects) && TheSlot() == old(TheSlot()).(refPass := Pass())
      ensures smooth ==> old(world.sys.cloud.projects.Keys) <= world.sys.cloud.projects.Keys
      ensures smooth && a.RCreateProject? ==> Pass().project in world.sys.cloud.projects
      ensures world.quiet ==> world.sys.cloud == Called(name, old(TheSlot()), old(world.sys.cloud), a)
    {
      ghost var s, c;
      ghost var was, cloud := TheSlot(), world.sys.cloud;
      err, s, c, o := world.ReferenceCall(name, a);
      projects := c.projects;
      CallStep(name, s, c, a, o);
      CallKeepsAttached(name, smooth, world.Calm(), HasGroups(config), start, was, cloud, s, c, a, o, projectReference, projectClaim);
      if smooth {
        CallStaysFavourable(name, s, c, a, HasGroups(config));
      }
    }

    /** Whether the credential secret can be read; an error counts as no. */
    method SecretExists() returns (err: Error)
      requires Working() && (Configuring(Pass()) || CleaningUp(Pass()))
      modifies world
      ensures Working()
      ensures Pass() == old(Pass()).(know := old(Pass().know).(secret := Pass().know.secret), reply := err)
      ensures Pass().know.secret == if err == NoError then Present else Absent
      ensures smooth ==>
                && TheSlot() == old(TheSlot()).(refPass := Pass(), traces := TheSlot().traces) && world.sys.cloud == old(world.sys.cloud)
                && (err == NoError <==> projectClaim.spec.credentialSecret in TheSlot().secrets)
    {
      ghost var s, c, o;
      err, s, c, o := world.ReferenceCall(name, RReadSecret);
      SecretReadStep(name, s, c, o);
    }

    method StoreCredentials() returns (err: Error)
      requires Working() && Configuring(Pass()) && Pass().know.secret == Absent
      modifies world
      ensures Working()
      ensures Pass() == old(Pass()).(know := old(Pass().know).(secret := Pass().know.secret), reply := err)
      ensures err == NoError ==> Pass().know.secret == Present
      ensures smooth ==>
                && TheSlot().reference == old(TheSlot().reference) && TheSlot().claim == old(TheSlot().claim)
                && world.sys.cloud == old(world.sys.cloud)
                && (projectClaim.spec.credentialSecret !in old(TheSlot().secrets) ==> err == NoError)
    {
      ghost var s, c, o;
      err, s, c, o := world.ReferenceCall(name, RCreateSecret);
      SecretCreationStep(name, s, c, o);
    }

    method DeleteSecret() returns (err: Error)
      requires Working() && CleaningUp(Pass()) && Pass().know.secret == Present
      modifies world
      ensures Working()
      ensures Pass() == old(Pass()).(know := old(Pass().know).(secret := Pass().know.secret), reply := err)
      ensures err == NoError ==> Pass().know.secret == Absent
      ensures smooth ==>
                && TheSlot().reference == old(TheSlot().reference) && TheSlot().claim == old(TheSlot().claim)
                && world.sys.cloud == old(world.sys.cloud)
                && (projectClaim.spec.credentialSecret in old(TheSlot().secrets) ==> err == NoError)
    {
      ghost var s, c, o;
      err, s, c, o := world.ReferenceCall(name, RDeleteSecret);
      SecretDeletionStep(name, s, c, o);
    }

    /** Updates the claim's specification; the pass goes on if the store takes it. */
    method UpdateClaim(a: ReferenceAct, ghost was: Claim) returns (err: Error)
      requires Seeing(was) && (a.RSetZones? || a.RPublishID?) && ReferenceMay(name, TheSlot(), world.sys.cloud, a)
      requires projectClaim == HandedOver(was, Pass().local, a)
      modifies world, this`projectClaim
      ensures Attached()
      ensures err == NoError ==> Working() && projectClaim.spec == old(projectClaim.spec)
      ensures Pass() == old(Pass()).(closing := Pass().closing, claim := Pass().claim, reply := err)
      ensures smooth ==>
                && err == NoError && TheSlot().reference == old(TheSlot().reference)
                && projectClaim == old(projectClaim.(version := TheSlot().clock))
    {
      ghost var s, c, o;
      ghost var before, cloud := TheSlot(), world.sys.cloud;
      err, s, c, o := world.ReferenceCall(name, a);
      HandOverMeans(name, s, c, a, o);
      ClaimPassStays(name, s, c, a, o);
      HandOverKeepsAttached(name, smooth, world.Calm(), HasGroups(config), start, before, cloud, s, c, a, o, projectReference, was);
      if err == NoError {
        projectClaim := Pass().claim.value;
      }
    }

    method UpdateClaimStatus(ghost was: Claim) returns (err: Error)
      requires Seeing(was) && ReferenceMay(name, TheSlot(), world.sys.cloud, RClaimReady)
      requires projectClaim == HandedOver(was, Pass().local, RClaimReady)
      modifies world, this`projectClaim
      ensures Attached() && err == Pass().reply && (err == NoError ==> SeenAtRest(Pass()))
      ensures smooth ==>
                && err == NoError && TheSlot().reference == old(TheSlot().reference)
                && TheSlot().claim == Some(projectClaim) && projectClaim == old(projectClaim.(version := TheSlot().clock))
    {
      ghost var s, c, o;
      ghost var before, cloud := TheSlot(), world.sys.cloud;
      err, s, c, o := world.ReferenceCall(name, RClaimReady);
      ClaimReadyStep(name, s, c, o);
      ClaimPassStays(name, s, c, RClaimReady, o);
      ClaimReadyKeepsAttached(name, smooth, world.Calm(), HasGroups(config), start, before, cloud, s, c, o, projectReference, was);
      if err == NoError {
        projectClaim := Pass().claim.value;
      }
    }

    /** Reports a condition in memory. */
    method SetCondition(kind: ConditionType, status: Truth, reason: string, message: string, now: Time)
      requires smooth ==> projectReference.status.conditions.Some?
      modifies this`projectReference
      ensures old(Attached()) && kind != ConditionError ==> Attached()
      ensures old(Working() && projectReference.status.conditions.Some?) && kind != ConditionError ==> Working()
      ensures projectReference == old(projectReference).(status := old(projectReference.status).(
                conditions := Some(Set(old(ConditionsInMemory()), kind, status, reason, message, now))))
    {
      SetMeaning(ConditionsInMemory(), kind, status, reason, message, now);
      var conditions := new ConditionList(ConditionsInMemory());
      conditions.SetCondition(kind, status, reason, message, now);
      projectReference := projectReference.(status := projectReference.status.(conditions := Some(conditions.items)));
    }

    // Operations

    method EnsureProjectReferenceInitialized() returns (result: OperationResult, err: Error)
      requires Working() && Facts(0)
      modifies world, this
      ensures Leaves(1, result, err, old(TheShape()))
      ensures old(projectReference.status.conditions.Some?) ==> GoesOn(result, err)
      ensures GoesOn(result, err) ==> Untouched(old(world.sys), old(projectReference), old(projectClaim))
      ensures old(projectReference.status.conditions.None?) ==>
                err == Pass().reply && (err == NoError ==> Pass().local.status == old(projectReference.status).(conditions := Some([])))
    {
      if projectReference.status.conditions.None? {
        projectReference := projectReference.(status := projectReference.status.(conditions := Some([])));
        err := StatusUpdate();
        if err != NoError {
          return Requeue(), err;
        }
        return StopProcessing(), NoError;
      }
      return ContinueProcessing(), NoError;
    }

    method EnsureDeletionProcessed() returns (result: OperationResult, err: Error)
      requires Working() && Facts(1)
      modifies world, this
      ensures Leaves(2, result, err, old(TheShape()))
      ensures GoesOn(result, err) <==> !old(projectReference.deleting)
      ensures old(Blocked()) ==> err != NoError && Blocked()
      ensures GoesOn(result, err) ==> Untouched(old(world.sys), old(projectReference), old(projectClaim))
    {
      if projectReference.deleting {
        err := EnsureProjectCleanedUp();
        if err != NoError {
          return RequeueAfter(5), err;
        }
        return StopProcessing(), NoError;
      }
      return ContinueProcessing(), NoError;
    }

    /** A pass over a reference that is being deleted, with nothing stored yet. */
    ghost predicate Cleaning(before: Shape)
      reads this, world
    {
      Working() && CleaningUp(Pass()) && !Pass().know.createFailed && (smooth ==> TheShape() == before)
    }

    /** Everything that the reference stood for was seen to be gone, or taken away, in this pass. */
    ghost predicate AllGone()
      requires name in world.sys.slots && Pass().ReferenceRunning?
      reads this, world
    {
      CleanedUp(Pass()) && (Pass().local.spec.ccs ==> AllAccessRevoked(config, Pass().know))
    }

    /** In a quiet world, the project stops the clean-up, and nothing has been stored yet. */
    ghost predicate Blocked()
      requires name in world.sys.slots && Pass().ReferenceRunning?
      reads this, world
    {
      && world.quiet && Halted(projectReference, world.sys.cloud.projects, HasGroups(config))
      && TheSlot() == start.(refPass := Pass()) && Fresh()
    }

    /** A call of a pass that cleans up. */
    method CleanCall(a: ReferenceAct, ghost before: Shape) returns (err: Error, ghost projects: map<string, Project>, ghost o: Outcome)
      requires Cleaning(before) && ReferenceMay(name, TheSlot(), world.sys.cloud, a)
      requires a.RReadAccount? || a.RRevoke? || a.RDeleteAccount? || a.RList?
      modifies world
      ensures Cleaning(before)
      ensures Pass() == old(Pass()).(know := CloudKnowledge(old(Pass()), projects, a, o), reply := err)
      ensures err == CloudAnswer(old(Pass()), projects, a, o)
      ensures world.quiet ==> o == Ok && projects == old(world.sys.cloud.projects)
      ensures smooth ==> old(world.sys.cloud.projects.Keys) <= world.sys.cloud.projects.Keys
      ensures old(Blocked()) ==> Blocked()
    {
      ghost var s, c := TheSlot(), world.sys.cloud;
      err, projects, o := CallCloud(a);
      if old(Blocked()) {
        CallStaysHalted(name, s, c, a, projectReference, HasGroups(config));
      }
    }

    method EnsureProjectCleanedUp() returns (err: Error)
      requires Working() && Cleaning(TheShape()) && projectReference.status.conditions.Some?
      modifies world, this
      ensures Attached() && (err == NoError ==> AllGone() && KeptInMind(Pass(), 0))
      ensures err == NoError && Pass().local.spec.ccs ==> AccessTaken()
      ensures smooth ==> err == NoError && TheShape() == old(TheShape()).(reference := None)
      ensures old(Blocked()) ==> err != NoError && Blocked()
    {
      ghost var before := TheShape();
      err := DeleteServiceAccount(before);
      if err != NoError {
        return;
      }
      if !projectReference.spec.ccs {
        err := DeleteProject(before);
        if err != NoError {
          return;
        }
      }
      err := EnsureCCSProjectCleanedUp(before);
      if err != NoError {
        return;
      }
      err := DeleteCredentials(before);
      if err != NoError {
        return;
      }
      err := EnsureFinalizerDeleted();
      if err == NoError && Pass().local.spec.ccs {
        AccessIsTaken();
      }
    }

    /** The policy's own loop is the business of another module; here it is one change that is made or not. */
    method DeleteIAMPolicy(who: Principal, ghost before: Shape) returns (err: Error)
      requires Cleaning(before)
      requires who.Group? || (who == ServiceAccount(Pass().account) && Pass().know.account == Present)
      modifies world
      ensures Cleaning(before)
      ensures Pass() == old(Pass()).(know := Pass().know, reply := err)
      ensures Pass().know == if err == NoError then WithRevoked(old(Pass().know), who) else old(Pass().know)
      ensures smooth ==> old(world.sys.cloud.projects.Keys) <= world.sys.cloud.projects.Keys
      ensures smooth && old(Pass().project in world.sys.cloud.projects) ==> err == NoError
      ensures old(Blocked()) ==> Blocked()
      ensures world.quiet && old(Pass().project !in world.sys.cloud.projects) ==> err != NoError
    {
      ghost var projects, o;
      err, projects, o := CleanCall(RRevoke(who), before);
    }

    method DeleteServiceAccount(ghost before: Shape) returns (err: Error)
      requires Cleaning(before)
      modifies world
      ensures Cleaning(before) && (smooth ==> err == NoError)
      ensures err == NoError ==> Pass().know.account == Absent && (Pass().know.revoked || Pass().reply == NotFound)
      ensures old(Blocked()) ==> Blocked()
    {
      ghost var projects, o;
      var account := ServiceAccount(projectReference.spec.accountName);
      err, projects, o := CleanCall(RReadAccount, before);
      if err != NoError {
        return if err == NotFound then NoError else err;
      }
      err := DeleteIAMPolicy(account, before);
      if err != NoError {
        return;
      }
      err := DeleteAccount(before);
    }

    method DeleteAccount(ghost before: Shape) returns (err: Error)
      requires Cleaning(before) && Pass().know.account == Present && Pass().know.revoked
      modifies world
      ensures Cleaning(before)
      ensures smooth && old(Pass().project in world.sys.cloud.projects) ==> err == NoError
      ensures err == NoError ==> Pass().know.account == Absent && Pass().know.revoked
      ensures old(Blocked()) ==> Blocked()
    {
      ghost var projects, o;
      err, projects, o := CleanCall(RDeleteAccount, before);
    }

    method DeleteProject(ghost before: Shape) returns (err: Error)
      requires Cleaning(before) && !projectReference.spec.ccs && Pass().know.account == Absent
      modifies world
      ensures Cleaning(before) && (smooth ==> err == NoError) && Pass().know.account == Absent
      ensures err == NoError ==> Pass().know.listed == Missing || Pass().know.listed == Found(DeleteRequested)
      ensures old(Blocked()) ==> err != NoError && Blocked()
    {
      ghost var projects, o;
      err, projects, o := CleanCall(RList, before);
      if err != NoError {
        return;
      }
      var listed := Pass().know.listed;
      if listed == Found(Active) {
        err := DeleteActiveProject(before);
      } else if listed != Missing && listed != Found(DeleteRequested) {
        err := Failed;
      }
    }

    method DeleteActiveProject(ghost before: Shape) returns (err: Error)
      requires Cleaning(before) && !projectReference.spec.ccs && Pass().know.listed == Found(Active)
      requires smooth ==> Pass().project in world.sys.cloud.projects
      modifies world
      ensures Cleaning(before) && (smooth ==> err == NoError) && Pass().know.account == old(Pass().know.account)
      ensures err == NoError ==> Pass().know.listed == Found(DeleteRequested)
    {
      ghost var projects, o;
      err, projects, o := CallCloud(RDeleteProject);
    }

    method DeleteGroupGrants(emails: seq<string>, ghost before: Shape) returns (err: Error)
      requires Cleaning(before) && projectReference.spec.ccs && (emails != [] ==> HasGroups(config))
      modifies world
      ensures Cleaning(before) && (smooth ==> err == NoError)
      ensures RevokesSome(old(Pass().know), emails, Pass().know) && (err == NoError ==> AccessRevoked(emails, Pass().know))
      ensures old(Blocked()) ==> Blocked() && (emails != [] ==> err != NoError)
    {
      for i := 0 to |emails|
        invariant Cleaning(before) && RevokesSome(old(Pass().know), emails, Pass().know) && AccessRevoked(emails[..i], Pass().know)
        invariant old(Blocked()) ==> Blocked() && i == 0
      {
        err := DeleteIAMPolicy(Group(emails[i]), before);
        if err != NoError {
          return;
        }
      }
      assert emails[..|emails|] == emails;
      return NoError;
    }

    method EnsureCCSProjectCleanedUp(ghost before: Shape) returns (err: Error)
      requires Cleaning(before)
      modifies world
      ensures Cleaning(before) && (smooth ==> err == NoError)
      ensures RevokesSome(old(Pass().know), if projectReference.spec.ccs then config.consoleAccess + config.readOnlyAccess else [], Pass().know)
      ensures err == NoError && projectReference.spec.ccs ==> AllAccessRevoked(config, Pass().know) && AccessTaken()
      ensures old(Blocked()) ==> Blocked() && (projectReference.spec.ccs ==> err != NoError)
    {
      if !projectReference.spec.ccs {
        return NoError;
      }
      err := DeleteGroupGrants(config.consoleAccess, before);
      if err != NoError {
        return;
      }
      err := DeleteGroupGrants(config.readOnlyAccess, before);
      if err == NoError {
        AccessIsTaken();
      }
    }

    method DeleteCredentials(ghost before: Shape) returns (err: Error)
      requires Cleaning(before)
      modifies world
      ensures Cleaning(before) && (smooth ==> err == NoError)
      ensures Pass().know == old(Pass().know).(secret := Pass().know.secret)
      ensures err == NoError ==> Pass().know.secret == Absent
    {
      err := SecretExists();
      if err != NoError {
        return NoError;
      }
      err := SecretExists();
      if err != NoError {
        return;
      }
      err := DeleteSecret();
    }

    method EnsureFinalizerDeleted() returns (err: Error)
      requires Working() && Cleaning(TheShape()) && AllGone() && projectReference.status.conditions.Some?
      modifies world, this
      ensures Attached() && Pass().know == old(Pass().know) && (err == NoError ==> AllGone() && KeptInMind(Pass(), 0))
      ensures smooth ==> err == NoError && TheShape() == old(TheShape()).(reference := None)
    {
      var held := Contains(projectReference.finalizers, FINALIZER);
      if held {
        var finalizers := Filter(projectReference.finalizers, FINALIZER);
        assert smooth ==> finalizers == [] by {
          assert Filtered([FINALIZER], FINALIZER) == [];
        }
        projectReference := projectReference.(finalizers := finalizers);
        err := Update(RDropFinalizer);
        return;
      }
      return NoError;
    }

    method EnsureProjectClaimReady() returns (result: OperationResult, err: Error)
      requires Working() && Facts(2)
      modifies world, this
      ensures Leaves(3, result, err, old(TheShape()))
      ensures NotReadyYet() && old(AwaitingZones() && Fresh()) ==>
                && !GoesOn(result, err) && (err == NoError ==> result.requeue)
                && world.sys.cloud == old(world.sys.cloud) && OnlyConditionsChanged(old(TheSlot()), old(projectReference))
                && ProbedOnce(old(ConditionsInMemory()), ConditionsInMemory(), result.delay, err)
    {
      if projectReference.status.state != RefReady {
        return ContinueProcessing(), NoError;
      }
      if projectClaim.status.state == ClaimState.Ready {
        return StopProcessing(), NoError;
      }
      result, err := EnsureClaimAvailabilityZonesSet();
      if err != NoError || result.RequeueOrCancel() {
        return;
      }
      err := HandOverToClaim();
      if err != NoError {
        return Requeue(), err;
      }
      return StopProcessing(), NoError;
    }

    method HandOverToClaim() returns (err: Error)
      requires Working() && Facts(2) && projectReference.status.state == RefReady
      requires projectClaim.status.state != ClaimState.Ready && projectClaim.spec.zones != []
      modifies world, this`projectClaim
      ensures Attached() && (err == NoError ==> SeenAtRest(Pass()))
      ensures smooth ==> err == NoError && ReferenceHandled(old(TheShape()), TheShape()) && AtRest(TheShape())
    {
      err := EnsureClaimProjectIDSet();
      if err == NoError {
        err := SetClaimReady();
      }
    }

    method SetClaimReady() returns (err: Error)
      requires Working() && Publishing(Pass()) && projectClaim.spec.projectID != "" && projectClaim.spec.zones != []
      modifies world, this`projectClaim
      ensures Attached() && err == Pass().reply && (err == NoError ==> SeenAtRest(Pass()))
      ensures smooth ==>
                && err == NoError && old(TheShape()).claim.Some?
                && TheShape() == old(TheShape()).(claim := Some(old(TheShape()).claim.value.(state := ClaimState.Ready)))
    {
      ghost var was := projectClaim;
      projectClaim := projectClaim.(status := projectClaim.status.(state := ClaimState.Ready));
      err := UpdateClaimStatus(was);
    }

    /** A Ready reference has a project ID, whatever happened before this pass. */
    lemma ReadyHasID()
      requires Working() && Facts(2) && projectReference.status.state == RefReady
      ensures projectReference.spec.projectID != ""
    {
      Safety.ReachableHasInv(world.sys);
      assert Invariant.SlotInv(name, TheSlot(), world.sys.cloud);
      assert Invariant.ShapedLocal(name, world.sys.cloud.ids, world.sys.cloud.accountNames, Pass());
    }

    method EnsureClaimProjectIDSet() returns (err: Error)
      requires Working() && Facts(2) && projectReference.status.state == RefReady && projectClaim.spec.zones != []
      modifies world, this`projectClaim
      ensures Attached()
      ensures err == NoError ==>
                && Working() && Publishing(Pass()) && projectClaim.spec.projectID != "" && projectClaim.spec.zones != []
                && projectClaim.spec == old(projectClaim.spec).(
                     projectID := if old(projectClaim.spec.projectID) == "" then projectReference.spec.projectID else old(projectClaim.spec.projectID))
      ensures smooth ==>
                && err == NoError && old(TheShape()).claim.Some?
                && var c := old(TheShape()).claim.value;
                   TheShape() == old(TheShape()).(claim := Some(c.(spec := c.spec.(
                     projectID := if c.spec.projectID == "" then projectReference.spec.projectID else c.spec.projectID))))
    {
      ReadyHasID();
      if projectClaim.spec.projectID == "" {
        err := PublishProjectID();
        return;
      }
      return NoError;
    }

    method PublishProjectID() returns (err: Error)
      requires Working() && Publishing(Pass()) && projectClaim.spec.projectID == ""
      modifies world, this`projectClaim
      ensures Attached()
      ensures err == NoError ==>
                && Working() && Publishing(Pass())
                && projectClaim.spec == old(projectClaim.spec).(projectID := projectReference.spec.projectID)
      ensures smooth ==>
                && err == NoError && old(TheShape()).claim.Some?
                && var c := old(TheShape()).claim.value;
                   TheShape() == old(TheShape()).(claim := Some(c.(spec := c.spec.(projectID := projectReference.spec.projectID))))
    {
      ghost var was := projectClaim;
      projectClaim := projectClaim.(spec := projectClaim.spec.(projectID := projectReference.spec.projectID));
      err := UpdateClaim(RPublishID, was);
    }

    /** What the cloud answers when it is asked for the zones of a region. */
    method ListAvailabilityZones() returns (zones: seq<string>, err: Error)
      ensures world.quiet ==> zones == world.zones && err == world.zonesError
    {
      zones, err := *, *;
      if world.quiet {
        zones, err := world.zones, world.zonesError;
      }
    }

    method EnsureClaimAvailabilityZonesSet() returns (result: OperationResult, err: Error)
      requires Working() && Facts(2) && projectReference.status.state == RefReady && projectClaim.status.state != ClaimState.Ready
      modifies world, this
      ensures Attached() && (!GoesOn(result, err) && err == NoError ==> result.requeue && InMind(result.delay))
      ensures GoesOn(result, err) ==>
                && Working() && Facts(2) && projectClaim == old(projectClaim) && projectReference == old(projectReference)
                && projectClaim.spec.zones != [] && (smooth ==> TheShape() == old(TheShape()))
      ensures !GoesOn(result, err) && smooth ==>
                && err == NoError && ReferenceHandled(old(TheShape()), TheShape()) && TheSlot().claim.value.spec.zones == world.zones
                && ConditionsInMemory() != []
      ensures NotReadyYet() && old(projectClaim.spec.zones == [] && Fresh()) ==>
                && !GoesOn(result, err) && (err == NoError ==> result.requeue)
                && world.sys.cloud == old(world.sys.cloud) && OnlyConditionsChanged(old(TheSlot()), old(projectReference))
                && ProbedOnce(old(ConditionsInMemory()), ConditionsInMemory(), result.delay, err)
    {
      if |projectClaim.spec.zones| > 0 {
        return ContinueProcessing(), NoError;
      }
      result, err := QueryAvailabilityZones();
    }

    /** Asks for the zones and stores them in the claim. */
    method QueryAvailabilityZones() returns (result: OperationResult, err: Error)
      requires Working() && Facts(2) && projectReference.status.state == RefReady
      requires projectClaim.status.state != ClaimState.Ready && projectClaim.spec.zones == []
      modifies world, this
      ensures Attached() && !GoesOn(result, err) && (err == NoError ==> result.requeue && InMind(result.delay))
      ensures smooth ==>
                && err == NoError && ReferenceHandled(old(TheShape()), TheShape()) && TheSlot().claim.value.spec.zones == world.zones
                && ConditionsInMemory() != []
      ensures NotReadyYet() && old(Fresh()) ==>
                && (err == NoError ==> result.requeue)
                && world.sys.cloud == old(world.sys.cloud) && OnlyConditionsChanged(old(TheSlot()), old(projectReference))
                && ProbedOnce(old(ConditionsInMemory()), ConditionsInMemory(), result.delay, err)
    {
      var zones;
      zones, err := ListAvailabilityZones();
      if err != NoError {
        var now: Time := *;
        result, err := HandleAvailabilityZonesError(err, now);
        return;
      }
      err := UpdateZones(zones);
      return Requeue(), err;
    }

    method UpdateZones(zones: seq<string>) returns (err: Error)
      requires Working() && Facts(2) && projectReference.status.state == RefReady
      requires projectClaim.status.state != ClaimState.Ready && projectClaim.spec.zones == [] && (smooth ==> zones != [])
      modifies world, this
      ensures Attached() && err == Pass().reply && (err == NoError ==> HandingOver(Pass()))
      ensures smooth ==> err == NoError && ReferenceHandled(old(TheShape()), TheShape()) && TheSlot().claim.value.spec.zones == zones
      ensures ConditionsInMemory() != [] && Get(ConditionsInMemory(), ConditionComputeApiReady).status == True
    {
      var now: Time := *;
      SetMeaning(ConditionsInMemory(), ConditionComputeApiReady, True, "QueryAvailabilityZonesSucceeded",
                 "ComputeAPI ready, successfully queried availability zones", now);
      SetCondition(ConditionComputeApiReady, True, "QueryAvailabilityZonesSucceeded",
                   "ComputeAPI ready, successfully queried availability zones", now);
      ghost var was := projectClaim;
      projectClaim := projectClaim.(spec := projectClaim.spec.(zones := zones));
      err := UpdateClaim(RSetZones(zones), was);
    }

    /** Looks the condition up, which adds a blank one where there is none; the next report of its kind makes up for that. */
    method NotReadyTooLong(now: Time) returns (tooLong: bool)
      requires Working() && Facts(1)
      modifies this`projectReference
      ensures Working() && projectReference == old(projectReference).(status := projectReference.status)
      ensures projectReference.status == old(projectReference.status).(conditions := projectReference.status.conditions)
      ensures var conditions := old(projectReference.status.conditions.value);
              && tooLong == TimedOut(conditions, now)
              && projectReference.status.conditions.Some?
              && projectReference.status.conditions.value ==
                   if Has(conditions, ConditionComputeApiReady) then conditions else conditions + [Blank(ConditionComputeApiReady)]
    {
      var conditions := new ConditionList(projectReference.status.conditions.value);
      var index, found := conditions.FindCondition(ConditionComputeApiReady);
      tooLong := found && conditions.items[index].transition < now - TEN_MINUTES;
      SamePositions(projectReference.status.conditions.value, conditions.items, ConditionError);
      projectReference := projectReference.(status := projectReference.status.(conditions := Some(conditions.items)));
    }

    /** Stores a condition that says that the Compute API is not ready. */
    method ReportNotReady(now: Time) returns (tooLong: bool, err: Error)
      requires Working() && Facts(2)
      modifies world, this`projectReference
      ensures Attached() && err == Pass().reply
      ensures var conditions := old(projectReference.status.conditions.value);
              && tooLong == TimedOut(conditions, now)
              && projectReference.status == old(projectReference.status).(conditions := Some(ProbeFailed(conditions, now)))
      ensures world.quiet && old(Fresh()) ==>
                err == NoError && world.sys.cloud == old(world.sys.cloud) && OnlyConditionsChanged(old(TheSlot()), old(projectReference))
    {
      BlankIsNeutral(projectReference.status.conditions.value, ConditionComputeApiReady, False, NOT_READY_REASON, NOT_READY_MESSAGE, now);
      tooLong := NotReadyTooLong(now);
      SetCondition(ConditionComputeApiReady, False, NOT_READY_REASON, NOT_READY_MESSAGE, now);
      err := StatusUpdate();
    }

    /** While the Compute API is not ready the pass waits; when it has not been for too long, this is an error. */
    method HandleAvailabilityZonesError(failure: Error, now: Time) returns (result: OperationResult, err: Error)
      requires Working() && Facts(2) && failure != NoError
      modifies world, this`projectReference
      ensures Attached() && !GoesOn(result, err)
      ensures failure != ComputeNotReady ==> err == failure && projectReference == old(projectReference)
      ensures failure == ComputeNotReady ==>
                var conditions := old(projectReference.status.conditions.value);
                && projectReference.status == old(projectReference.status).(conditions := Some(ProbeFailed(conditions, now)))
                && (TimedOut(conditions, now) ==> err == ComputeNotReady)
                && (err == NoError ==> result == RequeueAfter(30))
                && (!TimedOut(conditions, now) ==> err == NoError || err == Pass().reply)
      ensures failure == ComputeNotReady && world.quiet && old(Fresh()) ==>
                && (!TimedOut(old(projectReference.status.conditions.value), now) ==> err == NoError)
                && world.sys.cloud == old(world.sys.cloud) && OnlyConditionsChanged(old(TheSlot()), old(projectReference))
    {
      if failure != ComputeNotReady {
        return Requeue(), failure;
      }
      var tooLong;
      tooLong, err := ReportNotReady(now);
      if tooLong {
        return Requeue(), failure;
      }
      if err != NoError {
        return Requeue(), err;
      }
      return RequeueAfter(30), NoError;
    }

    method VerifyProjectClaimPending() returns (result: OperationResult, err: Error)
      requires Working() && Facts(3)
      ensures Leaves(4, result, err, TheShape())
      ensures if projectClaim.status.state == PendingProject then GoesOn(result, err) else result == RequeueAfter(5) && err == NoError
    {
      if projectClaim.status.state != PendingProject {
        return RequeueAfter(5), NoError;
      }
      return ContinueProcessing(), NoError;
    }

    method EnsureProjectReferenceStatusCreating() returns (result: OperationResult, err: Error)
      requires Working() && Facts(4)
      modifies world, this
      ensures Leaves(5, result, err, old(TheShape()))
      ensures !GoesOn(result, err) ==>
                err == Pass().reply && (err == NoError ==> Pass().local.status == old(projectReference.status).(state := RefCreating))
    {
      if projectReference.status.state != RefUnset {
        return ContinueProcessing(), NoError;
      }
      projectReference := projectReference.(status := projectReference.status.(state := RefCreating));
      err := StatusUpdate();
      if err != NoError {
        return Requeue(), err;
      }
      return StopProcessing(), NoError;
    }

    method EnsureProjectID() returns (result: OperationResult, err: Error)
      requires Working() && Facts(5)
      modifies world, this
      ensures Leaves(6, result, err, old(TheShape()))
      ensures !GoesOn(result, err) ==> err == Pass().reply
      ensures !GoesOn(result, err) && err == NoError ==>
                Pass().local.spec == old(projectReference.spec).(projectID := Pass().local.spec.projectID) && Pass().local.spec.projectID != ""
    {
      if projectReference.spec.projectID != "" {
        return ContinueProcessing(), NoError;
      }
      err := UpdateProjectID();
      if err != NoError {
        return Requeue(), err;
      }
      return StopProcessing(), NoError;
    }

    method EnsureServiceAccountName() returns (result: OperationResult, err: Error)
      requires Working() && Facts(6)
      modifies world, this
      ensures Leaves(7, result, err, old(TheShape()))
      ensures !GoesOn(result, err) ==> err == Pass().reply
      ensures !GoesOn(result, err) && err == NoError ==>
                && Pass().local.spec == old(projectReference.spec).(accountName := Pass().local.spec.accountName)
                && AccountNamed(Pass().local.spec.accountName)
    {
      if AccountNamed(projectReference.spec.accountName) {
        return ContinueProcessing(), NoError;
      }
      err := UpdateServiceAccountName();
      if err != NoError {
        return Requeue(), err;
      }
      return StopProcessing(), NoError;
    }

    method EnsureFinalizerAdded() returns (result: OperationResult, err: Error)
      requires Working() && Facts(7)
      modifies world, this
      ensures Leaves(8, result, err, old(TheShape()))
      ensures !GoesOn(result, err) ==>
                err == Pass().reply && (err == NoError ==> Pass().local.finalizers == old(projectReference.finalizers) + [FINALIZER])
    {
      var held := Contains(projectReference.finalizers, FINALIZER);
      if !held {
        projectReference := projectReference.(finalizers := projectReference.finalizers + [FINALIZER]);
        err := Update(RAddFinalizer);
        return StopProcessing(), err;
      }
      return ContinueProcessing(), NoError;
    }

    /** A pass over a reference that is being built, its finalizer in place, with nothing stored yet. */
    ghost predicate Founding(before: Shape)
      reads this, world
    {
      Working() && Facts(8) && Building(Pass()) && (smooth ==> TheShape() == before)
    }

    /** The project may be configured, and exists if nothing stands in the way. */
    ghost predicate Prepared(before: Shape)
      reads this, world
    {
      Founding(before) && Configuring(Pass()) && (smooth ==> projectReference.spec.projectID in world.sys.cloud.projects)
    }

    /** In a quiet world, the operator's own project is there, and is being deleted. */
    ghost predicate Condemned()
      requires name in world.sys.slots && Pass().ReferenceRunning?
      reads this, world
    {
      && world.quiet && !projectReference.spec.ccs && Pass().project in world.sys.cloud.projects
      && world.sys.cloud.projects[Pass().project].state == DeleteRequested
    }

    method EnsureProjectCreated() returns (result: OperationResult, err: Error)
      requires Working() && Facts(8)
      modifies world, this
      ensures Leaves(9, result, err, old(TheShape()))
      ensures GoesOn(result, err) && !projectReference.spec.ccs ==> BILLING_API in Pass().know.apis
      ensures GoesOn(result, err) && !projectReference.spec.ccs ==>
                forall account | Configures(config.billingAccount, account) :: LinkedTo("billingAccounts/" + account)
      ensures !GoesOn(result, err) && err == NoError ==> projectReference.status.state == RefError
      ensures old(Condemned()) ==> !GoesOn(result, err) && err == Pass().reply && projectReference.status.state == RefError
      ensures !GoesOn(result, err) && err == NoError ==> Pass().know.listed == Found(DeleteRequested)
    {
      ghost var before := TheShape();
      if projectReference.spec.ccs {
        return ContinueProcessing(), NoError;
      }
      err := CreateProject(before);
      if err == InactiveProject {
        result, err := RejectProject(before);
        return;
      }
      if err != NoError {
        return Requeue(), err;
      }
      err := ConfigureBillingAPI(before);
      if err != NoError {
        return Requeue(), err;
      }
      return ContinueProcessing(), NoError;
    }

    /** A project that is being deleted is an error of the reference. */
    method RejectProject(ghost before: Shape) returns (result: OperationResult, err: Error)
      requires Founding(before) && !smooth
      modifies world, this`projectReference
      ensures Attached() && !GoesOn(result, err) && projectReference.status.state == RefError
      ensures err == Pass().reply && (err == NoError ==> Pass().wrote) && Pass().know == old(Pass().know)
    {
      projectReference := projectReference.(status := projectReference.status.(state := RefError));
      err := StatusUpdate();
      if err != NoError {
        return Requeue(), err;
      }
      return StopProcessing(), NoError;
    }

    method CreateProject(ghost before: Shape) returns (err: Error)
      requires Founding(before) && !projectReference.spec.ccs
      modifies world, this`projectReference
      ensures Attached() && (smooth ==> err == NoError)
      ensures err == NoError ==> Prepared(before) && Pass().know == old(Pass().know).(listed := Found(Active))
      ensures err == InactiveProject ==> Founding(before)
      ensures err == NoError || err == InactiveProject ==> projectReference == old(projectReference)
      ensures Pass().know.createFailed ==>
                err == Failed && Pass().closing && (Pass().reply == NoError ==> Pass().local.spec.projectID == "")
      ensures old(Condemned()) ==> err == InactiveProject
      ensures err == InactiveProject ==> Pass().know.listed == Found(DeleteRequested)
    {
      ghost var projects, o;
      err, projects, o := CallCloud(RList);
      if err != NoError {
        return;
      }
      var listed := Pass().know.listed;
      if listed == Found(Active) {
        return NoError;
      }
      if listed == Found(DeleteRequested) {
        return InactiveProject;
      }
      if listed != Missing {
        return Failed;
      }
      err := MakeProject(before);
    }

    /** Makes the project; when this fails, the reference gives up its ID. */
    method MakeProject(ghost before: Shape) returns (err: Error)
      requires Founding(before) && !projectReference.spec.ccs && Pass().know.listed == Missing && projectReference.spec.projectID != ""
      modifies world, this`projectReference
      ensures Attached() && (smooth ==> err == NoError) && (err == NoError || err == Failed)
      ensures err == NoError ==>
                && Prepared(before) && Pass().know == old(Pass().know).(listed := Found(Active))
                && projectReference == old(projectReference)
      ensures Pass().know.createFailed ==>
                err == Failed && Pass().closing && (Pass().reply == NoError ==> Pass().local.spec.projectID == "")
    {
      ghost var projects, o;
      err, projects, o := CallCloud(RCreateProject);
      if err != NoError {
        var clearing := ClearProjectID();
        return Failed;
      }
    }

    method ClearProjectID() returns (err: Error)
      requires Working() && Building(Pass()) && Pass().know.createFailed && !smooth
      modifies world, this`projectReference
      ensures Attached() && Pass().closing && Pass().reply == err
      ensures err == NoError ==> Pass().local.spec == old(Pass().local.spec).(projectID := "")
    {
      projectReference := projectReference.(spec := projectReference.spec.(projectID := ""));
      err := Update(RClearID);
    }

    /** The call is tried again for as long as it is forbidden, four times at most. */
    method EnableAPI(api: string, ghost before: Shape) returns (err: Error, ghost forbidden: seq<bool>)
      requires Prepared(before) && (api in REQUIRED_APIS || api == BILLING_API)
      modifies world
      ensures Prepared(before) && (smooth ==> err == NoError && |forbidden| == 1)
      ensures 1 <= |forbidden| <= 4 && (forall k :: 0 <= k < |forbidden| - 1 ==> forbidden[k])
      ensures err != NoError && forbidden[|forbidden| - 1] ==> |forbidden| == 4
      ensures Pass().know == old(Pass().know).(apis := if err == NoError then old(Pass().know.apis) + {api} else old(Pass().know.apis))
    {
      var retry := 0;
      forbidden := [];
      while true
        invariant |forbidden| == retry <= API_RETRIES && (smooth ==> retry == 0) && Prepared(before) && Pass().know == old(Pass().know)
        invariant forall k :: 0 <= k < |forbidden| ==> forbidden[k]
        decreases API_RETRIES - retry
      {
        retry := retry + 1;
        err := TryAPI(api, before);
        var isForbidden: bool := *;
        forbidden := forbidden + [isForbidden];
        if err == NoError || !isForbidden || retry > API_RETRIES {
          return;
        }
      }
    }

    method TryAPI(api: string, ghost before: Shape) returns (err: Error)
      requires Prepared(before) && (api in REQUIRED_APIS || api == BILLING_API)
      modifies world
      ensures Prepared(before) && (smooth ==> err == NoError)
      ensures Pass().know == old(Pass().know).(apis := if err == NoError then old(Pass().know.apis) + {api} else old(Pass().know.apis))
    {
      ghost var projects, o;
      err, projects, o := CallCloud(REnableApi(api));
    }

    method ConfigureBillingAPI(ghost before: Shape) returns (err: Error)
      requires Prepared(before) && !projectReference.spec.ccs
      modifies world
      ensures Prepared(before) && (smooth ==> err == NoError)
      ensures err == NoError ==>
                BILLING_API in Pass().know.apis && Pass().know.billing == BillingAccountName(config.billingAccount)
      ensures err == NoError ==> forall account | Configures(config.billingAccount, account) :: LinkedTo("billingAccounts/" + account)
    {
      ghost var projects, o;
      err, projects, o := CallCloud(RListApis);
      if err != NoError {
        return;
      }
      if BILLING_API !in Pass().know.apis {
        ghost var forbidden;
        err, forbidden := EnableAPI(BILLING_API, before);
        if err != NoError {
          return;
        }
      }
      err := CreateCloudBillingAccount(before);
    }

    method SetBilling(billing: string, ghost before: Shape) returns (err: Error)
      requires Prepared(before) && !projectReference.spec.ccs
      modifies world
      ensures Prepared(before) && (smooth ==> err == NoError)
      ensures Pass().know == old(Pass().know).(billing := Pass().know.billing)
      ensures err == NoError ==> LinkedTo(billing)
    {
      ghost var projects, o;
      BillingIsTold(name, TheSlot(), world.sys.cloud, RSetBilling(billing));
      err, projects, o := CallCloud(RSetBilling(billing));
    }

    /** As far as the pass knows, and for certain in a quiet world, the project is linked to this billing account. */
    ghost predicate LinkedTo(billing: string)
      requires name in world.sys.slots && Pass().ReferenceRunning?
      reads this, world
    {
      Pass().know.billing == billing && (world.quiet ==> BillingIn(world.sys.cloud.projects, Pass().project) == billing)
    }

    /** Links the project to the billing account; a project linked to another one is unlinked first. */
    method CreateCloudBillingAccount(ghost before: Shape) returns (err: Error)
      requires Prepared(before) && !projectReference.spec.ccs
      modifies world
      ensures Prepared(before) && (smooth ==> err == NoError)
      ensures Pass().know == old(Pass().know).(billing := Pass().know.billing)
      ensures err == NoError ==> Pass().know.billing == BillingAccountName(config.billingAccount)
      ensures err == NoError ==> forall account | Configures(config.billingAccount, account) :: LinkedTo("billingAccounts/" + account)
    {
      err := ReadBilling(before);
      if err != NoError {
        return;
      }
      err := Link(BillingAccountName(config.billingAccount), before);
      forall account | Configures(config.billingAccount, account) && err == NoError
        ensures LinkedTo("billingAccounts/" + account)
      {
        AccountIsTrimmed(config.billingAccount, account);
      }
    }

    method ReadBilling(ghost before: Shape) returns (err: Error)
      requires Prepared(before) && !projectReference.spec.ccs
      modifies world
      ensures Prepared(before) && (smooth ==> err == NoError)
      ensures Pass().know == old(Pass().know).(billing := Pass().know.billing)
      ensures err == NoError ==> LinkedTo(Pass().know.billing)
    {
      ghost var projects, o;
      BillingIsTold(name, TheSlot(), world.sys.cloud, RReadBilling);
      err, projects, o := CallCloud(RReadBilling);
    }

    /** Links the project to this account unless it is linked to it. */
    method Link(billingAccount: string, ghost before: Shape) returns (err: Error)
      requires Prepared(before) && !projectReference.spec.ccs && LinkedTo(Pass().know.billing)
      modifies world
      ensures Prepared(before) && (smooth ==> err == NoError)
      ensures Pass().know == old(Pass().know).(billing := Pass().know.billing)
      ensures err == NoError ==> LinkedTo(billingAccount)
    {
      var linked := Pass().know.billing;
      if linked == billingAccount {
        return NoError;
      }
      if linked != "" {
        err := SetBilling("", before);
        if err != NoError {
          return;
        }
      }
      err := SetBilling(billingAccount, before);
    }

    method ConfigureAPIS(ghost before: Shape) returns (err: Error)
      requires Prepared(before)
      modifies world
      ensures Prepared(before) && (smooth ==> err == NoError)
      ensures Pass().know == old(Pass().know).(apis := Pass().know.apis)
      ensures err == NoError ==> forall api :: api in REQUIRED_APIS ==> api in Pass().know.apis
    {
      ghost var projects, o;
      err, projects, o := CallCloud(RListApis);
      if err != NoError {
        return;
      }
      err := EnableMissing(REQUIRED_APIS, before);
    }

    method EnableMissing(apis: seq<string>, ghost before: Shape) returns (err: Error)
      requires Prepared(before) && forall api | api in apis :: api in REQUIRED_APIS
      modifies world
      ensures Prepared(before) && (smooth ==> err == NoError)
      ensures EnablesSome(old(Pass().know), AsSet(apis), Pass().know)
      ensures err == NoError ==> forall api :: api in apis ==> api in Pass().know.apis
    {
      ghost var was := Pass().know;
      for i := 0 to |apis|
        invariant Prepared(before) && EnablesFirst(was, apis, i, Pass().know)
      {
        ghost var middle := Pass().know;
        err := EnsureAPI(apis[i], before);
        OneMoreAPI(was, apis, i, middle, Pass().know);
        if err != NoError {
          return;
        }
      }
      return NoError;
    }

    method EnsureAPI(api: string, ghost before: Shape) returns (err: Error)
      requires Prepared(before) && (api in REQUIRED_APIS || api == BILLING_API)
      modifies world
      ensures Prepared(before) && (smooth ==> err == NoError)
      ensures EnablesSome(old(Pass().know), {api}, Pass().know) && (err == NoError ==> api in Pass().know.apis)
    {
      if api in Pass().know.apis {
        return NoError;
      }
      ghost var forbidden;
      err, forbidden := EnableAPI(api, before);
    }

    /** The policy's own loop is the business of another module; here it is one change that is made or not. */
    method SetIAMPolicy(who: Principal, roles: seq<string>, ghost before: Shape) returns (err: Error)
      requires Prepared(before) && MayGrant(who, AsSet(roles))
      modifies world
      ensures Prepared(before) && (smooth ==> err == NoError)
      ensures Pass().know == if err == NoError then WithGrant(old(Pass().know), who, AsSet(roles)) else old(Pass().know)
      ensures smooth ==> old(TheAccounts()) <= TheAccounts()
      ensures world.quiet ==> TheGrants() == old(TheGrants()) + (if err == NoError then GrantsOf(AsSet(roles), who) else {})
    {
      err := Grant(who, AsSet(roles));
    }

    /** The roles are those that the account, or groups, are meant to have. */
    ghost predicate MayGrant(who: Principal, roles: set<string>)
      requires name in world.sys.slots && Pass().ReferenceRunning?
      reads world
    {
      if who.Group? then roles == AsSet(ConsoleRoles(true)) || roles == AsSet(ConsoleRoles(false))
      else who == ServiceAccount(Pass().account) && Pass().know.account == Present && roles == AsSet(AccountRoles(Pass().local.spec.sharedVPC))
    }

    ghost function TheGrants(): Grants
      requires name in world.sys.slots && Pass().ReferenceRunning?
      reads world
    {
      GrantsIn(world.sys.cloud.projects, Pass().project)
    }

    method Grant(who: Principal, roles: set<string>) returns (err: Error)
      requires Working() && Configuring(Pass()) && MayGrant(who, roles)
      modifies world
      ensures Working()
      ensures Pass() == old(Pass()).(know := Pass().know, reply := err)
      ensures Pass().know == if err == NoError then WithGrant(old(Pass().know), who, roles) else old(Pass().know)
      ensures world.quiet ==>
                && TheGrants() == old(TheGrants()) + (if err == NoError then GrantsOf(roles, who) else {})
                && TheAccounts() == old(TheAccounts())
      ensures smooth ==>
                && TheSlot() == old(TheSlot()).(refPass := Pass())
                && old(world.sys.cloud.projects.Keys) <= world.sys.cloud.projects.Keys
                && (old(Pass().project in world.sys.cloud.projects) ==> err == NoError)
    {
      ghost var projects, o;
      ghost var p := Pass();
      GrantAdds(name, TheSlot(), world.sys.cloud, who, roles);
      err, projects, o := CallCloud(RGrant(who, roles));
      GrantTeaches(p, projects, who, roles, o);
    }

    method GetServiceAccount(ghost before: Shape) returns (err: Error)
      requires Prepared(before)
      modifies world
      ensures Prepared(before)
      ensures Pass().know == old(Pass().know).(account := Pass().know.account)
      ensures err == NoError ==> Pass().know.account == Present
      ensures smooth ==>
                && TheAccounts() == old(TheAccounts()) && (err == NoError <==> Pass().account in TheAccounts())
                && TheSlot().secrets == old(TheSlot().secrets)
      ensures err == Pass().reply
    {
      ghost var projects, o;
      CallKeepsAccounts(name, TheSlot(), world.sys.cloud, RReadAccount);
      err, projects, o := CallCloud(RReadAccount);
    }

    method CreateServiceAccount(ghost before: Shape) returns (err: Error)
      requires Prepared(before) && (smooth ==> Pass().account !in TheAccounts())
      modifies world
      ensures Prepared(before) && (smooth ==> err == NoError && Pass().account in TheAccounts())
      ensures Pass().know == old(Pass().know).(
                account := Pass().know.account, granted := Pass().know.granted, revoked := Pass().know.revoked)
      ensures err == NoError ==> Pass().know.account == Present
      ensures Pass().know.granted <= old(Pass().know.granted)
      ensures err == Pass().reply
    {
      ghost var projects, o;
      CallKeepsAccounts(name, TheSlot(), world.sys.cloud, RCreateAccount);
      err, projects, o := CallCloud(RCreateAccount);
    }

    /** Makes the service account where it cannot be read. */
    method EnsureServiceAccount(ghost before: Shape) returns (err: Error)
      requires Prepared(before)
      modifies world
      ensures Prepared(before) && (smooth ==> err == NoError && Pass().account in TheAccounts())
      ensures Pass().know == old(Pass().know).(
                account := Pass().know.account, granted := Pass().know.granted, revoked := Pass().know.revoked)
      ensures err == NoError ==> Pass().know.account == Present
      ensures Pass().know.granted <= old(Pass().know.granted)
      ensures err == Pass().reply
    {
      err := GetServiceAccount(before);
      if err != NoError {
        err := CreateServiceAccount(before);
      }
    }

    method ConfigureServiceAccount(policies: seq<string>, ghost before: Shape) returns (result: OperationResult, err: Error)
      requires Prepared(before) && AsSet(policies) == AsSet(AccountRoles(projectReference.spec.sharedVPC))
      modifies world
      ensures Prepared(before) && (smooth ==> GoesOn(result, err) && Pass().account in TheAccounts())
      ensures Pass().know == old(Pass().know).(
                account := Pass().know.account, granted := Pass().know.granted, revoked := Pass().know.revoked)
      ensures Pass().know.granted <= old(Pass().know.granted) + AsSet(policies)
      ensures err == NoError && !result.requeue ==> Pass().know.account == Present && AsSet(policies) <= Pass().know.granted
      ensures err == NoError && (result.requeue || result.cancel) ==> result == RequeueAfter(30)
      ensures err == NoError && result.requeue ==> Pass().reply == AlreadyExists
    {
      err := EnsureServiceAccount(before);
      if err == AlreadyExists {
        return RequeueAfter(30), NoError;
      }
      if err != NoError {
        return Requeue(), err;
      }
      err := SetIAMPolicy(ServiceAccount(projectReference.spec.accountName), policies, before);
      if err != NoError {
        return Requeue(), err;
      }
      return ContinueProcessing(), NoError;
    }

    /** The secret with the account's key is made unless it can be read. */
    method CreateCredentials(ghost before: Shape) returns (result: OperationResult, err: Error)
      requires Prepared(before) && Pass().know.account == Present && (smooth ==> Pass().account in TheAccounts())
      modifies world
      ensures Prepared(before) && (smooth ==> GoesOn(result, err))
      ensures Pass().know == old(Pass().know).(account := Pass().know.account, secret := Pass().know.secret)
      ensures err == NoError && !result.requeue ==> Pass().know.account == Present && Pass().know.secret == Present
      ensures err == NoError && (result.requeue || result.cancel) ==> result == RequeueAfter(30)
      ensures err == NoError && result.requeue ==> Pass().reply == NotFound
    {
      err := SecretExists();
      if err == NoError {
        return ContinueProcessing(), NoError;
      }
      result, err := MakeCredentials(before);
    }

    /** The account is read again before a key is made for it. */
    method MakeCredentials(ghost before: Shape) returns (result: OperationResult, err: Error)
      requires Prepared(before) && Pass().know.account == Present && Pass().know.secret == Absent
      requires smooth ==> Pass().account in TheAccounts() && projectClaim.spec.credentialSecret !in TheSlot().secrets
      modifies world
      ensures Prepared(before) && (smooth ==> GoesOn(result, err))
      ensures Pass().know == old(Pass().know).(account := Pass().know.account, secret := Pass().know.secret)
      ensures err == NoError && !result.requeue ==> Pass().know.account == Present && Pass().know.secret == Present
      ensures err == NoError && (result.requeue || result.cancel) ==> result == RequeueAfter(30)
      ensures err == NoError && result.requeue ==> Pass().reply == NotFound
    {
      err := GetServiceAccount(before);
      if err == NotFound {
        return RequeueAfter(30), NoError;
      }
      if err != NoError {
        return Requeue(), err;
      }
      err := CreateSecret(before);
      if err != NoError {
        return Requeue(), err;
      }
      return ContinueProcessing(), NoError;
    }

    /** Makes a key, which may fail, and stores it. */
    method CreateSecret(ghost before: Shape) returns (err: Error)
      requires Prepared(before) && Pass().know.secret == Absent
      requires smooth ==> projectClaim.spec.credentialSecret !in TheSlot().secrets
      modifies world
      ensures Prepared(before) && (smooth ==> err == NoError)
      ensures Pass().know == old(Pass().know).(secret := Pass().know.secret)
      ensures err == NoError ==> Pass().know.secret == Present
    {
      var key := world.AnyOutcome();
      if key != Ok {
        return Failed;
      }
      err := StoreCredentials();
    }

    /** The account with its roles, and its key in the claim's secret. */
    method ConfigureAccount(ghost before: Shape) returns (result: OperationResult, err: Error)
      requires Prepared(before)
      modifies world
      ensures Prepared(before) && (smooth ==> GoesOn(result, err))
      ensures var know := Pass().know;
              know == old(Pass().know).(account := know.account, granted := know.granted, revoked := know.revoked, secret := know.secret)
      ensures Pass().know.granted <= old(Pass().know.granted) + AsSet(AccountRoles(projectReference.spec.sharedVPC))
      ensures err == NoError && !result.requeue ==>
                && Pass().know.account == Present && Pass().know.secret == Present
                && AsSet(AccountRoles(projectReference.spec.sharedVPC)) <= Pass().know.granted
      ensures err == NoError && (result.requeue || result.cancel) ==> result == RequeueAfter(30)
      ensures err == NoError && result.requeue ==> Pass().reply in {AlreadyExists, NotFound}
    {
      var serviceAccountRoles := AccountRoles(projectReference.spec.sharedVPC);
      result, err := ConfigureServiceAccount(serviceAccountRoles, before);
      if err != NoError || result.requeue {
        return;
      }
      result, err := CreateCredentials(before);
    }

    method GrantGroups(emails: seq<string>, roles: seq<string>, ghost before: Shape) returns (err: Error)
      requires Prepared(before) && (AsSet(roles) == AsSet(ConsoleRoles(true)) || AsSet(roles) == AsSet(ConsoleRoles(false)))
      modifies world
      ensures Prepared(before) && (smooth ==> err == NoError)
      ensures GrantsSome(old(Pass().know), GroupGrants(emails, roles), Pass().know)
      ensures err == NoError ==> GrantsAll(old(Pass().know), GroupGrants(emails, roles), Pass().know)
    {
      ghost var was := Pass().know;
      NoGroups(was, emails, roles);
      for i := 0 to |emails|
        invariant Prepared(before) && Pass().know == WithGroups(was, emails, i, roles)
      {
        err := SetIAMPolicy(Group(emails[i]), roles, before);
        OneMoreGroup(was, emails, i, roles);
        if err != NoError {
          return;
        }
      }
      return NoError;
    }

    /** What a pass granted is there, whoever else is at work on the project, unless others took it away. */
    lemma GrantedIsThere(emails: seq<string>, roles: seq<string>)
      requires world.Valid() && name in world.sys.slots && Pass().ReferenceRunning? && GroupsGranted(emails, roles, Pass().know)
      ensures GroupsHave(world.sys.cloud.projects, Pass().project, emails, roles)
    {
      Safety.ReachableHasInv(world.sys);
      assert Invariant.SlotInv(name, TheSlot(), world.sys.cloud);
      assert Invariant.KnowsGroups(Pass().project, Pass().know, world.sys.cloud.projects);
      forall email, role | email in emails && role in roles
        ensures (role, Group(email)) in Pass().know.groupGrants
      {
        assert (role, Group(email)) in GroupGrants(emails, roles);
      }
    }

    /** What a pass revoked is gone, unless it was given again. */
    lemma RevokedIsGone(emails: seq<string>)
      requires world.Valid() && name in world.sys.slots && Pass().ReferenceRunning? && AccessRevoked(emails, Pass().know)
      ensures GroupsOut(world.sys.cloud.projects, Pass().project, emails)
    {
      Safety.ReachableHasInv(world.sys);
      assert Invariant.SlotInv(name, TheSlot(), world.sys.cloud);
      assert Invariant.KnowsGroups(Pass().project, Pass().know, world.sys.cloud.projects);
    }

    /** Everybody who is to have access to a customer's project has it. */
    ghost predicate AccessGiven()
      requires name in world.sys.slots && Pass().ReferenceRunning?
      reads this, world
    {
      && GroupsHave(world.sys.cloud.projects, Pass().project, config.consoleAccess, ConsoleRoles(false))
      && GroupsHave(world.sys.cloud.projects, Pass().project, config.readOnlyAccess, ConsoleRoles(true))
    }

    /** Nobody has the access to a customer's project that the operator gave. */
    ghost predicate AccessTaken()
      requires name in world.sys.slots && Pass().ReferenceRunning?
      reads this, world
    {
      && GroupsOut(world.sys.cloud.projects, Pass().project, config.consoleAccess)
      && GroupsOut(world.sys.cloud.projects, Pass().project, config.readOnlyAccess)
    }

    lemma AccessIsGiven()
      requires world.Valid() && name in world.sys.slots && Pass().ReferenceRunning? && ConsoleAccess(config, Pass().know)
      ensures AccessGiven()
    {
      GrantedIsThere(config.consoleAccess, ConsoleRoles(false));
      GrantedIsThere(config.readOnlyAccess, ConsoleRoles(true));
    }

    lemma AccessIsTaken()
      requires world.Valid() && name in world.sys.slots && Pass().ReferenceRunning? && AllAccessRevoked(config, Pass().know)
      ensures AccessTaken()
    {
      RevokedIsGone(config.consoleAccess);
      RevokedIsGone(config.readOnlyAccess);
    }

    /** All that groups are to have in the project. */
    ghost function AllGroupGrants(): Grants
      reads this
    {
      if projectReference.spec.ccs then
        GroupGrants(config.consoleAccess, ConsoleRoles(false)) + GroupGrants(config.readOnlyAccess, ConsoleRoles(true))
      else {}
    }

    method GrantAllGroups(ghost before: Shape) returns (err: Error)
      requires Prepared(before)
      modifies world
      ensures Prepared(before) && (smooth ==> err == NoError)
      ensures GrantsSome(old(Pass().know), AllGroupGrants(), Pass().know)
      ensures err == NoError ==> GrantsAll(old(Pass().know), AllGroupGrants(), Pass().know)
    {
      if !projectReference.spec.ccs {
        return NoError;
      }
      ghost var was := Pass().know;
      err := GrantGroups(config.consoleAccess, ConsoleRoles(false), before);
      if err != NoError {
        return;
      }
      ghost var middle := Pass().know;
      err := GrantGroups(config.readOnlyAccess, ConsoleRoles(true), before);
      GrantsAdd(was, GroupGrants(config.consoleAccess, ConsoleRoles(false)), middle,
                GroupGrants(config.readOnlyAccess, ConsoleRoles(true)), Pass().know);
    }

    /** The pass has granted nothing but what the account and the groups are to have. */
    ghost predicate GrantsNoMore(before: Knowledge)
      requires name in world.sys.slots && Pass().ReferenceRunning?
      reads this, world
    {
      && Pass().know.granted <= before.granted + AsSet(AccountRoles(projectReference.spec.sharedVPC))
      && Pass().know.groupGrants <= before.groupGrants + AllGroupGrants()
    }

    /** Everything that is left to configure in the project. */
    method ConfigureAll(ghost before: Shape) returns (result: OperationResult, err: Error)
      requires Prepared(before)
      modifies world
      ensures Prepared(before) && (smooth ==> GoesOn(result, err))
      ensures GoesOn(result, err) ==>
                Pass().know == old(Pass().know).(apis := Pass().know.apis, account := Pass().know.account, granted := Pass().know.granted,
                  revoked := Pass().know.revoked, groupGrants := Pass().know.groupGrants, secret := Pass().know.secret)
      ensures GoesOn(result, err) ==>
                && (forall api | api in REQUIRED_APIS :: api in Pass().know.apis)
                && Pass().know.account == Present && Pass().know.secret == Present
                && AsSet(AccountRoles(projectReference.spec.sharedVPC)) <= Pass().know.granted
                && Pass().know.groupGrants == old(Pass().know.groupGrants) + AllGroupGrants()
      ensures GrantsNoMore(old(Pass().know))
      ensures err == NoError && (result.requeue || result.cancel) ==> result == RequeueAfter(30)
      ensures err == NoError && result.requeue ==> Pass().reply in {AlreadyExists, NotFound}
    {
      err := ConfigureAPIS(before);
      if err != NoError {
        return Requeue(), err;
      }
      result, err := ConfigureAccess(before);
    }

    /** The account, its key, and the groups. */
    method ConfigureAccess(ghost before: Shape) returns (result: OperationResult, err: Error)
      requires Prepared(before)
      modifies world
      ensures Prepared(before) && (smooth ==> GoesOn(result, err))
      ensures var know := Pass().know;
              know == old(Pass().know).(account := know.account, granted := know.granted, revoked := know.revoked,
                                        groupGrants := know.groupGrants, secret := know.secret)
      ensures GoesOn(result, err) ==>
                && Pass().know.account == Present && Pass().know.secret == Present
                && AsSet(AccountRoles(projectReference.spec.sharedVPC)) <= Pass().know.granted
                && Pass().know.groupGrants == old(Pass().know.groupGrants) + AllGroupGrants()
      ensures GrantsNoMore(old(Pass().know))
      ensures err == NoError && (result.requeue || result.cancel) ==> result == RequeueAfter(30)
      ensures err == NoError && result.requeue ==> Pass().reply in {AlreadyExists, NotFound}
    {
      result, err := ConfigureAccount(before);
      if err != NoError || result.requeue {
        return;
      }
      err := GrantAllGroups(before);
      if err != NoError {
        return Requeue(), err;
      }
      return ContinueProcessing(), NoError;
    }

    method EnsureProjectConfigured() returns (result: OperationResult, err: Error)
      requires Working() && Facts(9)
      modifies world, this
      ensures Leaves(10, result, err, old(TheShape()))
      ensures GoesOn(result, err) && projectReference.spec.ccs ==> AccessGiven()
      ensures GrantsNoMore(old(Pass().know))
      ensures GoesOn(result, err) ==>
                && AsSet(AccountRoles(projectReference.spec.sharedVPC)) <= Pass().know.granted
                && Pass().know.groupGrants == old(Pass().know.groupGrants) + AllGroupGrants()
      ensures err == NoError && (result.requeue || result.cancel) ==> result == RequeueAfter(30)
      ensures err == NoError && result.requeue ==> Pass().reply in {AlreadyExists, NotFound}
    {
      result, err := ConfigureAll(TheShape());
      if GoesOn(result, err) && projectReference.spec.ccs {
        AccessIsGiven();
      }
    }

    method EnsureStateReady() returns (result: OperationResult, err: Error)
      requires Working() && Facts(10)
      modifies world, this
      ensures Leaves(11, result, err, old(TheShape())) && !GoesOn(result, err)
      ensures err == Pass().reply && (err == NoError ==> Pass().local.status == old(projectReference.status).(state := RefReady))
    {
      ghost var was, before := TheSlot(), projectReference;
      projectReference := projectReference.(status := projectReference.status.(state := RefReady));
      err := StatusUpdate();
      StatusKeepsAttached(smooth, world.Calm(), HasGroups(config), start, was, world.sys.cloud.projects, before, projectReference, TheSlot());
      assert smooth ==> TheShape() == ShapeOf(was.claim, Some(was.refPass.local.(status := was.refPass.local.status.(
                          conditions := projectReference.status.conditions, state := RefReady))));
      return StopProcessing(), err;
    }

    /** The status write at the end of a pass: the error it met, or an earlier one marked as resolved. */
    method SetProjectReferenceCondition(reason: string, failure: Error) returns (err: Error)
      requires Attached() && reason == RECONCILE_ERROR && (smooth && failure != NoError ==> projectReference.status.conditions.Some?)
      modifies world, this`projectReference
      ensures Attached() && (Pass() == old(Pass()) || (Stores(old(Pass()), Pass()) && err == Pass().reply))
      ensures failure == NoError && old(ConditionsInMemory()) != [] ==> Stores(old(Pass()), Pass())
      ensures smooth && failure == NoError ==> TheShape() == WithFailing(old(TheShape()), false)
      ensures smooth && old(ConditionsInMemory() != []) && TheSlot().reference.Some? ==> TheSlot().reference.value.version >= start.clock
      ensures var before, after := old(ConditionsInMemory()), ConditionsInMemory();
              && (failure == NoError && before == [] ==> after == [] && err == NoError && world.sys == old(world.sys))
              && (failure != NoError || before != [] ==>
                    ReportedAs(before, after, ConditionError, reason, failure) && ReportedOnce(before, after, failure))
      ensures world.quiet && old(Fresh()) ==>
                world.sys.cloud == old(world.sys.cloud) && OnlyConditionsChanged(old(TheSlot()), old(projectReference))
    {
      if failure != NoError {
        var message: string := *;
        err := StoreReport(True, reason, message, failure);
      } else if ConditionsInMemory() != [] {
        err := StoreReport(False, reason + "Resolved", "", failure);
      } else {
        return NoError;
      }
    }

    method StoreReport(status: Truth, reason: string, message: string, ghost failure: Error) returns (err: Error)
      requires Attached() && (smooth ==> projectReference.status.conditions.Some?)
      requires if failure == NoError then status == False && reason == RECONCILE_ERROR + "Resolved" else status == True && reason == RECONCILE_ERROR
      modifies world, this`projectReference
      ensures Attached() && Stores(old(Pass()), Pass()) && err == Pass().reply
      ensures smooth && failure == NoError ==> TheShape() == WithFailing(old(TheShape()), false)
      ensures smooth && TheSlot().reference.Some? ==> TheSlot().reference.value.version >= start.clock
      ensures ReportedAs(old(ConditionsInMemory()), ConditionsInMemory(), ConditionError, RECONCILE_ERROR, failure)
      ensures ReportedOnce(old(ConditionsInMemory()), ConditionsInMemory(), failure)
      ensures world.quiet && old(Fresh()) ==>
                world.sys.cloud == old(world.sys.cloud) && OnlyConditionsChanged(old(TheSlot()), old(projectReference))
    {
      var now: Time := *;
      SetMeaning(ConditionsInMemory(), ConditionError, status, reason, message, now);
      ReportIsEvent(ConditionsInMemory(), Report(ConditionError, status, reason, message, now));
      SetCondition(ConditionError, status, reason, message, now);
      err := StatusUpdate();
    }
  }
}
