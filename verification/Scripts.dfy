/** Runs with a single claim name, put together from passes that do what the code does, call by call. */
module Scripts {
  import opened Lists
  import opened Operations
  import opened Conditions
  import opened Objects
  import opened Protocol
  import opened Invariant
  import Safety

  // Runs with a single claim name

  const NAME := NamespacedName("ns", "c")
  const NO_CLOUD := Cloud(map[], map[], map[])

  /** Some run leads to a system that has these objects and this cloud. */
  ghost predicate Occurs(s: Slot, c: Cloud) {
    Reachable(System(map[NAME := s], c))
  }

  lemma Starts(c: Cloud)
    requires c.ids == map[] && c.accountNames == map[]
    requires forall id | id in c.projects :: id != "" && c.projects[id].creator.None? && c.projects[id].taken == NOTHING_TAKEN
               && c.projects[id].given <= c.projects[id].grants
    ensures Occurs(EMPTY_SLOT, c)
  {
    var s := System(map[NAME := EMPTY_SLOT], c);
    assert LeadsTo([s], s);
  }

  lemma Turn(s: System, l: Label)
    requires Reachable(s) && Enabled(s, l)
    ensures Reachable(Apply(s, l))
  {
    var run :| LeadsTo(run, s);
    RunGrows(run, s, l);
  }

  lemma UserTurn(s: Slot, c: Cloud, u: UserAct)
    requires Occurs(s, c) && UserMay(s, u)
    ensures Occurs(UserStep(s, u), c)
  {
    Turn(System(map[NAME := s], c), ByUser(NAME, u));
    assert map[NAME := s][NAME := UserStep(s, u)] == map[NAME := UserStep(s, u)];
  }

  lemma ClaimTurn(s: Slot, c: Cloud, a: ClaimAct, o: Outcome)
    requires Occurs(s, c) && ClaimMay(NAME, s, a)
    ensures Occurs(ClaimStep(NAME, s, a, o), c)
  {
    Turn(System(map[NAME := s], c), ByClaimController(NAME, a, o));
    assert map[NAME := s][NAME := ClaimStep(NAME, s, a, o)] == map[NAME := ClaimStep(NAME, s, a, o)];
  }

  lemma ReferenceTurn(s: Slot, c: Cloud, a: ReferenceAct, o: Outcome)
    requires Occurs(s, c) && ReferenceMay(NAME, s, c, a)
    ensures Occurs(ReferenceStep(NAME, s, c, a, o), CloudStep(NAME, s, c, a, o))
  {
    Turn(System(map[NAME := s], c), ByReferenceController(NAME, a, o));
    assert map[NAME := s][NAME := ReferenceStep(NAME, s, c, a, o)] == map[NAME := ReferenceStep(NAME, s, c, a, o)];
  }

  lemma OutsiderTurn(s: Slot, c: Cloud, id: string, q: Project)
    requires Occurs(s, c) && OutsiderMay(c, id, q)
    ensures Occurs(s, c.(projects := c.projects[id := q]))
  {
    Turn(System(map[NAME := s], c), ByOutsider(id, q));
  }

  predicate Idle(s: Slot) {
    s.claimPass.ClaimIdle? && s.refPass.ReferenceIdle?
  }

  // Passes of the claim controller

  /** A pass that stores a status. */
  lemma StatusPass(s: Slot, c: Cloud, status: ClaimStatus) returns (t: Slot)
    requires Occurs(s, c) && Idle(s) && s.claim.Some?
    requires ClaimStateMay(NAME, ClaimStep(NAME, s, CStart, Ok).claimPass, status.state)
    ensures Occurs(t, c)
    ensures t == s.(clock := s.clock + 1, claim := Some(s.claim.value.(version := s.clock, status := status)))
  {
    ClaimTurn(s, c, CStart, Ok);
    t := ClaimStep(NAME, s, CStart, Ok);
    ClaimTurn(t, c, CStatus(status), Ok);
    t := ClaimStep(NAME, t, CStatus(status), Ok);
    ClaimTurn(t, c, CEnd, Ok);
    t := ClaimStep(NAME, t, CEnd, Ok);
  }

  /** The beginning of a pass that looks for the reference. */
  lemma LookingPass(s: Slot, c: Cloud) returns (t: Slot)
    requires Occurs(s, c) && Idle(s) && s.claim.Some?
    ensures Occurs(t, c) && t == s.(claimPass := t.claimPass)
    ensures t.claimPass == ClaimRunning(false, false, s.claim.value, s.reference.None?, s.reference.Some?, None, false, false,
                                        if s.reference.Some? then NoError else NotFound)
  {
    ClaimTurn(s, c, CStart, Ok);
    t := ClaimStep(NAME, s, CStart, Ok);
    ClaimTurn(t, c, CReadReference, Ok);
    t := ClaimStep(NAME, t, CReadReference, Ok);
  }

  /** The end of a pass that links the claim to its reference. */
  lemma Link(s: Slot, c: Cloud) returns (t: Slot)
    requires Occurs(s, c) && s.claimPass.ClaimRunning? && !s.claimPass.closing && s.claim == Some(s.claimPass.local)
    requires !s.claimPass.local.deleting && s.refPass.ReferenceIdle?
    ensures Occurs(t, c) && t.claim.Some? && Idle(t)
    ensures t == s.(clock := t.clock, claimPass := ClaimIdle,
                    claim := Some(s.claim.value.(version := t.claim.value.version,
                                                 spec := s.claim.value.spec.(link := ReferenceName(NAME)))))
  {
    ClaimTurn(s, c, CSetLink, Ok);
    t := ClaimUpdate(s, s.claimPass.local.(spec := s.claimPass.local.spec.(link := ReferenceName(NAME))), Ok);
    assert t == ClaimStep(NAME, s, CSetLink, Ok);
    ClaimTurn(t, c, CEnd, Ok);
    t := ClaimStep(NAME, t, CEnd, Ok);
  }

  /** A pass that makes the reference if it is missing, and links the claim to it. */
  lemma LinkingPass(s: Slot, c: Cloud) returns (t: Slot)
    requires Occurs(s, c) && Idle(s) && s.claim.Some? && !s.claim.value.deleting && ValidClaim(NAME, s.claim.value.spec)
    ensures Occurs(t, c) && t.reference.Some? && t.claim.Some?
    ensures t == s.(clock := t.clock, reference := t.reference, referenceDisturbed := t.referenceDisturbed,
                    claim := Some(s.claim.value.(version := t.claim.value.version,
                                                 spec := s.claim.value.spec.(link := ReferenceName(NAME)))))
    ensures t.reference == if s.reference.Some? then s.reference else Some(NewReference(NAME, s.claim.value.spec, s.clock))
  {
    t := LookingPass(s, c);
    if s.reference.None? {
      ClaimTurn(t, c, CCreateReference, Ok);
      t := ClaimStep(NAME, t, CCreateReference, Ok);
    }
    t := Link(t, c);
  }

  lemma FinalizerPass(s: Slot, c: Cloud) returns (t: Slot)
    requires Occurs(s, c) && Idle(s) && s.claim.Some? && !s.claim.value.deleting && s.claim.value.finalizers == []
    ensures Occurs(t, c)
    ensures t == s.(clock := s.clock + 1, claim := Some(s.claim.value.(version := s.clock, finalizers := [FINALIZER])))
  {
    t := LookingPass(s, c);
    ClaimTurn(t, c, CAddFinalizer, Ok);
    assert s.claim.value.finalizers + [FINALIZER] == [FINALIZER];
    t := ClaimStep(NAME, t, CAddFinalizer, Ok);
    ClaimTurn(t, c, CEnd, Ok);
    t := ClaimStep(NAME, t, CEnd, Ok);
  }

  /** A pass holds the customer's secret. */
  lemma Hold(s: Slot, c: Cloud) returns (t: Slot)
    requires Occurs(s, c) && s.claimPass.ClaimRunning? && !s.claimPass.closing
    requires var local := s.claimPass.local;
             && local.spec.ccs && !local.deleting && FINALIZER in local.finalizers
             && local.spec.ccsSecret in s.secrets && !s.secrets[local.spec.ccsSecret].deleting
    ensures Occurs(t, c) && t.claimPass.ClaimRunning? && t.claimPass.held
    ensures t == s.(clock := t.clock, secrets := t.secrets, claimPass := t.claimPass)
    ensures t.claimPass == s.claimPass.(secret := t.claimPass.secret, held := true, released := false, reply := NoError)
    ensures t.secrets.Keys == s.secrets.Keys
    ensures forall key | key in s.secrets && key != s.claimPass.local.spec.ccsSecret :: t.secrets[key] == s.secrets[key]
  {
    ClaimTurn(s, c, CReadSecret, Ok);
    t := ClaimStep(NAME, s, CReadSecret, Ok);
    ClaimTurn(t, c, CHoldSecret, Ok);
    t := ClaimStep(NAME, t, CHoldSecret, Ok);
  }

  /** The pass that holds a customer's secret and moves the claim to PendingProject. */
  lemma PendingPass(s: Slot, c: Cloud) returns (t: Slot)
    requires Occurs(s, c) && Idle(s) && s.claim.Some? && s.reference.Some?
    requires var claim := s.claim.value;
             && !claim.deleting && FINALIZER in claim.finalizers && claim.spec.link == ReferenceName(NAME) && claim.status.state == Pending
             && (claim.spec.ccs ==> claim.spec.ccsSecret in s.secrets && !s.secrets[claim.spec.ccsSecret].deleting)
    ensures Occurs(t, c) && t.claim.Some?
    ensures t == s.(clock := t.clock, secrets := t.secrets,
                    claim := Some(s.claim.value.(version := t.claim.value.version, status := s.claim.value.status.(state := PendingProject))))
    ensures t.secrets.Keys == s.secrets.Keys
    ensures forall key | key in s.secrets && key != s.claim.value.spec.ccsSecret :: t.secrets[key] == s.secrets[key]
  {
    t := LookingPass(s, c);
    if s.claim.value.spec.ccs {
      t := Hold(t, c);
    }
    var status := s.claim.value.status.(state := PendingProject);
    ClaimTurn(t, c, CStatus(status), Ok);
    t := ClaimStep(NAME, t, CStatus(status), Ok);
    ClaimTurn(t, c, CEnd, Ok);
    t := ClaimStep(NAME, t, CEnd, Ok);
  }

  /** A new claim gets as far as having a reference. */
  lemma Begin(s: Slot, c: Cloud, spec: ClaimSpec) returns (t: Slot)
    requires Occurs(s, c) && Idle(s) && s.claim.None? && ValidClaim(NAME, spec)
    ensures Occurs(t, c) && Idle(t) && t.reference.Some? && t.claim.Some?
    ensures t.claim.value == Object(t.claim.value.version, false, [], spec.(link := ReferenceName(NAME)), ClaimStatus(Some([]), Pending))
    ensures t.reference == if s.reference.Some? then s.reference else Some(NewReference(NAME, spec, t.reference.value.version))
    ensures t.secrets == s.secrets && t.traces == s.traces
  {
    UserTurn(s, c, CreateClaim([], spec));
    t := StatusPass(UserStep(s, CreateClaim([], spec)), c, ClaimStatus(Some([]), Unset));
    t := StatusPass(t, c, ClaimStatus(Some([]), Pending));
    t := LinkingPass(t, c);
  }

  /** And as far as waiting for its project. */
  lemma Prepare(s: Slot, c: Cloud, spec: ClaimSpec) returns (t: Slot)
    requires Occurs(s, c) && Idle(s) && s.claim.None? && ValidClaim(NAME, spec)
    requires spec.ccs ==> spec.ccsSecret in s.secrets && !s.secrets[spec.ccsSecret].deleting
    ensures Occurs(t, c) && Idle(t) && t.reference.Some? && t.claim.Some?
    ensures t.claim.value
            == Object(t.claim.value.version, false, [FINALIZER], spec.(link := ReferenceName(NAME)), ClaimStatus(Some([]), PendingProject))
    ensures t.reference == if s.reference.Some? then s.reference else Some(NewReference(NAME, spec, t.reference.value.version))
    ensures t.secrets.Keys == s.secrets.Keys && t.traces == s.traces
    ensures forall key | key in s.secrets && key != spec.ccsSecret :: t.secrets[key] == s.secrets[key]
  {
    t := Begin(s, c, spec);
    t := FinalizerPass(t, c);
    t := PendingPass(t, c);
  }

  // Passes of the reference controller

  /** A pass has read the reference, which is not being deleted, and the claim. */
  predicate AtWork(s: Slot) {
    && s.claimPass.ClaimIdle? && Building(s.refPass) && s.reference == Some(s.refPass.local) && s.refPass.claim == s.claim
    && s.refPass.project == s.refPass.local.spec.projectID && s.refPass.account == s.refPass.local.spec.accountName
  }

  predicate Buildable(s: Slot) {
    && Idle(s) && s.claim.Some? && s.claim.value.status.state == PendingProject
    && s.reference.Some? && !s.reference.value.deleting && s.reference.value.status.state != RefReady && ValidReference(s.reference.value.spec)
  }

  /** A pass reads the reference, and then the claim. */
  lemma ReadBoth(s: Slot, c: Cloud) returns (t: Slot)
    requires Occurs(s, c) && s.refPass.ReferenceIdle? && s.reference.Some? && s.claim.Some?
    ensures Occurs(t, c) && t == s.(refPass := t.refPass)
    ensures var r := s.reference.value;
            t.refPass == ReferenceRunning(false, false, r.spec.projectID, r.spec.accountName, r, s.claim, NOTHING_KNOWN, NoError)
  {
    ReferenceTurn(s, c, RStart, Ok);
    t := StartedPass(s);
    assert t == ReferenceStep(NAME, s, c, RStart, Ok) && c == CloudStep(NAME, s, c, RStart, Ok);
    t := ReadSecond(t, c);
  }

  lemma ReadSecond(s: Slot, c: Cloud) returns (t: Slot)
    requires Occurs(s, c) && s.refPass.ReferenceRunning? && !s.refPass.closing && s.refPass.claim.None? && s.claim.Some?
    ensures Occurs(t, c) && t == s.(refPass := s.refPass.(claim := s.claim, reply := NoError))
  {
    ReferenceTurn(s, c, RReadClaim, Ok);
    t := ClaimRead(s, Ok);
  }

  lemma StartPass(s: Slot, c: Cloud) returns (t: Slot)
    requires Occurs(s, c) && Buildable(s)
    ensures Occurs(t, c) && AtWork(t) && t == s.(refPass := t.refPass) && t.refPass.know == NOTHING_KNOWN
  {
    t := ReadBoth(s, c);
  }

  lemma EndPass(s: Slot, c: Cloud) returns (t: Slot)
    requires Occurs(s, c) && s.refPass.ReferenceRunning?
    ensures Occurs(t, c) && t == s.(refPass := ReferenceIdle)
  {
    ReferenceTurn(s, c, REnd, Ok);
    t := ReferenceStep(NAME, s, c, REnd, Ok);
  }

  /** A pass that stores a status on the way to Creating. */
  lemma ReferenceStatusPass(s: Slot, c: Cloud, state: ReferenceState) returns (t: Slot)
    requires Occurs(s, c) && Buildable(s) && s.reference.value.status.state == RefUnset && state in {RefUnset, RefCreating}
    ensures Occurs(t, c) && Buildable(t)
    ensures t == s.(clock := t.clock, reference := Some(s.reference.value.(version := t.reference.value.version,
                                                                          status := ReferenceStatus(Some([]), state))))
  {
    var status := ReferenceStatus(Some([]), state);
    t := StartPass(s, c);
    ReferenceTurn(t, c, RStatus(status), Ok);
    t := ReferenceStep(NAME, t, c, RStatus(status), Ok);
    t := EndPass(t, c);
  }

  /** A pass that makes a name, or adds the finalizer. */
  lemma EditingPass(s: Slot, c: Cloud, a: ReferenceAct) returns (t: Slot, d: Cloud)
    requires Occurs(s, c) && Buildable(s) && (a.RMintID? || a.RMintAccount? || a.RAddFinalizer?)
    requires ReferenceMay(NAME, s.(refPass := ReferenceRunning(false, false, s.reference.value.spec.projectID, s.reference.value.spec.accountName,
                                                               s.reference.value, s.claim, NOTHING_KNOWN, NoError)), c, a)
    ensures Occurs(t, d) && Buildable(t)
    ensures t == s.(clock := t.clock, reference := Some(Edited(s.reference.value, a).(version := t.reference.value.version)))
    ensures d == match a case RMintID(id) => c.(ids := c.ids[id := NAME])
                         case RMintAccount(account) => c.(accountNames := c.accountNames[account := NAME])
                         case _ => c
  {
    var u := StartPass(s, c);
    ReferenceTurn(u, c, a, Ok);
    Safety.EditedSlot(NAME, u, c, a, Ok);
    t, d := ReferenceUpdate(u, Edited(u.refPass.local, a), Ok), CloudStep(NAME, u, c, a, Ok);
    t := EndPass(t, d);
  }

  const ACCOUNT := ACCOUNT_NAME_DEFAULT + "-x"

  predicate NewlyMade(r: Reference) {
    !r.deleting && r.finalizers == [] && r.spec.accountName == "" && r.status.state == RefUnset
  }

  /** A new reference gets its state, its names and its finalizer. */
  lemma Establish(s: Slot, c: Cloud, id: string) returns (t: Slot, d: Cloud)
    requires Occurs(s, c) && Buildable(s) && NewlyMade(s.reference.value) && Unused(c, ACCOUNT)
    requires if s.reference.value.spec.projectID == "" then id != "" && id !in c.ids && id !in c.projects
             else id == s.reference.value.spec.projectID
    ensures Occurs(t, d) && Buildable(t) && d.projects == c.projects && d.accountNames == c.accountNames[ACCOUNT := NAME]
    ensures t == s.(clock := t.clock, reference := Some(
                    Object(t.reference.value.version, false, [FINALIZER],
                           s.reference.value.spec.(projectID := id, accountName := ACCOUNT), ReferenceStatus(Some([]), RefCreating))))
  {
    t := ReferenceStatusPass(s, c, RefUnset);
    t := ReferenceStatusPass(t, c, RefCreating);
    d := c;
    if s.reference.value.spec.projectID == "" {
      t, d := EditingPass(t, d, RMintID(id));
    }
    t, d := EditingPass(t, d, RMintAccount(ACCOUNT));
    t, d := EditingPass(t, d, RAddFinalizer);
    assert s.reference.value.finalizers + [FINALIZER] == [FINALIZER];
  }

  /** A step of a pass at work that leaves the objects alone. */
  lemma Call(s: Slot, c: Cloud, a: ReferenceAct, o: Outcome) returns (t: Slot, d: Cloud)
    requires Occurs(s, c) && OnCloud(a) && ReferenceMay(NAME, s, c, a)
    ensures Occurs(t, d) && d == CloudStep(NAME, s, c, a, o)
    ensures t == s.(refPass := s.refPass.(know := CloudKnowledge(s.refPass, c.projects, a, o), reply := CloudAnswer(s.refPass, c.projects, a, o)))
  {
    ReferenceTurn(s, c, a, o);
    t, d := ReferenceStep(NAME, s, c, a, o), CloudStep(NAME, s, c, a, o);
  }

  /** Nothing has changed but the APIs and the billing of the project. */
  predicate OnlyConfigured(s: Slot, c: Cloud, t: Slot, d: Cloud) {
    && s.refPass.ReferenceRunning? && t.refPass.ReferenceRunning? && s.refPass.project in c.projects && s.refPass.project in d.projects
    && t == s.(refPass := s.refPass.(know := s.refPass.know.(apis := t.refPass.know.apis, billing := t.refPass.know.billing),
                                     reply := t.refPass.reply))
    && var id := s.refPass.project;
       var p, q := c.projects[id], d.projects[id];
       d == c.(projects := c.projects[id := q])
       && q == p.(apis := q.apis, billing := q.billing, taken := p.taken.(apis := q.taken.apis, unlinked := q.taken.unlinked))
  }

  lemma {:induction false} EnableAll(s: Slot, c: Cloud, apis: seq<string>) returns (t: Slot, d: Cloud)
    requires Occurs(s, c) && Configuring(s.refPass) && s.refPass.project in c.projects
    requires forall api | api in apis :: api in REQUIRED_APIS || api == BILLING_API
    ensures Occurs(t, d) && Configuring(t.refPass) && OnlyConfigured(s, c, t, d)
    ensures forall api | api in apis :: api in t.refPass.know.apis
  {
    t, d := s, c;
    if apis != [] {
      t, d := EnableAll(s, c, apis[1..]);
      t, d := Call(t, d, REnableApi(apis[0]), Ok);
    }
  }

  lemma LinkBilling(s: Slot, c: Cloud, billing: string) returns (t: Slot, d: Cloud)
    requires Occurs(s, c) && Configuring(s.refPass) && s.refPass.project in c.projects && !s.refPass.local.spec.ccs
    ensures Occurs(t, d) && Configuring(t.refPass) && OnlyConfigured(s, c, t, d)
  {
    t, d := Call(s, c, RReadBilling, Ok);
    t, d := Call(t, d, RSetBilling(billing), Ok);
  }

  lemma OneAfterTheOther(s: Slot, c: Cloud, t: Slot, d: Cloud, u: Slot, e: Cloud)
    requires OnlyConfigured(s, c, t, d) && OnlyConfigured(t, d, u, e)
    ensures OnlyConfigured(s, c, u, e)
  {
  }

  lemma ListApis(s: Slot, c: Cloud) returns (t: Slot, d: Cloud)
    requires Occurs(s, c) && Configuring(s.refPass) && s.refPass.project in c.projects
    ensures Occurs(t, d) && Configuring(t.refPass) && OnlyConfigured(s, c, t, d)
  {
    t, d := Call(s, c, RListApis, Ok);
  }

  lemma ConfigureBilling(s: Slot, c: Cloud) returns (t: Slot, d: Cloud)
    requires Occurs(s, c) && Configuring(s.refPass) && s.refPass.project in c.projects && !s.refPass.local.spec.ccs
    ensures Occurs(t, d) && Configuring(t.refPass) && OnlyConfigured(s, c, t, d)
  {
    var u, e := ListApis(s, c);
    var v, f := EnableAll(u, e, [BILLING_API]);
    OneAfterTheOther(s, c, u, e, v, f);
    t, d := LinkBilling(v, f, "billingAccounts/b");
    OneAfterTheOther(s, c, v, f, t, d);
  }

  /** A pass links the project to the billing account if it is the operator's own, and enables the APIs. */
  lemma Configure(s: Slot, c: Cloud) returns (t: Slot, d: Cloud)
    requires Occurs(s, c) && Configuring(s.refPass) && s.refPass.project in c.projects
    ensures Occurs(t, d) && Configuring(t.refPass) && OnlyConfigured(s, c, t, d)
    ensures forall api | api in REQUIRED_APIS :: api in t.refPass.know.apis
  {
    var u, e := s, c;
    if !s.refPass.local.spec.ccs {
      u, e := ConfigureBilling(s, c);
    }
    var v, f := ListApis(u, e);
    OneAfterTheOther(s, c, u, e, v, f);
    t, d := EnableAll(v, f, REQUIRED_APIS);
    OneAfterTheOther(s, c, v, f, t, d);
  }

  /** A pass makes the account, */
  lemma MakeAccount(s: Slot, c: Cloud) returns (t: Slot, d: Cloud)
    requires Occurs(s, c) && Configuring(s.refPass) && s.refPass.project in c.projects
    requires s.refPass.account !in c.projects[s.refPass.project].accounts
    ensures Occurs(t, d) && Configuring(t.refPass)
    ensures t == s.(refPass := s.refPass.(know := s.refPass.know.(account := Present), reply := NoError))
    ensures s.refPass.project in d.projects
    ensures var p, q := c.projects[s.refPass.project], d.projects[s.refPass.project];
            q.state == p.state && q.accounts == p.accounts + {s.refPass.account} && q.grants == p.grants
  {
    t, d := Call(s, c, RReadAccount, Ok);
    t, d := Call(t, d, RCreateAccount, Ok);
  }

  /** and gives it roles. */
  lemma GiveRoles(s: Slot, c: Cloud) returns (t: Slot, d: Cloud)
    requires Occurs(s, c) && Configuring(s.refPass) && s.refPass.project in c.projects && s.refPass.know.account == Present
    ensures Occurs(t, d) && Configuring(t.refPass)
    ensures t == s.(refPass := s.refPass.(know := t.refPass.know, reply := NoError))
    ensures t.refPass.know == s.refPass.know.(granted := s.refPass.know.granted + AsSet(AccountRoles(s.refPass.local.spec.sharedVPC)))
    ensures s.refPass.project in d.projects
    ensures var p, q := c.projects[s.refPass.project], d.projects[s.refPass.project];
            q.state == p.state && q.accounts == p.accounts && q.grants == p.grants + GrantsOf(AsSet(AccountRoles(s.refPass.local.spec.sharedVPC)), ServiceAccount(s.refPass.account))
  {
    t, d := Call(s, c, RGrant(ServiceAccount(s.refPass.account), AsSet(AccountRoles(s.refPass.local.spec.sharedVPC))), Ok);
  }

  /** All but the credential secret was seen in the pass. */
  predicate SeenSetUp(p: ReferencePass)
    requires p.ReferenceRunning?
  {
    && (forall api | api in REQUIRED_APIS :: api in p.know.apis) && p.know.account == Present
    && (forall role | role in AccountRoles(p.local.spec.sharedVPC) :: role in p.know.granted)
  }

  /** All that a pass does before it comes to the credential secret. */
  lemma SetUp(s: Slot, c: Cloud) returns (t: Slot, d: Cloud)
    requires Occurs(s, c) && Configuring(s.refPass) && s.refPass.project in c.projects
    requires s.refPass.account !in c.projects[s.refPass.project].accounts
    ensures Occurs(t, d) && Configuring(t.refPass) && t.refPass.project in d.projects
    ensures t == s.(refPass := s.refPass.(know := t.refPass.know, reply := t.refPass.reply))
    ensures t.refPass.know.secret == s.refPass.know.secret && SeenSetUp(t.refPass)
    ensures var p, q := c.projects[s.refPass.project], d.projects[s.refPass.project];
            && q.state == p.state && q.accounts == p.accounts + {s.refPass.account}
            && q.grants == p.grants + GrantsOf(AsSet(AccountRoles(s.refPass.local.spec.sharedVPC)), ServiceAccount(s.refPass.account))
  {
    t, d := Configure(s, c);
    t, d := SetUpAccount(t, d);
  }

  lemma SetUpAccount(s: Slot, c: Cloud) returns (t: Slot, d: Cloud)
    requires Occurs(s, c) && Configuring(s.refPass) && s.refPass.project in c.projects
    requires s.refPass.account !in c.projects[s.refPass.project].accounts
    ensures Occurs(t, d) && Configuring(t.refPass) && t.refPass.project in d.projects
    ensures t == s.(refPass := s.refPass.(know := t.refPass.know, reply := t.refPass.reply))
    ensures t.refPass.know == s.refPass.know.(account := Present,
              granted := s.refPass.know.granted + AsSet(AccountRoles(s.refPass.local.spec.sharedVPC)))
    ensures var p, q := c.projects[s.refPass.project], d.projects[s.refPass.project];
            && q.state == p.state && q.accounts == p.accounts + {s.refPass.account}
            && q.grants == p.grants + GrantsOf(AsSet(AccountRoles(s.refPass.local.spec.sharedVPC)), ServiceAccount(s.refPass.account))
  {
    t, d := MakeAccount(s, c);
    assert t.refPass.know == s.refPass.know.(account := Present);
    t, d := GiveRoles(t, d);
  }

  /** The pass finds no secret, and looks at the account once more. */
  lemma MissSecret(s: Slot, c: Cloud) returns (t: Slot)
    requires Occurs(s, c) && Configuring(s.refPass) && s.refPass.claim.value.spec.credentialSecret !in s.secrets
    ensures Occurs(t, c) && Configuring(t.refPass)
    ensures t == s.(traces := t.traces, refPass := s.refPass.(know := t.refPass.know, reply := t.refPass.reply))
    ensures t.refPass.know == s.refPass.know.(secret := Absent, account := t.refPass.know.account)
    ensures s.refPass.project in c.projects && s.refPass.account in c.projects[s.refPass.project].accounts ==> t.refPass.know.account == Present
  {
    ReferenceTurn(s, c, RReadSecret, Ok);
    t := SecretRead(s, Ok);
    var d;
    t, d := Call(t, c, RReadAccount, Ok);
  }

  /** The pass makes the credential secret. */
  lemma MakeSecret(s: Slot, c: Cloud) returns (t: Slot)
    requires Occurs(s, c) && Configuring(s.refPass) && s.claim.Some? && s.refPass.claim.value.spec.credentialSecret !in s.secrets
    ensures Occurs(t, c) && t.refPass.ReferenceRunning? && LeftBehind(t.secrets, s.refPass.claim.value.spec.credentialSecret)
    ensures t == s.(clock := t.clock, secrets := t.secrets, traces := t.traces, refPass := t.refPass)
    ensures t.refPass == s.refPass.(know := t.refPass.know, reply := t.refPass.reply)
    ensures s.refPass.project in c.projects && s.refPass.account in c.projects[s.refPass.project].accounts && SeenSetUp(s.refPass) ==>
              SeenSetUp(t.refPass) && t.refPass.know.secret == Present
  {
    t := MissSecret(s, c);
    ReferenceTurn(t, c, RCreateSecret, Ok);
    t := SecretCreation(t, Ok);
  }

  /** A pass whose creating call reported failure clears the project ID. */
  lemma ClearID(s: Slot, c: Cloud) returns (t: Slot, d: Cloud)
    requires Occurs(s, c) && AtWork(s) && s.refPass.know.createFailed
    ensures Occurs(t, d) && t.reference.Some? && t.reference.value.spec.projectID == ""
    ensures d.projects.Keys == c.projects.Keys
    ensures forall id | id in c.projects :: d.projects[id] == c.projects[id].(abandoned := d.projects[id].abandoned)
  {
    ReferenceTurn(s, c, RClearID, Ok);
    Safety.EditedSlot(NAME, s, c, RClearID, Ok);
    t, d := ReferenceUpdate(s, Edited(s.refPass.local, RClearID), Ok), CloudStep(NAME, s, c, RClearID, Ok);
  }

  /** A pass that has seen a customer's project set up makes the reference Ready. */
  lemma BecomeReady(s: Slot, c: Cloud) returns (t: Slot)
    requires Occurs(s, c) && s.refPass.ReferenceRunning? && Configured(s.refPass) && s.reference == Some(s.refPass.local)
    ensures Occurs(t, c) && t == s.(clock := t.clock, refPass := ReferenceIdle, reference := t.reference)
    ensures var r := s.reference.value;
            t.reference == Some(r.(version := s.clock, status := r.status.(state := RefReady)))
  {
    var status := s.refPass.local.status.(state := RefReady);
    ReferenceTurn(s, c, RStatus(status), Ok);
    t := ReferenceStatusUpdate(s, s.refPass.local.(status := status), Ok);
    t := EndPass(t, c);
  }

  /** A pass that stores zones in the claim, and nothing in the reference. */
  lemma StoreZones(s: Slot, c: Cloud, zones: seq<string>) returns (t: Slot)
    requires Occurs(s, c) && Publishing(s.refPass) && s.refPass.claim == s.claim
    requires s.claim.value.spec.zones == [] && !s.claim.value.deleting
    ensures Occurs(t, c) && t.refPass.ReferenceRunning?
    ensures var claim := Some(s.claim.value.(version := s.clock, spec := s.claim.value.spec.(zones := zones)));
            t == s.(clock := t.clock, claim := claim, refPass := s.refPass.(claim := claim, reply := NoError))
  {
    ReferenceTurn(s, c, RSetZones(zones), Ok);
    t := ReferenceStoreStep(NAME, s, c, RSetZones(zones), Ok);
  }

  lemma FailToReport(s: Slot, c: Cloud, status: ReferenceStatus) returns (t: Slot)
    requires Occurs(s, c) && s.refPass.ReferenceRunning? && status.state == s.refPass.local.status.state
    ensures Occurs(t, c) && t == s.(refPass := s.refPass.(closing := true, reply := Failed))
  {
    ReferenceTurn(s, c, RStatus(status), Fail);
    t := ReferenceStatusUpdate(s, s.refPass.local.(status := status), Fail);
  }

  // Deletion

  /** The user deletes the claim, and the claim controller deletes its reference. */
  lemma Mark(s: Slot, c: Cloud) returns (t: Slot)
    requires Occurs(s, c) && Idle(s) && s.claim.Some? && s.reference.Some?
    requires s.claim.value.finalizers == s.reference.value.finalizers == [FINALIZER] && !s.claim.value.deleting && !s.reference.value.deleting
    ensures Occurs(t, c) && t.claim.Some? && t.reference.Some?
    ensures t == s.(clock := t.clock, claim := Some(s.claim.value.(version := t.claim.value.version, deleting := true)),
                    reference := Some(s.reference.value.(version := t.reference.value.version, deleting := true)))
  {
    UserTurn(s, c, DeleteClaim);
    t := LookingPass(UserStep(s, DeleteClaim), c);
    ClaimTurn(t, c, CDeleteReference, Ok);
    t := ReferenceDeletion(t, Ok);
    ClaimTurn(t, c, CEnd, Ok);
    t := ClaimStep(NAME, t, CEnd, Ok);
  }

  /** A pass over a reference that is being deleted, with its claim read. */
  lemma StartCleaning(s: Slot, c: Cloud) returns (t: Slot)
    requires Occurs(s, c) && Idle(s) && s.claim.Some? && s.reference.Some? && s.reference.value.deleting
    ensures Occurs(t, c) && CleaningUp(t.refPass) && t == s.(refPass := t.refPass)
    ensures var r := s.reference.value;
            t.refPass == ReferenceRunning(false, false, r.spec.projectID, r.spec.accountName, r, s.claim, NOTHING_KNOWN, NoError)
  {
    t := ReadBoth(s, c);
  }

  /** The reference loses its finalizer and is gone. */
  lemma FinishCleaning(s: Slot, c: Cloud) returns (t: Slot)
    requires Occurs(s, c) && CleaningUp(s.refPass) && CleanedUp(s.refPass) && s.reference == Some(s.refPass.local)
    requires s.refPass.local.finalizers == [FINALIZER] && s.refPass.project == s.refPass.local.spec.projectID
    ensures Occurs(t, c) && t.reference.None? && t.refPass.ReferenceIdle?
    ensures t == s.(clock := t.clock, reference := None, published := t.published, refPass := ReferenceIdle)
  {
    ReferenceTurn(s, c, RDropFinalizer, Ok);
    Safety.EditedSlot(NAME, s, c, RDropFinalizer, Ok);
    assert Filtered([FINALIZER], FINALIZER) == [];
    t := ReferenceUpdate(s, Edited(s.refPass.local, RDropFinalizer), Ok);
    t := EndPass(t, c);
  }

  /** With the reference gone, the claim goes. */
  lemma ClaimGoes(s: Slot, c: Cloud) returns (t: Slot)
    requires Occurs(s, c) && Idle(s) && s.reference.None? && s.claim.Some? && s.claim.value.deleting
    requires s.claim.value.finalizers == [FINALIZER] && !s.claim.value.spec.ccs
    ensures Occurs(t, c) && t == s.(clock := t.clock, claim := None)
  {
    t := LookingPass(s, c);
    ClaimTurn(t, c, CDropFinalizer, Ok);
    assert Filtered([FINALIZER], FINALIZER) == [];
    t := ClaimUpdate(t, t.claimPass.local.(finalizers := []), Ok);
    ClaimTurn(t, c, CEnd, Ok);
    t := ClaimStep(NAME, t, CEnd, Ok);
  }

  /** Clean-up takes down the account, */
  lemma RemoveAccount(s: Slot, c: Cloud) returns (t: Slot, d: Cloud)
    requires Occurs(s, c) && CleaningUp(s.refPass) && s.refPass.project in c.projects
    requires s.refPass.account in c.projects[s.refPass.project].accounts
    ensures Occurs(t, d) && CleaningUp(t.refPass) && t == s.(refPass := t.refPass)
    ensures t.refPass == s.refPass.(know := s.refPass.know.(account := Absent, revoked := true), reply := NoError)
    ensures s.refPass.project in d.projects && d.projects[s.refPass.project].state == c.projects[s.refPass.project].state
  {
    t, d := Call(s, c, RReadAccount, Ok);
    t, d := RevokeAndDelete(t, d);
  }

  lemma RevokeAndDelete(s: Slot, c: Cloud) returns (t: Slot, d: Cloud)
    requires Occurs(s, c) && CleaningUp(s.refPass) && s.refPass.project in c.projects && s.refPass.know.account == Present
    ensures Occurs(t, d) && CleaningUp(t.refPass) && t == s.(refPass := t.refPass)
    ensures t.refPass == s.refPass.(know := s.refPass.know.(account := Absent, revoked := true), reply := NoError)
    ensures s.refPass.project in d.projects && d.projects[s.refPass.project].state == c.projects[s.refPass.project].state
  {
    t, d := Call(s, c, RRevoke(ServiceAccount(s.refPass.account)), Ok);
    t, d := Call(t, d, RDeleteAccount, Ok);
  }

  /** and the project. */
  lemma RemoveProject(s: Slot, c: Cloud) returns (t: Slot, d: Cloud)
    requires Occurs(s, c) && CleaningUp(s.refPass) && !s.refPass.local.spec.ccs && !s.refPass.know.createFailed
    requires s.refPass.project in c.projects && c.projects[s.refPass.project].state == Active
    ensures Occurs(t, d) && CleaningUp(t.refPass) && t == s.(refPass := t.refPass)
    ensures t.refPass == s.refPass.(know := s.refPass.know.(listed := Found(DeleteRequested)), reply := NoError)
  {
    t, d := Call(s, c, RList, Ok);
    t, d := Call(t, d, RDeleteProject, Ok);
  }

  /** A clean-up that finds neither the account nor the secret. */
  lemma NothingToClean(s: Slot, c: Cloud) returns (t: Slot)
    requires Occurs(s, c) && CleaningUp(s.refPass) && s.refPass.know == NOTHING_KNOWN && s.refPass.local.spec.ccs
    requires s.refPass.claim.value.spec.credentialSecret !in s.secrets
    requires s.refPass.project in c.projects && s.refPass.account !in c.projects[s.refPass.project].accounts
    ensures Occurs(t, c) && CleaningUp(t.refPass) && CleanedUp(t.refPass)
    ensures t == s.(refPass := s.refPass.(know := t.refPass.know, reply := t.refPass.reply), traces := t.traces)
  {
    var d;
    t, d := Call(s, c, RReadAccount, Ok);
    ReferenceTurn(t, d, RReadSecret, Ok);
    t := SecretRead(t, Ok);
  }
}
