/** Where the code does not keep what one would like it to keep: runs that show it. `Theorems` says exactly when it happens. */
module Gaps {
  import opened Objects
  import opened Protocol
  import opened Invariant
  import opened Scripts
  import Theorems
  import ReferenceAdapters

  // A project whose creation reported a failure

  const SPEC := ClaimSpec(NamespacedName("ns", "creds"), "r", "", NamespacedName("", ""), [], false, NamespacedName("", ""), "", false)
  const ID := "o-1"

  /** A reference in a cloud without projects, about to make its project. */
  lemma ReadyToCreate() returns (s: Slot, c: Cloud)
    ensures Occurs(s, c) && AtWork(s) && c.projects == map[] && s.refPass.know == NOTHING_KNOWN && s.refPass.project == ID
    ensures !s.refPass.local.spec.ccs && s.refPass.local.finalizers == [FINALIZER] && s.refPass.account == ACCOUNT
    ensures s.claim.Some? && s.claim.value.spec.credentialSecret == SPEC.credentialSecret && !s.claim.value.deleting && !s.claim.value.spec.ccs
    ensures s.claim.value.finalizers == [FINALIZER] && s.secrets == map[] && c.accountNames == map[ACCOUNT := NAME]
  {
    Starts(NO_CLOUD);
    s := Prepare(EMPTY_SLOT, NO_CLOUD, SPEC);
    assert s.secrets == map[];
    s, c := Establish(s, NO_CLOUD, ID);
    s := StartPass(s, c);
  }

  /** The answer to the creating call is lost, and the ID is cleared: the project is there, active, and no reference names it. */
  lemma LostCreationOrphans()
    ensures exists s, c :: Occurs(s, c) && s.reference.Some? && s.reference.value.spec.projectID == ""
                           && ID in c.projects && c.projects[ID].state == Active && c.projects[ID].creator == Some(NAME)
  {
    var s, c := ReadyToCreate();
    s, c := Call(s, c, RList, Ok);
    s, c := Call(s, c, RCreateProject, Lost);
    assert ID in c.projects && c.projects[ID] == NewProject(NAME);
    s, c := ClearID(s, c);
  }

  // A secret that could not be read

  /** The project is there, in a pass that goes on. */
  lemma WithProject() returns (s: Slot, c: Cloud)
    ensures Occurs(s, c) && AtWork(s) && s.refPass.project == ID && s.refPass.account == ACCOUNT && Configuring(s.refPass)
    ensures !s.refPass.local.spec.ccs && s.refPass.local.finalizers == [FINALIZER]
    ensures s.claim.Some? && s.claim.value.spec.credentialSecret == SPEC.credentialSecret && !s.claim.value.deleting
    ensures s.claim.value.finalizers == [FINALIZER] && s.secrets == map[] && !s.claim.value.spec.ccs
    ensures c.projects == map[ID := NewProject(NAME)]
  {
    s, c := ReadyToCreate();
    s, c := Call(s, c, RList, Ok);
    s, c := Call(s, c, RCreateProject, Ok);
    assert c.projects == map[ID := NewProject(NAME)];
  }

  /** The pass makes the credential secret, and crashes before the rest. */
  lemma HalfBuilt() returns (s: Slot, c: Cloud)
    ensures Occurs(s, c) && Idle(s) && s.claim.Some? && s.reference.Some?
    ensures s.claim.value.finalizers == [FINALIZER] && !s.claim.value.deleting && s.claim.value.spec.credentialSecret == SPEC.credentialSecret
    ensures !s.claim.value.spec.ccs
    ensures s.reference.value.finalizers == [FINALIZER] && !s.reference.value.deleting && !s.reference.value.spec.ccs
    ensures s.reference.value.spec.projectID == ID && s.reference.value.spec.accountName == ACCOUNT
    ensures LeftBehind(s.secrets, SPEC.credentialSecret)
    ensures ID in c.projects && c.projects[ID].state == Active && ACCOUNT in c.projects[ID].accounts
  {
    s, c := WithProject();
    s, c := SetUp(s, c);
    s := MakeSecret(s, c);
    s := EndPass(s, c);
  }

  lemma Demolished() returns (s: Slot, c: Cloud)
    ensures Occurs(s, c) && CleaningUp(s.refPass) && s.reference == Some(s.refPass.local) && s.claimPass.ClaimIdle?
    ensures s.refPass.know.account == Absent && s.refPass.know.listed == Found(DeleteRequested) && !s.refPass.know.createFailed
    ensures s.refPass.claim == s.claim && s.claim.value.spec.credentialSecret == SPEC.credentialSecret && !s.claim.value.spec.ccs
    ensures s.claim.value.finalizers == [FINALIZER] && s.claim.value.deleting
    ensures s.refPass.local.finalizers == [FINALIZER] && s.refPass.project == s.refPass.local.spec.projectID
    ensures LeftBehind(s.secrets, SPEC.credentialSecret)
  {
    s, c := HalfBuilt();
    s := Mark(s, c);
    s := StartCleaning(s, c);
    s, c := RemoveAccount(s, c);
    s, c := RemoveProject(s, c);
  }

  /** Reading the credential secret fails once, during clean-up: reference and claim go, and the secret stays. */
  lemma FailedReadLeavesSecret()
    ensures exists s, c :: Occurs(s, c) && s.claim.None? && s.reference.None? && LeftBehind(s.secrets, SPEC.credentialSecret)
  {
    var s, c := Demolished();
    ReferenceTurn(s, c, RReadSecret, Fail);
    s := SecretRead(s, Fail);
    s := FinishCleaning(s, c);
    s := ClaimGoes(s, c);
  }

  // Credentials of a reference left behind by an earlier claim

  const OLD_SECRET := NamespacedName("ns", "old")
  const NEW_SECRET := NamespacedName("ns", "new")

  /** A claim for a customer's project `p`. */
  function Customer(secret: NamespacedName): ClaimSpec {
    SPEC.(ccs := true, ccsSecret := secret, ccsProjectID := "p")
  }

  /** A claim that does not hold its finalizer yet disappears when it is deleted, and its reference stays. */
  lemma LeftBehindReference() returns (s: Slot)
    ensures Occurs(s, NO_CLOUD) && Idle(s) && s.claim.None? && s.secrets.Keys == {OLD_SECRET, NEW_SECRET}
    ensures s.reference.Some? && s.reference.value == NewReference(NAME, Customer(OLD_SECRET), s.reference.value.version)
    ensures s.secrets[OLD_SECRET].finalizers == [] && !s.secrets[OLD_SECRET].deleting && !s.secrets[NEW_SECRET].deleting
    ensures s.traces.forged == {}
  {
    Starts(NO_CLOUD);
    UserTurn(EMPTY_SLOT, NO_CLOUD, CreateSecret(OLD_SECRET, []));
    s := UserStep(EMPTY_SLOT, CreateSecret(OLD_SECRET, []));
    UserTurn(s, NO_CLOUD, CreateSecret(NEW_SECRET, []));
    s := UserStep(s, CreateSecret(NEW_SECRET, []));
    s := Begin(s, NO_CLOUD, Customer(OLD_SECRET));
    UserTurn(s, NO_CLOUD, DeleteClaim);
    s := UserStep(s, DeleteClaim);
  }

  /** A claim of the same name with another secret adopts the reference. The secret that the reference reads its credentials from
      is then not held, and goes at once when its user deletes it, while the reference still needs it for its clean-up. */
  lemma StaleReferenceLosesCredentials()
    ensures exists s, c :: Occurs(s, c) && HoldsFinalizer(s.reference) && s.reference.value.spec.ccs && Theorems.Mismatched(s)
                           && s.reference.value.spec.ccsSecret !in s.secrets && s.traces.forged == {}
  {
    var s := LeftBehindReference();
    s := Prepare(s, NO_CLOUD, Customer(NEW_SECRET));
    var c;
    s, c := Establish(s, NO_CLOUD, "p");
    UserTurn(s, c, DeleteSecret(OLD_SECRET));
    s := UserStep(s, DeleteSecret(OLD_SECRET));
  }

  // Grants of an account that others took away

  const PROJECT := Project(Active, None, false, "", {}, {}, {}, NOTHING_TAKEN, {})
  const ROLE := AccountRoles(false)[0]

  /** A customer's reference, about to configure its project. */
  lemma ReadyToConfigure() returns (s: Slot, c: Cloud)
    ensures Occurs(s, c) && AtWork(s) && s.refPass.know == NOTHING_KNOWN && s.refPass.project == "p" && s.refPass.account == ACCOUNT
    ensures s.claim.Some? && s.claim.value.finalizers == s.refPass.local.finalizers == [FINALIZER] && !s.claim.value.deleting
    ensures s.claim.value.spec.credentialSecret == SPEC.credentialSecret && s.refPass.local.spec.ccs && s.secrets.Keys == {OLD_SECRET}
    ensures c.projects == map["p" := PROJECT] && s.claim.value.spec.zones == []
  {
    c := NO_CLOUD.(projects := map["p" := PROJECT]);
    Starts(c);
    UserTurn(EMPTY_SLOT, c, CreateSecret(OLD_SECRET, []));
    s := Prepare(UserStep(EMPTY_SLOT, CreateSecret(OLD_SECRET, [])), c, Customer(OLD_SECRET));
    s, c := Establish(s, c, "p");
    s := StartPass(s, c);
  }

  /** A customer's project, with the operator's account in it and a role granted to that account. */
  lemma WithGrant() returns (s: Slot, c: Cloud)
    ensures Occurs(s, c) && Idle(s) && s.claim.Some? && s.reference.Some? && s.secrets.Keys == {OLD_SECRET}
    ensures s.claim.value.finalizers == s.reference.value.finalizers == [FINALIZER] && !s.claim.value.deleting && !s.reference.value.deleting
    ensures s.claim.value.spec.credentialSecret == SPEC.credentialSecret && s.reference.value.spec.ccs
    ensures s.reference.value.spec.projectID == "p" && s.reference.value.spec.accountName == ACCOUNT
    ensures "p" in c.projects && c.projects["p"].accounts == {ACCOUNT} && (ROLE, ServiceAccount(ACCOUNT)) in c.projects["p"].grants
  {
    s, c := ReadyToConfigure();
    s, c := SetUp(s, c);
    s := EndPass(s, c);
  }

  /** Somebody deletes the service account: clean-up finds it missing and leaves what it was granted. */
  lemma TakenAccountLeavesGrants()
    ensures exists s, c :: Occurs(s, c) && s.reference.None? && s.claim.Some? && s.claim.value.deleting
                           && "p" in c.projects && (ROLE, ServiceAccount(ACCOUNT)) in c.projects["p"].grants
  {
    var s, c := WithGrant();
    var p := c.projects["p"];
    var q := p.(accounts := {});
    OutsiderTurn(s, c, "p", q.(taken := TakenAfter(p, q)));
    c := c.(projects := c.projects["p" := q.(taken := TakenAfter(p, q))]);
    s := Mark(s, c);
    s := StartCleaning(s, c);
    s := NothingToClean(s, c);
    s := FinishCleaning(s, c);
  }

  // A pass that stores zones

  /** A customer's reference that is Ready, for a claim without zones. */
  lemma WithoutZones() returns (s: Slot, c: Cloud)
    ensures Occurs(s, c) && s.refPass.ReferenceIdle? && s.claim.Some? && s.reference.Some? && !s.claim.value.deleting
    ensures s.claim.value.status.state == PendingProject && s.claim.value.spec.zones == []
    ensures var r := s.reference.value; !r.deleting && r.status.state == RefReady && ValidReference(r.spec)
  {
    s, c := ReadyToConfigure();
    s, c := SetUp(s, c);
    s := MakeSecret(s, c);
    s := BecomeReady(s, c);
  }

  /** The zones are stored, and the write at the end of the pass fails. The pass ends without an error and without a delay, and the reference
      is what it was: nothing makes the controller run again, though the claim is not Ready. */
  lemma ZonesPassForgets()
    ensures exists s, c :: Occurs(s, c) && ReferenceAdapters.Forgotten(s.refPass) && s.reference == Some(s.refPass.local)
                           && s.claim.Some? && s.claim.value.status.state == PendingProject && s.claim.value.spec.zones == ["z"]
  {
    var s, c := WithoutZones();
    s := ReadBoth(s, c);
    s := StoreZones(s, c, ["z"]);
    s := FailToReport(s, c, s.refPass.local.status);
  }

  // Reference names

  /** Two claims get the same reference name exactly when they are the same claim, or when the longer namespace continues
      the shorter one after a dash with what the other claim's name starts with. */
  lemma ReferenceNamesCollide(a: NamespacedName, b: NamespacedName)
    requires |a.namespace| <= |b.namespace|
    ensures ReferenceName(a) == ReferenceName(b) <==>
              a == b || exists middle ::
                          b.namespace == a.namespace + "-" + middle && a.name == middle + "-" + b.name
  {
    var x, y := a.namespace + "-" + a.name, b.namespace + "-" + b.name;
    var k := |a.namespace|;
    if x == y {
      assert a.namespace == x[..k] == y[..k] == b.namespace[..k];
      if |b.namespace| == k {
        assert a.name == x[k + 1..] == y[k + 1..] == b.name;
      } else {
        var middle := b.namespace[k + 1..];
        assert b.namespace[k] == y[k] == x[k] == '-';
        assert b.namespace == a.namespace + "-" + middle;
        assert a.name == x[k + 1..] == y[k + 1..] == middle + "-" + b.name;
      }
    }
    if middle :| b.namespace == a.namespace + "-" + middle && a.name == middle + "-" + b.name {
      assert x == a.namespace + "-" + (middle + "-" + b.name) == y;
    }
  }

  lemma DashesCollide()
    ensures NamespacedName("a-b", "c") != NamespacedName("a", "b-c")
    ensures ReferenceName(NamespacedName("a-b", "c")) == ReferenceName(NamespacedName("a", "b-c"))
  {
    assert "a-b" + "-" + "c" == "a" + "-" + "b-c";
  }
}
