/** What the protocol promises: statements about every state of every run, and about every step out of such a state. */
module Theorems {
  import opened Lists
  import opened Operations
  import opened Objects
  import opened Protocol
  import opened Invariant
  import CloudSteps
  import Safety

  /** Projects remember only claim names that the system knows. */
  predicate CreatorsKnown(s: System) {
    forall id | id in s.cloud.projects && s.cloud.projects[id].creator.Some? :: s.cloud.projects[id].creator.value in s.slots
  }

  lemma CallKeepsCreatorsKnown(n: NamespacedName, s: System, a: ReferenceAct, o: Outcome)
    requires n in s.slots && CreatorsKnown(s) && ReferenceMay(n, s.slots[n], s.cloud, a)
    ensures CreatorsKnown(s.(cloud := CloudStep(n, s.slots[n], s.cloud, a, o)))
  {
  }

  lemma StepKeepsCreatorsKnown(s: System, l: Label)
    requires Enabled(s, l) && CreatorsKnown(s)
    ensures CreatorsKnown(Apply(s, l)) && Apply(s, l).slots.Keys == s.slots.Keys
  {
    if l.ByReferenceController? {
      CallKeepsCreatorsKnown(l.name, s, l.refAct, l.o);
    }
  }

  lemma {:induction false} RunKeepsCreatorsKnown(run: seq<System>, i: nat)
    requires IsRun(run) && Init(run[0]) && i < |run|
    ensures CreatorsKnown(run[i])
  {
    if i > 0 {
      RunKeepsCreatorsKnown(run, i - 1);
      assert StepAt(run, i - 1);
      var l :| Enabled(run[i - 1], l) && run[i] == Apply(run[i - 1], l);
      StepKeepsCreatorsKnown(run[i - 1], l);
    }
  }

  lemma StepKeepsNames(s: System, l: Label)
    requires Enabled(s, l) && "" !in s.cloud.projects
    ensures "" !in Apply(s, l).cloud.projects
  {
    if l.ByReferenceController? {
      CallKeepsNames(l.name, s.slots[l.name], s.cloud, l.refAct, l.o);
    }
  }

  lemma CallKeepsNames(n: NamespacedName, s: Slot, c: Cloud, a: ReferenceAct, o: Outcome)
    requires ReferenceMay(n, s, c, a) && "" !in c.projects
    ensures "" !in CloudStep(n, s, c, a, o).projects
  {
  }

  lemma {:induction false} NoEmptyName(run: seq<System>, i: nat)
    requires IsRun(run) && Init(run[0]) && i < |run|
    ensures "" !in run[i].cloud.projects
  {
    if i > 0 {
      NoEmptyName(run, i - 1);
      assert StepAt(run, i - 1);
      var l :| Enabled(run[i - 1], l) && run[i] == Apply(run[i - 1], l);
      StepKeepsNames(run[i - 1], l);
    }
  }

  // Projects and the references that made them

  /** The step that gives up a project: the reference's ID is cleared, and the store takes the update. */
  predicate Clears(s: System, l: Label, n: NamespacedName) {
    && l.ByReferenceController? && l.name == n && l.refAct.RClearID? && !l.o.Fail?
    && n in s.slots && s.slots[n].refPass.ReferenceRunning? && Accepted(s.slots[n].reference, Edited(s.slots[n].refPass.local, RClearID))
  }

  /** The step gives up the name of a project that exists. */
  ghost predicate GivesUp(s: System, t: System, n: NamespacedName, id: string) {
    exists l :: Enabled(s, l) && t == Apply(s, l) && Clears(s, l, n) && id in s.cloud.projects && s.slots[n].refPass.project == id
  }

  ghost predicate ClearedAt(run: seq<System>, i: nat, n: NamespacedName, id: string)
    requires i < |run| - 1
  {
    GivesUp(run[i], run[i + 1], n, id)
  }

  ghost predicate Cleared(run: seq<System>, upTo: nat, n: NamespacedName, id: string)
    requires upTo < |run|
  {
    exists i :: 0 <= i < upTo && ClearedAt(run, i, n, id)
  }

  /** What one call does to the history of a project. */
  lemma CallKeepsHistory(n: NamespacedName, s: Slot, c: Cloud, a: ReferenceAct, o: Outcome, id: string)
    requires ReferenceMay(n, s, c, a) && "" !in c.projects
    ensures var d := CloudStep(n, s, c, a, o).projects;
            && (id in c.projects ==> id in d && d[id].creator == c.projects[id].creator)
            && (id in c.projects ==>
                  (d[id].abandoned <==>
                     || c.projects[id].abandoned
                     || (a.RClearID? && !o.Fail? && Accepted(s.reference, Edited(s.refPass.local, a)) && s.refPass.project == id)))
            && (id !in c.projects && id in d ==> !d[id].abandoned)
  {
    if OnCloud(a) {
      CloudSteps.OwnCallShape(n, s, c, a, o);
    } else {
      CloudSteps.StoreStepShape(n, s, c, a, o);
    }
  }

  lemma StepKeepsHistory(s: System, l: Label, id: string)
    requires Enabled(s, l) && "" !in s.cloud.projects
    ensures var p, q := s.cloud.projects, Apply(s, l).cloud.projects;
            && (id in p ==> id in q && q[id].creator == p[id].creator)
            && (id in p ==> (q[id].abandoned <==>
                  || p[id].abandoned
                  || (l.ByReferenceController? && Clears(s, l, l.name) && s.slots[l.name].refPass.project == id)))
            && (id !in p && id in q ==> !q[id].abandoned)
  {
    if l.ByReferenceController? {
      CallKeepsHistory(l.name, s.slots[l.name], s.cloud, l.refAct, l.o, id);
    }
  }

  /** Only its own reference's pass is ever bound to a project that the operator made. */
  lemma OnlyCreatorClears(s: System, l: Label, n: NamespacedName, id: string)
    requires Inv(s) && Enabled(s, l) && Clears(s, l, n) && id in s.cloud.projects && s.slots[n].refPass.project == id
    requires s.cloud.projects[id].creator.Some? && s.cloud.projects[id].creator.value in s.slots
    ensures s.cloud.projects[id].creator == Some(n) && s.slots[n].refPass.know.createFailed
  {
    var m := s.cloud.projects[id].creator.value;
    assert SlotInv(n, s.slots[n], s.cloud) && SlotInv(m, s.slots[m], s.cloud);
    assert MintedFor(s.cloud.ids, id, m);
  }

  /** A project is abandoned exactly when the ID was cleared at some point of the run. */
  lemma {:induction false} AbandonedWasCleared(run: seq<System>, i: nat, n: NamespacedName, id: string)
    requires IsRun(run) && Init(run[0]) && i < |run|
    ensures id !in run[i].cloud.projects ==> !Cleared(run, i, n, id)
    ensures id in run[i].cloud.projects && run[i].cloud.projects[id].creator == Some(n) ==>
              (run[i].cloud.projects[id].abandoned <==> Cleared(run, i, n, id))
  {
    if i > 0 {
      AbandonedWasCleared(run, i - 1, n, id);
      LastStepAbandons(run, i, n, id);
      assert Cleared(run, i, n, id) <==> Cleared(run, i - 1, n, id) || ClearedAt(run, i - 1, n, id);
    }
  }

  /** Whatever label explains a step, it abandons a project exactly when it clears the ID. */
  lemma LabelAbandons(s: System, l: Label, n: NamespacedName, id: string)
    requires Inv(s) && CreatorsKnown(s) && "" !in s.cloud.projects && Enabled(s, l)
    requires id in s.cloud.projects && s.cloud.projects[id].creator == Some(n)
    ensures var q := Apply(s, l).cloud.projects;
            && id in q && q[id].creator == Some(n)
            && (q[id].abandoned <==> s.cloud.projects[id].abandoned || (Clears(s, l, n) && s.slots[n].refPass.project == id))
  {
    StepKeepsHistory(s, l, id);
    if l.ByReferenceController? && Clears(s, l, l.name) && s.slots[l.name].refPass.project == id {
      OnlyCreatorClears(s, l, l.name, id);
    }
  }

  lemma StepAbandons(s: System, t: System, n: NamespacedName, id: string)
    requires Inv(s) && CreatorsKnown(s) && "" !in s.cloud.projects && Step(s, t)
    ensures var p, q := s.cloud.projects, t.cloud.projects;
            && (id in p ==> id in q && q[id].creator == p[id].creator)
            && (id in p && p[id].creator == Some(n) ==> (q[id].abandoned <==> p[id].abandoned || GivesUp(s, t, n, id)))
            && (id !in p && id in q ==> !q[id].abandoned)
  {
    var l :| Enabled(s, l) && t == Apply(s, l);
    StepKeepsHistory(s, l, id);
    if id in s.cloud.projects && s.cloud.projects[id].creator == Some(n) {
      LabelAbandons(s, l, n, id);
      if GivesUp(s, t, n, id) {
        var k :| Enabled(s, k) && t == Apply(s, k) && Clears(s, k, n) && s.slots[n].refPass.project == id;
        LabelAbandons(s, k, n, id);
      }
    }
  }

  lemma LastStepAbandons(run: seq<System>, i: nat, n: NamespacedName, id: string)
    requires IsRun(run) && Init(run[0]) && 0 < i < |run|
    ensures var p, q := run[i - 1].cloud.projects, run[i].cloud.projects;
            && (id in p ==> id in q && q[id].creator == p[id].creator)
            && (id in p && p[id].creator == Some(n) ==> (q[id].abandoned <==> p[id].abandoned || ClearedAt(run, i - 1, n, id)))
            && (id !in p && id in q ==> !q[id].abandoned)
  {
    assert StepAt(run, i - 1);
    Safety.RunKeepsInv(run, i - 1);
    RunKeepsCreatorsKnown(run, i - 1);
    NoEmptyName(run, i - 1);
    StepAbandons(run[i - 1], run[i], n, id);
  }

  /** No orphaned project: an active project that the operator made is named by the reference it was made for, and the
      reference's finalizer is there to clean it up, unless, and only unless, the ID was cleared after a failed creation. */
  lemma NoOrphanedProject(run: seq<System>, s: System, id: string)
    requires LeadsTo(run, s) && id in s.cloud.projects
    requires s.cloud.projects[id].creator.Some? && s.cloud.projects[id].state == Active
    ensures var n := s.cloud.projects[id].creator.value;
            n in s.slots && (Keeps(s.slots[n].reference, id) <==> !Cleared(run, |run| - 1, n, id))
  {
    Safety.RunKeepsInv(run, |run| - 1);
    RunKeepsCreatorsKnown(run, |run| - 1);
    var n := s.cloud.projects[id].creator.value;
    AbandonedWasCleared(run, |run| - 1, n, id);
    assert SlotInv(n, s.slots[n], s.cloud);
  }

  /** The claim outlives its reference, so a pass that must clean up always finds the claim. */
  lemma ClaimOutlivesReference(s: System, n: NamespacedName)
    requires Reachable(s) && n in s.slots && HoldsFinalizer(s.slots[n].reference)
    ensures ClaimHoldsFinalizer(s.slots[n].claim)
  {
    Safety.ReachableHasInv(s);
    assert SlotInv(n, s.slots[n], s.cloud);
  }

  lemma CleanupFindsClaim(s: System, n: NamespacedName, o: Outcome)
    requires Reachable(s) && n in s.slots && s.slots[n].refPass.ReferenceRunning?
    requires !s.slots[n].refPass.closing && FINALIZER in s.slots[n].refPass.local.finalizers
    ensures ClaimRead(s.slots[n], o).refPass.reply != NotFound
  {
    Safety.ReachableHasInv(s);
    var slot := s.slots[n];
    assert StoreInv(n, slot, s.cloud) && ClaimInv(slot) by {
      assert SlotInv(n, slot, s.cloud);
    }
  }

  // Grants

  /** What a project's members were given since they were last revoked is there, or was taken away. */
  predicate GivenIsAccounted(projects: Projects) {
    forall id | id in projects :: projects[id].given <= projects[id].grants + projects[id].taken.grants
  }

  /** Service accounts that the operator made have nothing but what was given to them. */
  predicate MintedWereGiven(projects: Projects, accountNames: Names) {
    forall id, grant | id in projects && grant in projects[id].grants && grant.1.ServiceAccount? && grant.1.account in accountNames ::
      grant in projects[id].given
  }

  /** And only roles that service accounts are meant to have. */
  predicate RolesAreMeant(projects: Projects, accountNames: Names) {
    forall id, grant | id in projects && grant in projects[id].given && grant.1.ServiceAccount? && grant.1.account in accountNames ::
      grant.0 in AccountRoles(true)
  }

  lemma MeantRoles(sharedVPC: bool)
    ensures forall role | role in AccountRoles(sharedVPC) :: role in AccountRoles(true)
  {
  }

  lemma ProjectAfterKeepsGiven(p: Project, account: string, a: ReferenceAct)
    requires p.given <= p.grants + p.taken.grants
    ensures var q := ProjectAfter(p, account, a);
            && q.given <= q.grants + q.taken.grants
            && (forall grant | grant in q.grants && grant !in q.given :: grant in p.grants && grant !in p.given)
            && (forall grant | grant in q.given && grant !in p.given :: a.RGrant? && grant.1 == a.who && grant.0 in a.roles)
  {
  }

  lemma CallKeepsGiven(n: NamespacedName, s: Slot, c: Cloud, a: ReferenceAct, o: Outcome)
    requires ReferenceMay(n, s, c, a) && "" !in c.projects && GivenIsAccounted(c.projects)
    requires MintedWereGiven(c.projects, c.accountNames) && RolesAreMeant(c.projects, c.accountNames)
    ensures var d := CloudStep(n, s, c, a, o);
            GivenIsAccounted(d.projects) && MintedWereGiven(d.projects, d.accountNames) && RolesAreMeant(d.projects, d.accountNames)
  {
    if OnCloud(a) {
      CloudSteps.OwnCallShape(n, s, c, a, o);
      if s.refPass.project in c.projects {
        ProjectAfterKeepsGiven(c.projects[s.refPass.project], s.refPass.account, a);
        MeantRoles(s.refPass.local.spec.sharedVPC);
      }
    } else {
      CloudSteps.StoreStepShape(n, s, c, a, o);
    }
  }

  lemma StepKeepsGiven(s: System, l: Label)
    requires Enabled(s, l) && "" !in s.cloud.projects
    requires GivenIsAccounted(s.cloud.projects)
    requires MintedWereGiven(s.cloud.projects, s.cloud.accountNames) && RolesAreMeant(s.cloud.projects, s.cloud.accountNames)
    ensures var d := Apply(s, l).cloud;
            GivenIsAccounted(d.projects) && MintedWereGiven(d.projects, d.accountNames) && RolesAreMeant(d.projects, d.accountNames)
  {
    if l.ByReferenceController? {
      CallKeepsGiven(l.name, s.slots[l.name], s.cloud, l.refAct, l.o);
    }
  }

  lemma {:induction false} RunKeepsGiven(run: seq<System>, i: nat)
    requires IsRun(run) && Init(run[0]) && i < |run|
    ensures var d := run[i].cloud;
            GivenIsAccounted(d.projects) && MintedWereGiven(d.projects, d.accountNames) && RolesAreMeant(d.projects, d.accountNames)
  {
    if i > 0 {
      RunKeepsGiven(run, i - 1);
      NoEmptyName(run, i - 1);
      assert StepAt(run, i - 1);
      var l :| Enabled(run[i - 1], l) && run[i] == Apply(run[i - 1], l);
      StepKeepsGiven(run[i - 1], l);
    }
  }

  /** A service account that the operator made has a role exactly when it was given the role since it was last revoked,
      and nobody else has taken the role away. */
  ghost predicate HasWhatItWasGiven(p: Project, account: string) {
    forall role: string ::
      (role, ServiceAccount(account)) in p.grants <==>
        (role, ServiceAccount(account)) in p.given && (role, ServiceAccount(account)) !in p.taken.grants
  }

  lemma MintedHasWhatItWasGiven(s: System, id: string, account: string)
    requires Reachable(s) && id in s.cloud.projects && account in s.cloud.accountNames
    ensures HasWhatItWasGiven(s.cloud.projects[id], account)
  {
    var run :| LeadsTo(run, s);
    RunKeepsGiven(run, |run| - 1);
    RunKeepsTaken(run, |run| - 1);
    assert TakenIsGone(s.cloud.projects[id]);
  }

  /** The roles by name: eight for every service account, and four more where the claim asks for access to a shared network. */
  lemma AccountRolesByName(sharedVPC: bool, role: string)
    ensures role in AccountRoles(sharedVPC) <==>
              || role in {"roles/compute.admin", "roles/dns.admin", "roles/iam.roleAdmin", "roles/iam.securityAdmin",
                          "roles/iam.serviceAccountAdmin", "roles/iam.serviceAccountKeyAdmin", "roles/iam.serviceAccountUser",
                          "roles/storage.admin"}
              || (sharedVPC && role in {"roles/iam.securityReviewer", "roles/compute.loadBalancerAdmin",
                                        "roles/resourcemanager.tagUser", "roles/compute.networkAdmin"})
  {
  }

  /** The groups' roles by name. */
  lemma ConsoleRolesByName(readOnly: bool, role: string)
    ensures role in ConsoleRoles(readOnly) <==>
              if readOnly then role == "roles/viewer"
              else role in {"roles/compute.admin", "roles/editor", "roles/resourcemanager.projectIamAdmin",
                            "roles/servicemanagement.quotaAdmin", "roles/iam.serviceAccountAdmin",
                            "roles/serviceusage.serviceUsageAdmin", "roles/iam.roleAdmin",
                            "roles/cloudsupport.techSupportEditor", "roles/iap.tunnelResourceAccessor"}
  {
  }

  /** A service account that the operator made has no roles but those that service accounts are meant to have. */
  lemma MintedHaveMeantRoles(s: System, id: string, account: string, role: string)
    requires Reachable(s) && id in s.cloud.projects && account in s.cloud.accountNames
    requires (role, ServiceAccount(account)) in s.cloud.projects[id].grants + s.cloud.projects[id].given
    ensures role in AccountRoles(true)
  {
    var run :| LeadsTo(run, s);
    RunKeepsGiven(run, |run| - 1);
  }

  // What the steps of the reference controller leave alone

  lemma OnlyEditsEdit(n: NamespacedName, s: Slot, c: Cloud, a: ReferenceAct, o: Outcome)
    requires ReferenceMay(n, s, c, a) && !EditsReference(a)
    ensures var t := ReferenceStep(n, s, c, a, o);
            if a.RStatus? && s.reference.Some? then
              && t.reference.Some?
              && t.reference.value == s.reference.value.(version := t.reference.value.version, status := t.reference.value.status)
            else t.reference == s.reference
  {
  }

  lemma OnlyHandOversTouchClaim(n: NamespacedName, s: Slot, c: Cloud, a: ReferenceAct, o: Outcome)
    requires ReferenceMay(n, s, c, a)
    ensures var t := ReferenceStep(n, s, c, a, o);
            if a.RSetZones? || a.RPublishID? then
              t.claim.Some? && s.claim.Some? ==> t.claim.value.status == s.claim.value.status
            else if a.RClaimReady? then
              var claim := s.refPass.claim.value; t == HandOverStatus(s, claim.(status := claim.status.(state := ClaimState.Ready)), o)
            else t.claim == s.claim
  {
  }

  /** What is left of what a reference stood for: no account, no active project of the operator's own; a role of the account exactly
      when it was given since the last revocation and not taken away, and none at all if this pass revoked the account or nobody else
      had taken it; credentials that the operator made exactly when they are hidden from the pass. */
  ghost predicate NothingLeft(r: Reference, claim: ClaimSpec, secrets: Secrets, hidden: set<NamespacedName>, revoked: bool, projects: Projects) {
    && (r.spec.projectID in projects ==>
          var q := projects[r.spec.projectID];
          && r.spec.accountName !in q.accounts
          && HasWhatItWasGiven(q, r.spec.accountName)
          && (revoked || r.spec.accountName !in q.taken.accounts ==> NoGrants(q, r.spec.accountName))
          && (!r.spec.ccs ==> q.state != Active))
    && (LeftBehind(secrets, claim.credentialSecret) <==> claim.credentialSecret in hidden)
  }

  lemma OnlyDroppingDrops(n: NamespacedName, s: Slot, c: Cloud, a: ReferenceAct, o: Outcome)
    requires StoreInv(n, s, c) && ReferenceMay(n, s, c, a) && HoldsFinalizer(s.reference)
    requires !HoldsFinalizer(ReferenceStep(n, s, c, a, o).reference)
    ensures a == RDropFinalizer && Current(s.reference, s.refPass.local)
  {
    if !EditsReference(a) {
      OnlyEditsEdit(n, s, c, a, o);
    }
  }

  lemma OthersKeepFinalizer(n: NamespacedName, s: Slot, c: Cloud, u: UserAct, a: ClaimAct, o: Outcome)
    requires HoldsFinalizer(s.reference)
    ensures UserMay(s, u) ==> HoldsFinalizer(UserStep(s, u).reference)
    ensures ClaimMay(n, s, a) ==> HoldsFinalizer(ClaimStep(n, s, a, o).reference)
  {
  }

  lemma DropMeansCleanedUp(n: NamespacedName, s: Slot, c: Cloud)
    requires SlotInv(n, s, c) && ReferenceMay(n, s, c, RDropFinalizer) && Current(s.reference, s.refPass.local)
    requires forall id, account | id in c.projects && account in c.accountNames :: HasWhatItWasGiven(c.projects[id], account)
    ensures s.reference.Some? && s.claim.Some? && s.reference.value.deleting
    ensures NothingLeft(s.reference.value, s.claim.value.spec, s.secrets, s.traces.hidden, s.refPass.know.revoked, c.projects)
    ensures LetGo(c.projects, s.reference.value.spec.projectID, s.refPass.know.groupsRevoked)
  {
    var p, projects := s.refPass, c.projects;
    assert s.reference.value == p.local;
    assert p.claim.Some? && SameClaim(s.claim.value.spec, p.claim.value.spec);
    if p.project in projects && p.account !in projects[p.project].taken.accounts {
      forall grant | grant in projects[p.project].grants ensures grant.1 != ServiceAccount(p.account) {
      }
    }
  }

  /** What the groups that were revoked have in the project, they were given afterwards. */
  predicate LetGo(projects: Projects, id: string, revoked: set<Principal>) {
    id in projects ==> forall grant | grant in projects[id].grants && grant.1 in revoked :: grant in projects[id].given
  }

  /** Finished deletion means nothing left: a reference loses its finalizer in one kind of step only,
      and when it does, nothing of what it stood for is left, and the groups that the pass revoked are out. */
  lemma FinishedDeletion(s: System, l: Label, n: NamespacedName)
    requires Reachable(s) && Enabled(s, l) && n in s.slots && HoldsFinalizer(s.slots[n].reference)
    ensures var slot := s.slots[n];
            || HoldsFinalizer(Apply(s, l).slots[n].reference)
            || (l.ByReferenceController? && l.name == n && l.refAct == RDropFinalizer
                && slot.reference.value.deleting && slot.claim.Some? && slot.refPass.ReferenceRunning?
                && NothingLeft(slot.reference.value, slot.claim.value.spec, slot.secrets, slot.traces.hidden, slot.refPass.know.revoked, s.cloud.projects)
                && LetGo(s.cloud.projects, slot.reference.value.spec.projectID, slot.refPass.know.groupsRevoked))
  {
    Safety.ReachableHasInv(s);
    var slot := s.slots[n];
    assert SlotInv(n, slot, s.cloud);
    match l
    case ByUser(m, u) => if m == n { OthersKeepFinalizer(n, slot, s.cloud, u, CStart, Ok); }
    case ByClaimController(m, a, o) => if m == n { OthersKeepFinalizer(n, slot, s.cloud, DeleteClaim, a, o); }
    case ByReferenceController(m, a, o) =>
      if m == n && !HoldsFinalizer(ReferenceStep(n, slot, s.cloud, a, o).reference) {
        OnlyDroppingDrops(n, slot, s.cloud, a, o);
        forall id, account | id in s.cloud.projects && account in s.cloud.accountNames ensures HasWhatItWasGiven(s.cloud.projects[id], account) {
          MintedHasWhatItWasGiven(s, id, account);
        }
        DropMeansCleanedUp(n, slot, s.cloud);
      }
    case ByOutsider(_, _) =>
  }

  // Ready

  /** What was taken away is not there: whatever is restored is no longer counted as taken. */
  predicate TakenIsGone(p: Project) {
    && p.apis !! p.taken.apis && p.accounts !! p.taken.accounts && p.grants !! p.taken.grants
    && (p.taken.closed ==> p.state != Active) && (p.taken.unlinked ==> p.billing == "")
  }

  predicate AllTakenIsGone(projects: Projects) {
    forall id | id in projects :: TakenIsGone(projects[id])
  }

  lemma ProjectAfterKeepsTaken(p: Project, account: string, a: ReferenceAct)
    requires TakenIsGone(p)
    ensures TakenIsGone(ProjectAfter(p, account, a))
  {
  }

  lemma CallKeepsTaken(n: NamespacedName, s: Slot, c: Cloud, a: ReferenceAct, o: Outcome)
    requires ReferenceMay(n, s, c, a) && AllTakenIsGone(c.projects) && "" !in c.projects
    ensures AllTakenIsGone(CloudStep(n, s, c, a, o).projects)
  {
    if OnCloud(a) {
      CloudSteps.OwnCallShape(n, s, c, a, o);
      if s.refPass.project in c.projects {
        ProjectAfterKeepsTaken(c.projects[s.refPass.project], s.refPass.account, a);
      }
    } else {
      CloudSteps.StoreStepShape(n, s, c, a, o);
    }
  }

  lemma StepKeepsTaken(s: System, l: Label)
    requires Enabled(s, l) && AllTakenIsGone(s.cloud.projects) && "" !in s.cloud.projects
    ensures AllTakenIsGone(Apply(s, l).cloud.projects)
  {
    if l.ByReferenceController? {
      CallKeepsTaken(l.name, s.slots[l.name], s.cloud, l.refAct, l.o);
    }
  }

  lemma {:induction false} RunKeepsTaken(run: seq<System>, i: nat)
    requires IsRun(run) && Init(run[0]) && i < |run|
    ensures AllTakenIsGone(run[i].cloud.projects)
  {
    if i > 0 {
      RunKeepsTaken(run, i - 1);
      NoEmptyName(run, i - 1);
      assert StepAt(run, i - 1);
      var l :| Enabled(run[i - 1], l) && run[i] == Apply(run[i - 1], l);
      StepKeepsTaken(run[i - 1], l);
    }
  }

  /** The project has each thing that a Ready reference stands for exactly when nobody else has taken that thing away. */
  predicate StandsFor(p: Project, spec: ReferenceSpec) {
    var account := ServiceAccount(spec.accountName);
    && (forall api | api in REQUIRED_APIS :: api in p.apis <==> api !in p.taken.apis)
    && (spec.accountName in p.accounts <==> spec.accountName !in p.taken.accounts)
    && (forall role | role in AccountRoles(spec.sharedVPC) :: (role, account) in p.grants <==> (role, account) !in p.taken.grants)
    && (!spec.ccs ==> (p.state == Active <==> !p.taken.closed) && (p.billing != "" <==> !p.taken.unlinked))
  }

  lemma ReadyProjectStands(p: Project, spec: ReferenceSpec)
    requires ReadyProject(p, spec) && TakenIsGone(p)
    ensures StandsFor(p, spec)
  {
  }

  /** A Ready reference that is not being deleted has what it stands for, thing by thing, unless others took that very thing away. */
  lemma ReadyIsSound(s: System, n: NamespacedName)
    requires Reachable(s) && n in s.slots
    ensures var slot, projects := s.slots[n], s.cloud.projects;
            slot.reference.Some? && slot.reference.value.status.state == RefReady && !slot.reference.value.deleting ==>
              var spec := slot.reference.value.spec;
              && FINALIZER in slot.reference.value.finalizers && spec.projectID != "" && AccountNamed(spec.accountName)
              && spec.projectID in projects && StandsFor(projects[spec.projectID], spec)
              && slot.claim.Some?
              && var key := slot.claim.value.spec.credentialSecret;
                 (key in slot.secrets && !slot.secrets[key].deleting <==> key !in slot.traces.deleted)
    ensures var claim := s.slots[n].claim;
            claim.Some? && claim.value.status.state == ClaimState.Ready ==>
              claim.value.spec.zones != [] && claim.value.spec.projectID != ""
  {
    Safety.ReachableHasInv(s);
    var run :| LeadsTo(run, s);
    RunKeepsTaken(run, |run| - 1);
    var slot := s.slots[n];
    assert SlotInv(n, slot, s.cloud);
    if slot.reference.Some? && slot.reference.value.status.state == RefReady && !slot.reference.value.deleting {
      var spec := slot.reference.value.spec;
      ReadyProjectStands(s.cloud.projects[spec.projectID], spec);
    }
  }

  // Customers' credentials

  /** While a CCS reference holds its finalizer, the secret it reads its credentials from exists and is held by the operator
      exactly when the reference matches the claim that is stored now; a user's forgery aside. */
  lemma CredentialsOutliveReference(s: System, n: NamespacedName)
    requires Reachable(s) && n in s.slots && HoldsFinalizer(s.slots[n].reference)
    ensures var slot := s.slots[n];
            && slot.claim.Some?
            && var spec := slot.reference.value.spec;
               && (spec.ccs && Matches(spec, slot.claim.value.spec) ==> Held(slot.secrets, spec.ccsSecret))
               && (spec.ccs && spec.ccsSecret !in slot.traces.forged ==>
                     (Held(slot.secrets, spec.ccsSecret) <==> Matches(spec, slot.claim.value.spec)))
  {
    Safety.ReachableHasInv(s);
    assert SlotInv(n, s.slots[n], s.cloud);
  }

  /** A customer's reference that was built from another claim than the stored one. */
  predicate Mismatched(s: Slot) {
    && s.claim.Some? && s.reference.Some?
    && s.reference.value.spec.ccs && !Matches(s.reference.value.spec, s.claim.value.spec)
  }

  /** A reference that does not ask for what the stored claim asks for. */
  predicate Differs(r: ReferenceSpec, c: ClaimSpec) {
    r.ccs != c.ccs || r.ccsSecret != c.ccsSecret || r.sharedVPC != c.sharedVPC
  }

  predicate Different(s: Slot) {
    s.claim.Some? && s.reference.Some? && Differs(s.reference.value.spec, s.claim.value.spec)
  }

  /** A step leaves alone what a claim asks for, and what a reference was built to ask for. */
  predicate KeepsParts(s: Slot, t: Slot) {
    && (s.claim.Some? && t.claim.Some? ==> SameClaim(t.claim.value.spec, s.claim.value.spec))
    && (s.reference.Some? && t.reference.Some? ==>
          var r, q := s.reference.value.spec, t.reference.value.spec;
          q.ccs == r.ccs && q.ccsSecret == r.ccsSecret && q.sharedVPC == r.sharedVPC && q.link == r.link)
  }

  predicate MakesReference(s: Slot, a: ClaimAct, o: Outcome) {
    a.CCreateReference? && !o.Fail? && s.reference.None?
  }

  lemma UsersKeepParts(s: Slot, u: UserAct)
    requires UserMay(s, u)
    ensures var t := UserStep(s, u);
            && KeepsParts(s, t) && (s.reference.None? ==> t.reference.None?)
            && (s.claim.None? ==>
                  if u.CreateClaim? then t.claim.Some? && t.claim.value.spec == u.spec && t.reference == s.reference else t.claim.None?)
            && (u.CreateClaim? ==> s.claim.None?)
  {
  }

  lemma ClaimUpdateKeepsParts(s: Slot, copy: Claim, o: Outcome)
    requires s.claimPass.ClaimRunning? && Faithful(s.claim, s.claimPass.local)
    requires copy.version == s.claimPass.local.version && SameClaim(copy.spec, s.claimPass.local.spec)
    ensures KeepsParts(s, ClaimUpdate(s, copy, o))
  {
  }

  lemma ClaimStatusKeepsParts(s: Slot, copy: Claim, o: Outcome)
    requires s.claimPass.ClaimRunning? && copy.version == s.claimPass.local.version
    ensures var t := ClaimStatusUpdate(s, copy, o); KeepsParts(s, t) && t.reference == s.reference && (s.claim.None? ==> t.claim.None?)
  {
  }

  lemma ClaimControllerKeepsParts(n: NamespacedName, s: Slot, c: Cloud, a: ClaimAct, o: Outcome)
    requires ClaimMay(n, s, a) && StoreInv(n, s, c)
    ensures var t := ClaimStep(n, s, a, o);
            && KeepsParts(s, t) && (s.claim.None? ==> t.claim.None?)
            && (if MakesReference(s, a, o) then
                  && t.claim == s.claim && t.reference.Some?
                  && var r, local := t.reference.value.spec, s.claimPass.local.spec;
                     r.ccs == local.ccs && r.ccsSecret == local.ccsSecret && r.sharedVPC == local.sharedVPC
                else s.reference.None? ==> t.reference.None?)
  {
    var p := s.claimPass;
    match a
    case CSetLink => ClaimUpdateKeepsParts(s, p.local.(spec := p.local.spec.(link := ReferenceName(n))), o);
    case CAddFinalizer => ClaimUpdateKeepsParts(s, p.local.(finalizers := p.local.finalizers + [FINALIZER]), o);
    case CDropFinalizer => ClaimUpdateKeepsParts(s, p.local.(finalizers := Filtered(p.local.finalizers, FINALIZER)), o);
    case CStatus(status) => ClaimStatusKeepsParts(s, p.local.(status := status), o);
    case CCreateReference =>
    case CDeleteReference =>
    case _ =>
      assert ClaimStep(n, s, a, o).claim == s.claim && ClaimStep(n, s, a, o).reference == s.reference;
  }

  lemma EditKeepsParts(s: Slot, copy: Reference, o: Outcome)
    requires s.refPass.ReferenceRunning? && Faithful(s.reference, s.refPass.local) && copy.version == s.refPass.local.version
    requires var r := s.refPass.local.spec; copy.spec == r.(projectID := copy.spec.projectID, accountName := copy.spec.accountName)
    ensures var t := ReferenceUpdate(s, copy, o); KeepsParts(s, t) && t.claim == s.claim && (s.reference.None? ==> t.reference.None?)
  {
  }

  lemma HandOversKeepParts(n: NamespacedName, s: Slot, c: Cloud, a: ReferenceAct, o: Outcome)
    requires ReferenceMay(n, s, c, a) && !EditsReference(a) && FreshReferencePass(s.clock, s.claim, s.reference, s.refPass)
    ensures var t := ReferenceStep(n, s, c, a, o);
            (s.claim.None? ==> t.claim.None?) && (s.claim.Some? && t.claim.Some? ==> SameClaim(t.claim.value.spec, s.claim.value.spec))
  {
  }

  lemma ReferenceControllerKeepsParts(n: NamespacedName, s: Slot, c: Cloud, a: ReferenceAct, o: Outcome)
    requires ReferenceMay(n, s, c, a) && StoreInv(n, s, c)
    ensures var t := ReferenceStep(n, s, c, a, o);
            KeepsParts(s, t) && (s.claim.None? ==> t.claim.None?) && (s.reference.None? ==> t.reference.None?)
  {
    if EditsReference(a) {
      Safety.EditedSlot(n, s, c, a, o);
      EditKeepsParts(s, Edited(s.refPass.local, a), o);
    } else {
      OnlyEditsEdit(n, s, c, a, o);
      HandOversKeepParts(n, s, c, a, o);
    }
  }

  /** What one step does to the claim's and the reference's parts that matter to the other. */
  lemma StepKeepsParts(s: System, l: Label, n: NamespacedName)
    requires Reachable(s) && Enabled(s, l) && n in s.slots
    ensures var slot, t := s.slots[n], Apply(s, l).slots[n];
            && KeepsParts(slot, t)
            && (slot.claim.None? && t.claim.Some? ==> l.ByUser? && l.name == n && l.user.CreateClaim?)
            && (l.ByUser? && l.name == n && l.user.CreateClaim? ==>
                  slot.claim.None? && t.claim.Some? && t.claim.value.spec == l.user.spec && t.reference == slot.reference)
            && (slot.reference.None? && t.reference.Some? ==>
                  l.ByClaimController? && l.name == n && MakesReference(slot, l.claimAct, l.o))
            && (l.ByClaimController? && l.name == n && MakesReference(slot, l.claimAct, l.o) ==>
                  && t.claim == slot.claim && t.reference.Some?
                  && var r, local := t.reference.value.spec, slot.claimPass.local.spec;
                     r.ccs == local.ccs && r.ccsSecret == local.ccsSecret && r.sharedVPC == local.sharedVPC)
  {
    Safety.ReachableHasInv(s);
    var slot := s.slots[n];
    assert SlotInv(n, slot, s.cloud);
    match l
    case ByUser(m, u) => if m == n { UsersKeepParts(slot, u); }
    case ByClaimController(m, a, o) => if m == n { ClaimControllerKeepsParts(n, slot, s.cloud, a, o); }
    case ByReferenceController(m, a, o) => if m == n { ReferenceControllerKeepsParts(n, slot, s.cloud, a, o); }
    case ByOutsider(_, _) =>
  }

  /** A customer's reference comes not to match its claim in two ways only: a claim is made while an earlier claim's reference is still
      there, or a pass that read an earlier claim makes the reference after the claim was replaced. */
  lemma MismatchArises(s: System, l: Label, n: NamespacedName)
    requires Reachable(s) && Enabled(s, l) && n in s.slots && !Mismatched(s.slots[n])
    ensures var slot := s.slots[n];
            Mismatched(Apply(s, l).slots[n]) <==>
              || (l.ByUser? && l.name == n && l.user.CreateClaim? && slot.reference.Some?
                  && slot.reference.value.spec.ccs && !Matches(slot.reference.value.spec, l.user.spec))
              || (l.ByClaimController? && l.name == n && MakesReference(slot, l.claimAct, l.o) && slot.claim.Some?
                  && var local, claim := slot.claimPass.local.spec, slot.claim.value.spec;
                     local.ccs && !(claim.ccs && claim.ccsSecret == local.ccsSecret))
  {
    StepKeepsParts(s, l, n);
  }

  /** And it comes to ask for something else than its claim, access to a shared network included, in the same two ways only. */
  lemma DifferenceArises(s: System, l: Label, n: NamespacedName)
    requires Reachable(s) && Enabled(s, l) && n in s.slots && !Different(s.slots[n])
    ensures var slot := s.slots[n];
            Different(Apply(s, l).slots[n]) <==>
              || (l.ByUser? && l.name == n && l.user.CreateClaim? && slot.reference.Some? && Differs(slot.reference.value.spec, l.user.spec))
              || (l.ByClaimController? && l.name == n && MakesReference(slot, l.claimAct, l.o) && slot.claim.Some?
                  && var local, claim := slot.claimPass.local.spec, slot.claim.value.spec;
                     local.ccs != claim.ccs || local.ccsSecret != claim.ccsSecret || local.sharedVPC != claim.sharedVPC)
  {
    StepKeepsParts(s, l, n);
  }

  // Cleaning up

  /** How much of a project is still to be cleaned up, and of a secret. */
  function Burden(projects: Projects, id: string): nat {
    if id !in projects then 0
    else |projects[id].accounts| + |projects[id].grants| + if projects[id].state == Active then 1 else 0
  }

  function SecretBurden(secrets: Secrets, key: NamespacedName): nat {
    if key !in secrets then 0 else if secrets[key].deleting then 1 else 2
  }

  lemma FewerAreLess<T>(a: set<T>, b: set<T>)
    requires a <= b
    ensures |a| <= |b| && (a != b ==> |a| < |b|)
  {
    assert |b| == |a| + |b - a| by {
      assert b == a + (b - a);
    }
    if a != b {
      var x :| x in b - a;
    }
  }

  /** Nobody could tell the projects apart: what others took or gave is their history, not their contents. */
  predicate Alike(p: Project, q: Project) {
    q == p.(taken := q.taken, given := q.given)
  }

  predicate CleansProject(a: ReferenceAct) {
    a.RDeleteProject? || a.RDeleteAccount? || a.RRevoke?
  }

  lemma CleaningLightensProject(p: Project, account: string, a: ReferenceAct)
    requires CleansProject(a)
    ensures var q := ProjectAfter(p, account, a);
            && q.accounts <= p.accounts && q.grants <= p.grants && (q.state == Active ==> p.state == Active)
            && (Alike(p, q) || Burden(map["" := q], "") < Burden(map["" := p], ""))
  {
    var q := ProjectAfter(p, account, a);
    FewerAreLess(q.accounts, p.accounts);
    FewerAreLess(q.grants, p.grants);
  }

  lemma CleaningCallsOnly(n: NamespacedName, s: Slot, c: Cloud, a: ReferenceAct, o: Outcome)
    requires ReferenceMay(n, s, c, a) && s.refPass.ReferenceRunning? && s.refPass.local.deleting
    ensures !a.RClearID? && !a.RCreateProject? && (WritesProject(a) ==> CleansProject(a))
    ensures a.RDeleteSecret? || ReferenceStep(n, s, c, a, o).secrets == s.secrets
  {
  }

  lemma CleaningLightensSecret(s: Slot, o: Outcome)
    requires s.refPass.ReferenceRunning? && s.refPass.claim.Some?
    requires forall key | key in s.secrets :: s.secrets[key].deleting ==> s.secrets[key].finalizers != []
    ensures var t, key := SecretDeletion(s, o), s.refPass.claim.value.spec.credentialSecret;
            && t.secrets - {key} == s.secrets - {key}
            && (t.secrets == s.secrets || SecretBurden(t.secrets, key) < SecretBurden(s.secrets, key))
  {
  }

  /** A pass over a reference that is being deleted only takes away, whatever fails and whoever else is at work; it touches nothing
      but its own project and its own secret; and whenever it changes one of them, less of that is left to clean up. */
  lemma CleanupOnlyTakesAway(s: System, n: NamespacedName, a: ReferenceAct, o: Outcome)
    requires Reachable(s) && Enabled(s, ByReferenceController(n, a, o))
    requires s.slots[n].refPass.ReferenceRunning? && s.slots[n].refPass.local.deleting
    ensures var p, q, id := s.cloud.projects, CloudStep(n, s.slots[n], s.cloud, a, o).projects, s.slots[n].refPass.project;
            && q.Keys == p.Keys && (forall other | other in p && other != id :: q[other] == p[other])
            && (id in p ==> q[id].accounts <= p[id].accounts && q[id].grants <= p[id].grants && (q[id].state == Active ==> p[id].state == Active))
            && (id in p ==> Alike(p[id], q[id]) || Burden(q, id) < Burden(p, id))
    ensures var slot, t := s.slots[n], ReferenceStep(n, s.slots[n], s.cloud, a, o);
            t.secrets == slot.secrets
            || (slot.refPass.claim.Some?
                && var key := slot.refPass.claim.value.spec.credentialSecret;
                   t.secrets - {key} == slot.secrets - {key} && SecretBurden(t.secrets, key) < SecretBurden(slot.secrets, key))
  {
    var slot, c := s.slots[n], s.cloud;
    var id := slot.refPass.project;
    var run :| LeadsTo(run, s);
    NoEmptyName(run, |run| - 1);
    CleaningCallsOnly(n, slot, c, a, o);
    if OnCloud(a) {
      CloudSteps.OwnCallShape(n, slot, c, a, o);
      if WritesProject(a) && id in c.projects {
        CleaningLightensProject(c.projects[id], slot.refPass.account, a);
      }
    } else {
      CloudSteps.StoreStepShape(n, slot, c, a, o);
    }
    if a.RDeleteSecret? {
      RunKeepsMarks(run, |run| - 1, n);
      CleaningLightensSecret(slot, o);
    }
  }

  /** A marked secret is there only because a finalizer holds it. */
  predicate MarksHeld(s: Slot) {
    forall key | key in s.secrets :: s.secrets[key].deleting ==> s.secrets[key].finalizers != []
  }

  lemma UsersKeepMarks(s: Slot, u: UserAct)
    requires UserMay(s, u) && MarksHeld(s)
    ensures MarksHeld(UserStep(s, u))
  {
  }

  lemma SecretUpdateKeepsMarks(s: Slot, copy: Secret, held: bool, o: Outcome)
    requires s.claimPass.ClaimRunning? && MarksHeld(s)
    ensures MarksHeld(SecretUpdate(s, copy, held, o))
  {
  }

  lemma ClaimControllerKeepsMarks(n: NamespacedName, s: Slot, a: ClaimAct, o: Outcome)
    requires ClaimMay(n, s, a) && MarksHeld(s)
    ensures MarksHeld(ClaimStep(n, s, a, o))
  {
    var p := s.claimPass;
    match a
    case CHoldSecret => SecretUpdateKeepsMarks(s, p.secret.value.(finalizers := p.secret.value.finalizers + [CCS_FINALIZER]), true, o);
    case CReleaseSecret =>
      SecretUpdateKeepsMarks(s, p.secret.value.(finalizers := Filtered(p.secret.value.finalizers, CCS_FINALIZER)), false, o);
    case _ => assert ClaimStep(n, s, a, o).secrets == s.secrets;
  }

  lemma ReferenceControllerKeepsMarks(n: NamespacedName, s: Slot, c: Cloud, a: ReferenceAct, o: Outcome)
    requires ReferenceMay(n, s, c, a) && MarksHeld(s)
    ensures MarksHeld(ReferenceStep(n, s, c, a, o))
  {
    if a.RCreateSecret? {
      assert ReferenceStep(n, s, c, a, o) == SecretCreation(s, o);
    } else if a.RDeleteSecret? {
      assert ReferenceStep(n, s, c, a, o) == SecretDeletion(s, o);
    } else {
      SecretsStay(n, s, c, a, o);
    }
  }

  lemma SecretsStay(n: NamespacedName, s: Slot, c: Cloud, a: ReferenceAct, o: Outcome)
    requires ReferenceMay(n, s, c, a) && !a.RCreateSecret? && !a.RDeleteSecret?
    ensures ReferenceStep(n, s, c, a, o).secrets == s.secrets
  {
    if EditsReference(a) {
      Safety.EditedSlot(n, s, c, a, o);
    } else if !OnCloud(a) {
      OtherSecretsStay(n, s, c, a, o);
    }
  }

  lemma OtherSecretsStay(n: NamespacedName, s: Slot, c: Cloud, a: ReferenceAct, o: Outcome)
    requires ReferenceMay(n, s, c, a) && !a.RCreateSecret? && !a.RDeleteSecret? && !EditsReference(a) && !OnCloud(a)
    ensures ReferenceStoreStep(n, s, c, a, o).secrets == s.secrets
  {
  }

  lemma StepKeepsMarks(s: System, l: Label, n: NamespacedName)
    requires Enabled(s, l) && n in s.slots && MarksHeld(s.slots[n])
    ensures MarksHeld(Apply(s, l).slots[n])
  {
    match l
    case ByUser(m, u) => if m == n { UsersKeepMarks(s.slots[n], u); }
    case ByClaimController(m, a, o) => if m == n { ClaimControllerKeepsMarks(n, s.slots[n], a, o); }
    case ByReferenceController(m, a, o) => if m == n { ReferenceControllerKeepsMarks(n, s.slots[n], s.cloud, a, o); }
    case ByOutsider(_, _) =>
  }

  lemma {:induction false} RunKeepsMarks(run: seq<System>, i: nat, n: NamespacedName)
    requires IsRun(run) && Init(run[0]) && i < |run|
    ensures n in run[i].slots ==> MarksHeld(run[i].slots[n])
  {
    if i > 0 {
      RunKeepsMarks(run, i - 1, n);
      assert StepAt(run, i - 1);
      var l :| Enabled(run[i - 1], l) && run[i] == Apply(run[i - 1], l);
      if n in run[i - 1].slots {
        StepKeepsMarks(run[i - 1], l, n);
      }
    }
  }

  // Project IDs

  lemma IDChanges(n: NamespacedName, s: Slot, c: Cloud, a: ReferenceAct, o: Outcome)
    requires StoreInv(n, s, c) && ReferenceMay(n, s, c, a) && s.reference.Some? && s.reference.value.spec.projectID != ""
    ensures var id, t := s.reference.value.spec.projectID, ReferenceStep(n, s, c, a, o);
            t.reference.Some? ==>
              (t.reference.value.spec.projectID != id <==>
                 a.RClearID? && !o.Fail? && Accepted(s.reference, Edited(s.refPass.local, RClearID)))
  {
    if EditsReference(a) {
      Safety.EditedSlot(n, s, c, a, o);
    } else {
      OnlyEditsEdit(n, s, c, a, o);
    }
  }

  lemma OthersKeepID(n: NamespacedName, s: Slot, u: UserAct, a: ClaimAct, o: Outcome)
    requires s.reference.Some?
    ensures UserMay(s, u) && UserStep(s, u).reference.Some? ==> UserStep(s, u).reference.value.spec == s.reference.value.spec
    ensures ClaimMay(n, s, a) && ClaimStep(n, s, a, o).reference.Some? ==>
              ClaimStep(n, s, a, o).reference.value.spec == s.reference.value.spec
  {
  }

  /** Once a reference has a project ID, a step changes it exactly when a pass clears it and the store takes the update;
      and a pass does that only after its own attempt to create the project reported a failure. */
  lemma ProjectIDIsStable(s: System, l: Label, n: NamespacedName)
    requires Reachable(s) && Enabled(s, l) && n in s.slots
    requires s.slots[n].reference.Some? && s.slots[n].reference.value.spec.projectID != ""
    ensures var after := Apply(s, l).slots[n].reference;
            after.Some? ==> (after.value.spec.projectID != s.slots[n].reference.value.spec.projectID <==> Clears(s, l, n))
    ensures Clears(s, l, n) ==> s.slots[n].refPass.know.createFailed && s.slots[n].refPass.project == s.slots[n].reference.value.spec.projectID
  {
    Safety.ReachableHasInv(s);
    var slot := s.slots[n];
    assert SlotInv(n, slot, s.cloud);
    match l
    case ByUser(m, u) => if m == n { OthersKeepID(n, slot, u, CStart, Ok); }
    case ByClaimController(m, a, o) => if m == n { OthersKeepID(n, slot, DeleteClaim, a, o); }
    case ByReferenceController(m, a, o) =>
      if m == n {
        IDChanges(n, slot, s.cloud, a, o);
        if Clears(s, l, n) {
          assert slot.reference.value == slot.refPass.local;
        }
      }
    case ByOutsider(_, _) =>
  }

  /** An ID that the operator published into an empty claim stays the claim's and the reference's. */
  lemma PublishedIDAgrees(s: System, n: NamespacedName)
    requires Reachable(s) && n in s.slots && s.slots[n].published.Some?
    ensures var slot := s.slots[n];
            && slot.claim.Some? && slot.reference.Some?
            && slot.claim.value.spec.projectID == slot.reference.value.spec.projectID == slot.published.value
  {
    Safety.ReachableHasInv(s);
    assert SlotInv(n, s.slots[n], s.cloud);
  }

  /** A change of the cloud that is one of the project that the stored reference names and, but for giving up the name,
      under the reference's finalizer. */
  predicate HitsOwnProject(s: Slot, a: ReferenceAct, before: Projects, after: Projects) {
    && s.reference.Some? && s.refPass.ReferenceRunning? && s.reference.value.spec.projectID == s.refPass.project != ""
    && s.refPass.project in after && after == before[s.refPass.project := after[s.refPass.project]]
    && (if a.RClearID? then
          s.refPass.project in before && after[s.refPass.project] == before[s.refPass.project].(abandoned := true)
        else FINALIZER in s.reference.value.finalizers)
    && (s.refPass.project !in before ==> a == RCreateProject && !s.reference.value.spec.ccs)
  }

  /** One project per pass: whatever a reference pass does to the cloud, it does to the project its stored reference names. */
  lemma OneProjectPerPass(s: System, n: NamespacedName, a: ReferenceAct, o: Outcome)
    requires Reachable(s) && Enabled(s, ByReferenceController(n, a, o))
    ensures var before, after := s.cloud.projects, CloudStep(n, s.slots[n], s.cloud, a, o).projects;
            after != before ==> HitsOwnProject(s.slots[n], a, before, after)
  {
    Safety.ReachableHasInv(s);
    var slot := s.slots[n];
    assert SlotInv(n, slot, s.cloud);
    if OnCloud(a) {
      CallsHitOneProject(n, slot, s.cloud, a, o);
    } else {
      ClearingHitsOneProject(n, slot, s.cloud, a, o);
    }
  }

  lemma ClearingHitsOneProject(n: NamespacedName, s: Slot, c: Cloud, a: ReferenceAct, o: Outcome)
    requires ReferenceMay(n, s, c, a) && !OnCloud(a) && StoreInv(n, s, c) && "" !in c.projects
    ensures var before, after := c.projects, CloudStep(n, s, c, a, o).projects;
            after != before ==>
              && a.RClearID? && s.reference.Some? && s.reference.value.spec.projectID == s.refPass.project && s.refPass.project in before
              && after == before[s.refPass.project := before[s.refPass.project].(abandoned := true)]
  {
    CloudSteps.StoreStepShape(n, s, c, a, o);
  }

  lemma CallsHitOneProject(n: NamespacedName, s: Slot, c: Cloud, a: ReferenceAct, o: Outcome)
    requires ReferenceMay(n, s, c, a) && OnCloud(a) && SlotInv(n, s, c)
    ensures var before, after, id := c.projects, CloudStep(n, s, c, a, o).projects, s.refPass.project;
            after != before ==>
              && HoldsFinalizer(s.reference) && s.reference.value.spec.projectID == id != ""
              && id in after && after == before[id := after[id]]
              && (id !in before ==> a == RCreateProject && !s.reference.value.spec.ccs)
  {
    CloudSteps.OwnCallShape(n, s, c, a, o);
    if !a.RList? {
      CloudSteps.CallsNeedNoReady(n, s, c, a);
      CloudSteps.OwnCallHasNames(n, s, c, a);
    }
  }

  // Claim states

  /** The transitions of a stored claim's state, each with what must be in place. */
  predicate StateMayBecome(n: NamespacedName, s: Slot, before: Claim, after: Claim) {
    var x, y := before.status.state, after.status.state;
    || x == y
    || y == ClaimState.Error
    || (y == Pending && x in {Unset, ClaimState.Error})
    || (y == PendingProject && x in {Pending, ClaimState.Error}
        && after.spec.link == ReferenceName(n) && FINALIZER in after.finalizers
        && (after.spec.ccs ==> Held(s.secrets, after.spec.ccsSecret))
        && (!s.referenceDisturbed ==> s.reference.Some? && !s.reference.value.deleting))
    || (y == ClaimState.Ready && s.reference.Some? && s.reference.value.status.state == RefReady)
  }

  lemma OnlyStatusWritesState(n: NamespacedName, s: Slot, a: ClaimAct, o: Outcome)
    requires ClaimMay(n, s, a) && !a.CStatus? && s.claim.Some? && ClaimStep(n, s, a, o).claim.Some?
    ensures ClaimStep(n, s, a, o).claim.value.status == s.claim.value.status
  {
  }

  lemma StatusTransitions(n: NamespacedName, s: Slot, c: Cloud, status: ClaimStatus, o: Outcome)
    requires StoreInv(n, s, c) && ClaimInv(s) && ClaimMay(n, s, CStatus(status)) && s.claim.Some?
    ensures var t := ClaimStatusUpdate(s, s.claimPass.local.(status := status), o);
            t.claim.Some? && StateMayBecome(n, s, s.claim.value, t.claim.value)
  {
    if !o.Fail? && Current(s.claim, s.claimPass.local) {
      assert s.claim.value == s.claimPass.local;
    }
  }

  lemma ClaimControllerTransitions(n: NamespacedName, s: Slot, c: Cloud, a: ClaimAct, o: Outcome)
    requires StoreInv(n, s, c) && ClaimInv(s) && ClaimMay(n, s, a) && s.claim.Some? && ClaimStep(n, s, a, o).claim.Some?
    ensures StateMayBecome(n, s, s.claim.value, ClaimStep(n, s, a, o).claim.value)
  {
    if a.CStatus? {
      StatusTransitions(n, s, c, a.claimStatus, o);
    } else {
      OnlyStatusWritesState(n, s, a, o);
    }
  }

  lemma ReferenceControllerTransitions(n: NamespacedName, s: Slot, c: Cloud, a: ReferenceAct, o: Outcome)
    requires StoreInv(n, s, c) && ReferenceMay(n, s, c, a) && s.claim.Some? && ReferenceStep(n, s, c, a, o).claim.Some?
    ensures StateMayBecome(n, s, s.claim.value, ReferenceStep(n, s, c, a, o).claim.value)
  {
    OnlyHandOversTouchClaim(n, s, c, a, o);
  }

  lemma UsersKeepState(s: Slot, u: UserAct)
    requires UserMay(s, u) && s.claim.Some? && UserStep(s, u).claim.Some?
    ensures UserStep(s, u).claim.value.status == s.claim.value.status
  {
  }

  lemma ClaimTransitions(s: System, l: Label, n: NamespacedName)
    requires Reachable(s) && Enabled(s, l) && n in s.slots
    requires s.slots[n].claim.Some? && Apply(s, l).slots[n].claim.Some?
    ensures StateMayBecome(n, s.slots[n], s.slots[n].claim.value, Apply(s, l).slots[n].claim.value)
  {
    Safety.ReachableHasInv(s);
    var slot := s.slots[n];
    assert SlotInv(n, slot, s.cloud);
    match l
    case ByUser(m, u) => if m == n { UsersKeepState(slot, u); }
    case ByClaimController(m, a, o) => if m == n { ClaimControllerTransitions(n, slot, s.cloud, a, o); }
    case ByReferenceController(m, a, o) => if m == n { ReferenceControllerTransitions(n, slot, s.cloud, a, o); }
    case ByOutsider(_, _) =>
  }
}
