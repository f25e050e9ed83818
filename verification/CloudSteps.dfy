/** The cloud steps keep the invariant: a claim's own, other claims', and outsiders'. */
module CloudSteps {
  import opened Objects
  import opened Protocol
  import opened Invariant
  import ReferenceSteps

  // What a claim name may rely on while others work on the cloud

  /** The grants that concern a claim: those of groups and of the service accounts made for it. */
  predicate Concerns(n: NamespacedName, names: Names, grant: (string, Principal)) {
    grant.1.Group? || MintedFor(names, grant.1.account, n)
  }

  predicate ProjectRely(n: NamespacedName, names: Names, mine: bool, p: Project, q: Project) {
    && q.creator == p.creator && (q.state == Active ==> p.state == Active)
    && (p.creator == Some(n) ==> q.abandoned == p.abandoned)
    && (forall account | account in q.accounts && MintedFor(names, account, n) :: account in p.accounts)
    && (forall grant | grant in q.grants && Concerns(n, names, grant) :: grant in p.grants || (grant.1.Group? && grant in q.given))
    && (forall grant | grant in q.grants && grant in p.given && grant.1.Group? :: grant in q.given)
    && p.apis + p.taken.apis <= q.apis + q.taken.apis
    && (forall account | account in p.accounts + p.taken.accounts && MintedFor(names, account, n) :: account in q.accounts + q.taken.accounts)
    && (forall grant | grant in p.grants + p.taken.grants && Concerns(n, names, grant) :: grant in q.grants + q.taken.grants)
    && (mine ==>
          && (p.billing != "" || p.taken.unlinked ==> q.billing != "" || q.taken.unlinked)
          && (!q.taken.closed ==> !p.taken.closed && q.state == p.state))
  }

  predicate NewProjectRely(n: NamespacedName, names: Names, q: Project) {
    && q.creator != Some(n)
    && (forall account | account in q.accounts :: !MintedFor(names, account, n))
    && (forall grant | grant in q.grants :: if grant.1.Group? then grant in q.given else !MintedFor(names, grant.1.account, n))
  }

  ghost predicate SameNames(n: NamespacedName, names: Names, names': Names) {
    forall name :: MintedFor(names, name, n) <==> MintedFor(names', name, n)
  }

  ghost predicate Rely(n: NamespacedName, c: Cloud, d: Cloud) {
    && SameNames(n, c.ids, d.ids) && SameNames(n, c.accountNames, d.accountNames)
    && (forall id | id in c.projects ::
          id in d.projects && ProjectRely(n, c.accountNames, MintedFor(c.ids, id, n), c.projects[id], d.projects[id]))
    && (forall id | id in d.projects && id !in c.projects ::
          id != "" && !MintedFor(c.ids, id, n) && NewProjectRely(n, c.accountNames, d.projects[id]))
  }

  lemma FrameKeepsStore(n: NamespacedName, s: Slot, c: Cloud, d: Cloud)
    requires StoreInv(n, s, c) && Rely(n, c, d)
    ensures StoreInv(n, s, d)
  {
  }

  lemma FrameKeepsOwnership(n: NamespacedName, s: Slot, c: Cloud, d: Cloud)
    requires ProjectInv(n, s, c) && Rely(n, c, d)
    ensures "" !in d.projects && Ownership(n, s.reference, d.ids, d.projects)
  {
  }

  lemma FrameKeepsGrants(n: NamespacedName, c: Cloud, d: Cloud)
    requires GrantsNeedAccounts(n, c.projects, c.accountNames) && Rely(n, c, d)
    ensures GrantsNeedAccounts(n, d.projects, d.accountNames)
  {
  }

  lemma FrameKeepsGroups(n: NamespacedName, know: Knowledge, project: string, c: Cloud, d: Cloud)
    requires KnowsGroups(project, know, c.projects) && Rely(n, c, d)
    ensures KnowsGroups(project, know, d.projects)
  {
    if project in c.projects {
      var p, q := c.projects[project], d.projects[project];
      forall grant | grant in know.groupGrants ensures grant in q.grants + q.taken.grants {
        assert grant in p.grants + p.taken.grants && Concerns(n, c.accountNames, grant);
      }
      forall grant | grant in q.grants && grant.1 in know.groupsRevoked ensures grant in q.given {
        assert Concerns(n, c.accountNames, grant);
      }
    }
  }

  lemma FrameKeepsKnowledge(n: NamespacedName, s: Slot, c: Cloud, d: Cloud)
    requires "" !in c.projects && Knows(n, s.refPass, s.secrets, s.traces, c) && Rely(n, c, d)
    ensures Knows(n, s.refPass, s.secrets, s.traces, d)
  {
    if s.refPass.ReferenceRunning? {
      var p := s.refPass;
      FrameKeepsGroups(n, p.know, p.project, c, d);
      assert BoundNames(n, p.local.spec.ccs, p.project, p.account, p.know, d.ids, d.accountNames);
      assert KnowsProject(p.project, p.local.deleting, p.know, d.projects);
      assert KnowsContents(p.project, p.account, p.local.deleting, p.know, d.projects);
    }
  }

  lemma ReadyProjectStays(n: NamespacedName, names: Names, mine: bool, p: Project, q: Project, spec: ReferenceSpec)
    requires ProjectRely(n, names, mine, p, q) && ReadyProject(p, spec)
    requires MintedFor(names, spec.accountName, n) && (!spec.ccs ==> mine)
    ensures ReadyProject(q, spec)
  {
    var account := ServiceAccount(spec.accountName);
    forall api | api in REQUIRED_APIS ensures api in q.apis || api in q.taken.apis {
      assert api in p.apis + p.taken.apis;
    }
    assert spec.accountName in p.accounts + p.taken.accounts;
    forall role | role in AccountRoles(spec.sharedVPC) ensures (role, account) in q.grants || (role, account) in q.taken.grants {
      assert (role, account) in p.grants + p.taken.grants && Concerns(n, names, (role, account));
    }
  }

  lemma FrameKeepsReady(n: NamespacedName, s: Slot, c: Cloud, d: Cloud)
    requires ShapedStored(n, c.ids, c.accountNames, s.reference) && ReadyReference(s.reference, c.projects) && Rely(n, c, d)
    ensures ReadyReference(s.reference, d.projects)
  {
    if s.reference.Some? && s.reference.value.status.state == RefReady && !s.reference.value.deleting {
      var spec := s.reference.value.spec;
      var p, q := c.projects[spec.projectID], d.projects[spec.projectID];
      ReadyProjectStays(n, c.accountNames, MintedFor(c.ids, spec.projectID, n), p, q, spec);
    }
  }

  lemma FrameKeepsInv(n: NamespacedName, s: Slot, c: Cloud, d: Cloud)
    requires SlotInv(n, s, c) && Rely(n, c, d)
    ensures SlotInv(n, s, d)
  {
    FrameKeepsStore(n, s, c, d);
    FrameKeepsOwnership(n, s, c, d);
    FrameKeepsGrants(n, c, d);
    FrameKeepsKnowledge(n, s, c, d);
    FrameKeepsReady(n, s, c, d);
  }

  lemma OutsidersAreReliable(n: NamespacedName, c: Cloud, id: string, q: Project)
    requires OutsiderMay(c, id, q)
    ensures Rely(n, c, c.(projects := c.projects[id := q]))
  {
  }

  // A claim's own calls

  /** Calls on the cloud are made only while the stored reference is not a Ready one that stays. */
  lemma CallsNeedNoReady(n: NamespacedName, s: Slot, c: Cloud, a: ReferenceAct)
    requires ReferenceMay(n, s, c, a) && OnCloud(a) && !a.RList? && Linked(s.reference, s.refPass)
    requires ShapedLocal(n, c.ids, c.accountNames, s.refPass)
    ensures s.reference.Some? && (s.reference.value.status.state == RefReady ==> s.reference.value.deleting)
    ensures HoldsFinalizer(s.reference) && s.reference.value.spec == s.refPass.local.spec
    ensures s.refPass.project == s.refPass.local.spec.projectID && s.refPass.account == s.refPass.local.spec.accountName != ""
  {
  }

  lemma CloudReadLearns(n: NamespacedName, s: Slot, c: Cloud, a: ReferenceAct, o: Outcome)
    requires ReferenceMay(n, s, c, a) && ReadsCloud(a)
    requires Linked(s.reference, s.refPass) && ShapedLocal(n, c.ids, c.accountNames, s.refPass)
    requires "" !in c.projects && Knows(n, s.refPass, s.secrets, s.traces, c)
    ensures Knows(n, s.refPass.(know := CloudKnowledge(s.refPass, c.projects, a, o)), s.secrets, s.traces, c)
  {
  }

  lemma CreateProjectLearns(n: NamespacedName, s: Slot, c: Cloud, o: Outcome)
    requires ReferenceMay(n, s, c, RCreateProject) && Knows(n, s.refPass, s.secrets, s.traces, c)
    ensures var d := CloudStep(n, s, c, RCreateProject, o);
            Knows(n, s.refPass.(know := CloudKnowledge(s.refPass, c.projects, RCreateProject, o)), s.secrets, s.traces, d)
  {
  }

  lemma ProjectWriteKeepsNames(n: NamespacedName, s: Slot, c: Cloud, a: ReferenceAct, o: Outcome)
    requires ReferenceMay(n, s, c, a) && WritesProject(a)
    requires Linked(s.reference, s.refPass) && ShapedLocal(n, c.ids, c.accountNames, s.refPass)
    requires Knows(n, s.refPass, s.secrets, s.traces, c)
    ensures var d, p, k := CloudStep(n, s, c, a, o), s.refPass, CloudKnowledge(s.refPass, c.projects, a, o);
            BoundNames(n, p.local.spec.ccs, p.project, p.account, k, d.ids, d.accountNames)
  {
  }

  lemma ProjectWriteLearnsProject(n: NamespacedName, s: Slot, c: Cloud, a: ReferenceAct, o: Outcome)
    requires ReferenceMay(n, s, c, a) && WritesProject(a)
    requires KnowsProject(s.refPass.project, s.refPass.local.deleting, s.refPass.know, c.projects)
    ensures var d, p, k := CloudStep(n, s, c, a, o), s.refPass, CloudKnowledge(s.refPass, c.projects, a, o);
            KnowsProject(p.project, p.local.deleting, k, d.projects)
  {
  }

  lemma GrantsOfMore(roles: set<string>, more: set<string>, who: Principal)
    ensures GrantsOf(roles + more, who) == GrantsOf(roles, who) + GrantsOf(more, who)
  {
  }

  lemma GrantLearnsContents(n: NamespacedName, s: Slot, c: Cloud, who: Principal, roles: set<string>, o: Outcome)
    requires ReferenceMay(n, s, c, RGrant(who, roles))
    requires Knows(n, s.refPass, s.secrets, s.traces, c)
    ensures var a := RGrant(who, roles);
            var d, p, k := CloudStep(n, s, c, a, o), s.refPass, CloudKnowledge(s.refPass, c.projects, a, o);
            KnowsContents(p.project, p.account, p.local.deleting, k, d.projects)
  {
    var p := s.refPass;
    if who == ServiceAccount(p.account) {
      GrantsOfMore(p.know.granted, roles, who);
    }
    if p.project in c.projects && !o.Fail? {
      var q := c.projects[p.project];
      assert q.grants + q.taken.grants <= (q.grants + GrantsOf(roles, who)) + (q.taken.grants - GrantsOf(roles, who));
    }
  }

  lemma BuildingLearnsContents(n: NamespacedName, s: Slot, c: Cloud, a: ReferenceAct, o: Outcome)
    requires ReferenceMay(n, s, c, a) && (a.REnableApi? || a.RSetBilling? || a.RCreateAccount?)
    requires Knows(n, s.refPass, s.secrets, s.traces, c)
    ensures var d, p, k := CloudStep(n, s, c, a, o), s.refPass, CloudKnowledge(s.refPass, c.projects, a, o);
            KnowsContents(p.project, p.account, p.local.deleting, k, d.projects)
  {
  }

  lemma CleaningLearnsContents(n: NamespacedName, s: Slot, c: Cloud, a: ReferenceAct, o: Outcome)
    requires ReferenceMay(n, s, c, a) && (a.RDeleteProject? || a.RDeleteAccount? || a.RRevoke?)
    requires Knows(n, s.refPass, s.secrets, s.traces, c)
    ensures var d, p, k := CloudStep(n, s, c, a, o), s.refPass, CloudKnowledge(s.refPass, c.projects, a, o);
            KnowsContents(p.project, p.account, p.local.deleting, k, d.projects)
  {
  }

  lemma ProjectWriteLearnsGroups(n: NamespacedName, s: Slot, c: Cloud, a: ReferenceAct, o: Outcome)
    requires ReferenceMay(n, s, c, a) && WritesProject(a) && KnowsGroups(s.refPass.project, s.refPass.know, c.projects)
    ensures var d, p, k := CloudStep(n, s, c, a, o), s.refPass, CloudKnowledge(s.refPass, c.projects, a, o);
            KnowsGroups(p.project, k, d.projects)
  {
  }

  lemma OwnCallKeepsOwnership(n: NamespacedName, s: Slot, c: Cloud, a: ReferenceAct, o: Outcome)
    requires ReferenceMay(n, s, c, a) && OnCloud(a) && Linked(s.reference, s.refPass) && ShapedLocal(n, c.ids, c.accountNames, s.refPass)
    requires "" !in c.projects && Ownership(n, s.reference, c.ids, c.projects)
    ensures var d := CloudStep(n, s, c, a, o); "" !in d.projects && Ownership(n, s.reference, d.ids, d.projects)
  {
  }

  lemma OwnCallKeepsGrants(n: NamespacedName, s: Slot, c: Cloud, a: ReferenceAct, o: Outcome)
    requires ReferenceMay(n, s, c, a) && OnCloud(a) && GrantsNeedAccounts(n, c.projects, c.accountNames)
    requires Knows(n, s.refPass, s.secrets, s.traces, c)
    ensures var d := CloudStep(n, s, c, a, o); GrantsNeedAccounts(n, d.projects, d.accountNames)
  {
  }

  lemma OwnCallHasNames(n: NamespacedName, s: Slot, c: Cloud, a: ReferenceAct)
    requires ReferenceMay(n, s, c, a) && OnCloud(a) && !a.RList?
    requires Linked(s.reference, s.refPass) && ShapedLocal(n, c.ids, c.accountNames, s.refPass)
    ensures MintedFor(c.accountNames, s.refPass.account, n)
    ensures !s.refPass.local.spec.ccs && s.refPass.project != "" ==> MintedFor(c.ids, s.refPass.project, n)
    ensures a.RCreateProject? || a.RDeleteProject? || a.RSetBilling? ==> !s.refPass.local.spec.ccs
    ensures a.RCreateProject? ==> s.refPass.project != ""
    ensures a.RRevoke? || a.RGrant? ==> a.who.Group? || a.who.account == s.refPass.account
  {
  }

  lemma ProjectAfterIsReliable(m: NamespacedName, names: Names, mine: bool, p: Project, account: string, a: ReferenceAct)
    requires WritesProject(a) && !MintedFor(names, account, m)
    requires a.RRevoke? || a.RGrant? ==> a.who.Group? || a.who.account == account
    requires a.RDeleteProject? || a.RSetBilling? ==> !mine
    ensures ProjectRely(m, names, mine, p, ProjectAfter(p, account, a))
  {
  }

  /** The shape of a call's effect: nothing, a new project, or one project changed. */
  lemma OwnCallShape(n: NamespacedName, s: Slot, c: Cloud, a: ReferenceAct, o: Outcome)
    requires ReferenceMay(n, s, c, a) && OnCloud(a)
    ensures var d, id := CloudStep(n, s, c, a, o), s.refPass.project;
            || d == c
            || (a.RCreateProject? && id !in c.projects && d == c.(projects := c.projects[id := NewProject(n)]))
            || (WritesProject(a) && id in c.projects
                && d == c.(projects := c.projects[id := ProjectAfter(c.projects[id], s.refPass.account, a)]))
  {
  }

  /** The steps that touch stored objects leave the projects alone, except for giving up a name. */
  lemma StoreStepShape(n: NamespacedName, s: Slot, c: Cloud, a: ReferenceAct, o: Outcome)
    requires ReferenceMay(n, s, c, a) && !OnCloud(a)
    ensures var d := CloudStep(n, s, c, a, o);
            if a.RClearID? && !o.Fail? && Accepted(s.reference, Edited(s.refPass.local, a)) && s.refPass.project in c.projects && "" !in c.projects
            then d == c.(projects := c.projects[s.refPass.project := c.projects[s.refPass.project].(abandoned := true)])
            else d.projects == c.projects || "" in c.projects
  {
  }

  lemma ChangeIsReliable(m: NamespacedName, c: Cloud, id: string, q: Project)
    requires if id in c.projects then ProjectRely(m, c.accountNames, MintedFor(c.ids, id, m), c.projects[id], q)
             else id != "" && !MintedFor(c.ids, id, m) && NewProjectRely(m, c.accountNames, q)
    ensures Rely(m, c, c.(projects := c.projects[id := q]))
  {
  }

  lemma OwnCallIsReliable(n: NamespacedName, m: NamespacedName, s: Slot, c: Cloud, a: ReferenceAct, o: Outcome)
    requires m != n && ReferenceMay(n, s, c, a) && OnCloud(a) && "" !in c.projects
    requires Linked(s.reference, s.refPass) && ShapedLocal(n, c.ids, c.accountNames, s.refPass)
    ensures Rely(m, c, CloudStep(n, s, c, a, o))
  {
    OwnCallShape(n, s, c, a, o);
    if CloudStep(n, s, c, a, o) != c {
      OwnCallHasNames(n, s, c, a);
      var id := s.refPass.project;
      if WritesProject(a) {
        ProjectAfterIsReliable(m, c.accountNames, MintedFor(c.ids, id, m), c.projects[id], s.refPass.account, a);
        ChangeIsReliable(m, c, id, ProjectAfter(c.projects[id], s.refPass.account, a));
      } else {
        ChangeIsReliable(m, c, id, NewProject(n));
      }
    }
  }

  lemma ProjectWriteLearnsContents(n: NamespacedName, s: Slot, c: Cloud, a: ReferenceAct, o: Outcome)
    requires ReferenceMay(n, s, c, a) && WritesProject(a) && Knows(n, s.refPass, s.secrets, s.traces, c)
    ensures var d, p, k := CloudStep(n, s, c, a, o), s.refPass, CloudKnowledge(s.refPass, c.projects, a, o);
            KnowsContents(p.project, p.account, p.local.deleting, k, d.projects)
  {
    if CleaningUp(s.refPass) {
      CleaningLearnsContents(n, s, c, a, o);
    } else if a.RGrant? {
      GrantLearnsContents(n, s, c, a.who, a.roles, o);
    } else {
      BuildingLearnsContents(n, s, c, a, o);
    }
  }

  lemma ProjectWriteLearns(n: NamespacedName, s: Slot, c: Cloud, a: ReferenceAct, o: Outcome)
    requires ReferenceMay(n, s, c, a) && WritesProject(a)
    requires Linked(s.reference, s.refPass) && ShapedLocal(n, c.ids, c.accountNames, s.refPass)
    requires Knows(n, s.refPass, s.secrets, s.traces, c)
    ensures var d := CloudStep(n, s, c, a, o);
            Knows(n, s.refPass.(know := CloudKnowledge(s.refPass, c.projects, a, o)), s.secrets, s.traces, d)
  {
    ProjectWriteKeepsNames(n, s, c, a, o);
    ProjectWriteLearnsProject(n, s, c, a, o);
    ProjectWriteLearnsGroups(n, s, c, a, o);
    ProjectWriteLearnsContents(n, s, c, a, o);
  }

  lemma OwnCallLearns(n: NamespacedName, s: Slot, c: Cloud, a: ReferenceAct, o: Outcome)
    requires ReferenceMay(n, s, c, a) && OnCloud(a) && "" !in c.projects
    requires Linked(s.reference, s.refPass) && ShapedLocal(n, c.ids, c.accountNames, s.refPass)
    requires Knows(n, s.refPass, s.secrets, s.traces, c)
    ensures var d := CloudStep(n, s, c, a, o);
            Knows(n, s.refPass.(know := CloudKnowledge(s.refPass, c.projects, a, o)), s.secrets, s.traces, d)
  {
    if ReadsCloud(a) {
      CloudReadLearns(n, s, c, a, o);
    } else if a.RCreateProject? {
      CreateProjectLearns(n, s, c, o);
    } else {
      ProjectWriteLearns(n, s, c, a, o);
    }
  }

  lemma OwnCallKeepsReady(n: NamespacedName, s: Slot, c: Cloud, a: ReferenceAct, o: Outcome)
    requires ReferenceMay(n, s, c, a) && OnCloud(a) && StoreInv(n, s, c) && ReadyInv(s, c)
    ensures ReadyReference(s.reference, CloudStep(n, s, c, a, o).projects)
  {
    if !a.RList? {
      CallsNeedNoReady(n, s, c, a);
    }
  }

  lemma OwnCallIsSound(n: NamespacedName, s: Slot, c: Cloud, a: ReferenceAct, o: Outcome)
    requires ReferenceMay(n, s, c, a) && OnCloud(a) && StoreInv(n, s, c) && ProjectInv(n, s, c) && ReadyInv(s, c)
    ensures var d := CloudStep(n, s, c, a, o);
            && d == c.(projects := d.projects)
            && "" !in d.projects && Ownership(n, s.reference, d.ids, d.projects) && GrantsNeedAccounts(n, d.projects, d.accountNames)
            && ReadyReference(s.reference, d.projects)
            && Knows(n, s.refPass.(know := CloudKnowledge(s.refPass, c.projects, a, o)), s.secrets, s.traces, d)
  {
    OwnCallShape(n, s, c, a, o);
    OwnCallLearns(n, s, c, a, o);
    OwnCallKeepsOwnership(n, s, c, a, o);
    OwnCallKeepsGrants(n, s, c, a, o);
    OwnCallKeepsReady(n, s, c, a, o);
  }

  lemma OwnCallKeepsInv(n: NamespacedName, s: Slot, c: Cloud, a: ReferenceAct, o: Outcome)
    requires ReferenceMay(n, s, c, a) && OnCloud(a) && SlotInv(n, s, c)
    ensures SlotInv(n, ReferenceStep(n, s, c, a, o), CloudStep(n, s, c, a, o))
  {
    OwnCallIsSound(n, s, c, a, o);
    ReferenceSteps.NewKnowledgeKeepsInv(n, s, c, CloudStep(n, s, c, a, o),
                                        CloudKnowledge(s.refPass, c.projects, a, o), CloudAnswer(s.refPass, c.projects, a, o));
  }

  // Generated names

  lemma MintedIDKeepsInv(n: NamespacedName, s: Slot, c: Cloud, id: string)
    requires SlotInv(n, s, c) && id !in c.ids
    ensures SlotInv(n, s, c.(ids := c.ids[id := n]))
  {
  }

  lemma MintedAccountKeepsInv(n: NamespacedName, s: Slot, c: Cloud, account: string)
    requires SlotInv(n, s, c) && Unused(c, account)
    ensures SlotInv(n, s, c.(accountNames := c.accountNames[account := n]))
  {
  }

  lemma MintingIsReliable(n: NamespacedName, m: NamespacedName, s: Slot, c: Cloud, a: ReferenceAct, o: Outcome)
    requires m != n && ReferenceMay(n, s, c, a) && !OnCloud(a) && !a.RClearID?
    ensures Rely(m, c, CloudStep(n, s, c, a, o))
  {
  }

  /** A claim abandons only a project that was made for it. */
  lemma ClearingIsReliable(n: NamespacedName, m: NamespacedName, s: Slot, t: Slot, c: Cloud, o: Outcome)
    requires m != n && ReferenceMay(n, s, c, RClearID) && "" !in c.projects
    requires Knows(n, s.refPass, s.secrets, s.traces, c) && Ownership(m, t.reference, c.ids, c.projects)
    ensures Rely(m, c, CloudStep(n, s, c, RClearID, o))
  {
    var id, d := s.refPass.project, CloudStep(n, s, c, RClearID, o);
    if d != c {
      assert MintedFor(c.ids, id, n) && c.projects[id].creator != Some(m);
      ChangeIsReliable(m, c, id, c.projects[id].(abandoned := true));
    }
  }
}
