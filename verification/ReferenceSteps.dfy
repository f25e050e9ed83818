/** The store steps of reference controllers keep the invariant. */
module ReferenceSteps {
  import opened Operations
  import opened Objects
  import opened Protocol
  import opened Invariant

  // Reads

  predicate PassInv(n: NamespacedName, s: Slot, c: Cloud, p: ReferencePass) {
    && FreshReferencePass(s.clock, s.claim, s.reference, p)
    && ShapedLocal(n, c.ids, c.accountNames, p)
    && Linked(s.reference, p)
    && SnapshotBinds(s.claim, s.reference, s.secrets, p)
  }

  lemma NewPassKeepsInv(n: NamespacedName, s: Slot, c: Cloud, p: ReferencePass)
    requires SlotInv(n, s, c) && PassInv(n, s, c, p) && Knows(n, p, s.secrets, s.traces, c)
    ensures SlotInv(n, s.(refPass := p), c)
  {
  }

  lemma StartKeepsInv(n: NamespacedName, s: Slot, c: Cloud)
    requires s.reference.Some? && SlotInv(n, s, c)
    ensures SlotInv(n, StartedPass(s), c)
  {
    var t := StartedPass(s);
    assert PassInv(n, s, c, t.refPass);
    assert Knows(n, t.refPass, s.secrets, s.traces, c);
    NewPassKeepsInv(n, s, c, t.refPass);
  }

  lemma EndKeepsInv(n: NamespacedName, s: Slot, c: Cloud)
    requires SlotInv(n, s, c)
    ensures SlotInv(n, s.(refPass := ReferenceIdle), c)
  {
    NewPassKeepsInv(n, s, c, ReferenceIdle);
  }

  lemma ClaimReadBinds(n: NamespacedName, s: Slot, c: Cloud, o: Outcome)
    requires s.refPass.ReferenceRunning? && StoreInv(n, s, c) && ClaimInv(s) && PendingInv(s)
    ensures PassInv(n, s, c, ClaimRead(s, o).refPass)
  {
    if o.Ok? && s.claim.Some? {
      assert ClaimRead(s, o).refPass.claim == s.claim;
    } else {
      assert ClaimRead(s, o).refPass.claim == s.refPass.claim;
    }
  }

  lemma ClaimReadLearns(n: NamespacedName, s: Slot, c: Cloud, o: Outcome)
    requires s.refPass.ReferenceRunning? && s.refPass.claim.None? && Knows(n, s.refPass, s.secrets, s.traces, c)
    ensures Knows(n, ClaimRead(s, o).refPass, s.secrets, s.traces, c)
  {
  }

  lemma ClaimReadKeepsInv(n: NamespacedName, s: Slot, c: Cloud, o: Outcome)
    requires s.refPass.ReferenceRunning? && s.refPass.claim.None? && SlotInv(n, s, c)
    ensures SlotInv(n, ClaimRead(s, o), c)
  {
    ClaimReadBinds(n, s, c, o);
    ClaimReadLearns(n, s, c, o);
    NewPassKeepsInv(n, s, c, ClaimRead(s, o).refPass);
  }

  /** A pass that only learns keeps the invariant, whatever has become of the projects meanwhile. */
  lemma NewKnowledgeKeepsInv(n: NamespacedName, s: Slot, c: Cloud, d: Cloud, know: Knowledge, reply: Error)
    requires SlotInv(n, s, c) && s.refPass.ReferenceRunning? && d == c.(projects := d.projects)
    requires "" !in d.projects && Ownership(n, s.reference, d.ids, d.projects) && GrantsNeedAccounts(n, d.projects, d.accountNames)
    requires ReadyReference(s.reference, d.projects)
    requires Knows(n, s.refPass.(know := know), s.secrets, s.traces, d)
    ensures SlotInv(n, s.(refPass := s.refPass.(know := know, reply := reply)), d)
  {
  }

  /** What a pass knows, and what is hidden from it, matters to nothing but its own knowledge. */
  lemma LearningKeepsRest(n: NamespacedName, s: Slot, c: Cloud, know: Knowledge, reply: Error, hidden: set<NamespacedName>)
    requires s.refPass.ReferenceRunning?
    requires StoreInv(n, s, c) && ClaimInv(s) && PendingInv(s) && SecretInv(s) && ReadyInv(s, c)
    ensures var t := s.(refPass := s.refPass.(know := know, reply := reply), traces := s.traces.(hidden := hidden));
            StoreInv(n, t, c) && ClaimInv(t) && PendingInv(t) && SecretInv(t) && ReadyInv(t, c)
  {
  }

  /** A pass that learns of nothing but the secret knows the rest as before. */
  lemma OnlySecretLearnt(n: NamespacedName, p: ReferencePass, q: ReferencePass, secrets: Secrets, traces: Traces,
                         after: Secrets, tracesAfter: Traces, c: Cloud)
    requires p.ReferenceRunning? && q.ReferenceRunning? && Knows(n, p, secrets, traces, c)
    requires q == p.(know := p.know.(secret := q.know.secret), reply := q.reply)
    requires KnowsSecret(q.claim, q.local.deleting, q.know, after, tracesAfter)
    ensures Knows(n, q, after, tracesAfter, c)
  {
    assert BoundNames(n, q.local.spec.ccs, q.project, q.account, q.know, c.ids, c.accountNames);
    assert KnowsProject(q.project, q.local.deleting, q.know, c.projects);
    assert KnowsContents(q.project, q.account, q.local.deleting, q.know, c.projects);
    assert KnowsGroups(q.project, q.know, c.projects);
  }

  lemma SecretReadLearns(n: NamespacedName, s: Slot, c: Cloud, o: Outcome)
    requires s.refPass.ReferenceRunning? && s.refPass.claim.Some? && Knows(n, s.refPass, s.secrets, s.traces, c)
    ensures var t := SecretRead(s, o);
            && t == s.(refPass := s.refPass.(know := t.refPass.know, reply := t.refPass.reply), traces := s.traces.(hidden := t.traces.hidden))
            && Knows(n, t.refPass, s.secrets, t.traces, c)
  {
    OnlySecretLearnt(n, s.refPass, SecretRead(s, o).refPass, s.secrets, s.traces, s.secrets, SecretRead(s, o).traces, c);
  }

  lemma SecretReadKeepsInv(n: NamespacedName, s: Slot, c: Cloud, o: Outcome)
    requires s.refPass.ReferenceRunning? && s.refPass.claim.Some? && SlotInv(n, s, c)
    ensures SlotInv(n, SecretRead(s, o), c)
  {
    var t := SecretRead(s, o);
    SecretReadLearns(n, s, c, o);
    LearningKeepsRest(n, s, c, t.refPass.know, t.refPass.reply, t.traces.hidden);
  }

  // Updates of the reference's metadata and specification

  /** What a reference pass may write: the finalizer comes on while building and goes only when all is cleaned up;
      the project ID changes only while there is none, or after a failed creation. */
  predicate ReferenceEdit(n: NamespacedName, p: ReferencePass, c: Cloud, copy: Reference) {
    && p.ReferenceRunning? && !p.closing
    && copy == p.local.(finalizers := copy.finalizers, spec := p.local.spec.(projectID := copy.spec.projectID, accountName := copy.spec.accountName))
    && Shaped(n, c.ids, c.accountNames, copy)
    && (copy.spec == p.local.spec || (Building(p) && copy.finalizers == p.local.finalizers))
    && (copy.spec.projectID != p.local.spec.projectID ==>
          (p.project == "" || p.know.createFailed) && copy.spec.projectID !in c.projects)
    && (FINALIZER in p.local.finalizers && FINALIZER !in copy.finalizers ==> CleaningUp(p) && CleanedUp(p))
    && (FINALIZER !in p.local.finalizers && FINALIZER in copy.finalizers ==> Building(p))
  }

  lemma UpdateKeepsStore(n: NamespacedName, s: Slot, c: Cloud, copy: Reference, o: Outcome)
    requires StoreInv(n, s, c) && ReferenceEdit(n, s.refPass, c, copy)
    ensures StoreInv(n, ReferenceUpdate(s, copy, o), c)
  {
    if !o.Fail? && Accepted(s.reference, copy) {
      assert s.reference.value == s.refPass.local;
    }
  }

  lemma UpdateKeepsClaim(n: NamespacedName, s: Slot, c: Cloud, copy: Reference, o: Outcome)
    requires StoreInv(n, s, c) && ClaimInv(s) && PendingInv(s) && ReferenceEdit(n, s.refPass, c, copy)
    ensures ClaimInv(ReferenceUpdate(s, copy, o))
  {
    if !o.Fail? && Accepted(s.reference, copy) {
      assert s.reference.value == s.refPass.local;
    }
  }

  lemma UpdateKeepsPending(n: NamespacedName, s: Slot, c: Cloud, copy: Reference, o: Outcome)
    requires StoreInv(n, s, c) && PendingInv(s) && ReferenceEdit(n, s.refPass, c, copy)
    ensures PendingInv(ReferenceUpdate(s, copy, o))
  {
    if !o.Fail? && Accepted(s.reference, copy) {
      assert s.reference.value == s.refPass.local;
    }
  }

  lemma UpdateKeepsSecret(n: NamespacedName, s: Slot, c: Cloud, copy: Reference, o: Outcome)
    requires StoreInv(n, s, c) && PendingInv(s) && SecretInv(s) && ReferenceEdit(n, s.refPass, c, copy)
    ensures SecretInv(ReferenceUpdate(s, copy, o))
  {
    if !o.Fail? && Accepted(s.reference, copy) {
      assert s.reference.value == s.refPass.local;
    }
  }

  /** The project ID of a reference changes when a new one is made, and when the project it names is abandoned. */
  lemma UpdateKeepsOwnership(n: NamespacedName, s: Slot, c: Cloud, copy: Reference, o: Outcome)
    requires StoreInv(n, s, c) && "" !in c.projects && Ownership(n, s.reference, c.ids, c.projects)
    requires Knows(n, s.refPass, s.secrets, s.traces, c)
    requires ReferenceEdit(n, s.refPass, c, copy)
    ensures var d := CloudAfterUpdate(s, c, copy, o);
            d.ids == c.ids && "" !in d.projects && Ownership(n, ReferenceUpdate(s, copy, o).reference, d.ids, d.projects)
  {
    if !o.Fail? && Accepted(s.reference, copy) {
      assert s.reference.value == s.refPass.local;
    }
  }

  lemma UpdateKeepsKnowledge(n: NamespacedName, s: Slot, c: Cloud, copy: Reference, o: Outcome)
    requires StoreInv(n, s, c) && Knows(n, s.refPass, s.secrets, s.traces, c) && ReferenceEdit(n, s.refPass, c, copy)
    ensures var t := ReferenceUpdate(s, copy, o); Knows(n, t.refPass, t.secrets, t.traces, c)
  {
    if !o.Fail? && Accepted(s.reference, copy) {
      assert s.reference.value == s.refPass.local;
    }
  }

  /** That a project is abandoned matters to nothing but its ownership. */
  lemma AbandoningKeepsRest(n: NamespacedName, s: Slot, c: Cloud, d: Cloud, id: string)
    requires id in c.projects && d == c.(projects := c.projects[id := c.projects[id].(abandoned := true)])
    requires GrantsNeedAccounts(n, c.projects, c.accountNames) && Knows(n, s.refPass, s.secrets, s.traces, c)
    requires ReadyReference(s.reference, c.projects) && StoreInv(n, s, c)
    ensures GrantsNeedAccounts(n, d.projects, d.accountNames) && Knows(n, s.refPass, s.secrets, s.traces, d)
    ensures ReadyReference(s.reference, d.projects) && StoreInv(n, s, d)
  {
  }

  lemma UpdateKeepsReady(n: NamespacedName, s: Slot, c: Cloud, copy: Reference, o: Outcome)
    requires StoreInv(n, s, c) && ReadyInv(s, c) && ReferenceEdit(n, s.refPass, c, copy)
    ensures ReadyInv(ReferenceUpdate(s, copy, o), c)
  {
    if !o.Fail? && Accepted(s.reference, copy) {
      assert s.reference.value == s.refPass.local;
    }
  }

  lemma UpdateKeepsInv(n: NamespacedName, s: Slot, c: Cloud, copy: Reference, o: Outcome)
    requires SlotInv(n, s, c) && ReferenceEdit(n, s.refPass, c, copy)
    ensures SlotInv(n, ReferenceUpdate(s, copy, o), CloudAfterUpdate(s, c, copy, o))
  {
    UpdateKeepsStore(n, s, c, copy, o);
    UpdateKeepsClaim(n, s, c, copy, o);
    UpdateKeepsPending(n, s, c, copy, o);
    UpdateKeepsSecret(n, s, c, copy, o);
    UpdateKeepsOwnership(n, s, c, copy, o);
    UpdateKeepsKnowledge(n, s, c, copy, o);
    UpdateKeepsReady(n, s, c, copy, o);
    var t, d := ReferenceUpdate(s, copy, o), CloudAfterUpdate(s, c, copy, o);
    if d != c {
      AbandoningKeepsRest(n, t, c, d, s.refPass.project);
    }
  }

  // Updates of the reference's status

  predicate ReferenceStatusEdit(p: ReferencePass, copy: Reference) {
    p.ReferenceRunning? && copy == p.local.(status := copy.status) && ReferenceStateMay(p, copy.status.state)
  }

  lemma StatusKeepsStore(n: NamespacedName, s: Slot, c: Cloud, copy: Reference, o: Outcome)
    requires StoreInv(n, s, c) && ReferenceStatusEdit(s.refPass, copy)
    ensures StoreInv(n, ReferenceStatusUpdate(s, copy, o), c)
  {
    if !o.Fail? && Current(s.reference, copy) {
      assert s.reference.value == s.refPass.local;
    }
  }

  lemma StatusKeepsClaim(n: NamespacedName, s: Slot, c: Cloud, copy: Reference, o: Outcome)
    requires StoreInv(n, s, c) && ClaimInv(s) && PendingInv(s) && SecretInv(s) && ReferenceStatusEdit(s.refPass, copy)
    ensures ClaimInv(ReferenceStatusUpdate(s, copy, o)) && PendingInv(ReferenceStatusUpdate(s, copy, o))
    ensures SecretInv(ReferenceStatusUpdate(s, copy, o))
  {
    if !o.Fail? && Current(s.reference, copy) {
      assert s.reference.value == s.refPass.local;
    }
  }

  lemma StatusKeepsProject(n: NamespacedName, s: Slot, c: Cloud, copy: Reference, o: Outcome)
    requires StoreInv(n, s, c) && ProjectInv(n, s, c) && ReferenceStatusEdit(s.refPass, copy)
    ensures ProjectInv(n, ReferenceStatusUpdate(s, copy, o), c)
  {
    if !o.Fail? && Current(s.reference, copy) {
      assert s.reference.value == s.refPass.local;
    }
  }

  /** What a pass must have seen before it may write Ready is what makes a reference Ready. */
  lemma ConfiguredIsReady(n: NamespacedName, s: Slot, c: Cloud)
    requires s.refPass.ReferenceRunning? && Configured(s.refPass) && Knows(n, s.refPass, s.secrets, s.traces, c)
    ensures var p := s.refPass; p.project in c.projects && ReadyProject(c.projects[p.project], p.local.spec)
    ensures var key := s.refPass.claim.value.spec.credentialSecret; key in s.secrets || key in s.traces.deleted
  {
    var p := s.refPass;
    assert KnowsContents(p.project, p.account, p.local.deleting, p.know, c.projects);
    var q := c.projects[p.project];
    forall role | role in AccountRoles(p.local.spec.sharedVPC)
      ensures (role, ServiceAccount(p.account)) in q.grants || (role, ServiceAccount(p.account)) in q.taken.grants
    {
      assert (role, ServiceAccount(p.account)) in GrantsOf(p.know.granted, ServiceAccount(p.account));
    }
  }

  lemma StatusKeepsReady(n: NamespacedName, s: Slot, c: Cloud, copy: Reference, o: Outcome)
    requires StoreInv(n, s, c) && ClaimInv(s) && PendingInv(s) && ProjectInv(n, s, c) && ReadyInv(s, c)
    requires ReferenceStatusEdit(s.refPass, copy)
    ensures ReadyInv(ReferenceStatusUpdate(s, copy, o), c)
  {
    if !o.Fail? && Current(s.reference, copy) {
      assert s.reference.value == s.refPass.local;
      if Configured(s.refPass) {
        ConfiguredIsReady(n, s, c);
      }
    }
  }

  lemma StatusKeepsInv(n: NamespacedName, s: Slot, c: Cloud, copy: Reference, o: Outcome)
    requires SlotInv(n, s, c) && ReferenceStatusEdit(s.refPass, copy)
    ensures SlotInv(n, ReferenceStatusUpdate(s, copy, o), c)
  {
    StatusKeepsStore(n, s, c, copy, o);
    StatusKeepsClaim(n, s, c, copy, o);
    StatusKeepsProject(n, s, c, copy, o);
    StatusKeepsReady(n, s, c, copy, o);
  }

  // The credential secret

  /** The slot with a new secret of the operator's in it. */
  function WithSecret(s: Slot, key: NamespacedName): Slot {
    s.(clock := s.clock + 1, secrets := s.secrets[key := Object(s.clock, false, [], MadeByOperator, ())],
       traces := s.traces.(deleted := s.traces.deleted - {key}))
  }

  lemma NewSecretKeepsRest(n: NamespacedName, s: Slot, c: Cloud, key: NamespacedName)
    requires StoreInv(n, s, c) && ClaimInv(s) && PendingInv(s) && SecretInv(s) && ReadyInv(s, c) && key !in s.secrets
    ensures var t := WithSecret(s, key);
            StoreInv(n, t, c) && ClaimInv(t) && PendingInv(t) && SecretInv(t) && ReadyInv(t, c)
  {
  }

  lemma SecretCreationLearns(n: NamespacedName, s: Slot, c: Cloud, o: Outcome)
    requires s.refPass.ReferenceRunning? && s.refPass.claim.Some? && Knows(n, s.refPass, s.secrets, s.traces, c)
    requires !s.refPass.local.deleting
    ensures var t := SecretCreation(s, o); Knows(n, t.refPass, t.secrets, t.traces, c)
  {
    var t := SecretCreation(s, o);
    OnlySecretLearnt(n, s.refPass, t.refPass, s.secrets, s.traces, t.secrets, t.traces, c);
  }

  lemma SecretCreationShape(s: Slot, o: Outcome)
    requires s.refPass.ReferenceRunning? && s.refPass.claim.Some?
    ensures var t := SecretCreation(s, o);
            var key := s.refPass.claim.value.spec.credentialSecret;
            var u := if o.Fail? || key in s.secrets then s else WithSecret(s, key);
            t == u.(refPass := s.refPass.(know := t.refPass.know, reply := t.refPass.reply))
  {
  }

  lemma SecretCreationKeepsInv(n: NamespacedName, s: Slot, c: Cloud, o: Outcome)
    requires s.refPass.ReferenceRunning? && s.refPass.claim.Some? && !s.refPass.local.deleting && SlotInv(n, s, c)
    ensures SlotInv(n, SecretCreation(s, o), c)
  {
    var key := s.refPass.claim.value.spec.credentialSecret;
    var t := SecretCreation(s, o);
    var u := if o.Fail? || key in s.secrets then s else WithSecret(s, key);
    SecretCreationLearns(n, s, c, o);
    SecretCreationShape(s, o);
    if !o.Fail? && key !in s.secrets {
      NewSecretKeepsRest(n, s, c, key);
    }
    LearningKeepsRest(n, u, c, t.refPass.know, t.refPass.reply, u.traces.hidden);
  }

  lemma SecretDeletionKeepsStore(n: NamespacedName, s: Slot, c: Cloud, o: Outcome)
    requires s.refPass.ReferenceRunning? && s.refPass.claim.Some? && StoreInv(n, s, c)
    ensures StoreInv(n, SecretDeletion(s, o), c)
  {
  }

  lemma SecretDeletionKeepsClaim(n: NamespacedName, s: Slot, c: Cloud, o: Outcome)
    requires s.refPass.ReferenceRunning? && s.refPass.claim.Some? && ClaimInv(s) && PendingInv(s)
    ensures ClaimInv(SecretDeletion(s, o)) && PendingInv(SecretDeletion(s, o))
  {
  }

  lemma SecretDeletionKeepsSecret(n: NamespacedName, s: Slot, c: Cloud, o: Outcome)
    requires CleaningUp(s.refPass) && StoreInv(n, s, c) && SecretInv(s) && ReadyInv(s, c)
    ensures var t := SecretDeletion(s, o); SecretInv(t) && ReadyInv(t, c)
  {
  }

  lemma SecretDeletionKeepsProject(n: NamespacedName, s: Slot, c: Cloud, o: Outcome)
    requires CleaningUp(s.refPass) && ProjectInv(n, s, c)
    ensures ProjectInv(n, SecretDeletion(s, o), c)
  {
    var t := SecretDeletion(s, o);
    OnlySecretLearnt(n, s.refPass, t.refPass, s.secrets, s.traces, t.secrets, t.traces, c);
  }

  lemma SecretDeletionKeepsInv(n: NamespacedName, s: Slot, c: Cloud, o: Outcome)
    requires CleaningUp(s.refPass) && SlotInv(n, s, c)
    ensures SlotInv(n, SecretDeletion(s, o), c)
  {
    SecretDeletionKeepsStore(n, s, c, o);
    SecretDeletionKeepsClaim(n, s, c, o);
    SecretDeletionKeepsSecret(n, s, c, o);
    SecretDeletionKeepsProject(n, s, c, o);
  }

  // Handing results over to the claim

  /** What the reference controller may write into the claim's specification: zones or a project ID that were missing. */
  predicate HandOver(p: ReferencePass, copy: Claim, published: Option<string>, before: Option<string>) {
    && Publishing(p)
    && copy == p.claim.value.(spec := p.claim.value.spec.(zones := copy.spec.zones, projectID := copy.spec.projectID))
    && (copy.spec.zones == p.claim.value.spec.zones || p.claim.value.spec.zones == [])
    && ((copy.spec.projectID == p.claim.value.spec.projectID && published == before)
        || (copy.spec.projectID == p.local.spec.projectID && published == Some(p.local.spec.projectID)
            && p.claim.value.spec.projectID == ""))
  }

  lemma HandOverKeepsStore(n: NamespacedName, s: Slot, c: Cloud, copy: Claim, published: Option<string>, o: Outcome)
    requires StoreInv(n, s, c) && HandOver(s.refPass, copy, published, s.published)
    ensures StoreInv(n, HandOverUpdate(s, copy, published, o), c)
  {
    if !o.Fail? && Accepted(s.claim, copy) {
      assert s.claim.value == s.refPass.claim.value;
    }
  }

  lemma HandOverKeepsClaim(n: NamespacedName, s: Slot, c: Cloud, copy: Claim, published: Option<string>, o: Outcome)
    requires StoreInv(n, s, c) && ClaimInv(s) && HandOver(s.refPass, copy, published, s.published)
    ensures ClaimInv(HandOverUpdate(s, copy, published, o))
  {
  }

  lemma HandOverKeepsPending(n: NamespacedName, s: Slot, c: Cloud, copy: Claim, published: Option<string>, o: Outcome)
    requires StoreInv(n, s, c) && PendingInv(s) && HandOver(s.refPass, copy, published, s.published)
    ensures PendingInv(HandOverUpdate(s, copy, published, o))
  {
    if !o.Fail? && Accepted(s.claim, copy) {
      assert s.claim.value == s.refPass.claim.value;
    }
  }

  lemma HandOverKeepsRest(n: NamespacedName, s: Slot, c: Cloud, copy: Claim, published: Option<string>, o: Outcome)
    requires StoreInv(n, s, c) && SecretInv(s) && ProjectInv(n, s, c) && HandOver(s.refPass, copy, published, s.published)
    ensures SecretInv(HandOverUpdate(s, copy, published, o)) && ProjectInv(n, HandOverUpdate(s, copy, published, o), c)
  {
    if !o.Fail? && Accepted(s.claim, copy) {
      assert s.claim.value == s.refPass.claim.value;
    }
  }

  lemma HandOverKeepsReady(n: NamespacedName, s: Slot, c: Cloud, copy: Claim, published: Option<string>, o: Outcome)
    requires StoreInv(n, s, c) && ReadyInv(s, c) && HandOver(s.refPass, copy, published, s.published)
    ensures ReadyInv(HandOverUpdate(s, copy, published, o), c)
  {
    if !o.Fail? && Accepted(s.claim, copy) {
      assert s.claim.value == s.refPass.claim.value;
    }
  }

  lemma HandOverKeepsInv(n: NamespacedName, s: Slot, c: Cloud, copy: Claim, published: Option<string>, o: Outcome)
    requires SlotInv(n, s, c) && HandOver(s.refPass, copy, published, s.published)
    ensures SlotInv(n, HandOverUpdate(s, copy, published, o), c)
  {
    HandOverKeepsStore(n, s, c, copy, published, o);
    HandOverKeepsClaim(n, s, c, copy, published, o);
    HandOverKeepsPending(n, s, c, copy, published, o);
    HandOverKeepsRest(n, s, c, copy, published, o);
    HandOverKeepsReady(n, s, c, copy, published, o);
  }

  predicate ReadyWrite(p: ReferencePass, copy: Claim) {
    && Publishing(p) && p.claim.value.spec.zones != [] && p.claim.value.spec.projectID != ""
    && copy == p.claim.value.(status := p.claim.value.status.(state := ClaimState.Ready))
  }

  lemma ClaimReadyKeepsStore(n: NamespacedName, s: Slot, c: Cloud, copy: Claim, o: Outcome)
    requires StoreInv(n, s, c) && ClaimInv(s) && ReadyWrite(s.refPass, copy)
    ensures StoreInv(n, HandOverStatus(s, copy, o), c) && ClaimInv(HandOverStatus(s, copy, o))
  {
    if !o.Fail? && Current(s.claim, copy) {
      assert s.claim.value == s.refPass.claim.value;
    }
  }

  lemma ClaimReadyKeepsPending(n: NamespacedName, s: Slot, c: Cloud, copy: Claim, o: Outcome)
    requires StoreInv(n, s, c) && PendingInv(s) && SecretInv(s) && ReadyWrite(s.refPass, copy)
    ensures PendingInv(HandOverStatus(s, copy, o)) && SecretInv(HandOverStatus(s, copy, o))
  {
    if !o.Fail? && Current(s.claim, copy) {
      assert s.claim.value == s.refPass.claim.value;
    }
  }

  lemma ClaimReadyKeepsRest(n: NamespacedName, s: Slot, c: Cloud, copy: Claim, o: Outcome)
    requires StoreInv(n, s, c) && ProjectInv(n, s, c) && ReadyInv(s, c) && ReadyWrite(s.refPass, copy)
    ensures ProjectInv(n, HandOverStatus(s, copy, o), c) && ReadyInv(HandOverStatus(s, copy, o), c)
  {
    if !o.Fail? && Current(s.claim, copy) {
      assert s.claim.value == s.refPass.claim.value;
    }
  }

  lemma ClaimReadyKeepsInv(n: NamespacedName, s: Slot, c: Cloud, copy: Claim, o: Outcome)
    requires SlotInv(n, s, c) && ReadyWrite(s.refPass, copy)
    ensures SlotInv(n, HandOverStatus(s, copy, o), c)
  {
    ClaimReadyKeepsStore(n, s, c, copy, o);
    ClaimReadyKeepsPending(n, s, c, copy, o);
    ClaimReadyKeepsRest(n, s, c, copy, o);
  }
}
