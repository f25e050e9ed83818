/** Users and claim controllers keep the invariant. */
module ClaimSteps {
  import opened Lists
  import opened Operations
  import opened Objects
  import opened Protocol
  import opened Invariant

  // Users

  lemma UserKeepsStore(n: NamespacedName, s: Slot, c: Cloud, a: UserAct)
    requires UserMay(s, a) && StoreInv(n, s, c)
    ensures StoreInv(n, UserStep(s, a), c)
  {
  }

  lemma UserKeepsClaim(n: NamespacedName, s: Slot, c: Cloud, a: UserAct)
    requires UserMay(s, a) && StoreInv(n, s, c) && ClaimInv(s)
    ensures ClaimInv(UserStep(s, a))
  {
  }

  lemma UserKeepsPending(n: NamespacedName, s: Slot, c: Cloud, a: UserAct)
    requires UserMay(s, a) && StoreInv(n, s, c) && ClaimStays(s.claim, s.reference) && PendingInv(s)
    ensures PendingInv(UserStep(s, a))
  {
  }

  lemma UserKeepsRest(n: NamespacedName, s: Slot, c: Cloud, a: UserAct)
    requires UserMay(s, a) && StoreInv(n, s, c) && ClaimStays(s.claim, s.reference) && SecretInv(s) && ProjectInv(n, s, c)
    ensures SecretInv(UserStep(s, a)) && ProjectInv(n, UserStep(s, a), c)
  {
  }

  lemma UserKeepsReady(n: NamespacedName, s: Slot, c: Cloud, a: UserAct)
    requires UserMay(s, a) && StoreInv(n, s, c) && ClaimStays(s.claim, s.reference) && ReadyInv(s, c)
    ensures ReadyInv(UserStep(s, a), c)
  {
  }

  lemma UserKeepsInv(n: NamespacedName, s: Slot, c: Cloud, a: UserAct)
    requires UserMay(s, a) && SlotInv(n, s, c)
    ensures SlotInv(n, UserStep(s, a), c)
  {
    UserKeepsStore(n, s, c, a);
    UserKeepsClaim(n, s, c, a);
    UserKeepsPending(n, s, c, a);
    UserKeepsRest(n, s, c, a);
    UserKeepsReady(n, s, c, a);
  }

  // Updates of the claim's metadata and specification

  /** What a claim pass may write: its finalizer goes only when the reference was seen to be gone. */
  predicate ClaimEdit(p: ClaimPass, copy: Claim) {
    && p.ClaimRunning? && !p.closing
    && copy.version == p.local.version
    && copy.spec == p.local.spec.(link := copy.spec.link)
    && (FINALIZER in p.local.finalizers && FINALIZER !in copy.finalizers ==>
          p.local.deleting && p.refAbsent && (p.local.spec.ccs ==> p.released))
  }

  lemma UpdateKeepsStore(n: NamespacedName, s: Slot, c: Cloud, copy: Claim, o: Outcome)
    requires StoreInv(n, s, c) && ClaimEdit(s.claimPass, copy)
    ensures StoreInv(n, ClaimUpdate(s, copy, o), c)
  {
    if !o.Fail? && Accepted(s.claim, copy) {
      assert s.claim.value.spec == s.claimPass.local.spec;
    }
  }

  lemma UpdateKeepsClaim(n: NamespacedName, s: Slot, c: Cloud, copy: Claim, o: Outcome)
    requires StoreInv(n, s, c) && ClaimInv(s) && ClaimEdit(s.claimPass, copy)
    ensures ClaimInv(ClaimUpdate(s, copy, o))
  {
    if !o.Fail? && Accepted(s.claim, copy) {
      assert s.claim.value.spec == s.claimPass.local.spec;
    }
  }

  lemma UpdateKeepsPrepared(n: NamespacedName, s: Slot, c: Cloud, copy: Claim, o: Outcome)
    requires StoreInv(n, s, c) && ClaimInv(s) && ClaimEdit(s.claimPass, copy)
    requires PendingIsPrepared(s.claim, s.reference, s.secrets, s.claimPass)
    ensures var t := ClaimUpdate(s, copy, o); PendingIsPrepared(t.claim, t.reference, t.secrets, t.claimPass)
  {
    if !o.Fail? && Accepted(s.claim, copy) {
      assert s.claim.value.spec == s.claimPass.local.spec;
    }
  }

  lemma UpdateKeepsSnapshot(n: NamespacedName, s: Slot, c: Cloud, copy: Claim, o: Outcome)
    requires StoreInv(n, s, c) && ClaimInv(s) && ClaimEdit(s.claimPass, copy)
    requires SnapshotBinds(s.claim, s.reference, s.secrets, s.refPass)
    ensures var t := ClaimUpdate(s, copy, o); SnapshotBinds(t.claim, t.reference, t.secrets, t.refPass)
  {
    if !o.Fail? && Accepted(s.claim, copy) {
      assert s.claim.value.spec == s.claimPass.local.spec;
    }
  }

  lemma UpdateKeepsReady(n: NamespacedName, s: Slot, c: Cloud, copy: Claim, o: Outcome)
    requires StoreInv(n, s, c) && ClaimInv(s) && ReadyInv(s, c) && ClaimEdit(s.claimPass, copy)
    ensures ReadyInv(ClaimUpdate(s, copy, o), c)
  {
    if !o.Fail? && Accepted(s.claim, copy) {
      assert s.claim.value.spec == s.claimPass.local.spec;
    }
  }

  lemma UpdateKeepsSecret(n: NamespacedName, s: Slot, c: Cloud, copy: Claim, o: Outcome)
    requires StoreInv(n, s, c) && ClaimInv(s) && SecretInv(s) && ClaimEdit(s.claimPass, copy)
    ensures SecretInv(ClaimUpdate(s, copy, o))
  {
    if !o.Fail? && Accepted(s.claim, copy) {
      assert s.claim.value.spec == s.claimPass.local.spec;
    }
  }

  lemma UpdateKeepsProject(n: NamespacedName, s: Slot, c: Cloud, copy: Claim, o: Outcome)
    requires ProjectInv(n, s, c) && s.claimPass.ClaimRunning?
    ensures ProjectInv(n, ClaimUpdate(s, copy, o), c)
  {
  }

  lemma UpdateKeepsInv(n: NamespacedName, s: Slot, c: Cloud, copy: Claim, o: Outcome)
    requires SlotInv(n, s, c) && ClaimEdit(s.claimPass, copy)
    ensures SlotInv(n, ClaimUpdate(s, copy, o), c)
  {
    UpdateKeepsStore(n, s, c, copy, o);
    UpdateKeepsClaim(n, s, c, copy, o);
    UpdateKeepsPrepared(n, s, c, copy, o);
    UpdateKeepsSnapshot(n, s, c, copy, o);
    UpdateKeepsReady(n, s, c, copy, o);
    UpdateKeepsSecret(n, s, c, copy, o);
    UpdateKeepsProject(n, s, c, copy, o);
  }

  // Updates of the claim's status

  predicate ClaimStatusEdit(n: NamespacedName, p: ClaimPass, copy: Claim) {
    p.ClaimRunning? && copy == p.local.(status := copy.status) && ClaimStateMay(n, p, copy.status.state)
  }

  lemma StatusKeepsStore(n: NamespacedName, s: Slot, c: Cloud, copy: Claim, o: Outcome)
    requires StoreInv(n, s, c) && ClaimStatusEdit(n, s.claimPass, copy)
    ensures StoreInv(n, ClaimStatusUpdate(s, copy, o), c)
  {
    if !o.Fail? && Current(s.claim, copy) {
      assert s.claim.value == s.claimPass.local;
    }
  }

  lemma StatusKeepsClaim(n: NamespacedName, s: Slot, c: Cloud, copy: Claim, o: Outcome)
    requires StoreInv(n, s, c) && ClaimInv(s) && ClaimStatusEdit(n, s.claimPass, copy)
    ensures ClaimInv(ClaimStatusUpdate(s, copy, o))
  {
    if !o.Fail? && Current(s.claim, copy) {
      assert s.claim.value == s.claimPass.local;
    }
  }

  lemma StatusKeepsPrepared(n: NamespacedName, s: Slot, c: Cloud, copy: Claim, o: Outcome)
    requires StoreInv(n, s, c) && ClaimInv(s) && ClaimStatusEdit(n, s.claimPass, copy)
    requires PendingIsPrepared(s.claim, s.reference, s.secrets, s.claimPass)
    ensures var t := ClaimStatusUpdate(s, copy, o); PendingIsPrepared(t.claim, t.reference, t.secrets, t.claimPass)
  {
    if !o.Fail? && Current(s.claim, copy) {
      assert s.claim.value == s.claimPass.local;
    }
  }

  lemma StatusKeepsSnapshot(n: NamespacedName, s: Slot, c: Cloud, copy: Claim, o: Outcome)
    requires StoreInv(n, s, c) && ClaimStatusEdit(n, s.claimPass, copy)
    requires SnapshotBinds(s.claim, s.reference, s.secrets, s.refPass)
    ensures var t := ClaimStatusUpdate(s, copy, o); SnapshotBinds(t.claim, t.reference, t.secrets, t.refPass)
  {
    if !o.Fail? && Current(s.claim, copy) {
      assert s.claim.value == s.claimPass.local;
    }
  }

  lemma StatusKeepsRest(n: NamespacedName, s: Slot, c: Cloud, copy: Claim, o: Outcome)
    requires StoreInv(n, s, c) && SecretInv(s) && ProjectInv(n, s, c) && ReadyInv(s, c) && ClaimStatusEdit(n, s.claimPass, copy)
    ensures SecretInv(ClaimStatusUpdate(s, copy, o)) && ProjectInv(n, ClaimStatusUpdate(s, copy, o), c)
    ensures ReadyInv(ClaimStatusUpdate(s, copy, o), c)
  {
    if !o.Fail? && Current(s.claim, copy) {
      assert s.claim.value == s.claimPass.local;
    }
  }

  lemma StatusKeepsInv(n: NamespacedName, s: Slot, c: Cloud, copy: Claim, o: Outcome)
    requires SlotInv(n, s, c) && ClaimStatusEdit(n, s.claimPass, copy)
    ensures SlotInv(n, ClaimStatusUpdate(s, copy, o), c)
  {
    StatusKeepsStore(n, s, c, copy, o);
    StatusKeepsClaim(n, s, c, copy, o);
    StatusKeepsPrepared(n, s, c, copy, o);
    StatusKeepsSnapshot(n, s, c, copy, o);
    StatusKeepsRest(n, s, c, copy, o);
  }

  // Updates of the CCS secret

  /** The CCS finalizer comes on in a pass that builds, and goes in a pass that deletes after the reference was seen to be gone. */
  predicate SecretEdit(p: ClaimPass, copy: Secret, held: bool) {
    && p.ClaimRunning? && !p.closing && p.secret.Some? && copy == p.secret.value.(finalizers := copy.finalizers)
    && (held ==> CCS_FINALIZER in copy.finalizers && p.local.spec.ccs && !p.local.deleting && FINALIZER in p.local.finalizers)
    && (!held ==> CCS_FINALIZER !in copy.finalizers && p.local.deleting && p.refAbsent)
  }

  lemma SecretKeepsStore(n: NamespacedName, s: Slot, c: Cloud, copy: Secret, held: bool, o: Outcome)
    requires StoreInv(n, s, c) && SecretEdit(s.claimPass, copy, held)
    ensures StoreInv(n, SecretUpdate(s, copy, held, o), c)
  {
  }

  lemma SecretKeepsClaim(n: NamespacedName, s: Slot, c: Cloud, copy: Secret, held: bool, o: Outcome)
    requires StoreInv(n, s, c) && ClaimInv(s) && SecretEdit(s.claimPass, copy, held)
    ensures ClaimInv(SecretUpdate(s, copy, held, o))
  {
  }

  lemma SecretKeepsPending(n: NamespacedName, s: Slot, c: Cloud, copy: Secret, held: bool, o: Outcome)
    requires StoreInv(n, s, c) && ClaimInv(s) && PendingInv(s) && SecretEdit(s.claimPass, copy, held)
    ensures PendingInv(SecretUpdate(s, copy, held, o))
  {
  }

  lemma SecretKeepsSecret(n: NamespacedName, s: Slot, c: Cloud, copy: Secret, held: bool, o: Outcome)
    requires StoreInv(n, s, c) && ClaimInv(s) && SecretInv(s) && SecretEdit(s.claimPass, copy, held)
    ensures SecretInv(SecretUpdate(s, copy, held, o))
  {
  }

  lemma SecretKeepsRest(n: NamespacedName, s: Slot, c: Cloud, copy: Secret, held: bool, o: Outcome)
    requires StoreInv(n, s, c) && SecretInv(s) && ProjectInv(n, s, c) && ReadyInv(s, c) && SecretEdit(s.claimPass, copy, held)
    ensures ProjectInv(n, SecretUpdate(s, copy, held, o), c) && ReadyInv(SecretUpdate(s, copy, held, o), c)
  {
  }

  lemma SecretKeepsInv(n: NamespacedName, s: Slot, c: Cloud, copy: Secret, held: bool, o: Outcome)
    requires SlotInv(n, s, c) && SecretEdit(s.claimPass, copy, held)
    ensures SlotInv(n, SecretUpdate(s, copy, held, o), c)
  {
    SecretKeepsStore(n, s, c, copy, held, o);
    SecretKeepsClaim(n, s, c, copy, held, o);
    SecretKeepsPending(n, s, c, copy, held, o);
    SecretKeepsSecret(n, s, c, copy, held, o);
    SecretKeepsRest(n, s, c, copy, held, o);
  }

  // Reads

  lemma NewPassKeepsInv(n: NamespacedName, s: Slot, c: Cloud, p: ClaimPass)
    requires SlotInv(n, s, c)
    requires FreshClaimPass(s.clock, s.claim, s.secrets, p)
    requires ClaimPassKnows(s.claim, s.reference, s.secrets, p, s.referenceDisturbed)
    requires ClaimPassServes(s.claim, s.secrets, s.traces.forged, p)
    requires PendingIsPrepared(s.claim, s.reference, s.secrets, p)
    ensures SlotInv(n, s.(claimPass := p), c)
  {
  }

  predicate OnlyReads(a: ClaimAct) {
    a.CStart? || a.CEnd? || a.CReadReference? || a.CReadSecret?
  }

  lemma ReadLearns(n: NamespacedName, s: Slot, c: Cloud, a: ClaimAct, o: Outcome)
    requires ClaimMay(n, s, a) && OnlyReads(a)
    requires FreshStore(s.clock, s.claim, s.reference, s.secrets) && FreshClaimPass(s.clock, s.claim, s.secrets, s.claimPass)
    requires ClaimInv(s) && PendingIsPrepared(s.claim, s.reference, s.secrets, s.claimPass)
    ensures var t := ClaimStep(n, s, a, o);
            && t == s.(claimPass := t.claimPass)
            && FreshClaimPass(s.clock, s.claim, s.secrets, t.claimPass)
            && ClaimPassKnows(s.claim, s.reference, s.secrets, t.claimPass, s.referenceDisturbed)
            && ClaimPassServes(s.claim, s.secrets, s.traces.forged, t.claimPass)
            && PendingIsPrepared(s.claim, s.reference, s.secrets, t.claimPass)
  {
  }

  // Creating and deleting the reference

  lemma CreationKeepsClaim(n: NamespacedName, s: Slot, c: Cloud, o: Outcome)
    requires ClaimMay(n, s, CCreateReference) && SlotInv(n, s, c)
    ensures ClaimInv(ReferenceCreation(n, s, o)) && PendingInv(ReferenceCreation(n, s, o))
  {
  }

  lemma CreationKeepsInv(n: NamespacedName, s: Slot, c: Cloud, o: Outcome)
    requires ClaimMay(n, s, CCreateReference) && SlotInv(n, s, c)
    ensures SlotInv(n, ReferenceCreation(n, s, o), c)
  {
    CreationKeepsClaim(n, s, c, o);
  }

  /** Apart from the pass and from the blame, deleting the reference does what a user's deletion does. */
  lemma DeletionIsAUsers(s: Slot, o: Outcome)
    requires s.claimPass.ClaimRunning?
    ensures var t := ReferenceDeletion(s, o);
            t.claimPass == s.claimPass.(reply := t.claimPass.reply)
            && t == (if o.Fail? || s.reference.None? then s else UserStep(s, DeleteReference)).(
                      claimPass := t.claimPass, referenceDisturbed := s.referenceDisturbed)
  {
  }

  /** Neither the reply nor the blame matters to the rest of the invariant. */
  lemma ReplyAndBlame(n: NamespacedName, s: Slot, c: Cloud, reply: Error, disturbed: bool)
    requires s.claimPass.ClaimRunning? && StoreInv(n, s, c) && PendingInv(s) && SecretInv(s) && ProjectInv(n, s, c) && ReadyInv(s, c)
    ensures var t := s.(claimPass := s.claimPass.(reply := reply), referenceDisturbed := disturbed);
            StoreInv(n, t, c) && PendingInv(t) && SecretInv(t) && ProjectInv(n, t, c) && ReadyInv(t, c)
  {
  }

  lemma DeletionKeepsClaim(n: NamespacedName, s: Slot, c: Cloud, o: Outcome)
    requires s.claimPass.ClaimRunning? && !s.claimPass.closing && s.claimPass.local.deleting && StoreInv(n, s, c) && ClaimInv(s)
    ensures ClaimInv(ReferenceDeletion(s, o))
  {
  }

  lemma DeletionKeepsInv(n: NamespacedName, s: Slot, c: Cloud, o: Outcome)
    requires ClaimMay(n, s, CDeleteReference) && SlotInv(n, s, c)
    ensures SlotInv(n, ReferenceDeletion(s, o), c)
  {
    var t := ReferenceDeletion(s, o);
    DeletionIsAUsers(s, o);
    DeletionKeepsClaim(n, s, c, o);
    var u := if o.Fail? || s.reference.None? then s else UserStep(s, DeleteReference);
    if !o.Fail? && s.reference.Some? {
      UserKeepsInv(n, s, c, DeleteReference);
    }
    ReplyAndBlame(n, u, c, t.claimPass.reply, s.referenceDisturbed);
  }

  /** Every step of the claim controller keeps the invariant. */
  lemma ClaimKeepsInv(n: NamespacedName, s: Slot, c: Cloud, a: ClaimAct, o: Outcome)
    requires ClaimMay(n, s, a) && SlotInv(n, s, c)
    ensures SlotInv(n, ClaimStep(n, s, a, o), c)
  {
    var p := s.claimPass;
    match a
    case CCreateReference => CreationKeepsInv(n, s, c, o);
    case CDeleteReference => DeletionKeepsInv(n, s, c, o);
    case CSetLink => UpdateKeepsInv(n, s, c, p.local.(spec := p.local.spec.(link := ReferenceName(n))), o);
    case CAddFinalizer => UpdateKeepsInv(n, s, c, p.local.(finalizers := p.local.finalizers + [FINALIZER]), o);
    case CDropFinalizer => UpdateKeepsInv(n, s, c, p.local.(finalizers := Filtered(p.local.finalizers, FINALIZER)), o);
    case CStatus(status) => StatusKeepsInv(n, s, c, p.local.(status := status), o);
    case CHoldSecret =>
      SecretKeepsInv(n, s, c, p.secret.value.(finalizers := p.secret.value.finalizers + [CCS_FINALIZER]), true, o);
    case CReleaseSecret =>
      SecretKeepsInv(n, s, c, p.secret.value.(finalizers := Filtered(p.secret.value.finalizers, CCS_FINALIZER)), false, o);
    case _ =>
      ReadLearns(n, s, c, a, o);
      NewPassKeepsInv(n, s, c, ClaimStep(n, s, a, o).claimPass);
  }
}
