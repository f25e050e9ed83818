/** What holds in every state of every run: whatever the interleaving, the failures and the crashes. */
module Safety {
  import opened Lists
  import opened Objects
  import opened Protocol
  import opened Invariant
  import ClaimSteps
  import ReferenceSteps
  import CloudSteps

  lemma AddingIsAllowed(n: NamespacedName, s: Slot, c: Cloud, a: ReferenceAct)
    requires StoreInv(n, s, c) && "" !in c.projects && ReferenceMay(n, s, c, a) && (a.RAddFinalizer? || a.RClearID?)
    ensures ReferenceSteps.ReferenceEdit(n, s.refPass, c, Edited(s.refPass.local, a))
  {
  }

  lemma DroppingIsAllowed(n: NamespacedName, s: Slot, c: Cloud)
    requires StoreInv(n, s, c) && ReferenceMay(n, s, c, RDropFinalizer)
    ensures ReferenceSteps.ReferenceEdit(n, s.refPass, c, Edited(s.refPass.local, RDropFinalizer))
  {
    assert Filtered([FINALIZER], FINALIZER) == [];
    assert Filtered([], FINALIZER) == [];
  }

  lemma MintedIDIsAllowed(n: NamespacedName, s: Slot, c: Cloud, id: string)
    requires StoreInv(n, s, c) && ReferenceMay(n, s, c, RMintID(id))
    ensures ReferenceSteps.ReferenceEdit(n, s.refPass, c.(ids := c.ids[id := n]), Edited(s.refPass.local, RMintID(id)))
  {
  }

  lemma MintedAccountIsAllowed(n: NamespacedName, s: Slot, c: Cloud, account: string)
    requires StoreInv(n, s, c) && ReferenceMay(n, s, c, RMintAccount(account))
    ensures var d := c.(accountNames := c.accountNames[account := n]);
            ReferenceSteps.ReferenceEdit(n, s.refPass, d, Edited(s.refPass.local, RMintAccount(account)))
  {
  }

  predicate HandsOver(a: ReferenceAct) {
    a.RSetZones? || a.RPublishID? || a.RClaimReady?
  }

  /** The cloud once the name that an edit brings in is made. */
  function Minted(n: NamespacedName, c: Cloud, a: ReferenceAct): Cloud {
    match a
    case RMintID(id) => c.(ids := c.ids[id := n])
    case RMintAccount(account) => c.(accountNames := c.accountNames[account := n])
    case _ => c
  }

  lemma EditIsAllowed(n: NamespacedName, s: Slot, c: Cloud, a: ReferenceAct)
    requires ReferenceMay(n, s, c, a) && EditsReference(a) && StoreInv(n, s, c) && "" !in c.projects
    ensures ReferenceSteps.ReferenceEdit(n, s.refPass, Minted(n, c, a), Edited(s.refPass.local, a))
  {
    if a.RMintID? {
      MintedIDIsAllowed(n, s, c, a.id);
    } else if a.RMintAccount? {
      MintedAccountIsAllowed(n, s, c, a.accountName);
    } else if a.RDropFinalizer? {
      DroppingIsAllowed(n, s, c);
    } else {
      AddingIsAllowed(n, s, c, a);
    }
  }

  lemma MintingKeepsInv(n: NamespacedName, s: Slot, c: Cloud, a: ReferenceAct)
    requires ReferenceMay(n, s, c, a) && SlotInv(n, s, c)
    ensures SlotInv(n, s, Minted(n, c, a))
  {
    if a.RMintID? {
      CloudSteps.MintedIDKeepsInv(n, s, c, a.id);
    } else if a.RMintAccount? {
      CloudSteps.MintedAccountKeepsInv(n, s, c, a.accountName);
    }
  }

  lemma EditedSlot(n: NamespacedName, s: Slot, c: Cloud, a: ReferenceAct, o: Outcome)
    requires ReferenceMay(n, s, c, a) && EditsReference(a)
    ensures ReferenceStep(n, s, c, a, o) == ReferenceUpdate(s, Edited(s.refPass.local, a), o)
  {
    assert ReferenceStep(n, s, c, a, o) == ReferenceStoreStep(n, s, c, a, o);
  }

  lemma EditedCloud(n: NamespacedName, s: Slot, c: Cloud, a: ReferenceAct, o: Outcome)
    requires ReferenceMay(n, s, c, a) && EditsReference(a) && "" !in c.projects && Linked(s.reference, s.refPass)
    ensures CloudStep(n, s, c, a, o) == CloudAfterUpdate(s, Minted(n, c, a), Edited(s.refPass.local, a), o)
  {
    if a.RMintID? {
      assert s.refPass.project !in c.projects;
    } else if !a.RClearID? {
      assert Edited(s.refPass.local, a).spec.projectID == s.refPass.project;
    }
  }

  lemma EditKeepsInv(n: NamespacedName, s: Slot, c: Cloud, a: ReferenceAct, o: Outcome)
    requires ReferenceMay(n, s, c, a) && EditsReference(a) && SlotInv(n, s, c)
    ensures SlotInv(n, ReferenceStep(n, s, c, a, o), CloudStep(n, s, c, a, o))
  {
    EditIsAllowed(n, s, c, a);
    MintingKeepsInv(n, s, c, a);
    EditedSlot(n, s, c, a, o);
    EditedCloud(n, s, c, a, o);
    ReferenceSteps.UpdateKeepsInv(n, s, Minted(n, c, a), Edited(s.refPass.local, a), o);
  }

  lemma HandOverKeepsInv(n: NamespacedName, s: Slot, c: Cloud, a: ReferenceAct, o: Outcome)
    requires ReferenceMay(n, s, c, a) && HandsOver(a) && SlotInv(n, s, c)
    ensures SlotInv(n, ReferenceStoreStep(n, s, c, a, o), c)
  {
    var p, claim := s.refPass, s.refPass.claim.value;
    match a
    case RSetZones(zones) =>
      ReferenceSteps.HandOverKeepsInv(n, s, c, claim.(spec := claim.spec.(zones := zones)), s.published, o);
    case RPublishID =>
      ReferenceSteps.HandOverKeepsInv(n, s, c, claim.(spec := claim.spec.(projectID := p.local.spec.projectID)),
                                      Some(p.local.spec.projectID), o);
    case RClaimReady =>
      ReferenceSteps.ClaimReadyKeepsInv(n, s, c, claim.(status := claim.status.(state := ClaimState.Ready)), o);
  }

  lemma OtherStoreStepKeepsInv(n: NamespacedName, s: Slot, c: Cloud, a: ReferenceAct, o: Outcome)
    requires ReferenceMay(n, s, c, a) && !OnCloud(a) && !EditsReference(a) && !HandsOver(a) && SlotInv(n, s, c)
    ensures SlotInv(n, ReferenceStoreStep(n, s, c, a, o), c)
  {
    match a
    case RStart => ReferenceSteps.StartKeepsInv(n, s, c);
    case REnd => ReferenceSteps.EndKeepsInv(n, s, c);
    case RReadClaim => ReferenceSteps.ClaimReadKeepsInv(n, s, c, o);
    case RStatus(status) => ReferenceSteps.StatusKeepsInv(n, s, c, s.refPass.local.(status := status), o);
    case RReadSecret => ReferenceSteps.SecretReadKeepsInv(n, s, c, o);
    case RCreateSecret => ReferenceSteps.SecretCreationKeepsInv(n, s, c, o);
    case RDeleteSecret => ReferenceSteps.SecretDeletionKeepsInv(n, s, c, o);
  }

  /** Every step of the reference controller keeps the invariant. */
  lemma ReferenceKeepsInv(n: NamespacedName, s: Slot, c: Cloud, a: ReferenceAct, o: Outcome)
    requires ReferenceMay(n, s, c, a) && SlotInv(n, s, c)
    ensures SlotInv(n, ReferenceStep(n, s, c, a, o), CloudStep(n, s, c, a, o))
  {
    if OnCloud(a) {
      CloudSteps.OwnCallKeepsInv(n, s, c, a, o);
    } else if EditsReference(a) {
      EditKeepsInv(n, s, c, a, o);
    } else if HandsOver(a) {
      HandOverKeepsInv(n, s, c, a, o);
    } else {
      OtherStoreStepKeepsInv(n, s, c, a, o);
    }
  }

  lemma OthersKeepInv(n: NamespacedName, m: NamespacedName, s: Slot, t: Slot, c: Cloud, a: ReferenceAct, o: Outcome)
    requires m != n && ReferenceMay(n, s, c, a) && SlotInv(n, s, c) && SlotInv(m, t, c)
    ensures SlotInv(m, t, CloudStep(n, s, c, a, o))
  {
    if OnCloud(a) {
      CloudSteps.OwnCallIsReliable(n, m, s, c, a, o);
    } else if a.RClearID? {
      CloudSteps.ClearingIsReliable(n, m, s, t, c, o);
    } else {
      CloudSteps.MintingIsReliable(n, m, s, c, a, o);
    }
    CloudSteps.FrameKeepsInv(m, t, c, CloudStep(n, s, c, a, o));
  }

  lemma ReferenceStepKeepsInv(s: System, n: NamespacedName, a: ReferenceAct, o: Outcome, m: NamespacedName)
    requires Inv(s) && Enabled(s, ByReferenceController(n, a, o)) && m in s.slots
    ensures var t := Apply(s, ByReferenceController(n, a, o)); SlotInv(m, t.slots[m], t.cloud)
  {
    if m == n {
      ReferenceKeepsInv(n, s.slots[n], s.cloud, a, o);
    } else {
      OthersKeepInv(n, m, s.slots[n], s.slots[m], s.cloud, a, o);
    }
  }

  lemma OutsiderKeepsInv(s: System, id: string, q: Project, m: NamespacedName)
    requires Inv(s) && OutsiderMay(s.cloud, id, q) && m in s.slots
    ensures SlotInv(m, s.slots[m], s.cloud.(projects := s.cloud.projects[id := q]))
  {
    CloudSteps.OutsidersAreReliable(m, s.cloud, id, q);
    CloudSteps.FrameKeepsInv(m, s.slots[m], s.cloud, s.cloud.(projects := s.cloud.projects[id := q]));
  }

  lemma StepKeepsInv(s: System, l: Label)
    requires Inv(s) && Enabled(s, l)
    ensures Inv(Apply(s, l))
  {
    var t := Apply(s, l);
    forall m | m in t.slots ensures SlotInv(m, t.slots[m], t.cloud) {
      match l
      case ByUser(n, a) => if m == n { ClaimSteps.UserKeepsInv(n, s.slots[n], s.cloud, a); }
      case ByClaimController(n, a, o) => if m == n { ClaimSteps.ClaimKeepsInv(n, s.slots[n], s.cloud, a, o); }
      case ByReferenceController(n, a, o) => ReferenceStepKeepsInv(s, n, a, o, m);
      case ByOutsider(id, q) => OutsiderKeepsInv(s, id, q, m);
    }
  }

  lemma InitHasInv(s: System)
    requires Init(s)
    ensures Inv(s)
  {
  }

  lemma {:induction false} RunKeepsInv(run: seq<System>, i: nat)
    requires IsRun(run) && Init(run[0]) && i < |run|
    ensures Inv(run[i])
  {
    if i == 0 {
      InitHasInv(run[0]);
    } else {
      RunKeepsInv(run, i - 1);
      assert StepAt(run, i - 1);
      var l :| Enabled(run[i - 1], l) && run[i] == Apply(run[i - 1], l);
      StepKeepsInv(run[i - 1], l);
    }
  }

  lemma ReachableHasInv(s: System)
    requires Reachable(s)
    ensures Inv(s)
  {
    var run :| LeadsTo(run, s);
    RunKeepsInv(run, |run| - 1);
  }
}
