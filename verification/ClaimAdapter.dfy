/** The claim controller's operations, in the form of the code that runs them. Every call they make is a step of the protocol. */
module ClaimAdapters {
  import opened Operations
  import opened Lists
  import opened Conditions
  import opened Objects
  import opened Protocol
  import opened Shapes
  import opened Worlds

  // What the calls of a pass do to it

  predicate EditsClaim(a: ClaimAct) {
    a.CSetLink? || a.CAddFinalizer? || a.CDropFinalizer?
  }

  /** The copy of the claim that an update sends. */
  function EditedClaim(n: NamespacedName, local: Claim, a: ClaimAct): Claim {
    match a
    case CSetLink => local.(spec := local.spec.(link := ReferenceName(n)))
    case CAddFinalizer => local.(finalizers := local.finalizers + [FINALIZER])
    case CDropFinalizer => local.(finalizers := Filtered(local.finalizers, FINALIZER))
    case _ => local
  }

  /** A write of the pass's own object: it is taken, or the pass keeps the copy it had. */
  predicate Stores(before: ClaimPass, after: ClaimPass) {
    && before.ClaimRunning? && after.ClaimRunning?
    && after == before.(closing := true, wrote := after.wrote, local := after.local, reply := after.reply)
    && (before.wrote || after.reply == NoError ==> after.wrote) && (after.reply != NoError ==> after.local == before.local)
  }

  /** Nothing is left to do for the claim, as far as the pass has seen. */
  predicate SeenAtRest(n: NamespacedName, p: ClaimPass) {
    p.ClaimRunning? &&
    if p.local.deleting then FINALIZER !in p.local.finalizers && p.refAbsent
    else
      && ValidClaim(n, p.local.spec) && p.local.status.conditions.Some? && p.local.status.state in {PendingProject, ClaimState.Ready}
      && p.refSeen && p.local.spec.link == ReferenceName(n) && FINALIZER in p.local.finalizers && (p.local.spec.ccs ==> p.held)
  }

  /** The controller does not forget the claim: it runs again after a while, or because it has written the claim;
      or the pass has seen that there is nothing left to do. */
  predicate KeptInMind(n: NamespacedName, p: ClaimPass, delay: nat) {
    p.ClaimRunning? && (delay > 0 || p.wrote || SeenAtRest(n, p))
  }

  lemma StoredInMind(n: NamespacedName, before: ClaimPass, after: ClaimPass, delay: nat)
    requires Stores(before, after) && KeptInMind(n, before, delay)
    ensures KeptInMind(n, after, delay)
  {
  }

  lemma EditStep(n: NamespacedName, s: Slot, a: ClaimAct, o: Outcome)
    requires ClaimMay(n, s, a) && EditsClaim(a)
    ensures ClaimStep(n, s, a, o) == ClaimUpdate(s, EditedClaim(n, s.claimPass.local, a), o)
  {
  }

  lemma UpdateEffect(s: Slot, copy: Claim, o: Outcome)
    requires s.claimPass.ClaimRunning?
    ensures var t, p := ClaimUpdate(s, copy, o), s.claimPass;
            && Stores(p, t.claimPass)
            && (t.claimPass.reply == NoError ==> t.claimPass.local.spec == copy.spec && t.claimPass.local.finalizers == copy.finalizers)
            && t.reference == s.reference && t.secrets == s.secrets
  {
  }

  /** An update of the stored object that nobody disturbs. */
  lemma SmoothUpdate(s: Slot, copy: Claim)
    requires s.claimPass.ClaimRunning? && s.claim == Some(s.claimPass.local)
    requires copy == s.claimPass.local.(finalizers := copy.finalizers, spec := copy.spec)
    requires copy.deleting ==> forall f :: f in copy.finalizers ==> f in s.claimPass.local.finalizers
    ensures var t := ClaimUpdate(s, copy, Ok);
            && t.claimPass.reply == NoError && t.claimPass.local == copy.(version := s.clock) && t.claim == Kept(t.claimPass.local)
  {
  }

  lemma StatusStep(n: NamespacedName, s: Slot, status: ClaimStatus, o: Outcome)
    requires ClaimMay(n, s, CStatus(status))
    ensures var t, p := ClaimStep(n, s, CStatus(status), o), s.claimPass;
            && Stores(p, t.claimPass) && (t.claimPass.reply == NoError ==> t.claimPass.local.status == status)
            && t.reference == s.reference && t.secrets == s.secrets
            && (s.claim == Some(p.local) && o == Ok ==>
                  t.claimPass.reply == NoError && t.claimPass.local == p.local.(version := s.clock, status := status)
                  && t.claim == Some(t.claimPass.local))
            && (s.claim.None? ==> t.claim.None?)
  {
  }

  lemma ReadReferenceStep(n: NamespacedName, s: Slot, o: Outcome)
    requires ClaimMay(n, s, CReadReference)
    ensures var t, p := ClaimStep(n, s, CReadReference, o), s.claimPass;
            && t == s.(claimPass := t.claimPass)
            && t.claimPass == p.(reply := t.claimPass.reply, refAbsent := t.claimPass.refAbsent, refSeen := t.claimPass.refSeen)
            && (t.claimPass.reply == NoError ==> t.claimPass.refSeen)
            && (t.claimPass.reply == NotFound ==> t.claimPass.refAbsent)
            && (o == Ok ==> t.claimPass.reply == if s.reference.Some? then NoError else NotFound)
  {
  }

  lemma CreateReferenceStep(n: NamespacedName, s: Slot, o: Outcome)
    requires ClaimMay(n, s, CCreateReference)
    ensures var t, p := ClaimStep(n, s, CCreateReference, o), s.claimPass;
            && t.claim == s.claim && t.secrets == s.secrets
            && t.claimPass == p.(reply := t.claimPass.reply, refAbsent := t.claimPass.refAbsent, refSeen := t.claimPass.refSeen)
            && (t.claimPass.reply == NoError ==> t.claimPass.refSeen)
            && (o == Ok && s.reference.None? ==>
                  t.claimPass.reply == NoError && t.reference == Some(NewReference(n, p.local.spec, s.clock)))
  {
  }

  lemma DeleteReferenceStep(n: NamespacedName, s: Slot, o: Outcome)
    requires ClaimMay(n, s, CDeleteReference)
    ensures var t, p := ClaimStep(n, s, CDeleteReference, o), s.claimPass;
            && t.claim == s.claim && t.secrets == s.secrets
            && t.claimPass == p.(reply := t.claimPass.reply)
            && (o == Ok && s.reference.Some? ==>
                  t.claimPass.reply == NoError && t.reference == Deleted(s.reference.value, s.clock))
  {
  }

  lemma ReadSecretStep(n: NamespacedName, s: Slot, o: Outcome)
    requires ClaimMay(n, s, CReadSecret)
    ensures var t, p := ClaimStep(n, s, CReadSecret, o), s.claimPass;
            var key := p.local.spec.ccsSecret;
            && t == s.(claimPass := t.claimPass)
            && t.claimPass == p.(reply := t.claimPass.reply, secret := t.claimPass.secret, held := t.claimPass.held, released := t.claimPass.released)
            && (t.claimPass.reply == NoError ==>
                  && t.claimPass.secret.Some?
                  && (if CCS_FINALIZER in t.claimPass.secret.value.finalizers then t.claimPass.held else t.claimPass.released))
            && (t.claimPass.reply == NotFound ==> t.claimPass.released)
            && (o == Ok ==>
                  && (t.claimPass.reply == NoError <==> key in s.secrets)
                  && (t.claimPass.reply != NoError ==> t.claimPass.reply == NotFound)
                  && (key in s.secrets ==> t.claimPass.secret == Some(s.secrets[key])))
  {
  }

  lemma EditSecretStep(n: NamespacedName, s: Slot, a: ClaimAct, o: Outcome)
    requires ClaimMay(n, s, a) && (a.CHoldSecret? || a.CReleaseSecret?)
    ensures var t, p := ClaimStep(n, s, a, o), s.claimPass;
            var key := p.local.spec.ccsSecret;
            && t.claim == s.claim && t.reference == s.reference
            && t.claimPass == p.(reply := t.claimPass.reply, secret := t.claimPass.secret, held := t.claimPass.held, released := t.claimPass.released)
            && (t.claimPass.reply == NoError ==> if a.CHoldSecret? then t.claimPass.held else t.claimPass.released)
            && (o == Ok && key in s.secrets && p.secret == Some(s.secrets[key]) ==>
                  && (a.CReleaseSecret? || !s.secrets[key].deleting ==> t.claimPass.reply == NoError)
                  && (a.CReleaseSecret? ==> key !in t.secrets || CCS_FINALIZER !in t.secrets[key].finalizers)
                  && (a.CHoldSecret? && t.claimPass.reply == NoError ==>
                        s.secrets.Keys == t.secrets.Keys && CCS_FINALIZER in t.secrets[key].finalizers))
  {
  }

  /** Reporting a kind of condition as resolved settles it and leaves the other kinds as they were. */
  lemma ResolvedConditions(conditions: seq<Condition>, kind: ConditionType, reason: string, now: Time, other: ConditionType, otherReason: string)
    ensures var after := Some(Set(conditions, kind, False, reason + "Resolved", "", now));
            && !Unresolved(after, kind, reason)
            && (other != kind ==> Unresolved(after, other, otherReason) == Unresolved(Some(conditions), other, otherReason))
  {
    SetMeaning(conditions, kind, False, reason + "Resolved", "", now);
  }

  /** The claim needs nothing more from its controller. */
  predicate SettledClaim(n: NamespacedName, c: ClaimShape) {
    && !c.deleting && c.initialized && !c.invalid && !c.failing && c.state in {PendingProject, ClaimState.Ready}
    && c.spec.link == ReferenceName(n) && FINALIZER in c.finalizers
  }

  /** A customer's secret carries the operator's finalizer. */
  predicate HoldsSecret(claim: Option<Claim>, secrets: map<NamespacedName, Secret>) {
    claim.Some? && claim.value.spec.ccs ==>
      var key := claim.value.spec.ccsSecret; key in secrets && CCS_FINALIZER in secrets[key].finalizers
  }

  predicate SettledSlot(n: NamespacedName, s: Slot) {
    && s.claim.Some? && s.reference.Some? && SettledClaim(n, ClaimShapeOf(s.claim.value)) && HoldsSecret(s.claim, s.secrets)
  }

  /** What an undisturbed pass leaves: the objects one stage further, nothing in the way of the next pass,
      and no change at all where nothing more was needed. */
  ghost predicate PassDone(n: NamespacedName, start: Slot, s: Slot, disabledRegions: seq<string>) {
    && start.claim.Some? && s.refPass == start.refPass
    && ShapeOf(s.claim, s.reference) == ClaimAdvance(n, ShapeOf(start.claim, start.reference))
    && (s.claim.Some? ==> FavourableClaim(n, s.claim, s.secrets, disabledRegions))
    && (s.reference.Some? && start.reference.Some? ==> start.secrets.Keys == s.secrets.Keys)
    && (!start.claim.value.deleting && HoldsSecret(start.claim, start.secrets) ==> HoldsSecret(s.claim, s.secrets))
    && (SettledSlot(n, start) ==> s == start.(claimPass := s.claimPass))
  }

  function WithReference(n: NamespacedName, x: Shape): Shape
    requires x.claim.Some?
  {
    if x.reference.Some? then x else x.(reference := Some(NewReferenceShape(n, x.claim.value.spec)))
  }

  class ClaimAdapter {
    const world: World
    const name: NamespacedName
    var projectClaim: Claim
    /** The reference as it would be built from the claim: never the stored one. */
    const projectReference: Reference
    /** Nothing stands in the way of this pass, and nobody disturbs it. */
    ghost const smooth: bool
    /** The slot the pass started from. */
    ghost const start: Slot
    ghost const cloud: Cloud

    constructor (world: World, name: NamespacedName, claim: Claim, ghost smooth: bool, ghost start: Slot, ghost cloud: Cloud)
      ensures this.world == world && this.name == name && this.smooth == smooth && this.start == start && this.cloud == cloud
      ensures projectClaim == claim && BuiltFrom(name, claim.spec, projectReference.spec)
      ensures projectReference == Object(0, false, [], projectReference.spec, ReferenceStatus(None, RefUnset))
    {
      this.world := world;
      this.name := name;
      this.projectClaim := claim;
      this.projectReference := NewReference(name, claim.spec, 0);
      this.smooth := smooth;
      this.start := start;
      this.cloud := cloud;
    }

    function TheSlot(): Slot
      requires name in world.sys.slots
      reads world
    {
      world.sys.slots[name]
    }

    function Pass(): ClaimPass
      requires name in world.sys.slots
      reads world
    {
      world.sys.slots[name].claimPass
    }

    ghost function TheShape(): Shape
      requires name in world.sys.slots
      reads world
    {
      ShapeOf(TheSlot().claim, TheSlot().reference)
    }

    /** A pass is under way, and the status in memory is one that it may store at its end. */
    ghost predicate Attached()
      reads this, world
    {
      && world.Valid() && name in world.sys.slots && Pass().ClaimRunning? && !projectReference.deleting
      && ClaimStateMay(name, Pass(), projectClaim.status.state)
      && (smooth ==>
            && world.quiet && world.sys.cloud == cloud && TheSlot().refPass == start.refPass
            && (TheSlot().claim.Some? ==>
                  && TheSlot().claim == Some(Pass().local)
                  && projectClaim.status.conditions == Pass().local.status.conditions
                  && FavourableClaim(name, TheSlot().claim, TheSlot().secrets, world.config.disabledRegions)
                  && start.claim.Some? && Pass().local.deleting == start.claim.value.deleting
                  && (!Pass().local.deleting && HoldsSecret(start.claim, start.secrets) ==>
                        HoldsSecret(TheSlot().claim, TheSlot().secrets))))
    }

    /** The pass has not written the claim yet: what it has in memory is what it read, but for an error it may have taken back. */
    ghost predicate Working()
      reads this, world
    {
      && Attached() && !Pass().closing
      && projectClaim == Pass().local.(status := Pass().local.status.(state := projectClaim.status.state))
      && (projectClaim.status.state == Pass().local.status.state
          || (Pass().local.status.state == ClaimState.Error && projectClaim.status.state == Pending))
      && (smooth ==> TheSlot().claim.Some?)
    }

    /** What the first operations have found out when they let the later ones go on. */
    ghost predicate Facts(done: nat)
      requires Working()
      reads this, world
    {
      && (done <= 3 ==> projectClaim.status == Pass().local.status)
      && (done > 0 ==> !projectClaim.deleting)
      && (done > 1 ==> ValidClaim(name, projectClaim.spec))
      && (done > 2 ==> projectClaim.status.conditions.Some?)
      && (done > 3 ==> projectClaim.status.state != ClaimState.Error
                       && (smooth ==> !Unresolved(projectClaim.status.conditions, ConditionInvalid, REGION_CHECK_FAILED)))
      && (done > 4 ==> projectClaim.status.state != Unset)
      && (done > 5 ==> Pass().refSeen)
      && (done > 6 ==> projectClaim.spec.link == ReferenceName(name))
      && (done > 7 ==> FINALIZER in projectClaim.finalizers)
      && (done > 8 ==> projectClaim.spec.ccs ==> Pass().held)
      && (done > 9 ==> projectClaim.status.state != Pending)
    }

    /** The objects before the operations that are done, and after them. */
    ghost predicate Reached(done: nat, before: Shape)
      requires name in world.sys.slots
      reads this, world
    {
      && before.claim.Some? && TheShape() == (if done > 5 then WithReference(name, before) else before)
      && (start.reference.Some? ==> start.secrets.Keys == TheSlot().secrets.Keys)
    }

    ghost predicate Untouched()
      requires name in world.sys.slots
      reads this, world
    {
      TheSlot() == start.(claimPass := Pass())
    }

    /** What every operation promises: the state is fit for the next one if the loop goes on;
        otherwise, if nothing stood in the way, the stored objects are what the whole pass makes of them. */
    ghost predicate Leaves(done: nat, result: OperationResult, err: Error, before: Shape)
      reads this, world
    {
      && Attached()
      && (GoesOn(result, err) ==> Working() && Facts(done) && (smooth ==> Reached(done, before)))
      && (!GoesOn(result, err) && smooth ==>
            && err == NoError && before.claim.Some? && TheShape() == Handled(name, before)
            && (TheSlot().claim.Some? ==> projectClaim.status == Pass().local.status)
            && (TheSlot().reference.Some? && start.reference.Some? ==> start.secrets.Keys == TheSlot().secrets.Keys)
            && (before.claim.value.deleting && before.reference.Some? ==> result.requeue && result.delay > 0))
      && (!GoesOn(result, err) && err == NoError ==> KeptInMind(name, Pass(), if result.requeue then result.delay else 0))
      && (smooth && SettledSlot(name, start) ==> GoesOn(result, err) && Untouched())
    }

    ghost predicate Ready(done: nat, before: Shape)
      reads this, world
    {
      && Working() && Facts(done)
      && (smooth ==> Reached(done, before) && (SettledSlot(name, start) ==> Untouched()))
    }

    // Calls

    method Update(a: ClaimAct) returns (err: Error)
      requires Attached() && !Pass().closing && EditsClaim(a) && ClaimMay(name, TheSlot(), a)
      requires projectClaim == EditedClaim(name, Pass().local, a).(status := projectClaim.status)
      requires projectClaim.status.state == Pass().local.status.state
               || (Pass().local.status.state == ClaimState.Error && projectClaim.status.state == Pending)
      requires smooth ==> TheSlot().claim.Some?
      modifies world, this`projectClaim
      ensures Attached() && err == Pass().reply && Stores(old(Pass()), Pass())
      ensures err == NoError ==> Pass().local.spec == old(projectClaim.spec) && Pass().local.finalizers == old(projectClaim.finalizers)
      ensures smooth ==>
                && err == NoError && TheSlot().reference == old(TheSlot().reference) && TheSlot().secrets == old(TheSlot().secrets)
                && (TheSlot().claim == if old(projectClaim.deleting && projectClaim.finalizers == []) then None else Some(projectClaim))
                && projectClaim == old(projectClaim.(version := TheSlot().clock, status := Pass().local.status)) == Pass().local
    {
      ghost var s, o;
      ghost var copy := EditedClaim(name, Pass().local, a);
      err, s, o := world.ClaimCall(name, a);
      EditStep(name, s, a, o);
      UpdateEffect(s, copy, o);
      if smooth {
        SmoothUpdate(s, copy);
      }
      if err == NoError {
        projectClaim := Pass().local;
      }
    }

    /** Stores the status in memory; an answer replaces the copy in memory. */
    method StatusUpdate() returns (err: Error)
      requires world.Valid() && name in world.sys.slots && Pass().ClaimRunning? && !projectReference.deleting
      requires ClaimStateMay(name, Pass(), projectClaim.status.state)
      requires smooth ==>
                 && world.quiet && world.sys.cloud == cloud && TheSlot().refPass == start.refPass
                 && (TheSlot().claim.Some? ==>
                       && TheSlot().claim == Some(Pass().local)
                       && FavourableClaim(name, TheSlot().claim, TheSlot().secrets, world.config.disabledRegions)
                       && start.claim.Some? && Pass().local.deleting == start.claim.value.deleting
                       && (!Pass().local.deleting && HoldsSecret(start.claim, start.secrets) ==>
                             HoldsSecret(TheSlot().claim, TheSlot().secrets)))
      modifies world, this`projectClaim
      ensures Attached() && projectClaim.status == old(projectClaim.status) && err == Pass().reply && Stores(old(Pass()), Pass())
      ensures err == NoError ==> Pass().local.status == projectClaim.status
      ensures smooth && old(TheSlot().claim.Some?) ==>
                && err == NoError && TheSlot().reference == old(TheSlot().reference) && TheSlot().secrets == old(TheSlot().secrets)
                && TheSlot().claim == Some(projectClaim) && projectClaim.status == old(projectClaim.status) && projectClaim == Pass().local
                && projectClaim == old(Pass().local.(version := TheSlot().clock, status := projectClaim.status))
      ensures smooth && old(TheSlot().claim.None?) ==>
                TheSlot().claim.None? && TheSlot().reference == old(TheSlot().reference) && TheSlot().secrets == old(TheSlot().secrets)
    {
      ghost var s, o;
      err, s, o := world.ClaimCall(name, CStatus(projectClaim.status));
      StatusStep(name, s, projectClaim.status, o);
      if err == NoError {
        projectClaim := Pass().local;
      }
    }

    method ProjectReferenceExists() returns (exists_: bool, err: Error)
      requires Working()
      modifies world
      ensures Working() && err != NotFound
      ensures Pass() == old(Pass()).(reply := Pass().reply, refAbsent := Pass().refAbsent, refSeen := Pass().refSeen)
      ensures err == NoError ==> if exists_ then Pass().refSeen else Pass().refAbsent
      ensures world.quiet ==>
                && err == NoError && (exists_ <==> TheSlot().reference.Some?)
                && TheSlot() == old(TheSlot()).(claimPass := Pass())
    {
      ghost var s, o;
      err, s, o := world.ClaimCall(name, CReadReference);
      ReadReferenceStep(name, s, o);
      if err == NotFound {
        return false, NoError;
      }
      return err == NoError, err;
    }

    /** Reads the CCS secret; the copy is the pass's. */
    method GetCCSSecret() returns (err: Error)
      requires Working() && projectClaim.spec.ccs
      modifies world
      ensures Working()
      ensures Pass() == old(Pass()).(reply := Pass().reply, secret := Pass().secret, held := Pass().held, released := Pass().released)
      ensures err == NoError ==>
                && Pass().secret.Some?
                && (if CCS_FINALIZER in Pass().secret.value.finalizers then Pass().held else Pass().released)
      ensures err == NotFound ==> Pass().released
      ensures smooth ==>
                var key := projectClaim.spec.ccsSecret;
                && TheSlot() == old(TheSlot()).(claimPass := Pass())
                && (if key in TheSlot().secrets then err == NoError && Pass().secret == Some(TheSlot().secrets[key]) else err == NotFound)
    {
      ghost var s, o;
      err, s, o := world.ClaimCall(name, CReadSecret);
      ReadSecretStep(name, s, o);
    }

    /** The operator no longer holds the customer's secret. */
    ghost predicate SecretReleased()
      requires name in world.sys.slots
      reads this, world
    {
      var key := projectClaim.spec.ccsSecret;
      projectClaim.spec.ccs && key in TheSlot().secrets ==> CCS_FINALIZER !in TheSlot().secrets[key].finalizers
    }

    /** Updates the CCS secret's finalizers. */
    method UpdateSecret(a: ClaimAct) returns (err: Error)
      requires Working() && (a.CHoldSecret? || a.CReleaseSecret?) && ClaimMay(name, TheSlot(), a)
      requires smooth ==>
                 var key := projectClaim.spec.ccsSecret;
                 && key in TheSlot().secrets && Pass().secret == Some(TheSlot().secrets[key])
                 && (a.CHoldSecret? ==> !TheSlot().secrets[key].deleting)
      modifies world
      ensures Working() && (err == NoError ==> if a.CHoldSecret? then Pass().held else Pass().released)
      ensures Pass() == old(Pass()).(reply := Pass().reply, secret := Pass().secret, held := Pass().held, released := Pass().released)
      ensures smooth ==>
                && err == NoError && TheSlot().claim == old(TheSlot().claim) && TheSlot().reference == old(TheSlot().reference)
                && (a.CHoldSecret? ==> old(TheSlot().secrets.Keys) == TheSlot().secrets.Keys)
                && (a.CReleaseSecret? ==> SecretReleased())
    {
      ghost var s, o;
      err, s, o := world.ClaimCall(name, a);
      EditSecretStep(name, s, a, o);
    }

    // Operations

    method EnsureProjectClaimDeletionProcessed(ghost before: Shape) returns (result: OperationResult, err: Error)
      requires Ready(0, before)
      modifies world, this`projectClaim
      ensures Leaves(1, result, err, before)
      ensures if !old(projectClaim.deleting) then GoesOn(result, err) else result == StopProcessing() || result == RequeueAfter(5)
    {
      if projectClaim.deleting {
        var modified;
        modified, err := FinalizeProjectClaim(before);
        if !modified || err != NoError {
          return RequeueAfter(5), err;
        }
        return StopProcessing(), NoError;
      }
      return ContinueProcessing(), NoError;
    }

    method FinalizeProjectClaim(ghost before: Shape) returns (modified: bool, err: Error)
      requires Ready(0, before) && projectClaim.deleting
      modifies world, this`projectClaim
      ensures Attached() && (modified && err == NoError ==> KeptInMind(name, Pass(), 0))
      ensures smooth ==>
                && err == NoError && before.claim.Some? && TheShape() == Handled(name, before)
                && (TheSlot().claim.Some? ==> projectClaim.status == Pass().local.status)
                && (TheSlot().reference.Some? && start.reference.Some? ==> start.secrets.Keys == TheSlot().secrets.Keys)
                && (if before.reference.None? then SecretReleased() else !modified)
      ensures !modified && err == NoError ==> Pass().refSeen && Pass().reply == NoError
    {
      assert smooth ==> before.claim.Some? && before.claim.value.deleting;
      var projectReferenceExists;
      projectReferenceExists, err := ProjectReferenceExists();
      if err != NoError {
        return false, err;
      }
      if projectReferenceExists && !projectReference.deleting {
        err := DeleteReference();
        if err != NoError {
          return false, err;
        }
      }
      if !projectReferenceExists {
        err := EnsureCCSSecretFinalizerDeleted();
        if err != NoError {
          return false, err;
        }
        assert smooth ==> TheShape() == before && TheSlot().reference.None?;
        err := EnsureProjectClaimFinalizerDeleted();
        return err == NoError, err;
      }
      return false, NoError;
    }

    method DeleteReference() returns (err: Error)
      requires Working() && projectClaim.deleting
      modifies world
      ensures Working() && Pass() == old(Pass()).(reply := err)
      ensures smooth && old(TheSlot().reference.Some?) ==>
                && err == NoError && TheSlot().claim == old(TheSlot().claim) && TheSlot().secrets == old(TheSlot().secrets)
                && TheSlot().reference == old(Deleted(TheSlot().reference.value, TheSlot().clock))
    {
      ghost var s, o;
      err, s, o := world.ClaimCall(name, CDeleteReference);
      DeleteReferenceStep(name, s, o);
    }

    method EnsureCCSSecretFinalizerDeleted() returns (err: Error)
      requires Working() && projectClaim.deleting && Pass().refAbsent
      modifies world
      ensures Working() && Pass().refAbsent && Pass().local == old(Pass().local)
      ensures err == NoError && projectClaim.spec.ccs ==> Pass().released
      ensures smooth ==>
                && err == NoError && TheSlot().claim == old(TheSlot().claim) && TheSlot().reference == old(TheSlot().reference)
                && SecretReleased()
    {
      if !projectClaim.spec.ccs {
        return NoError;
      }
      err := GetCCSSecret();
      if err == NotFound {
        return NoError;
      }
      if err != NoError {
        return;
      }
      var held := Contains(Pass().secret.value.finalizers, CCS_FINALIZER);
      if held {
        err := UpdateSecret(CReleaseSecret);
      }
    }

    method EnsureProjectClaimFinalizerDeleted() returns (err: Error)
      requires Working() && projectClaim.deleting && Pass().refAbsent && projectClaim.status == Pass().local.status
      requires projectClaim.spec.ccs ==> Pass().released
      modifies world, this`projectClaim
      ensures Attached() && (err == NoError ==> KeptInMind(name, Pass(), 0))
      ensures smooth ==>
                && err == NoError && TheSlot().reference == old(TheSlot().reference) && TheSlot().secrets == old(TheSlot().secrets)
                && projectClaim.spec == old(projectClaim.spec)
                && (TheSlot().claim.Some? ==> projectClaim.status == Pass().local.status)
                && old(TheShape()).claim.Some? && TheShape() == old(TheShape()).(claim := Released(old(TheShape()).claim.value))
    {
      var held := Contains(projectClaim.finalizers, FINALIZER);
      if held {
        var finalizers := Filter(projectClaim.finalizers, FINALIZER);
        projectClaim := projectClaim.(finalizers := finalizers);
        err := Update(CDropFinalizer);
        return;
      }
      return NoError;
    }

    method EnsureProjectClaimValidated(ghost before: Shape) returns (result: OperationResult, err: Error)
      requires Ready(1, before)
      modifies world, this`projectClaim
      ensures Leaves(2, result, err, before)
      ensures var spec := old(projectClaim.spec);
              if (spec.ccs && spec.ccsSecret.namespace !in {"", name.namespace}) || spec.credentialSecret.namespace !in {"", name.namespace}
              then !GoesOn(result, err) && err == Pass().reply && (err == NoError ==> Pass().local.status.state == ClaimState.Error)
              else GoesOn(result, err)
    {
      if !ValidClaim(name, projectClaim.spec) {
        projectClaim := projectClaim.(status := projectClaim.status.(state := ClaimState.Error));
        err := StatusUpdate();
        if err != NoError {
          return Requeue(), err;
        }
        return StopProcessing(), NoError;
      }
      return ContinueProcessing(), NoError;
    }

    method EnsureProjectClaimInitialized(ghost before: Shape) returns (result: OperationResult, err: Error)
      requires Ready(2, before)
      modifies world, this`projectClaim
      ensures Leaves(3, result, err, before)
      ensures if old(projectClaim.status.conditions.Some?) then GoesOn(result, err)
              else err == Pass().reply && (err == NoError ==> Pass().local.status == old(projectClaim.status).(conditions := Some([])))
    {
      if projectClaim.status.conditions.None? {
        projectClaim := projectClaim.(status := projectClaim.status.(conditions := Some([])));
        err := StatusUpdate();
        if err != NoError {
          return Requeue(), err;
        }
        return StopProcessing(), NoError;
      }
      return ContinueProcessing(), NoError;
    }

    /** Whether the region is served; a customer's project may be anywhere. */
    method IsRegionSupported() returns (supported: bool, err: Error)
      requires Working()
      ensures err == NoError ==> (supported <==> projectClaim.spec.ccs || projectClaim.spec.region !in world.config.disabledRegions)
      ensures smooth ==> err == NoError
    {
      if projectClaim.spec.ccs {
        return true, NoError;
      }
      var config;
      config, err := world.GetConfig();
      if err != NoError {
        return true, err;
      }
      var disabled := Contains(config.disabledRegions, projectClaim.spec.region);
      return !disabled, NoError;
    }

    method EnsureRegionSupported(ghost before: Shape) returns (result: OperationResult, err: Error)
      requires Ready(3, before)
      modifies world, this`projectClaim
      ensures Leaves(4, result, err, before)
      ensures GoesOn(result, err) ==> Supported(projectClaim.spec, world.config.disabledRegions)
      ensures err == NoError && old(!Supported(projectClaim.spec, world.config.disabledRegions)) ==>
                && projectClaim.status.state == ClaimState.Error
                && ReportedAs(old(ConditionsInMemory()), ConditionsInMemory(), ConditionInvalid, REGION_CHECK_FAILED, UnsupportedRegion)
    {
      var supported;
      supported, err := IsRegionSupported();
      if err != NoError {
        return Requeue(), err;
      }
      if !supported {
        projectClaim := projectClaim.(status := projectClaim.status.(state := ClaimState.Error));
        err := UnsupportedRegion;
      }
      if supported && projectClaim.status.state == ClaimState.Error {
        projectClaim := projectClaim.(status := projectClaim.status.(state := Pending));
      }
      result, err := SetProjectClaimCondition(ConditionInvalid, REGION_CHECK_FAILED, err);
    }

    function ConditionsInMemory(): seq<Condition>
      reads this
    {
      if projectClaim.status.conditions.Some? then projectClaim.status.conditions.value else []
    }

    method SetCondition(kind: ConditionType, status: Truth, reason: string, message: string, now: Time)
      modifies this`projectClaim
      ensures projectClaim == old(projectClaim).(status := old(projectClaim.status).(
                conditions := Some(Set(old(ConditionsInMemory()), kind, status, reason, message, now))))
    {
      var conditions := new ConditionList(ConditionsInMemory());
      conditions.SetCondition(kind, status, reason, message, now);
      projectClaim := projectClaim.(status := projectClaim.status.(conditions := Some(conditions.items)));
    }

    /** Reports an error, or marks one that was reported as resolved; says whether there is anything to store, and stores it. */
    method SetProjectClaimCondition(kind: ConditionType, reason: string, failure: Error) returns (result: OperationResult, err: Error)
      requires Attached() && (smooth ==> failure == NoError)
      requires (kind == ConditionInvalid && reason == REGION_CHECK_FAILED) || (kind == ConditionError && reason == RECONCILE_ERROR)
      modifies world, this`projectClaim
      ensures Attached()
      ensures var unresolved := old(Unresolved(projectClaim.status.conditions, kind, reason));
              && (GoesOn(result, err) ==>
                    failure == NoError && !unresolved && world.sys == old(world.sys) && projectClaim == old(projectClaim))
              && (!GoesOn(result, err) ==>
                    && projectClaim.status.state == old(projectClaim.status.state)
                    && Stores(old(Pass()), Pass()) && err == Pass().reply && (err == NoError ==> Pass().local.status == projectClaim.status)
                    && ReportedAs(old(ConditionsInMemory()), ConditionsInMemory(), kind, reason, failure))
              && (smooth && !unresolved ==> GoesOn(result, err))
              && (smooth && unresolved && old(TheSlot().claim.None?) ==> TheShape() == old(TheShape()))
              && (smooth && unresolved && old(TheSlot().claim.Some?) ==>
                    && err == NoError && !GoesOn(result, err)
                    && TheSlot().reference == old(TheSlot().reference) && TheSlot().secrets == old(TheSlot().secrets)
                    && TheSlot().claim == Some(projectClaim) && projectClaim == Pass().local
                    && ClaimShapeOf(projectClaim) == old(ClaimShapeOf(Pass().local)).(
                         state := old(projectClaim.status.state),
                         invalid := kind != ConditionInvalid && old(ClaimShapeOf(Pass().local).invalid),
                         failing := kind != ConditionError && old(ClaimShapeOf(Pass().local).failing)))
    {
      var now: Time := *;
      if failure != NoError {
        var message: string := *;
        SetMeaning(ConditionsInMemory(), kind, True, reason, message, now);
        SetCondition(kind, True, reason, message, now);
        err := StatusUpdate();
        return StopProcessing(), err;
      }
      var conditions := new ConditionList(ConditionsInMemory());
      var known := conditions.HasCondition(kind);
      if !known {
        return ContinueProcessing(), NoError;
      }
      var index, found := conditions.FindCondition(kind);
      if conditions.items[index].reason == reason + "Resolved" {
        return ContinueProcessing(), NoError;
      }
      ResolvedConditions(ConditionsInMemory(), kind, reason, now, ConditionInvalid, REGION_CHECK_FAILED);
      ResolvedConditions(ConditionsInMemory(), kind, reason, now, ConditionError, RECONCILE_ERROR);
      SetMeaning(ConditionsInMemory(), kind, False, reason + "Resolved", "", now);
      SetCondition(kind, False, reason + "Resolved", "", now);
      err := StatusUpdate();
      return StopProcessing(), err;
    }

    /** Moves the claim to the state where the rules for it allow. */
    method EnsureProjectClaimState(state: ClaimState, ghost done: nat, ghost before: Shape) returns (result: OperationResult, err: Error)
      requires (state == Pending && done == 4) || (state == PendingProject && done == 9)
      requires Ready(done, before)
      modifies world, this`projectClaim
      ensures Leaves(done + 1, result, err, before)
      ensures !GoesOn(result, err) ==>
                err == Pass().reply && (err == NoError ==> Pass().local.status == old(projectClaim.status).(state := state))
    {
      if projectClaim.status.state == state {
        return ContinueProcessing(), NoError;
      }
      if state == Pending && projectClaim.status.state != ClaimState.Error {
        if projectClaim.status.state != Unset {
          return ContinueProcessing(), NoError;
        }
      }
      if state == PendingProject && projectClaim.status.state != Pending {
        return ContinueProcessing(), NoError;
      }
      projectClaim := projectClaim.(status := projectClaim.status.(state := state));
      err := StatusUpdate();
      return StopProcessing(), err;
    }

    method EnsureProjectReferenceExists(ghost before: Shape) returns (result: OperationResult, err: Error)
      requires Ready(5, before)
      modifies world, this`projectClaim
      ensures Leaves(6, result, err, before)
      ensures world.quiet && old(TheSlot().reference.None?) ==>
                && GoesOn(result, err) && TheSlot().reference.Some?
                && var r, spec := TheSlot().reference.value, projectClaim.spec;
                   && r.spec.sharedVPC == spec.sharedVPC && r.spec.ccs == spec.ccs && r.spec.ccsSecret == spec.ccsSecret
                   && r.spec.link == name && r.spec.projectID == (if spec.ccs then spec.ccsProjectID else "")
                   && r.spec.accountName == "" && !r.deleting && r.finalizers == [] && r.status == ReferenceStatus(None, RefUnset)
    {
      var projectReferenceExists;
      projectReferenceExists, err := ProjectReferenceExists();
      if err != NoError {
        return Requeue(), err;
      }
      if !projectReferenceExists {
        err := CreateReference();
        return ContinueProcessing(), err;
      }
      return ContinueProcessing(), NoError;
    }

    method CreateReference() returns (err: Error)
      requires Working() && !projectClaim.deleting && ValidClaim(name, projectClaim.spec) && Pass().refAbsent
      modifies world
      ensures Working()
      ensures Pass() == old(Pass()).(reply := Pass().reply, refAbsent := Pass().refAbsent, refSeen := Pass().refSeen)
      ensures err == NoError ==> Pass().refSeen
      ensures world.quiet && old(TheSlot().reference.None?) ==>
                && err == NoError && TheSlot().claim == old(TheSlot().claim) && TheSlot().secrets == old(TheSlot().secrets)
                && TheSlot().reference == Some(NewReference(name, projectClaim.spec, old(TheSlot().clock)))
    {
      ghost var s, o;
      err, s, o := world.ClaimCall(name, CCreateReference);
      CreateReferenceStep(name, s, o);
    }

    method EnsureProjectReferenceLink(ghost before: Shape) returns (result: OperationResult, err: Error)
      requires Ready(6, before)
      modifies world, this`projectClaim
      ensures Leaves(7, result, err, before)
      ensures !GoesOn(result, err) ==>
                err == Pass().reply && (err == NoError ==> Pass().local.spec == old(projectClaim.spec).(link := ReferenceName(name)))
    {
      var expectedLink := ReferenceName(name);
      if projectClaim.spec.link == expectedLink {
        return ContinueProcessing(), NoError;
      }
      projectClaim := projectClaim.(spec := projectClaim.spec.(link := expectedLink));
      err := Update(CSetLink);
      if err != NoError {
        return Requeue(), err;
      }
      return StopProcessing(), NoError;
    }

    method EnsureFinalizer(ghost before: Shape) returns (result: OperationResult, err: Error)
      requires Ready(7, before)
      modifies world, this`projectClaim
      ensures Leaves(8, result, err, before)
      ensures !GoesOn(result, err) ==>
                err == Pass().reply && (err == NoError ==> Pass().local.finalizers == old(projectClaim.finalizers) + [FINALIZER])
    {
      var held := Contains(projectClaim.finalizers, FINALIZER);
      if !held {
        projectClaim := projectClaim.(finalizers := projectClaim.finalizers + [FINALIZER]);
        err := Update(CAddFinalizer);
        return StopProcessing(), err;
      }
      return ContinueProcessing(), NoError;
    }

    method EnsureCCSSecretFinalizer(ghost before: Shape) returns (result: OperationResult, err: Error)
      requires Ready(8, before)
      modifies world, this`projectClaim
      ensures Leaves(9, result, err, before)
    {
      if !projectClaim.spec.ccs {
        return ContinueProcessing(), NoError;
      }
      err := GetCCSSecret();
      if err != NoError {
        return Requeue(), err;
      }
      var held := Contains(Pass().secret.value.finalizers, CCS_FINALIZER);
      if !held {
        err := UpdateSecret(CHoldSecret);
        return ContinueProcessing(), err;
      }
      return ContinueProcessing(), NoError;
    }
  }
}
