/** The reference controller's reconcile loop. */
module ReferenceControllers {
  import opened Operations
  import opened Conditions
  import opened Objects
  import opened Protocol
  import opened Shapes
  import opened Worlds
  import opened ReferenceAdapters
  import Invariant
  import Safety

  const OPERATIONS := 11

  lemma ClaimReadStep(n: NamespacedName, s: Slot, c: Cloud, o: Outcome)
    requires ReferenceMay(n, s, c, RReadClaim)
    ensures var t := ReferenceStep(n, s, c, RReadClaim, o);
            && CloudStep(n, s, c, RReadClaim, o) == c
            && t == s.(refPass := t.refPass)
            && t.refPass == s.refPass.(claim := t.refPass.claim, reply := t.refPass.reply)
            && (t.refPass.reply == NoError ==> t.refPass.claim.Some? && t.refPass.claim == s.claim)
            && (o == Ok && s.claim.Some? ==> t.refPass.reply == NoError)
  {
  }

  /** The controller runs again: after a while, or because it has written the reference; or nothing is left to do for it. */
  predicate Woken(delay: nat, before: Slot, after: Slot) {
    delay > 0 || after.reference != before.reference || AtRest(ShapeOf(after.claim, after.reference))
  }

  /** Of a claim name's objects, nothing has changed but the conditions of the reference. */
  predicate OnlyConditions(before: Slot, after: Slot) {
    && after.claim == before.claim && after.secrets == before.secrets && after.claimPass == before.claimPass
    && before.reference.Some? && after.reference.Some?
    && var r := after.reference.value;
       && r == before.reference.value.(version := r.version, status := before.reference.value.status.(conditions := r.status.conditions))
       && (before.reference.value.status.conditions.Some? ==> r.status.conditions.Some?)
  }

  /** The reference is being deleted, and nobody but others can see to it that its clean-up comes to an end. */
  predicate Stuck(s: Slot, projects: map<string, Project>, groups: bool) {
    && s.reference.Some? && s.reference.value.deleting && s.reference.value.status.conditions.Some?
    && var r := s.reference.value; Halted(r, projects, groups) || Unreadable(s)
  }

  /** The credentials for a customer's project are gone. */
  predicate Unreadable(s: Slot) {
    s.reference.Some? && s.reference.value.spec.ccs && s.reference.value.spec.ccsSecret !in s.secrets
  }

  /** The reference is Ready, and nothing but the zones is missing in its claim. */
  predicate AwaitsZones(s: Slot) {
    && s.claim.Some? && s.claim.value.status.state != ClaimState.Ready && s.claim.value.spec.zones == []
    && s.reference.Some?
    && var r := s.reference.value;
       && !r.deleting && r.status.state == RefReady && r.status.conditions.Some? && ValidReference(r.spec)
       && (r.spec.ccs ==> r.spec.ccsSecret in s.secrets)
  }

  function ConditionsOf(s: Slot): seq<Condition> {
    if s.reference.Some? && s.reference.value.status.conditions.Some? then s.reference.value.status.conditions.value else []
  }

  /** One pass that waits for zones: a failed probe, and then the report at the end. */
  ghost predicate WaitedOnce(before: seq<Condition>, after: seq<Condition>, delay: nat, err: Error) {
    exists middle :: ProbedOnce(before, middle, delay, err) && ReportedOnce(middle, after, err)
  }

  /** The pass that the last step of a run brought to its end. */
  function LastPass(run: seq<System>, n: NamespacedName): ReferencePass {
    if |run| > 1 && n in run[|run| - 2].slots then run[|run| - 2].slots[n].refPass else ReferenceIdle
  }

  /** However a pass went, the controller runs again after a while, or because it has written the reference; or the pass has seen that
      nothing is left to do; or it stored the zones in the claim and nothing in the reference. */
  predicate EndsWell(p: ReferencePass, delay: nat) {
    KeptInMind(p, delay) || Forgotten(p)
  }

  class ProjectReferenceReconciler {
    const world: World
    const name: NamespacedName

    constructor (world: World, name: NamespacedName)
      ensures this.world == world && this.name == name
    {
      this.world := world;
      this.name := name;
    }

    /** The operations, in the order in which the handler runs them. */
    method Operation(adapter: ReferenceAdapter, i: nat) returns (result: OperationResult, err: Error)
      requires adapter.world == world && adapter.Working() && adapter.Facts(i) && i < OPERATIONS
      modifies adapter, world
      ensures adapter.Leaves(i + 1, result, err, old(adapter.TheShape()))
      ensures i + 1 == OPERATIONS ==> !GoesOn(result, err)
      ensures i == 0 && old(adapter.projectReference.status.conditions.Some?) ==> GoesOn(result, err)
      ensures i == 1 ==> (GoesOn(result, err) <==> !old(adapter.projectReference.deleting))
      ensures i < 2 && GoesOn(result, err) ==>
                adapter.Untouched(old(world.sys), old(adapter.projectReference), old(adapter.projectClaim))
      ensures i == 1 && old(adapter.Blocked()) ==> err != NoError && adapter.Blocked()
      ensures i == 2 && adapter.NotReadyYet() && old(adapter.AwaitingZones() && adapter.Fresh()) ==>
                && !GoesOn(result, err) && (err == NoError ==> result.requeue)
                && world.sys.cloud == old(world.sys.cloud)
                && adapter.OnlyConditionsChanged(old(adapter.TheSlot()), old(adapter.projectReference))
                && ProbedOnce(old(adapter.ConditionsInMemory()), adapter.ConditionsInMemory(), result.delay, err)
    {
      match i
      case 0 => result, err := adapter.EnsureProjectReferenceInitialized();
      case 1 => result, err := adapter.EnsureDeletionProcessed();
      case 2 => result, err := adapter.EnsureProjectClaimReady();
      case 3 => result, err := adapter.VerifyProjectClaimPending();
      case 4 => result, err := adapter.EnsureProjectReferenceStatusCreating();
      case 5 => result, err := adapter.EnsureProjectID();
      case 6 => result, err := adapter.EnsureServiceAccountName();
      case 7 => result, err := adapter.EnsureFinalizerAdded();
      case 8 => result, err := adapter.EnsureProjectCreated();
      case 9 => result, err := adapter.EnsureProjectConfigured();
      case _ => result, err := adapter.EnsureStateReady();
    }

    method ReconcileHandler(adapter: ReferenceAdapter) returns (delay: nat, err: Error)
      requires adapter.world == world && adapter.Working() && adapter.Facts(0)
      modifies adapter, world
      ensures adapter.Attached() && (err == NoError ==> adapter.InMind(delay))
      ensures adapter.smooth ==>
                && err == NoError && ReferenceHandled(old(adapter.TheShape()), adapter.TheShape())
                && adapter.Wakes(delay, old(adapter.TheShape()))
      ensures old(adapter.projectReference.status.conditions.Some? && adapter.Blocked()) ==> err != NoError && adapter.Blocked()
      ensures adapter.NotReadyYet() && old(adapter.AwaitingZones() && adapter.Fresh()) ==>
                && world.sys.cloud == old(world.sys.cloud)
                && adapter.OnlyConditionsChanged(old(adapter.TheSlot()), old(adapter.projectReference))
                && ProbedOnce(old(adapter.ConditionsInMemory()), adapter.ConditionsInMemory(), delay, err)
    {
      for i := 0 to OPERATIONS
        invariant i < OPERATIONS
        invariant i <= 2 ==> adapter.Untouched(old(world.sys), old(adapter.projectReference), old(adapter.projectClaim))
        invariant i >= 2 ==> !old(adapter.projectReference.deleting)
        invariant i >= 3 ==> !(adapter.NotReadyYet() && old(adapter.AwaitingZones() && adapter.Fresh()))
        invariant adapter.Working() && adapter.Facts(i)
        invariant adapter.smooth ==> adapter.TheShape() == old(adapter.TheShape())
      {
        var result;
        result, err := Operation(adapter, i);
        if err != NoError || result.requeue {
          return result.delay, err;
        }
        if result.cancel {
          return 0, NoError;
        }
      }
      assert false;
    }

    /** The credentials of the organisation, or of the customer whose project it is. */
    method GetGcpClient(reference: Reference) returns (err: Error)
      requires world.Valid() && name in world.sys.slots
      modifies world
      ensures world.Valid() && name in world.sys.slots
      ensures world.sys.slots[name].refPass == old(world.sys.slots[name].refPass)
      ensures world.quiet ==>
                && world.sys == old(world.sys)
                && (err == NoError <==> reference.spec.ccs ==> reference.spec.ccsSecret in world.sys.slots[name].secrets)
    {
      if reference.spec.ccs {
        err := world.GetSecret(name, reference.spec.ccsSecret);
      } else {
        var outcome := world.AnyOutcome();
        err := if outcome == Ok then NoError else Failed;
      }
    }

    method GetConfigMap() returns (config: OperatorConfig, err: Error)
      ensures err == NoError ==> config == world.config && config.billingAccount != "" && config.parentFolder != ""
      ensures world.quiet && world.config.billingAccount != "" && world.config.parentFolder != "" ==> err == NoError
    {
      config, err := world.GetConfig();
      if err == NoError && !ValidConfig(config) {
        err := Failed;
      }
    }

    /** A reference that does not keep to its claim's namespace gets the state Error and nothing else. */
    method Reject(reference: Reference) returns (err: Error)
      requires world.Valid() && name in world.sys.slots && world.sys.slots[name].refPass.ReferenceRunning?
      requires world.sys.slots[name].refPass.local == reference && !reference.deleting && !ValidReference(reference.spec)
      modifies world
      ensures world.Valid() && name in world.sys.slots && world.sys.slots[name].refPass.ReferenceRunning?
      ensures err == NoError ==> world.sys.slots[name].refPass.local.status.state == RefError && KeptInMind(world.sys.slots[name].refPass, 0)
      ensures reference.status.state == RefError ==> err == NoError && world.sys == old(world.sys)
      ensures reference.status.state != RefError ==> err == world.sys.slots[name].refPass.reply
    {
      if reference.status.state == RefError {
        return NoError;
      }
      ghost var s, c, o;
      err, s, c, o := world.ReferenceCall(name, RStatus(reference.status.(state := RefError)));
      StatusStep(name, s, c, reference.status.(state := RefError), o);
      StatusEffect(s, reference.(status := reference.status.(state := RefError)), o);
    }

    /** Nothing stands in the way of the pass under way, and nobody disturbs it. */
    ghost predicate Smooth(start: Slot)
      requires name in world.sys.slots && world.sys.slots[name].refPass.ReferenceRunning?
      reads world
    {
      var slot := world.sys.slots[name];
      && world.Calm() && ValidConfig(world.config)
      && Favourable(slot.claim, slot.reference, slot.secrets, world.sys.cloud.projects, HasGroups(world.config))
      && slot.reference == Some(slot.refPass.local) && slot == start.(refPass := slot.refPass)
    }

    /** A quiet world with a usable configuration, in which the Compute API is not ready. */
    predicate WaitsForApi() {
      world.quiet && world.zonesError == ComputeNotReady && ValidConfig(world.config)
    }

    /** A pass that has just read the reference. */
    ghost predicate Started()
      requires name in world.sys.slots
      reads world
    {
      exists s: Slot :: s.reference.Some? && world.sys.slots[name] == StartedPass(s)
    }

    /** In a quiet world, what the adapter has in memory is what is stored, and nothing was stored since the pass began. */
    ghost predicate Matches(adapter: ReferenceAdapter)
      reads world, adapter
    {
      && adapter.world == world && adapter.name == name && adapter.config == world.config
      && (world.quiet ==>
            && name in world.sys.slots && world.sys.slots[name].refPass.ReferenceRunning?
            && adapter.Fresh() && Some(adapter.projectClaim) == adapter.TheSlot().claim
            && adapter.TheSlot() == adapter.start.(refPass := adapter.Pass()))
    }

    /** Reads what the operations need: the credentials, the configuration, and the claim. */
    method MakeAdapter(ghost smooth: bool, ghost start: Slot) returns (adapter: ReferenceAdapter?, err: Error)
      requires world.Valid() && name in world.sys.slots && Started() && (smooth ==> Smooth(start))
      requires world.quiet ==> world.sys.slots[name] == start.(refPass := world.sys.slots[name].refPass)
      requires var r := world.sys.slots[name].refPass.local; r.deleting || ValidReference(r.spec)
      modifies world
      ensures world.Valid() && name in world.sys.slots && world.sys.slots[name].refPass.ReferenceRunning?
      ensures adapter != null <==> err == NoError
      ensures adapter != null ==>
                && fresh(adapter) && adapter.world == world && adapter.name == name && adapter.smooth == smooth && adapter.start == start
                && adapter.Working() && adapter.Facts(0) && adapter.config == world.config
      ensures world.quiet ==>
                && world.sys.cloud == old(world.sys.cloud)
                && world.sys.slots[name] == old(world.sys.slots[name]).(refPass := world.sys.slots[name].refPass)
                && var slot, r := old(world.sys.slots[name]), old(world.sys.slots[name].refPass.local);
                   && (r.spec.ccs && r.spec.ccsSecret !in slot.secrets ==> err != NoError)
                   && (ValidConfig(world.config) && slot.claim.Some? && (r.spec.ccs ==> r.spec.ccsSecret in slot.secrets) ==> err == NoError)
      ensures adapter != null ==> Matches(adapter) && (smooth ==> world.quiet)
    {
      var reference := world.sys.slots[name].refPass.local;
      adapter := null;
      err := GetGcpClient(reference);
      if err != NoError {
        return;
      }
      var config;
      config, err := GetConfigMap();
      if err != NoError {
        return;
      }
      ghost var s, c, o;
      err, s, c, o := world.ReferenceCall(name, RReadClaim);
      ClaimReadStep(name, s, c, o);
      if err == NoError {
        adapter := new ReferenceAdapter(world, name, config, world.sys.slots[name].refPass.claim.value, reference, smooth, start);
      }
    }

    /** What a pass that nothing stands in the way of comes to, from its slot before. */
    ghost predicate Advanced(start: Slot, before: Slot, delay: nat, err: Error)
      requires name in world.sys.slots && start.reference.Some?
      reads world
    {
      var slot := world.sys.slots[name];
      && err == NoError && ReferenceAdvance(ShapeOf(before.claim, before.reference), ShapeOf(slot.claim, slot.reference))
      && StaysFavourable(slot.claim, slot.reference, slot.secrets, world.sys.cloud.projects, HasGroups(world.config))
      && slot.claimPass == start.claimPass && (start.reference.value.version < start.clock ==> Woken(delay, start, slot))
      && (slot.reference.Some? && !slot.reference.value.deleting ==> KeepsSecrets(start.secrets, slot.secrets))
    }

    /** What a pass over a reference whose clean-up is stuck comes to, in a quiet world. */
    ghost predicate StillStuck(before: Slot, err: Error)
      requires name in world.sys.slots
      reads world
    {
      && err != NoError && OnlyConditions(before, world.sys.slots[name])
      && Stuck(world.sys.slots[name], world.sys.cloud.projects, HasGroups(world.config))
    }

    /** What a pass over a reference that waits for zones comes to, while the Compute API is not ready. */
    ghost predicate Waited(before: Slot, cloud: Cloud, delay: nat, err: Error)
      requires name in world.sys.slots
      reads world
    {
      && world.sys.cloud == cloud && OnlyConditions(before, world.sys.slots[name])
      && WaitedOnce(ConditionsOf(before), ConditionsOf(world.sys.slots[name]), delay, err)
    }

    ghost predicate IsStuck(start: Slot)
      reads world
    {
      world.quiet && Stuck(start, world.sys.cloud.projects, HasGroups(world.config))
    }

    predicate IsWaiting(start: Slot) {
      WaitsForApi() && AwaitsZones(start)
    }

    /** The operations, and the status write at the end. */
    method Handle(adapter: ReferenceAdapter) returns (delay: nat, err: Error)
      requires adapter.Working() && adapter.Facts(0) && Matches(adapter) && (adapter.smooth ==> world.quiet)
      modifies adapter, world
      ensures adapter.Attached() && (err == NoError ==> EndsWell(adapter.Pass(), delay))
      ensures adapter.smooth ==> Advanced(adapter.start, old(adapter.TheSlot()), delay, err)
      ensures old(IsStuck(adapter.start)) && !Unreadable(adapter.start) ==> StillStuck(adapter.start, err)
      ensures IsWaiting(adapter.start) ==> Waited(adapter.start, old(world.sys.cloud), delay, err)
    {
      ghost var was := adapter.TheSlot();
      delay, err := ReconcileHandler(adapter);
      Conclude(adapter, err, delay, was);
    }

    /** The status write at the end of a pass that found `was`. */
    method Conclude(adapter: ReferenceAdapter, failure: Error, ghost delay: nat, ghost was: Slot)
      requires adapter.world == world && adapter.name == name && adapter.Attached()
      requires adapter.smooth ==>
                 && adapter.config == world.config && adapter.start.reference.Some? && was == adapter.start.(refPass := was.refPass)
                 && failure == NoError && ReferenceHandled(ShapeOf(was.claim, was.reference), adapter.TheShape())
                 && adapter.Wakes(delay, ShapeOf(was.claim, was.reference))
      modifies adapter, world
      ensures adapter.Attached() && (failure == NoError && old(adapter.InMind(delay)) ==> EndsWell(adapter.Pass(), delay))
      ensures adapter.smooth ==> Advanced(adapter.start, was, delay, failure)
      ensures world.quiet && was.reference.Some? && old(adapter.OnlyConditionsChanged(was, was.reference.value)) ==>
                && world.sys.cloud == old(world.sys.cloud) && OnlyConditions(was, adapter.TheSlot())
                && (failure != NoError || old(adapter.ConditionsInMemory()) != [] ==>
                      ReportedOnce(old(adapter.ConditionsInMemory()), ConditionsOf(adapter.TheSlot()), failure))
    {
      ghost var p := adapter.Pass();
      var ignored := adapter.SetProjectReferenceCondition(RECONCILE_ERROR, failure);
      StoredInMind(p, adapter.Pass(), delay);
    }

    /** The pass proper, after the reference was read. */
    method Attend(ghost smooth: bool, ghost start: Slot) returns (delay: nat, err: Error)
      requires world.Valid() && name in world.sys.slots && Started() && (smooth ==> Smooth(start))
      requires world.quiet ==> world.sys.slots[name] == start.(refPass := world.sys.slots[name].refPass)
      modifies world
      ensures world.Valid() && name in world.sys.slots && world.sys.slots[name].refPass.ReferenceRunning?
      ensures err == NoError ==> EndsWell(world.sys.slots[name].refPass, delay)
      ensures smooth ==> Advanced(start, old(world.sys.slots[name]), delay, err)
      ensures old(IsStuck(start)) ==> StillStuck(start, err)
      ensures IsWaiting(start) ==> Waited(start, old(world.sys.cloud), delay, err)
      ensures var r := old(world.sys.slots[name].refPass.local);
              !r.deleting && r.spec.ccs && r.spec.ccsSecret.namespace !in {"", r.spec.link.namespace} && err == NoError ==>
                world.sys.slots[name].refPass.local.status.state == RefError
    {
      var reference := world.sys.slots[name].refPass.local;
      if !reference.deleting && !ValidReference(reference.spec) {
        err := Reject(reference);
        return 0, err;
      }
      delay, err := Process(smooth, start);
    }

    /** Gathers what the operations need, and runs them. */
    method Process(ghost smooth: bool, ghost start: Slot) returns (delay: nat, err: Error)
      requires world.Valid() && name in world.sys.slots && Started() && (smooth ==> Smooth(start))
      requires world.quiet ==> world.sys.slots[name] == start.(refPass := world.sys.slots[name].refPass)
      requires var r := world.sys.slots[name].refPass.local; r.deleting || ValidReference(r.spec)
      modifies world
      ensures world.Valid() && name in world.sys.slots && world.sys.slots[name].refPass.ReferenceRunning?
      ensures err == NoError ==> EndsWell(world.sys.slots[name].refPass, delay)
      ensures smooth ==> Advanced(start, old(world.sys.slots[name]), delay, err)
      ensures old(IsStuck(start)) ==> StillStuck(start, err)
      ensures IsWaiting(start) ==> Waited(start, old(world.sys.cloud), delay, err)
    {
      var adapter;
      adapter, err := MakeAdapter(smooth, start);
      if err != NoError {
        return 0, err;
      }
      delay, err := Handle(adapter);
    }

    lemma VersionsAreOld()
      requires world.Valid() && name in world.sys.slots
      ensures var slot := world.sys.slots[name]; slot.reference.Some? ==> slot.reference.value.version < slot.clock
    {
      Safety.ReachableHasInv(world.sys);
      assert Invariant.SlotInv(name, world.sys.slots[name], world.sys.cloud);
    }

    /** One reconcile run of the controller: whatever else happens meanwhile, all it does are steps of the protocol;
        and if nothing stands in its way and nobody disturbs it, the stored objects advance by one stage. */
    method Reconcile() returns (delay: nat, err: Error)
      requires world.Valid() && name in world.sys.slots && world.sys.slots[name].refPass.ReferenceIdle?
      modifies world
      ensures world.Valid() && name in world.sys.slots && world.sys.slots[name].refPass.ReferenceIdle?
      ensures var before, cloud, slot := old(world.sys.slots[name]), old(world.sys.cloud), world.sys.slots[name];
              world.Calm() && ValidConfig(world.config)
              && Favourable(before.claim, before.reference, before.secrets, cloud.projects, HasGroups(world.config)) ==>
                && err == NoError && ReferenceAdvance(ShapeOf(before.claim, before.reference), ShapeOf(slot.claim, slot.reference))
                && StaysFavourable(slot.claim, slot.reference, slot.secrets, world.sys.cloud.projects, HasGroups(world.config))
                && slot.claimPass == before.claimPass && Woken(delay, before, slot)
                && (slot.reference.Some? && !slot.reference.value.deleting ==> KeepsSecrets(before.secrets, slot.secrets))
      ensures world.quiet && old(world.sys.slots[name].reference.None?) ==> world.sys == old(world.sys)
      ensures err == NoError ==> world.sys.slots[name].reference.None? || EndsWell(LastPass(world.run, name), delay)
      ensures old(IsStuck(world.sys.slots[name])) ==> StillStuck(old(world.sys.slots[name]), err)
      ensures IsWaiting(old(world.sys.slots[name])) ==> Waited(old(world.sys.slots[name]), old(world.sys.cloud), delay, err)
    {
      ghost var before := world.sys.slots[name];
      ghost var smooth := world.Calm() && ValidConfig(world.config)
                          && Favourable(before.claim, before.reference, before.secrets, world.sys.cloud.projects, HasGroups(world.config));
      VersionsAreOld();
      err := world.StartReferencePass(name);
      if err != NoError {
        return 0, if err == NotFound then NoError else err;
      }
      delay, err := Run(smooth, before);
    }

    /** A pass that has just read the reference, to its end. */
    method Run(ghost smooth: bool, ghost start: Slot) returns (delay: nat, err: Error)
      requires world.Valid() && name in world.sys.slots && Started() && (smooth ==> Smooth(start))
      requires world.quiet ==> world.sys.slots[name] == start.(refPass := world.sys.slots[name].refPass)
      modifies world
      ensures world.Valid() && name in world.sys.slots && world.sys.slots[name].refPass.ReferenceIdle?
      ensures err == NoError ==> EndsWell(LastPass(world.run, name), delay)
      ensures smooth ==> Advanced(start, old(world.sys.slots[name]), delay, err)
      ensures old(IsStuck(start)) ==> StillStuck(start, err)
      ensures IsWaiting(start) ==> Waited(start, old(world.sys.cloud), delay, err)
    {
      delay, err := Attend(smooth, start);
      world.EndReferencePass(name);
    }
  }
}
