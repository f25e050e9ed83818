/** The claim controller's reconcile loop. */
module ClaimControllers {
  import opened Operations
  import opened Conditions
  import opened Objects
  import opened Protocol
  import opened Shapes
  import opened Worlds
  import opened ClaimAdapters

  const OPERATIONS := 10

  /** Nothing is left to do for the claim controller. */
  predicate ClaimAtRest(n: NamespacedName, x: Shape) {
    x.claim.Some? ==> if x.claim.value.deleting then FINALIZER !in x.claim.value.finalizers && x.reference.None?
                      else SettledClaim(n, x.claim.value) && x.reference.Some?
  }

  /** The controller runs again: after a while, or because it has written the claim; or nothing is left to do for it. */
  predicate Woken(n: NamespacedName, delay: nat, before: Slot, after: Slot) {
    delay > 0 || after.claim != before.claim || ClaimAtRest(n, ShapeOf(after.claim, after.reference))
  }

  /** A pass that leaves the claim as it was, and does not wait for a reference to go, has nothing left to do. */
  lemma UnchangedIsAtRest(n: NamespacedName, x: Shape)
    requires x.claim.Some? && ClaimAdvance(n, x).claim == x.claim
    requires !(x.claim.value.deleting && x.reference.Some?)
    ensures ClaimAtRest(n, ClaimAdvance(n, x))
  {
  }

  /** The pass that the last step of a run brought to its end. */
  function LastPass(run: seq<System>, n: NamespacedName): ClaimPass {
    if |run| > 1 && n in run[|run| - 2].slots then run[|run| - 2].slots[n].claimPass else ClaimIdle
  }

  class ProjectClaimReconciler {
    const world: World
    const name: NamespacedName

    constructor (world: World, name: NamespacedName)
      ensures this.world == world && this.name == name
    {
      this.world := world;
      this.name := name;
    }

    /** The operations, in the order in which the handler runs them. */
    method Operation(adapter: ClaimAdapter, i: nat, ghost before: Shape) returns (result: OperationResult, err: Error)
      requires adapter.Ready(i, before) && i < OPERATIONS
      modifies adapter, adapter.world
      ensures adapter.Leaves(i + 1, result, err, before)
    {
      match i
      case 0 => result, err := adapter.EnsureProjectClaimDeletionProcessed(before);
      case 1 => result, err := adapter.EnsureProjectClaimValidated(before);
      case 2 => result, err := adapter.EnsureProjectClaimInitialized(before);
      case 3 => result, err := adapter.EnsureRegionSupported(before);
      case 4 => result, err := adapter.EnsureProjectClaimState(Pending, 4, before);
      case 5 => result, err := adapter.EnsureProjectReferenceExists(before);
      case 6 => result, err := adapter.EnsureProjectReferenceLink(before);
      case 7 => result, err := adapter.EnsureFinalizer(before);
      case 8 => result, err := adapter.EnsureCCSSecretFinalizer(before);
      case _ => result, err := adapter.EnsureProjectClaimState(PendingProject, 9, before);
    }

    method ReconcileHandler(adapter: ClaimAdapter, ghost before: Shape) returns (delay: nat, err: Error)
      requires adapter.Ready(0, before)
      modifies adapter, adapter.world
      ensures adapter.Attached() && (err == NoError ==> KeptInMind(adapter.name, adapter.Pass(), delay))
      ensures adapter.smooth ==>
                && err == NoError && before.claim.Some? && adapter.TheShape() == Handled(adapter.name, before)
                && (before.claim.value.deleting && before.reference.Some? ==> delay > 0)
                && (adapter.TheSlot().claim.Some? ==> adapter.projectClaim.status == adapter.Pass().local.status)
                && (adapter.TheSlot().reference.Some? && adapter.start.reference.Some? ==>
                      adapter.start.secrets.Keys == adapter.TheSlot().secrets.Keys)
                && (SettledSlot(adapter.name, adapter.start) ==> adapter.Untouched())
    {
      for i := 0 to OPERATIONS
        invariant adapter.Ready(i, before)
      {
        var result;
        result, err := Operation(adapter, i, before);
        if err != NoError || result.requeue {
          return result.delay, err;
        }
        if result.cancel {
          return 0, NoError;
        }
      }
      return 0, NoError;
    }

    /** The operations, and then the status write at the end of the pass. */
    method Attend(ghost smooth: bool, ghost start: Slot) returns (delay: nat, err: Error)
      requires world.Valid() && name in world.sys.slots
      requires exists s: Slot :: ClaimMay(name, s, CStart) && world.sys.slots[name] == ClaimStep(name, s, CStart, Ok)
      requires smooth ==>
                 && world.quiet && world.sys.slots[name] == start.(claimPass := world.sys.slots[name].claimPass)
                 && FavourableClaim(name, start.claim, start.secrets, world.config.disabledRegions)
                 && start.claim == Some(world.sys.slots[name].claimPass.local)
      modifies world
      ensures world.Valid() && name in world.sys.slots && world.sys.slots[name].claimPass.ClaimRunning?
      ensures err == NoError ==> KeptInMind(name, world.sys.slots[name].claimPass, delay)
      ensures smooth ==>
                && err == NoError && world.sys.cloud == old(world.sys.cloud)
                && PassDone(name, start, world.sys.slots[name], world.config.disabledRegions)
                && (start.claim.value.deleting && start.reference.Some? ==> delay > 0)
    {
      ghost var before := ShapeOf(start.claim, start.reference);
      var adapter := new ClaimAdapter(world, name, world.sys.slots[name].claimPass.local, smooth, start, world.sys.cloud);
      delay, err := ReconcileHandler(adapter, before);
      Conclude(adapter, before, err, delay);
    }

    /** The status write at the end of a pass. */
    method Conclude(adapter: ClaimAdapter, ghost before: Shape, failure: Error, ghost delay: nat)
      requires adapter.Attached() && adapter.name == name && adapter.world == world
      requires adapter.smooth ==>
                 && failure == NoError && adapter.start.claim.Some? && before == ShapeOf(adapter.start.claim, adapter.start.reference)
                 && adapter.TheShape() == Handled(name, before)
                 && (adapter.TheSlot().claim.Some? ==> adapter.projectClaim.status == adapter.Pass().local.status)
                 && (adapter.TheSlot().reference.Some? && adapter.start.reference.Some? ==>
                       adapter.start.secrets.Keys == adapter.TheSlot().secrets.Keys)
                 && (SettledSlot(name, adapter.start) ==> adapter.Untouched())
      modifies adapter, world
      ensures world.Valid() && name in world.sys.slots && world.sys.slots[name].claimPass.ClaimRunning?
      ensures old(KeptInMind(name, adapter.Pass(), delay)) ==> KeptInMind(name, world.sys.slots[name].claimPass, delay)
      ensures adapter.smooth ==>
                world.sys.cloud == adapter.cloud && PassDone(name, adapter.start, world.sys.slots[name], world.config.disabledRegions)
    {
      ghost var p := adapter.Pass();
      var ignored, unstored := adapter.SetProjectClaimCondition(ConditionError, RECONCILE_ERROR, failure);
      if KeptInMind(name, p, delay) && adapter.Pass() != p {
        StoredInMind(name, p, adapter.Pass(), delay);
      }
      if adapter.smooth {
        assert SettledSlot(name, adapter.start) ==> !ClaimShapeOf(adapter.start.claim.value).failing;
      }
    }

    /** One reconcile run of the controller: whatever else happens meanwhile, all it does are steps of the protocol;
        if nothing stands in its way and nobody disturbs it, the stored objects advance by one stage;
        and a claim that needs nothing more is not written at all. */
    method Reconcile() returns (delay: nat, err: Error)
      requires world.Valid() && name in world.sys.slots && world.sys.slots[name].claimPass.ClaimIdle?
      modifies world
      ensures world.Valid() && name in world.sys.slots && world.sys.slots[name].claimPass.ClaimIdle?
      ensures var before := old(world.sys.slots[name]);
              world.quiet && FavourableClaim(name, before.claim, before.secrets, world.config.disabledRegions) ==>
                && err == NoError && world.sys.cloud == old(world.sys.cloud)
                && PassDone(name, before, world.sys.slots[name], world.config.disabledRegions)
                && Woken(name, delay, before, world.sys.slots[name])
      ensures world.quiet && old(world.sys.slots[name].claim.None?) ==> world.sys == old(world.sys)
      ensures err == NoError ==> world.sys.slots[name].claim.None? || KeptInMind(name, LastPass(world.run, name), delay)
    {
      ghost var start := world.sys.slots[name];
      ghost var smooth := world.quiet && FavourableClaim(name, start.claim, start.secrets, world.config.disabledRegions);
      err := world.StartClaimPass(name);
      if err != NoError {
        return 0, if err == NotFound then NoError else err;
      }
      delay, err := Attend(smooth, start);
      world.EndClaimPass(name);
      if smooth && delay == 0 && world.sys.slots[name].claim == start.claim {
        UnchangedIsAtRest(name, ShapeOf(start.claim, start.reference));
      }
    }
  }
}
