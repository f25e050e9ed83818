/** The two controllers' reconcile runs in a world where nothing goes wrong: any fair schedule serves a claim, and retires it. */
module Schedules {
  import opened Operations
  import opened Conditions
  import opened Objects
  import opened Protocol
  import opened Shapes
  import opened Worlds
  import opened Progress
  import opened ClaimAdapters
  import opened ReferenceAdapters
  import opened ClaimControllers
  import opened ReferenceControllers
  import Invariant
  import Safety
  import Theorems

  /** Nothing stands in the way of either controller, and neither is at work. */
  ghost predicate Undisturbed(n: NamespacedName, s: Slot, projects: map<string, Project>, config: OperatorConfig) {
    && s.claimPass.ClaimIdle? && s.refPass.ReferenceIdle? && "" !in projects
    && (s.claim.Some? ==>
          && FavourableClaim(n, s.claim, s.secrets, config.disabledRegions)
          && (s.claim.value.deleting ==> s.claim.value.finalizers != [])
          && (!s.claim.value.deleting && s.reference.None? && s.claim.value.spec.ccs ==> s.claim.value.spec.ccsProjectID in projects))
    && (s.reference.Some? ==>
          && Favourable(s.claim, s.reference, s.secrets, projects, HasGroups(config))
          && (s.reference.value.finalizers != [] ==> s.reference.value.status.conditions.Some?)
          && (s.reference.value.deleting ==> s.claim.value.deleting))
  }

  lemma ClaimPassLeavesClaim(n: NamespacedName, x: Shape, y: Shape)
    requires x.claim.Some? && y == ClaimAdvance(n, x)
    requires x.claim.value.deleting ==> x.claim.value.finalizers != []
    ensures y.claim.Some? ==>
              && y.claim.value.deleting == x.claim.value.deleting
              && (y.claim.value.deleting ==> y.claim.value.finalizers != [])
              && y.claim.value.spec == x.claim.value.spec.(link := y.claim.value.spec.link)
    ensures y.claim.None? ==> x.claim.value.deleting && x.reference.None?
  {
  }

  lemma ClaimPassLeavesReference(n: NamespacedName, x: Shape, y: Shape)
    requires x.claim.Some? && y == ClaimAdvance(n, x)
    ensures x.reference.Some? && y.reference.Some? ==>
              || y.reference == x.reference
              || (x.claim.value.deleting && x.reference.value.finalizers != [] && y.reference == Some(x.reference.value.(deleting := true)))
    ensures x.reference.None? && y.reference.Some? ==>
              y.reference == Some(NewReferenceShape(n, x.claim.value.spec)) && !x.claim.value.deleting
    ensures x.reference.Some? && y.reference.None? ==> x.claim.value.deleting
  {
  }

  lemma ClaimPassLeavesUndisturbed(n: NamespacedName, s: Slot, t: Slot, projects: map<string, Project>, config: OperatorConfig)
    requires Undisturbed(n, s, projects, config) && s.claim.Some?
    requires ShapeOf(t.claim, t.reference) == ClaimAdvance(n, ShapeOf(s.claim, s.reference))
    requires t.claim.Some? ==> FavourableClaim(n, t.claim, t.secrets, config.disabledRegions)
    requires t.reference.Some? && s.reference.Some? ==> s.secrets.Keys <= t.secrets.Keys
    requires t.claimPass.ClaimIdle? && t.refPass.ReferenceIdle?
    ensures Undisturbed(n, t, projects, config)
  {
    ClaimPassLeavesClaim(n, ShapeOf(s.claim, s.reference), ShapeOf(t.claim, t.reference));
    ClaimPassLeavesReference(n, ShapeOf(s.claim, s.reference), ShapeOf(t.claim, t.reference));
  }

  lemma ReferencePassLeavesShape(x: Shape, y: Shape)
    requires x.claim.Some? && ReferenceAdvance(x, y)
    requires x.reference.value.finalizers != [] ==> x.reference.value.initialized
    ensures y.claim.Some?
    ensures var c, d := x.claim.value, y.claim.value;
            d.deleting == c.deleting && d.finalizers == c.finalizers
            && d.spec == c.spec.(zones := d.spec.zones, projectID := d.spec.projectID)
    ensures y.reference.Some? ==>
              && y.reference.value.deleting == x.reference.value.deleting
              && (y.reference.value.finalizers != [] ==> y.reference.value.initialized)
    ensures y.reference.None? || y.reference.value.deleting ==> x.reference.value.deleting
    ensures x.reference.value.deleting && x.reference.value.initialized ==> y.reference.None?
  {
  }

  lemma ReferencePassLeavesUndisturbed(n: NamespacedName, s: Slot, t: Slot, before: map<string, Project>, after: map<string, Project>,
                                       config: OperatorConfig)
    requires Undisturbed(n, s, before, config) && s.reference.Some? && "" !in after
    requires ReferenceAdvance(ShapeOf(s.claim, s.reference), ShapeOf(t.claim, t.reference))
    requires StaysFavourable(t.claim, t.reference, t.secrets, after, HasGroups(config))
    requires t.reference.Some? && !t.reference.value.deleting ==> KeepsSecrets(s.secrets, t.secrets)
    requires t.claimPass.ClaimIdle? && t.refPass.ReferenceIdle?
    ensures Undisturbed(n, t, after, config)
  {
    ReferencePassLeavesShape(ShapeOf(s.claim, s.reference), ShapeOf(t.claim, t.reference));
  }

  function ShapeIn(world: World, n: NamespacedName): Shape
    requires n in world.sys.slots
    reads world
  {
    ShapeOf(world.sys.slots[n].claim, world.sys.slots[n].reference)
  }

  /** A quiet world with a usable configuration, in which nothing stands in the way. */
  ghost predicate Calm(world: World, n: NamespacedName)
    reads world
  {
    && world.Valid() && n in world.sys.slots
    && world.Calm() && ValidConfig(world.config)
    && Undisturbed(n, world.sys.slots[n], world.sys.cloud.projects, world.config)
  }

  lemma NoEmptyID(world: World, n: NamespacedName)
    requires world.Valid() && n in world.sys.slots
    ensures "" !in world.sys.cloud.projects
  {
    Safety.ReachableHasInv(world.sys);
    assert Invariant.SlotInv(n, world.sys.slots[n], world.sys.cloud);
  }

  /** A controller has something to work on. */
  predicate Concerned(who: Controller, x: Shape) {
    match who
    case TheClaims => x.claim.Some?
    case TheReferences => x.reference.Some?
  }

  /** Nothing is left to do for the controller itself, though perhaps for the other one. */
  predicate Resting(n: NamespacedName, who: Controller, x: Shape) {
    match who
    case TheClaims => ClaimAtRest(n, x)
    case TheReferences => AtRest(x)
  }

  /** One reconcile run. `again` says that the controller will run again of its own accord: after a while, or because
      it has written its own kind of object. It will, unless there is nothing left to do for it. */
  method Pass(world: World, n: NamespacedName, who: Controller) returns (again: bool)
    requires Calm(world, n)
    modifies world
    ensures Calm(world, n) && Advances(n, who, old(ShapeIn(world, n)), ShapeIn(world, n))
    ensures Concerned(who, old(ShapeIn(world, n))) ==> again || Resting(n, who, ShapeIn(world, n))
  {
    ghost var s, projects := world.sys.slots[n], world.sys.cloud.projects;
    var before := world.sys.slots[n];
    if who == TheClaims {
      var reconciler := new ProjectClaimReconciler(world, n);
      var delay, err := reconciler.Reconcile();
      again := delay > 0 || world.sys.slots[n].claim != before.claim;
      if s.claim.Some? {
        ClaimPassLeavesUndisturbed(n, s, world.sys.slots[n], projects, world.config);
      }
    } else {
      var reconciler := new ProjectReferenceReconciler(world, n);
      var delay, err := reconciler.Reconcile();
      again := delay > 0 || world.sys.slots[n].reference != before.reference;
      if s.reference.Some? {
        NoEmptyID(world, n);
        ReferencePassLeavesUndisturbed(n, s, world.sys.slots[n], projects, world.sys.cloud.projects, world.config);
      }
    }
  }

  /** Nobody but the operator holds the claim. */
  predicate OnlyOwn(x: Shape) {
    x.claim.Some? ==> forall f :: f in x.claim.value.finalizers ==> f == FINALIZER
  }

  lemma PassKeepsOnlyOwn(n: NamespacedName, who: Controller, x: Shape, y: Shape)
    requires Advances(n, who, x, y)
    ensures OnlyOwn(x) ==> OnlyOwn(y)
  {
    if who == TheReferences && x.reference.Some? && x.claim.Some? {
      ReferencePassLeavesHolders(x, y);
    }
  }

  lemma ReferencePassLeavesHolders(x: Shape, y: Shape)
    requires x.claim.Some? && ReferenceAdvance(x, y)
    ensures y.claim.Some? && y.claim.value.finalizers == x.claim.value.finalizers
  {
  }

  /** The reference gives its service account the access to a shared network that the claim asks for. */
  predicate SharesNetwork(x: Shape) {
    x.claim.Some? && x.reference.Some? ==> x.reference.value.spec.sharedVPC == x.claim.value.spec.sharedVPC
  }

  /** What passes keep while they serve the claim. */
  predicate Inherits(x: Shape, y: Shape) {
    && (OnlyOwn(x) ==> OnlyOwn(y)) && (SharesNetwork(x) ==> SharesNetwork(y))
    && x.claim.Some? && y.claim.Some? && x.claim.value.spec.sharedVPC == y.claim.value.spec.sharedVPC
  }

  lemma PassInherits(n: NamespacedName, who: Controller, start: Shape, x: Shape, y: Shape)
    requires Inherits(start, x) && Advances(n, who, x, y) && y.claim.Some?
    ensures Inherits(start, y)
  {
    PassKeepsOnlyOwn(n, who, x, y);
    if who == TheReferences && x.reference.Some? {
      ReferencePassLeavesNetwork(x, y);
    }
  }

  lemma ReferencePassLeavesNetwork(x: Shape, y: Shape)
    requires x.claim.Some? && ReferenceAdvance(x, y)
    ensures y.claim.Some? && y.claim.value.spec.sharedVPC == x.claim.value.spec.sharedVPC
    ensures y.reference.Some? ==> y.reference.value.spec.sharedVPC == x.reference.value.spec.sharedVPC
  {
  }

  /** The service account of the claim's project has the role there, unless others took it away. */
  predicate HasRole(s: Slot, projects: map<string, Project>, role: string) {
    && s.reference.Some? && s.reference.value.spec.projectID in projects
    && var p, account := projects[s.reference.value.spec.projectID], ServiceAccount(s.reference.value.spec.accountName);
       (role, account) in p.grants <==> (role, account) !in p.taken.grants
  }

  /** What a claim that was served has in its project: the account's roles by name, more of them if it asked for access to a shared network. */
  predicate HasRoles(s: Slot, projects: map<string, Project>, sharedVPC: bool) {
    && (forall role | role in {"roles/compute.admin", "roles/dns.admin", "roles/iam.roleAdmin", "roles/iam.securityAdmin",
                               "roles/iam.serviceAccountAdmin", "roles/iam.serviceAccountKeyAdmin", "roles/iam.serviceAccountUser",
                               "roles/storage.admin"} :: HasRole(s, projects, role))
    && (sharedVPC ==>
          forall role | role in {"roles/iam.securityReviewer", "roles/compute.loadBalancerAdmin", "roles/resourcemanager.tagUser",
                                 "roles/compute.networkAdmin"} :: HasRole(s, projects, role))
  }

  lemma ReadyHasRoles(s: System, n: NamespacedName)
    requires Reachable(s) && n in s.slots
    requires var x := ShapeOf(s.slots[n].claim, s.slots[n].reference); BothReady(x) && SharesNetwork(x) && !x.reference.value.deleting
    ensures HasRoles(s.slots[n], s.cloud.projects, s.slots[n].claim.value.spec.sharedVPC)
  {
    Theorems.ReadyIsSound(s, n);
    var slot := s.slots[n];
    forall role | role in AccountRoles(slot.claim.value.spec.sharedVPC)
      ensures HasRole(slot, s.cloud.projects, role)
    {
    }
    forall role: string {
      Theorems.AccountRolesByName(slot.claim.value.spec.sharedVPC, role);
    }
  }

  /** Both controllers get their turn. */
  predicate Fair(schedule: seq<Controller>) {
    TheClaims in schedule && TheReferences in schedule
  }

  predicate AllFair(rounds: seq<seq<Controller>>) {
    forall i :: 0 <= i < |rounds| ==> Fair(rounds[i])
  }

  /** Once each controller has had its turn, less is left to do, unless there was nothing. */
  method BuildingRound(world: World, n: NamespacedName, schedule: seq<Controller>)
    requires Calm(world, n) && ToBeBuilt(ShapeIn(world, n)) && Fair(schedule)
    modifies world
    ensures Calm(world, n) && ToBeBuilt(ShapeIn(world, n))
    ensures Stages(n, ShapeIn(world, n)) < Stages(n, old(ShapeIn(world, n))) || Stages(n, ShapeIn(world, n)) == 0
    ensures Inherits(old(ShapeIn(world, n)), ShapeIn(world, n))
  {
    ghost var start := ShapeIn(world, n);
    for i := 0 to |schedule|
      invariant Calm(world, n) && Turned(n, start, ShapeIn(world, n), schedule[..i])
      invariant Inherits(start, ShapeIn(world, n))
    {
      ghost var before := ShapeIn(world, n);
      var again := Pass(world, n, schedule[i]);
      TurnBuilds(n, start, before, schedule[..i], schedule[i], ShapeIn(world, n));
      PassInherits(n, schedule[i], start, before, ShapeIn(world, n));
      assert schedule[..i + 1] == schedule[..i] + [schedule[i]];
    }
    assert schedule[..|schedule|] == schedule;
  }

  /** Convergence: as many fair rounds as there are stages left get the claim and its reference to Ready. */
  method Serve(world: World, n: NamespacedName, rounds: seq<seq<Controller>>)
    requires Calm(world, n) && ToBeBuilt(ShapeIn(world, n)) && AllFair(rounds)
    requires |rounds| >= Stages(n, ShapeIn(world, n))
    modifies world
    ensures Calm(world, n) && BothReady(ShapeIn(world, n))
    ensures OnlyOwn(old(ShapeIn(world, n))) ==> OnlyOwn(ShapeIn(world, n))
    ensures SharesNetwork(old(ShapeIn(world, n))) ==>
              HasRoles(world.sys.slots[n], world.sys.cloud.projects, old(ShapeIn(world, n).claim.value.spec.sharedVPC))
  {
    for i := 0 to |rounds|
      invariant Calm(world, n) && ToBeBuilt(ShapeIn(world, n))
      invariant Stages(n, ShapeIn(world, n)) <= |rounds| - i
      invariant Inherits(old(ShapeIn(world, n)), ShapeIn(world, n))
    {
      BuildingRound(world, n, rounds[i]);
    }
    NothingLeftIsReady(n, ShapeIn(world, n));
    if SharesNetwork(ShapeIn(world, n)) {
      ReadyHasRoles(world.sys, n);
    }
  }

  method DeletingRound(world: World, n: NamespacedName, schedule: seq<Controller>)
    requires Calm(world, n) && (ToBeDeleted(ShapeIn(world, n)) || BothDeleted(ShapeIn(world, n))) && Fair(schedule)
    modifies world
    ensures Calm(world, n) && (ToBeDeleted(ShapeIn(world, n)) || BothDeleted(ShapeIn(world, n)))
    ensures Remains(ShapeIn(world, n)) < Remains(old(ShapeIn(world, n))) || Remains(ShapeIn(world, n)) == 0
    ensures OnlyOwn(old(ShapeIn(world, n))) ==> OnlyOwn(ShapeIn(world, n))
  {
    ghost var start := ShapeIn(world, n);
    for i := 0 to |schedule|
      invariant Calm(world, n) && TurnedDown(start, ShapeIn(world, n), schedule[..i])
      invariant OnlyOwn(start) ==> OnlyOwn(ShapeIn(world, n))
    {
      ghost var before := ShapeIn(world, n);
      var again := Pass(world, n, schedule[i]);
      TurnDeletes(n, start, before, schedule[..i], schedule[i], ShapeIn(world, n));
      PassKeepsOnlyOwn(n, schedule[i], before, ShapeIn(world, n));
      assert schedule[..i + 1] == schedule[..i] + [schedule[i]];
    }
    assert schedule[..|schedule|] == schedule;
  }

  /** Deletion progress: as many fair rounds as something remains for get rid of the reference,
      and of the claim if nobody else holds it; no active project of theirs is left, unless it was abandoned before. */
  method Retire(world: World, n: NamespacedName, rounds: seq<seq<Controller>>)
    requires Calm(world, n) && ToBeDeleted(ShapeIn(world, n)) && AllFair(rounds)
    requires |rounds| >= Remains(ShapeIn(world, n))
    modifies world
    ensures Calm(world, n) && BothDeleted(ShapeIn(world, n)) && NoProjectLeft(world, n)
    ensures OnlyOwn(old(ShapeIn(world, n))) ==> ShapeIn(world, n).claim.None?
  {
    for i := 0 to |rounds|
      invariant Calm(world, n) && (ToBeDeleted(ShapeIn(world, n)) || BothDeleted(ShapeIn(world, n)))
      invariant Remains(ShapeIn(world, n)) <= |rounds| - i
      invariant OnlyOwn(old(ShapeIn(world, n))) ==> OnlyOwn(ShapeIn(world, n))
    {
      DeletingRound(world, n, rounds[i]);
    }
    NothingRemains(ShapeIn(world, n));
    NobodyHolds(world, n);
    NoProjectWithoutReference(world, n);
  }

  /** A claim that nobody holds does not stay marked. */
  lemma NobodyHolds(world: World, n: NamespacedName)
    requires Calm(world, n) && BothDeleted(ShapeIn(world, n))
    ensures OnlyOwn(ShapeIn(world, n)) ==> ShapeIn(world, n).claim.None?
  {
    var claim := world.sys.slots[n].claim;
    if claim.Some? {
      assert claim.value.finalizers[0] in claim.value.finalizers;
    }
  }

  /** What the operator made for the claim is not active any more, but for projects whose ID was cleared after a failed creation. */
  ghost predicate NoProjectLeft(world: World, n: NamespacedName)
    requires world.run != []
    reads world
  {
    forall id | id in world.sys.cloud.projects && world.sys.cloud.projects[id].creator == Some(n) ::
      world.sys.cloud.projects[id].state != Active || Theorems.Cleared(world.run, |world.run| - 1, n, id)
  }

  lemma NoProjectWithoutReference(world: World, n: NamespacedName)
    requires world.Valid() && n in world.sys.slots && world.sys.slots[n].reference.None?
    ensures world.run != [] && NoProjectLeft(world, n)
  {
    forall id | id in world.sys.cloud.projects && world.sys.cloud.projects[id].creator == Some(n) && world.sys.cloud.projects[id].state == Active
      ensures Theorems.Cleared(world.run, |world.run| - 1, n, id)
    {
      Theorems.NoOrphanedProject(world.run, world.sys, id);
    }
  }

  lemma NothingRemains(x: Shape)
    requires (ToBeDeleted(x) || BothDeleted(x)) && Remains(x) == 0
    ensures BothDeleted(x)
  {
  }

  // A clean-up that does not come to an end

  /** A quiet world in which the claim is being deleted, and the clean-up of its reference is stuck. */
  ghost predicate CalmButStuck(world: World, n: NamespacedName)
    reads world
  {
    && world.Valid() && world.quiet && n in world.sys.slots
    && var s := world.sys.slots[n];
       && s.claimPass.ClaimIdle? && s.refPass.ReferenceIdle? && s.claim.Some? && s.claim.value.deleting
       && Stuck(s, world.sys.cloud.projects, HasGroups(world.config))
  }

  /** In every state of every run, the clean-up of a reference with conditions either has nothing in its way, or is stuck. */
  lemma FavourableUnlessStuck(s: System, n: NamespacedName, groups: bool)
    requires Reachable(s) && n in s.slots
    requires var r := s.slots[n].reference; r.Some? && r.value.deleting && r.value.status.conditions.Some?
    ensures var slot := s.slots[n];
            Favourable(slot.claim, slot.reference, slot.secrets, s.cloud.projects, groups) <==> !Stuck(slot, s.cloud.projects, groups)
  {
    Safety.ReachableHasInv(s);
    assert Invariant.SlotInv(n, s.slots[n], s.cloud);
  }

  lemma ClaimPassLeavesStuck(n: NamespacedName, s: Slot, t: Slot, projects: map<string, Project>, groups: bool)
    requires s.claim.Some? && s.claim.value.deleting && Stuck(s, projects, groups) && s.reference.value.finalizers != []
    requires ShapeOf(t.claim, t.reference) == ClaimAdvance(n, ShapeOf(s.claim, s.reference))
    requires t.reference.Some? ==> s.secrets.Keys == t.secrets.Keys
    ensures t.claim.Some? && t.claim.value.deleting && Stuck(t, projects, groups)
  {
    assert ShapeOf(t.claim, t.reference).reference == ShapeOf(s.claim, s.reference).reference;
  }

  lemma DeletedHoldsFinalizer(world: World, n: NamespacedName)
    requires world.Valid() && n in world.sys.slots
    ensures var r := world.sys.slots[n].reference; r.Some? && r.value.deleting ==> r.value.finalizers != []
  {
    Safety.ReachableHasInv(world.sys);
    assert Invariant.SlotInv(n, world.sys.slots[n], world.sys.cloud);
  }

  /** No number of passes of the two controllers, in any order, gets rid of such a reference, or of its claim. */
  method StayStuck(world: World, n: NamespacedName, schedule: seq<Controller>)
    requires CalmButStuck(world, n)
    modifies world
    ensures CalmButStuck(world, n)
  {
    for i := 0 to |schedule|
      invariant CalmButStuck(world, n)
    {
      ghost var s := world.sys.slots[n];
      DeletedHoldsFinalizer(world, n);
      if schedule[i] == TheClaims {
        var reconciler := new ProjectClaimReconciler(world, n);
        var delay, err := reconciler.Reconcile();
        ClaimPassLeavesStuck(n, s, world.sys.slots[n], world.sys.cloud.projects, HasGroups(world.config));
      } else {
        var reconciler := new ProjectReferenceReconciler(world, n);
        var delay, err := reconciler.Reconcile();
      }
    }
  }

  // Waiting for the Compute API

  /** A quiet world in which the Compute API is not ready, and a Ready reference waits for it. */
  ghost predicate CalmButWaiting(world: World, n: NamespacedName)
    reads world
  {
    && world.Valid() && world.quiet && world.zonesError == ComputeNotReady && ValidConfig(world.config)
    && n in world.sys.slots && world.sys.slots[n].refPass.ReferenceIdle? && AwaitsZones(world.sys.slots[n])
  }

  /** A failed probe of each pass, and then its report. */
  predicate ProbesAndReports(events: seq<Event>) {
    && |events| % 2 == 0
    && forall i :: 0 <= i < |events| ==> if i % 2 == 0 then events[i].FailedProbe? else events[i].Report? && events[i].kind == ConditionError
  }

  /** Each pass but for the time of its probe: an error exactly when more than ten minutes have passed since the first one's. */
  predicate ErrorsAreTimeouts(events: seq<Event>, errs: seq<Error>) {
    && |events| == 2 * |errs| && ProbesAndReports(events)
    && forall k :: 0 <= k < |errs| ==>
         errs[k] == (if events[2 * k].now - events[0].now > 600 then ComputeNotReady else NoError)
  }

  /** Reconcile runs while the Compute API is not ready: the stored conditions record a failed probe and a report each, the first probe's
      time decides which of the runs fail, and nothing else is stored. */
  method Wait(world: World, n: NamespacedName, passes: nat) returns (errs: seq<Error>, ghost events: seq<Event>)
    requires CalmButWaiting(world, n)
    requires var before := ConditionsOf(world.sys.slots[n]); OnePerKind(before) && !Has(before, ConditionComputeApiReady)
    modifies world
    ensures CalmButWaiting(world, n) && |errs| == passes && ErrorsAreTimeouts(events, errs)
    ensures ConditionsOf(world.sys.slots[n]) == After(old(ConditionsOf(world.sys.slots[n])), events)
    ensures world.sys.cloud == old(world.sys.cloud) && OnlyConditions(old(world.sys.slots[n]), world.sys.slots[n])
  {
    errs, events := [], [];
    ghost var first := ConditionsOf(world.sys.slots[n]);
    for i := 0 to passes
      invariant CalmButWaiting(world, n) && |errs| == i && ErrorsAreTimeouts(events, errs)
      invariant ConditionsOf(world.sys.slots[n]) == After(first, events)
      invariant world.sys.cloud == old(world.sys.cloud) && OnlyConditions(old(world.sys.slots[n]), world.sys.slots[n])
    {
      ghost var before := ConditionsOf(world.sys.slots[n]);
      var reconciler := new ProjectReferenceReconciler(world, n);
      var delay, err := reconciler.Reconcile();
      ghost var more := OnePassIsTwoEvents(first, events, errs, before, ConditionsOf(world.sys.slots[n]), delay, err);
      errs, events := errs + [err], events + more;
    }
  }

  lemma OnePassIsTwoEvents(first: seq<Condition>, events: seq<Event>, errs: seq<Error>, before: seq<Condition>, after: seq<Condition>,
                           delay: nat, err: Error)
    returns (more: seq<Event>)
    requires OnePerKind(first) && !Has(first, ConditionComputeApiReady) && before == After(first, events)
    requires ErrorsAreTimeouts(events, errs) && WaitedOnce(before, after, delay, err)
    ensures after == After(first, events + more) && ErrorsAreTimeouts(events + more, errs + [err])
  {
    var middle :| ProbedOnce(before, middle, delay, err) && ReportedOnce(middle, after, err);
    var now: Time :| middle == ProbeFailed(before, now)
                     && if TimedOut(before, now) then err == ComputeNotReady else err == NoError && delay == 30;
    var e: Event :| e.Report? && e.kind == ConditionError && after == After(middle, [e]);
    more := [FailedProbe(now), e];
    ProbeAndReport(first, events, now, e);
    if events != [] {
      TimeoutCountsFromFirstProbe(first, events, now);
    }
    OneMoreError(events, errs, now, e, err);
  }

  lemma OneMoreError(events: seq<Event>, errs: seq<Error>, now: Time, e: Event, err: Error)
    requires ErrorsAreTimeouts(events, errs) && e.Report? && e.kind == ConditionError
    requires err == if events != [] && now - events[0].now > 600 then ComputeNotReady else NoError
    ensures ErrorsAreTimeouts(events + [FailedProbe(now), e], errs + [err])
  {
    var all, codes := events + [FailedProbe(now), e], errs + [err];
    assert forall i :: 0 <= i < |events| ==> all[i] == events[i];
    assert forall k :: 0 <= k < |errs| ==> codes[k] == errs[k] && all[2 * k] == events[2 * k];
  }

  method Create(world: World, n: NamespacedName, spec: ClaimSpec)
    requires Calm(world, n) && world.sys.slots[n].claim.None? && world.sys.slots[n].reference.None?
    requires ValidClaim(n, spec) && Supported(spec, world.config.disabledRegions) && spec.link != ReferenceName(n)
    requires spec.ccs ==>
               && spec.ccsProjectID in world.sys.cloud.projects && spec.ccsSecret in world.sys.slots[n].secrets
               && !world.sys.slots[n].secrets[spec.ccsSecret].deleting
    modifies world
    ensures Calm(world, n) && ToBeBuilt(ShapeIn(world, n)) && Stages(n, ShapeIn(world, n)) <= 13 && OnlyOwn(ShapeIn(world, n))
  {
    world.Take(ByUser(n, CreateClaim([], spec)));
    FreshStages(n, spec);
  }

  method Delete(world: World, n: NamespacedName)
    requires Calm(world, n) && BothReady(ShapeIn(world, n))
    modifies world
    ensures Calm(world, n) && ToBeDeleted(ShapeIn(world, n)) && Remains(ShapeIn(world, n)) <= 4
    ensures OnlyOwn(old(ShapeIn(world, n))) ==> OnlyOwn(ShapeIn(world, n))
  {
    world.Take(ByUser(n, DeleteClaim));
  }

  /** Five claim passes and eight reference passes: thirteen rounds bring a new claim to Ready, whatever the order within a round;
      once it is deleted, four rounds leave neither claim nor reference nor an active project, but for abandoned ones. */
  method FromNothingToNothing(world: World, n: NamespacedName, spec: ClaimSpec, building: seq<seq<Controller>>, deleting: seq<seq<Controller>>)
    requires Calm(world, n) && world.sys.slots[n].claim.None? && world.sys.slots[n].reference.None?
    requires ValidClaim(n, spec) && Supported(spec, world.config.disabledRegions) && spec.link != ReferenceName(n)
    requires spec.ccs ==>
               && spec.ccsProjectID in world.sys.cloud.projects && spec.ccsSecret in world.sys.slots[n].secrets
               && !world.sys.slots[n].secrets[spec.ccsSecret].deleting
    requires AllFair(building) && |building| >= 13 && AllFair(deleting) && |deleting| >= 4
    modifies world
    ensures Calm(world, n) && world.sys.slots[n].claim.None? && world.sys.slots[n].reference.None? && NoProjectLeft(world, n)
  {
    Create(world, n, spec);
    Serve(world, n, building);
    Delete(world, n);
    Retire(world, n, deleting);
  }

  // Wake-ups

  function Other(who: Controller): Controller {
    if who == TheClaims then TheReferences else TheClaims
  }

  /** Whoever has something to do will run again. */
  predicate NobodyForgets(n: NamespacedName, awake: set<Controller>, x: Shape) {
    forall who: Controller :: Concerned(who, x) ==> who in awake || Resting(n, who, x)
  }

  /** A controller at rest has something to do again only when the other one writes its object. */
  lemma StaysAtRest(n: NamespacedName, who: Controller, x: Shape, y: Shape)
    requires Advances(n, Other(who), x, y) && Concerned(who, x) && Resting(n, who, x) && Concerned(who, y)
    requires if who == TheClaims then y.claim == x.claim else y.reference == x.reference
    requires x.reference.Some? && x.reference.value.deleting ==> x.claim.Some? && x.claim.value.deleting
    ensures Resting(n, who, y)
  {
  }

  lemma StaysRemembered(n: NamespacedName, awake: set<Controller>, who: Controller, again: bool, x: Shape, y: Shape)
    requires Advances(n, who, x, y) && NobodyForgets(n, awake, x)
    requires Concerned(who, x) ==> again || Resting(n, who, y)
    requires x.reference.Some? && x.reference.value.deleting ==> x.claim.Some? && x.claim.value.deleting
    ensures var written := if who == TheClaims then y.reference != x.reference else y.claim != x.claim;
            NobodyForgets(n, awake - {who} + (if again then {who} else {}) + (if written then {Other(who)} else {}), y)
  {
    var other := Other(who);
    if Concerned(other, x) && Concerned(other, y) && Resting(n, other, x)
       && (if other == TheClaims then y.claim == x.claim else y.reference == x.reference) {
      StaysAtRest(n, other, x, y);
    }
  }

  /** Passes in any order, with a record of who will run again: whoever waits for a while, and whoever has had its object written.
      Nobody with anything left to do is ever forgotten. */
  method Watch(world: World, n: NamespacedName, schedule: seq<Controller>) returns (awake: set<Controller>)
    requires Calm(world, n)
    modifies world
    ensures Calm(world, n) && NobodyForgets(n, awake, ShapeIn(world, n))
    ensures awake == {} && ToBeBuilt(ShapeIn(world, n)) ==> BothReady(ShapeIn(world, n))
    ensures awake == {} && ToBeDeleted(ShapeIn(world, n)) ==> BothDeleted(ShapeIn(world, n))
  {
    awake := {TheClaims, TheReferences};
    for i := 0 to |schedule|
      invariant Calm(world, n) && NobodyForgets(n, awake, ShapeIn(world, n))
    {
      awake := WatchOne(world, n, awake, schedule[i]);
    }
    EverybodyRests(n, awake, ShapeIn(world, n));
  }

  method WatchOne(world: World, n: NamespacedName, before: set<Controller>, who: Controller) returns (awake: set<Controller>)
    requires Calm(world, n) && NobodyForgets(n, before, ShapeIn(world, n))
    modifies world
    ensures Calm(world, n) && NobodyForgets(n, awake, ShapeIn(world, n))
  {
    var x := ShapeIn(world, n);
    var again := Pass(world, n, who);
    var y := ShapeIn(world, n);
    var written := if who == TheClaims then y.reference != x.reference else y.claim != x.claim;
    awake := before - {who} + (if again then {who} else {}) + (if written then {Other(who)} else {});
    StaysRemembered(n, before, who, again, x, y);
  }

  /** When nobody will run again of its own accord, the claim is served, or gone. */
  lemma EverybodyRests(n: NamespacedName, awake: set<Controller>, x: Shape)
    requires NobodyForgets(n, awake, x)
    ensures awake == {} && ToBeBuilt(x) ==> BothReady(x)
    ensures awake == {} && ToBeDeleted(x) ==> BothDeleted(x)
  {
    if awake == {} && x.claim.Some? {
      assert Concerned(TheClaims, x) && Resting(n, TheClaims, x);
      assert Concerned(TheReferences, x) ==> Resting(n, TheReferences, x);
    }
  }

  // A claim that needs nothing more

  /** The claim is where its controller leaves it, but for problems that were reported and not yet marked as resolved. */
  predicate Served(n: NamespacedName, x: Shape) {
    && x.claim.Some? && x.reference.Some? && SettledClaim(n, x.claim.value.(invalid := false, failing := false))
  }

  lemma OnePassSettles(n: NamespacedName, x: Shape)
    requires Served(n, x)
    ensures ClaimAdvance(n, x) == x.(claim := Some(x.claim.value.(invalid := false, failing := false)))
    ensures ClaimAdvance(n, ClaimAdvance(n, x)) == ClaimAdvance(n, x)
  {
  }

  /** Quiescence: after one pass over such a claim, no number of further passes writes anything. */
  method Settle(world: World, n: NamespacedName, passes: nat) returns (ghost settled: Slot)
    requires Calm(world, n) && Served(n, ShapeIn(world, n))
    requires HoldsSecret(world.sys.slots[n].claim, world.sys.slots[n].secrets)
    modifies world
    ensures Calm(world, n) && SettledSlot(n, settled) && world.sys.slots[n] == settled
    ensures ShapeOf(settled.claim, settled.reference) == ClaimAdvance(n, old(ShapeIn(world, n)))
  {
    OnePassSettles(n, ShapeIn(world, n));
    ghost var before := world.sys.slots[n];
    var reconciler := new ProjectClaimReconciler(world, n);
    var delay, err := reconciler.Reconcile();
    settled := world.sys.slots[n];
    ClaimPassLeavesUndisturbed(n, before, settled, world.sys.cloud.projects, world.config);
    for i := 0 to passes
      invariant Calm(world, n) && world.sys.slots[n] == settled && SettledSlot(n, settled)
    {
      delay, err := reconciler.Reconcile();
    }
  }
}
