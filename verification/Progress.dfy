/** Undisturbed passes of the two controllers, in any order, get a claim and its reference to Ready, and get both deleted. */
module Progress {
  import opened Lists
  import opened Objects
  import opened Protocol
  import opened Shapes

  datatype Controller = TheClaims | TheReferences

  /** One undisturbed pass of a controller; there is nothing to do for it where its object is missing. */
  predicate Advances(n: NamespacedName, who: Controller, x: Shape, y: Shape) {
    match who
    case TheClaims => y == if x.claim.Some? then ClaimAdvance(n, x) else x
    case TheReferences => if x.reference.Some? then ReferenceAdvance(x, y) else y == x
  }

  function Count(open: bool): nat {
    if open then 1 else 0
  }

  // Building

  /** The claim is to be served, and its reference is to be built. */
  predicate ToBeBuilt(x: Shape) {
    && x.claim.Some? && !x.claim.value.deleting
    && (x.reference.Some? ==>
          var r := x.reference.value;
          !r.deleting && (r.state == RefReady ==> r.spec.projectID != "" && AccountNamed(r.spec.accountName) && FINALIZER in r.finalizers))
    && (x.claim.value.state == ClaimState.Ready ==>
          x.reference.Some? && x.reference.value.state == RefReady && x.claim.value.spec.zones != [])
  }

  /** What is left to do for the claim controller. */
  function ClaimStages(n: NamespacedName, x: Shape): nat
    requires x.claim.Some?
  {
    var c := x.claim.value;
    StatusStages(c) + LinkStages(n, c, x.reference.None?)
  }

  function StatusStages(c: ClaimShape): nat {
    Count(!c.initialized) + Count(c.invalid) + Count(c.failing) + Count(c.state == Unset)
    + Count(c.state != PendingProject && c.state != ClaimState.Ready)
  }

  function LinkStages(n: NamespacedName, c: ClaimShape, missing: bool): nat {
    Count(c.spec.link != ReferenceName(n)) + Count(c.spec.link == ReferenceName(n) && missing) + Count(FINALIZER !in c.finalizers)
  }

  /** What is left to do for the reference controller. */
  function ReferenceStages(n: NamespacedName, x: Shape): nat
    requires x.claim.Some?
  {
    var c := x.claim.value;
    BuildingStages(if x.reference.Some? then x.reference.value else NewReferenceShape(n, c.spec))
    + Count(c.spec.zones == []) + Count(c.state != ClaimState.Ready)
  }

  function BuildingStages(r: ReferenceShape): nat {
    Count(!r.initialized) + Count(r.failing) + Count(r.state == RefUnset) + Count(r.spec.projectID == "") + Count(!AccountNamed(r.spec.accountName))
    + Count(FINALIZER !in r.finalizers) + Count(r.state != RefReady)
  }

  function Stages(n: NamespacedName, x: Shape): nat
    requires x.claim.Some?
  {
    ClaimStages(n, x) + ReferenceStages(n, x)
  }

  predicate BothReady(x: Shape) {
    && x.claim.Some? && x.claim.value.state == ClaimState.Ready && x.claim.value.spec.zones != []
    && FINALIZER in x.claim.value.finalizers
    && x.reference.Some? && x.reference.value.state == RefReady
  }

  /** A new claim is at most five productive claim passes and eight productive reference passes away from Ready. */
  lemma FreshStages(n: NamespacedName, spec: ClaimSpec)
    requires spec.link != ReferenceName(n)
    ensures var x := Shape(Some(ClaimShape(false, [], spec, false, false, false, Unset)), None);
            ToBeBuilt(x) && ClaimStages(n, x) == 5 && ReferenceStages(n, x) <= 8
  {
  }

  lemma ClaimPassBuilds(n: NamespacedName, x: Shape)
    requires ToBeBuilt(x)
    ensures var y := ClaimAdvance(n, x);
            && ToBeBuilt(y)
            && (if ClaimStages(n, x) == 0 then y == x else ClaimStages(n, y) < ClaimStages(n, x))
  {
    var c := x.claim.value;
    if !c.initialized {
    } else if c.invalid {
    } else if c.state == Unset {
    } else if c.spec.link != ReferenceName(n) {
    } else if FINALIZER !in c.finalizers {
    } else if c.state == Pending || c.state == ClaimState.Error {
    } else {
    }
  }

  lemma ClaimPassLeavesReferenceStages(n: NamespacedName, x: Shape)
    requires ToBeBuilt(x)
    ensures ReferenceStages(n, ClaimAdvance(n, x)) == ReferenceStages(n, x)
  {
    var c, d := x.claim.value, ClaimAdvance(n, x).claim.value;
    assert d.spec.zones == c.spec.zones && (d.state == ClaimState.Ready <==> c.state == ClaimState.Ready);
    assert NewReferenceShape(n, d.spec) == NewReferenceShape(n, c.spec);
  }

  lemma ReferencePassBuilds(n: NamespacedName, x: Shape, y: Shape)
    requires ToBeBuilt(x) && x.reference.Some? && ReferenceAdvance(x, y)
    ensures ToBeBuilt(y)
    ensures y == x || ReferenceStages(n, y) < ReferenceStages(n, x)
    ensures ClaimStages(n, x) == 0 && ReferenceStages(n, x) > 0 ==> y != x
  {
    var c, r := x.claim.value, x.reference.value;
    if !r.initialized {
    } else if r.state == RefReady {
      if c.state == ClaimState.Ready {
      } else if c.spec.zones == [] {
      } else {
      }
    } else if c.state != PendingProject {
    } else if r.state == RefUnset {
    } else if r.spec.projectID == "" {
    } else if !AccountNamed(r.spec.accountName) {
    } else if FINALIZER !in r.finalizers {
    } else {
    }
  }

  lemma ReferencePassLeavesClaimStages(n: NamespacedName, x: Shape, y: Shape)
    requires ToBeBuilt(x) && x.reference.Some? && ReferenceAdvance(x, y) && ToBeBuilt(y)
    ensures ClaimStages(n, y) <= ClaimStages(n, x)
  {
    var c, d := x.claim.value, y.claim.value;
    assert y.reference.Some? && d.spec.link == c.spec.link && d.finalizers == c.finalizers;
    assert d == c.(spec := d.spec, state := d.state) && (d.state == c.state || d.state == ClaimState.Ready);
  }

  /** No pass adds to what is left to do, and one that changes anything leaves less. */
  lemma PassBuilds(n: NamespacedName, who: Controller, x: Shape, y: Shape)
    requires ToBeBuilt(x) && Advances(n, who, x, y)
    ensures ToBeBuilt(y) && (y == x || Stages(n, y) < Stages(n, x))
    ensures who == TheClaims && ClaimStages(n, x) > 0 ==> Stages(n, y) < Stages(n, x)
    ensures who == TheReferences && ClaimStages(n, x) == 0 && Stages(n, x) > 0 ==> Stages(n, y) < Stages(n, x)
  {
    if who == TheClaims {
      ClaimPassBuilds(n, x);
      ClaimPassLeavesReferenceStages(n, x);
    } else if x.reference.Some? {
      ReferencePassBuilds(n, x, y);
      ReferencePassLeavesClaimStages(n, x, y);
    }
  }

  /** Where a round has got after the passes done so far: it left less to do, or it changed nothing and those passes had nothing to do. */
  predicate Turned(n: NamespacedName, start: Shape, x: Shape, done: seq<Controller>)
    requires start.claim.Some?
  {
    && ToBeBuilt(x)
    && (x == start || Stages(n, x) < Stages(n, start))
    && (x == start && TheClaims in done ==> ClaimStages(n, start) == 0)
    && (x == start && TheReferences in done ==> ClaimStages(n, start) > 0 || Stages(n, start) == 0)
  }

  lemma TurnBuilds(n: NamespacedName, start: Shape, x: Shape, done: seq<Controller>, who: Controller, y: Shape)
    requires start.claim.Some? && Turned(n, start, x, done) && Advances(n, who, x, y)
    ensures Turned(n, start, y, done + [who])
  {
    PassBuilds(n, who, x, y);
  }

  lemma NothingLeftIsReady(n: NamespacedName, x: Shape)
    requires ToBeBuilt(x) && Stages(n, x) == 0
    ensures BothReady(x)
  {
  }

  // Deleting

  /** The claim is being deleted; a reference that is, holds its finalizer. */
  predicate ToBeDeleted(x: Shape) {
    x.claim.Some? && x.claim.value.deleting
    && (x.reference.Some? && x.reference.value.deleting ==> x.reference.value.finalizers != [])
  }

  function ClaimRemains(x: Shape): nat {
    if x.claim.None? then 0 else Count(FINALIZER in x.claim.value.finalizers)
  }

  function ReferenceRemains(x: Shape): nat {
    if x.reference.None? then 0
    else (if x.reference.value.deleting then 1 else 2) + Count(!x.reference.value.initialized)
  }

  /** The reference is gone, and so is the claim, unless somebody else's finalizer still holds it. */
  predicate BothDeleted(x: Shape) {
    x.reference.None? && (x.claim.Some? ==> x.claim.value.deleting && FINALIZER !in x.claim.value.finalizers)
  }

  function Remains(x: Shape): nat {
    ClaimRemains(x) + ReferenceRemains(x)
  }

  /** Whose turn it is while anything remains. */
  function Next(x: Shape): Controller {
    if x.reference.Some? && x.reference.value.deleting then TheReferences else TheClaims
  }

  /** No pass adds to what remains, the claim controller and the reference controller wait for each other in turn,
      and the one whose turn it is leaves less. */
  lemma PassDeletes(n: NamespacedName, who: Controller, x: Shape, y: Shape)
    requires Advances(n, who, x, y)
    requires ToBeDeleted(x) || BothDeleted(x)
    ensures ToBeDeleted(y) || BothDeleted(y)
    ensures ClaimRemains(y) <= ClaimRemains(x) && ReferenceRemains(y) <= ReferenceRemains(x)
    ensures Remains(y) == Remains(x) ==> Next(y) == Next(x)
    ensures who == Next(x) && Remains(x) > 0 ==> Remains(y) < Remains(x)
    ensures Remains(y) == 0 ==> BothDeleted(y)
  {
  }

  /** Where a round has got after the passes done so far: less remains, or nothing has changed whose turn it is, and it has not come yet. */
  predicate TurnedDown(start: Shape, x: Shape, done: seq<Controller>) {
    && (ToBeDeleted(x) || BothDeleted(x)) && Remains(x) <= Remains(start)
    && (Remains(x) == Remains(start) ==> Next(x) == Next(start))
    && (Remains(x) == Remains(start) && Next(start) in done ==> Remains(start) == 0)
  }

  lemma TurnDeletes(n: NamespacedName, start: Shape, x: Shape, done: seq<Controller>, who: Controller, y: Shape)
    requires TurnedDown(start, x, done) && Advances(n, who, x, y)
    ensures TurnedDown(start, y, done + [who])
  {
    PassDeletes(n, who, x, y);
  }
}
