/** What one undisturbed pass of a controller makes of the stored claim and reference, versions and condition texts aside. */
module Shapes {
  import opened Operations
  import opened Conditions
  import opened Lists
  import opened Objects
  import opened Protocol

  const REGION_CHECK_FAILED := "RegionCheckFailed"
  const RECONCILE_ERROR := "ReconcileError"

  /** The condition says that there is a failure, or that an earlier one is resolved; the other kinds are as they were. */
  ghost predicate ReportedAs(before: seq<Condition>, after: seq<Condition>, kind: ConditionType, reason: string, failure: Error) {
    && Has(after, kind)
    && Get(after, kind).status == (if failure == NoError then False else True)
    && Get(after, kind).reason == (if failure == NoError then reason + "Resolved" else reason)
    && forall other :: other != kind ==> Has(after, other) == Has(before, other) && Get(after, other) == Get(before, other)
  }

  /** `invalid` and `failing` say that a reported problem is not marked as resolved yet. */
  datatype ClaimShape = ClaimShape(
    deleting: bool, finalizers: seq<string>, spec: ClaimSpec, initialized: bool, invalid: bool, failing: bool, state: ClaimState)
  datatype ReferenceShape = ReferenceShape(
    deleting: bool, finalizers: seq<string>, spec: ReferenceSpec, initialized: bool, failing: bool, state: ReferenceState)
  datatype Shape = Shape(claim: Option<ClaimShape>, reference: Option<ReferenceShape>)

  predicate Unresolved(conditions: Option<seq<Condition>>, kind: ConditionType, reason: string) {
    conditions.Some? && Has(conditions.value, kind) && Get(conditions.value, kind).reason != reason + "Resolved"
  }

  function ClaimShapeOf(c: Claim): ClaimShape {
    ClaimShape(c.deleting, c.finalizers, c.spec, c.status.conditions.Some?,
               Unresolved(c.status.conditions, ConditionInvalid, REGION_CHECK_FAILED),
               Unresolved(c.status.conditions, ConditionError, RECONCILE_ERROR), c.status.state)
  }

  function ReferenceShapeOf(r: Reference): ReferenceShape {
    ReferenceShape(r.deleting, r.finalizers, r.spec, r.status.conditions.Some?,
                   Unresolved(r.status.conditions, ConditionError, RECONCILE_ERROR), r.status.state)
  }

  function ShapeOf(claim: Option<Claim>, reference: Option<Reference>): Shape {
    Shape(if claim.Some? then Some(ClaimShapeOf(claim.value)) else None,
          if reference.Some? then Some(ReferenceShapeOf(reference.value)) else None)
  }

  // The reference controller

  /** What the operations of an undisturbed reference pass do. */
  predicate ReferenceHandled(x: Shape, y: Shape) {
    x.claim.Some? && x.reference.Some? &&
    var c, r := x.claim.value, x.reference.value;
    if !r.initialized then y == x.(reference := Some(r.(initialized := true)))
    else if r.deleting then y == x.(reference := None)
    else if r.state == RefReady then
      y.reference == x.reference && y.claim.Some? &&
      if c.state == ClaimState.Ready then y == x
      else if c.spec.zones == [] then
        y.claim.value == c.(spec := c.spec.(zones := y.claim.value.spec.zones)) && y.claim.value.spec.zones != []
      else
        y.claim.value == c.(state := ClaimState.Ready,
                            spec := c.spec.(projectID := if c.spec.projectID == "" then r.spec.projectID else c.spec.projectID))
    else if c.state != PendingProject then y == x
    else
      y.claim == x.claim && y.reference.Some? &&
      var t := y.reference.value;
      if r.state == RefUnset then t == r.(state := RefCreating)
      else if r.spec.projectID == "" then t == r.(spec := r.spec.(projectID := t.spec.projectID)) && t.spec.projectID != ""
      else if !AccountNamed(r.spec.accountName) then
        t == r.(spec := r.spec.(accountName := t.spec.accountName)) && AccountNamed(t.spec.accountName)
      else if FINALIZER !in r.finalizers then t == r.(finalizers := r.finalizers + [FINALIZER])
      else t == r.(state := RefReady)
  }

  function WithFailing(x: Shape, failing: bool): Shape {
    if x.reference.Some? then x.(reference := Some(x.reference.value.(failing := failing))) else x
  }

  /** One undisturbed reference pass: the operations, then a reported error marked as resolved. */
  predicate ReferenceAdvance(x: Shape, y: Shape) {
    && x.reference.Some? && (y.reference.Some? ==> !y.reference.value.failing)
    && ReferenceHandled(x, WithFailing(y, x.reference.value.failing))
  }

  /** The project stands in the way of neither building nor cleaning up; a customer's project that is gone
      does not stand in the way of cleaning up if there are no groups to revoke. */
  predicate FavourableProject(r: Reference, projects: map<string, Project>, groups: bool) {
    if r.spec.ccs then r.spec.projectID in projects || (r.deleting && !groups)
    else r.spec.projectID in projects ==>
           projects[r.spec.projectID].state == Active || (r.deleting && projects[r.spec.projectID].state == DeleteRequested)
  }

  /** The project stops the clean-up of its reference for good: a customer's, because it is gone while groups are to be revoked in it;
      the operator's own, because it is neither active nor being deleted. */
  predicate Halted(r: Reference, projects: map<string, Project>, groups: bool) {
    r.deleting &&
    if r.spec.ccs then groups && r.spec.projectID !in projects
    else r.spec.projectID in projects && projects[r.spec.projectID].state == Unspecified
  }

  predicate FavourableObjects(claim: Option<Claim>, reference: Option<Reference>, projects: map<string, Project>, groups: bool) {
    && claim.Some? && reference.Some? && (claim.value.deleting ==> claim.value.finalizers != [])
    && var r := reference.value;
       && (!r.deleting ==> ValidReference(r.spec))
       && (r.finalizers == [] || r.finalizers == [FINALIZER]) && (r.deleting ==> r.finalizers != [])
       && (r.status.state == RefReady ==> r.spec.projectID != "")
       && "" !in projects && FavourableProject(r, projects, groups)
  }

  /** Nothing outside the two objects stands in the way of a reference pass. */
  predicate Favourable(claim: Option<Claim>, reference: Option<Reference>,
                       secrets: map<NamespacedName, Secret>, projects: map<string, Project>, groups: bool) {
    && FavourableObjects(claim, reference, projects, groups)
    && (reference.value.spec.ccs ==> reference.value.spec.ccsSecret in secrets)
  }

  predicate KeepsSecrets(before: map<NamespacedName, Secret>, after: map<NamespacedName, Secret>) {
    forall key | key in before :: key in after && after[key] == before[key]
  }

  /** What a reference pass that nothing stood in the way of leaves behind. */
  predicate StaysFavourable(claim: Option<Claim>, reference: Option<Reference>,
                            secrets: map<NamespacedName, Secret>, projects: map<string, Project>, groups: bool) {
    reference.Some? ==>
      && FavourableObjects(claim, reference, projects, groups)
      && (reference.value.spec.ccs && !reference.value.deleting ==> reference.value.spec.ccsSecret in secrets)
  }

  /** Nothing is left to do for the reference controller. */
  predicate AtRest(x: Shape) {
    x.reference.Some? ==>
      !x.reference.value.deleting && x.reference.value.state == RefReady && x.claim.Some? && x.claim.value.state == ClaimState.Ready
  }

  // The claim controller

  function Marked(r: ReferenceShape): Option<ReferenceShape> {
    if r.finalizers == [] then None else Some(r.(deleting := true))
  }

  function Released(c: ClaimShape): Option<ClaimShape> {
    if FINALIZER !in c.finalizers then Some(c)
    else if Filtered(c.finalizers, FINALIZER) == [] then None
    else Some(c.(finalizers := Filtered(c.finalizers, FINALIZER)))
  }

  function NewReferenceShape(n: NamespacedName, spec: ClaimSpec): ReferenceShape {
    ReferenceShapeOf(NewReference(n, spec, 0))
  }

  /** What the operations of an undisturbed claim pass do. */
  function Handled(n: NamespacedName, x: Shape): Shape
    requires x.claim.Some?
  {
    var c := x.claim.value;
    var resumed := if c.state == ClaimState.Error then Pending else c.state;
    if c.deleting then
      if x.reference.Some? then x.(reference := Marked(x.reference.value)) else x.(claim := Released(c))
    else if !c.initialized then x.(claim := Some(c.(initialized := true)))
    else if c.invalid then x.(claim := Some(c.(invalid := false, state := resumed)))
    else if resumed == Unset then x.(claim := Some(c.(state := Pending)))
    else
      var y := if x.reference.Some? then x else x.(reference := Some(NewReferenceShape(n, c.spec)));
      if c.spec.link != ReferenceName(n) then y.(claim := Some(c.(spec := c.spec.(link := ReferenceName(n)))))
      else if FINALIZER !in c.finalizers then y.(claim := Some(c.(finalizers := c.finalizers + [FINALIZER])))
      else if resumed == Pending then y.(claim := Some(c.(state := PendingProject)))
      else y
  }

  /** One undisturbed claim pass: the operations, then a reported error marked as resolved. */
  function ClaimAdvance(n: NamespacedName, x: Shape): Shape
    requires x.claim.Some?
  {
    var y := Handled(n, x);
    if y.claim.Some? then y.(claim := Some(y.claim.value.(failing := false))) else y
  }

  predicate Supported(spec: ClaimSpec, disabledRegions: seq<string>) {
    spec.ccs || spec.region !in disabledRegions
  }

  /** Nothing outside the claim stands in the way of a claim pass. */
  predicate FavourableClaim(n: NamespacedName, claim: Option<Claim>,
                            secrets: map<NamespacedName, Secret>, disabledRegions: seq<string>) {
    && claim.Some?
    && (!claim.value.deleting ==>
          && ValidClaim(n, claim.value.spec) && Supported(claim.value.spec, disabledRegions)
          && (claim.value.spec.ccs ==>
                var key := claim.value.spec.ccsSecret;
                key in secrets && (secrets[key].deleting ==> CCS_FINALIZER in secrets[key].finalizers)))
  }
}
