/** The condition list of a custom resource's status, and the timeout built on it. */
module Conditions {

  /** Times are whole seconds, the resolution a stored condition keeps. */
  type Time = int

  datatype ConditionType = ConditionError | ConditionInvalid | ConditionComputeApiReady | OtherCondition(name: string)
  datatype Truth = NotSet | True | False | Unknown

  datatype Condition = Condition(kind: ConditionType, status: Truth, probe: Time, transition: Time, reason: string, message: string)

  const UNSET_TIME: Time := -0x8000_0000

  /** What FindCondition appends when there is no condition of the kind. */
  function Blank(kind: ConditionType): Condition {
    Condition(kind, NotSet, UNSET_TIME, UNSET_TIME, "", "")
  }

  /** The first position of the kind, or the length of the list. */
  function Position(conditions: seq<Condition>, kind: ConditionType): (index: nat)
    ensures index <= |conditions|
    ensures index < |conditions| ==> conditions[index].kind == kind
    ensures forall i :: 0 <= i < index ==> conditions[i].kind != kind
  {
    if conditions == [] || conditions[0].kind == kind then 0 else 1 + Position(conditions[1..], kind)
  }

  predicate Has(conditions: seq<Condition>, kind: ConditionType) {
    Position(conditions, kind) < |conditions|
  }

  function Get(conditions: seq<Condition>, kind: ConditionType): (c: Condition)
    ensures c.kind == kind
  {
    if Has(conditions, kind) then conditions[Position(conditions, kind)] else Blank(kind)
  }

  /** One condition after a report at time `now`. */
  function Reported(c: Condition, status: Truth, reason: string, message: string, now: Time): Condition {
    Condition(c.kind, status, now,
              if message != c.message || status != c.status || reason != c.reason then now else c.transition,
              reason,
              if message != "" then message else c.message)
  }

  /** The list after SetCondition at time `now`. */
  function Set(conditions: seq<Condition>, kind: ConditionType, status: Truth, reason: string, message: string, now: Time): seq<Condition> {
    var c := Reported(Get(conditions, kind), status, reason, message, now);
    if Has(conditions, kind) then conditions[Position(conditions, kind) := c] else conditions + [c]
  }

  ghost predicate OnePerKind(conditions: seq<Condition>) {
    forall i, j :: 0 <= i < j < |conditions| ==> conditions[i].kind != conditions[j].kind
  }

  lemma HasIffSome(conditions: seq<Condition>, kind: ConditionType)
    ensures Has(conditions, kind) <==> exists i :: 0 <= i < |conditions| && conditions[i].kind == kind
  {
    var p := Position(conditions, kind);
    if p < |conditions| {
      assert conditions[p].kind == kind;
    }
  }

  lemma SamePositions(a: seq<Condition>, b: seq<Condition>, kind: ConditionType)
    requires |a| <= |b| && (forall i :: 0 <= i < |a| ==> a[i].kind == b[i].kind)
    requires forall i :: |a| <= i < |b| ==> b[i].kind != kind
    ensures Has(a, kind) == Has(b, kind) && (Has(a, kind) ==> Position(a, kind) == Position(b, kind))
  {
    var p, q := Position(a, kind), Position(b, kind);
    assert q < |a| ==> a[q].kind == b[q].kind;
    assert p < |a| ==> b[p].kind == kind;
  }

  /** A report goes into the first condition of its kind and leaves every other kind as it was. */
  lemma SetMeaning(conditions: seq<Condition>, kind: ConditionType, status: Truth, reason: string, message: string, now: Time)
    ensures var after := Set(conditions, kind, status, reason, message, now);
            && Has(after, kind)
            && Get(after, kind) == Reported(Get(conditions, kind), status, reason, message, now)
            && (forall other :: other != kind ==> Has(after, other) == Has(conditions, other) && Get(after, other) == Get(conditions, other))
            && |conditions| <= |after| <= |conditions| + 1
    ensures var c, d := Get(conditions, kind), Get(Set(conditions, kind, status, reason, message, now), kind);
            && d.status == status && d.reason == reason && d.probe == now && d.message == (if message == "" then c.message else message)
            && d.transition == (if c.status == status && c.reason == reason && c.message == message then c.transition else now)
  {
    var after := Set(conditions, kind, status, reason, message, now);
    var p := Position(conditions, kind);
    assert after[p].kind == kind && forall i :: 0 <= i < p ==> after[i].kind != kind;
    assert Position(after, kind) == p;
    forall other | other != kind ensures Has(after, other) == Has(conditions, other) && Get(after, other) == Get(conditions, other) {
      SamePositions(conditions, after, other);
    }
  }

  /** SetCondition keeps one condition a kind. */
  lemma SetConditionMeaning(conditions: seq<Condition>, kind: ConditionType, status: Truth, reason: string, message: string, now: Time)
    requires OnePerKind(conditions)
    ensures var after := Set(conditions, kind, status, reason, message, now);
            && OnePerKind(after)
            && Has(after, kind)
            && Get(after, kind) == Reported(Get(conditions, kind), status, reason, message, now)
            && (forall other :: other != kind ==> Has(after, other) == Has(conditions, other) && Get(after, other) == Get(conditions, other))
  {
    SetMeaning(conditions, kind, status, reason, message, now);
    var after := Set(conditions, kind, status, reason, message, now);
    forall i, j | 0 <= i < j < |after| ensures after[i].kind != after[j].kind {
      if j < |conditions| {
        assert conditions[i].kind != conditions[j].kind;
      }
    }
  }

  /** A blank condition at the end makes no difference to the next report of its kind. */
  lemma BlankIsNeutral(conditions: seq<Condition>, kind: ConditionType, status: Truth, reason: string, message: string, now: Time)
    ensures !Has(conditions, kind) ==>
              Set(conditions + [Blank(kind)], kind, status, reason, message, now) == Set(conditions, kind, status, reason, message, now)
  {
    if !Has(conditions, kind) {
      var longer := conditions + [Blank(kind)];
      assert forall i :: 0 <= i < |conditions| ==> longer[i].kind != kind;
      assert longer[|conditions|].kind == kind;
      assert Position(longer, kind) == |conditions|;
    }
  }

  /** Saying the same thing twice keeps the transition time exactly when the message is not empty or none was stored:
      an empty message never replaces a stored one and always counts as a change. */
  lemma RepeatKeepsTransition(conditions: seq<Condition>, kind: ConditionType, status: Truth, reason: string, message: string,
                              first: Time, second: Time)
    requires OnePerKind(conditions) && first < second
    ensures var once := Set(conditions, kind, status, reason, message, first);
            var twice := Set(once, kind, status, reason, message, second);
            Get(twice, kind).transition == Get(once, kind).transition
            <==> message != "" || Get(conditions, kind).message == ""
  {
    SetConditionMeaning(conditions, kind, status, reason, message, first);
    var once := Set(conditions, kind, status, reason, message, first);
    SetConditionMeaning(once, kind, status, reason, message, second);
  }

  // Waiting for the Compute API

  const TEN_MINUTES: Time := 600
  const NOT_READY_REASON := "QueryAvailabilityZonesFailed"
  const NOT_READY_MESSAGE := "ComputeAPI not yet ready, couldn't query availability zones"

  function ProbeFailed(conditions: seq<Condition>, now: Time): seq<Condition> {
    Set(conditions, ConditionComputeApiReady, False, NOT_READY_REASON, NOT_READY_MESSAGE, now)
  }

  /** A failed probe is an error, and not a reason to wait, when the condition has been what it is for too long. */
  predicate TimedOut(conditions: seq<Condition>, now: Time) {
    Has(conditions, ConditionComputeApiReady) && Get(conditions, ConditionComputeApiReady).transition < now - TEN_MINUTES
  }

  /** What happens to the list while the API is not ready: failed probes, and reports about other things. */
  datatype Event =
    | FailedProbe(now: Time)
    | Report(kind: ConditionType, status: Truth, reason: string, message: string, now: Time)

  predicate NeverReports(events: seq<Event>, kind: ConditionType) {
    forall e | e in events :: e.Report? ==> e.kind != kind
  }

  function After(conditions: seq<Condition>, events: seq<Event>): seq<Condition> {
    if events == [] then conditions
    else
      var before, e := After(conditions, events[..|events| - 1]), events[|events| - 1];
      match e
      case FailedProbe(now) => ProbeFailed(before, now)
      case Report(kind, status, reason, message, now) => Set(before, kind, status, reason, message, now)
  }

  lemma {:induction false} AfterMore(conditions: seq<Condition>, events: seq<Event>, more: seq<Event>)
    ensures After(conditions, events + more) == After(After(conditions, events), more)
  {
    if more == [] {
      assert events + more == events;
    } else {
      var init, last := more[..|more| - 1], more[|more| - 1];
      AfterMore(conditions, events, init);
      assert (events + more)[..|events + more| - 1] == events + init;
    }
  }

  lemma ProbeAndReport(conditions: seq<Condition>, events: seq<Event>, now: Time, e: Event)
    ensures After(conditions, events + [FailedProbe(now), e]) == After(ProbeFailed(After(conditions, events), now), [e])
  {
    var probe := FailedProbe(now);
    AfterMore(conditions, events, [probe, e]);
    AfterMore(After(conditions, events), [probe], [e]);
    assert [probe] + [e] == [probe, e];
    assert [probe][..0] == [];
  }

  lemma {:induction false} AfterKeepsOthers(conditions: seq<Condition>, events: seq<Event>, kind: ConditionType)
    requires OnePerKind(conditions) && NeverReports(events, kind) && kind != ConditionComputeApiReady
    ensures var after := After(conditions, events);
            OnePerKind(after) && Has(after, kind) == Has(conditions, kind) && Get(after, kind) == Get(conditions, kind)
  {
    if events != [] {
      var earlier, e := events[..|events| - 1], events[|events| - 1];
      AfterKeepsOthers(conditions, earlier, kind);
      var before := After(conditions, earlier);
      match e
      case FailedProbe(now) => SetConditionMeaning(before, ConditionComputeApiReady, False, NOT_READY_REASON, NOT_READY_MESSAGE, now);
      case Report(other, status, reason, message, now) => SetConditionMeaning(before, other, status, reason, message, now);
    }
  }

  /** The condition's transition time stays the time of the first failed probe, however many follow
      and whatever else is reported in between, so a probe fails for good exactly when it comes
      more than ten minutes after the first. */
  lemma {:induction false} TimeoutCountsFromFirstProbe(conditions: seq<Condition>, events: seq<Event>, now: Time)
    requires OnePerKind(conditions) && !Has(conditions, ConditionComputeApiReady)
    requires events != [] && events[0].FailedProbe? && NeverReports(events, ConditionComputeApiReady)
    ensures var after := After(conditions, events);
            && OnePerKind(after) && Has(after, ConditionComputeApiReady)
            && Get(after, ConditionComputeApiReady).transition == events[0].now
            && Get(after, ConditionComputeApiReady).status == False
            && Get(after, ConditionComputeApiReady).reason == NOT_READY_REASON
            && Get(after, ConditionComputeApiReady).message == NOT_READY_MESSAGE
            && (TimedOut(after, now) <==> now - events[0].now > 600)
    ensures !TimedOut(conditions, events[0].now)
  {
    var earlier, e := events[..|events| - 1], events[|events| - 1];
    var before := After(conditions, earlier);
    if earlier != [] {
      TimeoutCountsFromFirstProbe(conditions, earlier, now);
      assert e in events;
    }
    match e
    case FailedProbe(time) => SetConditionMeaning(before, ConditionComputeApiReady, False, NOT_READY_REASON, NOT_READY_MESSAGE, time);
    case Report(other, status, reason, message, time) => SetConditionMeaning(before, other, status, reason, message, time);
  }

  /** The condition list that a status refers to: FindCondition appends to it, SetCondition writes into it. */
  class ConditionList {
    var items: seq<Condition>

    constructor (items: seq<Condition>)
      ensures this.items == items
    {
      this.items := items;
    }

    method HasCondition(kind: ConditionType) returns (found: bool)
      ensures found == Has(items, kind)
    {
      for i := 0 to |items|
        invariant forall k :: 0 <= k < i ==> items[k].kind != kind
      {
        if items[i].kind == kind {
          HasIffSome(items, kind);
          return true;
        }
      }
      HasIffSome(items, kind);
      return false;
    }

    /** The position of the condition in the list, which has grown by a blank one when it was not there. */
    method FindCondition(kind: ConditionType) returns (index: nat, found: bool)
      modifies this
      ensures found == Has(old(items), kind)
      ensures index == Position(old(items), kind) < |items|
      ensures items == if found then old(items) else old(items) + [Blank(kind)]
    {
      for i := 0 to |items|
        invariant items == old(items)
        invariant forall k :: 0 <= k < i ==> items[k].kind != kind
      {
        if items[i].kind == kind {
          return i, true;
        }
      }
      items := items + [Blank(kind)];
      return |items| - 1, false;
    }

    method SetCondition(kind: ConditionType, status: Truth, reason: string, message: string, now: Time)
      modifies this
      ensures items == Set(old(items), kind, status, reason, message, now)
    {
      var index, found := FindCondition(kind);
      if message != items[index].message || status != items[index].status || reason != items[index].reason || kind != items[index].kind {
        items := items[index := items[index].(transition := now)];
      }
      if message != "" {
        items := items[index := items[index].(message := message)];
      }
      items := items[index := items[index].(probe := now, reason := reason, status := status)];
    }
  }
}
