/** The API server and the cloud as the controllers' code meets them: between any two calls of a pass, everybody else may
    take any number of steps, and any call may fail. Every state along the way is recorded in a ghost run of the protocol. */
module Worlds {
  import opened Operations
  import opened Conditions
  import opened Objects
  import opened Protocol

  /** The pass a controller is in is nobody else's business. */
  predicate NotOfReference(l: Label, n: NamespacedName) {
    !(l.ByReferenceController? && l.name == n)
  }

  predicate NotOfClaim(l: Label, n: NamespacedName) {
    !(l.ByClaimController? && l.name == n)
  }

  lemma UsersLeavePasses(s: Slot, u: UserAct)
    requires UserMay(s, u)
    ensures UserStep(s, u).claimPass == s.claimPass && UserStep(s, u).refPass == s.refPass
  {
  }

  lemma OthersLeavePass(s: System, l: Label, n: NamespacedName)
    requires Enabled(s, l) && n in s.slots
    ensures Apply(s, l).slots.Keys == s.slots.Keys
    ensures NotOfReference(l, n) ==> Apply(s, l).slots[n].refPass == s.slots[n].refPass
    ensures NotOfClaim(l, n) ==> Apply(s, l).slots[n].claimPass == s.slots[n].claimPass
  {
    var slot := s.slots[n];
    match l
    case ByUser(m, u) => if m == n { UsersLeavePasses(slot, u); }
    case ByClaimController(m, a, o) => if m == n { ReferencePassStays(n, slot, a, o); }
    case ByReferenceController(m, b, o) => if m == n { ClaimPassStays(n, slot, s.cloud, b, o); }
    case ByOutsider(_, _) =>
  }

  /** The acts whose guard speaks of nothing but the pass. */
  predicate Settled(a: ReferenceAct) {
    !a.RStart? && !a.REnd? && !a.RMintID? && !a.RMintAccount?
  }

  lemma SettledStays(n: NamespacedName, s: Slot, c: Cloud, t: Slot, d: Cloud, a: ReferenceAct)
    requires Settled(a) && s.refPass == t.refPass && ReferenceMay(n, s, c, a)
    ensures ReferenceMay(n, t, d, a)
  {
  }

  lemma ClaimGuardStays(n: NamespacedName, s: Slot, t: Slot, a: ClaimAct)
    requires !a.CStart? && s.claimPass == t.claimPass && ClaimMay(n, s, a)
    ensures ClaimMay(n, t, a)
  {
  }

  /** Some string is longer than every string of a finite set, so fresh names exist. */
  lemma FreshStringExists(used: set<string>, prefix: string)
    ensures exists name :: name !in used && prefix <= name && |prefix| < |name|
  {
    var long := LongerThanAll(used, prefix);
    assert long !in used;
  }

  lemma LongerThanAll(used: set<string>, prefix: string) returns (long: string)
    ensures prefix <= long && |prefix| < |long|
    ensures forall name :: name in used ==> |name| < |long|
    decreases |used|
  {
    if used == {} {
      long := prefix + "0";
    } else {
      var one :| one in used;
      var rest := LongerThanAll(used - {one}, prefix);
      long := rest + seq(|one|, _ => '0');
    }
  }

  /** Every account name that means something somewhere. */
  function AccountsIn(p: Project): set<string> {
    p.accounts + set grant | grant in p.grants + p.given && grant.1.ServiceAccount? :: grant.1.account
  }

  function NamesInUse(c: Cloud): set<string> {
    c.accountNames.Keys + set id, account | id in c.projects && account in AccountsIn(c.projects[id]) :: account
  }

  lemma NotInUseIsUnused(c: Cloud, account: string)
    requires account !in NamesInUse(c)
    ensures Unused(c, account)
  {
    forall id | id in c.projects
      ensures account !in c.projects[id].accounts
      ensures forall grant | grant in c.projects[id].grants + c.projects[id].given :: grant.1 != ServiceAccount(account)
    {
      assert account !in AccountsIn(c.projects[id]);
    }
  }

  lemma ClaimPassStays(n: NamespacedName, s: Slot, c: Cloud, a: ReferenceAct, o: Outcome)
    requires ReferenceMay(n, s, c, a)
    ensures ReferenceStep(n, s, c, a, o).claimPass == s.claimPass
  {
  }

  lemma ReferencePassStays(n: NamespacedName, s: Slot, a: ClaimAct, o: Outcome)
    requires ClaimMay(n, s, a)
    ensures ClaimStep(n, s, a, o).refPass == s.refPass
  {
  }

  lemma RunningStays(n: NamespacedName, s: Slot, c: Cloud, a: ReferenceAct, o: Outcome)
    requires ReferenceMay(n, s, c, a) && !a.RStart? && !a.REnd?
    ensures ReferenceStep(n, s, c, a, o).refPass.ReferenceRunning?
  {
  }

  lemma ClaimRunningStays(n: NamespacedName, s: Slot, a: ClaimAct, o: Outcome)
    requires ClaimMay(n, s, a) && !a.CStart? && !a.CEnd?
    ensures ClaimStep(n, s, a, o).claimPass.ClaimRunning?
  {
  }

  /** The operator's config map. */
  datatype OperatorConfig = OperatorConfig(
    billingAccount: string, parentFolder: string, consoleAccess: seq<string>, readOnlyAccess: seq<string>, disabledRegions: seq<string>)

  predicate ValidConfig(config: OperatorConfig) {
    config.billingAccount != "" && config.parentFolder != ""
  }

  /** Some group is to have access to customers' projects. */
  predicate HasGroups(config: OperatorConfig) {
    config.consoleAccess != [] || config.readOnlyAccess != []
  }

  class World {
    var sys: System
    ghost var run: seq<System>
    /** In a quiet world nobody interferes and no call fails. */
    const quiet: bool
    const config: OperatorConfig
    /** What a quiet cloud answers to a query for zones: these, or an error. */
    const zones: seq<string>
    const zonesError: Error

    constructor (sys: System, quiet: bool, config: OperatorConfig, zones: seq<string>, zonesError: Error)
      requires Init(sys)
      ensures Valid() && run == [sys] && this.sys == sys && this.quiet == quiet && this.config == config
      ensures this.zones == zones && this.zonesError == zonesError
    {
      this.sys := sys;
      this.run := [sys];
      this.quiet := quiet;
      this.config := config;
      this.zones := zones;
      this.zonesError := zonesError;
    }

    /** Nobody interferes, no call fails, and the cloud names zones. */
    predicate Calm() {
      quiet && zonesError == NoError && zones != []
    }

    /** The recorded run of the protocol leads to the present state. */
    ghost predicate Valid()
      reads this
    {
      LeadsTo(run, sys)
    }

    method AnyOutcome() returns (o: Outcome)
      ensures quiet ==> o == Ok
    {
      o := *;
      if quiet {
        o := Ok;
      }
    }

    method Take(l: Label)
      requires Valid() && Enabled(sys, l)
      modifies this
      ensures Valid() && sys == Apply(old(sys), l) && run == old(run) + [sys]
    {
      RunGrows(run, sys, l);
      sys := Apply(sys, l);
      run := run + [sys];
    }

    /** Everybody but this controller of this claim name. */
    method Interfere(n: NamespacedName, byReference: bool)
      requires Valid() && n in sys.slots
      modifies this
      ensures Valid() && n in sys.slots
      ensures byReference ==> sys.slots[n].refPass == old(sys.slots[n].refPass)
      ensures !byReference ==> sys.slots[n].claimPass == old(sys.slots[n].claimPass)
      ensures quiet ==> sys == old(sys)
    {
      var labels: seq<Label> := *;
      if quiet {
        labels := [];
      }
      for i := 0 to |labels|
        invariant Valid() && n in sys.slots
        invariant byReference ==> sys.slots[n].refPass == old(sys.slots[n].refPass)
        invariant !byReference ==> sys.slots[n].claimPass == old(sys.slots[n].claimPass)
        invariant quiet ==> sys == old(sys)
      {
        var l := labels[i];
        if Enabled(sys, l) && (if byReference then NotOfReference(l, n) else NotOfClaim(l, n)) {
          OthersLeavePass(sys, l, n);
          Take(l);
        }
      }
    }

    /** One call of a reference pass: the step it takes, from the slot and the cloud it meets. */
    method ReferenceCall(n: NamespacedName, a: ReferenceAct) returns (err: Error, ghost s: Slot, ghost c: Cloud, ghost o: Outcome)
      requires Valid() && n in sys.slots && ReferenceMay(n, sys.slots[n], sys.cloud, a) && Settled(a)
      modifies this
      ensures Valid() && n in sys.slots
      ensures s.refPass == old(sys.slots[n].refPass) && ReferenceMay(n, s, c, a)
      ensures sys.slots[n] == ReferenceStep(n, s, c, a, o) && sys.cloud == CloudStep(n, s, c, a, o)
      ensures sys.slots[n].refPass.ReferenceRunning? && err == sys.slots[n].refPass.reply
      ensures quiet ==> s == old(sys.slots[n]) && c == old(sys.cloud) && o == Ok && sys.slots[n].claimPass == s.claimPass
    {
      ghost var before, cloud := sys.slots[n], sys.cloud;
      Interfere(n, true);
      s, c := sys.slots[n], sys.cloud;
      SettledStays(n, before, cloud, s, c, a);
      var outcome := AnyOutcome();
      o := outcome;
      RunningStays(n, s, c, a, o);
      ClaimPassStays(n, s, c, a, o);
      Take(ByReferenceController(n, a, outcome));
      err := sys.slots[n].refPass.reply;
    }

    /** A pass starts with reading the reference. */
    method StartReferencePass(n: NamespacedName) returns (err: Error)
      requires Valid() && n in sys.slots && sys.slots[n].refPass.ReferenceIdle?
      modifies this
      ensures Valid() && n in sys.slots
      ensures err == NoError ==> exists s: Slot :: s.reference.Some? && sys.slots[n] == StartedPass(s)
      ensures err != NoError ==> sys.slots[n].refPass.ReferenceIdle? && (err == NotFound ==> sys.slots[n].reference.None?)
      ensures quiet && err == NoError ==> old(sys.slots[n]).reference.Some? && sys == old(sys.(slots := sys.slots[n := StartedPass(sys.slots[n])]))
      ensures quiet && err != NoError ==> old(sys.slots[n]).reference.None? && sys == old(sys)
    {
      Interfere(n, true);
      var outcome := AnyOutcome();
      if outcome != Ok {
        return Failed;
      }
      if sys.slots[n].reference.None? {
        return NotFound;
      }
      ghost var s := sys.slots[n];
      Take(ByReferenceController(n, RStart, outcome));
      assert sys.slots[n] == StartedPass(s);
      return NoError;
    }

    method EndReferencePass(n: NamespacedName)
      requires Valid() && n in sys.slots && sys.slots[n].refPass.ReferenceRunning?
      modifies this
      ensures Valid() && run == old(run) + [sys]
      ensures sys == old(sys.(slots := sys.slots[n := sys.slots[n].(refPass := ReferenceIdle)]))
    {
      Take(ByReferenceController(n, REnd, Ok));
    }

    /** The operator makes a project ID that nobody ever used, and stores it. */
    method MintID(n: NamespacedName) returns (id: string, err: Error, ghost s: Slot, ghost c: Cloud, ghost o: Outcome)
      requires Valid() && n in sys.slots && Building(sys.slots[n].refPass) && sys.slots[n].refPass.project == ""
      modifies this
      ensures Valid() && n in sys.slots
      ensures s.refPass == old(sys.slots[n].refPass) && ReferenceMay(n, s, c, RMintID(id))
      ensures sys.slots[n] == ReferenceStep(n, s, c, RMintID(id), o) && sys.cloud == CloudStep(n, s, c, RMintID(id), o)
      ensures sys.slots[n].refPass.ReferenceRunning? && err == sys.slots[n].refPass.reply
      ensures quiet ==> s == old(sys.slots[n]) && c == old(sys.cloud) && o == Ok && sys.slots[n].claimPass == s.claimPass
    {
      Interfere(n, true);
      s, c := sys.slots[n], sys.cloud;
      var outcome := AnyOutcome();
      FreshStringExists(sys.cloud.ids.Keys + sys.cloud.projects.Keys, "o-");
      var name :| name !in sys.cloud.ids.Keys + sys.cloud.projects.Keys && "o-" <= name && |"o-"| < |name|;
      id, o := name, outcome;
      RunningStays(n, s, c, RMintID(id), o);
      ClaimPassStays(n, s, c, RMintID(id), o);
      Take(ByReferenceController(n, RMintID(name), outcome));
      err := sys.slots[n].refPass.reply;
    }

    /** The operator makes a service account name that nobody ever used, and stores it. */
    method MintAccount(n: NamespacedName) returns (account: string, err: Error, ghost s: Slot, ghost c: Cloud, ghost o: Outcome)
      requires Valid() && n in sys.slots && Building(sys.slots[n].refPass) && !AccountNamed(sys.slots[n].refPass.account)
      modifies this
      ensures Valid() && n in sys.slots
      ensures s.refPass == old(sys.slots[n].refPass) && ReferenceMay(n, s, c, RMintAccount(account))
      ensures sys.slots[n] == ReferenceStep(n, s, c, RMintAccount(account), o) && sys.cloud == CloudStep(n, s, c, RMintAccount(account), o)
      ensures sys.slots[n].refPass.ReferenceRunning? && err == sys.slots[n].refPass.reply
      ensures quiet ==> s == old(sys.slots[n]) && c == old(sys.cloud) && o == Ok && sys.slots[n].claimPass == s.claimPass
    {
      Interfere(n, true);
      s, c := sys.slots[n], sys.cloud;
      var outcome := AnyOutcome();
      var prefix := ACCOUNT_NAME_DEFAULT + "-";
      FreshStringExists(NamesInUse(sys.cloud), prefix);
      var name :| name !in NamesInUse(sys.cloud) && prefix <= name && |prefix| < |name|;
      NotInUseIsUnused(sys.cloud, name);
      account, o := name, outcome;
      RunningStays(n, s, c, RMintAccount(account), o);
      ClaimPassStays(n, s, c, RMintAccount(account), o);
      Take(ByReferenceController(n, RMintAccount(name), outcome));
      err := sys.slots[n].refPass.reply;
    }

    /** One call of a claim pass. */
    method ClaimCall(n: NamespacedName, a: ClaimAct) returns (err: Error, ghost s: Slot, ghost o: Outcome)
      requires Valid() && n in sys.slots && ClaimMay(n, sys.slots[n], a) && !a.CStart? && !a.CEnd?
      modifies this
      ensures Valid() && n in sys.slots
      ensures s.claimPass == old(sys.slots[n].claimPass) && ClaimMay(n, s, a) && sys.slots[n] == ClaimStep(n, s, a, o)
      ensures sys.slots[n].claimPass.ClaimRunning? && err == sys.slots[n].claimPass.reply
      ensures quiet ==> s == old(sys.slots[n]) && o == Ok && sys.cloud == old(sys.cloud) && sys.slots[n].refPass == s.refPass
    {
      ghost var before := sys.slots[n];
      Interfere(n, false);
      s := sys.slots[n];
      ClaimGuardStays(n, before, s, a);
      var outcome := AnyOutcome();
      o := outcome;
      ClaimRunningStays(n, s, a, o);
      ReferencePassStays(n, s, a, o);
      Take(ByClaimController(n, a, outcome));
      err := sys.slots[n].claimPass.reply;
    }

    /** A pass starts with reading the claim. */
    method StartClaimPass(n: NamespacedName) returns (err: Error)
      requires Valid() && n in sys.slots && sys.slots[n].claimPass.ClaimIdle?
      modifies this
      ensures Valid() && n in sys.slots
      ensures err == NoError ==> exists s: Slot :: ClaimMay(n, s, CStart) && sys.slots[n] == ClaimStep(n, s, CStart, Ok)
      ensures err != NoError ==> sys.slots[n].claimPass.ClaimIdle? && (err == NotFound ==> sys.slots[n].claim.None?)
      ensures quiet && err == NoError ==>
                && ClaimMay(n, old(sys.slots[n]), CStart)
                && sys == old(sys.(slots := sys.slots[n := ClaimStep(n, sys.slots[n], CStart, Ok)]))
      ensures quiet && err != NoError ==> old(sys.slots[n]).claim.None? && sys == old(sys)
    {
      Interfere(n, false);
      var outcome := AnyOutcome();
      if outcome != Ok {
        return Failed;
      }
      if sys.slots[n].claim.None? {
        return NotFound;
      }
      ghost var s := sys.slots[n];
      Take(ByClaimController(n, CStart, outcome));
      assert sys.slots[n] == ClaimStep(n, s, CStart, Ok);
      return NoError;
    }

    method EndClaimPass(n: NamespacedName)
      requires Valid() && n in sys.slots && sys.slots[n].claimPass.ClaimRunning?
      modifies this
      ensures Valid() && run == old(run) + [sys]
      ensures sys == old(sys.(slots := sys.slots[n := sys.slots[n].(claimPass := ClaimIdle)]))
    {
      Take(ByClaimController(n, CEnd, Ok));
    }

    /** Reads the config map; what is read in vain is as good as failed. */
    method GetConfig() returns (found: OperatorConfig, err: Error)
      ensures err == NoError ==> found == config
      ensures quiet ==> err == NoError
    {
      var outcome := AnyOutcome();
      return config, if outcome == Ok then NoError else Failed;
    }

    /** Reads a secret of the claim's; a controller that reads changes nothing but what others change meanwhile. */
    method GetSecret(n: NamespacedName, key: NamespacedName) returns (err: Error)
      requires Valid() && n in sys.slots
      modifies this
      ensures Valid() && n in sys.slots && sys.slots[n].refPass == old(sys.slots[n].refPass)
      ensures quiet ==> sys == old(sys) && (err == NoError <==> key in sys.slots[n].secrets)
    {
      Interfere(n, true);
      var outcome := AnyOutcome();
      err := if outcome != Ok then Failed else if key in sys.slots[n].secrets then NoError else NotFound;
    }
  }
}
