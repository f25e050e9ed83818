/** Changing the IAM policy of a project while others change it too: read, modify, write back if nobody wrote in between. */
module Policies {
  import opened Operations
  import opened Bindings
  import opened BindingLists

  datatype Commit = Commit(before: seq<Row>, after: seq<Row>, own: bool)

  /** What the policy was after the first `version` commits. */
  function RowsAt(initial: seq<Row>, commits: seq<Commit>, version: nat): seq<Row>
    requires version <= |commits|
  {
    if version == 0 then initial else commits[version - 1].after
  }

  /** A policy as it was read: the bindings of that time, and the version they were read at. */
  class Policy {
    var bindings: seq<Binding>
    const etag: nat

    constructor (bindings: seq<Binding>, etag: nat)
      ensures this.bindings == bindings && this.etag == etag
    {
      this.bindings := bindings;
      this.etag := etag;
    }
  }

  datatype Answer = Done | Conflict | Refused

  /** The policy of one project, on the server. Between any two calls others may commit any number of policies,
      and any call may fail, a write even after it was carried out. In a quiet world none of this happens. */
  class PolicyServer {
    var rows: seq<Row>
    var etag: nat
    const quiet: bool
    ghost const initial: seq<Row>
    ghost var commits: seq<Commit>
    ghost var getCalls: nat
    ghost var setCalls: nat
    /** How many reads and writes failed, and what the writes were answered. */
    ghost var faults: nat
    ghost var answers: seq<Answer>

    constructor (rows: seq<Row>, quiet: bool)
      ensures Valid() && this.rows == rows == initial && this.quiet == quiet && commits == [] && getCalls == setCalls == 0
      ensures faults == 0 && answers == []
    {
      this.rows, this.etag, this.quiet := rows, 0, quiet;
      this.initial, this.commits, this.getCalls, this.setCalls := rows, [], 0, 0;
      this.faults, this.answers := 0, [];
    }

    ghost predicate Valid()
      reads this
    {
      && etag == |commits| && rows == RowsAt(initial, commits, etag)
      && forall k {:trigger RowsAt(initial, commits, k)} :: 0 <= k < |commits| ==> commits[k].before == RowsAt(initial, commits, k)
    }

    method Store(next: seq<Row>, own: bool)
      requires Valid()
      modifies this`rows, this`etag, this`commits
      ensures Valid() && rows == next && commits == old(commits) + [Commit(old(rows), next, own)]
    {
      ghost var before := commits;
      commits := commits + [Commit(rows, next, own)];
      forall k | 0 <= k < |commits| ensures commits[k].before == RowsAt(initial, commits, k) {
        PrefixRows(initial, before, commits, k);
        assert k < |before| ==> commits[k] == before[k] && before[k].before == RowsAt(initial, before, k);
      }
      rows, etag := next, etag + 1;
    }

    /** Others commit what they like. */
    method Interfere()
      requires Valid()
      modifies this`rows, this`etag, this`commits
      ensures Valid() && old(commits) <= commits
      ensures forall k :: |old(commits)| <= k < |commits| ==> !commits[k].own
      ensures quiet ==> commits == old(commits)
    {
      var policies: seq<seq<Row>> := *;
      if quiet {
        policies := [];
      }
      for i := 0 to |policies|
        invariant Valid() && old(commits) <= commits
        invariant forall k :: |old(commits)| <= k < |commits| ==> !commits[k].own
        invariant quiet ==> commits == old(commits)
      {
        Store(policies[i], false);
      }
    }

    /** Decodes the stored bindings into objects of their own. */
    method Decode() returns (bindings: seq<Binding>)
      ensures Unaliased(bindings) && HasRows(bindings, rows) && forall b :: b in bindings ==> fresh(b) && fresh(b.members)
    {
      bindings := [];
      for i := 0 to |rows|
        invariant Unaliased(bindings) && HasRows(bindings, rows[..i])
        invariant forall b :: b in bindings ==> fresh(b) && fresh(b.members)
      {
        var binding := NewBinding(bindings, rows[..i], rows[i].role, rows[i].members);
        bindings := bindings + [binding];
        assert rows[..i + 1] == rows[..i] + [Row(rows[i].role, rows[i].members)];
      }
      assert rows[..|rows|] == rows;
    }

    method Encode(bindings: seq<Binding>, ghost values: seq<Row>) returns (encoded: seq<Row>)
      requires HasRows(bindings, values)
      ensures encoded == values
    {
      encoded := [];
      for i := 0 to |bindings|
        invariant encoded == values[..i]
      {
        assert bindings[i] in bindings;
        encoded := encoded + [RowOf(bindings[i])];
      }
    }

    method Copy() returns (policy: Policy)
      ensures fresh(policy) && Unaliased(policy.bindings) && forall b :: b in policy.bindings ==> fresh(b) && fresh(b.members)
      ensures policy.etag == etag && HasRows(policy.bindings, rows)
    {
      var bindings := Decode();
      policy := new Policy(bindings, etag);
    }

    method GetIamPolicy() returns (policy: Policy, err: Error)
      requires Valid()
      modifies this
      ensures Valid() && old(commits) <= commits && getCalls == old(getCalls) + 1 && setCalls == old(setCalls)
      ensures forall k :: |old(commits)| <= k < |commits| ==> !commits[k].own
      ensures fresh(policy) && Unaliased(policy.bindings) && forall b :: b in policy.bindings ==> fresh(b) && fresh(b.members)
      ensures err == NoError ==> policy.etag == |commits| && HasRows(policy.bindings, rows)
      ensures faults == old(faults) + (if err == NoError then 0 else 1) && answers == old(answers)
      ensures quiet ==> err == NoError && commits == old(commits)
    {
      getCalls := getCalls + 1;
      Interfere();
      var fails: bool := *;
      if fails && !quiet {
        policy := new Policy([], 0);
        faults := faults + 1;
        return policy, Failed;
      }
      policy := Copy();
      return policy, NoError;
    }

    method StoreCopy(bindings: seq<Binding>, ghost next: seq<Row>)
      requires Valid() && HasRows(bindings, next)
      modifies this`rows, this`etag, this`commits
      ensures Valid() && rows == next && commits == old(commits) + [Commit(old(rows), next, true)]
    {
      var encoded := Encode(bindings, next);
      Store(encoded, true);
    }

    /** The write is carried out only when nobody committed since the policy was read. `lost` says that it was
        carried out and reported as failed all the same. */
    method SetIamPolicy(policy: Policy, ghost next: seq<Row>) returns (answer: Answer, ghost lost: bool)
      requires Valid() && Unaliased(policy.bindings) && HasRows(policy.bindings, next)
      modifies this
      ensures Valid() && old(commits) <= commits && getCalls == old(getCalls) && setCalls == old(setCalls) + 1
      ensures answer == Done || lost ==>
                && |commits| == policy.etag + 1 > |old(commits)|
                && commits[policy.etag].after == next
      ensures forall k :: |old(commits)| <= k < |commits| ==> (commits[k].own <==> (answer == Done || lost) && k == policy.etag)
      ensures lost ==> answer == Refused
      ensures answer == Conflict ==> |commits| != policy.etag
      ensures faults == old(faults) + (if answer == Refused then 1 else 0) && answers == old(answers) + [answer]
      ensures quiet && policy.etag == |old(commits)| ==> answer == Done
    {
      setCalls := setCalls + 1;
      Interfere();
      answer, lost := Decide(policy, next);
      faults, answers := faults + (if answer == Refused then 1 else 0), answers + [answer];
    }

    /** What becomes of a write that nobody else gets in between any more. */
    method Decide(policy: Policy, ghost next: seq<Row>) returns (answer: Answer, ghost lost: bool)
      requires Valid() && HasRows(policy.bindings, next)
      modifies this`rows, this`etag, this`commits
      ensures Valid() && (lost ==> answer == Refused) && (quiet && policy.etag == |old(commits)| ==> answer == Done)
      ensures if answer == Done || lost then policy.etag == |old(commits)| && commits == old(commits) + [Commit(old(rows), next, true)]
              else commits == old(commits) && (answer == Conflict ==> policy.etag != |commits|)
    {
      var fails, reported: bool := *, *;
      if fails && reported && !quiet {
        return Refused, false;
      }
      if etag != policy.etag {
        return Conflict, false;
      }
      StoreCopy(policy.bindings, next);
      answer, lost := if fails && !quiet then Refused else Done, fails && !quiet;
    }
  }

  const RETRIES := 3

  /** A commit that adds the member to the roles, to the policy as it was stored just before. */
  ghost predicate Adds(c: Commit, roles: set<string>, member: string) {
    exists order ::
      Enumerates(order, Extended(c.before, roles, member).1) && c.after == Added(c.before, roles, member, order)
  }

  lemma PrefixRows(initial: seq<Row>, shorter: seq<Commit>, longer: seq<Commit>, version: nat)
    requires shorter <= longer && version <= |shorter|
    ensures RowsAt(initial, shorter, version) == RowsAt(initial, longer, version)
  {
  }

  datatype Attempt = NothingToDo | Committed | MayRetry | GaveUp

  /** What one attempt did to the log: the commit at `at` is its own, if there is one. */
  ghost predicate Attempted(initial: seq<Row>, before: seq<Commit>, after: seq<Commit>, attempt: Attempt, at: int, lost: bool) {
    && before <= after && at < |after|
    && (forall k :: |before| <= k < |after| ==> (after[k].own <==> k == at))
    && (at >= 0 <==> attempt == Committed || lost)
    && (at >= 0 ==> at >= |before| && after[at].before == RowsAt(initial, after, at))
    && (lost ==> attempt == GaveUp)
  }

  /** What one write costs: a conflict costs the others a commit, and a refusal is a fault. */
  ghost predicate Answered(faults: nat, answers: seq<Answer>, commits: nat, faultsAfter: nat, answersAfter: seq<Answer>, commitsAfter: nat,
                           attempt: Attempt) {
    match attempt
    case Committed => faultsAfter == faults && answersAfter == answers + [Done]
    case MayRetry => faultsAfter == faults && answersAfter == answers + [Conflict] && commitsAfter > commits
    case _ => faultsAfter == faults + 1 && answersAfter == answers + [Refused]
  }

  /** A call fails exactly when one of its reads or writes failed, or when all of its four writes met with conflicts;
      it writes again after every conflict but a fourth, and each conflict costs the others a commit. */
  ghost predicate TriesAgain(faults: nat, answers: seq<Answer>, commits: nat, faultsAfter: nat, answersAfter: seq<Answer>, commitsAfter: nat,
                             err: Error) {
    && answers <= answersAfter && faults <= faultsAfter
    && var mine := answersAfter[|answers|..];
       && |mine| <= 4 && (forall k :: 0 <= k < |mine| - 1 ==> mine[k] == Conflict)
       && (err != NoError <==> faultsAfter > faults || mine == [Conflict, Conflict, Conflict, Conflict])
       && (faultsAfter == faults && commitsAfter <= commits + 3 ==> err == NoError)
  }

  /** The answers of a call that has met with conflicts only. */
  predicate OnlyConflicts(answers: seq<Answer>, answersAfter: seq<Answer>, count: nat) {
    answers <= answersAfter && |answersAfter| == |answers| + count
    && forall k :: |answers| <= k < |answersAfter| ==> answersAfter[k] == Conflict
  }

  lemma ReadFailed(faults: nat, answers: seq<Answer>, commits: nat, answersAfter: seq<Answer>, commitsAfter: nat, retry: nat, err: Error)
    requires retry <= RETRIES && OnlyConflicts(answers, answersAfter, retry) && err != NoError
    ensures TriesAgain(faults, answers, commits, faults + 1, answersAfter, commitsAfter, err)
  {
  }

  lemma NothingWritten(faults: nat, answers: seq<Answer>, commits: nat, answersAfter: seq<Answer>, commitsAfter: nat, retry: nat)
    requires retry <= RETRIES && OnlyConflicts(answers, answersAfter, retry)
    ensures TriesAgain(faults, answers, commits, faults, answersAfter, commitsAfter, NoError)
  {
  }

  lemma LastWrite(faults: nat, answers: seq<Answer>, commits: nat, between: seq<Answer>, commitsBetween: nat, retry: nat,
                  faultsAfter: nat, answersAfter: seq<Answer>, commitsAfter: nat, attempt: Attempt)
    requires retry <= RETRIES && OnlyConflicts(answers, between, retry) && commitsBetween >= commits + retry
    requires Answered(faults, between, commitsBetween, faultsAfter, answersAfter, commitsAfter, attempt)
    requires attempt == MayRetry ==> retry == RETRIES
    ensures TriesAgain(faults, answers, commits, faultsAfter, answersAfter, commitsAfter, if attempt == Committed then NoError else Failed)
  {
    var mine := answersAfter[|answers|..];
    assert |mine| == retry + 1;
    assert forall k :: 0 <= k < retry ==> mine[k] == between[|answers| + k];
    assert mine[retry] == answersAfter[|between|];
  }

  /** The first binding of each role lists the member, so that it has the roles. */
  ghost predicate Has(rows: seq<Row>, roles: set<string>, member: string) {
    Complete(rows, roles, member) && Both(roles, member) <= Relation(rows)
  }

  lemma NothingToAdd(rows: seq<Row>, roles: set<string>, member: string, order: seq<string>)
    requires Enumerates(order, Extended(rows, roles, member).1)
    ensures Added(rows, roles, member, order) == rows ==> Has(rows, roles, member)
  {
    CompleteStays(rows, roles, member, order);
    AddedRelation(rows, roles, member, order);
  }

  /** Reads the policy and adds the member to the copy. */
  method AddOrUpdateBindings(server: PolicyServer, email: string, policies: seq<string>, kind: MemberType)
    returns (policy: Policy, modified: bool, err: Error, ghost order: seq<string>)
    requires server.Valid()
    modifies server
    ensures server.Valid() && Attempted(server.initial, old(server.commits), server.commits, NothingToDo, -1, false)
    ensures server.getCalls == old(server.getCalls) + 1 && server.setCalls == old(server.setCalls)
    ensures server.faults == old(server.faults) + (if err == NoError then 0 else 1) && server.answers == old(server.answers)
    ensures fresh(policy)
    ensures err == NoError ==>
              && policy.etag == |server.commits| && Unaliased(policy.bindings)
              && Enumerates(order, Extended(server.rows, Named(policies), MemberName(email, kind)).1)
              && HasRows(policy.bindings, Added(server.rows, Named(policies), MemberName(email, kind), order))
              && (modified <==> Added(server.rows, Named(policies), MemberName(email, kind), order) != server.rows)
              && (!modified ==> Has(server.rows, Named(policies), MemberName(email, kind)))
    ensures server.quiet ==> err == NoError && server.commits == old(server.commits)
  {
    modified, order := false, [];
    policy, err := server.GetIamPolicy();
    if err == NoError {
      modified, order := AddToCopy(policy, server.rows, email, policies, kind);
    }
  }

  method AddToCopy(policy: Policy, ghost rows: seq<Row>, email: string, policies: seq<string>, kind: MemberType)
    returns (modified: bool, ghost order: seq<string>)
    requires Unaliased(policy.bindings) && HasRows(policy.bindings, rows)
    modifies policy`bindings, Arrays(policy.bindings)
    ensures Unaliased(policy.bindings) && Enumerates(order, Extended(rows, Named(policies), MemberName(email, kind)).1)
    ensures HasRows(policy.bindings, Added(rows, Named(policies), MemberName(email, kind), order))
    ensures modified <==> Added(rows, Named(policies), MemberName(email, kind), order) != rows
    ensures !modified ==> Has(rows, Named(policies), MemberName(email, kind))
  {
    var newBindings;
    newBindings, modified, order := AddOrUpdateBinding(policy.bindings, rows, policies, email, kind);
    policy.bindings := newBindings;
    NothingToAdd(rows, Named(policies), MemberName(email, kind), order);
  }

  /** Writes a changed copy back. */
  method WriteBack(server: PolicyServer, policy: Policy, ghost next: seq<Row>)
    returns (attempt: Attempt, ghost at: int, ghost lost: bool)
    requires server.Valid() && policy.etag == |server.commits| && Unaliased(policy.bindings) && HasRows(policy.bindings, next)
    modifies server
    ensures server.Valid() && Attempted(server.initial, old(server.commits), server.commits, attempt, at, lost)
    ensures at >= 0 ==> server.commits[at].before == old(server.rows) && server.commits[at].after == next
    ensures attempt == Committed ==> at == |server.commits| - 1
    ensures server.getCalls == old(server.getCalls) && server.setCalls == old(server.setCalls) + 1
    ensures Answered(old(server.faults), old(server.answers), old(|server.commits|), server.faults, server.answers, |server.commits|, attempt)
    ensures attempt != NothingToDo && (server.quiet ==> attempt == Committed && |server.commits| == |old(server.commits)| + 1)
  {
    var answer;
    answer, lost := server.SetIamPolicy(policy, next);
    PrefixRows(server.initial, old(server.commits), server.commits, policy.etag);
    at := if answer == Done || lost then policy.etag else -1;
    attempt := if answer == Done then Committed else if answer == Conflict then MayRetry else GaveUp;
  }

  lemma AttemptsChain(initial: seq<Row>, a: seq<Commit>, b: seq<Commit>, c: seq<Commit>, attempt: Attempt, at: int, lost: bool)
    requires Attempted(initial, a, b, NothingToDo, -1, false) && Attempted(initial, b, c, attempt, at, lost)
    ensures Attempted(initial, a, c, attempt, at, lost)
  {
  }

  /** Writes back a copy with the member added. */
  method WriteAddition(server: PolicyServer, policy: Policy, ghost roles: set<string>, ghost member: string, ghost order: seq<string>)
    returns (attempt: Attempt, ghost at: int, ghost lost: bool)
    requires server.Valid() && policy.etag == |server.commits| && Unaliased(policy.bindings)
    requires Enumerates(order, Extended(server.rows, roles, member).1)
    requires HasRows(policy.bindings, Added(server.rows, roles, member, order))
    modifies server
    ensures server.Valid() && Attempted(server.initial, old(server.commits), server.commits, attempt, at, lost)
    ensures at >= 0 ==> Adds(server.commits[at], roles, member)
    ensures attempt == Committed ==> at == |server.commits| - 1 && Both(roles, member) <= Relation(server.rows)
    ensures server.getCalls == old(server.getCalls) && server.setCalls == old(server.setCalls) + 1
    ensures Answered(old(server.faults), old(server.answers), old(|server.commits|), server.faults, server.answers, |server.commits|, attempt)
    ensures attempt != NothingToDo && (server.quiet ==> attempt == Committed && |server.commits| == |old(server.commits)| + 1)
  {
    ghost var before, next := server.rows, Added(server.rows, roles, member, order);
    attempt, at, lost := WriteBack(server, policy, next);
    assert at >= 0 ==> server.commits[at].before == before && server.commits[at].after == next;
    if attempt == Committed {
      assert server.rows == next;
      AddedRelation(before, roles, member, order);
    }
  }

  /** Adds the member to the roles. Success means that the one commit made adds exactly this to what was stored just before it,
      or that there was nothing to add when the policy was read. A failure commits nothing, unless the answer to the write was lost. */
  method SetIAMPolicy(server: PolicyServer, email: string, policies: seq<string>, kind: MemberType)
    returns (err: Error, ghost attempt: Attempt, ghost at: int, ghost lost: bool)
    requires server.Valid()
    modifies server
    ensures server.Valid() && Attempted(server.initial, old(server.commits), server.commits, attempt, at, lost)
    ensures at >= 0 ==> Adds(server.commits[at], Named(policies), MemberName(email, kind))
    ensures err == NoError <==> attempt == NothingToDo || attempt == Committed
    ensures attempt == Committed ==> at == |server.commits| - 1
    ensures attempt == NothingToDo ==> Complete(server.rows, Named(policies), MemberName(email, kind))
    ensures err == NoError ==> Both(Named(policies), MemberName(email, kind)) <= Relation(server.rows)
    ensures server.getCalls <= old(server.getCalls) + 1 + RETRIES && server.setCalls <= old(server.setCalls) + 1 + RETRIES
    ensures server.quiet ==> err == NoError && |server.commits| <= |old(server.commits)| + 1
    ensures TriesAgain(old(server.faults), old(server.answers), old(|server.commits|), server.faults, server.answers, |server.commits|, err)
  {
    var retry := 0;
    while true
      invariant retry <= RETRIES && server.Valid()
      invariant Attempted(server.initial, old(server.commits), server.commits, NothingToDo, -1, false)
      invariant server.getCalls == old(server.getCalls) + retry && server.setCalls == old(server.setCalls) + retry
      invariant server.quiet ==> retry == 0 && server.commits == old(server.commits)
      invariant server.faults == old(server.faults) && OnlyConflicts(old(server.answers), server.answers, retry)
      invariant |server.commits| >= old(|server.commits|) + retry
      decreases RETRIES - retry
    {
      var policy, modified;
      ghost var order;
      ghost var start := server.commits;
      policy, modified, err, order := AddOrUpdateBindings(server, email, policies, kind);
      AttemptsChain(server.initial, old(server.commits), start, server.commits, NothingToDo, -1, false);
      if err != NoError {
        ReadFailed(old(server.faults), old(server.answers), old(|server.commits|), server.answers, |server.commits|, retry, err);
        return err, GaveUp, -1, false;
      }
      ghost var log := server.commits;
      ghost var answers, committed := server.answers, |server.commits|;
      if !modified {
        NothingWritten(old(server.faults), old(server.answers), old(|server.commits|), server.answers, |server.commits|, retry);
        return NoError, NothingToDo, -1, false;
      }
      var tried;
      tried, at, lost := WriteAddition(server, policy, Named(policies), MemberName(email, kind), order);
      AttemptsChain(server.initial, old(server.commits), log, server.commits, tried, at, lost);
      if tried == MayRetry && retry < RETRIES {
        retry := retry + 1;
      } else {
        LastWrite(old(server.faults), old(server.answers), old(|server.commits|), answers, committed, retry,
                  server.faults, server.answers, |server.commits|, tried);
        return if tried == Committed then NoError else Failed, tried, at, lost;
      }
    }
  }

  /** Reads the policy and removes the member from the copy. */
  method RemoveFromBindings(server: PolicyServer, email: string, kind: MemberType)
    returns (policy: Policy, modified: bool, err: Error)
    requires server.Valid()
    modifies server
    ensures server.Valid() && Attempted(server.initial, old(server.commits), server.commits, NothingToDo, -1, false)
    ensures server.getCalls == old(server.getCalls) + 1 && server.setCalls == old(server.setCalls)
    ensures server.faults == old(server.faults) + (if err == NoError then 0 else 1) && server.answers == old(server.answers)
    ensures fresh(policy)
    ensures err == NoError ==>
              && policy.etag == |server.commits| && Unaliased(policy.bindings)
              && HasRows(policy.bindings, Removed(server.rows, MemberName(email, kind)))
              && (modified <==> Mentions(server.rows, MemberName(email, kind)))
    ensures server.quiet ==> err == NoError && server.commits == old(server.commits)
  {
    modified := false;
    policy, err := server.GetIamPolicy();
    if err == NoError {
      var newBindings;
      newBindings, modified := RemoveOrUpdateBinding(policy.bindings, server.rows, email, kind);
      policy.bindings := newBindings;
    }
  }

  /** Writes back a copy without the member. */
  method WriteRemoval(server: PolicyServer, policy: Policy, ghost member: string)
    returns (attempt: Attempt, ghost at: int, ghost lost: bool)
    requires server.Valid() && policy.etag == |server.commits| && Unaliased(policy.bindings)
    requires HasRows(policy.bindings, Removed(server.rows, member))
    modifies server
    ensures server.Valid() && Attempted(server.initial, old(server.commits), server.commits, attempt, at, lost)
    ensures at >= 0 ==> server.commits[at].after == Removed(server.commits[at].before, member)
    ensures attempt == Committed ==>
              at == |server.commits| - 1 && (!Mentions(server.rows, member) <==> ListedOnce(server.commits[at].before, member))
    ensures server.getCalls == old(server.getCalls) && server.setCalls == old(server.setCalls) + 1
    ensures Answered(old(server.faults), old(server.answers), old(|server.commits|), server.faults, server.answers, |server.commits|, attempt)
    ensures attempt != NothingToDo && (server.quiet ==> attempt == Committed && |server.commits| == |old(server.commits)| + 1)
  {
    ghost var before, next := server.rows, Removed(server.rows, member);
    attempt, at, lost := WriteBack(server, policy, next);
    assert at >= 0 ==> server.commits[at].before == before && server.commits[at].after == next;
    if attempt == Committed {
      assert server.rows == next;
      MentionedAfterRemoval(before, member);
    }
  }

  /** Removes the member, with the same guarantees. After a commit the member is mentioned no more, exactly if
      no binding of the policy just before listed it twice. */
  method DeleteIAMPolicy(server: PolicyServer, email: string, kind: MemberType)
    returns (err: Error, ghost attempt: Attempt, ghost at: int, ghost lost: bool)
    requires server.Valid()
    modifies server
    ensures server.Valid() && Attempted(server.initial, old(server.commits), server.commits, attempt, at, lost)
    ensures at >= 0 ==> server.commits[at].after == Removed(server.commits[at].before, MemberName(email, kind))
    ensures err == NoError <==> attempt == NothingToDo || attempt == Committed
    ensures attempt == Committed ==>
              && at == |server.commits| - 1
              && (!Mentions(server.rows, MemberName(email, kind)) <==> ListedOnce(server.commits[at].before, MemberName(email, kind)))
    ensures attempt == NothingToDo ==> !Mentions(server.rows, MemberName(email, kind))
    ensures server.getCalls <= old(server.getCalls) + 1 + RETRIES && server.setCalls <= old(server.setCalls) + 1 + RETRIES
    ensures server.quiet ==> err == NoError && |server.commits| <= |old(server.commits)| + 1
    ensures TriesAgain(old(server.faults), old(server.answers), old(|server.commits|), server.faults, server.answers, |server.commits|, err)
  {
    var retry := 0;
    while true
      invariant retry <= RETRIES && server.Valid()
      invariant Attempted(server.initial, old(server.commits), server.commits, NothingToDo, -1, false)
      invariant server.getCalls == old(server.getCalls) + retry && server.setCalls == old(server.setCalls) + retry
      invariant server.quiet ==> retry == 0 && server.commits == old(server.commits)
      invariant server.faults == old(server.faults) && OnlyConflicts(old(server.answers), server.answers, retry)
      invariant |server.commits| >= old(|server.commits|) + retry
      decreases RETRIES - retry
    {
      ghost var start := server.commits;
      var policy, modified;
      policy, modified, err := RemoveFromBindings(server, email, kind);
      AttemptsChain(server.initial, old(server.commits), start, server.commits, NothingToDo, -1, false);
      if err != NoError {
        ReadFailed(old(server.faults), old(server.answers), old(|server.commits|), server.answers, |server.commits|, retry, err);
        return err, GaveUp, -1, false;
      }
      ghost var log := server.commits;
      ghost var answers, committed := server.answers, |server.commits|;
      if !modified {
        NothingWritten(old(server.faults), old(server.answers), old(|server.commits|), server.answers, |server.commits|, retry);
        return NoError, NothingToDo, -1, false;
      }
      var tried;
      tried, at, lost := WriteRemoval(server, policy, MemberName(email, kind));
      AttemptsChain(server.initial, old(server.commits), log, server.commits, tried, at, lost);
      if tried == MayRetry && retry < RETRIES {
        retry := retry + 1;
      } else {
        LastWrite(old(server.faults), old(server.answers), old(|server.commits|), answers, committed, retry,
                  server.faults, server.answers, |server.commits|, tried);
        return if tried == Committed then NoError else Failed, tried, at, lost;
      }
    }
  }
}
