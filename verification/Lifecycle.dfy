/** Granting everything and cleaning everything up again leaves a policy as it was, apart from what others did meanwhile. */
module Lifecycle {
  import opened Operations
  import opened Bindings
  import opened BindingLists
  import opened Policies

  /** A call of the operator's: all its roles given to a member, or all of them taken away. */
  datatype Call = Grant(email: string, roles: seq<string>, kind: MemberType) | Revoke(email: string, kind: MemberType)

  function MemberOf(call: Call): string {
    MemberName(call.email, call.kind)
  }

  /** What one commit of the operator's may do to a member. */
  ghost predicate Changes(c: Commit, member: string) {
    (exists roles :: Adds(c, roles, member)) || c.after == Removed(c.before, member)
  }

  /** A commit of the loop that adds is set union; one of the loop that removes is a difference, exactly if
      no binding lists the member twice. Neither makes any list name anybody twice. */
  lemma CommitsAreChanges(c: Commit, roles: set<string>, member: string)
    ensures Adds(c, roles, member) ==>
              && Relation(c.after) == Relation(c.before) + Both(roles, member)
              && forall other :: ListedOnce(c.before, other) ==> ListedOnce(c.after, other)
    ensures c.after == Removed(c.before, member) ==>
              && (Relation(c.after) == Relation(c.before) - GrantsTo(Relation(c.before), member) <==> ListedOnce(c.before, member))
              && forall other :: ListedOnce(c.before, other) ==> ListedOnce(c.after, other)
  {
    if Adds(c, roles, member) {
      var order :| Enumerates(order, Extended(c.before, roles, member).1) && c.after == Added(c.before, roles, member, order);
      AddedMeaning(c.before, roles, member, order);
    }
    if c.after == Removed(c.before, member) {
      RemovedMeaning(c.before, member);
    }
  }

  /** Whoever is not the member does not notice a commit that changes the member. */
  lemma OthersDoNotNotice(c: Commit, member: string)
    requires Changes(c, member)
    ensures forall g: (string, string) :: g.1 != member ==> (g in Relation(c.after) <==> g in Relation(c.before))
    ensures forall other :: ListedOnce(c.before, other) ==> ListedOnce(c.after, other)
  {
    if roles :| Adds(c, roles, member) {
      CommitsAreChanges(c, roles, member);
    } else {
      RemovedMeaning(c.before, member);
    }
  }

  // A stretch of a policy's history

  /** Each commit starts from what the one before it left. */
  predicate Chained(start: seq<Row>, log: seq<Commit>) {
    forall k :: 0 <= k < |log| ==> log[k].before == RowsAt(start, log, k)
  }

  function End(start: seq<Row>, log: seq<Commit>): seq<Row> {
    RowsAt(start, log, |log|)
  }

  /** Each of the operator's commits changes one of its own members. */
  ghost predicate Orderly(log: seq<Commit>, own: set<string>) {
    forall k | 0 <= k < |log| && log[k].own :: exists member :: member in own && Changes(log[k], member)
  }

  /** The others leave the grants of the operator's members alone, and list none of them twice. */
  predicate LeavesAlone(c: Commit, own: set<string>) {
    forall member | member in own ::
      && GrantsTo(Relation(c.after), member) == GrantsTo(Relation(c.before), member)
      && (ListedOnce(c.before, member) ==> ListedOnce(c.after, member))
  }

  predicate Considerate(log: seq<Commit>, own: set<string>) {
    forall k | 0 <= k < |log| && !log[k].own :: LeavesAlone(log[k], own)
  }

  predicate AllListedOnce(rows: seq<Row>, own: set<string>) {
    forall member | member in own :: ListedOnce(rows, member)
  }

  /** What the others' commits alone make of a relation. */
  function OthersMake(grants: Grants, log: seq<Commit>): Grants {
    if log == [] then grants
    else
      var earlier, last := OthersMake(grants, log[..|log| - 1]), log[|log| - 1];
      if last.own then earlier
      else earlier - (Relation(last.before) - Relation(last.after)) + (Relation(last.after) - Relation(last.before))
  }

  lemma Shorter(start: seq<Row>, log: seq<Commit>)
    requires log != [] && Chained(start, log)
    ensures var earlier := log[..|log| - 1];
            Chained(start, earlier) && log[|log| - 1].before == End(start, earlier) && End(start, log) == log[|log| - 1].after
    ensures forall own :: Orderly(log, own) ==> Orderly(log[..|log| - 1], own)
    ensures forall own :: Considerate(log, own) ==> Considerate(log[..|log| - 1], own)
  {
    var earlier := log[..|log| - 1];
    forall k | 0 <= k < |earlier| ensures earlier[k].before == RowsAt(start, earlier, k) {
      assert earlier[k] == log[k];
    }
  }

  /** Nobody but the operator's members notices what the operator does. */
  lemma {:induction false} OthersSeeOthers(start: seq<Row>, log: seq<Commit>, own: set<string>, g: (string, string))
    requires Chained(start, log) && Orderly(log, own) && g.1 !in own
    ensures g in Relation(End(start, log)) <==> g in OthersMake(Relation(start), log)
  {
    if log != [] {
      var earlier, last := log[..|log| - 1], log[|log| - 1];
      Shorter(start, log);
      OthersSeeOthers(start, earlier, own, g);
      if last.own {
        var member :| member in own && Changes(last, member);
        OthersDoNotNotice(last, member);
      }
    }
  }

  /** The others' commits alone give the operator's members nothing. */
  lemma {:induction false} OthersMakeNothingOfOwn(start: seq<Row>, log: seq<Commit>, own: set<string>, g: (string, string))
    requires Considerate(log, own) && Chained(start, log) && g.1 in own && !Mentions(start, g.1)
    ensures g !in OthersMake(Relation(start), log)
  {
    if log == [] {
      MentionsMeansGrants(start, g.1);
      assert g in Relation(start) ==> g in GrantsTo(Relation(start), g.1);
    } else {
      var last := log[|log| - 1];
      Shorter(start, log);
      OthersMakeNothingOfOwn(start, log[..|log| - 1], own, g);
      if !last.own {
        assert LeavesAlone(last, own);
        assert g in Relation(last.after) ==> g in GrantsTo(Relation(last.after), g.1);
        assert g in GrantsTo(Relation(last.before), g.1) ==> g in Relation(last.before);
      }
    }
  }

  /** If the operator's members had nothing before, the relation is what the others' commits alone would have made of it
      exactly when those members have nothing now. */
  lemma RoundTrip(start: seq<Row>, log: seq<Commit>, own: set<string>)
    requires Chained(start, log) && Orderly(log, own) && Considerate(log, own)
    requires forall member | member in own :: !Mentions(start, member)
    ensures Relation(End(start, log)) == OthersMake(Relation(start), log) <==> forall member | member in own :: !Mentions(End(start, log), member)
  {
    var end := End(start, log);
    forall g: (string, string) ensures g.1 !in own ==> (g in Relation(end) <==> g in OthersMake(Relation(start), log))
             ensures g.1 in own ==> g !in OthersMake(Relation(start), log) {
      if g.1 in own {
        OthersMakeNothingOfOwn(start, log, own, g);
      } else {
        OthersSeeOthers(start, log, own, g);
      }
    }
    forall member | member in own
      ensures Mentions(end, member) <==> exists g: (string, string) :: g in Relation(end) && g.1 == member
    {
      MentionsMeansGrants(end, member);
      if Mentions(end, member) {
        var g :| g in GrantsTo(Relation(end), member);
        assert g in Relation(end) && g.1 == member;
      }
      if g :| g in Relation(end) && g.1 == member {
        assert g in GrantsTo(Relation(end), member);
      }
    }
    if forall member | member in own :: !Mentions(end, member) {
      assert Relation(end) == OthersMake(Relation(start), log);
    }
  }

  // What a run of calls leaves of a member

  lemma {:induction false} StaysListedOnce(start: seq<Row>, log: seq<Commit>, own: set<string>)
    requires Chained(start, log) && Orderly(log, own) && Considerate(log, own) && AllListedOnce(start, own)
    ensures AllListedOnce(End(start, log), own)
  {
    if log != [] {
      var last := log[|log| - 1];
      Shorter(start, log);
      StaysListedOnce(start, log[..|log| - 1], own);
      if last.own {
        var member :| member in own && Changes(last, member);
        OthersDoNotNotice(last, member);
      } else {
        assert LeavesAlone(last, own);
      }
    }
  }

  /** Calls for other members do not bring a member back. */
  lemma {:induction false} StaysOut(start: seq<Row>, log: seq<Commit>, own: set<string>, member: string, other: string)
    requires Chained(start, log) && Orderly(log, {other}) && Considerate(log, own) && member in own && member != other
    requires !Mentions(start, member)
    ensures !Mentions(End(start, log), member)
  {
    if log != [] {
      var last := log[|log| - 1];
      Shorter(start, log);
      StaysOut(start, log[..|log| - 1], own, member, other);
      MentionsMeansGrants(last.before, member);
      MentionsMeansGrants(last.after, member);
      if last.own {
        OthersDoNotNotice(last, other);
        assert GrantsTo(Relation(last.after), member) == GrantsTo(Relation(last.before), member);
      } else {
        assert LeavesAlone(last, own);
      }
    }
  }

  // The calls themselves

  function MembersOf(calls: seq<Call>): set<string> {
    set call | call in calls :: MemberOf(call)
  }

  /** The last call for the member was a revocation, and it succeeded. */
  predicate RevokedLast(calls: seq<Call>, errs: seq<Error>, member: string) {
    |errs| == |calls| &&
    exists i ::
      && 0 <= i < |calls| && calls[i].Revoke? && MemberOf(calls[i]) == member && errs[i] == NoError
      && forall j :: i < j < |calls| ==> MemberOf(calls[j]) != member
  }

  /** What a stretch of history has to do with the members whose calls made it. */
  ghost predicate Stretch(start: seq<Row>, log: seq<Commit>, end: seq<Row>, own: set<string>) {
    Chained(start, log) && End(start, log) == end && Orderly(log, own)
  }

  lemma OrderlyTogether(log: seq<Commit>, more: seq<Commit>, own: set<string>, others: set<string>)
    requires Orderly(log, own) && Orderly(more, others)
    ensures Orderly(log + more, own + others)
  {
    var both := log + more;
    forall k | 0 <= k < |both| && both[k].own ensures exists member :: member in own + others && Changes(both[k], member) {
      if k < |log| {
        var member :| member in own && Changes(log[k], member);
        assert member in own + others && Changes(both[k], member);
      } else {
        var member :| member in others && Changes(more[k - |log|], member);
        assert member in own + others && Changes(both[k], member);
      }
    }
  }

  lemma ConsiderateApart(log: seq<Commit>, more: seq<Commit>, own: set<string>)
    requires Considerate(log + more, own)
    ensures Considerate(log, own) && Considerate(more, own)
  {
    var both := log + more;
    forall k | 0 <= k < |log| && !log[k].own ensures LeavesAlone(log[k], own) {
      assert both[k] == log[k];
    }
    forall k | 0 <= k < |more| && !more[k].own ensures LeavesAlone(more[k], own) {
      assert both[|log| + k] == more[k];
    }
  }

  lemma ChainedTogether(start: seq<Row>, log: seq<Commit>, more: seq<Commit>)
    requires Chained(start, log) && Chained(End(start, log), more)
    ensures Chained(start, log + more) && End(start, log + more) == End(End(start, log), more)
  {
    forall k | 0 <= k < |log + more| ensures (log + more)[k].before == RowsAt(start, log + more, k) {
      ChainedAt(start, log, more, k);
    }
    RowsAtTogether(start, log, more, |more|);
  }

  lemma ChainedAt(start: seq<Row>, log: seq<Commit>, more: seq<Commit>, k: nat)
    requires Chained(start, log) && Chained(End(start, log), more) && k < |log + more|
    ensures (log + more)[k].before == RowsAt(start, log + more, k)
  {
    if k < |log| {
      assert (log + more)[k] == log[k];
      assert RowsAt(start, log + more, k) == RowsAt(start, log, k);
    } else {
      assert (log + more)[k] == more[k - |log|];
      RowsAtTogether(start, log, more, k - |log|);
    }
  }

  lemma RowsAtTogether(start: seq<Row>, log: seq<Commit>, more: seq<Commit>, k: nat)
    requires k <= |more|
    ensures RowsAt(start, log + more, |log| + k) == RowsAt(End(start, log), more, k)
  {
    if k > 0 {
      assert (log + more)[|log| + k - 1] == more[k - 1];
    } else if log != [] {
      assert (log + more)[|log| - 1] == log[|log| - 1];
    }
  }

  lemma OneAfterTheOther(start: seq<Row>, log: seq<Commit>, middle: seq<Row>, more: seq<Commit>, end: seq<Row>, own: set<string>, others: set<string>)
    requires Stretch(start, log, middle, own) && Stretch(middle, more, end, others)
    ensures Stretch(start, log + more, end, own + others)
  {
    ChainedTogether(start, log, more);
    OrderlyTogether(log, more, own, others);
  }

  lemma LogIsChained(initial: seq<Row>, commits: seq<Commit>, from: nat)
    requires from <= |commits| && Chained(initial, commits)
    ensures Chained(RowsAt(initial, commits, from), commits[from..])
    ensures End(RowsAt(initial, commits, from), commits[from..]) == End(initial, commits)
  {
    var log := commits[from..];
    forall k | 0 <= k < |log| ensures log[k].before == RowsAt(RowsAt(initial, commits, from), log, k) {
      assert log[k] == commits[from + k];
    }
  }

  lemma LogIsOrderly(commits: seq<Commit>, from: nat, at: int, member: string)
    requires from <= |commits|
    requires forall k :: from <= k < |commits| ==> (commits[k].own <==> k == at)
    requires from <= at < |commits| ==> Changes(commits[at], member)
    ensures Orderly(commits[from..], {member})
  {
    var log := commits[from..];
    forall k | 0 <= k < |log| && log[k].own ensures exists one :: one in {member} && Changes(log[k], one) {
      assert log[k] == commits[from + k];
      assert member in {member} && Changes(log[k], member);
    }
  }

  lemma OrderlyForMore(log: seq<Commit>, own: set<string>, more: set<string>)
    requires Orderly(log, own) && own <= more
    ensures Orderly(log, more)
  {
    forall k | 0 <= k < |log| && log[k].own ensures exists member :: member in more && Changes(log[k], member) {
      var member :| member in own && Changes(log[k], member);
      assert member in more;
    }
  }

  /** A revocation whose commit is the last one takes everything of a member that was not listed twice at the start. */
  lemma LastCommitRevokes(start: seq<Row>, log: seq<Commit>, end: seq<Row>, member: string, own: set<string>)
    requires Stretch(start, log, end, {member}) && log != [] && log[|log| - 1].after == Removed(log[|log| - 1].before, member)
    requires member in own && Considerate(log, own) && AllListedOnce(start, own)
    ensures !Mentions(end, member)
  {
    OrderlyForMore(log, {member}, own);
    Shorter(start, log);
    StaysListedOnce(start, log[..|log| - 1], own);
    RemovedMeaning(log[|log| - 1].before, member);
  }

  /** Nothing is left of the member, if the others left it alone and nobody listed it twice. */
  ghost predicate Revokes(start: seq<Row>, log: seq<Commit>, end: seq<Row>, member: string) {
    forall own :: member in own && Considerate(log, own) && AllListedOnce(start, own) ==> !Mentions(end, member)
  }

  lemma LastCommitMeans(start: seq<Row>, log: seq<Commit>, end: seq<Row>, member: string)
    requires Stretch(start, log, end, {member}) && log != [] && log[|log| - 1].after == Removed(log[|log| - 1].before, member)
    ensures Revokes(start, log, end, member)
  {
    forall own | member in own && Considerate(log, own) && AllListedOnce(start, own) ensures !Mentions(end, member) {
      LastCommitRevokes(start, log, end, member, own);
    }
  }

  lemma SplitLog(before: seq<Commit>, after: seq<Commit>)
    requires before <= after
    ensures after == before + after[|before|..]
  {
  }

  lemma SuffixGrows(before: seq<Commit>, more: seq<Commit>, from: nat)
    requires from <= |before|
    ensures (before + more)[from..] == before[from..] + more
  {
  }

  lemma LastOfLog(commits: seq<Commit>, from: nat)
    requires from < |commits|
    ensures commits[from..] != [] && commits[from..][|commits| - from - 1] == commits[|commits| - 1]
  {
  }

  /** One call, and the stretch of history that passes meanwhile. A revocation that succeeds leaves nothing of the member. */
  method PerformOne(server: PolicyServer, call: Call) returns (err: Error, ghost log: seq<Commit>)
    requires server.Valid()
    modifies server
    ensures server.Valid() && server.commits == old(server.commits) + log
    ensures Stretch(old(server.rows), log, server.rows, {MemberOf(call)})
    ensures call.Revoke? && err == NoError ==> Revokes(old(server.rows), log, server.rows, MemberOf(call))
  {
    if call.Grant? {
      err, log := PerformGrant(server, call);
    } else {
      err, log := PerformRevocation(server, call);
    }
  }

  method PerformGrant(server: PolicyServer, call: Call) returns (err: Error, ghost log: seq<Commit>)
    requires server.Valid() && call.Grant?
    modifies server
    ensures server.Valid() && server.commits == old(server.commits) + log
    ensures Stretch(old(server.rows), log, server.rows, {MemberOf(call)})
  {
    ghost var from := |server.commits|;
    ghost var attempt, at, lost;
    err, attempt, at, lost := SetIAMPolicy(server, call.email, call.roles, call.kind);
    log := server.commits[from..];
    SplitLog(old(server.commits), server.commits);
    LogIsChained(server.initial, server.commits, from);
    LogIsOrderly(server.commits, from, at, MemberOf(call));
  }

  method PerformRevocation(server: PolicyServer, call: Call) returns (err: Error, ghost log: seq<Commit>)
    requires server.Valid() && call.Revoke?
    modifies server
    ensures server.Valid() && server.commits == old(server.commits) + log
    ensures Stretch(old(server.rows), log, server.rows, {MemberOf(call)})
    ensures err == NoError ==> Revokes(old(server.rows), log, server.rows, MemberOf(call))
  {
    ghost var start, before := server.rows, server.commits;
    ghost var attempt, at, lost;
    err, attempt, at, lost := DeleteIAMPolicy(server, call.email, call.kind);
    log := server.commits[|before|..];
    RevocationPasses(server.initial, before, server.commits, start, server.rows, attempt, at, lost, MemberOf(call));
  }

  /** What a call that removes the member did to the log, as a stretch of history. */
  lemma RevocationPasses(initial: seq<Row>, before: seq<Commit>, after: seq<Commit>, start: seq<Row>, end: seq<Row>,
                         attempt: Attempt, at: int, lost: bool, member: string)
    requires Attempted(initial, before, after, attempt, at, lost) && Chained(initial, after)
    requires start == RowsAt(initial, after, |before|) && end == End(initial, after)
    requires at >= 0 ==> after[at].after == Removed(after[at].before, member)
    requires attempt == Committed ==> at == |after| - 1
    requires attempt == NothingToDo ==> !Mentions(end, member)
    ensures after == before + after[|before|..] && Stretch(start, after[|before|..], end, {member})
    ensures attempt == Committed || attempt == NothingToDo ==> Revokes(start, after[|before|..], end, member)
  {
    SplitLog(before, after);
    LogIsChained(initial, after, |before|);
    LogIsOrderly(after, |before|, at, member);
    if attempt == Committed {
      LastMeans(after, |before|, start, end, member);
    } else if attempt == NothingToDo {
      NothingIsLeft(start, after[|before|..], end, member);
    }
  }

  lemma NothingIsLeft(start: seq<Row>, log: seq<Commit>, end: seq<Row>, member: string)
    requires !Mentions(end, member)
    ensures Revokes(start, log, end, member)
  {
  }

  lemma LastMeans(commits: seq<Commit>, from: nat, start: seq<Row>, end: seq<Row>, member: string)
    requires from < |commits| && Stretch(start, commits[from..], end, {member})
    requires commits[|commits| - 1].after == Removed(commits[|commits| - 1].before, member)
    ensures Revokes(start, commits[from..], end, member)
  {
    LastOfLog(commits, from);
    LastCommitMeans(start, commits[from..], end, member);
  }

  /** What is known of the revoked members stays known when the next call is for somebody else. */
  lemma RevokedStayOut(calls: seq<Call>, errs: seq<Error>, call: Call, err: Error, before: seq<Row>, log: seq<Commit>, after: seq<Row>,
                       own: set<string>, member: string)
    requires |errs| == |calls| && RevokedLast(calls + [call], errs + [err], member)
    requires Stretch(before, log, after, {MemberOf(call)}) && Considerate(log, own) && member in own
    requires RevokedLast(calls, errs, member) ==> !Mentions(before, member)
    requires call.Revoke? && err == NoError ==> !Mentions(after, MemberOf(call))
    ensures !Mentions(after, member)
  {
    var all, codes := calls + [call], errs + [err];
    var i :| && 0 <= i < |all| && all[i].Revoke? && MemberOf(all[i]) == member && codes[i] == NoError
             && forall j :: i < j < |all| ==> MemberOf(all[j]) != member;
    if i < |calls| {
      assert MemberOf(all[|calls|]) != member;
      assert forall j :: 0 <= j < |calls| ==> all[j] == calls[j] && codes[j] == errs[j];
      assert RevokedLast(calls, errs, member);
      StaysOut(before, log, own, member, MemberOf(call));
    }
  }

  /** Whoever's last call is a revocation that succeeded is out. */
  predicate RevokedAreOut(calls: seq<Call>, errs: seq<Error>, rows: seq<Row>) {
    forall member | member in MembersOf(calls) && RevokedLast(calls, errs, member) :: !Mentions(rows, member)
  }

  /** What the calls made so far have come to. */
  ghost predicate Performed(start: seq<Row>, log: seq<Commit>, end: seq<Row>, own: set<string>, calls: seq<Call>, errs: seq<Error>) {
    && Stretch(start, log, end, own) && MembersOf(calls) <= own
    && (Considerate(log, own) && AllListedOnce(start, own) ==> RevokedAreOut(calls, errs, end))
  }

  lemma NothingPerformed(start: seq<Row>, own: set<string>)
    ensures Performed(start, [], start, own, [], [])
  {
  }

  lemma NextPerformed(start: seq<Row>, log: seq<Commit>, before: seq<Row>, more: seq<Commit>, after: seq<Row>, own: set<string>,
                      calls: seq<Call>, errs: seq<Error>, call: Call, err: Error)
    requires Performed(start, log, before, own, calls, errs) && |errs| == |calls| && MemberOf(call) in own
    requires Stretch(before, more, after, {MemberOf(call)})
    requires call.Revoke? && err == NoError ==> Revokes(before, more, after, MemberOf(call))
    ensures Performed(start, log + more, after, own, calls + [call], errs + [err])
  {
    assert own + {MemberOf(call)} == own;
    OneAfterTheOther(start, log, before, more, after, own, {MemberOf(call)});
    if Considerate(log + more, own) && AllListedOnce(start, own) {
      ConsiderateApart(log, more, own);
      StaysListedOnce(start, log, own);
      forall member | member in MembersOf(calls + [call]) && RevokedLast(calls + [call], errs + [err], member) ensures !Mentions(after, member) {
        if RevokedLast(calls, errs, member) {
          var i :| 0 <= i < |calls| && MemberOf(calls[i]) == member;
        }
        RevokedStayOut(calls, errs, call, err, before, more, after, own, member);
      }
    }
  }

  /** Nobody whom the calls are about was in before, and everybody's last call is a revocation that succeeded. */
  predicate AllRevoked(start: seq<Row>, calls: seq<Call>, errs: seq<Error>) {
    forall member | member in MembersOf(calls) :: RevokedLast(calls, errs, member) && !Mentions(start, member)
  }

  /** Once everybody is out who was not in before, the relation is what the others alone would have made of it. */
  lemma AllOut(start: seq<Row>, log: seq<Commit>, end: seq<Row>, calls: seq<Call>, errs: seq<Error>)
    requires Performed(start, log, end, MembersOf(calls), calls, errs)
    ensures Considerate(log, MembersOf(calls)) && AllListedOnce(start, MembersOf(calls)) ==> RevokedAreOut(calls, errs, end)
    ensures Considerate(log, MembersOf(calls)) && AllRevoked(start, calls, errs) ==> Relation(end) == OthersMake(Relation(start), log)
  {
    var own := MembersOf(calls);
    if Considerate(log, own) && AllRevoked(start, calls, errs) {
      forall member | member in own ensures ListedOnce(start, member) {
        assert !Mentions(start, member);
      }
      RoundTrip(start, log, own);
    }
  }

  lemma OneMore(calls: seq<Call>, i: nat)
    requires i < |calls|
    ensures calls[..i + 1] == calls[..i] + [calls[i]]
  {
  }

  lemma All(calls: seq<Call>)
    ensures calls[..|calls|] == calls
  {
  }

  method PerformNext(server: PolicyServer, calls: seq<Call>, i: nat, errs: seq<Error>, ghost start: seq<Row>, ghost from: nat) returns (err: Error)
    requires server.Valid() && i < |calls| && |errs| == i && from <= |server.commits|
    requires Performed(start, server.commits[from..], server.rows, MembersOf(calls), calls[..i], errs)
    modifies server
    ensures server.Valid() && old(server.commits) <= server.commits
    ensures Performed(start, server.commits[from..], server.rows, MembersOf(calls), calls[..i + 1], errs + [err])
  {
    ghost var before, log := server.rows, server.commits[from..];
    ghost var more;
    err, more := PerformOne(server, calls[i]);
    OneMore(calls, i);
    NextPerformed(start, log, before, more, server.rows, MembersOf(calls), calls[..i], errs, calls[i], err);
    SuffixGrows(old(server.commits), more, from);
  }

  method PerformAll(server: PolicyServer, calls: seq<Call>) returns (errs: seq<Error>)
    requires server.Valid()
    modifies server
    ensures server.Valid() && old(server.commits) <= server.commits && |errs| == |calls|
    ensures Performed(old(server.rows), server.commits[|old(server.commits)|..], server.rows, MembersOf(calls), calls[..|calls|], errs)
  {
    ghost var start, from := server.rows, |server.commits|;
    errs := [];
    NothingPerformed(start, MembersOf(calls));
    for i := 0 to |calls|
      invariant server.Valid() && old(server.commits) <= server.commits && |errs| == i
      invariant Performed(start, server.commits[from..], server.rows, MembersOf(calls), calls[..i], errs)
    {
      var err := PerformNext(server, calls, i, errs, start, from);
      errs := errs + [err];
    }
  }

  /** The operator's calls on a policy, in any order, whatever fails and whatever others commit meanwhile: whoever's last call is
      a revocation that succeeded is out; and once everybody is who was not in before, the relation is
      what the others' commits alone would have made of it. */
  method Perform(server: PolicyServer, calls: seq<Call>) returns (errs: seq<Error>, ghost log: seq<Commit>)
    requires server.Valid()
    modifies server
    ensures server.Valid() && server.commits == old(server.commits) + log && |errs| == |calls|
    ensures Considerate(log, MembersOf(calls)) && AllListedOnce(old(server.rows), MembersOf(calls)) ==> RevokedAreOut(calls, errs, server.rows)
    ensures Considerate(log, MembersOf(calls)) && AllRevoked(old(server.rows), calls, errs) ==>
              Relation(server.rows) == OthersMake(Relation(old(server.rows)), log)
  {
    ghost var start, from := server.rows, |server.commits|;
    errs := PerformAll(server, calls);
    log := server.commits[from..];
    SplitLog(old(server.commits), server.commits);
    All(calls);
    AllOut(start, log, server.rows, calls, errs);
  }
}
