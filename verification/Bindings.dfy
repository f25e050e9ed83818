/** The bindings of an IAM policy as values: what adding and removing a member means. */
module Bindings {

  datatype Row = Row(role: string, members: seq<string>)

  type Grants = set<(string, string)>

  /** The (role, member) relation that a list of bindings stands for. */
  function Relation(rows: seq<Row>): Grants {
    set i, member | 0 <= i < |rows| && member in rows[i].members :: (rows[i].role, member)
  }

  lemma RelationOfAppend(rows: seq<Row>, more: seq<Row>)
    ensures Relation(rows + more) == Relation(rows) + Relation(more)
  {
    var all := rows + more;
    forall i, member | 0 <= i < |rows| && member in rows[i].members ensures (rows[i].role, member) in Relation(all) {
      assert all[i] == rows[i];
    }
    forall i, member | 0 <= i < |more| && member in more[i].members ensures (more[i].role, member) in Relation(all) {
      assert all[|rows| + i] == more[i];
    }
  }

  predicate Distinct(members: seq<string>) {
    forall i, j :: 0 <= i < j < |members| ==> members[i] != members[j]
  }

  /** The member is at most once in the list. */
  predicate Once(members: seq<string>, member: string) {
    forall i, j :: 0 <= i < j < |members| && members[i] == member ==> members[j] != member
  }

  /** No binding lists the member twice. */
  predicate ListedOnce(rows: seq<Row>, member: string) {
    forall i :: 0 <= i < |rows| ==> Once(rows[i].members, member)
  }

  // Removing a member

  function WithoutFirst(members: seq<string>, member: string): (rest: seq<string>)
    ensures member !in members ==> rest == members
    ensures forall other :: other != member ==> (other in rest <==> other in members)
  {
    if members == [] then []
    else if members[0] == member then members[1..]
    else [members[0]] + WithoutFirst(members[1..], member)
  }

  lemma {:induction false} WithoutFirstAt(members: seq<string>, member: string, k: nat)
    requires k < |members| && members[k] == member && member !in members[..k]
    ensures WithoutFirst(members, member) == members[..k] + members[k + 1..]
  {
    if k > 0 {
      assert members[0] == members[..k][0];
      assert member !in members[1..][..k - 1] by {
        assert members[1..][..k - 1] == members[..k][1..];
      }
      WithoutFirstAt(members[1..], member, k - 1);
    }
  }

  function Removed(rows: seq<Row>, member: string): (after: seq<Row>)
    ensures |after| == |rows|
    ensures forall i :: 0 <= i < |rows| ==> after[i] == Row(rows[i].role, WithoutFirst(rows[i].members, member))
  {
    seq(|rows|, i requires 0 <= i < |rows| => Row(rows[i].role, WithoutFirst(rows[i].members, member)))
  }

  predicate Mentions(rows: seq<Row>, member: string) {
    exists i :: 0 <= i < |rows| && member in rows[i].members
  }

  function GrantsTo(grants: Grants, member: string): Grants {
    set g | g in grants && g.1 == member
  }

  /** A list loses the member exactly when the member is in it at most once; the others stay as often as they were. */
  lemma {:induction false} OnceLosesMember(members: seq<string>, member: string, other: string)
    ensures member !in WithoutFirst(members, member) <==> Once(members, member)
    ensures Once(members, other) ==> Once(WithoutFirst(members, member), other)
  {
    if members != [] {
      var head, tail := members[0], members[1..];
      OnceLosesMember(tail, member, other);
      TailOnce(members, member);
      TailOnce(members, other);
      if head != member {
        var rest := WithoutFirst(tail, member);
        assert [head] + rest == WithoutFirst(members, member);
        assert ([head] + rest)[1..] == rest;
        TailOnce([head] + rest, other);
      }
    }
  }

  lemma TailOnce(members: seq<string>, member: string)
    requires members != []
    ensures Once(members, member) <==> Once(members[1..], member) && (members[0] == member ==> member !in members[1..])
  {
    var tail := members[1..];
    assert forall i :: 0 <= i < |tail| ==> tail[i] == members[i + 1];
    forall k | 0 <= k < |tail| && members[0] == member && Once(members, member) ensures tail[k] != member {
      assert members[k + 1] != member;
    }
    if Once(tail, member) && (members[0] == member ==> member !in tail) {
      forall i, j | 0 <= i < j < |members| && members[i] == member ensures members[j] != member {
        assert members[j] == tail[j - 1];
        if i > 0 {
          assert members[i] == tail[i - 1];
        }
      }
    }
  }

  /** Removing a member leaves all other grants, whatever the order of roles. It takes all of the member's, and a second removal
      finds nothing, exactly when no binding lists the member twice. */
  lemma RemovedMeaning(rows: seq<Row>, member: string)
    ensures var after := Removed(rows, member);
            && Relation(rows) - GrantsTo(Relation(rows), member) <= Relation(after) <= Relation(rows)
            && (!Mentions(after, member) <==> ListedOnce(rows, member))
            && (Relation(after) == Relation(rows) - GrantsTo(Relation(rows), member) <==> ListedOnce(rows, member))
            && (Removed(after, member) == after <==> ListedOnce(rows, member))
            && (forall other :: ListedOnce(rows, other) ==> ListedOnce(after, other))
  {
    var after := Removed(rows, member);
    RemovedMembers(rows, member);
    forall g | g in Relation(rows) && g.1 != member ensures g in Relation(after) {
      var i :| 0 <= i < |rows| && g.1 in rows[i].members && rows[i].role == g.0;
      assert g.1 in after[i].members;
    }
    assert Relation(after) <= Relation(rows) by {
      forall g | g in Relation(after) ensures g in Relation(rows) {
        var i :| 0 <= i < |after| && g.1 in after[i].members && after[i].role == g.0;
        assert g.1 in rows[i].members;
      }
    }
    MentionsMeansGrants(after, member);
    if !Mentions(after, member) {
      assert Removed(after, member) == after;
    } else {
      var i :| 0 <= i < |after| && member in after[i].members;
      WithoutFirstShorter(after[i].members, member);
      assert Removed(after, member)[i] != after[i];
    }
  }

  lemma MentionedAfterRemoval(rows: seq<Row>, member: string)
    ensures !Mentions(Removed(rows, member), member) <==> ListedOnce(rows, member)
  {
    RemovedMeaning(rows, member);
  }

  lemma RemovedMembers(rows: seq<Row>, member: string)
    ensures var after := Removed(rows, member);
            && (!Mentions(after, member) <==> ListedOnce(rows, member))
            && (forall i, other :: 0 <= i < |rows| && other in after[i].members ==> other in rows[i].members)
            && (forall i, other :: 0 <= i < |rows| && other in rows[i].members && other != member ==> other in after[i].members)
            && (forall other :: ListedOnce(rows, other) ==> ListedOnce(after, other))
  {
    var after := Removed(rows, member);
    forall i, other | 0 <= i < |rows|
      ensures member !in after[i].members <==> Once(rows[i].members, member)
      ensures other in after[i].members ==> other in rows[i].members
      ensures Once(rows[i].members, other) ==> Once(after[i].members, other)
    {
      OnceLosesMember(rows[i].members, member, other);
      WithoutFirstShorter(rows[i].members, member);
    }
  }

  lemma {:induction false} WithoutFirstShorter(members: seq<string>, member: string)
    ensures member in members ==> |WithoutFirst(members, member)| < |members|
    ensures forall other :: other in WithoutFirst(members, member) ==> other in members
  {
    if members != [] && members[0] != member {
      WithoutFirstShorter(members[1..], member);
    }
  }

  lemma MentionsMeansGrants(rows: seq<Row>, member: string)
    ensures Mentions(rows, member) <==> GrantsTo(Relation(rows), member) != {}
  {
    if Mentions(rows, member) {
      var i :| 0 <= i < |rows| && member in rows[i].members;
      assert (rows[i].role, member) in GrantsTo(Relation(rows), member);
    }
    if GrantsTo(Relation(rows), member) != {} {
      var g :| g in GrantsTo(Relation(rows), member);
    }
  }

  /** A member that is listed twice keeps its grant. */
  lemma ListedTwiceStays()
    ensures var rows := [Row("viewer", ["group:g", "group:g"])];
            Relation(Removed(rows, "group:g")) == Relation(rows) == {("viewer", "group:g")}
  {
    var members := ["group:g", "group:g"];
    var rows := [Row("viewer", members)];
    assert WithoutFirst(members, "group:g") == ["group:g"];
    assert members[0] == ["group:g"][0] == "group:g";
    RelationOfOne(rows[0]);
    RelationOfOne(Row("viewer", ["group:g"]));
    assert Removed(rows, "group:g") == [Row("viewer", ["group:g"])];
  }

  // Adding a member to roles

  /** The bindings with the member added to the first binding of each role, and the roles that had no binding. */
  function Extended(rows: seq<Row>, roles: set<string>, member: string): (result: (seq<Row>, set<string>))
    ensures |result.0| == |rows|
    ensures result.1 <= roles
  {
    if rows == [] then ([], roles)
    else
      var last := rows[|rows| - 1];
      var (before, left) := Extended(rows[..|rows| - 1], roles, member);
      if last.role in left then (before + [Row(last.role, With(last.members, member))], left - {last.role})
      else (before + [last], left)
  }

  function With(members: seq<string>, member: string): seq<string> {
    if member in members then members else members + [member]
  }

  /** One new binding for each role of a list. */
  function NewRows(order: seq<string>, member: string): (rows: seq<Row>)
    ensures |rows| == |order| && forall i :: 0 <= i < |order| ==> rows[i] == Row(order[i], [member])
  {
    seq(|order|, i requires 0 <= i < |order| => Row(order[i], [member]))
  }

  function Named(order: seq<string>): set<string> {
    set role | role in order
  }

  /** The list names each of the roles once. */
  predicate Enumerates(order: seq<string>, roles: set<string>) {
    Distinct(order) && Named(order) == roles
  }

  /** The result of adding, when the roles without a binding are visited in this order. */
  function Added(rows: seq<Row>, roles: set<string>, member: string, order: seq<string>): seq<Row> {
    Extended(rows, roles, member).0 + NewRows(order, member)
  }

  function Both(roles: set<string>, member: string): Grants {
    set role | role in roles :: (role, member)
  }

  lemma RelationOfOne(row: Row)
    ensures Relation([row]) == set member | member in row.members :: (row.role, member)
  {
    assert forall member | member in row.members :: (row.role, member) in Relation([row]) by {
      forall member | member in row.members ensures (row.role, member) in Relation([row]) {
        assert [row][0] == row;
      }
    }
  }

  lemma RelationOfWith(row: Row, member: string)
    ensures Relation([Row(row.role, With(row.members, member))]) == Relation([row]) + {(row.role, member)}
    ensures forall other :: Once(row.members, other) ==> Once(With(row.members, member), other)
  {
    RelationOfOne(row);
    RelationOfOne(Row(row.role, With(row.members, member)));
  }

  lemma {:induction false} ExtendedRelation(rows: seq<Row>, roles: set<string>, member: string)
    ensures var (after, left) := Extended(rows, roles, member);
            Relation(after) == Relation(rows) + Both(roles - left, member)
  {
    if rows != [] {
      var init, last := rows[..|rows| - 1], rows[|rows| - 1];
      var (before, left) := Extended(init, roles, member);
      ExtendedRelation(init, roles, member);
      assert rows == init + [last];
      RelationOfAppend(init, [last]);
      if last.role in left {
        RelationOfAppend(before, [Row(last.role, With(last.members, member))]);
        RelationOfWith(last, member);
        assert Both(roles - (left - {last.role}), member) == Both(roles - left, member) + {(last.role, member)};
      } else {
        RelationOfAppend(before, [last]);
      }
    }
  }

  lemma {:induction false} ExtendedRows(rows: seq<Row>, roles: set<string>, member: string)
    ensures var after := Extended(rows, roles, member).0;
            && (forall i :: 0 <= i < |rows| ==>
                  after[i].role == rows[i].role && (after[i].members == rows[i].members || after[i].members == rows[i].members + [member]))
            && (forall other :: ListedOnce(rows, other) ==> ListedOnce(after, other))
  {
    if rows != [] {
      var init, last := rows[..|rows| - 1], rows[|rows| - 1];
      ExtendedRows(init, roles, member);
      RelationOfWith(last, member);
      var after, before := Extended(rows, roles, member).0, Extended(init, roles, member).0;
      assert after[..|before|] == before;
      forall other | ListedOnce(rows, other) ensures ListedOnce(after, other) {
        assert ListedOnce(init, other) by {
          assert forall i :: 0 <= i < |init| ==> init[i] == rows[i];
        }
        assert Once(last.members, other);
        assert forall i :: 0 <= i < |before| ==> after[i] == before[i];
      }
    }
  }

  lemma NewRowsRelation(order: seq<string>, member: string)
    ensures Relation(NewRows(order, member)) == Both(Named(order), member)
  {
    var rows := NewRows(order, member);
    forall role | role in order ensures (role, member) in Relation(rows) {
      var i :| 0 <= i < |order| && order[i] == role;
      assert member in rows[i].members;
    }
  }

  lemma AddedRelation(rows: seq<Row>, roles: set<string>, member: string, order: seq<string>)
    requires Enumerates(order, Extended(rows, roles, member).1)
    ensures Relation(Added(rows, roles, member, order)) == Relation(rows) + Both(roles, member)
  {
    var (extended, left) := Extended(rows, roles, member);
    ExtendedRelation(rows, roles, member);
    NewRowsRelation(order, member);
    RelationOfAppend(extended, NewRows(order, member));
    assert Both(roles - left, member) + Both(left, member) == Both(roles, member);
  }

  lemma AddedRows(rows: seq<Row>, roles: set<string>, member: string, order: seq<string>)
    ensures var after := Added(rows, roles, member, order);
            && |rows| <= |after|
            && (forall i :: 0 <= i < |rows| ==> after[i].role == rows[i].role && rows[i].members <= after[i].members)
            && (forall other :: ListedOnce(rows, other) ==> ListedOnce(after, other))
  {
    var extended, after := Extended(rows, roles, member).0, Added(rows, roles, member, order);
    ExtendedRows(rows, roles, member);
    forall other | ListedOnce(rows, other) ensures ListedOnce(after, other) {
      assert ListedOnce(extended, other);
      forall i | 0 <= i < |after| ensures Once(after[i].members, other) {
        assert after[i] == if i < |extended| then extended[i] else Row(order[i - |extended|], [member]);
      }
    }
  }

  /** Adding is set union on the relation; the old bindings keep their order and what they had. */
  lemma AddedMeaning(rows: seq<Row>, roles: set<string>, member: string, order: seq<string>)
    requires Enumerates(order, Extended(rows, roles, member).1)
    ensures var after := Added(rows, roles, member, order);
            && Relation(after) == Relation(rows) + Both(roles, member)
            && |rows| <= |after|
            && (forall i :: 0 <= i < |rows| ==> after[i].role == rows[i].role && rows[i].members <= after[i].members)
            && (forall other :: ListedOnce(rows, other) ==> ListedOnce(after, other))
  {
    AddedRelation(rows, roles, member, order);
    AddedRows(rows, roles, member, order);
  }

  /** The member has nothing to be added to, and no role is without a binding. */
  predicate Complete(rows: seq<Row>, roles: set<string>, member: string) {
    Extended(rows, roles, member) == (rows, {})
  }

  /** The binding is the first one of its role. */
  predicate First(rows: seq<Row>, i: int) {
    0 <= i < |rows| && forall j :: 0 <= j < i ==> rows[j].role != rows[i].role
  }

  function RolesOf(rows: seq<Row>): set<string> {
    set i | 0 <= i < |rows| :: rows[i].role
  }

  lemma FirstOfMore(rows: seq<Row>, last: Row)
    ensures var all := rows + [last];
            && RolesOf(all) == RolesOf(rows) + {last.role}
            && (First(all, |rows|) <==> last.role !in RolesOf(rows))
            && forall i :: 0 <= i < |rows| ==> (First(all, i) <==> First(rows, i))
  {
    var all := rows + [last];
    assert all[|rows|] == last && forall j :: 0 <= j < |rows| ==> all[j] == rows[j];
  }

  /** What becomes of the binding at a position. */
  function ExtendedRow(rows: seq<Row>, roles: set<string>, member: string, i: nat): Row
    requires i < |rows|
  {
    if First(rows, i) && rows[i].role in roles then Row(rows[i].role, With(rows[i].members, member)) else rows[i]
  }

  /** The member goes into the first binding of each role; roles without one are left. */
  lemma {:induction false} ExtendedAt(rows: seq<Row>, roles: set<string>, member: string)
    ensures Extended(rows, roles, member).1 == roles - RolesOf(rows)
    ensures forall i :: 0 <= i < |rows| ==> Extended(rows, roles, member).0[i] == ExtendedRow(rows, roles, member, i)
  {
    if rows != [] {
      var init, last := rows[..|rows| - 1], rows[|rows| - 1];
      ExtendedAt(init, roles, member);
      FirstOfMore(init, last);
      assert init + [last] == rows;
      var before, after := Extended(init, roles, member).0, Extended(rows, roles, member).0;
      forall i | 0 <= i < |rows| ensures after[i] == ExtendedRow(rows, roles, member, i) {
        if i < |init| {
          assert after[i] == before[i] == ExtendedRow(init, roles, member, i);
        }
      }
    }
  }

  lemma FirstExists(rows: seq<Row>, role: string)
    requires role in RolesOf(rows)
    ensures exists i: int :: First(rows, i) && rows[i].role == role
  {
    var k :| 0 <= k < |rows| && rows[k].role == role;
    while !First(rows, k)
      invariant 0 <= k < |rows| && rows[k].role == role
      decreases k
    {
      var j :| 0 <= j < k && rows[j].role == rows[k].role;
      k := j;
    }
  }

  lemma FirstIsOne(rows: seq<Row>, i: int, k: int)
    requires First(rows, i) && First(rows, k) && rows[i].role == rows[k].role
    ensures i == k
  {
    var role := rows[i].role;
    assert forall j :: 0 <= j < i ==> rows[j].role != role;
    assert forall j :: 0 <= j < k ==> rows[j].role != role;
  }

  /** The first binding of the role lists the member. */
  ghost predicate FirstLists(rows: seq<Row>, role: string, member: string) {
    exists i: int :: First(rows, i) && rows[i].role == role && member in rows[i].members
  }

  lemma CompleteLists(rows: seq<Row>, roles: set<string>, member: string, role: string)
    requires Complete(rows, roles, member) && role in roles
    ensures FirstLists(rows, role, member)
  {
    ExtendedAt(rows, roles, member);
    assert role !in roles - RolesOf(rows);
    FirstExists(rows, role);
    var i :| First(rows, i) && rows[i].role == role;
    assert rows[i] == ExtendedRow(rows, roles, member, i);
  }

  lemma ListsComplete(rows: seq<Row>, roles: set<string>, member: string)
    requires forall role | role in roles :: FirstLists(rows, role, member)
    ensures Complete(rows, roles, member)
  {
    var (after, left) := Extended(rows, roles, member);
    ExtendedAt(rows, roles, member);
    forall i | 0 <= i < |rows| ensures after[i] == rows[i] {
      if First(rows, i) && rows[i].role in roles {
        var k: int :| First(rows, k) && rows[k].role == rows[i].role && member in rows[k].members;
        FirstIsOne(rows, k, i);
      }
    }
    forall role | role in roles ensures role in RolesOf(rows) {
      var k: int :| First(rows, k) && rows[k].role == role && member in rows[k].members;
    }
    assert after == rows;
    assert left == {};
  }

  /** Nothing is to be added exactly when the first binding of each role lists the member; so the member has the roles. */
  lemma CompleteMeaning(rows: seq<Row>, roles: set<string>, member: string)
    ensures Complete(rows, roles, member) <==> forall role | role in roles :: FirstLists(rows, role, member)
    ensures Complete(rows, roles, member) ==> Both(roles, member) <= Relation(rows)
  {
    if forall role | role in roles :: FirstLists(rows, role, member) {
      ListsComplete(rows, roles, member);
    }
    if Complete(rows, roles, member) {
      forall role | role in roles ensures FirstLists(rows, role, member) && (role, member) in Relation(rows) {
        CompleteLists(rows, roles, member, role);
        var i: int :| First(rows, i) && rows[i].role == role && member in rows[i].members;
      }
    }
  }

  lemma {:induction false} ExtendedAgain(rows: seq<Row>, roles: set<string>, member: string)
    ensures var (after, left) := Extended(rows, roles, member);
            Extended(after, roles, member) == (after, left)
  {
    if rows != [] {
      var init := rows[..|rows| - 1];
      ExtendedAgain(init, roles, member);
      var (after, left) := Extended(rows, roles, member);
      assert after[..|after| - 1] == Extended(init, roles, member).0;
    }
  }

  lemma ExtendedByOne(rows: seq<Row>, roles: set<string>, member: string, role: string)
    requires role in Extended(rows, roles, member).1
    ensures Extended(rows + [Row(role, [member])], roles, member)
            == (Extended(rows, roles, member).0 + [Row(role, [member])], Extended(rows, roles, member).1 - {role})
  {
    var all := rows + [Row(role, [member])];
    assert all[..|all| - 1] == rows;
  }

  lemma LastRow(order: seq<string>, role: string, member: string)
    requires Distinct(order + [role])
    ensures Distinct(order) && role !in Named(order) && Named(order + [role]) == Named(order) + {role}
    ensures NewRows(order + [role], member) == NewRows(order, member) + [Row(role, [member])]
  {
    var all := order + [role];
    assert all[|order|] == role;
    forall i, j | 0 <= i < j < |order| ensures order[i] != order[j] {
      assert all[i] != all[j];
    }
    forall i | 0 <= i < |order| ensures order[i] != role {
      assert all[i] != all[|order|];
    }
  }

  lemma OneMoreComplete(rows: seq<Row>, roles: set<string>, left: set<string>, member: string, role: string)
    requires Extended(rows, roles, member) == (rows, left) && role in left
    ensures Extended(rows + [Row(role, [member])], roles, member) == (rows + [Row(role, [member])], left - {role})
  {
    ExtendedByOne(rows, roles, member, role);
  }

  lemma Regroup(rows: seq<Row>, more: seq<Row>, last: Row)
    ensures rows + (more + [last]) == rows + more + [last]
  {
  }

  lemma NamedLess(left: set<string>, order: seq<string>, role: string)
    ensures left - Named(order + [role]) == left - Named(order) - {role}
    ensures Named(order + [role]) <= left ==> Named(order) <= left && role in left
  {
    assert Named(order + [role]) == Named(order) + {role};
  }

  lemma OneMoreRow(rows: seq<Row>, roles: set<string>, left: set<string>, member: string, order: seq<string>, role: string)
    requires var before := rows + NewRows(order, member); Extended(before, roles, member) == (before, left - Named(order))
    requires Distinct(order + [role]) && Named(order + [role]) <= left
    ensures var after := rows + NewRows(order + [role], member);
            Extended(after, roles, member) == (after, left - Named(order + [role]))
  {
    LastRow(order, role, member);
    NamedLess(left, order, role);
    Regroup(rows, NewRows(order, member), Row(role, [member]));
    OneMoreComplete(rows + NewRows(order, member), roles, left - Named(order), member, role);
  }

  lemma NoNewRows(rows: seq<Row>, left: set<string>, member: string)
    ensures rows + NewRows([], member) == rows && left - Named([]) == left
  {
  }

  lemma {:induction false} NewRowsComplete(rows: seq<Row>, roles: set<string>, left: set<string>, member: string, order: seq<string>)
    requires Extended(rows, roles, member) == (rows, left)
    requires Distinct(order) && Named(order) <= left
    ensures Extended(rows + NewRows(order, member), roles, member) == (rows + NewRows(order, member), left - Named(order))
  {
    if order == [] {
      NoNewRows(rows, left, member);
    } else {
      var init, last := order[..|order| - 1], order[|order| - 1];
      assert order == init + [last];
      LastRow(init, last, member);
      NamedLess(left, init, last);
      NewRowsComplete(rows, roles, left, member, init);
      OneMoreRow(rows, roles, left, member, init, last);
    }
  }

  /** A second call has nothing to do. */
  lemma AddedTwice(rows: seq<Row>, roles: set<string>, member: string, order: seq<string>)
    requires Enumerates(order, Extended(rows, roles, member).1)
    ensures Complete(Added(rows, roles, member, order), roles, member)
  {
    var (extended, left) := Extended(rows, roles, member);
    ExtendedAgain(rows, roles, member);
    NewRowsComplete(extended, roles, left, member, order);
    assert left - Named(order) == {};
  }

  /** Adding changes nothing exactly when it is complete already. */
  lemma CompleteStays(rows: seq<Row>, roles: set<string>, member: string, order: seq<string>)
    requires Enumerates(order, Extended(rows, roles, member).1)
    ensures Complete(rows, roles, member) <==> Added(rows, roles, member, order) == rows
  {
    var (extended, left) := Extended(rows, roles, member);
    if order == [] {
      assert Named(order) == {};
      assert extended + NewRows(order, member) == extended;
    } else {
      assert order[0] in Named(order);
    }
  }
}
