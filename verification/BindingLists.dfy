/** Adding and removing a member in the binding objects of an IAM policy, where slices share arrays and shrink in place. */
module BindingLists {
  import opened Bindings
  import Lists

  datatype MemberType = OfServiceAccount | OfGoogleGroup

  function MemberName(email: string, kind: MemberType): string {
    (if kind == OfGoogleGroup then "group:" else "serviceAccount:") + email
  }

  /** A member's name says what kind of member it is, so no group is taken for a service account. */
  lemma MemberNamesDiffer(email: string, kind: MemberType, other: string, otherKind: MemberType)
    ensures MemberName(email, OfGoogleGroup) == "group:" + email && MemberName(email, OfServiceAccount) == "serviceAccount:" + email
    ensures MemberName(email, kind) == MemberName(other, otherKind) <==> email == other && kind == otherKind
  {
    var a, b := MemberName(email, kind), MemberName(other, otherKind);
    if a == b {
      assert a[0] == b[0] && kind == otherKind;
      var prefix := if kind == OfGoogleGroup then |"group:"| else |"serviceAccount:"|;
      assert email == a[prefix..] && other == b[prefix..];
    }
  }

  /** A binding; `members` is the array behind its slice, of which the first `len` elements count. */
  class Binding {
    const role: string
    var members: array<string>
    var len: nat

    constructor (role: string, members: array<string>, len: nat)
      requires len <= members.Length
      ensures this.role == role && this.members == members && this.len == len
    {
      this.role := role;
      this.members := members;
      this.len := len;
    }

    predicate Valid()
      reads this
    {
      len <= members.Length
    }

    function Members(): seq<string>
      requires Valid()
      reads this, members
    {
      members[..len]
    }

    /** Takes the first occurrence out, in the same array. */
    method RemoveFirst(member: string) returns (found: bool)
      requires Valid()
      modifies this`len, members
      ensures Valid() && members == old(members)
      ensures Members() == WithoutFirst(old(Members()), member)
      ensures found <==> member in old(Members())
    {
      for index := 0 to len
        invariant member !in members[..index]
        invariant members[..] == old(members[..]) && len == old(len)
      {
        if members[index] == member {
          WithoutFirstAt(Members(), member, index);
          CloseGap(index);
          len := len - 1;
          return true;
        }
      }
      return false;
    }

    /** Moves what follows one place down. */
    method CloseGap(index: nat)
      requires Valid() && index < len
      modifies members
      ensures members[..len - 1] == old(Members())[..index] + old(Members())[index + 1..]
    {
      for k := index + 1 to len
        invariant forall j :: 0 <= j < index ==> members[j] == old(members[j])
        invariant forall j :: index < j < k ==> members[j - 1] == old(members[j])
        invariant forall j :: k <= j < len ==> members[j] == old(members[j])
      {
        members[k - 1] := members[k];
      }
      forall j | index <= j < len - 1 ensures members[j] == old(members[j + 1]) {
        assert members[(j + 1) - 1] == old(members[j + 1]);
      }
    }

    /** Appends within the capacity of the array, or in a new one. */
    method Append(member: string)
      requires Valid()
      modifies this, members
      ensures Valid() && Members() == old(Members()) + [member]
      ensures members == old(members) || fresh(members)
      ensures old(members)[..old(len)] == old(members[..len])
    {
      if len == members.Length {
        var grown := new string[2 * len + 1];
        for i := 0 to len
          invariant len == old(len) && members == old(members) && members[..] == old(members[..])
          invariant grown[..i] == members[..i]
        {
          grown[i] := members[i];
        }
        members := grown;
      }
      members[len] := member;
      len := len + 1;
    }
  }

  function RowOf(b: Binding): Row
    requires b.Valid()
    reads b, b.members
  {
    Row(b.role, b.Members())
  }

  ghost function Arrays(list: seq<Binding>): set<array<string>>
    reads list
  {
    set b | b in list :: b.members
  }

  ghost predicate Valid(list: seq<Binding>)
    reads list
  {
    forall b | b in list :: b.Valid()
  }

  /** The bindings share nothing with each other. */
  ghost predicate Unaliased(list: seq<Binding>)
    reads list
  {
    && Valid(list)
    && forall i, j :: 0 <= i < j < |list| ==> list[i] != list[j] && list[i].members != list[j].members
  }

  /** The bindings have these values. */
  ghost predicate HasRows(list: seq<Binding>, rows: seq<Row>)
    reads list, Arrays(list)
  {
    && Valid(list) && |rows| == |list|
    && forall k :: 0 <= k < |list| ==> list[k].role == rows[k].role && list[k].Members() == rows[k].members
  }

  /** Takes the member out of one binding of a list and leaves the others alone. */
  method RemoveAt(list: seq<Binding>, ghost rows: seq<Row>, i: nat, member: string) returns (found: bool)
    requires Unaliased(list) && HasRows(list, rows) && i < |list|
    modifies list[i], list[i].members
    ensures Unaliased(list) && Arrays(list) == old(Arrays(list))
    ensures HasRows(list, rows[i := Row(rows[i].role, WithoutFirst(rows[i].members, member))])
    ensures found <==> member in rows[i].members
  {
    assert forall k :: 0 <= k < |list| && k != i ==> list[k] != list[i] && list[k].members != list[i].members;
    found := list[i].RemoveFirst(member);
  }

  /** Each list of members loses the first occurrence of the member, in place. */
  method RemoveOrUpdateBinding(existing: seq<Binding>, ghost before: seq<Row>, email: string, kind: MemberType)
    returns (result: seq<Binding>, modified: bool)
    requires Unaliased(existing) && HasRows(existing, before)
    modifies existing, Arrays(existing)
    ensures result == existing && Unaliased(result)
    ensures HasRows(result, Removed(before, MemberName(email, kind)))
    ensures modified <==> Mentions(before, MemberName(email, kind))
  {
    modified := false;
    var memberToRemove := MemberName(email, kind);
    ghost var rows := before;
    for i := 0 to |existing|
      invariant Unaliased(existing) && Arrays(existing) == old(Arrays(existing)) && HasRows(existing, rows)
      invariant forall k :: 0 <= k < i ==> rows[k] == Removed(before, memberToRemove)[k]
      invariant forall k :: i <= k < |existing| ==> rows[k] == before[k]
      invariant modified <==> exists k :: 0 <= k < i && memberToRemove in before[k].members
    {
      assert existing[i] in existing;
      var found := RemoveAt(existing, rows, i, memberToRemove);
      rows := rows[i := Row(rows[i].role, WithoutFirst(rows[i].members, memberToRemove))];
      if found {
        modified := true;
      }
    }
    assert rows == Removed(before, memberToRemove);
    return existing, modified;
  }

  method RoleBindingMap(roles: seq<string>, email: string, kind: MemberType) returns (required: map<string, seq<string>>)
    ensures required == map role | role in roles :: [MemberName(email, kind)]
  {
    required := map[];
    for i := 0 to |roles|
      invariant required == map role | role in roles[..i] :: [MemberName(email, kind)]
    {
      required := required[roles[i] := [MemberName(email, kind)]];
      assert roles[..i + 1] == roles[..i] + [roles[i]];
    }
    assert roles[..|roles|] == roles;
  }

  /** The state of a list of copies made of the first bindings of another list: a copy has its own slice,
      in the original's array or in a new one. */
  ghost predicate Copies(result: seq<Binding>, existing: seq<Binding>)
    reads result, existing
  {
    && |result| <= |existing| && Unaliased(result)
    && (forall k, b :: 0 <= k < |result| && b in existing ==> result[k] != b)
    && (forall k, j :: 0 <= k < |result| && 0 <= j < |existing| && j != k ==> result[k].members != existing[j].members)
  }

  /** Adds the member to one copy; the original does not notice, even where the array is shared. */
  method AddTo(result: seq<Binding>, existing: seq<Binding>, i: nat, member: string) returns (modified: bool)
    requires Copies(result, existing) && Unaliased(existing) && i == |result| - 1
    requires result[i].members == existing[i].members && RowOf(result[i]) == RowOf(existing[i])
    modifies result[i], result[i].members
    ensures Copies(result, existing) && Unaliased(existing)
    ensures forall k :: 0 <= k < |result| - 1 ==> RowOf(result[k]) == old(RowOf(result[k]))
    ensures forall k :: 0 <= k < |result| - 1 ==> result[k].members == old(result[k].members)
    ensures forall k :: 0 <= k < |existing| ==> RowOf(existing[k]) == old(RowOf(existing[k]))
    ensures result[i].members == old(result[i].members) || fresh(result[i].members)
    ensures RowOf(result[i]) == Row(result[i].role, With(old(result[i].Members()), member))
    ensures modified <==> member !in old(result[i].Members())
  {
    assert existing[i] in existing;
    assert forall k :: 0 <= k < |result| - 1 ==> result[k] != result[i] && result[k].members != result[i].members;
    assert forall k :: 0 <= k < |existing| && k != i ==> existing[k].members != result[i].members;
    assert forall k :: 0 <= k < |existing| ==> existing[k] in existing;
    var exists_, _ := Lists.InArray(member, existing[i].Members());
    modified := !exists_;
    if !exists_ {
      result[i].Append(member);
    }
  }

  /** The roles still required before each binding, and what becomes of the binding then. */
  predicate ExtendsStepwise(before: seq<Row>, member: string, lefts: seq<set<string>>, rows: seq<Row>) {
    && |rows| <= |before| && |lefts| == |rows| + 1
    && forall k :: 0 <= k < |rows| ==>
         && rows[k] == Row(before[k].role, if before[k].role in lefts[k] then With(before[k].members, member) else before[k].members)
         && lefts[k + 1] == lefts[k] - {before[k].role}
  }

  lemma {:induction false} StepwiseIsExtended(before: seq<Row>, member: string, lefts: seq<set<string>>, rows: seq<Row>)
    requires ExtendsStepwise(before, member, lefts, rows)
    ensures Extended(before[..|rows|], lefts[0], member) == (rows, lefts[|rows|])
  {
    if rows != [] {
      var i := |rows| - 1;
      StepwiseIsExtended(before, member, lefts[..|rows|], rows[..i]);
      assert before[..|rows|][..i] == before[..i];
      assert rows == rows[..i] + [rows[i]];
      if before[i].role !in lefts[i] {
        assert lefts[i] - {before[i].role} == lefts[i];
      }
    }
  }

  /** Copies the next binding, with the member added if its role is still required; a required binding has one member. */
  method ExtendNext(result: seq<Binding>, existing: seq<Binding>, ghost rows: seq<Row>, ghost before: seq<Row>,
                    left: map<string, seq<string>>, member: string)
    returns (copy: Binding, modified: bool)
    requires Copies(result, existing) && Unaliased(existing) && |result| < |existing|
    requires HasRows(existing, before) && HasRows(result, rows)
    requires forall role :: role in left ==> left[role] == [member]
    modifies existing[|result|].members
    ensures fresh(copy) && Copies(result + [copy], existing) && Unaliased(existing)
    ensures HasRows(existing, before) && HasRows(result + [copy], rows + [RowOf(copy)])
    ensures var row := before[|result|];
            RowOf(copy) == Row(row.role, if row.role in left then With(row.members, member) else row.members)
    ensures modified <==> RowOf(copy) != before[|result|]
  {
    var eBinding := existing[|result|];
    modified := false;
    assert forall k :: 0 <= k < |result| ==> result[k] in result;
    assert forall k :: 0 <= k < |existing| ==> existing[k] in existing;
    copy := new Binding(eBinding.role, eBinding.members, eBinding.len);
    var longer := result + [copy];
    assert forall k :: 0 <= k < |result| ==> longer[k] == result[k];
    if eBinding.role in left {
      modified := AddTo(longer, existing, |result|, left[eBinding.role][0]);
    }
  }

  lemma PrefixGrows(rows: seq<Row>, before: seq<Row>, next: Row)
    requires |rows| < |before|
    ensures rows + [next] <= before <==> rows <= before && next == before[|rows|]
  {
  }

  /** Copies the list, adding the member to the first binding of each required role; what is left has no binding yet. */
  method ExtendExisting(existing: seq<Binding>, ghost before: seq<Row>, required: map<string, seq<string>>, member: string)
    returns (result: seq<Binding>, left: map<string, seq<string>>, modified: bool, ghost rows: seq<Row>, ghost lefts: seq<set<string>>)
    requires Unaliased(existing) && HasRows(existing, before)
    requires forall role :: role in required ==> required[role] == [member]
    modifies Arrays(existing)
    ensures Unaliased(existing) && HasRows(existing, before)
    ensures |result| == |existing| && Copies(result, existing) && HasRows(result, rows)
    ensures forall b :: b in result ==> fresh(b)
    ensures ExtendsStepwise(before, member, lefts, rows) && lefts[0] == required.Keys && lefts[|rows|] == left.Keys
    ensures forall role :: role in left ==> left[role] == [member]
    ensures modified <==> rows != before
  {
    result, left, modified, rows, lefts := [], required, false, [], [required.Keys];
    for i := 0 to |existing|
      invariant |result| == i && Copies(result, existing) && Unaliased(existing)
      invariant forall b :: b in result ==> fresh(b)
      invariant HasRows(existing, before) && HasRows(result, rows)
      invariant ExtendsStepwise(before, member, lefts, rows) && lefts[0] == required.Keys && lefts[i] == left.Keys
      invariant forall role :: role in left ==> left[role] == [member]
      invariant modified <==> !(rows <= before)
    {
      var copy, added := ExtendNext(result, existing, rows, before, left, member);
      assert added <==> RowOf(copy) != before[i];
      assert (left - {copy.role}).Keys == left.Keys - {copy.role};
      PrefixGrows(rows, before, RowOf(copy));
      result, left, modified := result + [copy], left - {copy.role}, modified || added;
      rows, lefts := rows + [RowOf(copy)], lefts + [left.Keys];
    }
  }

  /** Some of the keys have been visited, each once, and the rest not. */
  predicate Visited(order: seq<string>, rest: set<string>, keys: set<string>) {
    Distinct(order) && Named(order) !! rest && Named(order) + rest == keys
  }

  lemma NextRole(order: seq<string>, rest: set<string>, keys: set<string>, role: string, rows: seq<Row>, member: string)
    requires Visited(order, rest, keys) && role in rest
    ensures Visited(order + [role], rest - {role}, keys) && |rest - {role}| < |rest|
    ensures rows + NewRows(order + [role], member) == rows + NewRows(order, member) + [Row(role, [member])]
  {
    assert forall i :: 0 <= i < |order| ==> order[i] in Named(order);
    LastRow(order, role, member);
    Regroup(rows, NewRows(order, member), Row(role, [member]));
  }

  method NewBinding(list: seq<Binding>, ghost rows: seq<Row>, role: string, members: seq<string>) returns (binding: Binding)
    requires Unaliased(list) && HasRows(list, rows)
    ensures fresh(binding) && fresh(binding.members)
    ensures Unaliased(list + [binding]) && HasRows(list + [binding], rows + [Row(role, members)])
  {
    var copied := new string[|members|](i requires 0 <= i < |members| => members[i]);
    binding := new Binding(role, copied, |members|);
    assert copied[..] == members;
  }

  /** One new binding for each role that is left, in whatever order the map is visited. */
  method AppendNew(result: seq<Binding>, ghost rows: seq<Row>, left: map<string, seq<string>>, member: string)
    returns (longer: seq<Binding>, ghost all: seq<Row>, ghost order: seq<string>)
    requires Unaliased(result) && HasRows(result, rows)
    requires forall role :: role in left ==> left[role] == [member]
    ensures Unaliased(longer) && HasRows(longer, all) && all == rows + NewRows(order, member)
    ensures forall b :: b in longer ==> b in result || fresh(b)
    ensures Enumerates(order, left.Keys)
  {
    longer, order := result, [];
    var rest := left.Keys;
    assert rows + NewRows(order, member) == rows;
    while rest != {}
      invariant Unaliased(longer) && HasRows(longer, rows + NewRows(order, member))
      invariant forall b :: b in longer ==> b in result || fresh(b)
      invariant Visited(order, rest, left.Keys)
      decreases |rest|
    {
      var role :| role in rest;
      longer := AppendOne(longer, rows + NewRows(order, member), role, left[role]);
      NextRole(order, rest, left.Keys, role, rows, member);
      order, rest := order + [role], rest - {role};
    }
    all := rows + NewRows(order, member);
  }

  method AppendOne(list: seq<Binding>, ghost rows: seq<Row>, role: string, members: seq<string>) returns (longer: seq<Binding>)
    requires Unaliased(list) && HasRows(list, rows)
    ensures Unaliased(longer) && HasRows(longer, rows + [Row(role, members)])
    ensures forall b :: b in longer ==> b in list || fresh(b)
  {
    var binding := NewBinding(list, rows, role, members);
    longer := list + [binding];
  }

  lemma StepwiseIsAdded(before: seq<Row>, member: string, lefts: seq<set<string>>, rows: seq<Row>, order: seq<string>)
    requires ExtendsStepwise(before, member, lefts, rows) && |rows| == |before| && Enumerates(order, lefts[|rows|])
    ensures Enumerates(order, Extended(before, lefts[0], member).1)
    ensures rows + NewRows(order, member) == Added(before, lefts[0], member, order)
    ensures rows + NewRows(order, member) != before <==> rows != before || lefts[|rows|] != {}
  {
    StepwiseIsExtended(before, member, lefts, rows);
    assert before[..|rows|] == before;
    if order == [] {
      assert Named(order) == {};
    } else {
      assert order[0] in Named(order);
    }
    assert (rows + NewRows(order, member))[..|rows|] == rows;
  }

  /** The list afterwards is the one before with the member added, in objects of its own; the list given keeps its values. */
  method AddOrUpdateBinding(existing: seq<Binding>, ghost before: seq<Row>,
                            requiredBindings: seq<string>, email: string, kind: MemberType)
    returns (result: seq<Binding>, modified: bool, ghost order: seq<string>)
    requires Unaliased(existing) && HasRows(existing, before)
    modifies Arrays(existing)
    ensures Unaliased(existing) && HasRows(existing, before)
    ensures Unaliased(result) && forall b :: b in result ==> fresh(b)
    ensures Enumerates(order, Extended(before, Named(requiredBindings), MemberName(email, kind)).1)
    ensures HasRows(result, Added(before, Named(requiredBindings), MemberName(email, kind), order))
    ensures modified <==> Added(before, Named(requiredBindings), MemberName(email, kind), order) != before
  {
    ghost var rows, lefts, all;
    var left;
    var required := RoleBindingMap(requiredBindings, email, kind);
    assert required.Keys == Named(requiredBindings);
    result, left, modified, rows, lefts := ExtendExisting(existing, before, required, MemberName(email, kind));
    if left.Keys != {} {
      modified := true;
    }
    result, all, order := AppendNew(result, rows, left, MemberName(email, kind));
    StepwiseIsAdded(before, MemberName(email, kind), lefts, rows, order);
  }
}
