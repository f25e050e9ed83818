/** Membership and filtering of string lists, as the operator's finalizer code uses them. */
module Lists {

  function Filtered(list: seq<string>, drop: string): (kept: seq<string>)
    ensures drop !in kept
    ensures forall item :: item in kept <==> item in list && item != drop
  {
    if list == [] then []
    else
      var rest := Filtered(list[1..], drop);
      if list[0] == drop then rest else [list[0]] + rest
  }

  lemma {:induction false} FilteredAppend(list: seq<string>, item: string, drop: string)
    ensures Filtered(list + [item], drop) == Filtered(list, drop) + if item == drop then [] else [item]
  {
    if list == [] {
    } else {
      FilteredAppend(list[1..], item, drop);
      assert (list + [item])[1..] == list[1..] + [item];
    }
  }

  /** Adding a finalizer that was not there and filtering it out again gives the list back. */
  lemma {:induction false} FilteredUndoesAppend(list: seq<string>, item: string)
    requires item !in list
    ensures Filtered(list + [item], item) == list
  {
    FilteredAppend(list, item, item);
    FilteredAbsent(list, item);
  }

  lemma {:induction false} FilteredAbsent(list: seq<string>, item: string)
    requires item !in list
    ensures Filtered(list, item) == list
  {
    if list != [] {
      FilteredAbsent(list[1..], item);
    }
  }

  method Contains(list: seq<string>, sought: string) returns (found: bool)
    ensures found <==> sought in list
  {
    for i := 0 to |list|
      invariant sought !in list[..i]
    {
      if list[i] == sought {
        return true;
      }
    }
    return false;
  }

  method Filter(list: seq<string>, drop: string) returns (kept: seq<string>)
    ensures kept == Filtered(list, drop)
  {
    kept := [];
    for i := 0 to |list|
      invariant kept == Filtered(list[..i], drop)
    {
      FilteredAppend(list[..i], list[i], drop);
      assert list[..i + 1] == list[..i] + [list[i]];
      if list[i] != drop {
        kept := kept + [list[i]];
      }
    }
    assert list[..|list|] == list;
  }

  method InArray(needle: string, haystack: seq<string>) returns (exists_: bool, index: int)
    ensures exists_ <==> needle in haystack
    ensures exists_ ==> 0 <= index < |haystack| && haystack[index] == needle && needle !in haystack[..index]
    ensures !exists_ ==> index == -1
  {
    for i := 0 to |haystack|
      invariant needle !in haystack[..i]
    {
      if haystack[i] == needle {
        return true, i;
      }
    }
    return false, -1;
  }
}
