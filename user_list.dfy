/** The `List<User>` a study group holds by reference, with the two mutations the
    entity uses: `Add` (append) and `Remove` (drop the first equal element). */
module UserLists {
  import opened Common

  /** `s` without its first element equal to `u`; `s` itself when no element is. */
  function RemoveFirst(s: seq<User>, u: User): (r: seq<User>)
  {
    if s == [] then []
    else if s[0] == u then s[1..]
    else [s[0]] + RemoveFirst(s[1..], u)
  }

  /** Removing an element that is absent changes nothing. */
  lemma {:induction false} RemoveFirstAbsent(s: seq<User>, u: User)
    requires u !in s
    ensures RemoveFirst(s, u) == s
  {
    if s != [] {
      assert s == [s[0]] + s[1..];
      RemoveFirstAbsent(s[1..], u);
    }
  }

  /** When the first occurrence of `u` is at `i`, exactly that element goes and the rest keep their order. */
  lemma {:induction false} RemoveFirstAt(s: seq<User>, u: User, i: nat)
    requires i < |s| && s[i] == u && u !in s[..i]
    ensures RemoveFirst(s, u) == s[..i] + s[i + 1..]
  {
    if i > 0 {
      assert s[0] == s[..i][0];
      assert s[1..][..i - 1] == s[1..i];
      assert u !in s[1..][..i - 1];
      RemoveFirstAt(s[1..], u, i - 1);
      assert s[..i] == [s[0]] + s[1..][..i - 1];
      assert s[i + 1..] == s[1..][i..];
    }
  }

  /** The list shrinks by one exactly when `u` was present. */
  lemma {:induction false} RemoveFirstLength(s: seq<User>, u: User)
    ensures |RemoveFirst(s, u)| == if u in s then |s| - 1 else |s|
  {
    if s != [] && s[0] != u {
      assert s == [s[0]] + s[1..];
      RemoveFirstLength(s[1..], u);
    }
  }

  /** Exactly one occurrence of `u` goes, and every other element stays as often as it was. */
  lemma {:induction false} RemoveFirstMultiset(s: seq<User>, u: User)
    ensures multiset(RemoveFirst(s, u)) == multiset(s) - multiset{u}
  {
    if s != [] {
      assert s == [s[0]] + s[1..];
      if s[0] != u {
        RemoveFirstMultiset(s[1..], u);
      }
    }
  }

  /** Appending a user that was not a member and then removing it restores the list. */
  lemma {:induction false} AddThenRemove(s: seq<User>, u: User)
    requires u !in s
    ensures RemoveFirst(s + [u], u) == s
  {
    var t := s + [u];
    assert t[..|s|] == s;
    RemoveFirstAt(t, u, |s|);
    assert t[|s| + 1..] == [];
  }

  /** A .NET `List<User>`: an object whose element sequence changes in place. */
  class UserList {
    var Items: seq<User>

    /** A list holding `items`, as a collection initializer builds it. */
    constructor (items: seq<User>)
      ensures Items == items
    {
      Items := items;
    }

    /** `List.Add`: appends `u` at the end. */
    method Add(u: User)
      modifies this
      ensures Items == old(Items) + [u]
    {
      Items := Items + [u];
    }

    /** `List.IndexOf`: the position of the first element equal to `u`, or -1 when there is none. */
    method IndexOf(u: User) returns (index: int)
      ensures -1 <= index < |Items|
      ensures index == -1 <==> u !in Items
      ensures 0 <= index ==> Items[index] == u && u !in Items[..index]
    {
      index := 0;
      while index < |Items|
        invariant 0 <= index <= |Items|
        invariant u !in Items[..index]
      {
        if Items[index] == u {
          return;
        }
        assert Items[..index + 1] == Items[..index] + [Items[index]];
        index := index + 1;
      }
      assert Items[..index] == Items;
      index := -1;
    }

    /** `List.Remove`: drops the first element equal to `u` and reports whether there was one. */
    method Remove(u: User) returns (removed: bool)
      modifies this
      ensures removed <==> u in old(Items)
      ensures Items == RemoveFirst(old(Items), u)
    {
      var index := IndexOf(u);
      removed := index >= 0;
      if removed {
        RemoveFirstAt(Items, u, index);
        Items := Items[..index] + Items[index + 1..];
      } else {
        RemoveFirstAbsent(Items, u);
      }
    }
  }
}
