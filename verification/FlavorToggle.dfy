/**
  The flavor-list toggle shared by the flavor wheel's click handler and the
  tasting-record form's tag badges: a flavor already in the list is removed
  (every occurrence of it), any other flavor is appended at the end.
 */
module FlavorToggle {

  /** `list.filter(f => f !== flavor)`: every element except `flavor`, in order. */
  function RemoveAll(list: seq<string>, flavor: string): (r: seq<string>)
    ensures flavor !in r
    ensures forall y :: y != flavor ==> multiset(r)[y] == multiset(list)[y]
    ensures |r| <= |list|
  {
    if list == [] then []
    else
      assert list == [list[0]] + list[1..];
      if list[0] == flavor then RemoveAll(list[1..], flavor)
      else [list[0]] + RemoveAll(list[1..], flavor)
  }

  /** The new list computed by the toggle expression. */
  function Toggle(list: seq<string>, flavor: string): (r: seq<string>)
    ensures flavor in r <==> flavor !in list
    ensures forall y :: y != flavor ==> multiset(r)[y] == multiset(list)[y]
    ensures flavor !in list ==> multiset(r)[flavor] == 1 && r[|r| - 1] == flavor
    ensures flavor !in list ==> r[..|r| - 1] == list
    ensures flavor in list ==> r == RemoveAll(list, flavor)
  {
    if flavor in list then RemoveAll(list, flavor) else list + [flavor]
  }

  /** No flavor occurs twice in the list. */
  predicate NoDuplicates(list: seq<string>)
  {
    forall i, j :: 0 <= i < j < |list| ==> list[i] != list[j]
  }

  /** Filtering distributes over concatenation: the relative order of the kept elements is the original one. */
  lemma {:induction false} RemoveAllAppend(a: seq<string>, b: seq<string>, flavor: string)
    ensures RemoveAll(a + b, flavor) == RemoveAll(a, flavor) + RemoveAll(b, flavor)
  {
    if a == [] {
      assert a + b == b;
    } else {
      assert (a + b)[1..] == a[1..] + b;
      RemoveAllAppend(a[1..], b, flavor);
    }
  }

  /** Filtering out a flavor that does not occur leaves the list as it was. */
  lemma {:induction false} RemoveAllAbsent(list: seq<string>, flavor: string)
    requires flavor !in list
    ensures RemoveAll(list, flavor) == list
  {
    if list != [] {
      RemoveAllAbsent(list[1..], flavor);
    }
  }

  /** Filtering keeps a duplicate-free list duplicate-free. */
  lemma {:induction false} RemoveAllNoDuplicates(list: seq<string>, flavor: string)
    requires NoDuplicates(list)
    ensures NoDuplicates(RemoveAll(list, flavor))
  {
    if list != [] {
      assert NoDuplicates(list[1..]) by {
        forall i, j | 0 <= i < j < |list[1..]| ensures list[1..][i] != list[1..][j] {
          assert list[1..][i] == list[i + 1] && list[1..][j] == list[j + 1];
        }
      }
      RemoveAllNoDuplicates(list[1..], flavor);
      var rest := RemoveAll(list[1..], flavor);
      if list[0] != flavor {
        assert list[0] !in list[1..];
        assert multiset(rest)[list[0]] == 0;
        assert list[0] !in rest;
        var r := [list[0]] + rest;
        forall i, j | 0 <= i < j < |r| ensures r[i] != r[j] {
          if i == 0 {
            assert r[j] == rest[j - 1];
          } else {
            assert r[i] == rest[i - 1] && r[j] == rest[j - 1];
          }
        }
      }
    }
  }

  /** Toggling keeps a duplicate-free selection duplicate-free. */
  lemma ToggleNoDuplicates(list: seq<string>, flavor: string)
    requires NoDuplicates(list)
    ensures NoDuplicates(Toggle(list, flavor))
  {
    if flavor in list {
      RemoveAllNoDuplicates(list, flavor);
    } else {
      var r := list + [flavor];
      forall i, j | 0 <= i < j < |r| ensures r[i] != r[j] {
        if j == |list| {
          assert r[i] == list[i];
        }
      }
    }
  }

  /** Toggling an absent flavor twice gives back the original list, order included. */
  lemma ToggleTwiceAbsent(list: seq<string>, flavor: string)
    requires flavor !in list
    ensures Toggle(Toggle(list, flavor), flavor) == list
  {
    assert flavor in list + [flavor];
    RemoveAllAppend(list, [flavor], flavor);
    RemoveAllAbsent(list, flavor);
    assert RemoveAll([flavor], flavor) == [];
  }

  /**
    Toggling a present flavor twice gives the same set of labels back: every
    occurrence of the flavor is removed, then one copy is appended at the end.
   */
  lemma ToggleTwicePresent(list: seq<string>, flavor: string)
    requires flavor in list
    ensures Toggle(Toggle(list, flavor), flavor) == RemoveAll(list, flavor) + [flavor]
    ensures forall y :: y in Toggle(Toggle(list, flavor), flavor) <==> y in list
  {
    var once := Toggle(list, flavor);
    assert flavor !in once;
    var twice := Toggle(once, flavor);
    forall y ensures y in twice <==> y in list {
      if y != flavor {
        assert multiset(twice)[y] == multiset(once)[y] == multiset(list)[y];
      }
    }
  }
}
