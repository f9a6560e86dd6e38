/**
  The collection view's list: the teas whose name or origin contains the
  search term (ignoring case), narrowed to one tea type unless the filter is
  "all", and ordered by the chosen sort key.

  Two host facilities are stood in for: `toLowerCase` maps only the ASCII
  letters A-Z, and `localeCompare` is code-point lexicographic order.  Dates
  are turned into times by `timeOf`, a parameter standing for
  `new Date(..).getTime()`.
 */
module TeaCollection {
  import opened TeaTypes

  // ----------------------------------------------------------- searching

  function LowerChar(c: char): char
  {
    if 'A' <= c <= 'Z' then (c as int + 32) as char else c
  }

  /** `s.toLowerCase()`, restricted to ASCII letters. */
  function Lower(s: string): (r: string)
    ensures |r| == |s|
    ensures forall i :: 0 <= i < |s| ==> r[i] == LowerChar(s[i])
  {
    if s == [] then [] else [LowerChar(s[0])] + Lower(s[1..])
  }

  /** Lower-casing twice is lower-casing once. */
  lemma LowerIdempotent(s: string)
    ensures Lower(Lower(s)) == Lower(s)
  {
    assert forall i :: 0 <= i < |s| ==> LowerChar(LowerChar(s[i])) == LowerChar(s[i]);
  }

  /** `s.includes(t)`: `t` is a prefix of `s` or of one of its suffixes. */
  predicate Contains(s: string, t: string)
    decreases |s|
  {
    |t| <= |s| && (s[..|t|] == t || (s != [] && Contains(s[1..], t)))
  }

  /** `t` occurs in `s` starting at position `i`. */
  predicate OccursAt(s: string, t: string, i: int)
  {
    0 <= i && i + |t| <= |s| && s[i..i + |t|] == t
  }

  /** `Contains` holds exactly when `t` occurs in `s` at some position. */
  lemma {:induction false} ContainsAt(s: string, t: string)
    ensures Contains(s, t) <==> exists i :: OccursAt(s, t, i)
    decreases |s|
  {
    if |t| <= |s| && s[..|t|] == t {
      assert OccursAt(s, t, 0);
    } else if |t| <= |s| && s != [] {
      ContainsAt(s[1..], t);
      if exists i :: OccursAt(s, t, i) {
        var i :| OccursAt(s, t, i);
        assert i != 0;
        assert s[1..][i - 1..i - 1 + |t|] == s[i..i + |t|];
        assert OccursAt(s[1..], t, i - 1);
      }
      if exists i :: OccursAt(s[1..], t, i) {
        var i :| OccursAt(s[1..], t, i);
        assert s[i + 1..i + 1 + |t|] == s[1..][i..i + |t|];
        assert OccursAt(s, t, i + 1);
      }
    }
  }

  /** The search filter: the lower-cased name or origin contains the lower-cased term. */
  predicate MatchesSearch(tea: Tea, term: string)
  {
    Contains(Lower(tea.name), Lower(term)) || Contains(Lower(tea.origin), Lower(term))
  }

  /** The type filter: "all" lets every tea through, any other value only teas of exactly that type. */
  predicate MatchesType(tea: Tea, filterType: string)
  {
    filterType == "all" || tea.teaType == filterType
  }

  /** A tea the view shows. */
  predicate Shown(tea: Tea, term: string, filterType: string)
  {
    MatchesSearch(tea, term) && MatchesType(tea, filterType)
  }

  /** The empty search term matches every tea. */
  lemma EmptySearchMatchesAll(tea: Tea)
    ensures MatchesSearch(tea, "")
  {
    assert Lower("") == "";
    assert Lower(tea.name)[..0] == "";
  }

  /** The search ignores the case of the term: a term and its lower-case form match the same teas. */
  lemma MatchesSearchIgnoresCase(tea: Tea, term: string)
    ensures MatchesSearch(tea, term) <==> MatchesSearch(tea, Lower(term))
  {
    LowerIdempotent(term);
  }

  /** `teas.filter(keep)`. */
  function Filter(teas: seq<Tea>, keep: Tea -> bool): (r: seq<Tea>)
    ensures forall t :: multiset(r)[t] == if keep(t) then multiset(teas)[t] else 0
    ensures forall i :: 0 <= i < |r| ==> keep(r[i])
  {
    if teas == [] then []
    else
      assert teas == [teas[0]] + teas[1..];
      (if keep(teas[0]) then [teas[0]] else []) + Filter(teas[1..], keep)
  }

  /** Filtering distributes over concatenation: the kept teas stay in their input order. */
  lemma {:induction false} FilterAppend(a: seq<Tea>, b: seq<Tea>, keep: Tea -> bool)
    ensures Filter(a + b, keep) == Filter(a, keep) + Filter(b, keep)
  {
    if a == [] {
      assert a + b == b;
    } else {
      assert (a + b)[1..] == a[1..] + b;
      FilterAppend(a[1..], b, keep);
    }
  }

  // ------------------------------------------------------------- sorting

  /** The sort choices; any value other than the four named ones sorts by name. */
  datatype SortKey = ByName | ByRating | ByBrewCount | ByDateAdded | ByPrice

  function KeyOf(sortBy: string): SortKey
  {
    if sortBy == "rating" then ByRating
    else if sortBy == "brewCount" then ByBrewCount
    else if sortBy == "dateAdded" then ByDateAdded
    else if sortBy == "price" then ByPrice
    else ByName
  }

  /** Code-point lexicographic order on strings, standing for `localeCompare`. */
  predicate LexLeq(a: string, b: string)
  {
    a == [] || (b != [] && (a[0] < b[0] || (a[0] == b[0] && LexLeq(a[1..], b[1..]))))
  }

  lemma {:induction false} LexLeqTotal(a: string, b: string)
    ensures LexLeq(a, b) || LexLeq(b, a)
  {
    if a != [] && b != [] && a[0] == b[0] {
      LexLeqTotal(a[1..], b[1..]);
    }
  }

  lemma {:induction false} LexLeqTransitive(a: string, b: string, c: string)
    requires LexLeq(a, b) && LexLeq(b, c)
    ensures LexLeq(a, c)
  {
    if a != [] && b != [] && c != [] && a[0] == b[0] == c[0] {
      LexLeqTransitive(a[1..], b[1..], c[1..]);
    }
  }

  lemma {:induction false} LexLeqAntisymmetric(a: string, b: string)
    requires LexLeq(a, b) && LexLeq(b, a)
    ensures a == b
  {
    if a != [] && b != [] {
      LexLeqAntisymmetric(a[1..], b[1..]);
      assert a == [a[0]] + a[1..] && b == [b[0]] + b[1..];
    }
  }

  /**
    `a` may stand before `b`: the comparator does not put `b` first.  The
    numeric keys and the date sort in descending order, the name ascending.
   */
  predicate Before(key: SortKey, timeOf: string -> int, a: Tea, b: Tea)
  {
    match key
    case ByName => LexLeq(a.name, b.name)
    case ByRating => a.rating >= b.rating
    case ByBrewCount => a.brewCount >= b.brewCount
    case ByDateAdded => timeOf(a.dateAdded) >= timeOf(b.dateAdded)
    case ByPrice => a.price >= b.price
  }

  lemma BeforeTotal(key: SortKey, timeOf: string -> int, a: Tea, b: Tea)
    ensures Before(key, timeOf, a, b) || Before(key, timeOf, b, a)
  {
    if key == ByName {
      LexLeqTotal(a.name, b.name);
    }
  }

  lemma BeforeTransitive(key: SortKey, timeOf: string -> int, a: Tea, b: Tea, c: Tea)
    requires Before(key, timeOf, a, b) && Before(key, timeOf, b, c)
    ensures Before(key, timeOf, a, c)
  {
    if key == ByName {
      LexLeqTransitive(a.name, b.name, c.name);
    }
  }

  predicate Sorted(key: SortKey, timeOf: string -> int, s: seq<Tea>)
  {
    forall i, j :: 0 <= i < j < |s| ==> Before(key, timeOf, s[i], s[j])
  }

  /** A tea that may stand before the head of a sorted list may stand before all of it. */
  lemma PrependSorted(key: SortKey, timeOf: string -> int, x: Tea, s: seq<Tea>)
    requires Sorted(key, timeOf, s)
    requires s != [] ==> Before(key, timeOf, x, s[0])
    ensures Sorted(key, timeOf, [x] + s)
  {
    var r := [x] + s;
    forall i, j | 0 <= i < j < |r| ensures Before(key, timeOf, r[i], r[j]) {
      if i == 0 && j > 1 {
        BeforeTransitive(key, timeOf, x, s[0], s[j - 1]);
      }
    }
  }

  /** The head of a sorted list still leads once a tea that may not stand before it is inserted behind it. */
  lemma InsertBehindHead(key: SortKey, timeOf: string -> int, x: Tea, s: seq<Tea>, rest: seq<Tea>)
    requires s != [] && Sorted(key, timeOf, s) && !Before(key, timeOf, x, s[0])
    requires Sorted(key, timeOf, rest) && multiset(rest) == multiset(s[1..]) + multiset{x}
    ensures Sorted(key, timeOf, [s[0]] + rest)
  {
    var r := [s[0]] + rest;
    forall i, j | 0 <= i < j < |r| ensures Before(key, timeOf, r[i], r[j]) {
      if i == 0 {
        var z := rest[j - 1];
        assert z in multiset(rest);
        if z == x {
          BeforeTotal(key, timeOf, x, s[0]);
        } else {
          assert z in s[1..];
          var k :| 0 <= k < |s[1..]| && s[1..][k] == z;
          assert s[k + 1] == z;
        }
      }
    }
  }

  /** Insertion into a sorted list, in front of the first tea it may stand before (so before its equals, which keeps the sort stable). */
  function Insert(key: SortKey, timeOf: string -> int, x: Tea, s: seq<Tea>): (r: seq<Tea>)
    requires Sorted(key, timeOf, s)
    ensures Sorted(key, timeOf, r)
    ensures multiset(r) == multiset(s) + multiset{x}
    decreases |s|
  {
    if s == [] then [x]
    else if Before(key, timeOf, x, s[0]) then
      PrependSorted(key, timeOf, x, s);
      [x] + s
    else
      assert Sorted(key, timeOf, s[1..]);
      var rest := Insert(key, timeOf, x, s[1..]);
      InsertBehindHead(key, timeOf, x, s, rest);
      assert s == [s[0]] + s[1..];
      [s[0]] + rest
  }

  /** `Array.prototype.sort` with the comparator of the chosen key, as a stable insertion sort. */
  function Sort(key: SortKey, timeOf: string -> int, s: seq<Tea>): (r: seq<Tea>)
    ensures Sorted(key, timeOf, r)
    ensures multiset(r) == multiset(s)
  {
    if s == [] then []
    else
      assert s == [s[0]] + s[1..];
      Insert(key, timeOf, s[0], Sort(key, timeOf, s[1..]))
  }

  // ------------------------------------------------------------ the view

  /**
    The list the view renders: each tea that passes both filters, as often as
    it occurs in the collection, and no other tea, in the order of the key.
   */
  function FilteredTeas(teas: seq<Tea>, term: string, filterType: string, sortBy: string, timeOf: string -> int): (r: seq<Tea>)
    ensures forall t :: multiset(r)[t] == if Shown(t, term, filterType) then multiset(teas)[t] else 0
    ensures Sorted(KeyOf(sortBy), timeOf, r)
  {
    var searched := Filter(teas, t => MatchesSearch(t, term));
    var typed := Filter(searched, t => MatchesType(t, filterType));
    Sort(KeyOf(sortBy), timeOf, typed)
  }

  /** Every tea the view shows passes both filters. */
  lemma ShownTeasMatch(teas: seq<Tea>, term: string, filterType: string, sortBy: string, timeOf: string -> int)
    ensures forall i :: 0 <= i < |FilteredTeas(teas, term, filterType, sortBy, timeOf)| ==>
      var t := FilteredTeas(teas, term, filterType, sortBy, timeOf)[i];
      MatchesSearch(t, term) && MatchesType(t, filterType)
  {
    var r := FilteredTeas(teas, term, filterType, sortBy, timeOf);
    forall i | 0 <= i < |r| ensures MatchesSearch(r[i], term) && MatchesType(r[i], filterType) {
      assert r[i] in multiset(r);
    }
  }

  /** With the empty search and the "all" filter the view shows the whole collection, reordered. */
  lemma NoFilterShowsAll(teas: seq<Tea>, sortBy: string, timeOf: string -> int)
    ensures multiset(FilteredTeas(teas, "", "all", sortBy, timeOf)) == multiset(teas)
  {
    var r := FilteredTeas(teas, "", "all", sortBy, timeOf);
    forall t ensures multiset(r)[t] == multiset(teas)[t] {
      EmptySearchMatchesAll(t);
    }
  }

  /** The "no teas found" message shows exactly when no tea of the collection passes both filters. */
  lemma EmptyResultIff(teas: seq<Tea>, term: string, filterType: string, sortBy: string, timeOf: string -> int)
    ensures |FilteredTeas(teas, term, filterType, sortBy, timeOf)| == 0 <==>
      forall i :: 0 <= i < |teas| ==> !Shown(teas[i], term, filterType)
  {
    var r := FilteredTeas(teas, term, filterType, sortBy, timeOf);
    if |r| != 0 {
      var t := r[0];
      assert t in multiset(r);
      assert t in teas;
    } else {
      forall i | 0 <= i < |teas| ensures !Shown(teas[i], term, filterType) {
        assert teas[i] in multiset(teas);
        assert multiset(r)[teas[i]] == 0;
      }
    }
  }

  /**
    The order of each sort choice: rating, brew count, date added and price
    from highest to lowest, anything else by name from lowest to highest.
   */
  lemma SortOrder(teas: seq<Tea>, term: string, filterType: string, sortBy: string, timeOf: string -> int)
    ensures var r := FilteredTeas(teas, term, filterType, sortBy, timeOf);
      forall i, j :: 0 <= i < j < |r| ==>
        && (sortBy == "rating" ==> r[i].rating >= r[j].rating)
        && (sortBy == "brewCount" ==> r[i].brewCount >= r[j].brewCount)
        && (sortBy == "dateAdded" ==> timeOf(r[i].dateAdded) >= timeOf(r[j].dateAdded))
        && (sortBy == "price" ==> r[i].price >= r[j].price)
        && (sortBy !in {"rating", "brewCount", "dateAdded", "price"} ==> LexLeq(r[i].name, r[j].name))
  {
    var r := FilteredTeas(teas, term, filterType, sortBy, timeOf);
    forall i, j | 0 <= i < j < |r| ensures Before(KeyOf(sortBy), timeOf, r[i], r[j]) {
    }
  }
}
