/**
 * The category filter behind the Skills and Projects sections. A selected
 * category projects a fixed, static list of tagged items: the wildcard
 * category shows the whole list, any other category keeps the items tagged
 * with it, in their original order. The full list itself is never changed.
 */
module CategoryFilter {

  /** `items.filter(item => categoryOf(item) === c)`. */
  function Matching<T(==), C(==)>(items: seq<T>, categoryOf: T -> C, c: C): (r: seq<T>)
    ensures |r| <= |items|
    ensures forall x :: x in r ==> x in items && categoryOf(x) == c
    ensures forall i :: 0 <= i < |items| && categoryOf(items[i]) == c ==> items[i] in r
  {
    if items == [] then []
    else if categoryOf(items[0]) == c then [items[0]] + Matching(items[1..], categoryOf, c)
    else Matching(items[1..], categoryOf, c)
  }

  /** `active === wildcard ? items : items.filter(item => categoryOf(item) === active)`. */
  function Visible<T(==), C(==)>(items: seq<T>, categoryOf: T -> C, wildcard: C, active: C): (r: seq<T>)
    ensures |r| <= |items|
    ensures active != wildcard ==> forall x :: x in r ==> x in items && categoryOf(x) == active
    ensures active != wildcard ==>
      forall i :: 0 <= i < |items| ==> (items[i] in r <==> categoryOf(items[i]) == active)
  {
    if active == wildcard then items else Matching(items, categoryOf, active)
  }

  /** `a` is `b` with some elements deleted: same relative order, nothing repeated or added. */
  predicate SubsequenceOf<T(==)>(a: seq<T>, b: seq<T>)
    decreases |b|
  {
    if a == [] then true
    else if b == [] then false
    else (a[0] == b[0] && SubsequenceOf(a[1..], b[1..])) || SubsequenceOf(a, b[1..])
  }

  /** No element occurs twice. */
  predicate Distinct<T(==)>(s: seq<T>) {
    forall i, j :: 0 <= i < j < |s| ==> s[i] != s[j]
  }

  lemma {:induction false} SubsequenceOfSelf<T>(s: seq<T>)
    ensures SubsequenceOf(s, s)
  {
    if s != [] {
      SubsequenceOfSelf(s[1..]);
    }
  }

  /** The filtered list keeps the original relative order of the items it keeps. */
  lemma {:induction false} MatchingIsSubsequence<T, C>(items: seq<T>, categoryOf: T -> C, c: C)
    ensures SubsequenceOf(Matching(items, categoryOf, c), items)
  {
    if items != [] {
      MatchingIsSubsequence(items[1..], categoryOf, c);
    }
  }

  /** Every matching item is kept exactly as often as it occurs, and nothing else is kept. */
  lemma {:induction false} MatchingMultiplicity<T, C>(items: seq<T>, categoryOf: T -> C, c: C, x: T)
    ensures multiset(Matching(items, categoryOf, c))[x]
         == if categoryOf(x) == c then multiset(items)[x] else 0
  {
    if items != [] {
      MatchingMultiplicity(items[1..], categoryOf, c, x);
      assert items == [items[0]] + items[1..];
    }
  }

  /** Filtering a list without duplicates produces no duplicates. */
  lemma {:induction false} MatchingDistinct<T, C>(items: seq<T>, categoryOf: T -> C, c: C)
    requires Distinct(items)
    ensures Distinct(Matching(items, categoryOf, c))
  {
    if items != [] {
      var tail := items[1..];
      assert Distinct(tail) by {
        forall i, j | 0 <= i < j < |tail| ensures tail[i] != tail[j] {
          assert tail[i] == items[i + 1] && tail[j] == items[j + 1];
        }
      }
      MatchingDistinct(tail, categoryOf, c);
      if categoryOf(items[0]) == c {
        var rest := Matching(tail, categoryOf, c);
        assert items[0] !in tail by {
          forall k | 0 <= k < |tail| ensures tail[k] != items[0] {
            assert tail[k] == items[k + 1];
          }
        }
        var r := [items[0]] + rest;
        forall i, j | 0 <= i < j < |r| ensures r[i] != r[j] {
          if i == 0 {
            assert r[j] == rest[j - 1] && r[j] in tail;
          } else {
            assert r[i] == rest[i - 1] && r[j] == rest[j - 1];
          }
        }
      }
    }
  }

  /** The wildcard shows the whole list; any other category keeps exactly its items, in order. */
  lemma VisibleSpec<T, C>(items: seq<T>, categoryOf: T -> C, wildcard: C, active: C)
    ensures SubsequenceOf(Visible(items, categoryOf, wildcard, active), items)
    ensures active == wildcard ==> Visible(items, categoryOf, wildcard, active) == items
    ensures active != wildcard ==> forall x ::
      multiset(Visible(items, categoryOf, wildcard, active))[x]
        == if categoryOf(x) == active then multiset(items)[x] else 0
  {
    if active == wildcard {
      SubsequenceOfSelf(items);
    } else {
      MatchingIsSubsequence(items, categoryOf, active);
      forall x ensures multiset(Matching(items, categoryOf, active))[x]
                    == if categoryOf(x) == active then multiset(items)[x] else 0 {
        MatchingMultiplicity(items, categoryOf, active, x);
      }
    }
  }

  /**
   * Exactly one filter button is marked active when the button labels are
   * distinct and the active category is one of them.
   */
  lemma {:induction false} ExactlyOneMarked<C>(buttons: seq<C>, active: C)
    requires Distinct(buttons) && active in buttons
    ensures |MarkedButtons(buttons, active)| == 1
  {
    var k :| 0 <= k < |buttons| && buttons[k] == active;
    assert MarkedButtons(buttons, active) == {k};
  }

  /** The positions of the buttons drawn as active: those whose category equals the active one. */
  function MarkedButtons<C(==)>(buttons: seq<C>, active: C): set<nat> {
    set i: nat | i < |buttons| && buttons[i] == active
  }

  /** The category of each item, in order. */
  function Tags<T, C>(items: seq<T>, categoryOf: T -> C): (r: seq<C>)
    ensures |r| == |items| && forall i :: 0 <= i < |items| ==> r[i] == categoryOf(items[i])
  {
    seq(|items|, i requires 0 <= i < |items| => categoryOf(items[i]))
  }

  /** How many entries of `cs` equal `c`. */
  function Count<C(==)>(cs: seq<C>, c: C): nat {
    if cs == [] then 0 else (if cs[0] == c then 1 else 0) + Count(cs[1..], c)
  }

  /** The filter keeps as many items as there are items tagged with the category. */
  lemma {:induction false} MatchingLength<T, C>(items: seq<T>, categoryOf: T -> C, c: C)
    ensures |Matching(items, categoryOf, c)| == Count(Tags(items, categoryOf), c)
  {
    if items != [] {
      MatchingLength(items[1..], categoryOf, c);
      assert Tags(items, categoryOf)[1..] == Tags(items[1..], categoryOf);
    }
  }

  /** Filtering a list with a given first item: the item is kept or dropped, then the rest is filtered. */
  lemma MatchingCons<T, C>(x: T, rest: seq<T>, categoryOf: T -> C, c: C)
    ensures Matching([x] + rest, categoryOf, c)
         == (if categoryOf(x) == c then [x] else []) + Matching(rest, categoryOf, c)
  {
    assert ([x] + rest)[0] == x && ([x] + rest)[1..] == rest;
  }

  /** Filtering a concatenation filters each part. */
  lemma {:induction false} MatchingAppend<T, C>(a: seq<T>, b: seq<T>, categoryOf: T -> C, c: C)
    ensures Matching(a + b, categoryOf, c) == Matching(a, categoryOf, c) + Matching(b, categoryOf, c)
  {
    if a == [] {
      assert a + b == b;
    } else {
      var x, tail := a[0], a[1..];
      assert a == [x] + tail && a + b == [x] + (tail + b);
      MatchingAppend(tail, b, categoryOf, c);
      MatchingCons(x, tail + b, categoryOf, c);
      MatchingCons(x, tail, categoryOf, c);
      var h := if categoryOf(x) == c then [x] else [];
      var mt, mb := Matching(tail, categoryOf, c), Matching(b, categoryOf, c);
      assert h + (mt + mb) == (h + mt) + mb;
    }
  }

  /** Every item of `group` carries tag `t`. */
  predicate AllTagged<T, C(==)>(group: seq<T>, categoryOf: T -> C, t: C) {
    forall i :: 0 <= i < |group| ==> categoryOf(group[i]) == t
  }

  /** A group whose items all carry tag `t` is kept whole for `t` and dropped for any other category. */
  lemma {:induction false} MatchingUniform<T, C>(group: seq<T>, categoryOf: T -> C, t: C, c: C)
    requires AllTagged(group, categoryOf, t)
    ensures Matching(group, categoryOf, c) == if c == t then group else []
  {
    if group != [] {
      MatchingUniform(group[1..], categoryOf, t, c);
      assert group == [group[0]] + group[1..];
    }
  }

  /** Tagging a concatenation tags each part. */
  lemma TagsAppend<T, C>(a: seq<T>, b: seq<T>, categoryOf: T -> C)
    ensures Tags(a + b, categoryOf) == Tags(a, categoryOf) + Tags(b, categoryOf)
  {
  }

  /** Two lists without duplicates and with no element in common join into a list without duplicates. */
  lemma DistinctAppend<T>(a: seq<T>, b: seq<T>)
    requires Distinct(a) && Distinct(b)
    requires forall x :: x in a ==> x !in b
    ensures Distinct(a + b)
  {
    var ab := a + b;
    forall i, j | 0 <= i < j < |ab|
      ensures ab[i] != ab[j]
    {
      if j < |a| {
        assert ab[i] == a[i] && ab[j] == a[j];
      } else if i >= |a| {
        assert ab[i] == b[i - |a|] && ab[j] == b[j - |a|];
      } else {
        assert ab[i] == a[i] && ab[j] == b[j - |a|];
        assert a[i] in a;
      }
    }
  }
}
