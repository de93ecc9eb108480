/** `Array.prototype.sort`, which ECMAScript guarantees to be stable, together with filtering.

    The queue, the route table, the parameter list and the dialect compiler all sort; they share
    this definition.  The law that matters to them is `SortKeepsOrderedPart`: a sort never disturbs
    a part of the list that is already in order.  Stability is the special case of a part whose
    elements all compare equal. */
module StableSorting {

  ghost predicate TotalPreorder<T(!new)>(le: (T, T) -> bool) {
    && (forall x, y :: le(x, y) || le(y, x))
    && (forall x, y, z :: le(x, y) && le(y, z) ==> le(x, z))
  }

  ghost predicate Ordered<T>(le: (T, T) -> bool, s: seq<T>) {
    forall i, j :: 0 <= i < j < |s| ==> le(s[i], s[j])
  }

  function Filter<T>(p: T -> bool, s: seq<T>): (r: seq<T>) {
    if s == [] then [] else (if p(s[0]) then [s[0]] else []) + Filter(p, s[1..])
  }

  /** Puts `x` behind everything that may stand before it. */
  function Insert<T>(le: (T, T) -> bool, s: seq<T>, x: T): seq<T> {
    if s == [] then [x]
    else if le(s[|s| - 1], x) then s + [x]
    else Insert(le, s[..|s| - 1], x) + [s[|s| - 1]]
  }

  function Sort<T>(le: (T, T) -> bool, s: seq<T>): seq<T> {
    if s == [] then [] else Insert(le, Sort(le, s[..|s| - 1]), s[|s| - 1])
  }

  // Filtering

  lemma {:induction false} FilterConcat<T>(p: T -> bool, a: seq<T>, b: seq<T>)
    ensures Filter(p, a + b) == Filter(p, a) + Filter(p, b)
  {
    if a == [] {
      assert a + b == b;
    } else {
      assert (a + b)[1..] == a[1..] + b && (a + b)[0] == a[0];
      FilterConcat(p, a[1..], b);
      var head := if p(a[0]) then [a[0]] else [];
      assert head + (Filter(p, a[1..]) + Filter(p, b)) == (head + Filter(p, a[1..])) + Filter(p, b);
    }
  }

  lemma FilterOne<T>(p: T -> bool, x: T)
    ensures Filter(p, [x]) == if p(x) then [x] else []
  {
    assert [x][1..] == [];
  }

  lemma FilterLast<T>(p: T -> bool, s: seq<T>)
    requires s != []
    ensures Filter(p, s) == Filter(p, s[..|s| - 1]) + if p(s[|s| - 1]) then [s[|s| - 1]] else []
  {
    assert s == s[..|s| - 1] + [s[|s| - 1]];
    FilterConcat(p, s[..|s| - 1], [s[|s| - 1]]);
    FilterOne(p, s[|s| - 1]);
  }

  lemma {:induction false} FilterMember<T>(p: T -> bool, s: seq<T>, x: T)
    ensures x in Filter(p, s) <==> x in s && p(x)
    ensures |Filter(p, s)| <= |s|
  {
    if s != [] {
      FilterMember(p, s[1..], x);
      assert s == [s[0]] + s[1..];
    }
  }

  lemma FilterMembers<T>(p: T -> bool, s: seq<T>)
    ensures forall x :: x in Filter(p, s) <==> x in s && p(x)
  {
    forall x ensures x in Filter(p, s) <==> x in s && p(x) {
      FilterMember(p, s, x);
    }
  }

  /** Splitting a list in two loses and invents nothing. */
  lemma {:induction false} FilterSplit<T>(p: T -> bool, q: T -> bool, notQ: T -> bool, s: seq<T>)
    requires forall x :: notQ(x) <==> !q(x)
    ensures |Filter(p, Filter(q, s))| + |Filter(p, Filter(notQ, s))| == |Filter(p, s)|
  {
    if s != [] {
      FilterSplit(p, q, notQ, s[1..]);
      var one := [s[0]];
      FilterConcat(p, if q(s[0]) then one else [], Filter(q, s[1..]));
      FilterConcat(p, if notQ(s[0]) then one else [], Filter(notQ, s[1..]));
    }
  }

  lemma {:induction false} FilterLengths<T>(q: T -> bool, notQ: T -> bool, s: seq<T>)
    requires forall x :: notQ(x) <==> !q(x)
    ensures |Filter(q, s)| + |Filter(notQ, s)| == |s|
  {
    if s != [] {
      FilterLengths(q, notQ, s[1..]);
    }
  }

  lemma {:induction false} AtMostOne<T>(p: T -> bool, s: seq<T>)
    ensures |Filter(p, s)| <= 1 <==> forall i, j :: 0 <= i < j < |s| ==> !(p(s[i]) && p(s[j]))
  {
    if s != [] {
      var rest := s[1..];
      AtMostOne(p, rest);
      if |Filter(p, rest)| > 0 {
        FilterMember(p, rest, Filter(p, rest)[0]);
        var k :| 0 <= k < |rest| && rest[k] == Filter(p, rest)[0];
        assert s[k + 1] == rest[k];
      }
      forall i, j | 0 <= i < j < |s| && p(s[i]) && p(s[j]) ensures |Filter(p, s)| > 1 {
        assert s[j] == rest[j - 1];
        FilterMember(p, rest, rest[j - 1]);
        if i > 0 {
          assert s[i] == rest[i - 1];
        }
      }
      forall i, j | 0 <= i < j < |rest| && p(rest[i]) && p(rest[j]) ensures p(s[i + 1]) && p(s[j + 1]) {
      }
    }
  }

  /** Filtering out other elements keeps a part in order. */
  lemma {:induction false} FilterKeepsOrder<T>(le: (T, T) -> bool, p: T -> bool, q: T -> bool, s: seq<T>)
    requires Ordered(le, Filter(p, s))
    ensures Ordered(le, Filter(p, Filter(q, s)))
  {
    if s != [] {
      var rest := Filter(p, s[1..]);
      assert Ordered(le, rest) by {
        var head := if p(s[0]) then [s[0]] else [];
        assert forall i :: 0 <= i < |rest| ==> rest[i] == Filter(p, s)[i + |head|];
      }
      FilterKeepsOrder(le, p, q, s[1..]);
      FilterConcat(p, if q(s[0]) then [s[0]] else [], Filter(q, s[1..]));
      if p(s[0]) && q(s[0]) {
        var kept := Filter(p, Filter(q, s[1..]));
        forall k | 0 <= k < |kept| ensures le(s[0], kept[k]) {
          var y := kept[k];
          assert y in kept;
          FilterMember(p, Filter(q, s[1..]), y);
          FilterMember(q, s[1..], y);
          FilterMember(p, s[1..], y);
          var i :| 0 <= i < |rest| && rest[i] == y;
          assert Filter(p, s)[0] == s[0] && Filter(p, s)[i + 1] == rest[i];
        }
        assert Filter(p, Filter(q, s)) == [s[0]] + kept;
      }
    }
  }

  lemma OrderedSnoc<T>(le: (T, T) -> bool, s: seq<T>, x: T)
    requires Ordered(le, s) && forall i :: 0 <= i < |s| ==> le(s[i], x)
    ensures Ordered(le, s + [x])
  {
  }

  // Sorting

  lemma {:induction false} InsertIsRearrangement<T>(le: (T, T) -> bool, s: seq<T>, x: T)
    ensures multiset(Insert(le, s, x)) == multiset(s) + multiset{x}
  {
    if s != [] {
      var init := s[..|s| - 1];
      assert s == init + [s[|s| - 1]];
      InsertIsRearrangement(le, init, x);
    }
  }

  lemma {:induction false} InsertFacts<T(!new)>(le: (T, T) -> bool, s: seq<T>, x: T)
    requires TotalPreorder(le) && Ordered(le, s)
    ensures Ordered(le, Insert(le, s, x))
    ensures multiset(Insert(le, s, x)) == multiset(s) + multiset{x}
  {
    InsertIsRearrangement(le, s, x);
    if s != [] {
      var init, last := s[..|s| - 1], s[|s| - 1];
      if le(last, x) {
        forall i | 0 <= i < |s| ensures le(s[i], x) {
          assert i < |s| - 1 ==> le(s[i], last);
        }
        OrderedSnoc(le, s, x);
      } else {
        InsertFacts(le, init, x);
        var r := Insert(le, init, x);
        forall i | 0 <= i < |r| ensures le(r[i], last) {
          assert r[i] in multiset(r);
          assert r[i] in init || r[i] == x;
        }
        OrderedSnoc(le, r, last);
      }
    }
  }

  /** Sorting yields an ordered rearrangement. */
  lemma {:induction false} SortFacts<T(!new)>(le: (T, T) -> bool, s: seq<T>)
    requires TotalPreorder(le)
    ensures Ordered(le, Sort(le, s))
    ensures multiset(Sort(le, s)) == multiset(s)
    ensures |Sort(le, s)| == |s|
    ensures forall x :: x in Sort(le, s) <==> x in s
  {
    if s != [] {
      var init := s[..|s| - 1];
      assert s == init + [s[|s| - 1]];
      SortFacts(le, init);
      InsertFacts(le, Sort(le, init), s[|s| - 1]);
    }
    assert |multiset(Sort(le, s))| == |multiset(s)|;
    forall x ensures x in Sort(le, s) <==> x in s {
      assert x in Sort(le, s) <==> x in multiset(Sort(le, s));
      assert x in s <==> x in multiset(s);
    }
  }

  lemma {:induction false} InsertFilter<T>(le: (T, T) -> bool, p: T -> bool, s: seq<T>, x: T)
    requires p(x) ==> forall y :: y in Filter(p, s) ==> le(y, x)
    ensures Filter(p, Insert(le, s, x)) == Filter(p, s) + if p(x) then [x] else []
  {
    if s != [] {
      var last := s[|s| - 1];
      var init := s[..|s| - 1];
      FilterLast(p, s);
      if le(last, x) {
        FilterConcat(p, s, [x]);
      } else {
        FilterMembers(p, s);
        assert last in s;
        InsertFilter(le, p, init, x);
        FilterConcat(p, Insert(le, init, x), [last]);
      }
    }
  }

  /** A part that is already in order comes out of the sort exactly as it went in. */
  lemma {:induction false} SortKeepsOrderedPart<T>(le: (T, T) -> bool, p: T -> bool, s: seq<T>)
    requires Ordered(le, Filter(p, s))
    ensures Filter(p, Sort(le, s)) == Filter(p, s)
  {
    if s != [] {
      var last := s[|s| - 1];
      var init := s[..|s| - 1];
      FilterLast(p, s);
      var part := Filter(p, init);
      assert forall i :: 0 <= i < |part| ==> part[i] == Filter(p, s)[i];
      SortKeepsOrderedPart(le, p, init);
      if p(last) {
        forall y | y in part ensures le(y, last) {
          var i :| 0 <= i < |part| && part[i] == y;
          assert Filter(p, s)[|part|] == last;
        }
      }
      InsertFilter(le, p, Sort(le, init), last);
    }
  }

  lemma {:induction false} InsertCount<T>(le: (T, T) -> bool, p: T -> bool, s: seq<T>, x: T)
    ensures |Filter(p, Insert(le, s, x))| == |Filter(p, s)| + if p(x) then 1 else 0
  {
    if s != [] {
      FilterLast(p, s);
      if le(s[|s| - 1], x) {
        FilterConcat(p, s, [x]);
      } else {
        InsertCount(le, p, s[..|s| - 1], x);
        FilterConcat(p, Insert(le, s[..|s| - 1], x), [s[|s| - 1]]);
      }
    }
  }

  /** Sorting changes no count. */
  lemma {:induction false} SortCount<T>(le: (T, T) -> bool, p: T -> bool, s: seq<T>)
    ensures |Filter(p, Sort(le, s))| == |Filter(p, s)|
  {
    if s != [] {
      FilterLast(p, s);
      SortCount(le, p, s[..|s| - 1]);
      InsertCount(le, p, Sort(le, s[..|s| - 1]), s[|s| - 1]);
    }
  }
}
