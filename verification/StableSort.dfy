/** Stable sorting by a total preorder, and what it implies. */
module StableSort {

  type Order<!T> = (T, T) -> bool

  ghost predicate TotalPreorder<T(!new)>(leq: Order<T>) {
    && (forall a, b :: leq(a, b) || leq(b, a))
    && (forall a, b, c :: leq(a, b) && leq(b, c) ==> leq(a, c))
  }

  /** Before every element that does not have to come earlier. */
  function Insert<T>(x: T, s: seq<T>, leq: Order<T>): seq<T> {
    if s == [] || leq(x, s[0]) then [x] + s else [s[0]] + Insert(x, s[1..], leq)
  }

  function Sort<T>(s: seq<T>, leq: Order<T>): seq<T> {
    if s == [] then [] else Insert(s[0], Sort(s[1..], leq), leq)
  }

  ghost predicate Sorted<T>(s: seq<T>, leq: Order<T>) {
    forall i, j | 0 <= i < j < |s| :: leq(s[i], s[j])
  }

  /** Elements that are equal in the order are equal. */
  ghost predicate Distinct<T(!new)>(s: seq<T>, leq: Order<T>) {
    forall x, y | x in s && y in s && leq(x, y) && leq(y, x) :: x == y
  }

  lemma {:induction false} InsertKeeps<T>(x: T, s: seq<T>, leq: Order<T>)
    ensures multiset(Insert(x, s, leq)) == multiset{x} + multiset(s)
  {
    if s != [] && !leq(x, s[0]) {
      InsertKeeps(x, s[1..], leq);
      assert s == [s[0]] + s[1..];
    }
  }

  lemma {:induction false} InsertSorted<T(!new)>(x: T, s: seq<T>, leq: Order<T>)
    requires TotalPreorder(leq) && Sorted(s, leq)
    ensures Sorted(Insert(x, s, leq), leq)
  {
    if s == [] {
    } else if leq(x, s[0]) {
      assert forall j | 0 < j < |s| :: leq(s[0], s[j]);
    } else {
      var rest := Insert(x, s[1..], leq);
      InsertSorted(x, s[1..], leq);
      InsertKeeps(x, s[1..], leq);
      forall j | 0 <= j < |rest| ensures leq(s[0], rest[j]) {
        assert rest[j] in multiset(rest);
        if rest[j] != x {
          assert rest[j] in s[1..];
        }
      }
    }
  }

  /** Sorting rearranges, and the result is in order. */
  lemma {:induction false} SortSorts<T(!new)>(s: seq<T>, leq: Order<T>)
    requires TotalPreorder(leq)
    ensures Sorted(Sort(s, leq), leq) && multiset(Sort(s, leq)) == multiset(s) && |Sort(s, leq)| == |s|
  {
    if s != [] {
      SortSorts(s[1..], leq);
      InsertSorted(s[0], Sort(s[1..], leq), leq);
      InsertKeeps(s[0], Sort(s[1..], leq), leq);
      assert s == [s[0]] + s[1..];
    }
    assert |multiset(Sort(s, leq))| == |multiset(s)|;
  }

  /** A sorted arrangement of distinct elements is the only one. */
  lemma {:induction false} OneArrangement<T(!new)>(s: seq<T>, t: seq<T>, leq: Order<T>)
    requires Sorted(s, leq) && Sorted(t, leq) && Distinct(s, leq) && multiset(s) == multiset(t)
    ensures s == t
  {
    assert |multiset(s)| == |multiset(t)|;
    if s != [] {
      SameFirst(s, t, leq);
      Tails(s, t);
      assert forall x | x in s[1..] :: x in s;
      OneArrangement(s[1..], t[1..], leq);
      assert s == [s[0]] + s[1..] && t == [t[0]] + t[1..];
    }
  }

  lemma SameFirst<T(!new)>(s: seq<T>, t: seq<T>, leq: Order<T>)
    requires Sorted(s, leq) && Sorted(t, leq) && Distinct(s, leq) && multiset(s) == multiset(t) && s != [] && t != []
    ensures s[0] == t[0]
  {
    var x, y := s[0], t[0];
    assert x in multiset(t) && y in multiset(s);
    var i :| 0 <= i < |s| && s[i] == y;
    var j :| 0 <= j < |t| && t[j] == x;
    assert i == 0 || leq(x, y);
    assert j == 0 || leq(y, x);
  }

  lemma Tails<T>(s: seq<T>, t: seq<T>)
    requires s != [] && t != [] && s[0] == t[0] && multiset(s) == multiset(t)
    ensures multiset(s[1..]) == multiset(t[1..])
  {
    assert s == [s[0]] + s[1..] && t == [t[0]] + t[1..];
    assert multiset(s[1..]) == multiset(s) - multiset{s[0]};
    assert multiset(t[1..]) == multiset(t) - multiset{t[0]};
  }

  /** Sorting does not depend on the order of distinct elements. */
  lemma SortUnique<T(!new)>(s: seq<T>, t: seq<T>, leq: Order<T>)
    requires TotalPreorder(leq) && multiset(s) == multiset(t) && Distinct(s, leq)
    ensures Sort(s, leq) == Sort(t, leq)
  {
    SortSorts(s, leq);
    SortSorts(t, leq);
    MembersKept(s, leq);
    OneArrangement(Sort(s, leq), Sort(t, leq), leq);
  }

  lemma MembersKept<T(!new)>(s: seq<T>, leq: Order<T>)
    requires TotalPreorder(leq)
    ensures forall x :: x in Sort(s, leq) <==> x in s
  {
    SortSorts(s, leq);
    assert forall x :: x in Sort(s, leq) <==> x in multiset(Sort(s, leq));
    assert forall x :: x in s <==> x in multiset(s);
  }

  lemma {:induction false} InsertBefore<T>(x: T, s: seq<T>, t: seq<T>, leq: Order<T>)
    requires forall y | y in t :: leq(x, y)
    ensures Insert(x, s + t, leq) == Insert(x, s, leq) + t
  {
    if s == [] {
      assert s + t == t && Insert(x, s, leq) == [x];
      if t != [] {
        assert t[0] in t;
      }
    } else {
      assert (s + t)[0] == s[0] && (s + t)[1..] == s[1..] + t;
      if leq(x, s[0]) {
        assert [x] + (s + t) == ([x] + s) + t;
      } else {
        InsertBefore(x, s[1..], t, leq);
        assert [s[0]] + (Insert(x, s[1..], leq) + t) == ([s[0]] + Insert(x, s[1..], leq)) + t;
      }
    }
  }

  /** Where one part sorts before the other, the parts can be sorted apart. */
  lemma {:induction false} SortConcat<T(!new)>(s: seq<T>, t: seq<T>, leq: Order<T>)
    requires TotalPreorder(leq) && forall x, y | x in s && y in t :: leq(x, y)
    ensures Sort(s + t, leq) == Sort(s, leq) + Sort(t, leq)
  {
    if s == [] {
      assert s + t == t;
    } else {
      SortConcat(s[1..], t, leq);
      MembersKept(t, leq);
      assert (s + t)[1..] == s[1..] + t && s[0] in s;
      hide Insert, Sorted, TotalPreorder;
      InsertBefore(s[0], Sort(s[1..], leq), Sort(t, leq), leq);
    }
  }
}
