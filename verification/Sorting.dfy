/** A stable sort by a total preorder, standing for the library sort, and what its
    callers rely on. */
module Sorting {
  /** Total on the elements of `s`, and transitive there. */
  ghost predicate Orders<T(!new)>(le: (T, T) -> bool, s: seq<T>) {
    && (forall a, b :: a in s && b in s ==> le(a, b) || le(b, a))
    && (forall a, b, c :: a in s && b in s && c in s && le(a, b) && le(b, c) ==> le(a, c))
  }

  /** Distinct elements are never tied. */
  ghost predicate NoTies<T(!new)>(le: (T, T) -> bool, s: seq<T>) {
    forall a, b :: a in s && b in s && le(a, b) && le(b, a) ==> a == b
  }

  ghost predicate Sorted<T>(le: (T, T) -> bool, s: seq<T>) {
    forall i, j :: 0 <= i < j < |s| ==> le(s[i], s[j])
  }

  /** `x` goes after every element it is not strictly smaller than. */
  function Insert<T>(le: (T, T) -> bool, s: seq<T>, x: T): seq<T> {
    if s == [] || le(s[|s| - 1], x) then s + [x]
    else Insert(le, s[..|s| - 1], x) + [s[|s| - 1]]
  }

  function Sort<T>(le: (T, T) -> bool, s: seq<T>): seq<T> {
    if s == [] then [] else Insert(le, Sort(le, s[..|s| - 1]), s[|s| - 1])
  }

  lemma SplitLast<T>(s: seq<T>)
    requires s != []
    ensures s == s[..|s| - 1] + [s[|s| - 1]]
    ensures multiset(s) == multiset(s[..|s| - 1]) + multiset{s[|s| - 1]}
  {
    assert s == s[..|s| - 1] + [s[|s| - 1]];
  }

  lemma {:induction false} InsertKeeps<T>(le: (T, T) -> bool, s: seq<T>, x: T)
    ensures multiset(Insert(le, s, x)) == multiset(s) + multiset{x}
  {
    if s == [] || le(s[|s| - 1], x) {
    } else {
      InsertKeeps(le, s[..|s| - 1], x);
      SplitLast(s);
    }
  }

  /** Sorting keeps every element, as often as it occurs. */
  lemma {:induction false} SortKeeps<T>(le: (T, T) -> bool, s: seq<T>)
    ensures multiset(Sort(le, s)) == multiset(s)
    ensures |Sort(le, s)| == |s|
  {
    if s == [] {
    } else {
      SortKeeps(le, s[..|s| - 1]);
      InsertKeeps(le, Sort(le, s[..|s| - 1]), s[|s| - 1]);
      SplitLast(s);
    }
    assert |multiset(Sort(le, s))| == |Sort(le, s)| && |multiset(s)| == |s|;
  }

  lemma SameElements<T>(s: seq<T>, t: seq<T>)
    requires multiset(s) == multiset(t)
    ensures forall x :: x in s <==> x in t
  {
    forall x ensures x in s <==> x in t {
      assert x in s <==> x in multiset(s);
      assert x in t <==> x in multiset(t);
    }
  }

  lemma {:induction false} InsertIsSorted<T(!new)>(le: (T, T) -> bool, s: seq<T>, x: T)
    requires Orders(le, s + [x]) && Sorted(le, s)
    ensures Sorted(le, Insert(le, s, x))
  {
    if s == [] {
    } else {
      var last, front := s[|s| - 1], s[..|s| - 1];
      assert x in s + [x] && last in s + [x];
      if le(last, x) {
        forall i | 0 <= i < |s| ensures le(s[i], x) {
          assert s[i] in s + [x];
        }
      } else {
        assert forall a :: a in front + [x] ==> a in s + [x];
        InsertIsSorted(le, front, x);
        InsertKeeps(le, front, x);
        var inner := Insert(le, front, x);
        assert multiset(inner) == multiset(front + [x]);
        SameElements(inner, front + [x]);
        forall i | 0 <= i < |inner| ensures le(inner[i], last) {
          assert inner[i] in front + [x];
        }
      }
    }
  }

  lemma {:induction false} SortIsSorted<T(!new)>(le: (T, T) -> bool, s: seq<T>)
    requires Orders(le, s)
    ensures Sorted(le, Sort(le, s))
  {
    if s == [] {
    } else {
      var front, last := s[..|s| - 1], s[|s| - 1];
      SortIsSorted(le, front);
      SortKeeps(le, front);
      SameElements(Sort(le, front), front);
      assert forall a :: a in Sort(le, front) + [last] ==> a in s;
      InsertIsSorted(le, Sort(le, front), last);
    }
  }

  /** Two sorted lists of the same elements are the same list when no two of their
      elements are tied. */
  lemma {:induction false} SortedAgree<T(!new)>(le: (T, T) -> bool, s: seq<T>, t: seq<T>)
    requires multiset(s) == multiset(t) && NoTies(le, s) && Sorted(le, s) && Sorted(le, t)
    requires forall a :: a in s ==> le(a, a)
    ensures s == t
  {
    assert |multiset(s)| == |s| && |multiset(t)| == |t|;
    if s == [] {
    } else {
      hide Sorted, NoTies;
      var n := |s| - 1;
      SameLast(le, s, t);
      SplitLast(s);
      SplitLast(t);
      assert multiset(s[..n]) == multiset(s) - multiset{s[n]};
      assert multiset(t[..n]) == multiset(t) - multiset{t[n]};
      FrontInherits(le, s);
      FrontIsSorted(le, t);
      SortedAgree(le, s[..n], t[..n]);
    }
  }

  lemma FrontIsSorted<T(!new)>(le: (T, T) -> bool, s: seq<T>)
    requires Sorted(le, s) && s != []
    ensures Sorted(le, s[..|s| - 1])
  {
  }

  lemma FrontInherits<T(!new)>(le: (T, T) -> bool, s: seq<T>)
    requires NoTies(le, s) && Sorted(le, s) && (forall a :: a in s ==> le(a, a)) && s != []
    ensures var front := s[..|s| - 1]; NoTies(le, front) && Sorted(le, front) && forall a :: a in front ==> le(a, a)
  {
    assert forall a :: a in s[..|s| - 1] ==> a in s;
  }

  lemma SameLast<T(!new)>(le: (T, T) -> bool, s: seq<T>, t: seq<T>)
    requires multiset(s) == multiset(t) && NoTies(le, s) && Sorted(le, s) && Sorted(le, t)
    requires (forall a :: a in s ==> le(a, a)) && s != [] && |s| == |t|
    ensures s[|s| - 1] == t[|t| - 1]
  {
    var n := |s| - 1;
    SameElements(s, t);
    assert s[n] in s && t[n] in t;
    assert t[n] in s && s[n] in t;
    var i :| 0 <= i < |s| && s[i] == t[n];
    var j :| 0 <= j < |t| && t[j] == s[n];
    assert i < n ==> le(s[i], s[n]);
    assert j < n ==> le(t[j], t[n]);
  }

  /** The order of the input does not matter when no two elements are tied. */
  lemma SortForgetsOrder<T(!new)>(le: (T, T) -> bool, s: seq<T>, t: seq<T>)
    requires multiset(s) == multiset(t) && Orders(le, s) && NoTies(le, s)
    ensures Sort(le, s) == Sort(le, t)
  {
    SameElements(s, t);
    SortIsSorted(le, s);
    SortIsSorted(le, t);
    SortKeeps(le, s);
    SortKeeps(le, t);
    SameElements(Sort(le, s), s);
    SortedAgree(le, Sort(le, s), Sort(le, t));
  }
}
