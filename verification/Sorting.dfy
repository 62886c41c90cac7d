/** Listing a finite set in a given total order, as a BTreeMap or a sort does. */
module Sorting {

  ghost predicate TotalOrder<T(!new)>(le: (T, T) -> bool) {
    && (forall x, y :: le(x, y) || le(y, x))
    && (forall x, y, z :: le(x, y) && le(y, z) ==> le(x, z))
    && (forall x, y :: le(x, y) && le(y, x) ==> x == y)
  }

  ghost predicate First<T(!new)>(x: T, s: set<T>, le: (T, T) -> bool) {
    x in s && forall y :: y in s ==> le(x, y)
  }

  lemma {:induction false} FirstExists<T(!new)>(s: set<T>, le: (T, T) -> bool)
    requires TotalOrder(le) && s != {}
    ensures exists x :: First(x, s, le)
  {
    var a :| a in s;
    assert le(a, a);
    if s == {a} {
      assert First(a, s, le);
    } else {
      FirstExists(s - {a}, le);
      var x :| First(x, s - {a}, le);
      assert First(if le(a, x) then a else x, s, le);
    }
  }

  function FirstOf<T(!new, ==)>(s: set<T>, le: (T, T) -> bool): (x: T)
    requires TotalOrder(le) && s != {}
    ensures First(x, s, le)
  {
    FirstExists(s, le);
    assert exists x :: x in s && forall y :: y in s ==> le(x, y) by {
      var x :| First(x, s, le);
    }
    var x :| x in s && forall y :: y in s ==> le(x, y);
    x
  }

  function InOrder<T(!new, ==)>(s: set<T>, le: (T, T) -> bool): (r: seq<T>)
    requires TotalOrder(le)
    ensures |r| == |s| && forall x :: x in r <==> x in s
  {
    if s == {} then [] else
      var x := FirstOf(s, le);
      [x] + InOrder(s - {x}, le)
  }

  /** Each once, and in order. */
  ghost predicate Increasing<T(!new)>(r: seq<T>, le: (T, T) -> bool) {
    forall i, j :: 0 <= i < j < |r| ==> r[i] != r[j] && le(r[i], r[j])
  }

  lemma {:induction false} InOrderIncreases<T(!new)>(s: set<T>, le: (T, T) -> bool)
    requires TotalOrder(le)
    ensures Increasing(InOrder(s, le), le)
  {
    if s != {} {
      var x := FirstOf(s, le);
      var rest := InOrder(s - {x}, le);
      InOrderIncreases(s - {x}, le);
      assert InOrder(s, le) == [x] + rest;
      assert forall i :: 0 <= i < |rest| ==> rest[i] in rest;
    }
  }
}
