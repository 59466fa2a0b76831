/**
 * Ordering facts shared by the auto-generated-id tables (`savings_table`,
 * `budget_table`): rows are kept in insertion order, where ids ascend, and
 * `SELECT * ... ORDER BY id DESC` returns them newest first. `id` projects a
 * row onto its primary key.
 */
module RoomTable {

  /** Ids strictly increase along `s`: the order in which an auto-generating table hands them out. */
  predicate Ascending<T>(s: seq<T>, id: T -> int)
  {
    forall i, j :: 0 <= i < j < |s| ==> id(s[i]) < id(s[j])
  }

  /** Ids strictly decrease along `s`: what `ORDER BY id DESC` yields over unique ids. */
  predicate Descending<T>(s: seq<T>, id: T -> int)
  {
    forall i, j :: 0 <= i < j < |s| ==> id(s[i]) > id(s[j])
  }

  function Reverse<T>(s: seq<T>): (r: seq<T>)
    ensures |r| == |s|
    ensures forall i :: 0 <= i < |s| ==> r[i] == s[|s| - 1 - i]
  {
    if s == [] then [] else Reverse(s[1..]) + [s[0]]
  }

  /** Reading the insertion-ordered rows backwards lists them newest first, and loses or repeats none. */
  lemma {:induction false} ReverseIsNewestFirst<T>(s: seq<T>, id: T -> int)
    requires Ascending(s, id)
    ensures Descending(Reverse(s), id)
    ensures multiset(Reverse(s)) == multiset(s)
  {
    if s != [] {
      ReverseIsNewestFirst(s[1..], id);
      assert s == [s[0]] + s[1..];
    }
  }

  /**
   * `ORDER BY id DESC` has exactly one answer: two id-descending listings of
   * the same rows are equal.
   */
  lemma {:induction false} DescendingUnique<T>(a: seq<T>, b: seq<T>, id: T -> int)
    requires Descending(a, id) && Descending(b, id)
    requires multiset(a) == multiset(b)
    ensures a == b
    decreases |a|
  {
    if a != [] {
      assert a[0] in multiset(b);
      HeadIsGreatest(a, b, id);
      NewestIsHead(b, id, a[0]);
      SameTails(a, b);
      DescendingTail(a, id);
      DescendingTail(b, id);
      DescendingUnique(a[1..], b[1..], id);
      assert a == [a[0]] + a[1..] && b == [b[0]] + b[1..];
    } else {
      assert |b| == |multiset(b)| == 0;
    }
  }

  /** Two listings of the same rows that start with the same row list the same rows after it. */
  lemma SameTails<T>(a: seq<T>, b: seq<T>)
    requires a != [] && b != [] && a[0] == b[0]
    requires multiset(a) == multiset(b)
    ensures multiset(a[1..]) == multiset(b[1..])
  {
    assert a == [a[0]] + a[1..] && b == [b[0]] + b[1..];
    calc {
      multiset(a[1..]);
      multiset(a) - multiset{a[0]};
      multiset(b) - multiset{b[0]};
      multiset(b[1..]);
    }
  }

  /** The head of an id-descending listing has a larger id than every other row of any listing of the same rows. */
  lemma HeadIsGreatest<T>(a: seq<T>, b: seq<T>, id: T -> int)
    requires Descending(a, id) && a != []
    requires multiset(a) == multiset(b)
    ensures forall x :: x in b && x != a[0] ==> id(x) < id(a[0])
  {
    forall x | x in b && x != a[0]
      ensures id(x) < id(a[0])
    {
      assert x in multiset(a);
      var j :| 0 <= j < |a| && a[j] == x;
    }
  }

  lemma DescendingTail<T>(s: seq<T>, id: T -> int)
    requires Descending(s, id) && s != []
    ensures Descending(s[1..], id)
  {
  }

  /** The head of an id-descending listing is the row whose id exceeds every other row's. */
  lemma {:induction false} NewestIsHead<T>(s: seq<T>, id: T -> int, newest: T)
    requires Descending(s, id)
    requires newest in s
    requires forall x :: x in s && x != newest ==> id(x) < id(newest)
    ensures s[0] == newest
  {
    var k :| 0 <= k < |s| && s[k] == newest;
  }
}
