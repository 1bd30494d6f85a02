/**
 * Ordering mood entries by date. The application sorts entry arrays with the
 * built-in stable sort and a date comparator, newest first in the local store and
 * oldest first on the insights screen; `Sort` models that sort as a stable
 * insertion sort, and `IndexOfDate` models `findIndex` on the date.
 */
module EntryOrder {
  import opened Dates
  import opened Types

  /** `a` may stand before `b`: newest first, or oldest first. */
  predicate InOrder(a: MoodEntry, b: MoodEntry, newestFirst: bool) {
    if newestFirst then !Before(a.date, b.date) else !Before(b.date, a.date)
  }

  predicate Sorted(s: seq<MoodEntry>, newestFirst: bool) {
    forall i, j :: 0 <= i < j < |s| ==> InOrder(s[i], s[j], newestFirst)
  }

  lemma InOrderTotal(a: MoodEntry, b: MoodEntry, newestFirst: bool)
    ensures InOrder(a, b, newestFirst) || InOrder(b, a, newestFirst)
  {
    BeforeAsymmetric(a.date, b.date);
  }

  lemma InOrderTransitive(a: MoodEntry, b: MoodEntry, c: MoodEntry, newestFirst: bool)
    requires InOrder(a, b, newestFirst) && InOrder(b, c, newestFirst)
    ensures InOrder(a, c, newestFirst)
  {
    BeforeIsStrictTotalOrder(a.date, b.date);
    BeforeIsStrictTotalOrder(b.date, c.date);
    BeforeIsStrictTotalOrder(a.date, c.date);
    if newestFirst {
      if Before(a.date, c.date) {
        if Before(c.date, b.date) { BeforeTransitive(a.date, c.date, b.date); }
      }
    } else {
      if Before(c.date, a.date) {
        if Before(b.date, c.date) { BeforeTransitive(b.date, c.date, a.date); }
      }
    }
  }

  /** Inserts `x` before the first element it may precede; equal dates keep `x` first. */
  function Insert(x: MoodEntry, t: seq<MoodEntry>, newestFirst: bool): (r: seq<MoodEntry>)
    ensures multiset(r) == multiset(t) + multiset{x}
    ensures |r| == |t| + 1
  {
    if t == [] then [x]
    else if InOrder(x, t[0], newestFirst) then [x] + t
    else
      assert t == [t[0]] + t[1..];
      [t[0]] + Insert(x, t[1..], newestFirst)
  }

  /** An element that may precede every element of an ordered list can be put in front of it. */
  lemma PrependSorted(y: MoodEntry, r: seq<MoodEntry>, newestFirst: bool)
    requires Sorted(r, newestFirst)
    requires forall k :: 0 <= k < |r| ==> InOrder(y, r[k], newestFirst)
    ensures Sorted([y] + r, newestFirst)
  {
    var q := [y] + r;
    forall i, j | 0 <= i < j < |q|
      ensures InOrder(q[i], q[j], newestFirst)
    {
      if i == 0 { assert q[j] == r[j - 1]; }
      else { assert q[i] == r[i - 1] && q[j] == r[j - 1]; }
    }
  }

  /** Precedes the head of an ordered list, so precedes all of it. */
  lemma PrecedesHead(x: MoodEntry, t: seq<MoodEntry>, newestFirst: bool)
    requires Sorted(t, newestFirst) && t != [] && InOrder(x, t[0], newestFirst)
    ensures forall k :: 0 <= k < |t| ==> InOrder(x, t[k], newestFirst)
  {
    forall k | 0 < k < |t| ensures InOrder(x, t[k], newestFirst) {
      InOrderTransitive(x, t[0], t[k], newestFirst);
    }
  }

  lemma {:induction false} InsertSorted(x: MoodEntry, t: seq<MoodEntry>, newestFirst: bool)
    requires Sorted(t, newestFirst)
    ensures Sorted(Insert(x, t, newestFirst), newestFirst)
  {
    if t == [] {
    } else if InOrder(x, t[0], newestFirst) {
      PrecedesHead(x, t, newestFirst);
      PrependSorted(x, t, newestFirst);
    } else {
      var rest := Insert(x, t[1..], newestFirst);
      InsertSorted(x, t[1..], newestFirst);
      InOrderTotal(x, t[0], newestFirst);
      forall k | 0 <= k < |rest|
        ensures InOrder(t[0], rest[k], newestFirst)
      {
        assert rest[k] in multiset(rest);
        if rest[k] != x {
          assert rest[k] in multiset(t[1..]);
          var j :| 0 <= j < |t[1..]| && t[1..][j] == rest[k];
          assert t[1 + j] == rest[k];
        }
      }
      PrependSorted(t[0], rest, newestFirst);
    }
  }

  /** The stable date sort: the result is ordered and a permutation of the input. */
  function Sort(s: seq<MoodEntry>, newestFirst: bool): (r: seq<MoodEntry>)
    ensures Sorted(r, newestFirst)
    ensures multiset(r) == multiset(s)
    ensures |r| == |s|
  {
    if s == [] then []
    else
      var rest := Sort(s[1..], newestFirst);
      InsertSorted(s[0], rest, newestFirst);
      assert s == [s[0]] + s[1..];
      Insert(s[0], rest, newestFirst)
  }

  /** One step of the sort: the head is inserted into the sorted tail. */
  lemma SortStep(s: seq<MoodEntry>, newestFirst: bool)
    requires s != []
    ensures Sort(s, newestFirst) == Insert(s[0], Sort(s[1..], newestFirst), newestFirst)
  {
  }

  /** An element that may precede the head of a list is inserted in front of it. */
  lemma InsertAtFront(x: MoodEntry, t: seq<MoodEntry>, newestFirst: bool)
    requires t == [] || InOrder(x, t[0], newestFirst)
    ensures Insert(x, t, newestFirst) == [x] + t
  {
  }

  /** The tail of an ordered list is ordered, and its head may follow the list's head. */
  lemma SortedTail(s: seq<MoodEntry>, newestFirst: bool)
    requires Sorted(s, newestFirst) && s != []
    ensures Sorted(s[1..], newestFirst)
    ensures s[1..] == [] || InOrder(s[0], s[1..][0], newestFirst)
  {
    if |s| > 1 { assert s[1..][0] == s[1]; }
  }

  /** Sorting an already ordered list leaves it as it is. */
  lemma {:induction false} SortOfSorted(s: seq<MoodEntry>, newestFirst: bool)
    requires Sorted(s, newestFirst)
    ensures Sort(s, newestFirst) == s
  {
    if s != [] {
      SortedTail(s, newestFirst);
      SortOfSorted(s[1..], newestFirst);
      SortStep(s, newestFirst);
      InsertAtFront(s[0], s[1..], newestFirst);
      assert s == [s[0]] + s[1..];
    }
  }

  /** `findIndex` on the date: the first position holding date `d`, or -1. */
  function IndexOfDate(s: seq<MoodEntry>, d: Date): (i: int)
    ensures -1 <= i < |s|
    ensures 0 <= i ==> s[i].date == d && forall k :: 0 <= k < i ==> s[k].date != d
    ensures i < 0 ==> forall k :: 0 <= k < |s| ==> s[k].date != d
  {
    if s == [] then -1
    else if s[0].date == d then 0
    else
      var k := IndexOfDate(s[1..], d);
      if k < 0 then -1 else k + 1
  }
}
