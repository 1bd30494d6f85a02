/**
 * Calendar dates are `YYYY-MM-DD` strings. For strings of that shape chronological
 * order is lexicographic order, so every comparison of dates in the model is the
 * lexicographic order on strings defined here.
 */
module Dates {

  type Date = string

  /** `a` comes strictly before `b` in lexicographic order. */
  predicate Before(a: string, b: string)
    decreases |a|
  {
    if |a| == 0 then |b| > 0
    else if |b| == 0 then false
    else if a[0] == b[0] then Before(a[1..], b[1..])
    else a[0] < b[0]
  }

  lemma {:induction false} BeforeIrreflexive(a: string)
    ensures !Before(a, a)
    decreases |a|
  {
    if |a| > 0 { BeforeIrreflexive(a[1..]); }
  }

  lemma {:induction false} BeforeAsymmetric(a: string, b: string)
    ensures !(Before(a, b) && Before(b, a))
    decreases |a|
  {
    if |a| > 0 && |b| > 0 && a[0] == b[0] { BeforeAsymmetric(a[1..], b[1..]); }
  }

  lemma {:induction false} BeforeTransitive(a: string, b: string, c: string)
    requires Before(a, b) && Before(b, c)
    ensures Before(a, c)
    decreases |a|
  {
    if |a| > 0 && a[0] == b[0] && b[0] == c[0] {
      BeforeTransitive(a[1..], b[1..], c[1..]);
    }
  }

  lemma {:induction false} BeforeTotal(a: string, b: string)
    ensures a == b || Before(a, b) || Before(b, a)
    decreases |a|
  {
    if |a| > 0 && |b| > 0 && a[0] == b[0] {
      BeforeTotal(a[1..], b[1..]);
      if a[1..] == b[1..] {
        assert a == [a[0]] + a[1..] && b == [b[0]] + b[1..];
      }
    }
  }

  /** Two different dates are always ordered one way or the other, and never both. */
  lemma {:induction false} BeforeIsStrictTotalOrder(a: string, b: string)
    ensures a != b <==> (Before(a, b) || Before(b, a))
    ensures !(Before(a, b) && Before(b, a))
  {
    BeforeTotal(a, b);
    BeforeAsymmetric(a, b);
    if a == b { BeforeIrreflexive(a); }
  }
}
