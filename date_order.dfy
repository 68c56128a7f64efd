/**
 The order in which the daily series is sorted: `a.date.localeCompare(b.date)`
 (app/api/stats/route.ts:71). It is modelled as character-by-character
 lexicographic order, which is how the collator orders same-format `YYYY-MM-DD`
 keys.
 */
module DateOrder {

  /** `a` sorts no later than `b`: a prefix comes first, otherwise the first
      differing character decides. */
  predicate DateLeq(a: string, b: string): (r: bool)
    ensures |a| <= |b| && b[..|a|] == a ==> r
    ensures r && |a| > 0 ==> |b| > 0 && a[0] <= b[0]
  {
    |a| == 0 || (|b| > 0 && (a[0] < b[0] || (a[0] == b[0] && DateLeq(a[1..], b[1..]))))
  }

  /** `a` sorts strictly before `b`. */
  predicate DateLess(a: string, b: string)
  {
    DateLeq(a, b) && a != b
  }

  lemma {:induction false} DateLeqTotal(a: string, b: string)
    ensures DateLeq(a, b) || DateLeq(b, a)
  {
    if |a| > 0 && |b| > 0 && a[0] == b[0] {
      DateLeqTotal(a[1..], b[1..]);
    }
  }

  lemma {:induction false} DateLeqTransitive(a: string, b: string, c: string)
    requires DateLeq(a, b) && DateLeq(b, c)
    ensures DateLeq(a, c)
  {
    if |a| > 0 && a[0] == b[0] && b[0] == c[0] {
      DateLeqTransitive(a[1..], b[1..], c[1..]);
    }
  }

  lemma {:induction false} DateLeqAntisymmetric(a: string, b: string)
    requires DateLeq(a, b) && DateLeq(b, a)
    ensures a == b
  {
    if |a| > 0 {
      DateLeqAntisymmetric(a[1..], b[1..]);
      assert a == [a[0]] + a[1..] && b == [b[0]] + b[1..];
    }
  }
}
