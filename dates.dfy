/**
 * Sale dates as they reach the aggregation step: the `sale_date` column is
 * read back from CSV as text, so dates are strings and the group-by sorts
 * them with the string order, i.e. lexicographically by character code,
 * with a proper prefix ordered first.  For ISO dates (`YYYY-MM-DD`) this is
 * the chronological order.
 */
module DateOrder {

  type Date = string

  /** Strict lexicographic order on strings. */
  predicate Less(a: Date, b: Date)
  {
    if |a| == 0 then |b| > 0
    else if |b| == 0 then false
    else a[0] < b[0] || (a[0] == b[0] && Less(a[1..], b[1..]))
  }

  lemma {:induction false} LessIrreflexive(a: Date)
    ensures !Less(a, a)
  {
    if |a| > 0 {
      LessIrreflexive(a[1..]);
    }
  }

  lemma {:induction false} LessAsymmetric(a: Date, b: Date)
    requires Less(a, b)
    ensures !Less(b, a)
  {
    if |a| > 0 && |b| > 0 && a[0] == b[0] {
      LessAsymmetric(a[1..], b[1..]);
    }
  }

  lemma {:induction false} LessTransitive(a: Date, b: Date, c: Date)
    requires Less(a, b) && Less(b, c)
    ensures Less(a, c)
  {
    if |a| > 0 && a[0] == b[0] && b[0] == c[0] {
      LessTransitive(a[1..], b[1..], c[1..]);
    }
  }

  /** A shared prefix does not change how two dates compare. */
  lemma {:induction false} LessCommonPrefix(p: Date, a: Date, b: Date)
    ensures Less(p + a, p + b) == Less(a, b)
  {
    if |p| == 0 {
      assert p + a == a && p + b == b;
    } else {
      assert (p + a)[0] == p[0] == (p + b)[0];
      assert (p + a)[1..] == p[1..] + a && (p + b)[1..] == p[1..] + b;
      LessCommonPrefix(p[1..], a, b);
    }
  }

  /** Any two different dates are ordered one way or the other. */
  lemma {:induction false} LessTotal(a: Date, b: Date)
    requires a != b
    ensures Less(a, b) || Less(b, a)
  {
    if |a| > 0 && |b| > 0 && a[0] == b[0] {
      assert a == [a[0]] + a[1..] && b == [b[0]] + b[1..];
      LessTotal(a[1..], b[1..]);
    }
  }
}
