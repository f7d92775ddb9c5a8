/**
 * JavaScript's `<` on strings, and why it orders `YYYY-MM-DD` date strings
 * chronologically: the dashboard decides that a vaccination is overdue by
 * comparing two such strings.
 */
module IsoDates {

  /**
   * `a < b` on JavaScript strings: at the first position where they differ
   * the character of `a` is smaller, or `a` is a proper prefix of `b`.
   * JavaScript compares UTF-16 code units, Dafny characters are Unicode
   * scalar values; the two orders agree on every character below U+D800,
   * which includes the ASCII text of a date.
   */
  predicate LexLess(a: string, b: string) {
    if b == [] then false
    else if a == [] then true
    else a[0] < b[0] || (a[0] == b[0] && LexLess(a[1..], b[1..]))
  }

  lemma {:induction false} LexLessIrreflexive(a: string)
    ensures !LexLess(a, a)
  {
    if a != [] {
      LexLessIrreflexive(a[1..]);
    }
  }

  lemma {:induction false} LexLessTransitive(a: string, b: string, c: string)
    requires LexLess(a, b) && LexLess(b, c)
    ensures LexLess(a, c)
  {
    if a != [] && a[0] == b[0] && b[0] == c[0] {
      LexLessTransitive(a[1..], b[1..], c[1..]);
    }
  }

  lemma {:induction false} LexLessTotal(a: string, b: string)
    ensures a == b || LexLess(a, b) || LexLess(b, a)
  {
    if a != [] && b != [] && a[0] == b[0] {
      LexLessTotal(a[1..], b[1..]);
      if a[1..] == b[1..] {
        assert a == [a[0]] + a[1..] && b == [b[0]] + b[1..];
      }
    }
  }

  /** Comparing two strings whose first parts have equal length: the first parts decide, then the rest. */
  lemma {:induction false} LexLessConcat(a1: string, a2: string, b1: string, b2: string)
    requires |a1| == |b1|
    ensures LexLess(a1 + a2, b1 + b2) <==> LexLess(a1, b1) || (a1 == b1 && LexLess(a2, b2))
  {
    if a1 == [] {
      assert a1 + a2 == a2 && b1 + b2 == b2;
    } else {
      assert (a1 + a2)[0] == a1[0] && (b1 + b2)[0] == b1[0];
      assert (a1 + a2)[1..] == a1[1..] + a2 && (b1 + b2)[1..] == b1[1..] + b2;
      LexLessConcat(a1[1..], a2, b1[1..], b2);
      assert a1 == b1 <==> a1[0] == b1[0] && a1[1..] == b1[1..] by {
        assert a1 == [a1[0]] + a1[1..] && b1 == [b1[0]] + b1[1..];
      }
    }
  }

  function Pow10(w: nat): (p: nat)
    ensures p >= 1
  {
    if w == 0 then 1 else 10 * Pow10(w - 1)
  }

  function DigitChar(k: nat): char
    requires k < 10
  {
    ('0' as int + k) as char
  }

  /** The `w`-digit zero-padded decimal text of `n`. */
  function Digits(n: nat, w: nat): (s: string)
    ensures |s| == w
  {
    if w == 0 then [] else Digits(n / 10, w - 1) + [DigitChar(n % 10)]
  }

  /** Fixed-width decimal texts compare as their numbers do. */
  lemma {:induction false} DigitsOrder(n1: nat, n2: nat, w: nat)
    requires n1 < Pow10(w) && n2 < Pow10(w)
    ensures LexLess(Digits(n1, w), Digits(n2, w)) <==> n1 < n2
    ensures Digits(n1, w) == Digits(n2, w) <==> n1 == n2
  {
    if w == 0 {
      assert n1 == 0 && n2 == 0;
    } else {
      var q1, q2 := n1 / 10, n2 / 10;
      assert q1 < Pow10(w - 1) && q2 < Pow10(w - 1);
      DigitsOrder(q1, q2, w - 1);
      var c1, c2 := DigitChar(n1 % 10), DigitChar(n2 % 10);
      LexLessConcat(Digits(q1, w - 1), [c1], Digits(q2, w - 1), [c2]);
      assert LexLess([c1], [c2]) <==> n1 % 10 < n2 % 10;
      var s1, s2 := Digits(n1, w), Digits(n2, w);
      assert s1 == s2 <==> Digits(q1, w - 1) == Digits(q2, w - 1) && c1 == c2 by {
        if s1 == s2 {
          assert s1[..w - 1] == Digits(q1, w - 1) && s2[..w - 1] == Digits(q2, w - 1);
          assert s1[w - 1] == c1 && s2[w - 1] == c2;
        }
      }
    }
  }

  /** A calendar date as its components; the ISO text needs four-digit years and two-digit months and days. */
  datatype Date = Date(year: nat, month: nat, day: nat)

  predicate Printable(d: Date) {
    d.year < 10000 && d.month < 100 && d.day < 100
  }

  /** Strictly earlier in the calendar. */
  predicate Before(d1: Date, d2: Date) {
    d1.year < d2.year || (d1.year == d2.year && (d1.month < d2.month || (d1.month == d2.month && d1.day < d2.day)))
  }

  /** `YYYY-MM-DD`, the date part of `toISOString()`. */
  function IsoDate(d: Date): (s: string)
    requires Printable(d)
    ensures |s| == 10 && s[4] == '-' && s[7] == '-'
  {
    Digits(d.year, 4) + "-" + Digits(d.month, 2) + "-" + Digits(d.day, 2)
  }

  /** Comparing ISO date strings with `<` is comparing the dates. */
  lemma IsoDateOrder(d1: Date, d2: Date)
    requires Printable(d1) && Printable(d2)
    ensures LexLess(IsoDate(d1), IsoDate(d2)) <==> Before(d1, d2)
  {
    var y1, y2 := Digits(d1.year, 4), Digits(d2.year, 4);
    var m1, m2 := Digits(d1.month, 2), Digits(d2.month, 2);
    var a1, a2 := Digits(d1.day, 2), Digits(d2.day, 2);
    DigitsOrder(d1.year, d2.year, 4);
    DigitsOrder(d1.month, d2.month, 2);
    DigitsOrder(d1.day, d2.day, 2);
    assert IsoDate(d1) == y1 + ("-" + m1 + "-" + a1);
    assert IsoDate(d2) == y2 + ("-" + m2 + "-" + a2);
    LexLessConcat(y1, "-" + m1 + "-" + a1, y2, "-" + m2 + "-" + a2);
    LexLessIrreflexive("-");
    LexLessConcat("-", m1 + "-" + a1, "-", m2 + "-" + a2);
    assert "-" + m1 + "-" + a1 == "-" + (m1 + "-" + a1);
    assert "-" + m2 + "-" + a2 == "-" + (m2 + "-" + a2);
    LexLessConcat(m1, "-" + a1, m2, "-" + a2);
    assert m1 + "-" + a1 == m1 + ("-" + a1);
    assert m2 + "-" + a2 == m2 + ("-" + a2);
    LexLessConcat("-", a1, "-", a2);
  }
}
