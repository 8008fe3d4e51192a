/** Calendar dates written as `YYYY-MM-DD` (what `toISOString().slice(0, 10)`
    and `<input type="date">` produce), and why comparing two of them as
    strings compares them as dates. */
module IsoDates {
  import opened JsText

  predicate IsDigit(c: char) {
    '0' <= c <= '9'
  }

  predicate AllDigits(s: string) {
    forall i :: 0 <= i < |s| ==> IsDigit(s[i])
  }

  function DigitValue(c: char): nat
    requires IsDigit(c)
  {
    c as int - '0' as int
  }

  /** The decimal value of a string of digits. */
  function DecimalValue(s: string): nat
    requires AllDigits(s)
    decreases |s|
  {
    if s == [] then 0 else 10 * DecimalValue(s[..|s| - 1]) + DigitValue(s[|s| - 1])
  }

  /** `s` is a zero-padded `YYYY-MM-DD` date. */
  predicate IsIsoDate(s: string) {
    |s| == 10 && s[4] == '-' && s[7] == '-'
    && AllDigits(s[..4]) && AllDigits(s[5..7]) && AllDigits(s[8..])
  }

  function Year(s: string): nat
    requires IsIsoDate(s)
  {
    DecimalValue(s[..4])
  }

  function Month(s: string): nat
    requires IsIsoDate(s)
  {
    DecimalValue(s[5..7])
  }

  function Day(s: string): nat
    requires IsIsoDate(s)
  {
    DecimalValue(s[8..])
  }

  /** Date `a` lies strictly before date `b` on the calendar. */
  predicate DateBefore(a: string, b: string)
    requires IsIsoDate(a) && IsIsoDate(b)
  {
    Year(a) < Year(b)
    || (Year(a) == Year(b) && (Month(a) < Month(b) || (Month(a) == Month(b) && Day(a) < Day(b))))
  }

  /** Comparing two strings whose first parts have the same length: the first
      parts decide unless they are equal. */
  lemma {:induction false} StrLessConcat(a1: string, a2: string, b1: string, b2: string)
    requires |a1| == |b1|
    ensures StrLess(a1 + a2, b1 + b2) <==> StrLess(a1, b1) || (a1 == b1 && StrLess(a2, b2))
    decreases |a1|
  {
    if a1 != [] {
      assert (a1 + a2)[0] == a1[0] && (b1 + b2)[0] == b1[0];
      assert (a1 + a2)[1..] == a1[1..] + a2 && (b1 + b2)[1..] == b1[1..] + b2;
      StrLessConcat(a1[1..], a2, b1[1..], b2);
      if a1[0] == b1[0] {
        assert a1 == b1 <==> a1[1..] == b1[1..];
      }
    } else {
      assert a1 + a2 == a2 && b1 + b2 == b2;
    }
  }

  /** For digit strings of one length, string order is numeric order and
      string equality is numeric equality. */
  lemma {:induction false} DigitStringOrder(a: string, b: string)
    requires |a| == |b| && AllDigits(a) && AllDigits(b)
    ensures StrLess(a, b) <==> DecimalValue(a) < DecimalValue(b)
    ensures a == b <==> DecimalValue(a) == DecimalValue(b)
    decreases |a|
  {
    if a != [] {
      var n := |a| - 1;
      var ia, ib := a[..n], b[..n];
      DigitStringOrder(ia, ib);
      assert a == ia + [a[n]] && b == ib + [b[n]];
      StrLessConcat(ia, [a[n]], ib, [b[n]]);
      assert StrLess([a[n]], [b[n]]) <==> a[n] < b[n];
      assert a == b <==> ia == ib && a[n] == b[n];
    }
  }

  /** Two ISO dates compare as strings exactly as they compare on the
      calendar. */
  lemma IsoStringOrderIsDateOrder(a: string, b: string)
    requires IsIsoDate(a) && IsIsoDate(b)
    ensures StrLess(a, b) <==> DateBefore(a, b)
  {
    DigitStringOrder(a[..4], b[..4]);
    DigitStringOrder(a[5..7], b[5..7]);
    DigitStringOrder(a[8..], b[8..]);
    assert a == a[..4] + a[4..] && b == b[..4] + b[4..];
    StrLessConcat(a[..4], a[4..], b[..4], b[4..]);
    // the dashes at index 4 agree, so the comparison moves on to the month
    assert StrLess(a[4..], b[4..]) <==> StrLess(a[5..], b[5..]) by {
      assert a[4..][1..] == a[5..] && b[4..][1..] == b[5..];
    }
    assert a[5..] == a[5..7] + a[7..] && b[5..] == b[5..7] + b[7..];
    StrLessConcat(a[5..7], a[7..], b[5..7], b[7..]);
    assert StrLess(a[7..], b[7..]) <==> StrLess(a[8..], b[8..]) by {
      assert a[7..][1..] == a[8..] && b[7..][1..] == b[8..];
    }
  }
}
