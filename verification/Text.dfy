/**
 Byte-wise string order, as SQLite compares TEXT values and Go's sort.Strings compares
 names, and the decimal digits that timestamps and durations are printed with.
 */
module Text {
  /** Byte-wise (lexicographic) order: a proper prefix comes first. */
  predicate Less(a: string, b: string) {
    b != [] && (a == [] || a[0] < b[0] || (a[0] == b[0] && Less(a[1..], b[1..])))
  }

  lemma {:induction false} LessIsTotal(a: string, b: string)
    ensures Less(a, b) || a == b || Less(b, a)
    ensures !(Less(a, b) && Less(b, a))
    ensures !Less(a, a)
  {
    if a == [] {
    } else {
      LessIsTotal(a[1..], if b == [] then a[1..] else b[1..]);
      if b != [] && a[0] == b[0] {
        assert a == [a[0]] + a[1..] && b == [b[0]] + b[1..];
      }
    }
  }

  lemma {:induction false} LessIsTransitive(a: string, b: string, c: string)
    requires Less(a, b) && Less(b, c)
    ensures Less(a, c)
  {
    if a != [] && a[0] == b[0] && b[0] == c[0] {
      LessIsTransitive(a[1..], b[1..], c[1..]);
    }
  }

  /** A common prefix does not matter to the order. */
  lemma {:induction false} CommonPrefix(p: string, a: string, b: string)
    ensures Less(p + a, p + b) == Less(a, b)
  {
    if p == [] {
      assert p + a == a && p + b == b;
    } else {
      assert (p + a)[1..] == p[1..] + a && (p + b)[1..] == p[1..] + b;
      CommonPrefix(p[1..], a, b);
    }
  }

  /** Two different texts of one length decide the order, whatever follows them. */
  lemma {:induction false} FixedWidth(a: string, x: string, b: string, y: string)
    requires |a| == |b|
    requires Less(a, b)
    ensures Less(a + x, b + y)
  {
    if a[0] == b[0] {
      FixedWidth(a[1..], x, b[1..], y);
      assert (a + x)[1..] == a[1..] + x && (b + y)[1..] == b[1..] + y;
    }
  }

  /** Fixed-width fields compare like the tuple of their values: first field, then the rest. */
  lemma FieldThenRest(a: string, x: string, b: string, y: string)
    requires |a| == |b|
    requires Less(a, b) || (a == b && Less(x, y))
    ensures Less(a + x, b + y)
  {
    if Less(a, b) {
      FixedWidth(a, x, b, y);
    } else {
      CommonPrefix(a, x, y);
    }
  }

  function Digit(d: int): (c: char)
    requires 0 <= d < 10
    ensures '0' <= c <= '9' && DigitValue(c) == d
  {
    ['0', '1', '2', '3', '4', '5', '6', '7', '8', '9'][d]
  }

  predicate IsDigit(c: char) {
    '0' <= c <= '9'
  }

  function DigitValue(c: char): int {
    c as int - '0' as int
  }

  predicate AllDigits(s: string) {
    forall i | 0 <= i < |s| :: IsDigit(s[i])
  }

  /** The last `width` decimal digits of n, zero-padded. */
  function Pad(n: nat, width: nat): (s: string)
    ensures |s| == width && AllDigits(s)
  {
    if width == 0 then [] else Pad(n / 10, width - 1) + [Digit(n % 10)]
  }

  /** The decimal digits of n, without padding. */
  function Decimal(n: nat): (s: string)
    ensures s != [] && AllDigits(s)
  {
    if n < 10 then [Digit(n)] else Decimal(n / 10) + [Digit(n % 10)]
  }

  /** The number a text of digits denotes; the empty text denotes 0. */
  function Number(s: string): (n: nat)
    requires AllDigits(s)
  {
    if s == [] then 0 else 10 * Number(s[..|s| - 1]) + DigitValue(s[|s| - 1])
  }

  function Pow10(k: nat): (p: nat)
    ensures p > 0
  {
    if k == 0 then 1 else 10 * Pow10(k - 1)
  }

  lemma {:induction false} NumberOfPad(n: nat, width: nat)
    requires n < Pow10(width)
    ensures Number(Pad(n, width)) == n
  {
    if width == 0 {
    } else {
      NumberOfPad(n / 10, width - 1);
      assert Pad(n, width)[..width - 1] == Pad(n / 10, width - 1);
    }
  }

  lemma {:induction false} NumberOfDecimal(n: nat)
    ensures Number(Decimal(n)) == n
  {
    var s := Decimal(n);
    if n < 10 {
      assert s[..|s| - 1] == [];
    } else {
      NumberOfDecimal(n / 10);
      assert s[..|s| - 1] == Decimal(n / 10);
    }
  }

  /** Padded numbers are ordered byte-wise as they are numerically. */
  lemma {:induction false} PadOrder(m: nat, n: nat, width: nat)
    requires m < n < Pow10(width)
    ensures Less(Pad(m, width), Pad(n, width))
  {
    if width == 0 {
    } else {
      var p, q := Pad(m / 10, width - 1), Pad(n / 10, width - 1);
      if m / 10 < n / 10 {
        PadOrder(m / 10, n / 10, width - 1);
      } else {
        assert m / 10 == n / 10 && m % 10 < n % 10;
      }
      assert Less([Digit(m % 10)], [Digit(n % 10)]) || m / 10 < n / 10;
      FieldThenRest(p, [Digit(m % 10)], q, [Digit(n % 10)]);
    }
  }
}
