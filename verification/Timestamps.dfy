/**
 Timestamps as text: the RFC 3339 form the SQLite store writes, its parser, and how the
 byte-wise order of the texts relates to the order of the instants.
 */
module Timestamps {
  import opened Types
  import opened Arithmetic
  import opened Text
  import opened Calendar

  const SECONDS_PER_DAY := 86400
  const FRACTION_DIGITS := 9

  /** The fields of an instant in UTC; Dafny's / and % round towards minus infinity for these divisors. */
  function Seconds(t: Time): int { t / SECOND }

  function Nanos(t: Time): nat { t % SECOND }

  /** Years 0 to 9999, the ones RFC 3339 can write. */
  predicate InRange(t: Time) {
    0 <= YearOf(Seconds(t) / SECONDS_PER_DAY) <= 9999
  }

  lemma YearsInRange(t: Time)
    requires InRange(t)
    ensures 0 <= YearOf(Seconds(t) / SECONDS_PER_DAY) <= 9999
  {
  }

  /** Go's appendInt(year, 4): at least four digits, with a sign for a negative year. */
  function YearText(year: int): string {
    if 0 <= year <= 9999 then Pad(year, 4)
    else if year > 9999 then Decimal(year)
    else if year >= -9999 then "-" + Pad(-year, 4)
    else "-" + Decimal(-year)
  }

  function DateText(date: Date): string
    requires 1 <= date.month <= 12 && 1 <= date.day <= 31
  {
    YearText(date.year) + ("-" + (Pad(date.month, 2) + ("-" + Pad(date.day, 2))))
  }

  function TimeText(secondOfDay: nat): string
    requires secondOfDay < SECONDS_PER_DAY
  {
    Pad(secondOfDay / 3600, 2) + (":" + (Pad(secondOfDay / 60 % 60, 2) + (":" + Pad(secondOfDay % 60, 2))))
  }

  /** Date and time of day to the second, without a zone. */
  function Stamp(seconds: int): string {
    DateText(DateOf(seconds / SECONDS_PER_DAY)) + ("T" + TimeText(seconds % SECONDS_PER_DAY))
  }

  predicate AllZero(s: string) {
    forall i | 0 <= i < |s| :: s[i] == '0'
  }

  /** The text without its trailing zeros. */
  function Trim(s: string): (r: string)
    ensures r <= s
    ensures AllZero(s[|r|..])
    ensures r != [] ==> r[|r| - 1] != '0'
  {
    if AllZero(s) then []
    else
      assert s[1..] <= s[1..];
      [s[0]] + Trim(s[1..])
  }

  /** The optional fraction: a point and the digits up to the last non-zero one. */
  function Fraction(nanos: nat): string {
    var digits := Trim(Pad(nanos, FRACTION_DIGITS));
    if digits == [] then [] else "." + digits
  }

  /** The store's text for an instant: empty for the zero time, RFC 3339 with a trimmed fraction otherwise. */
  function FormatTS(t: Time): string {
    if t == ZERO_TIME then "" else Stamp(Seconds(t)) + (Fraction(Nanos(t)) + "Z")
  }

  /** RFC 3339 without a fraction, the form of the domain dedup key. */
  function FormatSeconds(t: Time): string {
    Stamp(Seconds(t)) + "Z"
  }

  /** The nine fraction digits a written fraction stands for: filled up with zeros, or cut. */
  function NineDigits(s: string): (r: string)
    requires AllDigits(s)
    ensures |r| == FRACTION_DIGITS && AllDigits(r)
  {
    if |s| >= FRACTION_DIGITS then s[..FRACTION_DIGITS]
    else s + seq(FRACTION_DIGITS - |s|, _ => '0')
  }

  predicate WellFormedFraction(s: string) {
    s == "Z" || (|s| >= 3 && s[0] == '.' && s[|s| - 1] == 'Z' && AllDigits(s[1..|s| - 1]))
  }

  predicate WellFormedStamp(s: string) {
    && |s| == 19
    && s[4] == '-' && s[7] == '-' && s[10] == 'T' && s[13] == ':' && s[16] == ':'
    && AllDigits(s[0..4]) && AllDigits(s[5..7]) && AllDigits(s[8..10])
    && AllDigits(s[11..13]) && AllDigits(s[14..16]) && AllDigits(s[17..19])
    && var year, month, day := Number(s[0..4]), Number(s[5..7]), Number(s[8..10]);
    && 1 <= month <= 12 && 1 <= day <= DaysIn(month, IsLeap(year))
    && Number(s[11..13]) < 24 && Number(s[14..16]) < 60 && Number(s[17..19]) < 60
  }

  /** The instant a UTC text denotes, or None where time.Parse returns an error. */
  function ParseInstant(s: string): Option<Time> {
    if |s| < 20 || !WellFormedStamp(s[..19]) || !WellFormedFraction(s[19..]) then None
    else
      var date := Date(Number(s[0..4]), Number(s[..19][5..7]), Number(s[..19][8..10]));
      var second := 3600 * Number(s[..19][11..13]) + 60 * Number(s[..19][14..16]) + Number(s[..19][17..19]);
      var rest := s[19..];
      var nanos := if rest == "Z" then 0 else Number(NineDigits(rest[1..|rest| - 1]));
      Some((DaysOf(date) * SECONDS_PER_DAY + second) * SECOND + nanos)
  }

  /** Reading a stored text back; what does not parse reads as the zero time. */
  function ParseTS(s: string): Time {
    if s == "" then ZERO_TIME
    else match ParseInstant(s)
      case Some(t) => t
      case None => ZERO_TIME
  }

  // ---- round trip ----

  /** Where the fields of a stamp stand. */
  lemma StampLayout(year: string, month: string, day: string, hour: string, minute: string, second: string)
    requires |year| == 4 && |month| == |day| == |hour| == |minute| == |second| == 2
    ensures var date, time := year + ("-" + (month + ("-" + day))), hour + (":" + (minute + (":" + second)));
      var s := date + ("T" + time);
      && |s| == 19
      && s[4] == '-' && s[7] == '-' && s[10] == 'T' && s[13] == ':' && s[16] == ':'
      && s[0..4] == year && s[5..7] == month && s[8..10] == day
      && s[11..13] == hour && s[14..16] == minute && s[17..19] == second
  {
    var date, time := year + ("-" + (month + ("-" + day))), hour + (":" + (minute + (":" + second)));
    var s := date + ("T" + time);
    assert s[..10] == date && s[11..] == time;
    assert s[0..4] == date[0..4] && s[5..7] == date[5..7] && s[8..10] == date[8..10];
    assert s[11..13] == time[0..2] && s[14..16] == time[3..5] && s[17..19] == time[6..8];
  }

  lemma StampFields(seconds: int)
    requires 0 <= YearOf(seconds / SECONDS_PER_DAY) <= 9999
    ensures var s, date, sod := Stamp(seconds), DateOf(seconds / SECONDS_PER_DAY), seconds % SECONDS_PER_DAY;
      && |s| == 19
      && s[4] == '-' && s[7] == '-' && s[10] == 'T' && s[13] == ':' && s[16] == ':'
      && s[0..4] == Pad(date.year, 4) && s[5..7] == Pad(date.month, 2) && s[8..10] == Pad(date.day, 2)
      && s[11..13] == Pad(sod / 3600, 2) && s[14..16] == Pad(sod / 60 % 60, 2) && s[17..19] == Pad(sod % 60, 2)
  {
    hide Pad, YearOf;
    var date, sod := DateOf(seconds / SECONDS_PER_DAY), seconds % SECONDS_PER_DAY;
    StampLayout(Pad(date.year, 4), Pad(date.month, 2), Pad(date.day, 2),
                Pad(sod / 3600, 2), Pad(sod / 60 % 60, 2), Pad(sod % 60, 2));
  }

  lemma NumberOfTwoDigits(n: nat)
    requires n < 100
    ensures Number(Pad(n, 2)) == n
  {
    TwoDigits();
    NumberOfPad(n, 2);
  }

  lemma ClockNumbers(second: nat)
    requires second < SECONDS_PER_DAY
    ensures var h, m, s := Number(Pad(second / 3600, 2)), Number(Pad(second / 60 % 60, 2)), Number(Pad(second % 60, 2));
            h < 24 && m < 60 && s < 60 && 3600 * h + 60 * m + s == second
  {
    NumberOfTwoDigits(second / 3600);
    NumberOfTwoDigits(second / 60 % 60);
    NumberOfTwoDigits(second % 60);
    Arithmetic.ClockFields(second);
  }

  lemma StampRoundTrip(seconds: int)
    requires 0 <= YearOf(seconds / SECONDS_PER_DAY) <= 9999
    ensures var s := Stamp(seconds);
      && WellFormedStamp(s)
      && var date := Date(Number(s[0..4]), Number(s[5..7]), Number(s[8..10]));
      && date == DateOf(seconds / SECONDS_PER_DAY)
      && 3600 * Number(s[11..13]) + 60 * Number(s[14..16]) + Number(s[17..19]) == seconds % SECONDS_PER_DAY
  {
    var date, sod := DateOf(seconds / SECONDS_PER_DAY), seconds % SECONDS_PER_DAY;
    StampFields(seconds);
    FourDigits();
    NumberOfPad(date.year, 4);
    NumberOfTwoDigits(date.month);
    NumberOfTwoDigits(date.day);
    ClockNumbers(sod);
  }

  lemma TwoDigits()
    ensures Pow10(2) == 100
  {
  }

  lemma FourDigits()
    ensures Pow10(4) == 10000
  {
  }

  lemma NineZeros()
    ensures Pow10(FRACTION_DIGITS) == SECOND
  {
  }

  lemma FractionRoundTrip(nanos: nat)
    requires nanos < SECOND
    ensures var rest := Fraction(nanos) + "Z";
      && WellFormedFraction(rest)
      && nanos == if rest == "Z" then 0 else Number(NineDigits(rest[1..|rest| - 1]))
  {
    var all := Pad(nanos, FRACTION_DIGITS);
    var digits := Trim(all);
    NineZeros();
    NumberOfPad(nanos, FRACTION_DIGITS);
    assert all == digits + all[|digits|..];
    if digits == [] {
      NumberOfZeros(all);
    } else {
      var rest := Fraction(nanos) + "Z";
      assert rest[1..|rest| - 1] == digits;
      assert NineDigits(digits) == all;
    }
  }

  lemma {:induction false} NumberOfZeros(s: string)
    requires AllZero(s)
    ensures Number(s) == 0
  {
    if s == [] {
    } else {
      NumberOfZeros(s[..|s| - 1]);
    }
  }

  /** Reading back a written timestamp gives the instant that was written, to the nanosecond. */
  lemma RoundTrip(t: Time)
    requires InRange(t)
    ensures ParseTS(FormatTS(t)) == t
  {
    hide Stamp, Fraction, DateOf, DaysOf, Number, NineDigits, WellFormedStamp, WellFormedFraction, InRange, YearOf;
    if t != ZERO_TIME {
      var seconds := Seconds(t);
      var stamp, rest := Stamp(seconds), Fraction(Nanos(t)) + "Z";
      assert 0 <= YearOf(seconds / SECONDS_PER_DAY) <= 9999 by { YearsInRange(t); }
      StampRoundTrip(seconds);
      StampFields(seconds);
      FractionRoundTrip(Nanos(t));
      DaysOfDateOf(seconds / SECONDS_PER_DAY);
      var s := stamp + rest;
      assert s[..19] == stamp && s[19..] == rest && |rest| > 0;
      assert s[0..4] == stamp[0..4];
      assert seconds / SECONDS_PER_DAY * SECONDS_PER_DAY + seconds % SECONDS_PER_DAY == seconds;
    }
  }

  /** Entries written to the second read back as the whole second. */
  lemma OlderEntries(t: Time)
    requires InRange(t)
    ensures ParseTS(FormatSeconds(t)) == t - Nanos(t)
  {
    hide Stamp, DateOf, DaysOf, Number, NineDigits, WellFormedStamp, InRange, YearOf;
    var seconds := Seconds(t);
    var stamp := Stamp(seconds);
    assert 0 <= YearOf(seconds / SECONDS_PER_DAY) <= 9999 by { YearsInRange(t); }
    StampRoundTrip(seconds);
    StampFields(seconds);
    DaysOfDateOf(seconds / SECONDS_PER_DAY);
    var s := stamp + "Z";
    assert s[..19] == stamp && s[19..] == "Z";
    assert s[0..4] == stamp[0..4];
    assert seconds / SECONDS_PER_DAY * SECONDS_PER_DAY + seconds % SECONDS_PER_DAY == seconds;
  }

  /** What a stored instant is read back as: years that RFC 3339 cannot write do not parse. */
  function ReadBack(t: Time): Time {
    if InRange(t) then t else ZERO_TIME
  }

  lemma {:induction false} DecimalLength(n: nat, k: nat)
    requires n >= Pow10(k)
    ensures |Decimal(n)| > k
  {
    if k == 0 {
    } else {
      DecimalLength(n / 10, k - 1);
    }
  }

  /**
   A year of five digits has a digit where the separator should be, a negative one its sign where a digit should
   be.
   */
  lemma UnreadableYear(year: int, rest: string)
    requires !(0 <= year <= 9999)
    ensures ParseInstant(YearText(year) + rest) == None
  {
    hide Pad, Decimal, Number;
    var y := YearText(year);
    var s := y + rest;
    if year > 9999 {
      FourDigits();
      DecimalLength(year, 4);
      assert s[4] == y[4] && IsDigit(y[4]);
    } else {
      assert y[0] == '-' && s[0] == '-';
      if |s| >= 20 {
        assert s[..19][0..4][0] == '-';
      }
    }
  }

  /** A written instant begins with its year. */
  lemma YearFirst(t: Time) returns (rest: string)
    requires t != ZERO_TIME
    ensures FormatTS(t) == YearText(YearOf(Seconds(t) / SECONDS_PER_DAY)) + rest
  {
    hide YearOf, Fraction, TimeText, Pad, YearText;
    var days, sod := Seconds(t) / SECONDS_PER_DAY, Seconds(t) % SECONDS_PER_DAY;
    var date, fraction := DateOf(days), Fraction(Nanos(t)) + "Z";
    hide DateOf;
    var md := "-" + (Pad(date.month, 2) + ("-" + Pad(date.day, 2)));
    var clock := "T" + TimeText(sod);
    rest := md + clock + fraction;
    assert YearText(date.year) + md + clock + fraction == YearText(date.year) + rest;
  }

  lemma UnreadableTime(t: Time)
    requires !InRange(t)
    ensures ParseTS(FormatTS(t)) == ZERO_TIME
  {
    hide YearOf, YearText, ParseInstant;
    if t == ZERO_TIME {
      hide InRange;
    } else {
      var rest := YearFirst(t);
      UnreadableYear(YearOf(Seconds(t) / SECONDS_PER_DAY), rest);
      hide FormatTS;
    }
  }

  lemma ReadBackIs(t: Time)
    ensures ReadBack(t) == if InRange(t) then t else ZERO_TIME
  {
  }

  /**
   Reading back what was written, for every instant: the same instant, or the zero time outside the years 0 to
   9999.
   */
  lemma RoundTripExactly(t: Time)
    ensures ParseTS(FormatTS(t)) == ReadBack(t)
  {
    hide *;
    if InRange(t) {
      RoundTrip(t);
    } else {
      UnreadableTime(t);
    }
    ReadBackIs(t);
  }

  // ---- order ----

  /** Two-digit fields behind a separator sort after what precedes them. */
  lemma NextField(m: nat, x: string, n: nat, y: string)
    requires m < 100 && n < 100
    requires m < n || (m == n && Less(x, y))
    ensures Less(Pad(m, 2) + x, Pad(n, 2) + y)
  {
    TwoDigits();
    if m < n {
      PadOrder(m, n, 2);
    }
    FieldThenRest(Pad(m, 2), x, Pad(n, 2), y);
  }

  /** Hours, then minutes, then seconds. */
  lemma ClockOrder(m: nat, n: nat)
    requires m < n
    ensures m / 3600 < n / 3600
            || (m / 3600 == n / 3600 && (m / 60 % 60 < n / 60 % 60 || (m / 60 % 60 == n / 60 % 60 && m % 60 < n % 60)))
  {
  }

  lemma TimeOrder(m: nat, n: nat)
    requires m < n < SECONDS_PER_DAY
    ensures Less(TimeText(m), TimeText(n))
  {
    var mh, mm, ms := m / 3600, m / 60 % 60, m % 60;
    var nh, nm, ns := n / 3600, n / 60 % 60, n % 60;
    ClockOrder(m, n);
    hide Pad, Less;
    var mSec, nSec := Pad(ms, 2), Pad(ns, 2);
    var mMin, nMin := Pad(mm, 2) + (":" + mSec), Pad(nm, 2) + (":" + nSec);
    if mh == nh {
      if mm == nm {
        NextField(ms, "", ns, "");
        assert mSec + "" == mSec && nSec + "" == nSec;
        CommonPrefix(":", mSec, nSec);
      }
      NextField(mm, ":" + mSec, nm, ":" + nSec);
      CommonPrefix(":", mMin, nMin);
    }
    NextField(mh, ":" + mMin, nh, ":" + nMin);
  }

  lemma DateTextOrder(a: Date, b: Date)
    requires 1 <= a.month <= 12 && 1 <= a.day <= 31 && 1 <= b.month <= 12 && 1 <= b.day <= 31
    requires 0 <= a.year <= 9999 && 0 <= b.year <= 9999
    requires Earlier(a, b)
    ensures Less(DateText(a), DateText(b))
  {
    var aDay, bDay := Pad(a.day, 2), Pad(b.day, 2);
    var aMonth, bMonth := Pad(a.month, 2) + ("-" + aDay), Pad(b.month, 2) + ("-" + bDay);
    if a.year < b.year {
      FourDigits();
      PadOrder(a.year, b.year, 4);
    } else {
      if a.month == b.month {
        NextField(a.day, "", b.day, "");
        assert aDay + "" == aDay && bDay + "" == bDay;
        CommonPrefix("-", aDay, bDay);
      }
      NextField(a.month, "-" + aDay, b.month, "-" + bDay);
      CommonPrefix("-", aMonth, bMonth);
    }
    FieldThenRest(YearText(a.year), "-" + aMonth, YearText(b.year), "-" + bMonth);
  }

  /** To the second, texts sort as instants do (RFC 3339 section 5.1). */
  lemma StampOrder(a: int, b: int)
    requires 0 <= YearOf(a / SECONDS_PER_DAY) <= 9999 && 0 <= YearOf(b / SECONDS_PER_DAY) <= 9999
    requires a < b
    ensures Less(Stamp(a), Stamp(b))
  {
    var p, q := DateOf(a / SECONDS_PER_DAY), DateOf(b / SECONDS_PER_DAY);
    var x, y := TimeText(a % SECONDS_PER_DAY), TimeText(b % SECONDS_PER_DAY);
    if a / SECONDS_PER_DAY < b / SECONDS_PER_DAY {
      DateOrder(a / SECONDS_PER_DAY, b / SECONDS_PER_DAY);
      DateTextOrder(p, q);
    } else {
      assert a / SECONDS_PER_DAY == b / SECONDS_PER_DAY;
      TimeOrder(a % SECONDS_PER_DAY, b % SECONDS_PER_DAY);
      CommonPrefix("T", x, y);
    }
    FieldThenRest(DateText(p), "T" + x, DateText(q), "T" + y);
  }

  /** Two expiries have one dedup key exactly when they fall in the same second. */
  lemma KeyIsTheSecond(a: Time, b: Time)
    requires InRange(a) && InRange(b)
    ensures FormatSeconds(a) == FormatSeconds(b) <==> Seconds(a) == Seconds(b)
  {
    hide Stamp;
    var p, q := Stamp(Seconds(a)), Stamp(Seconds(b));
    assert FormatSeconds(a)[..|p|] == p && FormatSeconds(b)[..|q|] == q;
    if Seconds(a) < Seconds(b) {
      StampOrder(Seconds(a), Seconds(b));
      LessIsTotal(p, q);
      SameLengthStamps(a, b);
    } else if Seconds(b) < Seconds(a) {
      StampOrder(Seconds(b), Seconds(a));
      LessIsTotal(p, q);
      SameLengthStamps(a, b);
    }
  }

  lemma SameLengthStamps(a: Time, b: Time)
    requires InRange(a) && InRange(b)
    ensures |Stamp(Seconds(a))| == |Stamp(Seconds(b))|
  {
    StampFields(Seconds(a));
    StampFields(Seconds(b));
  }

  /** The texts agree on the first j characters, and p has only zeros after them. */
  predicate SharedThenZero(p: string, q: string, j: int)
    requires |p| == |q| && 0 <= j <= |p|
  {
    p[..j] == q[..j] && AllZero(p[j..])
  }

  lemma {:induction false} ZerosAreLeast(p: string, q: string)
    requires |p| == |q| && AllDigits(p) && AllZero(q)
    ensures !Less(p, q)
  {
    if p == [] {
    } else {
      ZerosAreLeast(p[1..], q[1..]);
    }
  }

  lemma SharedTail(p: string, q: string, j: nat)
    requires |p| == |q| && 1 <= j <= |p| && p[0] == q[0]
    ensures SharedThenZero(p, q, j) <==> SharedThenZero(p[1..], q[1..], j - 1)
  {
  }

  ghost predicate ZeroFromSomePoint(p: string, q: string)
    requires |p| == |q|
  {
    exists j | 0 <= j < |p| :: SharedThenZero(p, q, j)
  }

  lemma ZeroFromSomePointStep(p: string, q: string)
    requires |p| == |q| && p != [] && !AllZero(p)
    ensures ZeroFromSomePoint(p, q) <==> p[0] == q[0] && ZeroFromSomePoint(p[1..], q[1..])
  {
    assert p[0..] == p;
    if ZeroFromSomePoint(p, q) {
      var j :| 0 <= j < |p| && SharedThenZero(p, q, j);
      assert j > 0;
      assert p[..j][0] == p[0] && q[..j][0] == q[0];
      SharedTail(p, q, j);
      assert SharedThenZero(p[1..], q[1..], j - 1);
    }
    if p[0] == q[0] && ZeroFromSomePoint(p[1..], q[1..]) {
      var j :| 0 <= j < |p| - 1 && SharedThenZero(p[1..], q[1..], j);
      SharedTail(p, q, j + 1);
      assert SharedThenZero(p, q, j + 1);
    }
  }

  /** Trimmed fractions with the zone letter behind them misorder exactly when one is a prefix of the other. */
  lemma {:induction false} TrimmedOrder(p: string, q: string)
    requires |p| == |q| && AllDigits(p) && AllDigits(q)
    requires Less(p, q)
    ensures Less(Trim(p) + "Z", Trim(q) + "Z") <==> !ZeroFromSomePoint(p, q)
  {
    if AllZero(q) {
      ZerosAreLeast(p, q);
    } else if AllZero(p) {
      assert p[..0] == q[..0] && p[0..] == p;
      assert SharedThenZero(p, q, 0);
      var g := Trim(q) + "Z";
      assert g[0] == q[0];
    } else {
      ZeroFromSomePointStep(p, q);
      TrimStep(p);
      TrimStep(q);
      hide Trim, ZeroFromSomePoint;
      if p[0] == q[0] {
        TrimmedOrder(p[1..], q[1..]);
      }
    }
  }

  lemma TrimStep(s: string)
    requires s != [] && !AllZero(s)
    ensures var t := Trim(s) + "Z"; t[0] == s[0] && t[1..] == Trim(s[1..]) + "Z"
  {
  }

  lemma AllZeroAppend(s: string, c: char)
    ensures AllZero(s + [c]) <==> AllZero(s) && c == '0'
  {
    assert (s + [c])[|s|] == c;
    assert forall i | 0 <= i < |s| :: (s + [c])[i] == s[i];
  }

  /** Dropping k digits of a padded number divides it by 10^k; they are zeros when 10^k divides it. */
  lemma {:induction false} PadSplit(n: nat, width: nat, k: nat)
    requires k <= width
    ensures Pad(n, width)[..width - k] == Pad(n / Pow10(k), width - k)
    ensures AllZero(Pad(n, width)[width - k..]) <==> n % Pow10(k) == 0
  {
    if k == 0 {
    } else {
      PadSplit(n / 10, width - 1, k - 1);
      TenthOfQuotient(n, Pow10(k - 1));
      var s, t := Pad(n, width), Pad(n / 10, width - 1);
      assert s[..width - k] == t[..width - k];
      assert s[width - k..] == t[width - k..] + [Digit(n % 10)];
      AllZeroAppend(t[width - k..], Digit(n % 10));
    }
  }

  /** x is y cut to a coarser decimal unit: the last k of its nanosecond digits zeroed, 1 <= k <= 9. */
  predicate CutTo(x: Time, y: Time, k: nat) {
    x == y - y % Pow10(k)
  }

  /** x is a proper decimal cut of y, at tens of nanoseconds up to whole seconds. */
  predicate IsCutOf(x: Time, y: Time) {
    x != y && exists k | 1 <= k <= FRACTION_DIGITS :: CutTo(x, y, k)
  }

  /** Two numbers are equal but for their last k digits, which are zeros in the first. */
  lemma CutByQuotient(m: nat, n: nat, p: nat)
    requires p > 0
    ensures m == n - n % p <==> m / p == n / p && m % p == 0
  {
    assert n == n / p * p + n % p && m == m / p * p + m % p;
    if m == n - n % p {
      Quotient(m, p, n / p, 0);
    }
  }

  lemma SamePadding(a: nat, b: nat, width: nat)
    requires a < Pow10(width) && b < Pow10(width)
    ensures Pad(a, width) == Pad(b, width) <==> a == b
  {
    NumberOfPad(a, width);
    NumberOfPad(b, width);
  }

  lemma LeadingDigitsFit(n: nat, k: nat)
    requires n < SECOND && k <= FRACTION_DIGITS
    ensures n / Pow10(k) < Pow10(FRACTION_DIGITS - k)
  {
    NineZeros();
    PowersDivide(k);
    QuotientBound(n, Pow10(k), Pow10(FRACTION_DIGITS - k));
  }

  lemma CutWithinSecond(m: nat, n: nat, k: nat)
    requires m < n < SECOND && 1 <= k <= FRACTION_DIGITS
    ensures SharedThenZero(Pad(m, FRACTION_DIGITS), Pad(n, FRACTION_DIGITS), FRACTION_DIGITS - k)
       <==> CutTo(m, n, k)
  {
    hide Pad, Pow10;
    var p := Pow10(k);
    assert Pad(m / p, FRACTION_DIGITS - k) == Pad(n / p, FRACTION_DIGITS - k) <==> m / p == n / p by {
      LeadingDigitsFit(m, k);
      LeadingDigitsFit(n, k);
      SamePadding(m / p, n / p, FRACTION_DIGITS - k);
    }
    PadSplit(m, FRACTION_DIGITS, k);
    PadSplit(n, FRACTION_DIGITS, k);
    CutByQuotient(m, n, p);
  }

  lemma {:induction false} PowersDivide(k: nat)
    requires k <= FRACTION_DIGITS
    ensures Pow10(FRACTION_DIGITS - k) * Pow10(k) == Pow10(FRACTION_DIGITS)
  {
    if k == 0 {
    } else {
      PowersDivide(k - 1);
      var a, b := Pow10(FRACTION_DIGITS - k), Pow10(k - 1);
      assert Pow10(FRACTION_DIGITS - k + 1) == 10 * a;
      assert a * (10 * b) == (10 * a) * b;
    }
  }

  /** Units of up to a second divide the seconds of an instant. */
  lemma RemainderIsLocal(y: Time, k: nat)
    requires k <= FRACTION_DIGITS
    ensures y % Pow10(k) == Nanos(y) % Pow10(k) <= Nanos(y)
  {
    hide Pow10;
    var p, c, n := Pow10(k), Pow10(FRACTION_DIGITS - k), Nanos(y);
    NineZeros();
    PowersDivide(k);
    assert y == Seconds(y) * SECOND + n;
    SplitProduct(Seconds(y), c, p);
    SumOfMultiples(Seconds(y) * c, n / p, p);
    assert n == n / p * p + n % p;
    Quotient(y, p, Seconds(y) * c + n / p, n % p);
  }

  lemma SplitProduct(a: int, b: int, d: int)
    ensures a * (b * d) == (a * b) * d
  {
  }

  lemma SumOfMultiples(a: int, b: int, d: int)
    ensures a * d + b * d == (a + b) * d
  {
  }

  /** Cutting an instant changes only its nanoseconds. */
  lemma CutIsLocal(x: Time, y: Time, k: nat)
    requires 1 <= k <= FRACTION_DIGITS
    ensures CutTo(x, y, k) <==> Seconds(x) == Seconds(y) && CutTo(Nanos(x), Nanos(y), k)
  {
    hide Pow10;
    RemainderIsLocal(y, k);
  }

  /** Within one second: the earlier instant sorts first unless it is a decimal cut of the later one. */
  lemma FractionOrder(m: nat, n: nat)
    requires m < n < SECOND
    ensures Less(Fraction(m) + "Z", Fraction(n) + "Z") <==> !IsCutOf(m, n)
  {
    NineZeros();
    var p, q := Pad(m, FRACTION_DIGITS), Pad(n, FRACTION_DIGITS);
    PadOrder(m, n, FRACTION_DIGITS);
    TrimmedOrder(p, q);
    assert Trim(q) != [] by {
      if AllZero(q) { ZerosAreLeast(p, q); }
    }
    forall j | 0 <= j < FRACTION_DIGITS
      ensures SharedThenZero(p, q, j) <==> CutTo(m, n, FRACTION_DIGITS - j)
    {
      CutWithinSecond(m, n, FRACTION_DIGITS - j);
    }
    assert ZeroFromSomePoint(p, q) <==> IsCutOf(m, n) by {
      if ZeroFromSomePoint(p, q) {
        var j :| 0 <= j < |p| && SharedThenZero(p, q, j);
        assert CutTo(m, n, FRACTION_DIGITS - j);
      }
      if IsCutOf(m, n) {
        var k :| 1 <= k <= FRACTION_DIGITS && CutTo(m, n, k);
        assert SharedThenZero(p, q, FRACTION_DIGITS - k);
      }
    }
    if Trim(p) == [] {
      assert p[0..] == p && SharedThenZero(p, q, 0);
    } else {
      CommonPrefix(".", Trim(p) + "Z", Trim(q) + "Z");
      assert Fraction(m) + "Z" == "." + (Trim(p) + "Z");
      assert Fraction(n) + "Z" == "." + (Trim(q) + "Z");
    }
  }

  /**
   The text order of two distinct instants, exactly: it is the order of the instants, turned
   round precisely when the earlier one is a decimal cut of the later. The zero time, written
   as the empty text, sorts before everything.
   */
  lemma TextOrder(a: Time, b: Time)
    requires InRange(a) && InRange(b) && a < b
    requires a != ZERO_TIME && b != ZERO_TIME
    ensures Less(FormatTS(a), FormatTS(b)) <==> !IsCutOf(a, b)
  {
    var m, n := Nanos(a), Nanos(b);
    forall k | 1 <= k <= FRACTION_DIGITS
      ensures CutTo(a, b, k) <==> Seconds(a) == Seconds(b) && CutTo(m, n, k)
    {
      CutIsLocal(a, b, k);
    }
    StampFields(Seconds(a));
    StampFields(Seconds(b));
    if Seconds(a) == Seconds(b) {
      FractionOrder(m, n);
      CommonPrefix(Stamp(Seconds(a)), Fraction(m) + "Z", Fraction(n) + "Z");
    } else {
      StampOrder(Seconds(a), Seconds(b));
      FixedWidth(Stamp(Seconds(a)), Fraction(m) + "Z", Stamp(Seconds(b)), Fraction(n) + "Z");
    }
  }

  lemma CutIsEarlier(x: Time, y: Time)
    requires IsCutOf(x, y)
    ensures x < y && Seconds(x) == Seconds(y)
  {
    var k :| 1 <= k <= FRACTION_DIGITS && CutTo(x, y, k);
    CutIsLocal(x, y, k);
  }

  /** x is before y but its text is not: x is a decimal cut of y, or y is the zero time. */
  predicate Inverted(x: Time, y: Time) {
    if y == ZERO_TIME then x < y else x != ZERO_TIME && IsCutOf(x, y)
  }

  lemma InvertedIsEarlier(x: Time, y: Time)
    requires Inverted(x, y)
    ensures x < y && (y != ZERO_TIME ==> Seconds(x) == Seconds(y))
  {
    if y != ZERO_TIME {
      CutIsEarlier(x, y);
    }
  }

  /** The text order of any two instants, the zero time included. */
  lemma TextOrderExactly(a: Time, b: Time)
    requires InRange(a) && InRange(b) && a < b
    ensures Less(FormatTS(a), FormatTS(b)) <==> !Inverted(a, b)
    ensures Less(FormatTS(b), FormatTS(a)) <==> Inverted(a, b)
  {
    LessIsTotal(FormatTS(a), FormatTS(b));
    RoundTrip(a);
    RoundTrip(b);
    if a != ZERO_TIME && b != ZERO_TIME {
      TextOrder(a, b);
    }
  }

  /** Instants in different seconds are written as texts in the order of time (RFC 3339 section 5.1). */
  lemma SecondsOrder(a: Time, b: Time)
    requires InRange(a) && InRange(b) && a != ZERO_TIME && b != ZERO_TIME
    requires Seconds(a) != Seconds(b)
    ensures Less(FormatTS(a), FormatTS(b)) <==> a < b
  {
    if a < b {
      TextOrderExactly(a, b);
      if Inverted(a, b) { InvertedIsEarlier(a, b); }
    } else {
      TextOrderExactly(b, a);
      if Inverted(b, a) { InvertedIsEarlier(b, a); }
    }
  }

  /** What `sent_at >= since` selects on text, in terms of the instants. */
  predicate TextNotBefore(sentAt: Time, since: Time) {
    (sentAt >= since && !Inverted(since, sentAt)) || Inverted(sentAt, since)
  }

  /** The comparison the SQL query makes, for every two instants that RFC 3339 can write. */
  lemma TextComparison(sentAt: Time, since: Time)
    requires InRange(sentAt) && InRange(since)
    ensures !Less(FormatTS(sentAt), FormatTS(since)) <==> TextNotBefore(sentAt, since)
  {
    hide FormatTS, Inverted;
    if Inverted(sentAt, since) { InvertedIsEarlier(sentAt, since); }
    if Inverted(since, sentAt) { InvertedIsEarlier(since, sentAt); }
    if sentAt < since {
      TextOrderExactly(sentAt, since);
    } else if since < sentAt {
      TextOrderExactly(since, sentAt);
    } else {
      LessIsTotal(FormatTS(sentAt), FormatTS(since));
    }
  }

  lemma WholeSecondIsCut(t: Time, later: Time)
    requires Nanos(t) == 0 && t < later < t + SECOND
    ensures IsCutOf(t, later) && !IsCutOf(later, t)
  {
    NineZeros();
    assert later % SECOND == later - t;
    assert CutTo(t, later, FRACTION_DIGITS);
    if IsCutOf(later, t) {
      CutIsEarlier(later, t);
    }
  }

  /** The failing family has members in every second: 12:00:03.5Z sorts before 12:00:03Z. */
  lemma WholeSecondSortsLast(t: Time, later: Time)
    requires InRange(t) && InRange(later) && t != ZERO_TIME
    requires Nanos(t) == 0 && t < later < t + SECOND
    ensures Less(FormatTS(later), FormatTS(t))
  {
    WholeSecondIsCut(t, later);
    TextComparison(later, t);
  }

  // ---- what the parser accepts ----

  lemma {:induction false} PadOfNumber(s: string)
    requires AllDigits(s)
    ensures Pad(Number(s), |s|) == s && Number(s) < Pow10(|s|)
  {
    if s == [] {
    } else {
      var init, last := s[..|s| - 1], s[|s| - 1];
      PadOfNumber(init);
      assert Number(s) / 10 == Number(init) && Number(s) % 10 == DigitValue(last);
      DigitOfValue(last);
      assert s == init + [last];
    }
  }

  lemma DigitOfValue(c: char)
    requires IsDigit(c)
    ensures 0 <= DigitValue(c) < 10 && Digit(DigitValue(c)) == c
  {
  }

  lemma DatePrints(year: string, month: string, day: string)
    requires |year| == 4 && |month| == |day| == 2 && AllDigits(year) && AllDigits(month) && AllDigits(day)
    requires 1 <= Number(month) <= 12 && 1 <= Number(day) <= 31
    ensures DateText(Date(Number(year), Number(month), Number(day))) == year + ("-" + (month + ("-" + day)))
  {
    PadOfNumber(year);
    PadOfNumber(month);
    PadOfNumber(day);
    FourDigits();
    hide Pad, Number, Pow10;
  }

  lemma TimePrints(hour: string, minute: string, second: string)
    requires |hour| == |minute| == |second| == 2 && AllDigits(hour) && AllDigits(minute) && AllDigits(second)
    requires Number(hour) < 24 && Number(minute) < 60 && Number(second) < 60
    ensures var n := 3600 * Number(hour) + 60 * Number(minute) + Number(second);
            n < SECONDS_PER_DAY && TimeText(n) == hour + (":" + (minute + (":" + second)))
  {
    hide Pad, Number, Pow10, TimeText, AllDigits;
    PadOfNumber(hour);
    PadOfNumber(minute);
    PadOfNumber(second);
    ClockText(Number(hour), Number(minute), Number(second));
  }

  lemma ClockText(hour: nat, minute: nat, second: nat)
    requires hour < 24 && minute < 60 && second < 60
    ensures var n := 3600 * hour + 60 * minute + second;
            n < SECONDS_PER_DAY
            && TimeText(n) == Pad(hour, 2) + (":" + (Pad(minute, 2) + (":" + Pad(second, 2))))
  {
    hide Pad, TimeText;
    ClockParts(hour, minute, second);
    TextOfClock(hour * 3600 + minute * 60 + second, hour, minute, second);
  }

  lemma TextOfClock(n: nat, hour: nat, minute: nat, second: nat)
    requires n < SECONDS_PER_DAY && n / 3600 == hour && n / 60 % 60 == minute && n % 60 == second
    ensures TimeText(n) == Pad(hour, 2) + (":" + (Pad(minute, 2) + (":" + Pad(second, 2))))
  {
    hide Pad;
  }

  lemma StampParts(s: string)
    requires |s| == 19 && s[4] == '-' && s[7] == '-' && s[10] == 'T' && s[13] == ':' && s[16] == ':'
    ensures s == (s[0..4] + ("-" + (s[5..7] + ("-" + s[8..10]))))
                 + ("T" + (s[11..13] + (":" + (s[14..16] + (":" + s[17..19])))))
  {
  }

  function StampDate(s: string): Date
    requires WellFormedStamp(s)
  {
    Date(Number(s[0..4]), Number(s[5..7]), Number(s[8..10]))
  }

  function StampSecond(s: string): nat
    requires WellFormedStamp(s)
  {
    3600 * Number(s[11..13]) + 60 * Number(s[14..16]) + Number(s[17..19])
  }

  /** The fields of a well-formed stamp print as they stand in it. */
  lemma FieldsPrint(s: string)
    requires WellFormedStamp(s)
    ensures var date := StampDate(s);
            && 1 <= date.month <= 12 && 1 <= date.day <= DaysIn(date.month, IsLeap(date.year))
            && StampSecond(s) < SECONDS_PER_DAY && s == DateText(date) + ("T" + TimeText(StampSecond(s)))
  {
    hide Number, DateText, TimeText, IsLeap, DaysIn, AllDigits;
    DatePrints(s[0..4], s[5..7], s[8..10]);
    TimePrints(s[11..13], s[14..16], s[17..19]);
    hide WellFormedStamp;
    StampParts(s);
  }

  lemma ParsedParts(s: string, t: Time) returns (nanos: nat)
    requires ParseInstant(s) == Some(t)
    ensures |s| >= 20 && WellFormedStamp(s[..19]) && nanos < SECOND
    ensures t == (DaysOf(StampDate(s[..19])) * SECONDS_PER_DAY + StampSecond(s[..19])) * SECOND + nanos
  {
    hide DaysOf, WellFormedStamp;
    var rest := s[19..];
    assert s[0..4] == s[..19][0..4];
    if rest == "Z" {
      nanos := 0;
    } else {
      nanos := Number(NineDigits(rest[1..|rest| - 1]));
      PadOfNumber(NineDigits(rest[1..|rest| - 1]));
      NineZeros();
    }
  }

  /**
   What parses is the text of the instant it parses to, up to the second: there is no 30 February, and no 25
   o'clock.
   */
  lemma ParsedStamp(s: string, t: Time)
    requires ParseInstant(s) == Some(t)
    ensures |s| >= 20 && s[..19] == Stamp(Seconds(t))
  {
    var nanos := ParsedParts(s, t);
    hide ParseInstant, WellFormedStamp, StampDate, StampSecond, DaysOf, DateText, TimeText, Stamp, IsLeap, DaysIn;
    var stamp := s[..19];
    FieldsPrint(stamp);
    var date, second := StampDate(stamp), StampSecond(stamp);
    Quotient(t, SECOND, DaysOf(date) * SECONDS_PER_DAY + second, nanos);
    StampOf(date, second);
  }

  // ---- known instants ----

  lemma TwoDigitsOf(n: nat)
    requires n < 100
    ensures Pad(n, 2) == [Digit(n / 10), Digit(n % 10)]
  {
    assert Pad(n / 10, 1) == Pad(n / 100, 0) + [Digit(n / 10 % 10)];
  }

  lemma FourDigitsOf(n: nat)
    requires n < 10000
    ensures Pad(n, 4) == [Digit(n / 1000), Digit(n / 100 % 10), Digit(n / 10 % 10), Digit(n % 10)]
  {
    assert Pad(n, 4) == Pad(n / 10 / 10, 2) + [Digit(n / 10 % 10)] + [Digit(n % 10)];
    assert n / 10 / 10 == n / 100;
    TwoDigitsOf(n / 100);
    assert n / 100 / 10 == n / 1000;
  }

  lemma TrimOne(p: string)
    requires p != [] && p[0] != '0' && AllZero(p[1..])
    ensures Trim(p) == [p[0]]
  {
    assert Trim(p[1..]) == [];
  }

  lemma EightZeros()
    ensures Pow10(8) == 100_000_000
  {
    FourDigits();
    assert Pow10(6) == 100 * Pow10(4);
  }

  lemma OneDigit(d: nat)
    requires d < 10
    ensures Pad(d, 1) == [Digit(d)]
  {
    assert Pad(d, 1) == Pad(d / 10, 0) + [Digit(d)];
  }

  lemma TenthsDigits(d: nat)
    requires d < 10
    ensures var p := Pad(d * 100_000_000, FRACTION_DIGITS); p[..1] == [Digit(d)] && AllZero(p[1..])
  {
    hide Pad, Pow10, AllZero;
    EightZeros();
    PadSplit(d * 100_000_000, FRACTION_DIGITS, 8);
    OneDigit(d);
  }

  /** A fraction of d tenths of a second has that one digit. */
  lemma TenthsText(d: nat)
    requires 1 <= d < 10
    ensures Fraction(d * 100_000_000) == "." + [Digit(d)]
  {
    hide Pad, Trim, AllZero;
    var p := Pad(d * 100_000_000, FRACTION_DIGITS);
    TenthsDigits(d);
    assert p[0] == p[..1][0];
    TrimOne(p);
  }

  lemma NoFraction()
    ensures Fraction(0) == []
  {
    NineZeros();
    PadSplit(0, FRACTION_DIGITS, FRACTION_DIGITS);
    hide Pad, Pow10;
    assert Pad(0, FRACTION_DIGITS)[0..] == Pad(0, FRACTION_DIGITS);
  }

  /** The stamp of a date and a time of day. */
  lemma StampOf(date: Date, secondOfDay: nat)
    requires 1 <= date.month <= 12 && 1 <= date.day <= DaysIn(date.month, IsLeap(date.year))
    requires secondOfDay < SECONDS_PER_DAY
    ensures Stamp(DaysOf(date) * SECONDS_PER_DAY + secondOfDay) == DateText(date) + ("T" + TimeText(secondOfDay))
  {
    hide DateText, TimeText, DateOf, DaysOf;
    var days := DaysOf(date);
    DateOfDaysOf(date);
    Quotient(days * SECONDS_PER_DAY + secondOfDay, SECONDS_PER_DAY, days, secondOfDay);
  }

  /** The text of a date, a time of day and a fraction. */
  lemma WrittenAs(date: Date, secondOfDay: nat, nanos: nat, t: Time)
    requires 1 <= date.month <= 12 && 1 <= date.day <= DaysIn(date.month, IsLeap(date.year))
    requires secondOfDay < SECONDS_PER_DAY && nanos < SECOND
    requires t == (DaysOf(date) * SECONDS_PER_DAY + secondOfDay) * SECOND + nanos && t != ZERO_TIME
    ensures FormatTS(t) == DateText(date) + ("T" + TimeText(secondOfDay)) + (Fraction(nanos) + "Z")
    ensures FormatSeconds(t) == DateText(date) + ("T" + TimeText(secondOfDay)) + "Z"
  {
    hide DateText, TimeText, Fraction, Stamp, DaysOf;
    var seconds := DaysOf(date) * SECONDS_PER_DAY + secondOfDay;
    Quotient(t, SECOND, seconds, nanos);
    StampOf(date, secondOfDay);
  }

  lemma DateChars(date: Date)
    requires 0 <= date.year < 10000 && 1 <= date.month <= 12 && 1 <= date.day <= 31
    ensures DateText(date)
         == [Digit(date.year / 1000), Digit(date.year / 100 % 10), Digit(date.year / 10 % 10), Digit(date.year % 10),
             '-',
             Digit(date.month / 10), Digit(date.month % 10), '-', Digit(date.day / 10), Digit(date.day % 10)]
  {
    FourDigitsOf(date.year);
    TwoDigitsOf(date.month);
    TwoDigitsOf(date.day);
    hide Pad, Digit;
  }

  lemma ClockParts(hour: nat, minute: nat, second: nat)
    requires hour < 24 && minute < 60 && second < 60
    ensures var n := hour * 3600 + minute * 60 + second;
            n < SECONDS_PER_DAY && n / 3600 == hour && n / 60 % 60 == minute && n % 60 == second
  {
    Arithmetic.ClockFields(hour * 3600 + minute * 60 + second);
  }

  lemma TimeChars(hour: nat, minute: nat, second: nat)
    requires hour < 24 && minute < 60 && second < 60
    ensures hour * 3600 + minute * 60 + second < SECONDS_PER_DAY
    ensures TimeText(hour * 3600 + minute * 60 + second)
         == [Digit(hour / 10), Digit(hour % 10), ':', Digit(minute / 10), Digit(minute % 10), ':',
             Digit(second / 10), Digit(second % 10)]
  {
    ClockParts(hour, minute, second);
    TwoDigitsOf(hour);
    TwoDigitsOf(minute);
    TwoDigitsOf(second);
    hide Pad, Digit;
  }

  lemma EpochTexts()
    ensures DateText(Date(1970, 1, 1)) == "1970-01-01" && TimeText(0) == "00:00:00"
  {
    hide DateText, TimeText;
    DateChars(Date(1970, 1, 1));
    TimeChars(0, 0, 0);
    assert 0 * 3600 + 0 * 60 + 0 == 0;
  }

  lemma EpochDays()
    ensures DaysOf(Date(1970, 1, 1)) == 719_162
  {
    DaysBeforeYearExactly(1970);
    hide DaysBeforeYear;
  }

  /** The Unix epoch is 62135596800 seconds after the zero time. */
  lemma UnixEpoch()
    ensures FormatTS(62_135_596_800 * 1_000_000_000) == "1970-01-01T00:00:00Z"
    ensures FormatSeconds(62_135_596_800 * 1_000_000_000) == "1970-01-01T00:00:00Z"
  {
    EpochDays();
    EpochTexts();
    NoFraction();
    hide FormatTS, FormatSeconds, DateText, TimeText, Fraction, DaysOf, IsLeap, DaysIn;
    WrittenAs(Date(1970, 1, 1), 0, 0, 62_135_596_800 * 1_000_000_000);
    assert "1970-01-01" + ("T" + "00:00:00") + "Z" == "1970-01-01T00:00:00Z";
    assert [] + "Z" == "Z";
  }

  lemma LeapDayTexts()
    ensures DateText(Date(2024, 2, 29)) == "2024-02-29" && TimeText(69_304) == "19:15:04"
    ensures Fraction(500_000_000) == ".5"
  {
    hide DateText, TimeText, Fraction;
    DateChars(Date(2024, 2, 29));
    TimeChars(19, 15, 4);
    TenthsText(5);
    assert 19 * 3600 + 15 * 60 + 4 == 69_304;
  }

  lemma LeapDayDays()
    ensures DaysOf(Date(2024, 2, 29)) == 738_944 && DaysIn(2, IsLeap(2024)) == 29
  {
    DaysBeforeYearExactly(2024);
    hide DaysBeforeYear;
  }

  /** A leap day with half a second: 29 February 2024 is 738944 days after 1 January of the year 1. */
  lemma LeapDay()
    ensures FormatTS((738_944 * 86_400 + 69_304) * 1_000_000_000 + 500_000_000) == "2024-02-29T19:15:04.5Z"
  {
    LeapDayDays();
    LeapDayTexts();
    hide FormatTS, FormatSeconds, DateText, TimeText, Fraction, DaysOf, IsLeap, DaysIn;
    WrittenAs(Date(2024, 2, 29), 69_304, 500_000_000, (738_944 * 86_400 + 69_304) * 1_000_000_000 + 500_000_000);
    assert "2024-02-29" + ("T" + "19:15:04") + (".5" + "Z") == "2024-02-29T19:15:04.5Z";
  }
}
