/** Durations as a recovered alert prints them, and what the text tells its reader. */
module Durations {
  import opened Types
  import opened Text

  /** time.Duration.Round(time.Second): to the nearest second, halves away from zero. */
  function Rounded(d: Duration): Duration {
    if d >= 0 then
      var r := d % SECOND;
      if r + r < SECOND then d - r else d + (SECOND - r)
    else
      var r := -d % SECOND;
      if r + r < SECOND then d + r else d - (SECOND - r)
  }

  /** The rounded duration in whole seconds. */
  function WholeSeconds(d: Duration): int {
    Rounded(d) / SECOND
  }

  function SecondsText(seconds: int): string {
    if seconds < 0 then "-" + Decimal(-seconds) + "s"
    else if seconds < 60 then Decimal(seconds) + "s"
    else if seconds < 3600 then Decimal(seconds / 60) + "m" + (Decimal(seconds % 60) + "s")
    else if seconds < 86400 then Decimal(seconds / 3600) + "h" + (Decimal(seconds / 60 % 60) + "m")
    else Decimal(seconds / 3600 / 24) + "d" + (Decimal(seconds / 3600 % 24) + "h")
  }

  function FormatDuration(d: Duration): string {
    SecondsText(WholeSeconds(d))
  }

  /** How many digits a text begins with. */
  function LeadingDigits(s: string): (k: nat)
    ensures k <= |s| && AllDigits(s[..k])
    ensures k < |s| ==> !IsDigit(s[k])
  {
    if s == [] || !IsDigit(s[0]) then 0 else 1 + LeadingDigits(s[1..])
  }

  /** The seconds a unit letter stands for; 0 for no unit. */
  function UnitSeconds(c: char): nat {
    if c == 's' then 1 else if c == 'm' then 60 else if c == 'h' then 3600 else if c == 'd' then 86400 else 0
  }

  /** The seconds that a number of units stands for. */
  function Amount(n: nat, unit: char): nat {
    n * UnitSeconds(unit)
  }

  /** Reads a sequence of numbers with units as a number of seconds. */
  function ParseDuration(s: string): Option<nat> {
    if s == [] then Some(0)
    else
      var k := LeadingDigits(s);
      if k == 0 || k == |s| || UnitSeconds(s[k]) == 0 then None
      else match ParseDuration(s[k + 1..])
        case None => None
        case Some(rest) => Some(Amount(Number(s[..k]), s[k]) + rest)
  }

  /** The smallest unit the text shows, in seconds. */
  function ShownUnit(seconds: nat): nat {
    if seconds < 3600 then 1 else if seconds < 86400 then 60 else 3600
  }

  /** The seconds with everything below the smallest unit dropped. */
  function Shown(seconds: nat): nat {
    seconds - seconds % ShownUnit(seconds)
  }

  lemma {:induction false} DigitsThenUnit(digits: string, rest: string)
    requires AllDigits(digits) && rest != [] && !IsDigit(rest[0])
    ensures LeadingDigits(digits + rest) == |digits|
  {
    if digits == [] {
      assert digits + rest == rest;
    } else {
      assert (digits + rest)[1..] == digits[1..] + rest;
      DigitsThenUnit(digits[1..], rest);
    }
  }

  lemma ParseHead(s: string, k: nat)
    requires 0 < k < |s| && LeadingDigits(s) == k && UnitSeconds(s[k]) != 0 && ParseDuration(s[k + 1..]).Some?
    ensures ParseDuration(s) == Some(Amount(Number(s[..k]), s[k]) + ParseDuration(s[k + 1..]).value)
  {
    hide Number, Amount, UnitSeconds, LeadingDigits;
  }

  lemma UnitIsNoDigit(unit: char)
    requires UnitSeconds(unit) != 0
    ensures !IsDigit(unit)
  {
  }

  lemma ParseNumber(digits: string, unit: char, rest: string)
    requires digits != [] && AllDigits(digits) && UnitSeconds(unit) != 0 && ParseDuration(rest).Some?
    ensures ParseDuration(digits + [unit] + rest) == Some(Amount(Number(digits), unit) + ParseDuration(rest).value)
  {
    hide *;
    var s, k := digits + [unit] + rest, |digits|;
    UnitIsNoDigit(unit);
    assert s == digits + ([unit] + rest);
    DigitsThenUnit(digits, [unit] + rest);
    assert s[..k] == digits && s[k] == unit && s[k + 1..] == rest;
    ParseHead(s, k);
  }

  lemma ParseStep(n: nat, unit: char, rest: string)
    requires UnitSeconds(unit) != 0 && ParseDuration(rest).Some?
    ensures ParseDuration(Decimal(n) + [unit] + rest) == Some(n * UnitSeconds(unit) + ParseDuration(rest).value)
  {
    hide Decimal, Number, ParseDuration, UnitSeconds;
    NumberOfDecimal(n);
    ParseNumber(Decimal(n), unit, rest);
  }

  lemma ParseOne(n: nat, unit: char)
    requires UnitSeconds(unit) != 0
    ensures ParseDuration(Decimal(n) + [unit]) == Some(n * UnitSeconds(unit))
  {
    ParseStep(n, unit, "");
    assert Decimal(n) + [unit] + "" == Decimal(n) + [unit];
  }

  /** Rounding goes to a nearest whole second, halves up. */
  lemma RoundedIsNearest(d: Duration)
    requires d >= 0
    ensures WholeSeconds(d) >= 0 && Rounded(d) == SECOND * WholeSeconds(d)
    ensures -SECOND <= 2 * (d - Rounded(d)) < SECOND
  {
  }

  /** Parsing the text gives back the seconds with everything below the smallest unit dropped. */
  lemma SecondsTextParses(seconds: nat)
    ensures ParseDuration(SecondsText(seconds)) == Some(Shown(seconds))
  {
    hide ParseDuration, Decimal;
    if seconds < 60 {
      ParseOne(seconds, 's');
    } else if seconds < 3600 {
      ParseOne(seconds % 60, 's');
      ParseStep(seconds / 60, 'm', Decimal(seconds % 60) + "s");
    } else if seconds < 86400 {
      ParseOne(seconds / 60 % 60, 'm');
      ParseStep(seconds / 3600, 'h', Decimal(seconds / 60 % 60) + "m");
      assert seconds / 60 / 60 == seconds / 3600;
    } else {
      ParseOne(seconds / 3600 % 24, 'h');
      ParseStep(seconds / 3600 / 24, 'd', Decimal(seconds / 3600 % 24) + "h");
    }
  }

  /**
   A printed duration parses back to the largest multiple of its smallest unit (a second below
   an hour, a minute below a day, an hour from there) that is not above the rounded duration.
   */
  lemma LosesLessThanAUnit(d: Duration, multiple: nat)
    requires d >= 0
    ensures var n := WholeSeconds(d);
            && n >= 0
            && ParseDuration(FormatDuration(d)) == Some(Shown(n))
            && Shown(n) % ShownUnit(n) == 0 && Shown(n) <= n < Shown(n) + ShownUnit(n)
            && (multiple % ShownUnit(n) == 0 && multiple <= n ==> multiple <= Shown(n))
  {
    hide ParseDuration, SecondsText, Rounded;
    RoundedIsNearest(d);
    SecondsTextParses(WholeSeconds(d));
  }

  /** Two durations print the same text exactly when they show the same number of seconds. */
  lemma Unambiguous(d: Duration, e: Duration)
    requires d >= 0 && e >= 0 && WholeSeconds(d) >= 0 && WholeSeconds(e) >= 0
    ensures FormatDuration(d) == FormatDuration(e) <==> Shown(WholeSeconds(d)) == Shown(WholeSeconds(e))
  {
    hide ParseDuration, Decimal, WholeSeconds;
    var m, n := WholeSeconds(d), WholeSeconds(e);
    SecondsTextParses(m);
    SecondsTextParses(n);
    if Shown(m) == Shown(n) {
      SameFields(m, n);
    }
  }

  /** Below zero the text is that of the whole seconds with a sign, and "0s" for what rounds to zero. */
  lemma NegativeText(d: Duration)
    requires d > 0
    ensures WholeSeconds(d) >= 0 && Rounded(-d) == -Rounded(d)
    ensures FormatDuration(-d) == if WholeSeconds(d) == 0 then "0s" else "-" + Decimal(WholeSeconds(d)) + "s"
  {
    RoundedIsNearest(d);
    assert Rounded(-d) / SECOND == -WholeSeconds(d);
    hide Rounded;
    assert Decimal(0) == "0";
  }

  lemma SameFields(m: nat, n: nat)
    requires Shown(m) == Shown(n)
    ensures SecondsText(m) == SecondsText(n)
  {
    hide Decimal;
    if m >= 86400 || n >= 86400 {
      assert m / 3600 == n / 3600;
    } else if m >= 3600 || n >= 3600 {
      assert m / 60 == n / 60 && m / 60 / 60 == m / 3600 && n / 60 / 60 == n / 3600;
    }
  }

  /** The fields of the text: below the largest unit shown there are at most 59 seconds, 59 minutes or 23 hours. */
  lemma FieldsInRange(d: Duration) returns (major: nat, minor: nat)
    requires d >= 0
    ensures var r, text := Rounded(d), FormatDuration(d);
            && (r < MINUTE ==> minor < 60 && text == Decimal(minor) + "s")
            && (MINUTE <= r < HOUR ==>
                  1 <= major < 60 && minor < 60 && text == Decimal(major) + "m" + (Decimal(minor) + "s"))
            && (HOUR <= r < DAY ==>
                  1 <= major < 24 && minor < 60 && text == Decimal(major) + "h" + (Decimal(minor) + "m"))
            && (DAY <= r ==> 1 <= major && minor < 24 && text == Decimal(major) + "d" + (Decimal(minor) + "h"))
  {
    RoundedIsNearest(d);
    var n := WholeSeconds(d);
    if n < 60 {
      major, minor := 0, n;
    } else if n < 3600 {
      major, minor := n / 60, n % 60;
    } else if n < 86400 {
      major, minor := n / 3600, n / 60 % 60;
    } else {
      major, minor := n / 3600 / 24, n / 3600 % 24;
    }
  }
}
