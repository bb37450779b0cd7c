/** Booking codes `UR-YYMM-NNNN`. */
module Codes {

  datatype CalendarMonth = CalendarMonth(yy: nat, mm: nat)

  /** A two-digit year and a month, in Bangkok local time. */
  type YearMonth = m: CalendarMonth | m.yy < 100 && 1 <= m.mm <= 12
    witness CalendarMonth(26, 6)

  /** The month key and the counter value a code was minted from. */
  datatype Code = Code(month: YearMonth, number: nat)

  function Digit(d: nat): char
    requires d < 10
  {
    '0' + d as char
  }

  function Digits(n: nat): (s: string)
    ensures s != []
  {
    if n < 10 then [Digit(n)] else Digits(n / 10) + [Digit(n % 10)]
  }

  function PadStart(s: string, width: nat): string
    decreases width - |s|
  {
    if |s| >= width then s else PadStart(['0'] + s, width)
  }

  function YearMonthKey(ym: YearMonth): string {
    PadStart(Digits(ym.yy), 2) + PadStart(Digits(ym.mm), 2)
  }

  function FormatBookingCode(c: Code): string {
    "UR-" + YearMonthKey(c.month) + "-" + PadStart(Digits(c.number), 4)
  }

  /** Read a run of digits back as a number. */
  function Value(s: string): int {
    if s == [] then 0 else 10 * Value(s[..|s| - 1]) + (s[|s| - 1] as int - '0' as int)
  }

  lemma {:induction false} ValueOfDigits(n: nat)
    ensures Value(Digits(n)) == n
  {
    if n < 10 {
      assert Digits(n)[..0] == [];
    } else {
      ValueOfDigits(n / 10);
      assert Digits(n)[..|Digits(n)| - 1] == Digits(n / 10);
    }
  }

  lemma {:induction false} LeadingZero(s: string)
    ensures Value(['0'] + s) == Value(s)
  {
    if s == [] {
      assert (['0'] + s)[..0] == [];
    } else {
      LeadingZero(s[..|s| - 1]);
      assert (['0'] + s)[..|s|] == ['0'] + s[..|s| - 1];
    }
  }

  lemma {:induction false} ValueOfPadded(s: string, width: nat)
    ensures Value(PadStart(s, width)) == Value(s)
    ensures |PadStart(s, width)| == if |s| < width then width else |s|
    decreases width - |s|
  {
    if |s| < width {
      LeadingZero(s);
      ValueOfPadded(['0'] + s, width);
    }
  }

  lemma TwoDigits(n: nat)
    requires n < 100
    ensures |PadStart(Digits(n), 2)| == 2 && Value(PadStart(Digits(n), 2)) == n
  {
    ValueOfDigits(n);
    ValueOfPadded(Digits(n), 2);
    if n >= 10 {
      assert |Digits(n / 10)| == 1;
    }
  }

  /** Different codes print differently, also past 9999 where the padding stops. */
  lemma CodeTextIsInjective(a: Code, b: Code)
    requires FormatBookingCode(a) == FormatBookingCode(b)
    ensures a == b
  {
    var ta, tb := FormatBookingCode(a), FormatBookingCode(b);
    TwoDigits(a.month.yy);
    TwoDigits(a.month.mm);
    TwoDigits(b.month.yy);
    TwoDigits(b.month.mm);
    ValueOfDigits(a.number);
    ValueOfPadded(Digits(a.number), 4);
    ValueOfDigits(b.number);
    ValueOfPadded(Digits(b.number), 4);
    assert ta[3..5] == PadStart(Digits(a.month.yy), 2) && tb[3..5] == PadStart(Digits(b.month.yy), 2);
    assert ta[5..7] == PadStart(Digits(a.month.mm), 2) && tb[5..7] == PadStart(Digits(b.month.mm), 2);
    assert ta[8..] == PadStart(Digits(a.number), 4) && tb[8..] == PadStart(Digits(b.number), 4);
  }

  predicate AllDigits(s: string) {
    forall i :: 0 <= i < |s| ==> '0' <= s[i] <= '9'
  }

  lemma {:induction false} DigitsAreDigits(n: nat)
    ensures AllDigits(Digits(n)) && (n < 10000 ==> |Digits(n)| <= 4)
    ensures n < 1000 ==> |Digits(n)| <= 3
    ensures n < 100 ==> |Digits(n)| <= 2
    ensures n < 10 ==> |Digits(n)| <= 1
  {
    if n >= 10 {
      DigitsAreDigits(n / 10);
    }
  }

  lemma {:induction false} PaddingIsDigits(s: string, width: nat)
    requires AllDigits(s)
    ensures AllDigits(PadStart(s, width))
    decreases width - |s|
  {
    if |s| < width {
      PaddingIsDigits(['0'] + s, width);
    }
  }

  lemma Layout(y: string, m: string, n: string, t: string)
    requires |y| == |m| == 2 && t == "UR-" + (y + m) + "-" + n
    ensures |t| == 8 + |n| && t[..3] == "UR-" && t[3..5] == y && t[5..7] == m && t[7] == '-' && t[8..] == n
  {
  }

  /** A number in at least `width` digits. */
  lemma PaddedNumber(n: nat, width: nat)
    ensures var t := PadStart(Digits(n), width); AllDigits(t) && Value(t) == n && width <= |t|
    ensures width == 4 && n < 10000 ==> |PadStart(Digits(n), width)| == 4
  {
    ValueOfDigits(n);
    ValueOfPadded(Digits(n), width);
    DigitsAreDigits(n);
    PaddingIsDigits(Digits(n), width);
  }

  /** A code reads `UR-`, the two digits of the year, the two of the month, a dash, and the
      number in four digits, or more when it needs them. */
  lemma CodeLayout(c: Code)
    ensures var t := FormatBookingCode(c);
            && |t| >= 12 && t[..3] == "UR-" && t[7] == '-'
            && AllDigits(t[3..5]) && Value(t[3..5]) == c.month.yy
            && AllDigits(t[5..7]) && Value(t[5..7]) == c.month.mm
            && AllDigits(t[8..]) && Value(t[8..]) == c.number && (c.number < 10000 ==> |t| == 12)
  {
    TwoDigits(c.month.yy);
    TwoDigits(c.month.mm);
    PaddedNumber(c.month.yy, 2);
    PaddedNumber(c.month.mm, 2);
    PaddedNumber(c.number, 4);
    Layout(PadStart(Digits(c.month.yy), 2), PadStart(Digits(c.month.mm), 2), PadStart(Digits(c.number), 4),
           FormatBookingCode(c));
  }
}
