/**
 * The invoice number that quotation conversion generates:
 * "INV-" + year + two-digit month + two-digit day + "-" + a pseudo-random
 * suffix in 0..999 padded to three digits (lib/data-service.ts:538).
 * The random draw is an input of the model.
 */
module Numbering {
  import opened Wrappers
  import opened Calendar

  predicate IsDigit(c: char) {
    '0' <= c <= '9'
  }

  predicate AllDigits(s: string) {
    forall i :: 0 <= i < |s| ==> IsDigit(s[i])
  }

  function DigitChar(d: int): char
    requires 0 <= d < 10
  {
    (48 + d) as char
  }

  function DigitValue(c: char): int
    requires IsDigit(c)
  {
    c as int - 48
  }

  /** `String(n)` for a non-negative integer: its decimal digits, no leading zero. */
  function Decimal(n: nat): (s: string)
    ensures 1 <= |s| && AllDigits(s)
    decreases n
  {
    if n < 10 then [DigitChar(n)] else Decimal(n / 10) + [DigitChar(n % 10)]
  }

  /** The number a string of decimal digits denotes; leading zeros are allowed. */
  function ValueOf(s: string): nat
    requires AllDigits(s)
  {
    if s == [] then 0 else ValueOf(s[..|s| - 1]) * 10 + DigitValue(s[|s| - 1])
  }

  function Zeros(n: nat): (z: string)
    ensures |z| == n && AllDigits(z)
  {
    seq(n, _ => '0')
  }

  /** `s.padStart(width, '0')`: left-pad with zeros up to `width`; longer strings stay as they are. */
  function PadStart(s: string, width: nat): (r: string)
  {
    if |s| >= width then s else Zeros(width - |s|) + s
  }

  /**
   * `Math.random()` yields a multiple of 2^-53 in [0, 1); a draw is its
   * numerator, so the value drawn is `random / RandomScale`.
   */
  const RandomScale: nat := 0x20_0000_0000_0000

  type Draw = d: nat | d < RandomScale

  /** `Math.floor(Math.random() * 1000)`: the draw scaled to 0..999, rounded down. */
  function RandomSuffix(random: Draw): (k: nat)
    ensures k < 1000
    ensures k * RandomScale <= random * 1000 < (k + 1) * RandomScale
  {
    random * 1000 / RandomScale
  }

  /** The invoice number built from today's local date and a random draw. */
  function InvoiceNumber(today: DateTime, random: Draw): string
    requires Valid(today)
  {
    "INV-" + Decimal(today.year as nat)
      + PadStart(Decimal(today.month as nat), 2) + PadStart(Decimal(today.day as nat), 2)
      + "-" + PadStart(Decimal(RandomSuffix(random)), 3)
  }

  datatype NumberParts = NumberParts(year: nat, month: nat, day: nat, suffix: nat)

  /** Reads back an `INV-YYYYMMDD-NNN` number; anything not of that shape is rejected. */
  function ParseInvoiceNumber(s: string): (r: Option<NumberParts>)
    ensures r.Some? ==> |s| == 16 && s[..4] == "INV-" && s[12] == '-'
    ensures r.Some? ==> r.value.month < 100 && r.value.day < 100 && r.value.suffix < 1000
  {
    if && |s| == 16 && s[..4] == "INV-" && s[12] == '-'
       && AllDigits(s[4..8]) && AllDigits(s[8..10]) && AllDigits(s[10..12]) && AllDigits(s[13..])
    then
      ValueBound(s[8..10]);
      ValueBound(s[10..12]);
      ValueBound(s[13..]);
      assert Pow10(2) == 100 && Pow10(3) == 1000;
      Some(NumberParts(ValueOf(s[4..8]), ValueOf(s[8..10]), ValueOf(s[10..12]), ValueOf(s[13..])))
    else None
  }

  function Pow10(k: nat): nat {
    if k == 0 then 1 else 10 * Pow10(k - 1)
  }

  /** A string of k digits denotes a number below 10^k. */
  lemma {:induction false} ValueBound(s: string)
    requires AllDigits(s)
    ensures ValueOf(s) < Pow10(|s|)
    decreases |s|
  {
    if s != [] {
      ValueBound(s[..|s| - 1]);
    }
  }

  /** Reading back the digits of n gives n. */
  lemma {:induction false} DecimalValue(n: nat)
    ensures ValueOf(Decimal(n)) == n
    decreases n
  {
    if n >= 10 {
      DecimalValue(n / 10);
      var s := Decimal(n);
      assert s[..|s| - 1] == Decimal(n / 10);
    }
  }

  /** The number of digits of n for the magnitudes that document numbers use. */
  lemma {:induction false} DecimalLength(n: nat)
    ensures n < 10 ==> |Decimal(n)| == 1
    ensures 10 <= n < 100 ==> |Decimal(n)| == 2
    ensures 100 <= n < 1000 ==> |Decimal(n)| == 3
    ensures 1000 <= n < 10000 ==> |Decimal(n)| == 4
    decreases n
  {
    if n >= 10 {
      DecimalLength(n / 10);
    }
  }

  /** Leading zeros do not change the value of a digit string. */
  lemma {:induction false} LeadingZerosValue(k: nat, s: string)
    requires AllDigits(s)
    ensures AllDigits(Zeros(k) + s) && ValueOf(Zeros(k) + s) == ValueOf(s)
    decreases |s|
  {
    var t := Zeros(k) + s;
    if s == [] {
      assert t == Zeros(k);
      ZerosValue(k);
    } else {
      LeadingZerosValue(k, s[..|s| - 1]);
      assert t[..|t| - 1] == Zeros(k) + s[..|s| - 1];
    }
  }

  lemma {:induction false} ZerosValue(k: nat)
    ensures ValueOf(Zeros(k)) == 0
    decreases k
  {
    if k > 0 {
      ZerosValue(k - 1);
      assert Zeros(k)[..k - 1] == Zeros(k - 1);
    }
  }

  /** Zero-padding n to `width` digits keeps its value and, when n has at most `width` digits, has exactly `width`. */
  lemma PaddedDecimal(n: nat, width: nat)
    requires |Decimal(n)| <= width
    ensures |PadStart(Decimal(n), width)| == width
    ensures AllDigits(PadStart(Decimal(n), width))
    ensures ValueOf(PadStart(Decimal(n), width)) == n
  {
    DecimalValue(n);
    if |Decimal(n)| < width {
      LeadingZerosValue(width - |Decimal(n)|, Decimal(n));
    }
  }

  /** Where the parts of an `INV-YYYYMMDD-NNN` number sit. */
  lemma NumberLayout(y: string, m: string, d: string, k: string)
    requires |y| == 4 && |m| == 2 && |d| == 2 && |k| == 3
    ensures var s := "INV-" + y + m + d + "-" + k;
            && |s| == 16 && s[..4] == "INV-" && s[4..8] == y && s[8..10] == m && s[10..12] == d
            && s[12] == '-' && s[13..] == k
  {
    var s := "INV-" + y + m + d + "-" + k;
    assert s[..4] == "INV-";
    assert s[4..8] == y;
    assert s[8..10] == m;
    assert s[10..12] == d;
    assert s[13..] == k;
  }

  /**
   * For four-digit years the generated number is 16 characters long and reads
   * back as the date it was made on and the random suffix, which lies in 0..999.
   */
  lemma InvoiceNumberRoundTrip(today: DateTime, random: Draw)
    requires Valid(today)
    requires 1000 <= today.year <= 9999
    ensures |InvoiceNumber(today, random)| == 16
    ensures ParseInvoiceNumber(InvoiceNumber(today, random))
            == Some(NumberParts(today.year as nat, today.month as nat, today.day as nat, RandomSuffix(random)))
  {
    var y := Decimal(today.year as nat);
    var m := PadStart(Decimal(today.month as nat), 2);
    var d := PadStart(Decimal(today.day as nat), 2);
    var k := PadStart(Decimal(RandomSuffix(random)), 3);
    DecimalLength(today.year as nat);
    DecimalLength(today.month as nat);
    DecimalLength(today.day as nat);
    DecimalLength(RandomSuffix(random));
    DecimalValue(today.year as nat);
    PaddedDecimal(today.month as nat, 2);
    PaddedDecimal(today.day as nat, 2);
    PaddedDecimal(RandomSuffix(random), 3);
    NumberLayout(y, m, d, k);
    assert InvoiceNumber(today, random) == "INV-" + y + m + d + "-" + k;
  }
}
