/**
 * Invoice numbers `FAC-<year>-<count+1>`, the sequence left-padded with '0'
 * to at least four digits (`String(count + 1).padStart(4, "0")`).
 */
module Numbering {

  predicate IsDigit(c: char) {
    '0' <= c <= '9'
  }

  function DigitChar(d: nat): (c: char)
    requires d < 10
    ensures IsDigit(c)
  {
    ['0', '1', '2', '3', '4', '5', '6', '7', '8', '9'][d]
  }

  function DigitValue(c: char): (d: nat)
    requires IsDigit(c)
    ensures d < 10
  {
    (c as int - '0' as int) as nat
  }

  predicate AllDigits(s: string) {
    forall i :: 0 <= i < |s| ==> IsDigit(s[i])
  }

  /** `k` zero characters. */
  function Zeros(k: nat): (z: string)
    ensures |z| == k && AllDigits(z)
    ensures forall i :: 0 <= i < k ==> z[i] == '0'
  {
    seq(k, _ => '0')
  }

  /** `String(n)` for a non-negative integer: its decimal digits, no leading zero. */
  function Decimal(n: nat): (s: string)
    ensures |s| >= 1
    ensures AllDigits(s)
    ensures |s| > 1 ==> s[0] != '0'
    decreases n
  {
    if n < 10 then [DigitChar(n)] else Decimal(n / 10) + [DigitChar(n % 10)]
  }

  /** The number a string of digits denotes (leading zeros allowed). */
  function DecimalValue(s: string): nat
    requires AllDigits(s)
    decreases |s|
  {
    if |s| == 0 then 0 else DecimalValue(s[..|s| - 1]) * 10 + DigitValue(s[|s| - 1])
  }

  /** `s.padStart(width, pad)`: pad on the left up to `width`, never truncate. */
  function PadStart(s: string, width: nat, pad: char): (r: string)
    ensures |r| == if |s| >= width then |s| else width
    ensures r[|r| - |s|..] == s
    ensures forall i :: 0 <= i < |r| - |s| ==> r[i] == pad
  {
    if |s| >= width then s else seq(width - |s|, _ => pad) + s
  }

  /** `FAC-<year>-<count + 1 padded to 4>` */
  function InvoiceNumber(year: nat, count: nat): string {
    "FAC-" + Decimal(year) + "-" + PadStart(Decimal(count + 1), 4, '0')
  }

  /** Reading back the digits of `Decimal(n)` gives `n`. */
  lemma {:induction false} DecimalRoundTrip(n: nat)
    ensures DecimalValue(Decimal(n)) == n
    decreases n
  {
    if n >= 10 {
      var s := Decimal(n);
      assert s[..|s| - 1] == Decimal(n / 10);
      DecimalRoundTrip(n / 10);
    }
  }

  /** A leading '0' does not change the value of a digit string. */
  lemma {:induction false} LeadingZeroValue(s: string)
    requires AllDigits(s)
    ensures DecimalValue(['0'] + s) == DecimalValue(s)
    decreases |s|
  {
    if |s| > 0 {
      var t := ['0'] + s;
      assert t[..|t| - 1] == ['0'] + s[..|s| - 1];
      LeadingZeroValue(s[..|s| - 1]);
    } else {
      assert (['0'] + s)[..0] == [];
    }
  }

  /** Any run of leading '0's leaves the value unchanged. */
  lemma {:induction false} LeadingZerosValue(k: nat, s: string)
    requires AllDigits(s)
    ensures AllDigits(Zeros(k) + s)
    ensures DecimalValue(Zeros(k) + s) == DecimalValue(s)
    decreases k
  {
    if k == 0 {
      assert Zeros(k) + s == s;
    } else {
      var t := Zeros(k - 1) + s;
      assert Zeros(k) + s == ['0'] + t;
      LeadingZerosValue(k - 1, s);
      LeadingZeroValue(t);
    }
  }

  /** The padded sequence denotes `count + 1`, has at least four digits and keeps every digit of it. */
  lemma SequenceRoundTrip(count: nat)
    ensures var p := PadStart(Decimal(count + 1), 4, '0');
      && |p| >= 4
      && |p| >= |Decimal(count + 1)|
      && AllDigits(p)
      && DecimalValue(p) == count + 1
  {
    var d := Decimal(count + 1);
    var p := PadStart(d, 4, '0');
    DecimalRoundTrip(count + 1);
    if |d| < 4 {
      assert p == Zeros(4 - |d|) + d;
      LeadingZerosValue(4 - |d|, d);
    }
  }

  /** Numbers for the same year and different counts differ. */
  lemma InvoiceNumberInjective(year: nat, c1: nat, c2: nat)
    requires InvoiceNumber(year, c1) == InvoiceNumber(year, c2)
    ensures c1 == c2
  {
    var h := "FAC-" + Decimal(year) + "-";
    var p1 := PadStart(Decimal(c1 + 1), 4, '0');
    var p2 := PadStart(Decimal(c2 + 1), 4, '0');
    assert InvoiceNumber(year, c1) == h + p1;
    assert InvoiceNumber(year, c2) == h + p2;
    assert p1 == (h + p1)[|h|..];
    assert p2 == (h + p2)[|h|..];
    SequenceRoundTrip(c1);
    SequenceRoundTrip(c2);
  }

  /** Worked example: the first invoice of 2025. */
  lemma FirstNumberOf2025()
    ensures InvoiceNumber(2025, 0) == "FAC-2025-0001"
  {
    assert Decimal(2) == "2";
    assert Decimal(20) == "20";
    assert Decimal(202) == "202";
    assert Decimal(2025) == "2025";
    assert PadStart(Decimal(1), 4, '0') == "0001";
  }
}
