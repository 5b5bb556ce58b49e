/**
 * The money arithmetic of an invoice: per-line HT/VAT/TTC amounts and the
 * document totals. Amounts are exact reals; the source uses JavaScript
 * floating point (see README, "Left out").
 */
module Money {

  /** The three numbers of an invoice line that enter its totals. */
  datatype Line = Line(quantity: real, unitPriceHt: real, vatRate: real)

  /** lineHt = quantity · unitPriceHt */
  function LineHt(l: Line): real {
    l.quantity * l.unitPriceHt
  }

  /** lineVat = lineHt · vatRate / 100 */
  function LineVat(l: Line): real {
    LineHt(l) * (l.vatRate / 100.0)
  }

  /** lineTtc = lineHt + lineVat */
  function LineTtc(l: Line): real {
    LineHt(l) + LineVat(l)
  }

  /** The three stored document amounts. */
  datatype Totals = Totals(subtotalHt: real, vatTotal: real, totalTtc: real)

  /** Σ f(x) over `s`, accumulated from the left as the source's loops do. */
  function Sum<T>(s: seq<T>, f: T -> real): real
    decreases |s|
  {
    if |s| == 0 then 0.0 else Sum(s[..|s| - 1], f) + f(s[|s| - 1])
  }

  /** subtotalHt = Σ lineHt, vatTotal = Σ lineVat, totalTtc = subtotalHt + vatTotal. */
  function DocumentTotals(s: seq<Line>): Totals {
    var ht := Sum(s, LineHt);
    var vat := Sum(s, LineVat);
    Totals(ht, vat, ht + vat)
  }

  /** All-zero totals, the value for an empty line list. */
  const ZeroTotals := Totals(0.0, 0.0, 0.0)

  /** A sum over a concatenation is the sum of the two sums. */
  lemma {:induction false} SumConcat<T>(a: seq<T>, b: seq<T>, f: T -> real)
    ensures Sum(a + b, f) == Sum(a, f) + Sum(b, f)
    decreases |b|
  {
    if |b| == 0 {
      assert a + b == a;
    } else {
      var b' := b[..|b| - 1];
      assert (a + b)[..|a + b| - 1] == a + b';
      SumConcat(a, b', f);
    }
  }

  /** Sums do not depend on the order of the summands. */
  lemma {:induction false} SumPermutation<T>(a: seq<T>, b: seq<T>, f: T -> real)
    requires multiset(a) == multiset(b)
    ensures Sum(a, f) == Sum(b, f)
    decreases |a|
  {
    if |a| == 0 {
      assert |b| == |multiset(b)| == 0;
    } else {
      var x := a[|a| - 1];
      var a' := a[..|a| - 1];
      assert a == a' + [x];
      assert x in multiset(b);
      var k :| 0 <= k < |b| && b[k] == x;
      assert b == b[..k] + [x] + b[k + 1..];
      var b' := b[..k] + b[k + 1..];
      assert multiset(b) == multiset(b[..k]) + multiset{x} + multiset(b[k + 1..]);
      assert multiset(b') == multiset(b[..k]) + multiset(b[k + 1..]);
      assert multiset(a) == multiset(a') + multiset{x};
      assert multiset(a') == multiset(a) - multiset{x} == multiset(b) - multiset{x} == multiset(b');
      SumPermutation(a', b', f);
      SumConcat(b[..k] + [x], b[k + 1..], f);
      SumConcat(b[..k], [x], f);
      SumConcat(b[..k], b[k + 1..], f);
      assert Sum([x], f) == f(x) by {
        assert [x][..0] == [];
      }
    }
  }

  /** Sums of two functions add up pointwise. */
  lemma {:induction false} SumAdd<T>(s: seq<T>, f: T -> real, g: T -> real, h: T -> real)
    requires forall x :: h(x) == f(x) + g(x)
    ensures Sum(s, h) == Sum(s, f) + Sum(s, g)
    decreases |s|
  {
    if |s| > 0 {
      SumAdd(s[..|s| - 1], f, g, h);
    }
  }

  /** A sum of non-negative terms is non-negative. */
  lemma {:induction false} SumNonNegative<T>(s: seq<T>, f: T -> real)
    requires forall i :: 0 <= i < |s| ==> f(s[i]) >= 0.0
    ensures Sum(s, f) >= 0.0
    decreases |s|
  {
    if |s| > 0 {
      SumNonNegative(s[..|s| - 1], f);
    }
  }

  /** The document TTC is the sum of the lines' TTC amounts. */
  lemma TotalTtcIsSumOfLineTtc(s: seq<Line>)
    ensures DocumentTotals(s).totalTtc == Sum(s, LineTtc)
  {
    SumAdd(s, LineHt, LineVat, LineTtc);
  }

  /** Totals do not depend on the order of the lines. */
  lemma TotalsOrderIndependent(a: seq<Line>, b: seq<Line>)
    requires multiset(a) == multiset(b)
    ensures DocumentTotals(a) == DocumentTotals(b)
  {
    SumPermutation(a, b, LineHt);
    SumPermutation(a, b, LineVat);
  }

  /** Totals of a concatenation add up field by field. */
  lemma TotalsConcat(a: seq<Line>, b: seq<Line>)
    ensures DocumentTotals(a + b).subtotalHt == DocumentTotals(a).subtotalHt + DocumentTotals(b).subtotalHt
    ensures DocumentTotals(a + b).vatTotal == DocumentTotals(a).vatTotal + DocumentTotals(b).vatTotal
    ensures DocumentTotals(a + b).totalTtc == DocumentTotals(a).totalTtc + DocumentTotals(b).totalTtc
  {
    SumConcat(a, b, LineHt);
    SumConcat(a, b, LineVat);
  }

  /** A line whose quantity, price and rate are non-negative has non-negative amounts. */
  lemma LineAmountsNonNegative(l: Line)
    requires l.quantity >= 0.0 && l.unitPriceHt >= 0.0 && l.vatRate >= 0.0
    ensures 0.0 <= LineHt(l) <= LineTtc(l)
    ensures LineVat(l) >= 0.0
  {
    var ht := LineHt(l);
    assert ht >= 0.0;
    assert ht * (l.vatRate / 100.0) >= 0.0;
  }

  /** Non-negative lines give non-negative totals with subtotalHt ≤ totalTtc. */
  lemma TotalsNonNegative(s: seq<Line>)
    requires forall i :: 0 <= i < |s| ==> s[i].quantity >= 0.0 && s[i].unitPriceHt >= 0.0 && s[i].vatRate >= 0.0
    ensures DocumentTotals(s).subtotalHt >= 0.0
    ensures DocumentTotals(s).vatTotal >= 0.0
    ensures DocumentTotals(s).subtotalHt <= DocumentTotals(s).totalTtc
  {
    forall i | 0 <= i < |s|
      ensures LineHt(s[i]) >= 0.0 && LineVat(s[i]) >= 0.0
    {
      LineAmountsNonNegative(s[i]);
    }
    SumNonNegative(s, LineHt);
    SumNonNegative(s, LineVat);
  }

  /**
   * Worked example: 1 × 52.00 and 2 × 45.00, both at 20 %, give
   * 142.00 HT, 28.40 VAT and 170.40 TTC; the first line alone is 62.40 TTC.
   */
  lemma TwoLineExample()
    ensures LineTtc(Line(1.0, 52.0, 20.0)) == 62.4
    ensures DocumentTotals([Line(1.0, 52.0, 20.0), Line(2.0, 45.0, 20.0)]) == Totals(142.0, 28.4, 170.4)
  {
    var l0, l1 := Line(1.0, 52.0, 20.0), Line(2.0, 45.0, 20.0);
    var s := [l0, l1];
    assert LineHt(l0) == 52.0 && LineVat(l0) == 10.4;
    assert LineHt(l1) == 90.0 && LineVat(l1) == 18.0;
    assert s[..1] == [l0];
    assert [l0][..0] == [];
    assert Sum([l0], LineHt) == 52.0 && Sum([l0], LineVat) == 10.4;
    assert Sum(s, LineHt) == Sum([l0], LineHt) + LineHt(l1);
    assert Sum(s, LineVat) == Sum([l0], LineVat) + LineVat(l1);
  }
}
