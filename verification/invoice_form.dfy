/**
 * The client-side invoice form: the default new line, the per-line
 * calculators, the live totals, part selection, the low-stock flag and the
 * rule that the last line cannot be removed.
 */
module InvoiceForm {
  import opened Wrappers
  import opened InvoiceSchema
  import Money
  import Invoices

  /** A part offered in the line's part selector. */
  datatype PartOption = PartOption(
    id: string,
    name: string,
    salePriceHt: real,
    vatRate: real,
    stockQty: real,
    lowStockThreshold: real)

  /**
   * A number input as the form holds it: never touched since the line was
   * created (`undefined`), cleared by the user (the input's value is the
   * empty string), or holding a number.
   */
  datatype NumInput = Unset | Blank | Num(value: real)

  /**
   * `(field ?? d)` used in arithmetic: only an unset field takes the default
   * `d`; a cleared field is the empty string, which `??` keeps and arithmetic
   * converts to 0.
   */
  function Live(f: NumInput, d: real): (r: real)
    ensures f.Unset? ==> r == d
    ensures f.Blank? ==> r == 0.0
    ensures f.Num? ==> r == f.value
  {
    match f
    case Unset => d
    case Blank => 0.0
    case Num(v) => v
  }

  /** `z.coerce.number()` on a field that is set: the empty string converts to 0. */
  function Coerced(f: NumInput): (r: real)
    requires !f.Unset?
    ensures r == Live(f, 0.0) && r == Live(f, 20.0)
  {
    if f.Num? then f.value else 0.0
  }

  /** A line as the form holds it while editing. */
  datatype FormLine = FormLine(
    kind: string,
    partId: Option<string>,
    description: string,
    quantity: NumInput,
    unitPriceHt: NumInput,
    vatRate: NumInput)

  /** Every numeric field of the line is set (possibly cleared). */
  predicate AllSet(l: FormLine) {
    !l.quantity.Unset? && !l.unitPriceHt.Unset? && !l.vatRate.Unset?
  }

  /** `emptyItem`: a LABOR line, no part, no description, 1 × 0.00 at 20 %. */
  const EmptyItem: FormLine := FormLine("LABOR", None, "", Num(1.0), Num(0.0), Num(20.0))

  /** The value the schema parses from a line whose numeric fields are all set. */
  function Submitted(l: FormLine): ItemInput
    requires AllSet(l)
  {
    ItemInput(l.kind, l.partId, l.description, Coerced(l.quantity), Coerced(l.unitPriceHt), Coerced(l.vatRate))
  }

  /** The new line is refused by the schema until it is given a description, and then accepted. */
  lemma EmptyItemNeedsDescription(d: string)
    requires d != ""
    ensures !ValidItem(Submitted(EmptyItem))
    ensures ValidItem(Submitted(EmptyItem.(description := d)))
  {
  }

  /** `calcLineTotalHt`: quantity · unitPriceHt. */
  function CalcLineTotalHt(it: ItemInput): real {
    it.quantity * it.unitPriceHt
  }

  /** `calcLineTotalTtc`: lineHt · (1 + vatRate / 100). */
  function CalcLineTotalTtc(it: ItemInput): real {
    CalcLineTotalHt(it) * (1.0 + it.vatRate / 100.0)
  }

  /** The form's line totals equal the amounts the server stores for that line. */
  lemma CalculatorsAgreeWithServer(it: ItemInput, index: nat)
    ensures CalcLineTotalHt(it) == Invoices.RebuildItem(it, index).lineTotalHt
    ensures CalcLineTotalTtc(it) == Invoices.RebuildItem(it, index).lineTotalTtc
    ensures CalcLineTotalTtc(it) == Money.LineHt(AsLine(it)) + Money.LineVat(AsLine(it))
  {
    var ht := CalcLineTotalHt(it);
    assert ht * (1.0 + it.vatRate / 100.0) == ht + ht * (it.vatRate / 100.0);
  }

  /** The amounts the live totals use: an unset quantity or price counts as 0, an unset rate as 20. */
  function LiveLine(l: FormLine): Money.Line {
    Money.Line(Live(l.quantity, 0.0), Live(l.unitPriceHt, 0.0), Live(l.vatRate, 20.0))
  }

  function LiveLines(ls: seq<FormLine>): (r: seq<Money.Line>)
    ensures |r| == |ls|
    ensures forall i :: 0 <= i < |ls| ==> r[i] == LiveLine(ls[i])
  {
    seq(|ls|, i requires 0 <= i < |ls| => LiveLine(ls[i]))
  }

  /** The `totals` memo: one pass over the watched lines (none when the watch is empty). */
  method LiveTotals(watched: Option<seq<FormLine>>) returns (t: Money.Totals)
    ensures watched.None? ==> t == Money.ZeroTotals
    ensures t.subtotalHt == Money.Sum(LiveLines(watched.GetOr([])), Money.LineHt)
    ensures t.vatTotal == Money.Sum(LiveLines(watched.GetOr([])), Money.LineVat)
    ensures t.totalTtc == t.subtotalHt + t.vatTotal
  {
    var items := watched.GetOr([]);
    var subtotalHt := 0.0;
    var vatTotal := 0.0;
    var i := 0;
    while i < |items|
      invariant 0 <= i <= |items|
      invariant subtotalHt == Money.Sum(LiveLines(items)[..i], Money.LineHt)
      invariant vatTotal == Money.Sum(LiveLines(items)[..i], Money.LineVat)
    {
      var item := items[i];
      var lineHt := Live(item.quantity, 0.0) * Live(item.unitPriceHt, 0.0);
      var lineVat := lineHt * (Live(item.vatRate, 20.0) / 100.0);
      subtotalHt := subtotalHt + lineHt;
      vatTotal := vatTotal + lineVat;
      assert LiveLines(items)[..i + 1][..i] == LiveLines(items)[..i];
      i := i + 1;
    }
    assert LiveLines(items)[..i] == LiveLines(items);
    t := Money.Totals(subtotalHt, vatTotal, subtotalHt + vatTotal);
  }

  /** Once every field is set, the live totals are the totals the server will store. */
  lemma LiveTotalsAgreeWithServer(ls: seq<FormLine>)
    requires forall i :: 0 <= i < |ls| ==> AllSet(ls[i])
    ensures var submitted := seq(|ls|, i requires 0 <= i < |ls| => Submitted(ls[i]));
      Money.DocumentTotals(LiveLines(ls)) == Money.DocumentTotals(Lines(submitted))
  {
    var submitted := seq(|ls|, i requires 0 <= i < |ls| => Submitted(ls[i]));
    assert LiveLines(ls) == Lines(submitted);
  }

  /** A line whose quantity or price is unset or cleared adds nothing; an unset rate counts as 20 %. */
  lemma BlankLineAddsNothing(l: FormLine)
    requires !l.quantity.Num? || !l.unitPriceHt.Num?
    ensures Money.LineHt(LiveLine(l)) == 0.0 && Money.LineTtc(LiveLine(l)) == 0.0
    ensures l.vatRate.Unset? ==> LiveLine(l).vatRate == 20.0
  {
  }

  /**
   * A cleared rate input is not the 20 % default: the line's live VAT is 0,
   * and so is the VAT the schema parses from it.
   */
  lemma ClearedRateCountsNoVat(l: FormLine)
    requires l.vatRate.Blank?
    ensures Money.LineVat(LiveLine(l)) == 0.0
    ensures AllSet(l) ==> Submitted(l).vatRate == 0.0
  {
  }

  /** `parts.find((p) => p.id === id)`: the first part with that id. */
  function FindPart(parts: seq<PartOption>, id: string): (r: Option<PartOption>)
    ensures r.None? <==> forall i :: 0 <= i < |parts| ==> parts[i].id != id
    ensures r.Some? ==> exists i :: 0 <= i < |parts| && parts[i] == r.value &&
                          r.value.id == id && forall j :: 0 <= j < i ==> parts[j].id != id
    decreases |parts|
  {
    if |parts| == 0 then None
    else if parts[0].id == id then Some(parts[0])
    else
      var r := FindPart(parts[1..], id);
      assert forall i :: 1 <= i < |parts| ==> parts[i] == parts[1..][i - 1];
      if r.Some? then
        ghost var k :| 0 <= k < |parts[1..]| && parts[1..][k] == r.value && r.value.id == id &&
                       forall j :: 0 <= j < k ==> parts[1..][j].id != id;
        assert parts[k + 1] == r.value;
        r
      else r
  }

  /**
   * `handlePartSelect(index, partId)`: for a known part, fill the line's
   * part id, description, price and rate from the part and make it a PART
   * line; the quantity is kept. An unknown id changes nothing.
   */
  function HandlePartSelect(parts: seq<PartOption>, items: seq<FormLine>, index: nat, partId: string)
    : (r: seq<FormLine>)
    requires index < |items|
    ensures FindPart(parts, partId).None? ==> r == items
    ensures |r| == |items|
    ensures forall j :: 0 <= j < |items| && j != index ==> r[j] == items[j]
    ensures r[index].quantity == items[index].quantity
    ensures FindPart(parts, partId).Some? ==>
      var p := FindPart(parts, partId).value;
      && r[index].partId == Some(partId)
      && r[index].description == p.name
      && r[index].unitPriceHt == Num(p.salePriceHt)
      && r[index].vatRate == Num(p.vatRate)
      && r[index].kind == "PART"
  {
    match FindPart(parts, partId)
    case None => items
    case Some(p) =>
      items[index := items[index].(partId := Some(partId), description := p.name,
                                   unitPriceHt := Num(p.salePriceHt), vatRate := Num(p.vatRate), kind := "PART")]
  }

  /** After selecting a part for a line with a valid quantity and a part rate in range, the line is valid. */
  lemma SelectedPartLineValid(parts: seq<PartOption>, items: seq<FormLine>, index: nat, partId: string)
    requires index < |items|
    requires FindPart(parts, partId).Some?
    requires var p := FindPart(parts, partId).value;
      p.name != "" && p.salePriceHt >= 0.0 && 0.0 <= p.vatRate <= 100.0
    requires items[index].quantity.Num? && items[index].quantity.value >= 0.01
    ensures var l := HandlePartSelect(parts, items, index, partId)[index];
      ValidItem(Submitted(l)) && ParseKind(l.kind) == Some(PartLine)
  {
  }

  /** The low-stock colouring of a part. */
  predicate LowStock(p: PartOption) {
    p.stockQty <= p.lowStockThreshold
  }

  /** A line shows "Stock faible" iff its part id names a known part whose stock is at or below its threshold. */
  function LineLowStock(parts: seq<PartOption>, line: FormLine): (b: bool)
    ensures b <==> line.partId.Some? && FindPart(parts, line.partId.value).Some? &&
                   FindPart(parts, line.partId.value).value.stockQty
                     <= FindPart(parts, line.partId.value).value.lowStockThreshold
    ensures line.partId.None? ==> !b
  {
    match line.partId
    case None => false
    case Some(id) =>
      match FindPart(parts, id)
      case None => false
      case Some(p) => LowStock(p)
  }

  /** The remove button is disabled when exactly one line is left. */
  predicate CanRemove(items: seq<FormLine>) {
    |items| != 1
  }

  /** `remove(idx)`, reachable only when the button is enabled. */
  function RemoveLine(items: seq<FormLine>, index: nat): (r: seq<FormLine>)
    requires index < |items|
    ensures CanRemove(items) ==> r == items[..index] + items[index + 1..]
    ensures !CanRemove(items) ==> r == items
    ensures |items| >= 1 ==> |r| >= 1
  {
    if CanRemove(items) then items[..index] + items[index + 1..] else items
  }

  /** `append(emptyItem)` */
  function AppendLine(items: seq<FormLine>): (r: seq<FormLine>)
    ensures |r| == |items| + 1 && r[..|items|] == items && r[|items|] == EmptyItem
  {
    items + [EmptyItem]
  }

  /** An edit step of the line list: add a line, or remove line `index`. */
  datatype Edit = Append | Remove(index: nat)

  /** Applies edits in order; a removal naming no line is ignored. */
  function ApplyEdits(items: seq<FormLine>, edits: seq<Edit>): seq<FormLine>
    decreases |edits|
  {
    if |edits| == 0 then items
    else
      var next := match edits[0]
        case Append => AppendLine(items)
        case Remove(i) => if i < |items| then RemoveLine(items, i) else items;
      ApplyEdits(next, edits[1..])
  }

  /** Starting from the form's single default line, no sequence of edits empties the list. */
  lemma {:induction false} LinesNeverEmpty(items: seq<FormLine>, edits: seq<Edit>)
    requires |items| >= 1
    ensures |ApplyEdits(items, edits)| >= 1
    decreases |edits|
  {
    if |edits| > 0 {
      var next := match edits[0]
        case Append => AppendLine(items)
        case Remove(i) => if i < |items| then RemoveLine(items, i) else items;
      LinesNeverEmpty(next, edits[1..]);
    }
  }
}
