/**
 * The invoice form schema (`invoiceItemSchema`, `invoiceFormSchema`) as
 * validity predicates over submitted values.
 */
module InvoiceSchema {
  import opened Wrappers
  import Money

  /** The two line kinds a stored line may have. */
  datatype Kind = PartLine | LaborLine

  /** A submitted line before validation; `kind` is the raw submitted text. */
  datatype ItemInput = ItemInput(
    kind: string,
    partId: Option<string>,
    description: string,
    quantity: real,
    unitPriceHt: real,
    vatRate: real)

  /** A submitted invoice form before validation. */
  datatype FormInput = FormInput(
    invoiceNumber: string,
    customerId: string,
    vehicleId: Option<string>,
    notes: Option<string>,
    items: seq<ItemInput>)

  /** The enumeration check `z.enum(["PART", "LABOR"])`. */
  function ParseKind(s: string): (r: Option<Kind>)
    ensures r == Some(PartLine) <==> s == "PART"
    ensures r == Some(LaborLine) <==> s == "LABOR"
    ensures r.None? <==> s != "PART" && s != "LABOR"
  {
    if s == "PART" then Some(PartLine)
    else if s == "LABOR" then Some(LaborLine)
    else None
  }

  /** `invoiceItemSchema`: partId is optional and nullable whatever the kind. */
  predicate ValidItem(it: ItemInput) {
    && ParseKind(it.kind).Some?
    && |it.description| >= 1
    && it.quantity >= 0.01
    && it.unitPriceHt >= 0.0
    && 0.0 <= it.vatRate <= 100.0
  }

  /** `invoiceFormSchema`: vehicleId and notes are optional. */
  predicate ValidForm(f: FormInput) {
    && |f.invoiceNumber| >= 1
    && |f.customerId| >= 1
    && |f.items| >= 1
    && forall i :: 0 <= i < |f.items| ==> ValidItem(f.items[i])
  }

  /** The numbers of a submitted line that enter its totals. */
  function AsLine(it: ItemInput): Money.Line {
    Money.Line(it.quantity, it.unitPriceHt, it.vatRate)
  }

  function Lines(items: seq<ItemInput>): (r: seq<Money.Line>)
    ensures |r| == |items|
    ensures forall i :: 0 <= i < |items| ==> r[i] == AsLine(items[i])
  {
    seq(|items|, i requires 0 <= i < |items| => AsLine(items[i]))
  }

  /** Validity spelled out field by field, in both directions. */
  lemma ValidItemIff(it: ItemInput)
    ensures ValidItem(it) <==>
      (it.kind == "PART" || it.kind == "LABOR") && it.description != "" &&
      it.quantity >= 0.01 && it.unitPriceHt >= 0.0 && it.vatRate >= 0.0 && it.vatRate <= 100.0
  {
  }

  /** A valid line has a strictly positive quantity and non-negative amounts. */
  lemma ValidItemAmounts(it: ItemInput)
    requires ValidItem(it)
    ensures it.quantity > 0.0
    ensures Money.LineHt(AsLine(it)) >= 0.0
    ensures Money.LineVat(AsLine(it)) >= 0.0
    ensures Money.LineHt(AsLine(it)) <= Money.LineTtc(AsLine(it))
  {
    Money.LineAmountsNonNegative(AsLine(it));
  }

  /** A valid form has non-negative totals. */
  lemma ValidFormTotals(f: FormInput)
    requires ValidForm(f)
    ensures Money.DocumentTotals(Lines(f.items)).subtotalHt >= 0.0
    ensures Money.DocumentTotals(Lines(f.items)).vatTotal >= 0.0
    ensures Money.DocumentTotals(Lines(f.items)).subtotalHt <= Money.DocumentTotals(Lines(f.items)).totalTtc
  {
    Money.TotalsNonNegative(Lines(f.items));
  }

  /** A PART line needs no part id, and a LABOR line may carry one. */
  lemma PartIdIndependentOfKind(it: ItemInput, p: Option<string>)
    requires ValidItem(it)
    ensures ValidItem(it.(partId := p))
    ensures ValidItem(ItemInput("PART", None, "Filtre", 1.0, 15.0, 20.0))
  {
  }

  /** vehicleId and notes never decide validity. */
  lemma OptionalFieldsIrrelevant(f: FormInput, v: Option<string>, n: Option<string>)
    ensures ValidForm(f) <==> ValidForm(f.(vehicleId := v, notes := n))
  {
  }

  /** A form is refused when it has no line, or when any one of its lines is invalid. */
  lemma InvalidLineInvalidatesForm(f: FormInput, i: int)
    requires 0 <= i < |f.items| && !ValidItem(f.items[i])
    ensures !ValidForm(f)
    ensures !ValidForm(f.(items := []))
  {
  }
}
