/**
 * The invoice store and the server actions that change it: update, delete,
 * duplicate and cancel (app/invoices/actions.ts) and creation from the form,
 * with its stock decrement (app/invoices/new/actions.ts).
 *
 * The database is an immutable `Store`; each action is a function returning
 * the new store or the error it throws. An `Err` carries no store: a failed
 * action changes nothing, which is also how the one multi-row transaction
 * (invoice creation plus stock decrements) is modelled.
 */
module Invoices {
  import opened Wrappers
  import opened InvoiceSchema
  import opened Session
  import Money
  import Numbering

  datatype Status = Draft | Issued | Paid | Canceled

  /** A stored line. `position` is its rank in the invoice. */
  datatype StoredItem = StoredItem(
    kind: Kind,
    partId: Option<string>,
    description: string,
    quantity: real,
    unitPriceHt: real,
    vatRate: real,
    lineTotalHt: real,
    lineTotalTtc: real,
    position: nat)

  /** A point in time, supplied by the caller (the clock is not modelled). */
  type Time = int

  /** An invoice header together with the lines it owns. */
  datatype Invoice = Invoice(
    invoiceNumber: string,
    customerId: string,
    vehicleId: Option<string>,
    notes: Option<string>,
    status: Status,
    subtotalHt: real,
    vatTotal: real,
    totalTtc: real,
    issuedAt: Option<Time>,
    createdById: Option<string>,
    groupId: Option<string>,
    items: seq<StoredItem>)

  /** An inventory part. */
  datatype Part = Part(name: string, salePriceHt: real, vatRate: real, stockQty: real, lowStockThreshold: real)

  /** Invoices and parts, keyed by id. */
  datatype Store = Store(invoices: map<string, Invoice>, parts: map<string, Part>)

  datatype InvoiceError =
    | InvalidData          // "Données invalides"
    | NotFound             // "Facture introuvable"
    | NotEditable          // "Impossible de modifier une facture payée ou annulée"
    | PaidNotDeletable     // "Impossible de supprimer une facture payée"
    | IssuedNotDeletable   // "Impossible de supprimer une facture émise"
    | NotAuthenticated     // "Non authentifié"
    | UnknownPart(partId: string)  // the stock update finds no such part; the transaction rolls back
    | DuplicateNumber      // the unique index on the invoice number refuses the write

  /* ----------------------------- Line rebuild ----------------------------- */

  /** The kind of a validated line. */
  function KindOf(s: string): (k: Kind)
    ensures ParseKind(s).Some? ==> k == ParseKind(s).value
  {
    if s == "PART" then PartLine else LaborLine
  }

  /** The stored form of the submitted line at `index`. */
  function RebuildItem(it: ItemInput, index: nat): StoredItem {
    var l := AsLine(it);
    StoredItem(KindOf(it.kind), OrNull(it.partId), it.description, it.quantity, it.unitPriceHt, it.vatRate,
               Money.LineHt(l), Money.LineTtc(l), index)
  }

  /** `items.map((item, index) => …)`: every submitted line, rebuilt at its index. */
  function RebuildItems(items: seq<ItemInput>): (r: seq<StoredItem>)
    ensures |r| == |items|
    ensures forall i :: 0 <= i < |items| ==> r[i] == RebuildItem(items[i], i)
  {
    seq(|items|, i requires 0 <= i < |items| => RebuildItem(items[i], i))
  }

  function StoredHt(it: StoredItem): real {
    it.lineTotalHt
  }

  function StoredTtc(it: StoredItem): real {
    it.lineTotalTtc
  }

  /** A stored line's amounts follow the line formulas. */
  predicate ItemConsistent(it: StoredItem) {
    && it.lineTotalHt == it.quantity * it.unitPriceHt
    && it.lineTotalTtc == it.lineTotalHt + it.lineTotalHt * (it.vatRate / 100.0)
  }

  /** Positions are the 0-based ranks of the lines. */
  predicate Positioned(items: seq<StoredItem>) {
    forall i :: 0 <= i < |items| ==> items[i].position == i
  }

  /**
   * The invoice invariant: positions are ranks, each line is consistent, and
   * the stored totals are the sums of the stored lines with
   * totalTtc = subtotalHt + vatTotal.
   */
  predicate WellFormed(inv: Invoice) {
    && Positioned(inv.items)
    && (forall i :: 0 <= i < |inv.items| ==> ItemConsistent(inv.items[i]))
    && inv.subtotalHt == Money.Sum(inv.items, StoredHt)
    && inv.totalTtc == Money.Sum(inv.items, StoredTtc)
    && inv.totalTtc == inv.subtotalHt + inv.vatTotal
  }

  predicate StoreWellFormed(st: Store) {
    forall id :: id in st.invoices ==> WellFormed(st.invoices[id])
  }

  /** An invoice other than `except` already carries `number`. */
  predicate NumberTaken(invoices: map<string, Invoice>, number: string, except: string) {
    exists k :: k in invoices && k != except && invoices[k].invoiceNumber == number
  }

  /** The database's unique index: no two invoices share a number. */
  predicate NumbersUnique(invoices: map<string, Invoice>) {
    forall a, b :: a in invoices && b in invoices && a != b ==> invoices[a].invoiceNumber != invoices[b].invoiceNumber
  }

  /** Every rebuilt line sits at its index, has a null-or-non-empty part id and consistent amounts. */
  lemma RebuiltItemsShape(items: seq<ItemInput>)
    ensures Positioned(RebuildItems(items))
    ensures forall i :: 0 <= i < |items| ==>
      && ItemConsistent(RebuildItems(items)[i])
      && (RebuildItems(items)[i].partId.Some? <==> Truthy(items[i].partId))
      && (RebuildItems(items)[i].partId.Some? ==> RebuildItems(items)[i].partId == items[i].partId)
      && RebuildItems(items)[i].description == items[i].description
      && RebuildItems(items)[i].quantity == items[i].quantity
      && RebuildItems(items)[i].unitPriceHt == items[i].unitPriceHt
      && RebuildItems(items)[i].vatRate == items[i].vatRate
  {
  }

  lemma RebuildPrefix(items: seq<ItemInput>, n: nat)
    requires n <= |items|
    ensures RebuildItems(items)[..n] == RebuildItems(items[..n])
    ensures Lines(items)[..n] == Lines(items[..n])
  {
  }

  /** The stored lines' amounts add up to the document totals of the submitted lines. */
  lemma {:induction false} RebuiltSums(items: seq<ItemInput>)
    ensures Money.Sum(RebuildItems(items), StoredHt) == Money.Sum(Lines(items), Money.LineHt)
    ensures Money.Sum(RebuildItems(items), StoredTtc) == Money.Sum(Lines(items), Money.LineTtc)
    decreases |items|
  {
    var n := |items|;
    if n > 0 {
      RebuildPrefix(items, n - 1);
      RebuiltSums(items[..n - 1]);
    }
  }

  /** An invoice whose lines are rebuilt from `items`, with totals recomputed. */
  function WithItems(inv: Invoice, items: seq<ItemInput>): Invoice {
    var t := Money.DocumentTotals(Lines(items));
    inv.(items := RebuildItems(items), subtotalHt := t.subtotalHt, vatTotal := t.vatTotal, totalTtc := t.totalTtc)
  }

  /** Rebuilding the lines always yields a well-formed invoice whose totals are the document totals. */
  lemma WithItemsWellFormed(inv: Invoice, items: seq<ItemInput>)
    ensures WellFormed(WithItems(inv, items))
    ensures WithItems(inv, items).subtotalHt == Money.Sum(Lines(items), Money.LineHt)
    ensures WithItems(inv, items).vatTotal == Money.Sum(Lines(items), Money.LineVat)
    ensures WithItems(inv, items).totalTtc == Money.Sum(Lines(items), Money.LineTtc)
  {
    RebuiltSums(items);
    Money.TotalTtcIsSumOfLineTtc(Lines(items));
  }

  /**
   * The source's loop: one pass that builds the stored lines and accumulates
   * subtotalHt and vatTotal, then totalTtc = subtotalHt + vatTotal.
   */
  method BuildItemsData(items: seq<ItemInput>) returns (data: seq<StoredItem>, totals: Money.Totals)
    ensures data == RebuildItems(items)
    ensures Positioned(data)
    ensures totals.subtotalHt == Money.Sum(Lines(items), Money.LineHt)
    ensures totals.vatTotal == Money.Sum(Lines(items), Money.LineVat)
    ensures totals.totalTtc == totals.subtotalHt + totals.vatTotal
  {
    var subtotalHt := 0.0;
    var vatTotal := 0.0;
    data := [];
    var i := 0;
    while i < |items|
      invariant 0 <= i <= |items|
      invariant data == RebuildItems(items)[..i]
      invariant subtotalHt == Money.Sum(Lines(items)[..i], Money.LineHt)
      invariant vatTotal == Money.Sum(Lines(items)[..i], Money.LineVat)
    {
      var item := items[i];
      var lineHt := item.quantity * item.unitPriceHt;
      var lineVat := lineHt * (item.vatRate / 100.0);
      var lineTtc := lineHt + lineVat;
      subtotalHt := subtotalHt + lineHt;
      vatTotal := vatTotal + lineVat;
      var stored := StoredItem(KindOf(item.kind), OrNull(item.partId), item.description, item.quantity,
                               item.unitPriceHt, item.vatRate, lineHt, lineTtc, i);
      assert stored == RebuildItems(items)[i];
      data := data + [stored];
      assert Lines(items)[..i + 1][..i] == Lines(items)[..i];
      assert RebuildItems(items)[..i + 1] == RebuildItems(items)[..i] + [RebuildItems(items)[i]];
      i := i + 1;
    }
    assert Lines(items)[..i] == Lines(items);
    assert RebuildItems(items)[..i] == RebuildItems(items);
    RebuiltItemsShape(items);
    totals := Money.Totals(subtotalHt, vatTotal, subtotalHt + vatTotal);
  }

  /* ------------------------------ Frames ---------------------------------- */

  /** Only the invoice `id` may differ; parts and every other invoice are unchanged. */
  predicate OnlyInvoiceChanged(st: Store, st': Store, id: string) {
    && st'.parts == st.parts
    && st'.invoices.Keys == st.invoices.Keys
    && forall k :: k in st.invoices && k != id ==> st'.invoices[k] == st.invoices[k]
  }

  /* ----------------------------- Update ----------------------------------- */

  /**
   * updateInvoiceAction: validate, look up, refuse PAID and CANCELED, then
   * replace the lines and header in one step.
   */
  function UpdateInvoice(st: Store, id: string, form: FormInput): (r: Result<Store, InvoiceError>)
    ensures !ValidForm(form) ==> r == Err(InvalidData)
    ensures ValidForm(form) && id !in st.invoices ==> r == Err(NotFound)
    ensures ValidForm(form) && id in st.invoices ==>
      (r.Ok? <==> (st.invoices[id].status.Draft? || st.invoices[id].status.Issued?)
                  && !NumberTaken(st.invoices, form.invoiceNumber, id))
    ensures ValidForm(form) && id in st.invoices && st.invoices[id].status in {Paid, Canceled} ==>
      r == Err(NotEditable)
    ensures (&& ValidForm(form) && id in st.invoices && st.invoices[id].status in {Draft, Issued}
             && NumberTaken(st.invoices, form.invoiceNumber, id)) ==> r == Err(DuplicateNumber)
    ensures r.Ok? ==> id in st.invoices && OnlyInvoiceChanged(st, r.value, id)
    ensures r.Ok? ==>
      var before := st.invoices[id];
      var after := r.value.invoices[id];
      && WellFormed(after)
      && after.items == RebuildItems(form.items)
      && after.totalTtc == Money.Sum(Lines(form.items), Money.LineTtc)
      && after.invoiceNumber == form.invoiceNumber
      && after.customerId == form.customerId
      && after.vehicleId == OrNull(form.vehicleId)
      && after.notes == (if form.notes.Some? then form.notes else before.notes)
      && after.status == before.status
      && after.issuedAt == before.issuedAt
      && after.createdById == before.createdById
      && after.groupId == before.groupId
  {
    if !ValidForm(form) then Err(InvalidData)
    else if id !in st.invoices then Err(NotFound)
    else
      var before := st.invoices[id];
      if before.status == Paid || before.status == Canceled then Err(NotEditable)
      else if NumberTaken(st.invoices, form.invoiceNumber, id) then Err(DuplicateNumber)
      else
        // `notes: undefined` leaves the stored notes as they were
        var header := before.(invoiceNumber := form.invoiceNumber, customerId := form.customerId,
                              vehicleId := OrNull(form.vehicleId),
                              notes := if form.notes.Some? then form.notes else before.notes);
        var after := WithItems(header, form.items);
        WithItemsWellFormed(header, form.items);
        Ok(st.(invoices := st.invoices[id := after]))
  }

  /** An update keeps a well-formed store well-formed. */
  lemma UpdatePreservesWellFormed(st: Store, id: string, form: FormInput)
    requires StoreWellFormed(st)
    requires UpdateInvoice(st, id, form).Ok?
    ensures StoreWellFormed(UpdateInvoice(st, id, form).value)
  {
  }

  /* ----------------------------- Delete ----------------------------------- */

  /** deleteInvoiceAction: only DRAFT and CANCELED invoices go, lines included. */
  function DeleteInvoice(st: Store, id: string): (r: Result<Store, InvoiceError>)
    ensures id !in st.invoices ==> r == Err(NotFound)
    ensures id in st.invoices && st.invoices[id].status == Paid ==> r == Err(PaidNotDeletable)
    ensures id in st.invoices && st.invoices[id].status == Issued ==> r == Err(IssuedNotDeletable)
    ensures r.Ok? <==> id in st.invoices && (st.invoices[id].status.Draft? || st.invoices[id].status.Canceled?)
    ensures r.Ok? ==> r.value.parts == st.parts
    ensures r.Ok? ==> id !in r.value.invoices && r.value.invoices.Keys == st.invoices.Keys - {id}
    ensures r.Ok? ==> forall k :: k in r.value.invoices ==> r.value.invoices[k] == st.invoices[k]
  {
    if id !in st.invoices then Err(NotFound)
    else if st.invoices[id].status == Paid then Err(PaidNotDeletable)
    else if st.invoices[id].status == Issued then Err(IssuedNotDeletable)
    else Ok(st.(invoices := st.invoices - {id}))
  }

  /* ---------------------------- Duplicate --------------------------------- */

  /**
   * duplicateInvoiceAction: a new DRAFT under the fresh id `newId`, numbered
   * from the invoice count and the current `year`, copying customer,
   * vehicle, notes, totals and lines (positions renumbered). Creator and
   * group are not copied and stay null. The source reads the lines ordered
   * by position; the model copies them in stored order, which is the same
   * order in a well-formed invoice (`Positioned`), and every action keeps
   * the store well-formed. A number another invoice already carries is
   * refused by the unique index.
   */
  function DuplicateInvoice(st: Store, id: string, newId: string, year: nat): (r: Result<Store, InvoiceError>)
    requires newId !in st.invoices
    ensures id !in st.invoices ==> r == Err(NotFound)
    ensures id in st.invoices ==>
      (r.Ok? <==> !NumberTaken(st.invoices, Numbering.InvoiceNumber(year, |st.invoices|), newId))
    ensures id in st.invoices && NumberTaken(st.invoices, Numbering.InvoiceNumber(year, |st.invoices|), newId) ==>
      r == Err(DuplicateNumber)
    ensures r.Ok? ==>
      && r.value.parts == st.parts
      && r.value.invoices.Keys == st.invoices.Keys + {newId}
      && (forall k :: k in st.invoices ==> r.value.invoices[k] == st.invoices[k])
    ensures r.Ok? ==>
      var src := st.invoices[id];
      var copy := r.value.invoices[newId];
      && copy.status == Draft
      && copy.invoiceNumber == Numbering.InvoiceNumber(year, |st.invoices|)
      && copy.customerId == src.customerId
      && copy.vehicleId == src.vehicleId
      && copy.notes == src.notes
      && copy.subtotalHt == src.subtotalHt
      && copy.vatTotal == src.vatTotal
      && copy.totalTtc == src.totalTtc
      && copy.issuedAt.None? && copy.createdById.None? && copy.groupId.None?
      && |copy.items| == |src.items|
      && Positioned(copy.items)
      && forall i :: 0 <= i < |src.items| ==> copy.items[i] == src.items[i].(position := i)
  {
    if id !in st.invoices then Err(NotFound)
    else if NumberTaken(st.invoices, Numbering.InvoiceNumber(year, |st.invoices|), newId) then Err(DuplicateNumber)
    else
      var src := st.invoices[id];
      var items := seq(|src.items|, i requires 0 <= i < |src.items| => src.items[i].(position := i));
      var copy := Invoice(Numbering.InvoiceNumber(year, |st.invoices|), src.customerId, src.vehicleId, src.notes,
                          Draft, src.subtotalHt, src.vatTotal, src.totalTtc, None, None, None, items);
      Ok(st.(invoices := st.invoices[newId := copy]))
  }

  /** Duplicating a well-formed invoice copies its lines verbatim and keeps the store well-formed. */
  lemma DuplicatePreservesWellFormed(st: Store, id: string, newId: string, year: nat)
    requires StoreWellFormed(st) && newId !in st.invoices && id in st.invoices
    ensures DuplicateInvoice(st, id, newId, year).Ok? ==>
      DuplicateInvoice(st, id, newId, year).value.invoices[newId].items == st.invoices[id].items
    ensures DuplicateInvoice(st, id, newId, year).Ok? ==> StoreWellFormed(DuplicateInvoice(st, id, newId, year).value)
  {
    if DuplicateInvoice(st, id, newId, year).Err? {
      return;
    }
    var src := st.invoices[id];
    var copy := DuplicateInvoice(st, id, newId, year).value.invoices[newId];
    assert copy.items == src.items;
  }

  /**
   * The number is the invoice count plus one, so it repeats once any invoice
   * has been deleted: with the latest invoice numbered from count − 1, delete
   * another draft, and duplicating any invoice computes the latest invoice's
   * number again, which the unique index refuses.
   */
  lemma NumberRepeatsAfterDeletion(st: Store, draftId: string, latestId: string, srcId: string,
                                   newId: string, year: nat)
    requires draftId in st.invoices && st.invoices[draftId].status.Draft?
    requires latestId in st.invoices && latestId != draftId
    requires st.invoices[latestId].invoiceNumber == Numbering.InvoiceNumber(year, |st.invoices| - 1)
    requires srcId in st.invoices && srcId != draftId && newId !in st.invoices
    ensures DeleteInvoice(st, draftId).Ok?
    ensures var after := DeleteInvoice(st, draftId).value;
      && latestId in after.invoices
      && Numbering.InvoiceNumber(year, |after.invoices|) == after.invoices[latestId].invoiceNumber
      && DuplicateInvoice(after, srcId, newId, year) == Err(DuplicateNumber)
  {
    var after := DeleteInvoice(st, draftId).value;
    assert after.invoices.Keys == st.invoices.Keys - {draftId};
    assert |after.invoices.Keys| == |st.invoices.Keys| - 1;
    assert latestId in after.invoices && latestId != newId;
  }

  /* ------------------------------ Cancel ---------------------------------- */

  /** cancelInvoiceAction: any status becomes CANCELED; nothing else changes. */
  function CancelInvoice(st: Store, id: string): (r: Result<Store, InvoiceError>)
    ensures r.Ok? <==> id in st.invoices
    ensures id !in st.invoices ==> r == Err(NotFound)
    ensures r.Ok? ==> OnlyInvoiceChanged(st, r.value, id)
    ensures r.Ok? ==> r.value.invoices[id] == st.invoices[id].(status := Canceled)
  {
    if id !in st.invoices then Err(NotFound)
    else Ok(st.(invoices := st.invoices[id := st.invoices[id].(status := Canceled)]))
  }

  /** Whatever its status, a cancelled invoice can then be deleted, and can no longer be edited. */
  lemma CancelThenDelete(st: Store, id: string, form: FormInput)
    requires id in st.invoices
    ensures CancelInvoice(st, id).Ok?
    ensures DeleteInvoice(CancelInvoice(st, id).value, id).Ok?
    ensures ValidForm(form) ==> UpdateInvoice(CancelInvoice(st, id).value, id, form) == Err(NotEditable)
  {
  }

  /** Cancelling twice is cancelling once. */
  lemma CancelIdempotent(st: Store, id: string)
    requires id in st.invoices
    ensures CancelInvoice(CancelInvoice(st, id).value, id) == CancelInvoice(st, id)
  {
    var c := st.invoices[id].(status := Canceled);
    assert c.(status := Canceled) == c;
    assert st.invoices[id := c][id := c] == st.invoices[id := c];
  }

  /* ------------------------- Create from the form -------------------------- */

  /** Every PART line that names a part names a known one. */
  predicate PartsKnown(parts: map<string, Part>, items: seq<StoredItem>) {
    forall i :: 0 <= i < |items| && items[i].kind == PartLine && Truthy(items[i].partId) ==>
      items[i].partId.value in parts
  }

  /** Σ quantity over the PART lines that name part `pid`. */
  function Consumed(items: seq<StoredItem>, pid: string): real
    decreases |items|
  {
    if |items| == 0 then 0.0
    else
      (if items[0].kind == PartLine && Truthy(items[0].partId) && items[0].partId.value == pid
       then items[0].quantity else 0.0)
      + Consumed(items[1..], pid)
  }

  /**
   * The stock loop of createInvoiceAction: each PART line with a part id
   * lowers that part's stock by its quantity. An unknown part makes the
   * update throw. No availability check: stock may go below zero.
   */
  function DecrementStock(parts: map<string, Part>, items: seq<StoredItem>): (r: Result<map<string, Part>, string>)
    ensures r.Ok? <==> PartsKnown(parts, items)
    ensures r.Err? ==> r.error !in parts
    ensures r.Ok? ==> r.value.Keys == parts.Keys
    ensures r.Ok? ==> forall p :: p in parts ==>
      r.value[p] == parts[p].(stockQty := parts[p].stockQty - Consumed(items, p))
    decreases |items|
  {
    if |items| == 0 then Ok(parts)
    else
      var it := items[0];
      assert PartsKnown(parts, items) <==>
        (it.kind == PartLine && Truthy(it.partId) ==> it.partId.value in parts) && PartsKnown(parts, items[1..]) by {
        assert forall i :: 1 <= i < |items| ==> items[i] == items[1..][i - 1];
      }
      if it.kind == PartLine && Truthy(it.partId) then
        var pid := it.partId.value;
        if pid !in parts then Err(pid)
        else
          var p := parts[pid];
          var parts' := parts[pid := p.(stockQty := p.stockQty - it.quantity)];
          assert parts'.Keys == parts.Keys;
          DecrementStock(parts', items[1..])
      else DecrementStock(parts, items[1..])
  }

  /** LABOR lines and PART lines without a part id touch no stock. */
  lemma NoPartLinesNoStockChange(parts: map<string, Part>, items: seq<StoredItem>)
    requires forall i :: 0 <= i < |items| ==> items[i].kind == LaborLine || !Truthy(items[i].partId)
    ensures DecrementStock(parts, items) == Ok(parts)
  {
    var r := DecrementStock(parts, items);
    forall p | p in parts
      ensures Consumed(items, p) == 0.0
    {
      ConsumedZero(items, p);
    }
    assert r.value == parts;
  }

  lemma {:induction false} ConsumedZero(items: seq<StoredItem>, p: string)
    requires forall i :: 0 <= i < |items| ==> items[i].kind == LaborLine || !Truthy(items[i].partId)
    ensures Consumed(items, p) == 0.0
    decreases |items|
  {
    if |items| > 0 {
      ConsumedZero(items[1..], p);
    }
  }

  /** Two lines of one part lower its stock by their sum, even below zero. */
  lemma StockExample()
    ensures var parts := map["p" := Part("Filtre", 15.0, 20.0, 4.0, 2.0)];
      var line := (q: real) => StoredItem(PartLine, Some("p"), "Filtre", q, 15.0, 20.0, 15.0 * q, 18.0 * q, 0);
      var r := DecrementStock(parts, [line(2.0), line(3.0)]);
      r.Ok? && r.value["p"].stockQty == -1.0
  {
    var line := (q: real) => StoredItem(PartLine, Some("p"), "Filtre", q, 15.0, 20.0, 15.0 * q, 18.0 * q, 0);
    var items := [line(2.0), line(3.0)];
    assert items[1..] == [line(3.0)];
    assert [line(3.0)][1..] == [];
    assert Consumed([line(3.0)], "p") == 3.0;
    assert Consumed(items, "p") == 5.0;
  }

  /**
   * createInvoiceAction: requires a session, validates, then in one
   * transaction creates an ISSUED invoice under the fresh id `newId` and
   * decrements stock. An unknown part rolls the whole transaction back.
   */
  function CreateInvoice(st: Store, session: MaybeSession, form: FormInput, newId: string, now: Time)
    : (r: Result<Store, InvoiceError>)
    requires newId !in st.invoices
    ensures session.None? ==> r == Err(NotAuthenticated)
    ensures session.Some? && !ValidForm(form) ==> r == Err(InvalidData)
    ensures session.Some? && ValidForm(form) ==>
      (r.Ok? <==> !NumberTaken(st.invoices, form.invoiceNumber, newId) && PartsKnown(st.parts, RebuildItems(form.items)))
    ensures session.Some? && ValidForm(form) && NumberTaken(st.invoices, form.invoiceNumber, newId) ==>
      r == Err(DuplicateNumber)
    ensures r.Ok? ==> newId in r.value.invoices
    ensures r.Ok? ==>
      var inv := r.value.invoices[newId];
      && session.Some? && ValidForm(form)
      && r.value.invoices == st.invoices[newId := inv]
      && WellFormed(inv)
      && inv.status == Issued
      && inv.issuedAt == Some(now)
      && inv.createdById == Some(session.value.id)
      && inv.groupId == OrNull(session.value.groupId)
      && inv.invoiceNumber == form.invoiceNumber
      && inv.customerId == form.customerId
      && inv.vehicleId == OrNull(form.vehicleId)
      && inv.notes == form.notes
      && inv.items == RebuildItems(form.items)
      && r.value.parts.Keys == st.parts.Keys
      && forall p :: p in st.parts ==>
           r.value.parts[p] == st.parts[p].(stockQty := st.parts[p].stockQty - Consumed(inv.items, p))
  {
    if session.None? then Err(NotAuthenticated)
    else if !ValidForm(form) then Err(InvalidData)
    // the invoice row is written first, so the unique index refuses it before any stock update
    else if NumberTaken(st.invoices, form.invoiceNumber, newId) then Err(DuplicateNumber)
    else
      var user := session.value;
      var header := Invoice(form.invoiceNumber, form.customerId, OrNull(form.vehicleId), form.notes, Issued,
                            0.0, 0.0, 0.0, Some(now), Some(user.id), OrNull(user.groupId), []);
      var inv := WithItems(header, form.items);
      WithItemsWellFormed(header, form.items);
      match DecrementStock(st.parts, inv.items)
      case Err(pid) => Err(UnknownPart(pid))
      case Ok(parts') => Ok(Store(st.invoices[newId := inv], parts'))
  }

  /** Creation from the form keeps a well-formed store well-formed. */
  lemma CreatePreservesWellFormed(st: Store, session: MaybeSession, form: FormInput, newId: string, now: Time)
    requires StoreWellFormed(st) && newId !in st.invoices
    requires CreateInvoice(st, session, form, newId, now).Ok?
    ensures StoreWellFormed(CreateInvoice(st, session, form, newId, now).value)
  {
  }

  /* --------------------------- Unique numbers ----------------------------- */

  /** Writing an invoice under `id` keeps numbers unique when no other invoice carries its number. */
  lemma WriteKeepsNumbersUnique(invoices: map<string, Invoice>, id: string, inv: Invoice)
    requires NumbersUnique(invoices)
    requires !NumberTaken(invoices, inv.invoiceNumber, id)
    ensures NumbersUnique(invoices[id := inv])
  {
  }

  /** A successful update keeps the invoice numbers unique. */
  lemma UpdateKeepsNumbersUnique(st: Store, id: string, form: FormInput)
    requires NumbersUnique(st.invoices)
    ensures UpdateInvoice(st, id, form).Ok? ==> NumbersUnique(UpdateInvoice(st, id, form).value.invoices)
  {
    var r := UpdateInvoice(st, id, form);
    if r.Ok? {
      WriteKeepsNumbersUnique(st.invoices, id, r.value.invoices[id]);
      assert r.value.invoices == st.invoices[id := r.value.invoices[id]];
    }
  }

  /** A successful duplication keeps the invoice numbers unique. */
  lemma DuplicateKeepsNumbersUnique(st: Store, id: string, newId: string, year: nat)
    requires NumbersUnique(st.invoices) && newId !in st.invoices
    ensures DuplicateInvoice(st, id, newId, year).Ok? ==>
      NumbersUnique(DuplicateInvoice(st, id, newId, year).value.invoices)
  {
    var r := DuplicateInvoice(st, id, newId, year);
    if r.Ok? {
      WriteKeepsNumbersUnique(st.invoices, newId, r.value.invoices[newId]);
      assert r.value.invoices == st.invoices[newId := r.value.invoices[newId]];
    }
  }

  /** A successful creation from the form keeps the invoice numbers unique. */
  lemma CreateKeepsNumbersUnique(st: Store, session: MaybeSession, form: FormInput, newId: string, now: Time)
    requires NumbersUnique(st.invoices) && newId !in st.invoices
    ensures CreateInvoice(st, session, form, newId, now).Ok? ==>
      NumbersUnique(CreateInvoice(st, session, form, newId, now).value.invoices)
  {
    var r := CreateInvoice(st, session, form, newId, now);
    if r.Ok? {
      WriteKeepsNumbersUnique(st.invoices, newId, r.value.invoices[newId]);
    }
  }

  /** Deleting and cancelling keep the invoice numbers unique. */
  lemma DeleteCancelKeepNumbersUnique(st: Store, id: string)
    requires NumbersUnique(st.invoices)
    ensures DeleteInvoice(st, id).Ok? ==> NumbersUnique(DeleteInvoice(st, id).value.invoices)
    ensures CancelInvoice(st, id).Ok? ==> NumbersUnique(CancelInvoice(st, id).value.invoices)
  {
  }
}
