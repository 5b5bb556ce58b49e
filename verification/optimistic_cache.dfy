/**
 * The client cache of `/api/invoices` and its optimistic updaters
 * (useInvoices, useUpdateInvoiceStatus, useDeleteInvoice).
 */
module OptimisticCache {
  import opened Wrappers
  import opened Invoices
  import opened InvoiceApi

  /** One row of the cached list. */
  datatype ListItem = ListItem(
    id: string,
    invoiceNumber: string,
    status: Status,
    issuedAt: Option<string>,
    totalTtc: real,
    createdAt: string,
    createdById: Option<string>,
    groupId: Option<string>,
    customerId: string,
    vehicleId: Option<string>)

  /** The cached response; `None` while nothing has been fetched. */
  datatype Response = Response(invoices: seq<ListItem>, stats: Stats)

  const ZeroStats := Stats(0, 0, 0, 0, 0.0, 0.0)

  /** What `useInvoices` hands to the page: the cached list and stats, or empty defaults. */
  function View(data: Option<Response>): (r: (seq<ListItem>, Stats))
    ensures data.None? ==> r.0 == [] && r.1 == Stats(0, 0, 0, 0, 0.0, 0.0)
    ensures data.Some? ==> r.0 == data.value.invoices && r.1 == data.value.stats
  {
    match data
    case None => ([], ZeroStats)
    case Some(d) => (d.invoices, d.stats)
  }

  function SetStatusRows(rows: seq<ListItem>, id: string, s: Status): (r: seq<ListItem>)
    ensures |r| == |rows|
    ensures forall i :: 0 <= i < |rows| ==> r[i] == if rows[i].id == id then rows[i].(status := s) else rows[i]
  {
    seq(|rows|, i requires 0 <= i < |rows| => if rows[i].id == id then rows[i].(status := s) else rows[i])
  }

  /**
   * The status updater: no data stays no data; otherwise every row with the
   * id gets the new status, all else (order, other rows, stats) is kept.
   */
  function OptimisticSetStatus(data: Option<Response>, id: string, s: Status): (r: Option<Response>)
    ensures data.None? <==> r.None?
    ensures r.Some? ==>
      && r.value.stats == data.value.stats
      && |r.value.invoices| == |data.value.invoices|
      && (forall i :: 0 <= i < |data.value.invoices| && data.value.invoices[i].id == id ==>
            r.value.invoices[i].status == s && r.value.invoices[i] == data.value.invoices[i].(status := s))
      && (forall i :: 0 <= i < |data.value.invoices| && data.value.invoices[i].id != id ==>
            r.value.invoices[i] == data.value.invoices[i])
  {
    match data
    case None => None
    case Some(d) => Some(d.(invoices := SetStatusRows(d.invoices, id, s)))
  }

  /** `invoices.filter((inv) => inv.id !== id)` */
  function RemoveRows(rows: seq<ListItem>, id: string): (r: seq<ListItem>)
    ensures |r| <= |rows|
    ensures forall i :: 0 <= i < |r| ==> r[i].id != id
    ensures forall x :: multiset(r)[x] == if x.id == id then 0 else multiset(rows)[x]
    decreases |rows|
  {
    if |rows| == 0 then []
    else
      var rest := RemoveRows(rows[1..], id);
      assert rows == [rows[0]] + rows[1..];
      if rows[0].id != id then [rows[0]] + rest else rest
  }

  /** The delete updater: drops exactly the rows with the id and keeps the stats. */
  function OptimisticDelete(data: Option<Response>, id: string): (r: Option<Response>)
    ensures data.None? <==> r.None?
    ensures r.Some? ==> r.value.stats == data.value.stats && r.value.invoices == RemoveRows(data.value.invoices, id)
  {
    match data
    case None => None
    case Some(d) => Some(d.(invoices := RemoveRows(d.invoices, id)))
  }

  /** Removing distributes over concatenation: the survivors keep their relative order. */
  lemma {:induction false} RemoveRowsConcat(a: seq<ListItem>, b: seq<ListItem>, id: string)
    ensures RemoveRows(a + b, id) == RemoveRows(a, id) + RemoveRows(b, id)
    decreases |a|
  {
    if |a| > 0 {
      assert (a + b)[1..] == a[1..] + b;
      RemoveRowsConcat(a[1..], b, id);
    } else {
      assert a + b == b;
    }
  }

  /** A list without the id is left exactly as it was. */
  lemma {:induction false} RemoveAbsentIsIdentity(rows: seq<ListItem>, id: string)
    requires forall i :: 0 <= i < |rows| ==> rows[i].id != id
    ensures RemoveRows(rows, id) == rows
    decreases |rows|
  {
    if |rows| > 0 {
      RemoveAbsentIsIdentity(rows[1..], id);
      assert rows == [rows[0]] + rows[1..];
    }
  }

  /** Setting the same status twice is setting it once. */
  lemma SetStatusIdempotent(data: Option<Response>, id: string, s: Status)
    ensures OptimisticSetStatus(OptimisticSetStatus(data, id, s), id, s) == OptimisticSetStatus(data, id, s)
  {
    if data.Some? {
      var rows := data.value.invoices;
      assert SetStatusRows(SetStatusRows(rows, id, s), id, s) == SetStatusRows(rows, id, s);
    }
  }

  /** Deleting after an optimistic status change is the same as deleting directly. */
  lemma {:induction false} DeleteAfterSetStatus(rows: seq<ListItem>, id: string, s: Status)
    ensures RemoveRows(SetStatusRows(rows, id, s), id) == RemoveRows(rows, id)
    decreases |rows|
  {
    if |rows| > 0 {
      var updated := SetStatusRows(rows, id, s);
      assert updated[1..] == SetStatusRows(rows[1..], id, s);
      DeleteAfterSetStatus(rows[1..], id, s);
    }
  }
}
