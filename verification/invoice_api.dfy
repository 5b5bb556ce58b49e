/**
 * The `/api/invoices` endpoint: GET lists the invoices the session may see,
 * with status statistics; POST creates a DRAFT invoice.
 */
module InvoiceApi {
  import opened Wrappers
  import opened Session
  import opened InvoiceSchema
  import opened Invoices
  import Money
  import Numbering

  datatype ApiError =
    | Unauthorized   // 401 {"error": "Unauthorized"}
    | ServerError    // 500 {"error": "Failed to create invoice"}

  /** The list statistics returned beside the invoices. */
  datatype Stats = Stats(total: nat, draft: nat, issued: nat, paid: nat, totalPaid: real, totalPending: real)

  /* ------------------------------ Visibility ------------------------------ */

  /**
   * The GET filter: an ADMIN sees everything; anyone else sees what they
   * created, plus their group's invoices when they have a (non-empty) group.
   */
  predicate Visible(user: SessionUser, inv: Invoice) {
    || user.role == Admin
    || inv.createdById == Some(user.id)
    || (Truthy(user.groupId) && inv.groupId == user.groupId)
  }

  /** The rows the session user may see, in their original order. */
  function FilterVisible(user: SessionUser, rows: seq<Invoice>): (r: seq<Invoice>)
    ensures |r| <= |rows|
    ensures forall i :: 0 <= i < |r| ==> Visible(user, r[i])
    ensures forall x :: multiset(r)[x] == if Visible(user, x) then multiset(rows)[x] else 0
    decreases |rows|
  {
    if |rows| == 0 then []
    else
      var rest := FilterVisible(user, rows[1..]);
      assert rows == [rows[0]] + rows[1..];
      if Visible(user, rows[0]) then [rows[0]] + rest else rest
  }

  /** Filtering distributes over concatenation: the relative order of rows is kept. */
  lemma {:induction false} FilterVisibleConcat(user: SessionUser, a: seq<Invoice>, b: seq<Invoice>)
    ensures FilterVisible(user, a + b) == FilterVisible(user, a) + FilterVisible(user, b)
    decreases |a|
  {
    if |a| > 0 {
      assert (a + b)[1..] == a[1..] + b;
      FilterVisibleConcat(user, a[1..], b);
    } else {
      assert a + b == b;
    }
  }

  /** An ADMIN sees every row. */
  lemma {:induction false} AdminSeesAll(user: SessionUser, rows: seq<Invoice>)
    requires user.role == Admin
    ensures FilterVisible(user, rows) == rows
    decreases |rows|
  {
    if |rows| > 0 {
      AdminSeesAll(user, rows[1..]);
      assert rows == [rows[0]] + rows[1..];
    }
  }

  /** A non-admin without a group sees exactly the rows they created. */
  lemma NoGroupSeesOwnOnly(user: SessionUser, inv: Invoice)
    requires user.role != Admin && !Truthy(user.groupId)
    ensures Visible(user, inv) <==> inv.createdById == Some(user.id)
  {
  }

  /** A non-admin sees a row iff they created it or share its non-null group. */
  lemma NonAdminVisibility(user: SessionUser, inv: Invoice)
    requires user.role == User && user.groupId != Some("")
    ensures Visible(user, inv) <==>
      inv.createdById == Some(user.id) || (user.groupId.Some? && inv.groupId == user.groupId)
  {
  }

  /* -------------------------------- Stats --------------------------------- */

  /** `invoices.filter((i) => i.status === s)` */
  function WithStatus(rows: seq<Invoice>, s: Status): (r: seq<Invoice>)
    ensures forall i :: 0 <= i < |r| ==> r[i].status == s
    ensures forall x :: multiset(r)[x] == if x.status == s then multiset(rows)[x] else 0
    decreases |rows|
  {
    if |rows| == 0 then []
    else
      var rest := WithStatus(rows[1..], s);
      assert rows == [rows[0]] + rows[1..];
      if rows[0].status == s then [rows[0]] + rest else rest
  }

  function TotalTtcOf(inv: Invoice): real {
    inv.totalTtc
  }

  /** The stats object computed from the visible rows. */
  function ComputeStats(rows: seq<Invoice>): Stats {
    Stats(|rows|,
          |WithStatus(rows, Draft)|, |WithStatus(rows, Issued)|, |WithStatus(rows, Paid)|,
          Money.Sum(WithStatus(rows, Paid), TotalTtcOf),
          Money.Sum(WithStatus(rows, Issued), TotalTtcOf))
  }

  /** Every row has exactly one of the four statuses. */
  lemma {:induction false} StatusCountsPartition(rows: seq<Invoice>)
    ensures |WithStatus(rows, Draft)| + |WithStatus(rows, Issued)| + |WithStatus(rows, Paid)|
            + |WithStatus(rows, Canceled)| == |rows|
    decreases |rows|
  {
    if |rows| > 0 {
      StatusCountsPartition(rows[1..]);
    }
  }

  /** CANCELED rows count only toward `total`, so draft + issued + paid ≤ total. */
  lemma StatsBounded(rows: seq<Invoice>)
    ensures var s := ComputeStats(rows);
      s.draft + s.issued + s.paid + |WithStatus(rows, Canceled)| == s.total
      && s.draft + s.issued + s.paid <= s.total
  {
    StatusCountsPartition(rows);
  }

  /** Non-negative amounts give non-negative totalPaid and totalPending. */
  lemma StatsAmountsNonNegative(rows: seq<Invoice>)
    requires forall i :: 0 <= i < |rows| ==> rows[i].totalTtc >= 0.0
    ensures ComputeStats(rows).totalPaid >= 0.0
    ensures ComputeStats(rows).totalPending >= 0.0
  {
    var paid := WithStatus(rows, Paid);
    var issued := WithStatus(rows, Issued);
    forall i | 0 <= i < |paid|
      ensures TotalTtcOf(paid[i]) >= 0.0
    {
      assert paid[i] in multiset(paid);
      assert paid[i] in rows;
    }
    forall i | 0 <= i < |issued|
      ensures TotalTtcOf(issued[i]) >= 0.0
    {
      assert issued[i] in multiset(issued);
      assert issued[i] in rows;
    }
    Money.SumNonNegative(paid, TotalTtcOf);
    Money.SumNonNegative(issued, TotalTtcOf);
  }

  /**
   * GET /api/invoices over `rows`, the invoices as the query returns them:
   * newest first (`orderBy createdAt desc`). The creation time is not part of
   * the store, so the order is that of `rows`, which the result keeps.
   */
  function ListInvoices(session: MaybeSession, rows: seq<Invoice>): (r: Result<(seq<Invoice>, Stats), ApiError>)
    ensures session.None? <==> r == Err(Unauthorized)
    ensures r.Ok? ==>
      && r.value.0 == FilterVisible(session.value, rows)
      && r.value.1 == ComputeStats(r.value.0)
      && r.value.1.total == |r.value.0|
  {
    if session.None? then Err(Unauthorized)
    else
      var visible := FilterVisible(session.value, rows);
      Ok((visible, ComputeStats(visible)))
  }

  /* -------------------------------- Create -------------------------------- */

  /** The JSON body of POST; `items` may be missing. Nothing in it is validated. */
  datatype ApiBody = ApiBody(
    invoiceNumber: Option<string>,
    customerId: string,
    vehicleId: Option<string>,
    notes: Option<string>,
    items: Option<seq<ItemInput>>)

  /** The database accepts a line kind only if it is one of the enumeration's values. */
  predicate KindsStorable(items: seq<ItemInput>) {
    forall i :: 0 <= i < |items| ==> ParseKind(items[i].kind).Some?
  }

  /**
   * POST /api/invoices: a DRAFT invoice under the fresh id `newId`, numbered
   * from the body when it carries a non-empty number and from the invoice
   * count and `year` otherwise. A line kind outside the enumeration, or a
   * number another invoice already carries, makes the database refuse the
   * row (500, nothing written).
   */
  function CreateViaApi(st: Store, session: MaybeSession, body: ApiBody, newId: string, year: nat)
    : (r: Result<Store, ApiError>)
    requires newId !in st.invoices
    ensures session.None? ==> r == Err(Unauthorized)
    ensures session.Some? ==>
      var number := if Truthy(body.invoiceNumber) then body.invoiceNumber.value
                    else Numbering.InvoiceNumber(year, |st.invoices|);
      (r.Ok? <==> KindsStorable(body.items.GetOr([])) && !NumberTaken(st.invoices, number, newId))
    ensures r.Err? && session.Some? ==> r.error == ServerError
    ensures r.Ok? ==> newId in r.value.invoices
    ensures r.Ok? ==>
      var inv := r.value.invoices[newId];
      && r.value.parts == st.parts
      && r.value.invoices == st.invoices[newId := inv]
      && WellFormed(inv)
      && inv.status == Draft
      && inv.issuedAt.None?
      && inv.createdById == Some(session.value.id)
      && inv.groupId == OrNull(session.value.groupId)
      && inv.invoiceNumber == (if Truthy(body.invoiceNumber) then body.invoiceNumber.value
                               else Numbering.InvoiceNumber(year, |st.invoices|))
      && inv.customerId == body.customerId
      && inv.vehicleId == OrNull(body.vehicleId)
      && inv.notes == body.notes
      && inv.items == RebuildItems(body.items.GetOr([]))
  {
    if session.None? then Err(Unauthorized)
    else
      var user := session.value;
      var items := body.items.GetOr([]);
      var number := if Truthy(body.invoiceNumber) then body.invoiceNumber.value
                    else Numbering.InvoiceNumber(year, |st.invoices|);
      var header := Invoice(number, body.customerId, OrNull(body.vehicleId), body.notes, Draft,
                            0.0, 0.0, 0.0, None, Some(user.id), OrNull(user.groupId), []);
      var inv := WithItems(header, items);
      WithItemsWellFormed(header, items);
      if !KindsStorable(items) || NumberTaken(st.invoices, number, newId) then Err(ServerError)
      else Ok(st.(invoices := st.invoices[newId := inv]))
  }

  /** A body without `items` creates an invoice with no lines and all-zero totals, unless its number is taken. */
  lemma MissingItemsZeroTotals(st: Store, user: SessionUser, body: ApiBody, newId: string, year: nat)
    requires newId !in st.invoices && body.items.None?
    ensures CreateViaApi(st, Some(user), body, newId, year).Ok? ==>
      var inv := CreateViaApi(st, Some(user), body, newId, year).value.invoices[newId];
      inv.items == [] && inv.subtotalHt == 0.0 && inv.vatTotal == 0.0 && inv.totalTtc == 0.0
    ensures !Truthy(body.invoiceNumber) ==>
      (CreateViaApi(st, Some(user), body, newId, year).Ok? <==>
       !NumberTaken(st.invoices, Numbering.InvoiceNumber(year, |st.invoices|), newId))
  {
  }

  /** The form action issues while the API drafts: the two creation paths differ only there for the same lines. */
  lemma FormIssuesApiDrafts(st: Store, user: SessionUser, form: FormInput, newId: string, now: Time, year: nat)
    requires newId !in st.invoices && ValidForm(form)
    requires CreateInvoice(st, Some(user), form, newId, now).Ok?
    ensures var api := CreateViaApi(st, Some(user), ApiBody(Some(form.invoiceNumber), form.customerId,
                                     form.vehicleId, form.notes, Some(form.items)), newId, year);
      && api.Ok?
      && api.value.invoices[newId].status == Draft
      && CreateInvoice(st, Some(user), form, newId, now).value.invoices[newId].status == Issued
      && api.value.invoices[newId].items == CreateInvoice(st, Some(user), form, newId, now).value.invoices[newId].items
      && api.value.invoices[newId].totalTtc == CreateInvoice(st, Some(user), form, newId, now).value.invoices[newId].totalTtc
      && api.value.invoices[newId].customerId == CreateInvoice(st, Some(user), form, newId, now).value.invoices[newId].customerId
      && api.value.invoices[newId].notes == CreateInvoice(st, Some(user), form, newId, now).value.invoices[newId].notes
      && api.value.invoices[newId].vehicleId == CreateInvoice(st, Some(user), form, newId, now).value.invoices[newId].vehicleId
  {
  }

  /** A successful creation through the API keeps the invoice numbers unique. */
  lemma ApiCreateKeepsNumbersUnique(st: Store, session: MaybeSession, body: ApiBody, newId: string, year: nat)
    requires NumbersUnique(st.invoices) && newId !in st.invoices
    ensures CreateViaApi(st, session, body, newId, year).Ok? ==>
      NumbersUnique(CreateViaApi(st, session, body, newId, year).value.invoices)
  {
    var r := CreateViaApi(st, session, body, newId, year);
    if r.Ok? {
      WriteKeepsNumbersUnique(st.invoices, newId, r.value.invoices[newId]);
    }
  }
}
