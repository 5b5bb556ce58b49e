# Garage management: a Dafny model of the invoicing core

This project models the core of a garage-management web application. The
application keeps customers, their vehicles, spare parts, invoices and their
lines. Users belong to at most one group, and administrators manage users and
groups.

The model covers these parts:

- **Invoice money.** Each line has an HT amount (before tax), a VAT amount and
  a TTC amount (tax included). The document totals are sums of these.
- **The invoice schema.** This is the validation of a submitted invoice form
  and of each of its lines.
- **Invoice numbering.** A number has the form `FAC-<year>-<count + 1>`. The
  count is padded on the left with `0` to four digits.
- **The invoice server actions.** These are create from the form, update,
  delete, duplicate and cancel, plus the stock decrement that creation
  performs.
- **The `/api/invoices` endpoint.** GET lists the invoices the session may see
  and their status statistics. POST creates a draft.
- **The client side of invoicing.** This covers the form's live totals, part
  selection, the low-stock flag and the rule that the last line cannot be
  removed. It also covers the optimistic updates of the cached invoice list.
- **The invoice PDF's text helpers.** These trim and truncate text, join the
  non-blank parts, merge the company record, build the customer name, split
  the line table at eight rows and choose the status label.
- **The request guard and the top bar.** The guard's matcher skips build
  assets, the favicon and image files. For every other request the guard
  decides whether it proceeds, gets 401/403 or is redirected. The top bar's
  path helpers choose the back link, the section title and the highlighted
  button.
- **The administrator's actions** on users and groups.
- **The customer and vehicle actions.** These are the edit schemas, the
  updates, the deletion guards and the customer picker's labels.

The database is an immutable store of maps keyed by id. Each server action is
a pure function that returns the new store or the error the action throws.

- An error carries no store, so a failed action changes nothing. This is also
  how the one multi-row transaction is modelled: the invoice is created and
  stock is decremented, or an unknown part rolls both back.
- The database rejects an update or delete of a missing row. The model returns
  `NotFound` instead.
- The database rejects a foreign key that names no row. The model returns
  `UnknownGroup` or `UnknownCustomer` instead.
- The model assumes a unique index on the invoice number (`Invoices.NumberTaken`).
  The database schema, prisma/schema.prisma, is not part of this model. Under
  this assumption, a write that would repeat another invoice's number fails:
  the form actions return `DuplicateNumber` and the API answers 500.
- JavaScript's `x || null` is `Wrappers.OrNull`: an empty string becomes null.
  The `??` operator on a value that may be missing is `Option.GetOr`. A number
  input of the invoice form is `InvoiceForm.NumInput` instead: it may be unset,
  cleared (the empty string, which `??` keeps and arithmetic turns into 0) or
  hold a number.

Several things the application reads from outside are parameters of the model:

- the current time and the current year;
- the fresh id the database assigns;
- the password hash function;
- the e-mail validator;
- `parseInt`, with `None` standing for NaN.

Where the code and its documentation disagree, the model follows the code:

- **Duplication does not set an owner.** A duplicated invoice is created
  without `createdById` or `groupId`, so both are null. Ownership is not reset
  to the acting user (app/invoices/actions.ts:162-186).
- **Most invoice actions do no access check.** The invoice update, delete,
  duplicate and cancel actions check no session or role. Only creation from
  the form requires a session. The model follows this.

## Model

| member | source | states |
|---|---|---|
| Wrappers.OrNull | app/invoices/new/actions.ts:44 | `x \|\| null` on an optional string gives a value exactly when the input is present and non-empty, and then it gives the input unchanged |
| Money.TotalTtcIsSumOfLineTtc | app/invoices/new/actions.ts:34-55 | the stored totalTtc (subtotalHt + vatTotal) equals the sum of the lines' TTC amounts |
| Money.TotalsOrderIndependent | app/invoices/new/actions.ts:34-55 | two line lists that are permutations of each other have identical document totals |
| Money.TotalsConcat | app/invoices/new/actions.ts:34-55 | the totals of two line lists appended together are the field-by-field sums of their totals |
| Money.SumPermutation | app/invoices/new/actions.ts:39-40 | the accumulated sum of a list does not depend on the order of its elements |
| Money.SumConcat | app/invoices/new/actions.ts:39-40 | the sum over an appended list is the sum of the two sums |
| Money.LineAmountsNonNegative | app/invoices/new/actions.ts:35-37 | a line with non-negative quantity, price and rate has 0 ≤ HT ≤ TTC and non-negative VAT |
| Money.TotalsNonNegative | app/invoices/new/actions.ts:34-55 | lines with non-negative fields give non-negative subtotal and VAT, and subtotal ≤ TTC |
| Money.TwoLineExample | prisma/seed.ts:246-253 | 1 × 52.00 at 20 % is 62.40 TTC, as the seed data records; adding 2 × 45.00 gives 142.00 / 28.40 / 170.40 |
| InvoiceSchema.ParseKind | src/features/invoices/invoice.schema.ts:3 | the kind enumeration accepts exactly "PART" and "LABOR", each mapping to its own kind, and refuses every other string |
| InvoiceSchema.ValidItemIff | src/features/invoices/invoice.schema.ts:5-13 | a line is valid if and only if its kind is PART or LABOR, its description is non-empty, quantity ≥ 0.01, price ≥ 0 and 0 ≤ rate ≤ 100 |
| InvoiceSchema.ValidItemAmounts | src/features/invoices/invoice.schema.ts:10-12 | a valid line has a strictly positive quantity and non-negative amounts with HT ≤ TTC |
| InvoiceSchema.ValidFormTotals | src/features/invoices/invoice.schema.ts:15-21 | a valid form's document totals are non-negative, with subtotal ≤ TTC |
| InvoiceSchema.PartIdIndependentOfKind | src/features/invoices/invoice.schema.ts:8 | the part id never decides a line's validity, whatever the kind: a PART line without a part is accepted |
| InvoiceSchema.OptionalFieldsIrrelevant | src/features/invoices/invoice.schema.ts:18-19 | vehicleId and notes never change whether a form is accepted |
| InvoiceSchema.InvalidLineInvalidatesForm | src/features/invoices/invoice.schema.ts:20 | one invalid line makes the whole form invalid, and so does an empty line list |
| Numbering.PadStart | app/api/invoices/route.ts:179-182 | padding on the left reaches the requested width, never truncates, keeps the original as a suffix and fills only with the pad character |
| Numbering.DecimalRoundTrip | app/invoices/actions.ts:158-160 | reading back the decimal digits of `String(n)` gives n |
| Numbering.LeadingZerosValue | app/invoices/actions.ts:158-160 | padding digits with leading zeros does not change the number they denote |
| Numbering.SequenceRoundTrip | app/invoices/actions.ts:157-160 | the padded sequence has at least four digits, keeps every digit of count + 1 and denotes count + 1 |
| Numbering.InvoiceNumberInjective | app/api/invoices/route.ts:177-183 | in one year, two different invoice counts never give the same number |
| Numbering.FirstNumberOf2025 | app/invoices/actions.ts:157-160 | with no invoice yet, the number in 2025 is FAC-2025-0001 |
| Invoices.RebuiltItemsShape | app/invoices/new/actions.ts:34-53 | each stored line sits at its index and copies the submitted fields. Its amounts follow the line formulas. Its part id is null exactly when the submitted id is missing or empty |
| Invoices.RebuiltSums | app/invoices/new/actions.ts:34-53 | the stored lines' HT and TTC amounts add up to the document totals of the submitted lines |
| Invoices.WithItemsWellFormed | app/invoices/actions.ts:46-91 | replacing an invoice's lines always yields a well-formed invoice. Positions are ranks, each line is consistent, and the stored totals are the line sums with TTC = HT + VAT |
| Invoices.BuildItemsData | app/invoices/new/actions.ts:30-55 | the single accumulating loop produces exactly the rebuilt lines and the document totals |
| Invoices.UpdateInvoice | app/invoices/actions.ts:16-96 | error cases: an invalid form is refused, a missing invoice is NotFound, and PAID or CANCELED is NotEditable; a number another invoice carries is DuplicateNumber. Success happens exactly for DRAFT and ISSUED with a number no other invoice carries. On success only that invoice changes: its lines and totals are rebuilt, the header fields come from the form, missing notes keep the old ones, and status, issue date, creator and group are kept |
| Invoices.UpdatePreservesWellFormed | app/invoices/actions.ts:69-91 | an update keeps every invoice of the store well-formed |
| Invoices.DeleteInvoice | app/invoices/actions.ts:102-137 | error cases: a missing invoice is NotFound, PAID and ISSUED are refused with their own errors; deletion succeeds exactly for DRAFT and CANCELED. It removes that invoice with its lines and keeps everything else |
| Invoices.NumberRepeatsAfterDeletion | app/invoices/actions.ts:157-160 | the number is the count plus one, so after any deletion the duplicate's number is the one the latest invoice already has, and the duplication is refused |
| Invoices.DuplicateInvoice | app/invoices/actions.ts:142-190 | a missing invoice is NotFound, and a next sequence number another invoice carries is DuplicateNumber. Otherwise a new DRAFT is added under a fresh id with the next sequence number; it copies customer, vehicle, notes, totals and lines (renumbered by rank) and has no issue date, creator or group. Existing invoices are untouched |
| Invoices.DuplicatePreservesWellFormed | app/invoices/actions.ts:162-186 | duplicating a well-formed invoice copies its lines verbatim, so the stored order is the position order the source reads, and keeps the store well-formed |
| Invoices.CancelInvoice | app/invoices/actions.ts:195-201 | any existing invoice becomes CANCELED with nothing else changed, and a missing one is NotFound |
| Invoices.CancelThenDelete | app/invoices/actions.ts:34-38 | after cancelling, any invoice can be deleted and can no longer be edited, whatever its former status |
| Invoices.CancelIdempotent | app/invoices/actions.ts:195-201 | cancelling twice is cancelling once |
| Invoices.DecrementStock | app/invoices/new/actions.ts:80-91 | the stock update succeeds exactly when every PART line with a part id names a known part, and otherwise reports a missing id. Each part's stock drops by the total quantity of its lines, with no lower bound, and no part is added or removed |
| Invoices.NoPartLinesNoStockChange | app/invoices/new/actions.ts:81 | LABOR lines and PART lines without a part id leave all stock unchanged |
| Invoices.StockExample | app/invoices/new/actions.ts:80-91 | two lines of one part lower its stock by their sum, even below zero (4 − 2 − 3 = −1) |
| Invoices.UpdateKeepsNumbersUnique | app/invoices/actions.ts:69-91 | a successful update leaves no two invoices with the same number |
| Invoices.DuplicateKeepsNumbersUnique | app/invoices/actions.ts:157-186 | a successful duplication leaves no two invoices with the same number |
| Invoices.CreateKeepsNumbersUnique | app/invoices/new/actions.ts:58-77 | a successful creation from the form leaves no two invoices with the same number |
| Invoices.DeleteCancelKeepNumbersUnique | app/invoices/actions.ts:102-205 | deleting or cancelling leaves no two invoices with the same number |
| Invoices.WriteKeepsNumbersUnique | app/invoices/new/actions.ts:60-77 | writing an invoice whose number no other invoice carries keeps the numbers unique |
| Invoices.CreateInvoice | app/invoices/new/actions.ts:14-92 | error cases: no session gives NotAuthenticated, an invalid form gives InvalidData, a number another invoice carries gives DuplicateNumber before any stock change, and an unknown part rolls everything back; success happens exactly when the number is free and all parts are known. On success one ISSUED, well-formed invoice is added, stamped with the time, the creator and the creator's non-empty group, and the stock is decremented |
| Invoices.CreatePreservesWellFormed | app/invoices/new/actions.ts:58-92 | creation from the form keeps every invoice of the store well-formed |
| InvoiceApi.FilterVisible | app/api/invoices/route.ts:24-32 | the listed rows are exactly the visible ones, each with its multiplicity, and no other |
| InvoiceApi.FilterVisibleConcat | app/api/invoices/route.ts:24-32 | filtering keeps the database's relative order of rows |
| InvoiceApi.AdminSeesAll | app/api/invoices/route.ts:24-25 | an ADMIN sees every row |
| InvoiceApi.NoGroupSeesOwnOnly | app/api/invoices/route.ts:26-32 | a non-admin without a group sees exactly the invoices they created |
| InvoiceApi.NonAdminVisibility | app/api/invoices/route.ts:26-32 | a non-admin sees an invoice if and only if they created it or it carries their group |
| InvoiceApi.WithStatus | app/api/invoices/route.ts:67-69 | the status filter keeps exactly the rows of that status, each with its multiplicity |
| InvoiceApi.StatusCountsPartition | app/api/invoices/route.ts:65-69 | the draft, issued, paid and canceled counts add up to the number of rows |
| InvoiceApi.StatsBounded | app/api/invoices/route.ts:65-76 | canceled rows count only toward `total`, so draft + issued + paid ≤ total |
| InvoiceApi.StatsAmountsNonNegative | app/api/invoices/route.ts:70-75 | non-negative invoice totals give non-negative totalPaid and totalPending |
| InvoiceApi.ListInvoices | app/api/invoices/route.ts:11-95 | without a session the answer is 401 and only then. Otherwise the answer is the visible rows in the order the query returns them (newest first), with statistics whose total is their number |
| InvoiceApi.CreateViaApi | app/api/invoices/route.ts:101-175 | without a session the answer is 401. Success happens exactly when every line kind is storable and the number is carried by no other invoice, otherwise the answer is 500 and nothing is written. On success one DRAFT is added, with no issue date, the creator and group of the session, the body's customer and notes, its vehicle or null, and the body's non-empty number or else the next sequence number; its lines and totals are rebuilt from the body's items |
| InvoiceApi.ApiCreateKeepsNumbersUnique | app/api/invoices/route.ts:143-174 | a successful creation through the API leaves no two invoices with the same number |
| InvoiceApi.MissingItemsZeroTotals | app/api/invoices/route.ts:112 | a body without items creates an invoice with no lines and all-zero totals; without a number in the body it succeeds exactly when the next sequence number is free |
| InvoiceApi.FormIssuesApiDrafts | app/api/invoices/route.ts:144-165 | for the same form, the form path creates an ISSUED invoice and the API a DRAFT, with identical customer, vehicle, notes, lines and totals |
| InvoiceForm.EmptyItemNeedsDescription | src/features/invoices/InvoiceForm.tsx:76-83 | the default new line is refused by the schema until it gets a description, and then it is accepted |
| InvoiceForm.CalculatorsAgreeWithServer | src/features/invoices/InvoiceForm.tsx:85-92 | the form's per-line HT and TTC equal the amounts the server stores for the line |
| InvoiceForm.Live | src/features/invoices/InvoiceForm.tsx:136-137 | an unset number input takes the default, a cleared one counts as 0, and a number counts as itself |
| InvoiceForm.Coerced | src/features/invoices/invoice.schema.ts:10-12 | the schema reads a set input as the same number the live totals use, a cleared one as 0 |
| InvoiceForm.LiveTotals | src/features/invoices/InvoiceForm.tsx:131-146 | the live totals are the line sums, with an unset quantity or price counted as 0, an unset rate as 20 % and a cleared input as 0, and zero when nothing is watched |
| InvoiceForm.LiveTotalsAgreeWithServer | src/features/invoices/InvoiceForm.tsx:131-146 | once every number input is set (a cleared one included), the live totals equal the totals the server will store for the parsed lines |
| InvoiceForm.BlankLineAddsNothing | src/features/invoices/InvoiceForm.tsx:136-137 | a line whose quantity or price is unset or cleared contributes nothing to the totals, and an unset rate counts as 20 % |
| InvoiceForm.ClearedRateCountsNoVat | src/features/invoices/InvoiceForm.tsx:136-137 | a cleared rate input is not the 20 % default: the line adds no VAT to the live totals, and the schema parses the rate as 0 |
| InvoiceForm.FindPart | src/features/invoices/InvoiceForm.tsx:150 | the lookup finds nothing exactly when no part has the id, and otherwise returns the first part with that id |
| InvoiceForm.HandlePartSelect | src/features/invoices/InvoiceForm.tsx:149-158 | an unknown part changes nothing. A known part fills the line's part id, description, price and rate and makes it a PART line, keeping the quantity and every other line |
| InvoiceForm.SelectedPartLineValid | src/features/invoices/InvoiceForm.tsx:149-158 | selecting a sensible part on a line with a valid quantity makes the line valid |
| InvoiceForm.LineLowStock | src/features/invoices/InvoiceForm.tsx:268-271 | "low stock" is shown exactly when the line names a known part whose stock is at or below its threshold |
| InvoiceForm.RemoveLine | src/features/invoices/InvoiceForm.tsx:384-385 | removal deletes exactly the chosen line unless it is the last one, which stays |
| InvoiceForm.AppendLine | src/features/invoices/InvoiceForm.tsx:240 | appending adds the default line after the existing ones |
| InvoiceForm.LinesNeverEmpty | src/features/invoices/InvoiceForm.tsx:118 | starting from the single default line, no sequence of appends and removals empties the list |
| OptimisticCache.View | src/hooks/useInvoices.ts:67-76 | with nothing cached the page gets an empty list and six zero statistics; otherwise it gets the cached list and statistics |
| OptimisticCache.OptimisticSetStatus | src/hooks/useInvoices.ts:124-136 | no cached data stays none. Otherwise every row with the id gets the new status and everything else is kept: other rows, order and stats |
| OptimisticCache.RemoveRows | src/hooks/useInvoices.ts:184 | the filter drops exactly the rows with the id and keeps every other row with its multiplicity |
| OptimisticCache.OptimisticDelete | src/hooks/useInvoices.ts:178-188 | no cached data stays none; otherwise the rows with the id are removed and the stats kept |
| OptimisticCache.RemoveRowsConcat | src/hooks/useInvoices.ts:184 | the surviving rows keep their relative order |
| OptimisticCache.RemoveAbsentIsIdentity | src/hooks/useInvoices.ts:184 | deleting an id not in the list leaves the list as it was |
| OptimisticCache.SetStatusIdempotent | src/hooks/useInvoices.ts:124-136 | applying the same optimistic status change twice is applying it once |
| OptimisticCache.DeleteAfterSetStatus | src/hooks/useInvoices.ts:130-132 | deleting after an optimistic status change gives the same list as deleting directly |
| Strings.Split | src/components/ui/topbar.tsx:28 | a split has one more piece than there are separators, and no piece contains the separator |
| Strings.JoinSplit | src/components/ui/topbar.tsx:28 | joining the pieces of a split with the separator gives the original string back |
| Strings.SplitJoin | src/components/ui/topbar.tsx:32 | splitting a join of separator-free pieces gives the pieces back |
| Strings.JoinLength | src/components/pdf/InvoicePDF.tsx:477-483 | a join starts with its first part, and is empty exactly when every part is empty and no separator is written between them |
| PdfText.TrimStart | src/components/pdf/InvoicePDF.tsx:471 | the result is a suffix of the input and everything dropped is white space. It starts with a non-white-space character unless it is empty |
| PdfText.TrimEnd | src/components/pdf/InvoicePDF.tsx:471 | the result is a prefix of the input and everything dropped is white space. It ends with a non-white-space character unless it is empty |
| PdfText.TrimEmptyIff | src/components/pdf/InvoicePDF.tsx:469 | a text trims to empty exactly when it is all white space |
| PdfText.TrimIdempotent | src/components/pdf/InvoicePDF.tsx:469 | trimming twice is trimming once |
| PdfText.IsNonEmptyStringIff | src/components/pdf/InvoicePDF.tsx:474-475 | a value is a non-empty string exactly when it is present and has a non-white-space character |
| PdfText.Truncate | src/components/pdf/InvoicePDF.tsx:467-472 | a text that fits, once trimmed, is returned trimmed. Otherwise the result is its first maxChars − 1 characters (none when maxChars ≤ 1) with their trailing white space dropped, followed by "…": the kept prefix ends in no white space and everything of those characters past it is white space. It never exceeds maxChars when maxChars ≥ 1 |
| PdfText.TruncateTrimmed | src/components/pdf/InvoicePDF.tsx:470-471 | a trimmed text that fits is returned unchanged. A longer one becomes its first maxChars − 1 characters without their trailing white space, followed by "…", of at most maxChars characters |
| PdfText.Shorten | src/components/pdf/InvoicePDF.tsx:471 | the result is the first `keep` characters without their trailing white space, then "…": a prefix that does not end in white space, with only white space dropped after it |
| PdfText.TruncatedUnique | src/components/pdf/InvoicePDF.tsx:471 | the truncation property leaves no choice: two strings that both satisfy it for the same text and length are equal |
| PdfText.TruncateIdempotent | src/components/pdf/InvoicePDF.tsx:467-472 | truncating an already truncated text changes nothing |
| PdfText.KeepNonEmpty | src/components/pdf/InvoicePDF.tsx:478 | the kept parts are exactly the present non-blank ones, untrimmed |
| PdfText.KeepNonEmptyConcat | src/components/pdf/InvoicePDF.tsx:478 | the kept parts stay in their original order |
| PdfText.JoinNonEmptyBlankIff | src/components/pdf/InvoicePDF.tsx:480-483 | the join is empty exactly when no part is a non-blank string |
| PdfText.MergeCompany | src/components/pdf/InvoicePDF.tsx:515 | every key the settings carry wins, including null values. Keys the settings lack keep their defaults, and without settings the defaults stand |
| PdfText.NullSettingHidesDefault | src/components/pdf/InvoicePDF.tsx:487-515 | a null company name in the settings hides the default name, while other defaults such as the city survive |
| PdfText.CustomerNameBlankIff | src/components/pdf/InvoicePDF.tsx:523-528 | without a company name, the customer name is empty exactly when both names are blank |
| PdfText.SplitItems | src/components/pdf/InvoicePDF.tsx:536-538 | at most eight lines are shown, as a prefix. The hidden count is the rest, and anything is hidden only when eight are shown |
| PdfText.StatusLabelsDistinct | src/components/pdf/InvoicePDF.tsx:602-610 | the four statuses get four different labels, none equal to its code |
| PdfText.DoubleLSpellingShownRaw | src/components/pdf/InvoicePDF.tsx:608-610 | the spelling "CANCELLED" is not one of the four and is printed as it is |
| RouteGuard.PrefixFacts | middleware.ts:8 | the admin-route list matches exactly the paths starting with "/admin". API paths and admin paths are disjoint, and neither includes the login or "unauthorized" page |
| RouteGuard.Decide | middleware.ts:10-68 | one rule per branch: the auth API always proceeds; any other API path without a session gets 401; "/unauthorized" proceeds; a visitor is redirected to login with the path as callback; a logged-in user on the login page goes home; a non-admin on an admin page is sent to "/unauthorized" and on the admin API gets 403; an admin proceeds everywhere but the login page |
| RouteGuard.NextIff | middleware.ts:10-68 | the request proceeds exactly for the auth API, the unauthorized page, the login page for a visitor, and any other path for a logged-in user unless it is an admin page or the admin API and the user is not an admin |
| RouteGuard.VisitorRedirectedWithCallback | middleware.ts:33-38 | a visitor asking for any page but the login and unauthorized pages is redirected to login carrying that page |
| RouteGuard.AdministratorIsAdminRoute | middleware.ts:45-54 | the admin check is a plain prefix test: "/administrator" is guarded like "/admin/users" |
| RouteGuard.ApiPrefixIsNotASegment | middleware.ts:14 | the API check is a plain prefix test, so a visitor to "/apidocs" gets 401 |
| RouteGuard.Middleware | middleware.ts:10-79 | a path the matcher skips proceeds without the guard; any other path gets the guard's decision |
| RouteGuard.MiddlewareNextIff | middleware.ts:10-79 | a request proceeds exactly when the matcher skips its path or the guard lets it through |
| RouteGuard.MatchedVisitorRedirectedWithCallback | middleware.ts:33-79 | a visitor asking for a matched page other than the login and unauthorized pages is redirected to login carrying that page |
| RouteGuard.AdminImageSkipsTheGuard | middleware.ts:45-79 | the matcher skips by file name, so "/admin/logo.png" reaches a non-admin user and a visitor, though the guard would refuse it |
| RouteGuard.MatcherExamples | middleware.ts:78 | build assets and the favicon skip the guard, and an ordinary page such as "/invoices" goes through it |
| Topbar.DetailPageIff | src/components/ui/topbar.tsx:27-28 | a page is a detail page exactly when its path has at least two slashes; the test against "/" never decides anything |
| Topbar.SubPageIsDetailPage | src/components/ui/topbar.tsx:27-28 | every path of the form "/section/sub" is a detail page |
| Topbar.SectionPageIsNotDetailPage | src/components/ui/topbar.tsx:27-28 | a section's list page and the home page are not detail pages |
| Topbar.NonEmpty | src/components/ui/topbar.tsx:32 | the path's segments are exactly its non-empty pieces: every kept piece is non-empty and one of the pieces, and every non-empty piece is kept |
| Topbar.NonEmptyConcat | src/components/ui/topbar.tsx:32 | the filter distributes over concatenation, so the segments keep the order of the pieces |
| Topbar.ParentPathShape | src/components/ui/topbar.tsx:31-37 | the back link is always an absolute path of at most one segment |
| Topbar.SecondPiece | src/components/ui/topbar.tsx:41 | the section piece exists exactly when the path contains a slash, and is the second piece of the split |
| Topbar.GetCurrentSection | src/components/ui/topbar.tsx:40-47 | the title is "Page" exactly when no navigation item matches the section piece; otherwise it is the title of an item whose href is "/" plus that piece |
| Topbar.FindItem | src/components/ui/topbar.tsx:42-45 | the search finds nothing exactly when no item is selected, and otherwise returns the first selected item of the list |
| Topbar.HomeActiveOnlyAtRoot | src/components/ui/topbar.tsx:87-89 | the home button is highlighted on "/" only |
| Topbar.ActiveIsPlainPrefix | src/components/ui/topbar.tsx:87-89 | highlighting is a string-prefix test: "/customersX" highlights the customers button |
| Topbar.AbsolutePathPieces | src/components/ui/topbar.tsx:41 | an absolute path splits into "" then at least one piece, and starts with "/" followed by its second piece |
| Topbar.SectionItemIsActive | src/components/ui/topbar.tsx:40-47 | on an absolute path, the item named in the title is also a highlighted button |
| Admin.CreateGroup | app/admin/groups/actions.ts:10-29 | a non-admin is refused, and only a non-admin. Otherwise exactly one group is added and the users are untouched |
| Admin.SetGroup | app/admin/groups/actions.ts:41-44 | an unknown user gives NotFound and a group id naming no group gives UnknownGroup. Otherwise only that user's group changes |
| Admin.AddUserToGroup | app/admin/groups/actions.ts:34-48 | a non-admin is refused. Otherwise the result is `SetGroup` with the given id: an unknown user is NotFound, and an id that names no group, "" included, is UnknownGroup |
| Admin.AddMovesUser | app/admin/groups/actions.ts:34-48 | joining a group adds the user to its members and removes them from every other group's members |
| Admin.RemoveUserFromGroup | app/admin/groups/actions.ts:53-67 | a non-admin is refused. Success happens exactly for a known user, and then only that user's group becomes null |
| Admin.AddThenRemove | app/admin/groups/actions.ts:34-67 | adding a user to a group and removing them leaves the same store as removing them directly |
| Admin.ClearGroup | app/admin/groups/actions.ts:80-83 | exactly the members of the group lose their group; every other user is unchanged |
| Admin.DeleteGroup | app/admin/groups/actions.ts:72-91 | a non-admin is refused and an unknown group is NotFound. On success the group is gone, it has no members left, and users of other groups are unchanged |
| Admin.ClearingUnknownGroupChangesNothing | app/admin/groups/actions.ts:80-88 | when every user's group exists, the first write of a failed delete of an unknown group changes nothing |
| Admin.UpdateGroup | app/admin/groups/actions.ts:96-112 | a non-admin is refused and a missing group is NotFound. On success the fields present in the patch replace the group's and all else stays |
| Admin.EmptyPatchIsIdentity | app/admin/groups/actions.ts:106-109 | a patch with no field changes nothing |
| Admin.AssignUserToGroup | app/admin/users/actions.ts:38-57 | a non-admin is refused. On success the user's group is the given id when non-empty and null otherwise |
| Admin.AssignEmptyIsRemove | app/admin/users/actions.ts:50-53 | assigning a null or empty group id is removing the user from their group |
| Admin.CreateUser | app/admin/users/actions.ts:59-91 | a non-admin is refused. A taken e-mail is refused exactly when it is in use. Otherwise one user is added with no group and the hash of the password |
| Admin.CreateTwiceRefused | app/admin/users/actions.ts:71-77 | a second account with the same e-mail is refused |
| Admin.DeleteUser | app/admin/users/actions.ts:93-110 | a non-admin is refused, and an admin cannot delete their own account. Otherwise deletion succeeds exactly for a known user and removes only that user |
| Admin.UpdateUserPassword | app/admin/users/actions.ts:112-127 | a non-admin is refused. Success happens exactly for a known user, and only the password changes, to the hash of the new one |
| Admin.NonAdminRefused | app/admin/groups/actions.ts:16-18 | no action of a non-admin, or of nobody, succeeds |
| Admin.ApplyPreservesValid | app/admin/users/actions.ts:71-88 | every successful administrator action keeps every user's group existing and every e-mail unique |
| Admin.DeleteGroupKeepsValid | app/admin/groups/actions.ts:80-88 | deleting a group leaves no user pointing at it |
| Admin.CreateUserKeepsValid | app/admin/users/actions.ts:71-88 | creating a user with an unused e-mail keeps e-mails unique |
| Crm.CustomerFromForm | app/customers/actions.ts:22-33 | the saved row keeps the posted names, and stores the company and e-mail as posted, blanks included |
| Crm.UpdateCustomer | app/customers/actions.ts:21-44 | an invalid form is refused, and only an invalid one. A valid form succeeds exactly for a known customer, replacing only that row |
| Crm.VehiclesNotOf | app/customers/actions.ts:72-74 | the remaining vehicles are exactly those of other customers, unchanged |
| Crm.DeleteCustomer | app/customers/actions.ts:46-81 | an unknown customer gives NotFound. A customer with invoices or quotes is refused. Otherwise the customer and their vehicles go and the documents are untouched |
| Crm.VehiclesDoNotBlockDeletion | app/customers/actions.ts:65-78 | owning vehicles does not block deletion; the vehicles go with the customer |
| Crm.VehicleFromForm | app/vehicles/actions.ts:29-42 | the mapping fails exactly when a non-blank year or mileage is not a number. A blank VIN or year is stored as null and a blank mileage as 0 |
| Crm.UpdateVehicle | app/vehicles/actions.ts:18-46 | the update succeeds exactly for a valid form with numeric fields, a known vehicle and an existing customer, and replaces only that vehicle |
| Crm.BlankVehicleFields | app/vehicles/actions.ts:35-41 | a form with every optional field blank is accepted and stores a null VIN and year and a mileage of 0 |
| Crm.DeleteVehicle | app/vehicles/actions.ts:48-82 | an unknown vehicle gives NotFound. A vehicle that any invoice, quote or repair order refers to is refused. Otherwise only that vehicle goes |
| Crm.RepairOrdersOutliveCustomer | app/customers/actions.ts:46-81 | the customer guard ignores repair orders while the vehicle guard counts them: a customer with only repair orders is deleted with its vehicles, leaving the orders naming a missing customer, whereas deleting the vehicle alone is refused |
| Crm.DeletesKeepVehiclesResolving | app/customers/actions.ts:72-78 | after either deletion, every vehicle still belongs to an existing customer |
| Crm.UpdatesKeepVehiclesResolving | app/vehicles/actions.ts:18-46 | after a customer update or a vehicle update, every vehicle still belongs to an existing customer |
| Crm.JoinNames | app/api/customers/route.ts:20 | the non-empty names are joined with one space: both names when both are present, else the one that is |
| Crm.LabelAsWritten | app/api/customers/route.ts:16-22 | the label is the company name whenever it is not null, even when empty, and the names otherwise. The "—" fallback is unreachable |
| Crm.BlankCompanyGivesEmptyLabel | app/customers/actions.ts:25-40 | a customer saved with a blank company but a first name is listed under the empty label |
| Crm.Label | app/api/customers/route.ts:16-22 | the corrected label is never empty. It is the non-empty company name, else the non-blank names, else "—" |
| Crm.LabelsAgreeOffTheEmptyCompany | app/api/customers/route.ts:18-21 | for customers whose company is not "" and who have a name, the corrected and original labels agree |
| Crm.SavedCustomerHasLabel | app/customers/actions.ts:21-44 | every customer saved through the edit form has a non-empty corrected label, which is "first last" when the company is blank |
| Crm.CustomerOptions | app/api/customers/route.ts:16-22 | the corrected picker (see Findings) has one entry per customer, in order, with its id and a non-empty label |

## Left out

- Floating point: amounts, quantities and rates are exact reals. JavaScript's IEEE-754 rounding, and the database's decimal column rounding, are not modelled.
- Money.Sum: the accumulation is exact, so an IEEE-754 sum that depends on the order of the lines is not modelled.
- Concurrency: the actions run one at a time. Two requests that read the same invoice count compute the same number, and the second write is refused by the unique index; the model covers only the sequential case, where the number also repeats after any earlier deletion (`Invoices.NumberRepeatsAfterDeletion`).
- InvoiceApi.CreateViaApi: the body is assumed to carry every field with its type. The source reads unvalidated JSON, so a missing customer id or description, or a quantity that is not a number, makes the database write fail with 500; the model has no such case.
- RouteGuard.Matched: the matcher pattern is read as a case-sensitive regular expression anchored at both ends of the pathname. How the framework compiles the pattern (case folding, a trailing slash, URL decoding) is not modelled.
- Clock and ids: the current time, the current year and the database-assigned ids are parameters. Creating functions require the new id to be fresh.
- Password hashing, e-mail validation and `parseInt` are parameters (`hash`, `isEmail`, `parseInt`), because they are library code.
- Foreign keys not listed above are not modelled: an invoice's customer, vehicle and group, a part named by a line, and the users an invoice or document points at. A user deletion that the database would refuse is therefore modelled as succeeding.
- Admin.DeleteGroup: the administrator store holds users and groups only. `deleteGroupAction` clears only the users' group (app/admin/groups/actions.ts:80-83), so an invoice of the deleted group either keeps pointing at a missing group or makes the database refuse the delete. The contract says nothing about either case.
- Crm.DeleteCustomer: the vehicles of a deleted customer are removed even when a document of another customer refers to them, and the customer's own repair orders are not counted by the guard (`Crm.RepairOrdersOutliveCustomer`), so they stay behind naming a missing customer and missing vehicles. The model's store does not say what the database does then: its foreign keys and any cascade are not modelled.
- FormData fields that are missing rather than blank are modelled as blank strings, so the model may accept such a form. The source refuses it: `formData.get` returns null, `z.string().optional()` rejects null, and `customerSchema.parse` throws (app/customers/actions.ts:11-35).
- Page refreshes, redirects, cache revalidation and SWR refetching have no effect on the stored data and are left out.
- The per-invoice status and delete API routes, the parts and vehicles list endpoints, settings and the dashboard are outside this model.
- The PDF layout and currency and date formatting are presentation only.
- The dashboard aggregation in src/lib/cache.ts is outside this model. Its status table uses the key "CANCELLED" (src/lib/cache.ts:78), so canceled invoices fall back to their raw status there; `PdfText.DoubleLSpellingShownRaw` shows the same fallback for the PDF label.
- String lengths are counted in characters. JavaScript counts UTF-16 code units, so the two differ for characters outside the Basic Multilingual Plane in `truncate`.
- PdfText.Truncate: only string or missing values are modelled. The source also converts numbers and other values with `String(...)`.
- Stock quantities are reals, like the other amounts.
- Admin.DeleteGroup: the two writes of the delete are not atomic. The model performs the first one and then reports NotFound for an unknown group. `Admin.ClearingUnknownGroupChangesNothing` shows that this first write changes nothing while every user's group exists.
- Invoices.NumberTaken: a unique index on Invoice.invoiceNumber is assumed. The database schema is not part of this model. Without that index, the writes of `Invoices.CreateInvoice`, `Invoices.UpdateInvoice`, `Invoices.DuplicateInvoice` and `InvoiceApi.CreateViaApi` would succeed with a repeated number instead of failing.
- Numbering.InvoiceNumber, InvoiceApi.Visible, InvoiceApi.ComputeStats, PdfText.CustomerName and PdfText.StatusLabel have no row of their own. Their contracts, where they have one, only spell out the computation. The properties are stated by other rows: `Numbering.InvoiceNumberInjective`, `Numbering.SequenceRoundTrip` and `Numbering.FirstNumberOf2025` for the number; `InvoiceApi.FilterVisible`, `InvoiceApi.AdminSeesAll`, `InvoiceApi.NoGroupSeesOwnOnly` and `InvoiceApi.NonAdminVisibility` for the visibility filter; `InvoiceApi.StatsBounded` and `InvoiceApi.StatsAmountsNonNegative` for the stats; `PdfText.CustomerNameBlankIff` for the customer name; `PdfText.StatusLabelsDistinct` for the status label.
- Topbar.GetParentPath has no row of its own. Its contract only spells out the computation, and `Topbar.ParentPathShape` states what it guarantees.

## Findings

| source | as written | input that shows it | evidently intended | confidence | as-written member | corrected member |
|---|---|---|---|---|---|---|
| app/api/customers/route.ts:18-21 | The picker label uses `companyName ?? names ?? "—"`, but the customer edit action stores a blank company as "" rather than null (app/customers/actions.ts:25, 37-40). So a customer saved without a company gets the empty label, and the "—" fallback can never be reached because the join always yields a string | a customer saved with first name "Jean", last name "Dupont" and a blank company: the label is "" instead of "Jean Dupont" | Fall back on a falsy company name, as the invoice PDF (src/components/pdf/InvoicePDF.tsx:523-528) and the invoice edit page (app/invoices/[id]/edit/page.tsx:84) do for the same customer: company, else the non-blank names, else "—" | not executed | Crm.LabelAsWritten, Crm.BlankCompanyGivesEmptyLabel | Crm.Label, Crm.SavedCustomerHasLabel, Crm.CustomerOptions |
