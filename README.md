# Bytes Logs dashboard: a verified model of its decision logic

Bytes Logs is a small business dashboard written in Next.js and TypeScript. Its
pages list ledger entries, clients, transactions and products. It has "add" forms
for clients, staff members and products, and it renders invoices as PDF
documents with jsPDF. This project models in Dafny the logic those pages and the
invoice renderer carry out, and proves what that logic guarantees:

- **Invoice renderer** (`InvoicePdf`, lib/pdf-generator.ts). The jsPDF document
  is a `Doc` class that records every text and table drawn on it, with its page,
  position and style. `GenerateInvoice` draws an invoice step by step: header
  blocks, address and note loops, the tax `forEach`, and the footer loop over the
  pages. It is proved to produce exactly the operation list `InvoiceResult`
  describes, or the wrapped error. Lemmas state the layout rules:
  - the weekly mode and its columns;
  - the row precedence and the fallback row;
  - when the tax line appears;
  - subtotal and total printed verbatim;
  - status colours;
  - vertical offsets;
  - "Page i of N" on every page.
- **Ledger page** (`Ledger`). `CalculateTotals` is a loop proved to equal the
  income and expense sums. The year, month and search filter is proved to be an
  order-preserving subsequence with an exact membership rule, and idempotent. The
  model also covers the five-year default summary, the rule for replacing it, and
  the page state (`LedgerView`).
- **Clients list** (`ClientsList`). The filter is a membership rule and a
  subsequence, and it ignores the date picker. The model also covers the address
  line and the status label.
- **Transactions page** (`Transactions`). The comparator is a total preorder for
  every field and direction, and descending order is ascending order reversed. The
  filter response is sorted in place into a permutation ordered by the
  comparator. The model also covers the sort toggle, pagination with 8 items per
  page, and payment-method names.
- **Products page** (`Products`). The model covers:
  - which server query is used;
  - the comparator and the in-place sort;
  - deletion, which removes exactly one id;
  - a product count that a deletion leaves untouched;
  - pagination from that count;
  - "Clear Filters".
- **Add forms** (`FormFields`, `ClientAdd`, `StaffAdd`, `ProductAdd`).
  - The email test is proved equivalent to the language of
    `^[^\s@]+@[^\s@]+\.[^\s@]+$`.
  - Each form passes validation exactly when its stated conditions hold.
  - A field edit clears only that field's message.
  - Submission happens only for a valid form.
  - The model also covers the defaults, the staff `FormData` payload and the
    product `productData` conversion.
- **Bottom navigation** (`BottomNav`). A link is active on its own path and below
  it, and not on a sibling path. At most one of the five links is active.

Shared modules:
- `Seqs`: an order-preserving filter and its laws.
- `Pagination`: slice and ceiling arithmetic.
- `Sorting`: an in-place insertion sort standing in for `Array.prototype.sort`, and the header toggle.
- `TextUtil`: the string built-ins the pages use.
- `Wrappers`: option and result types.
- `Notices`: toast text.

Conventions of the model:
- Money and JavaScript numbers are `real`.
- Printing a number inside a template string is a parameter (`show`).
- `Number(text)` is a parameter `parse`, where `None` stands for NaN.
- `localeCompare` is the code-point order of strings, proved to be a total preorder.
- `toLowerCase` and `toUpperCase` map ASCII letters only.
- Dates arrive already parsed: a ledger entry carries its calendar year and month, and a transaction carries millisecond timestamps.
- A missing optional text is `""`, which is falsy in JavaScript, and missing line items are the empty sequence.
- Server calls, the clock, jsPDF's `splitTextToSize`, locale date formatting and the `autoTable` plug-in's behaviour are parameters. Each page's React state is a class whose methods are the handlers.

The `else` branch at lib/pdf-generator.ts:231-235, which prints "No line items to
display." and sets `finalY = startY + 10`, can never run. `tableData` always holds
at least the fallback row (`TableBody` ensures `|r| >= 1`), so `finalY` always
comes from `autoTable`. In `DrawInvoice` that branch is an `assert false`.

## Model

| member | source | states |
|---|---|---|
| TextUtil.Lower | app/admin/ledger/page.tsx:185-188 | `toLowerCase` keeps the length of the string |
| TextUtil.Upper | lib/pdf-generator.ts:110 | `toUpperCase` keeps the length of the string |
| TextUtil.Capitalize | lib/pdf-generator.ts:168 | only the first character is upper-cased and the rest is unchanged |
| TextUtil.Includes | app/admin/clients/page.tsx:119-121 | `includes` is true exactly when the query occurs at some offset |
| TextUtil.TrimStart | app/admin/ledger/page.tsx:182 | the result is a suffix that starts at a non-whitespace character, and only whitespace was removed |
| TextUtil.TrimEnd | app/admin/ledger/page.tsx:182 | the result is a prefix that ends at a non-whitespace character, and only whitespace was removed |
| TextUtil.TrimEmptyIffBlank | app/admin/ledger/page.tsx:182 | `trim()` is empty exactly when the query is all whitespace |
| TextUtil.Split | lib/pdf-generator.ts:128 | `split` gives at least one piece, and no piece contains the separator |
| TextUtil.JoinSplit | lib/pdf-generator.ts:128 | joining the pieces of a split with the separator gives back the original string |
| TextUtil.SplitHead | app/admin/staff/add/page.tsx:23 | the first piece is the text before the first separator, and it is the whole string when there is no separator |
| TextUtil.CompareAntisymmetric | app/admin/transactions/page.tsx:198-201 | swapping the arguments negates the string order, which is 0 only for equal strings |
| TextUtil.CompareTransitive | app/admin/transactions/page.tsx:198-201 | the string order is transitive |
| TextUtil.NatToDecimal | lib/pdf-generator.ts:290 | the printed page number is all digits, non-empty, with no leading zero |
| TextUtil.DecimalRoundTrip | lib/pdf-generator.ts:290 | reading the printed digits back gives the number |
| Seqs.Filter | app/admin/ledger/page.tsx:170-179 | `filter` never lengthens the list |
| Seqs.FilterMultiset | app/admin/ledger/page.tsx:170-190 | the filter keeps every copy of an element that satisfies the predicate and no copy of one that does not |
| Seqs.FilterMembers | app/admin/clients/page.tsx:104-126 | the filter keeps exactly the elements that satisfy the predicate |
| Seqs.FilterIsSubsequence | app/admin/ledger/page.tsx:167-192 | the filter keeps the survivors in their original order |
| Seqs.FilterFilter | app/admin/ledger/page.tsx:170-190 | two successive filters are one filter by the conjunction |
| Seqs.FilterAppend | app/admin/ledger/page.tsx:170-190 | filtering distributes over concatenation |
| Seqs.FilterIdempotent | app/admin/ledger/page.tsx:166-194 | filtering twice by the same predicate is filtering once |
| Seqs.FilterAgrees | app/admin/clients/page.tsx:104-126 | predicates that agree on the elements give the same filtered list |
| Seqs.FilterKeepsAll | app/admin/products/page.tsx:205 | a predicate that holds of every element leaves the list unchanged |
| Seqs.SubsequenceOfSelf | app/admin/ledger/page.tsx:141-142 | the unfiltered list is a subsequence of itself |
| Pagination.TotalPages | app/admin/ledger/page.tsx:237 | `Math.ceil(count / perPage)`: the pages hold every item, and no page is wholly empty |
| Pagination.PageSlice | app/admin/ledger/page.tsx:234-236 | page p holds the items from (p-1)·perPage on, at most perPage of them, clipped to the list |
| Pagination.ItemPage | app/admin/ledger/page.tsx:234-237 | every item appears on page i/perPage+1, which is within the page count, at position i mod perPage |
| Pagination.ShownRange | app/admin/ledger/page.tsx:523-524 | the "to" figure is min(p·perPage, count) and counts the items on pages 1..p |
| Sorting.SortInPlace | app/admin/transactions/page.tsx:193-221 | the in-place sort yields a permutation ordered by the comparator, and leaves an already ordered list unchanged |
| Sorting.InsertAt | app/admin/transactions/page.tsx:193-221 | one insertion step orders one more element of the prefix, keeps the multiset, and moves nothing when the element is already in place |
| Sorting.ToggleSort | app/admin/transactions/page.tsx:166-173 | clicking the same field flips the direction, and another field becomes the sort field, ascending |
| Sorting.ToggleTwice | app/admin/products/page.tsx:136-143 | clicking the same header twice restores the direction |
| Ledger.CalculateTotals | app/admin/ledger/page.tsx:214-231 | income is the sum over "income" entries, expense the sum over all others, and profit is income minus expense |
| Ledger.IncomePlusExpense | app/admin/ledger/page.tsx:219-225 | every entry counts once, on one side |
| Ledger.FilterEntriesIsOneFilter | app/admin/ledger/page.tsx:166-194 | the three filters act as one predicate |
| Ledger.FilterEntriesSubsequence | app/admin/ledger/page.tsx:167-192 | the listed entries are an order-preserving subsequence of the fetched ones |
| Ledger.FilterEntriesCounts | app/admin/ledger/page.tsx:170-190 | every copy of a selected entry is listed, and no copy of any other |
| Ledger.FilterEntriesMembers | app/admin/ledger/page.tsx:170-190 | an entry is listed exactly when it has the selected year and month, and the query is blank or matches its description, client, staff or reference |
| Ledger.FilterEntriesIdempotent | app/admin/ledger/page.tsx:166-194 | filtering the filtered list again changes nothing |
| Ledger.BlankQueryIgnored | app/admin/ledger/page.tsx:182 | a whitespace-only query filters nothing |
| Ledger.DefaultYearlySummary | app/admin/ledger/page.tsx:70-78 | five zero rows for the years currentYear-4 .. currentYear, ascending |
| Ledger.LedgerView.constructor | app/admin/ledger/page.tsx:70-100 | initial state: current year and month, empty lists, the default summary, page 1 |
| Ledger.LedgerView.ReceiveCurrentMonth | app/admin/ledger/page.tsx:135-152 | a successful answer replaces the totals and both lists, and a failure changes nothing |
| Ledger.LedgerView.ReceiveYearlySummary | app/admin/ledger/page.tsx:154-163 | the summary is replaced only by a successful, non-empty answer |
| Ledger.LedgerView.ApplyFilters | app/admin/ledger/page.tsx:166-194 | the listed entries become the filtered entries, and the page goes back to 1 |
| Ledger.LedgerView.ClearFilters | app/admin/ledger/page.tsx:248-253 | the current year and month, an empty query and page 1 are restored |
| Ledger.LedgerView.GoToPage | app/admin/ledger/page.tsx:234 | the page changes and nothing else does |
| Ledger.LedgerView.CurrentEntries | app/admin/ledger/page.tsx:234-236 | the consecutive slice starting at (page-1)·6: exactly min(page·6, n) − min((page-1)·6, n) entries, so at most 6 |
| Ledger.LedgerView.PageCount | app/admin/ledger/page.tsx:237 | the ceiling of the entry count divided by 6, and 0 for no entries |
| ClientsList.FilteredClientsSpec | app/admin/clients/page.tsx:104-126 | a subsequence of the clients; a client is kept exactly when it passes the status, schedule and search filters, with every copy of it |
| ClientsList.DateFilterIgnored | app/admin/clients/page.tsx:42 | changing the date filter leaves the list unchanged |
| ClientsList.StatusLabel | app/admin/clients/page.tsx:385 | the label is "Active" exactly when the status is set, else "Inactive" |
| ClientsList.AddressLineShape | app/admin/clients/page.tsx:549 | the non-empty parts in order, with a single ", " between neighbours, empty only when all parts are empty |
| Transactions.ComparisonAntisymmetric | app/admin/transactions/page.tsx:196-214 | swapping two transactions negates the comparison for every field |
| Transactions.ComparisonTransitive | app/admin/transactions/page.tsx:196-214 | the comparison is transitive for every field |
| Transactions.BeforeIsPreorder | app/admin/transactions/page.tsx:193-221 | every field and direction gives a total preorder |
| Transactions.DescendingIsReversed | app/admin/transactions/page.tsx:219 | descending order is ascending order reversed |
| Transactions.AscendingByKey | app/admin/transactions/page.tsx:196-214 | after an ascending sort the keys never decrease, for text fields, dates and amounts |
| Transactions.UnknownFieldKeepsOrder | app/admin/transactions/page.tsx:215-216 | an unknown field orders any list, so sorting by it keeps the list as it is |
| Transactions.PaymentMethodName | app/admin/transactions/page.tsx:374-384 | the five known ids give their names, and any other id, or none, gives "N/A" |
| Transactions.TransactionsView.constructor | app/admin/transactions/page.tsx:71-92 | empty lists, no sort field, descending, page 1, loading |
| Transactions.TransactionsView.ReceiveTransactions | app/admin/transactions/page.tsx:127-149 | a success lists every transaction, and a failure keeps the lists and gives the toast text |
| Transactions.TransactionsView.HandleSort | app/admin/transactions/page.tsx:166-173 | the clicked field becomes the sort field, and the direction flips or becomes ascending |
| Transactions.TransactionsView.ApplyFilters | app/admin/transactions/page.tsx:177-246 | a listed answer becomes a permutation sorted by the current field and direction, then page 1; otherwise an empty list, the page kept, and the toast text |
| Transactions.TransactionsView.GoToPage | app/admin/transactions/page.tsx:254 | the page changes and nothing else does |
| Transactions.TransactionsView.CurrentTransactions | app/admin/transactions/page.tsx:254-256 | the consecutive slice starting at (page-1)·8: exactly min(page·8, n) − min((page-1)·8, n) transactions, so at most 8 |
| Transactions.TransactionsView.PageCount | app/admin/transactions/page.tsx:257 | the ceiling of the count divided by 8, and 0 for no transactions |
| Products.ProductQuery | app/admin/products/page.tsx:92-101 | a search when the query is non-empty, else filters when either filter is not "all", else all products |
| Products.ComparisonAntisymmetric | app/admin/products/page.tsx:104-122 | swapping two products negates the comparison |
| Products.ComparisonTransitive | app/admin/products/page.tsx:104-122 | the comparison is transitive |
| Products.BeforeIsPreorder | app/admin/products/page.tsx:104-123 | every field and direction gives a total preorder |
| Products.PriceAscending | app/admin/products/page.tsx:112-113 | sorted by price ascending, cheaper products come first |
| Products.WithoutProductSpec | app/admin/products/page.tsx:205 | deletion removes every copy of the products with that id, keeps every copy of the others, and keeps their order |
| Products.ProductsView.constructor | app/admin/products/page.tsx:38-59 | no products, filters "all", sorted by name ascending, page 1 |
| Products.ProductsView.LoadProducts | app/admin/products/page.tsx:87-133 | the chosen query's answer is listed as a permutation sorted by the current field, unchanged when already in that order, with its length as the count; an error keeps the list |
| Products.ProductsView.HandleSort | app/admin/products/page.tsx:136-143 | same field: the direction flips; new field: ascending |
| Products.ProductsView.HandleDeleteClick | app/admin/products/page.tsx:191-194 | remembers the product and opens the confirmation |
| Products.ProductsView.HandleDeleteProduct | app/admin/products/page.tsx:197-223 | a missing or 0 id does nothing; a success drops that id; the confirmation always closes; the count is kept |
| Products.ProductsView.ClearFilters | app/admin/products/page.tsx:361-367 | filters "all", no search, sorted by name ascending, so all products are fetched |
| Products.ProductsView.GoToPage | app/admin/products/page.tsx:508-528 | the page changes and nothing else does |
| Products.ProductsView.CurrentProducts | app/admin/products/page.tsx:153-155 | the consecutive slice starting at (page-1)·8: exactly min(page·8, n) − min((page-1)·8, n) products, so at most 8 |
| Products.ProductsView.PageCount | app/admin/products/page.tsx:156 | the ceiling of the stored product count divided by 8, and 0 when the count is 0; it still counts a deleted product |
| Notices.ToastText | app/admin/transactions/page.tsx:226 | the server's error text when it sent one, else the page's fallback |
| FormFields.EmailCheckMatchesPattern | app/admin/clients/add/page.tsx:97 | the email check accepts exactly the language of `^[^\s@]+@[^\s@]+\.[^\s@]+$` |
| FormFields.EmailError | app/admin/clients/add/page.tsx:96-100 | empty: "Email is required"; malformed: "Please enter a valid email"; no message exactly when the email is valid |
| FormFields.RequiredError | app/admin/clients/add/page.tsx:94-95 | a required field has a message exactly when it is empty |
| FormFields.AmountError | app/admin/staff/add/page.tsx:60-64 | empty: "required"; NaN or not positive: "invalid"; no message exactly for a positive number |
| FormFields.ClearedError | app/admin/clients/add/page.tsx:76-82 | only the edited field's message is cleared, and every other message stays |
| FormFields.FirstIndexOf | app/admin/clients/add/page.tsx:97 | the first occurrence of the character, or the length when it does not occur |
| ClientAdd.ClientErrors | app/admin/clients/add/page.tsx:93-102 | one message for each of the four checked fields |
| ClientAdd.ClientFormValidIff | app/admin/clients/add/page.tsx:92-106 | valid exactly when business name, contact person and phone are filled in and the email matches the pattern, with the required check first |
| ClientAdd.ClientForm.constructor | app/admin/clients/add/page.tsx:22-43 | empty texts, "monthly", "net30", status true, no messages |
| ClientAdd.ClientForm.HandleInputChange | app/admin/clients/add/page.tsx:69-83 | only the named field changes, and only its message is cleared |
| ClientAdd.ClientForm.HandleToggleChange | app/admin/clients/add/page.tsx:85-90 | the status is negated and nothing else changes |
| ClientAdd.ClientForm.ValidateForm | app/admin/clients/add/page.tsx:92-106 | records the messages and reports whether there are none |
| ClientAdd.ClientForm.HandleSubmit | app/admin/clients/add/page.tsx:108-136 | sends only a valid form; success, refusal and exception each give their toast, redirect and submitting flag |
| StaffAdd.DatePart | app/admin/staff/add/page.tsx:23 | the join date is the part of today's ISO timestamp before its first "T" |
| StaffAdd.StaffErrors | app/admin/staff/add/page.tsx:52-65 | one message for each of the four checked fields |
| StaffAdd.StaffFormValidIff | app/admin/staff/add/page.tsx:51-69 | valid exactly when name and position are filled in, the email matches, and the rate is a positive number |
| StaffAdd.StaffPayload | app/admin/staff/add/page.tsx:79-86 | the seven fields in order, each under its own name |
| StaffAdd.StaffForm.constructor | app/admin/staff/add/page.tsx:16-31 | role "support", status "active", join date today, other fields empty |
| StaffAdd.StaffForm.HandleChange | app/admin/staff/add/page.tsx:35-49 | only the named field changes, and only its message is cleared |
| StaffAdd.StaffForm.ValidateForm | app/admin/staff/add/page.tsx:51-69 | records the messages and reports whether there are none |
| StaffAdd.StaffForm.HandleSubmit | app/admin/staff/add/page.tsx:71-103 | `addStaffMember` is reached only for a valid form, with the payload; each outcome gives its toast |
| ProductAdd.ProductErrors | app/admin/products/add/page.tsx:49-57 | one message for each of the three checked fields |
| ProductAdd.ProductFormValidIff | app/admin/products/add/page.tsx:48-61 | valid exactly when name and description are filled in and the price is a positive number |
| ProductAdd.TaxRateNeverBlocks | app/admin/products/add/page.tsx:26-30 | the tax rate never affects the messages |
| ProductAdd.ToProductData | app/admin/products/add/page.tsx:85-92 | text fields are copied, and price and tax rate go through `Number` |
| ProductAdd.SubmittedPriceIsPositive | app/admin/products/add/page.tsx:48-92 | a product that passes the form carries a positive price |
| ProductAdd.ProductForm.constructor | app/admin/products/add/page.tsx:17-30 | category "service", tax rate "0", status "active", other fields empty |
| ProductAdd.ProductForm.HandleChange | app/admin/products/add/page.tsx:32-46 | only the named field changes, and only its message is cleared |
| ProductAdd.ProductForm.ValidateForm | app/admin/products/add/page.tsx:48-61 | records the messages and reports whether there are none |
| ProductAdd.ProductForm.HandleSubmit | app/admin/products/add/page.tsx:63-109 | `createProduct` is reached only for a valid form with a parsed user; each outcome gives its toast; the submitting flag ends cleared |
| BottomNav.ActiveBelow | app/components/dashboard/bottom-navigation.tsx:10-12 | active on the link's own path and on any path below it |
| BottomNav.SiblingNotActive | app/components/dashboard/bottom-navigation.tsx:11 | a longer path that does not continue with "/" is not active |
| BottomNav.ActiveTargetsNest | app/components/dashboard/bottom-navigation.tsx:11 | two different active targets lie one below the other |
| BottomNav.AtMostOneActive | app/components/dashboard/bottom-navigation.tsx:10-59 | at most one of the five links is active on any path |
| InvoicePdf.FormatDateForInvoice | lib/pdf-generator.ts:24-37 | a missing date prints "-", and any other date is formatted by the locale |
| InvoicePdf.InvoiceTitle | lib/pdf-generator.ts:98-99 | "WEEKLY INVOICE" exactly for an id starting "WEEK-", else "INVOICE" |
| InvoicePdf.TableHeaders | lib/pdf-generator.ts:150-157 | the weekly columns for a "WEEK-" id, else the item columns |
| InvoicePdf.StatusColor | lib/pdf-generator.ts:105-118 | paid, pending, overdue, draft and partial get their colours; anything else gets #333333 |
| InvoicePdf.WeeklyRow | lib/pdf-generator.ts:164-170 | "-" for a missing id or status, "Service" for a missing product name, status capitalised, "Rs. " and the total |
| InvoicePdf.StandardRow | lib/pdf-generator.ts:172-178 | description, the printed quantity, "Rs. " and the unit price, the tax rate followed by "%", "Rs. " and the total |
| InvoicePdf.FallbackRow | lib/pdf-generator.ts:181 | description, "1", "Rs. " and the amount, "0%", and the same amount cell again |
| InvoicePdf.TableBody | lib/pdf-generator.ts:160-183 | one row per item (weekly or item rows), else the single fallback row; never empty |
| InvoicePdf.LinesOpsAt | lib/pdf-generator.ts:128-133 | line i of a stacked block is drawn 5·i below its first line |
| InvoicePdf.FooterOnEveryPage | lib/pdf-generator.ts:286-300 | every page 1..N gets "Page i of N", the thank-you line and the generation date |
| InvoicePdf.PageLabelReadsBack | lib/pdf-generator.ts:290 | the page label carries the page and page count in decimal |
| InvoicePdf.Wrapped | lib/pdf-generator.ts:304-307 | every failure message starts with "PDF content generation failed: " followed by the inner message |
| InvoicePdf.InvoiceResult | lib/pdf-generator.ts:185-235 | a document exactly when the table was drawn; a missing plug-in or a table error gives its wrapped message |
| InvoicePdf.Doc.AddText | lib/pdf-generator.ts:75-86 | draws one text on the current page |
| InvoicePdf.Doc.DrawTable | lib/pdf-generator.ts:187-222 | draws the table on the current page and continues on its last page |
| InvoicePdf.Doc.constructor | lib/pdf-generator.ts:48-52 | a new document has one page, is on page 1, and holds nothing yet |
| InvoicePdf.Doc.SetPage | lib/pdf-generator.ts:288 | moves to an existing page and draws nothing |
| InvoicePdf.DrawCompany | lib/pdf-generator.ts:90-95 | the company name and the four contact lines, as `CompanyOps` |
| InvoicePdf.DrawTitle | lib/pdf-generator.ts:98-118 | the title, the "#id" and the status line in its colour, as `TitleOps` |
| InvoicePdf.DrawBillTo | lib/pdf-generator.ts:121-134 | the dates, the bill-to heading, the business name and the address lines, as `BillToOps` |
| InvoicePdf.DrawExtras | lib/pdf-generator.ts:137-144 | the reference and payment-method lines, only when they are present, as `ExtrasOps` |
| InvoicePdf.DrawHeader | lib/pdf-generator.ts:90-144 | everything above the table, in drawing order |
| InvoicePdf.DrawNotes | lib/pdf-generator.ts:273-283 | the "Notes:" heading and the wrapped note lines, only when there are notes |
| InvoicePdf.DrawBelowTable | lib/pdf-generator.ts:237-300 | totals, notes and footers after the table, in drawing order |
| InvoicePdf.DrawLines | lib/pdf-generator.ts:128-133 | the address and note loop: line i at 5·i below the first |
| InvoicePdf.DrawTotals | lib/pdf-generator.ts:237-270 | the subtotal, the tax sum loop and its line, the total and the status, as `TotalsOps` |
| InvoicePdf.DrawFooters | lib/pdf-generator.ts:286-300 | the footer loop over all pages |
| InvoicePdf.DrawInvoice | lib/pdf-generator.ts:48-300 | when the table is drawn, the document holds exactly `InvoiceOps`: header, table, totals, notes, then footers |
| InvoicePdf.GenerateInvoice | lib/pdf-generator.ts:40-308 | the drawn document, or the error, is exactly `InvoiceResult` |
| InvoicePdf.WeeklyLayout | lib/pdf-generator.ts:98-157 | a weekly invoice gets the weekly title and columns, and never a tax line |
| InvoicePdf.TaxLineIff | lib/pdf-generator.ts:241-251 | the tax line appears exactly for a non-weekly invoice with items whose tax sum is positive, showing that sum 7 below the subtotal |
| InvoicePdf.TotalsVerbatim | lib/pdf-generator.ts:238-270 | subtotal and total print the amount as given; the total is at +15 and the status at +25 |
| InvoicePdf.StatusLinesAgree | lib/pdf-generator.ts:109-114 | the header and bottom status lines have the same text and colour |
| InvoicePdf.BlockOffsets | lib/pdf-generator.ts:128-133 | address line i at 82+5i; "Notes:" at finalY+35; note line i at finalY+42+5i |
| InvoicePdf.EmptyInvoiceUsesFallback | lib/pdf-generator.ts:180-183 | with no items the table body is the single row [description, "1", "Rs. " + amount, "0%", "Rs. " + amount] |
| InvoicePdf.TaxedInvoiceExample | lib/pdf-generator.ts:241-270 | 2 × 400 at 10 % gives a tax line of 80, the total printed as 1000, and a green status |

## Left out

- Rendering, routing, `localStorage` sign-in checks, the `useEffect` triggers and their order, timers, and loading spinners are not modelled. They are all framework behaviour. Each handler is modelled as one method called when the page would run it.
- Toasts on the ledger page are not modelled; the ledger handlers return no toast text.
- `InvoicePdf.GenerateInvoice`:
  - returns the recorded drawing operations rather than the serialised data URI, because `output("datauristring")` is jsPDF's own encoding;
  - leaves out fonts, document properties, table column styles and table layout, which are jsPDF internals;
  - does not compute where `autoTable` ends or how many pages it adds; both are parameters;
  - does not model `splitTextToSize` word wrapping, which is a parameter;
  - does not model an exception thrown by a malformed transaction (for example a missing `status`), since inputs are typed records.
- `InvoicePdf.StatusColor` does not model `statusColors` lookups of inherited object keys such as "toString". Statuses are plain strings.
- `Transactions.PaymentMethodName` does not model lookups of inherited object keys such as "constructor" either.
- `Sorting.SortInPlace` is an insertion sort. It states the permutation, the order, and that an ordered list stays unchanged. It does not promise that items comparing equal keep the server's order, which `Array.prototype.sort` does.
- `Transactions.Comparison` works on already-parsed date timestamps. A date that `new Date` cannot parse (NaN) is not modelled, because a NaN comparator result has no consistent order.
- `localeCompare` is not modelled with locale collation. The model uses the code-point order, which is a total order like collation but may rank letters differently.
- `toLowerCase` and `toUpperCase` are not modelled beyond ASCII letters.
- IEEE floating point is not modelled; amounts and sums are exact reals, and the printed form of a number is a parameter.
- `Number(text)` is not modelled; it is a parameter.
- `Products.Product.id` is an integer. String ids, also allowed by the source's types, are not modelled. The falsy id checked before a delete is therefore 0.
- The server actions (`getCurrentMonthSummary`, `getLedgerYearlySummary`, `filterTransactions`, `searchProducts`, `filterProducts`, `getAllProducts`, `deleteProduct`, `createClient`, `addStaffMember`, `createProduct`) are not modelled. Their files are not part of this model; their answers are parameters.
- The ledger's year and month filters compare calendar fields. Deriving those fields from `entry_date` through `new Date` and the time zone is outside the model.
