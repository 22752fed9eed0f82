# Invoicing front-end: document logic

This project models the browser-side logic of a small invoicing
application. Its pages are:

- an invoice editor, which builds a purchase order or a quotation from a
  table of line items;
- an archive of saved invoices;
- a client book;
- a list of quotations;
- an administration page.

The model covers:

- how the editor reads each line item and adds the items up into a
  subtotal, a tax total, a grand total and the total in English words;
- how the row table changes when rows are added, removed, reset or loaded
  from a stored document;
- how a typed phone number is normalised;
- which request a Save or a Delete sends, and what a WhatsApp message and
  a scanned PDF's currency become;
- the search filters, in-memory status patches and deletions of the
  archive, client and quotation pages;
- the view switching, row filter and protected super administrator of the
  administration page.

Numbers are exact `real`s. A value JavaScript would hold as NaN or
Infinity is `None` in an `Option<real>`. The network is an oracle: each
request is returned as a `Call` (endpoint and verb), and the server's
answer is a parameter. That answer is a `Reply` (a network error or an
HTTP status) or the parsed body. `Api.Throws` says when `apiCall`
throws: on a network error and on status 401 only. So a 404 or 500 answer
to a status change or a delete is handled like a success, because the
page never looks at `res.ok` there. A toast the page shows is the page's
`toast` field. A `confirm()` answer is a boolean parameter.

Modules, following the source files:

- `Wrappers`, `Seqs`, `Text`, `Numbers`: `Option`, filter/map over
  sequences, ASCII lower-casing and substring search, splitting, and
  JavaScript's `Number()` on decimal text.
- `Utils`: `money`, `formatDate`, `numberToWords` (utils.js).
- `AmountWords`: a reader of the English phrase and the proof that the
  phrase always names the whole part of the amount.
- `Invoice`: one row (`calculateRow`) and the sums of a table (invoice.js).
- `InvoiceActions`: phone formatting, save/delete requests, WhatsApp
  message, currency detection (invoice.js).
- `InvoiceSession`: the editor page as a class whose methods change the
  row table, the header fields and the shown summary (invoice.js).
- `Api`, `Ui`: the outcome of `apiCall` and the toast of `showToast`.
- `History`, `Clients`, `Quotations`, `Admin`: one class per page over
  the page's module-level state (history.js, clients.js, quotations.js,
  admin.js).

Five behaviours of the code that a reader might not expect are modelled as written:

- The tax rate of a loaded item falls back `tax || vatRate || 0`, so a
  stored tax of 0 yields to `vatRate` (invoice.js:573).
- The admin page starts the loader of the view it was asked for, before
  normalisation. An unknown view is therefore shown as the dashboard but
  loads no data (admin.js:20-24, `Admin.UnknownViewLoadsNothing`).
- The client search matches the phone as typed, not lower-cased
  (clients.js:41).
- `numberToWords` of an amount strictly between 0 and 1 is
  " Dollars Only", with no number word (`AmountWords.BelowOneHasNoNumber`).
- Opening a quotation in the editor calls `setMode('quotation')`, whose
  next-number request races the document request. When it answers last,
  the next invoice number replaces the quotation's number in the field
  (invoice.js:530-550, `InvoiceSession.LoadNumberRace`).

## Model

| member | source | states |
|---|---|---|
| Utils.Money | utils.js:1-4 | a non-finite value is shown as 0, a finite one as itself |
| Utils.FormatDate | utils.js:6-10 | the result is empty exactly when the input is empty |
| Utils.FormatDateOfIso | utils.js:6-10 | `y-m-d` with dash-free parts becomes `d/m/y` |
| Utils.FormatDateWithoutDash | utils.js:8-9 | a text without a dash becomes "undefined/undefined/" followed by the text |
| Utils.NumberToWordsCases | utils.js:12-49 | 0 gives "Zero Dollars Only"; a negative amount gives "Minus " + the words of its magnitude; a positive one ends in " Dollars Only"; from 1 on the fraction does not change the words |
| Utils.OneExample | utils.js:12-49 | 1 reads "One Dollars Only" |
| Utils.TwentyOneExample | utils.js:24-29 | 21 reads "Twenty One Dollars Only": tens word, a space, ones word |
| Utils.HundredExample | utils.js:31-36 | 100 reads "One Hundred Dollars Only", with no trailing chunk |
| Utils.FifteenHundredExample | utils.js:41-49 | 1500 reads "One Thousand Five Hundred Dollars Only" |
| Utils.ThousandExample | utils.js:41-49 | 1000 reads "One Thousand " followed by " Dollars Only": the thousand group's trailing space doubles the space before "Dollars" |
| Utils.NegativeExample | utils.js:13 | -5 reads "Minus Five Dollars Only" |
| AmountWords.ChunkWords | utils.js:24-29 | the words of `convertChunk(x)`: `ones[x]` below 20, else the tens word followed by the ones word only when x % 10 > 0 |
| AmountWords.HundredsWords | utils.js:31-36 | the words of `convertHundreds(x)`: above 99 the hundreds digit's word, "Hundred", then the chunk words of x % 100 |
| AmountWords.NoScaleInGroup | utils.js:31-36 | the words of a group below 1000 never contain "Million" or "Thousand" |
| AmountWords.WordsRoundTrip | utils.js:12-50 | reading the phrase back as English gives exactly the whole part of the amount, sign included |
| AmountWords.SameWordsIffSameWholePart | utils.js:20-49 | two positive amounts get the same words if and only if their whole parts are equal |
| AmountWords.BelowOneHasNoNumber | utils.js:38-49 | an amount strictly between 0 and 1 gives " Dollars Only", which differs from the words for 0 |
| AmountWords.ScaleWordsAppear | utils.js:38-43 | "Million" appears if and only if the whole part is at least 10^6; "Thousand" appears if and only if the whole part mod 10^6 is at least 1000 |
| Numbers.BlankIsZero | invoice.js:122-124 | `Number()` of empty or blank text is 0 |
| Numbers.ParseDigits | invoice.js:122-124 | `Number()` of a digit string is its decimal value |
| Numbers.ParseDecimal | invoice.js:122-124 | `Number()` of "a.b" with digit strings a and b is their decimal value |
| Invoice.Or | invoice.js:573 | `a \|\| b`: `a` when it is truthy, otherwise `b` |
| Invoice.FieldOf | invoice.js:173-196 | a missing preset value takes the default; a number or string is kept |
| Invoice.NewRow | invoice.js:166-211 | the appended row has every input; tax rate and fees default to 0, text cells and amount to "", computed cells start at 0 |
| Invoice.TaxAmount | invoice.js:130 | the tax amount minus the fees is amount × rate / 100; it is NaN exactly when the fees are |
| Invoice.Contribution | invoice.js:113-137 | a row is left out if and only if it lacks an amount or tax input or its amount is not finite; a counted row has that amount; a finite rate gives amount × rate/100 + fees, any other rate 0 |
| Invoice.Plus | invoice.js:104-106 | the sum is NaN exactly when an operand is; otherwise it is the real sum |
| Invoice.RefreshFacts | invoice.js:128-134 | the row after `calculateRow` counts the same, recalculating it twice changes nothing, and only the computed cells change; a non-finite rate or a left-out row leaves it untouched |
| Invoice.AddTax | invoice.js:103-106 | a left-out row adds no tax; the running tax total stays a number exactly when it was one and the row's tax is a number |
| Invoice.Results | invoice.js:101-102 | one `calculateRow` result per row, in row order |
| Invoice.SumsAppend | invoice.js:101-107 | the amounts and taxes of two tables joined are the sums of each |
| Invoice.SumsStep | invoice.js:103-106 | one more row adds its amount to the running subtotal and its tax to the running tax |
| Invoice.TaxUndefinedIff | invoice.js:101-107 | the tax total is NaN if and only if some counted row has NaN fees |
| Invoice.WordsLine | invoice.js:157 | the words line is `numberToWords` of the grand total; NaN gives " Dollars Only" |
| Invoice.CurrencyOrDefault | invoice.js:99 | an empty currency field shows as "$" |
| Invoice.SummaryOf | invoice.js:139-158 | the summary shows the subtotal, `money` of the tax total and of the grand total, the words of the grand total and the currency symbol |
| Invoice.RefreshAll | invoice.js:101-102 | every row is passed through `calculateRow`, in place and in order |
| Invoice.RefreshKeepsSums | invoice.js:101-134 | writing the computed cells changes no row's result, so the subtotal and tax total stay the same |
| Invoice.BlankRowAddsNothing | invoice.js:166-221 | a blank row counts as amount 0 and tax 0, so appending it changes neither sum |
| Invoice.RemoveRowSums | invoice.js:223-231 | removing row i lowers the subtotal by that row's amount, and the tax total is the remaining tax plus that row's tax |
| Invoice.CommasIgnored | invoice.js:122 | commas in a typed amount do not change its value |
| Invoice.GroupedAmount | invoice.js:122 | "a,b" with digit groups a and b reads as the number "ab" |
| Invoice.LoadedTaxRate | invoice.js:573 | a loaded item's tax rate is `tax`, else `vatRate`, else 0 |
| Invoice.NumericRow | invoice.js:113-137 | a row preset with numbers contributes the amount and amount × tax/100 + fees |
| Invoice.TwoRowExample | invoice.js:94-111 | 100 at 14% with fees 10, plus 50 untaxed, give 150, 24 and 174 |
| InvoiceActions.CleanedIsRaw | invoice.js:284-287 | the second clean-up changes nothing; the result holds only digits and '+' and starts with '+' |
| InvoiceActions.PhoneGroups | invoice.js:288-293 | a "+20" number splits into one to four groups |
| InvoiceActions.GroupsConcat | invoice.js:289-293 | the groups, put together, are the first 13 characters of the number |
| InvoiceActions.GroupSizes | invoice.js:289-293 | the first group is "+20", the next ones hold 1-3, 1-3 and 1-4 characters |
| InvoiceActions.FormattedDigits | invoice.js:283-296 | the formatted number without its spaces is the cleaned number cut at 13 characters |
| InvoiceActions.FormatPhoneShape | invoice.js:283-296 | a number not starting "+20" is left as typed; a "+20" one becomes its groups joined by spaces |
| InvoiceActions.FormatPhoneIdempotent | invoice.js:283-296 | formatting an already formatted number changes nothing |
| InvoiceActions.SaveRequest | invoice.js:308-354 | no client name means the warning and no request; otherwise PUT to collection/id when an id is given and POST to the collection otherwise, status "pending", number key by mode |
| InvoiceActions.SaveReport | invoice.js:356-372 | a refusal shows "Error: " + message, a thrown error "Save failed: " + message |
| InvoiceActions.SaveReportCreated | invoice.js:359 | a first save reports "Invoice/Quotation Saved Successfully!" by mode |
| InvoiceActions.SaveReportUpdated | invoice.js:359 | a save with an id reports "Invoice/Quotation Updated Successfully!" by mode |
| InvoiceActions.DeleteRequest | invoice.js:604-616 | no id means "nothing selected"; a declined confirmation sends nothing; otherwise DELETE on the quotation or invoice URL by mode |
| InvoiceActions.SaveAndDeleteAgree | invoice.js:348-354 | an opened document is saved to the same URL it is deleted from |
| InvoiceActions.RemoveFirst | invoice.js:513 | text without the character is unchanged; a leading one is dropped |
| InvoiceActions.RemoveFirstOccurrence | invoice.js:513 | when the text holds the character, exactly its first occurrence is cut out and everything before and after it stays |
| InvoiceActions.WhatsApp | invoice.js:475-518 | client, number and service are never empty; the date is `formatDate`'s; the number is dialled only when it has at least ten characters |
| InvoiceActions.FormattedPhoneDialled | invoice.js:513-518 | a formatted Egyptian number is dialled as its kept digits, without '+' |
| InvoiceActions.DetectCurrency | invoice.js:458-462 | a dollar marker gives "$"; otherwise a euro marker gives "€"; otherwise a pound marker gives "EGP"; no marker keeps the field |
| InvoiceActions.DollarStays | invoice.js:460 | more text after a dollar marker keeps "$" |
| InvoiceSession.LoadedRows | invoice.js:564-580 | one row per stored item in order, or one blank row when there is none |
| InvoiceSession.LoadEndpoint | invoice.js:536 | the quotation URL when `mode` is "quotation", the invoice URL otherwise |
| InvoiceSession.AfterLoadFacts | invoice.js:523-602 | without an id nothing changes; a loaded document leaves a number, the Delete button and an update label matching the mode; a missing field keeps its value; a failed load changes only the toast, and in quotation mode also the mode, the "Save Offer" label and the number from the next-number answer |
| InvoiceSession.LoadNumberRace | invoice.js:530-550 | after a successful load the field shows the document's number, except for a quotation whose next-number answer arrived after the document, which shows that next number |
| InvoiceSession.Session.constructor | invoice.js:23 | invoice mode, empty fields, an empty table, no pending recalculation |
| InvoiceSession.Session.Calc | invoice.js:92 | a recalculation is pending; nothing else changes |
| InvoiceSession.Session.PerformCalc | invoice.js:94-111 | every row is recalculated in place and the summary equals `SummaryOf` the table, both before and after the recalculation |
| InvoiceSession.Session.QuietPeriodElapsed | invoice.js:92 | a pending recalculation runs once; with none pending nothing changes |
| InvoiceSession.Session.SetupInvoiceNumber | invoice.js:242-254 | GET /api/next-invoice; a non-empty `invoiceNo` in the answer replaces the number field, otherwise nothing changes |
| InvoiceSession.Session.SetMode | invoice.js:25-89 | the mode is set, the Save button reads "Save Offer" or "Save PO", the next-number request goes out and its answer sets the number; nothing else changes |
| InvoiceSession.Session.AddRow | invoice.js:166-221 | exactly one new row is appended at the end and a recalculation is pending |
| InvoiceSession.Session.RemoveRow | invoice.js:223-231 | exactly row i leaves the table, the others keep their order |
| InvoiceSession.Session.ResetRows | invoice.js:233-240 | the table holds exactly one blank row |
| InvoiceSession.Session.TypeInto | invoice.js:216-218 | only the typed cell of that row changes, and a recalculation is pending |
| InvoiceSession.Session.SetCurrency | invoice.js:10 | only the currency changes, and a recalculation is pending |
| InvoiceSession.Session.EnterPhone | invoice.js:11 | the phone field holds the formatted number |
| InvoiceSession.Session.ImportCurrency | invoice.js:458-463 | the currency field becomes the detected currency and a recalculation is pending |
| InvoiceSession.Session.LoadFromUrl | invoice.js:523-602 | requests go out only when there is an id: the next-number request in quotation mode, then the document from `LoadEndpoint`; the header becomes `AfterLoad` for either arrival order; a loaded document replaces the rows with its items |
| InvoiceSession.CalculateRows | invoice.js:101-107 | the loop computes the recalculated table, the subtotal and the tax total |
| InvoiceSession.CalculatedStep | invoice.js:101-107 | one pass writes row i's cells and adds its result to the running sums |
| InvoiceSession.ItemRows | invoice.js:564-580 | the loop builds exactly `LoadedRows` of the items |
| InvoiceSession.BlankRowKeepsTotals | invoice.js:166-221 | adding a blank row and recalculating shows the summary of the table without it |
| InvoiceSession.BlankRowKeepsSummary | invoice.js:139-158 | a blank row does not change the summary |
| InvoiceSession.RemovalLowersSubtotal | invoice.js:223-231 | removing a row and recalculating lowers the shown subtotal by that row's amount |
| InvoiceSession.ResetShowsZero | invoice.js:233-240 | after a reset and a recalculation every total shows 0 and the words are "Zero Dollars Only" |
| InvoiceSession.BlankTableTotals | invoice.js:233-240 | a table with one blank row has subtotal, tax and grand total 0 |
| Api.ThrowsOrAnswers | api.js:14-28 | `apiCall` throws exactly on a network error or a 401; a throw is never an ok answer |
| History.SearchInvoices | history.js:17-22 | the result is an order-preserving subsequence holding exactly the records whose client name or number, present and lower-cased, contains the lower-cased term |
| History.PatchStatus | history.js:105 | only records with that id get the new status; length, order and every other field stay |
| History.RemoveId | history.js:115 | every record with that id goes, the rest stay in order |
| History.SelectedOption | history.js:53-54 | "pending" is selected if and only if the status is neither paid nor cancelled |
| History.CardOf | history.js:69-71 | "Unknown Client" for a missing name, 0 for a missing total |
| History.Render | history.js:41-100 | the empty state if and only if the list is empty, otherwise one card per record in order |
| History.OneOptionSelected | history.js:80-82 | each offered status selects itself, and the colour follows the selected option |
| History.PatchedCardSelects | history.js:102-106 | after a status change the changed card selects the new status |
| History.SearchAfterPatch | history.js:17-22 | searching and patching a status commute |
| History.SearchAfterRemove | history.js:17-22 | searching and deleting commute |
| History.RemoveIdempotent | history.js:115 | deleting the same id twice removes nothing more |
| History.SearchIdempotent | history.js:17-22 | searching the results again changes nothing, and the case of the term does not matter |
| History.EmptySearch | history.js:17-22 | an empty term keeps exactly the records with a client name or a number |
| History.Archive.Load | history.js:30-39 | a list body replaces the records and renders them; a thrown request shows the error state; a body that is not a list also shows it and leaves the page broken |
| History.Archive.Search | history.js:17-24 | the grid shows the search result, or stays as it was on a broken page; the records stay |
| History.Archive.UpdateStatus | history.js:102-109 | PUT to the status URL; unless it throws or the page is broken, the records are patched and all are shown; otherwise nothing changes but the error toast |
| History.Archive.DeleteInvoice | history.js:111-119 | nothing without confirmation; DELETE, then unless it throws or the page is broken the id is removed and the rest shown; otherwise the error toast |
| History.DeleteLeavesNoCard | history.js:111-117 | after a delete no card carries the id and every other record stays |
| Clients.SearchClients | clients.js:41 | an order-preserving subsequence of the clients whose lower-cased name contains the term or whose phone, as typed, contains it |
| Clients.CardOf | clients.js:55-85 | the initial is the name's first letter, never a lower-case ASCII letter, and equal to it ignoring case; a missing phone is "-"; the e-mail and address lines appear only when present |
| Clients.RenderClients | clients.js:38-89 | the empty state if and only if the search finds nothing, otherwise one card per found client |
| Clients.SaveCall | clients.js:101-102 | PUT to the client's URL if and only if the form has an id, POST to the collection otherwise; the body is the form's fields |
| Clients.Find | clients.js:128-129 | finds a client exactly when one has that id; the one found has it and sits before every other client with that id |
| Clients.OpenedForm | clients.js:125-143 | no id resets the form; an unknown id clears only the id and keeps the other inputs; a known id copies that client's id, name, phone, e-mail and address |
| Clients.EditSavesBack | clients.js:125-143 | opening a client and saving sends that client's fields to its own URL |
| Clients.NewClientPosts | clients.js:125-127 | a fresh form creates a new client |
| Clients.UnknownIdPosts | clients.js:128-129 | an id no client has still clears the id, so saving creates a new client |
| Clients.SearchFacts | clients.js:41 | the case of the search does not matter, and the empty search lists everyone |
| Clients.NameSearchIgnoresCase | clients.js:41 | a client whose lower-cased name contains the lower-cased search is listed |
| Clients.ClientsPage.constructor | clients.js:27-36 | no clients, an empty search and form, a closed modal |
| Clients.ClientsPage.LoadClients | clients.js:27-36 | a list body replaces the clients and renders them; a thrown request shows the error state; a body that is not a list also shows it and leaves the page broken |
| Clients.ClientsPage.TypeSearch | clients.js:38-41 | the list shows the search result for the new text, or stays as it was on a broken page |
| Clients.ClientsPage.OpenModal | clients.js:125-143 | the modal opens with `OpenedForm`; on a broken page every id is unknown |
| Clients.ClientsPage.CloseModal | clients.js:145-147 | the modal closes; nothing else changes |
| Clients.ClientsPage.SaveClient | clients.js:91-114 | sends `SaveCall` of the form; on ok the modal closes, the list reloads and the success toast shows; a refusal or a throw shows its error toast |
| Clients.ClientsPage.DeleteClient | clients.js:116-123 | nothing without confirmation; DELETE, then unless it throws reload and "Client deleted"; otherwise "Delete failed" |
| Quotations.SearchQuotations | quotations.js:34-38 | an order-preserving subsequence of the quotations whose client name or number, present and lower-cased, contains the lower-cased search |
| Quotations.CardOf | quotations.js:49-97 | converted badge and disabled "Invoice Created" if and only if the status is "converted"; Delete and two columns if and only if the role is admin; the Edit link opens the quotation |
| Quotations.Render | quotations.js:33-101 | the placeholder if and only if the search finds nothing, otherwise one card per found quotation |
| Quotations.CardButtons | quotations.js:78-96 | a card offers conversion exactly when not converted, and Delete only to an admin |
| Quotations.EditOpensQuotation | quotations.js:88 | the Edit link makes the editor load that quotation and offer "Update Quotation" |
| Quotations.SearchFacts | quotations.js:34-38 | the case of the search does not matter, and searching the results again changes nothing |
| Quotations.QuotationsPage.Load | quotations.js:22-31 | a list body replaces the quotations and renders them; a thrown request shows the error state; a body that is not a list also shows it and leaves the page broken |
| Quotations.QuotationsPage.TypeSearch | quotations.js:33-38 | the grid shows the search result for the new text, or stays as it was on a broken page |
| Quotations.QuotationsPage.ConvertToInvoice | quotations.js:103-115 | nothing without confirmation; POST to the convert URL; ok shows success and goes to the archive; a refusal shows "Error: " + its error; a throw or unreadable body shows "Conversion failed" |
| Quotations.QuotationsPage.DeleteQuotation | quotations.js:117-124 | nothing without confirmation; DELETE, then unless it throws "Quotation deleted" and a reload; otherwise "Delete failed" |
| Admin.NormalizeView | admin.js:133-134 | a known view stays; anything else becomes "dashboard" |
| Admin.RequestedView | admin.js:20 | a missing or empty `view` parameter asks for "dashboard" |
| Admin.TargetId | admin.js:136-137 | "users" targets "usersSection", any other view its own id |
| Admin.FirstWithId | admin.js:144 | the first section with that id, or none when no section has it |
| Admin.OneSectionVisible | admin.js:139-148 | after a switch at most one section is visible, it is active and has the target id, and one is visible when the target exists |
| Admin.SwitchIdempotent | admin.js:139-148 | switching twice to the same view gives the same sections |
| Admin.StartLoader | admin.js:20-24 | the dashboard loader runs if and only if "dashboard" was asked for, the users loader if and only if "users" was |
| Admin.UnknownViewLoadsNothing | admin.js:20-24 | an unknown view shows the dashboard but loads nothing |
| Admin.UserViewOf | admin.js:209-219 | Delete is offered if and only if the user is not the super administrator; a missing username shows "-" |
| Admin.UsersTable | admin.js:209-222 | one row per user, in order |
| Admin.SuperAdminProtected | admin.js:210-219 | the super administrator's row never has Delete, every other row has it |
| Admin.FilteredRow | admin.js:245-253 | a row with a first cell is shown if and only if its lower-cased text contains the lower-cased filter; a row without one is untouched |
| Admin.FilterRowFacts | admin.js:244-254 | filtering twice changes nothing, and the empty filter shows every row with a first cell |
| Admin.AdminPage.constructor | admin.js:19-20 | the page starts with its sections, rows and `view` parameter and an empty history |
| Admin.AdminPage.SwitchView | admin.js:132-155 | the sections become `AfterSwitch` of the normalised view's target; the parameter is pushed only when it differs |
| Admin.AdminPage.Start | admin.js:19-24 | the requested view is switched to, its normalised name is pushed onto the history unless the address already carries it, and the loader of the requested view is started |
| Admin.AdminPage.FilterUsers | admin.js:238-255 | row 0 is untouched; every other row becomes `FilteredRow` of its old value |

## Left out

- The DOM, styling and animations: HTML templates, classes and icons, `setMode`'s button styling, `animateValue`, `renderNavigation`. Only the state these write is modelled.
- The network and storage: `fetch`, the token in `localStorage`, and the redirect to the login page on a 401. The answer to each request is a parameter.
- `login.js`, `auth.js` and `main.js`: they only wire pages and handle authentication.
- Timing: the 300 ms `debounce` is a pending flag, and `QuietPeriodElapsed` stands for its timer firing. The 200 ms fade of `removeRow` is not modelled; the row leaves at once. The one-second delay before the redirect after a conversion is not modelled; the redirect is recorded at once.
- The body of the save request: item values re-read with `parseFloat`, and totals parsed back from the shown text. Only the endpoint, the verb, the number key and the status are modelled.
- The client autocomplete of the editor. It fetches data and copies it into fields, and holds no logic of its own.
- InvoiceSession.Session.SetMode: the document title, the number placeholder, the `docMode` input and the button colours it writes are not modelled. Its number request is answered at once; only inside `LoadFromUrl` is the order of the two answers a parameter.
- InvoiceSession.Session.LoadFromUrl: the page markup is not part of this model. The model takes `#btn-save-text` to be found after `setMode` has rewritten the Save button. If that element sat inside the button, the rewrite would remove it and a loaded quotation would keep "Save Offer" instead of "Update Quotation".
- InvoiceSession.AfterLoadFacts: states the header for both arrival orders of the next-number answer, but not for other handlers that run between the two answers.
- `exportPDF`, `window.print`, `exportData`, and `importPDF`'s pdf.js text extraction with its number and phone patterns. Only the currency step of `importPDF`, on the extracted text, is modelled.
- The admin dashboard figures, adding and deleting users, password change and the profile box. None of these is part of the modelled core.
- Utils.Money: the amount is exact; the two-decimal rounding of `toFixed(2)` is not modelled.
- `toLocaleString` and `Date` formatting of amounts and dates on the cards.
- InvoiceSession.IsoDay: `new Date(d).toISOString()` is taken as the stored text itself, so only its split at 'T' is modelled. A date that does not parse, which makes the source throw, is not modelled.
- Utils.NumberToWords: requires the amount to lie strictly between -10^9 and 10^9. From 10^9 on the source indexes past its word table. Invoice.WordsLine leaves that range unspecified.
- Numbers.ParseNumber: `Number()` is modelled for decimal text with an optional sign. Exponents, hexadecimal and the literal "Infinity" read as not a number. Its trimming strips ASCII whitespace only (`Text.IsSpace`), not U+00A0, U+FEFF or the other Unicode spaces JavaScript also strips.
- InvoiceActions.WhatsApp: the removal of `\s` from the phone strips ASCII whitespace only, not U+00A0, U+FEFF or the other Unicode spaces.
- Clients.SearchClients: a client whose record lacks a name is listed, its name read as "". The source's `c.name.toLowerCase()` throws on such a client, so the whole list fails to render.
- History.CardOf: a missing invoice number or id is "" in the model; the source prints "undefined".
- Quotations.CardOf: a missing quotation number or id is "" in the model; the source prints "undefined".
- Admin.UserViewOf: a missing e-mail or role is "" in the model; the source prints "undefined".
- Quotations.QuotationsPage.ConvertToInvoice: a refusal body without an `error` field makes the source show "Error: undefined"; the model shows that only when the caller passes `Some("undefined")` for it.
- The WhatsApp text: `encodeURIComponent` and the message template. The message is modelled by its fields.
- Lower-casing is ASCII only; JavaScript's Unicode case mapping is not modelled.
