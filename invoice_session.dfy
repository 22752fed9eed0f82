/** The invoice editor page as state that its handlers change in place:
    the header fields, the rows of `#itemsBody`, the summary last shown,
    and whether a debounced recalculation (`calc`) is waiting to run. */
module InvoiceSession {
  import opened Wrappers
  import opened Text
  import opened Utils
  import opened Invoice
  import opened InvoiceActions
  import opened Ui
  import opened Api

  /** A stored invoice or quotation as `loadInvoiceFromURL` reads it; a
      text field that is missing is "". */
  datatype Doc = Doc(invoiceNo: string, quotationNo: string, date: string,
                     clientName: string, clientPhone: string, currency: string,
                     items: seq<Item>)

  /** The body of the document response: `{invoice: ...}`,
      `{quotation: ...}` or the document itself. */
  datatype Payload = Payload(invoice: Option<Doc>, quotation: Option<Doc>, direct: Doc)

  /** `data.invoice || data.quotation || data`. */
  function DocOf(p: Payload): Doc
  {
    if p.invoice.Some? then p.invoice.value
    else if p.quotation.Some? then p.quotation.value
    else p.direct
  }

  /** The rows `loadInvoiceFromURL` builds: one per stored item, in order,
      or a single blank row when there is none. */
  function LoadedRows(items: seq<Item>): (rows: seq<Row>)
    ensures |items| > 0 ==> |rows| == |items| && forall i :: 0 <= i < |items| ==> rows[i] == NewRow(ItemPreset(items[i]))
    ensures |items| == 0 ==> rows == [NewRow(NoPreset)]
  {
    if |items| > 0 then seq(|items|, i requires 0 <= i < |items| => NewRow(ItemPreset(items[i])))
    else [NewRow(NoPreset)]
  }

  /** The day of an ISO timestamp: the text before its 'T'. */
  function IsoDay(date: string): string
  {
    Split(date, 'T')[0]
  }

  /** An input of a row the user can type into. */
  datatype Cell = Service | Desc | Duration | TaxRate | Fees | Amount

  /** The row after the user has typed `text` into one of its inputs; a
      row without that input is unchanged. */
  function Typed(r: Row, cell: Cell, text: string): (r': Row)
    ensures r'.vat == r.vat && r'.total == r.total
  {
    match cell
    case Service => r.(service := Text(text))
    case Desc => r.(desc := Text(text))
    case Duration => r.(duration := Text(text))
    case TaxRate => if r.tax.Some? then r.(tax := Some(Text(text))) else r
    case Fees => if r.fees.Some? then r.(fees := Some(Text(text))) else r
    case Amount => if r.amount.Some? then r.(amount := Some(Text(text))) else r
  }

  /** The document `loadInvoiceFromURL` asks for: a quotation when the
      `mode` query parameter says so, an invoice otherwise. */
  function LoadEndpoint(id: string, modeParam: string): (endpoint: string)
    ensures modeParam == "quotation" ==> endpoint == "/api/quotations/" + id
    ensures modeParam != "quotation" ==> endpoint == "/api/invoices/" + id
  {
    (if modeParam == "quotation" then "/api/quotations/" else "/api/invoices/") + id
  }

  /** The header inputs of the editor and the page's own state around the
      row table: everything but the rows, the summary and the pending
      recalculation. */
  datatype Header = Header(mode: Mode, invoiceNo: string, invoiceDate: string,
                           clientName: string, clientPhone: string, currency: string,
                           deleteVisible: bool, saveLabel: Option<string>, toast: Toast)

  /** The document has a number to show: an invoice number or a
      quotation number. */
  predicate Numbered(d: Doc)
  {
    d.invoiceNo != "" || d.quotationNo != ""
  }

  /** `loadInvoiceFromURL` fills the table: an `id` was given and the
      response holds a numbered document. */
  predicate Loads(id: string, response: Option<Payload>)
  {
    id != "" && response.Some? && Numbered(DocOf(response.value))
  }

  /** The header after a numbered document has been copied in: the number
      (the invoice number first), and the date, client, phone and currency
      each only when the document has one; the Delete button shows and the
      Save button offers an update. */
  function Populated(h: Header, d: Doc): Header
  {
    h.(invoiceNo := if d.invoiceNo != "" then d.invoiceNo else d.quotationNo,
       invoiceDate := if d.date != "" then IsoDay(d.date) else h.invoiceDate,
       clientName := if d.clientName != "" then d.clientName else h.clientName,
       clientPhone := if d.clientPhone != "" then d.clientPhone else h.clientPhone,
       currency := if d.currency != "" then d.currency else h.currency,
       deleteVisible := true,
       saveLabel := Some(if h.mode == QuotationMode then "Update Quotation" else "Update PO"),
       toast := Toast("Invoice loaded successfully", Success))
  }

  /** The number a loaded document shows: its invoice number, else its
      quotation number. */
  function DocNumber(d: Doc): string
  {
    if d.invoiceNo != "" then d.invoiceNo else d.quotationNo
  }

  /** The header after the document request of `loadInvoiceFromURL` has
      answered: the document copied in, or the failure toast. */
  function Fetched(h: Header, response: Option<Payload>): Header
  {
    if response.None? || !Numbered(DocOf(response.value)) then h.(toast := Toast("Failed to load document", Error))
    else Populated(h, DocOf(response.value))
  }

  /** The request of `setupInvoiceNumber`. */
  const NextNumberCall := Call("/api/next-invoice", Get)

  /** The answer of `setupInvoiceNumber`'s request has arrived: `next` is
      the body's `invoiceNo` (`None` when the request threw or gave no
      body), and a non-empty one replaces the number field. */
  function NumberFetched(h: Header, next: Option<string>): Header
  {
    if next.Some? && next.value != "" then h.(invoiceNo := next.value) else h
  }

  /** The label `setMode` writes into the Save button. */
  function SaveLabel(m: Mode): string
  {
    if m == QuotationMode then "Save Offer" else "Save PO"
  }

  /** The synchronous part of `setMode(m)`: the mode and the Save button's
      label; its number request is still on its way. */
  function ModeSet(h: Header, m: Mode): Header
  {
    h.(mode := m, saveLabel := Some(SaveLabel(m)))
  }

  /** The header after `loadInvoiceFromURL`: nothing without an `id`.
      With `mode=quotation`, `setMode('quotation')` relabels the Save
      button and sends its number request, whose answer `next` arrives
      before the document's (`numberLast` false) or after it. Then either
      the loaded document or the failure toast. */
  function AfterLoad(h: Header, id: string, modeParam: string, response: Option<Payload>,
                     next: Option<string>, numberLast: bool): Header
  {
    if id == "" then h
    else if modeParam != "quotation" then Fetched(h, response)
    else
      var h1 := ModeSet(h, QuotationMode);
      if numberLast then NumberFetched(Fetched(h1, response), next)
      else Fetched(NumberFetched(h1, next), response)
  }

  /** What loading promises: a loaded document always leaves a number in
      the number field and an update label that matches the mode; a field
      the document lacks keeps the value the page had; a failed load
      leaves the header as it was, except that in quotation mode
      `setMode` has relabelled the Save button and its number may have
      arrived. */
  lemma AfterLoadFacts(h: Header, id: string, modeParam: string, response: Option<Payload>,
                       next: Option<string>, numberLast: bool)
    ensures id == "" ==> AfterLoad(h, id, modeParam, response, next, numberLast) == h
    ensures Loads(id, response) ==> AfterLoad(h, id, modeParam, response, next, numberLast).invoiceNo != ""
    ensures Loads(id, response) ==> AfterLoad(h, id, modeParam, response, next, numberLast).deleteVisible
    ensures Loads(id, response) && modeParam == "quotation" ==>
      AfterLoad(h, id, modeParam, response, next, numberLast).saveLabel == Some("Update Quotation")
    ensures Loads(id, response) ==>
      (AfterLoad(h, id, modeParam, response, next, numberLast).saveLabel == Some("Update Quotation") <==>
       AfterLoad(h, id, modeParam, response, next, numberLast).mode == QuotationMode)
    ensures Loads(id, response) && DocOf(response.value).clientName == "" ==>
      AfterLoad(h, id, modeParam, response, next, numberLast).clientName == h.clientName
    ensures Loads(id, response) && DocOf(response.value).currency == "" ==>
      AfterLoad(h, id, modeParam, response, next, numberLast).currency == h.currency
    ensures id != "" && !Loads(id, response) && modeParam != "quotation" ==>
      AfterLoad(h, id, modeParam, response, next, numberLast) == h.(toast := Toast("Failed to load document", Error))
    ensures id != "" && !Loads(id, response) && modeParam == "quotation" ==>
      AfterLoad(h, id, modeParam, response, next, numberLast) ==
        NumberFetched(h, next).(mode := QuotationMode, saveLabel := Some("Save Offer"),
                                toast := Toast("Failed to load document", Error))
  {
  }

  /** The number field after a successful load: the document's number,
      unless the document was a quotation and `setMode`'s next-number
      request answered after the document, in which case the next
      invoice number overwrites it. */
  lemma LoadNumberRace(h: Header, id: string, modeParam: string, response: Option<Payload>,
                       next: Option<string>, numberLast: bool)
    requires Loads(id, response)
    ensures modeParam != "quotation" ==>
      AfterLoad(h, id, modeParam, response, next, numberLast).invoiceNo == DocNumber(DocOf(response.value))
    ensures modeParam == "quotation" && !numberLast ==>
      AfterLoad(h, id, modeParam, response, next, numberLast).invoiceNo == DocNumber(DocOf(response.value))
    ensures modeParam == "quotation" && numberLast && next.Some? && next.value != "" ==>
      AfterLoad(h, id, modeParam, response, next, numberLast).invoiceNo == next.value
  {
  }

  class Session {
    /** The header inputs and the page's own state around the table. */
    var header: Header
    /** The rows of `#itemsBody`, top to bottom. */
    var rows: seq<Row>
    /** The subtotal, taxes, grand total, words and currency symbol last
        written by `updateSummary` and `updateCurrencySymbols`. */
    var shown: Summary
    /** A call of the debounced `calc` is waiting for its quiet period. */
    var calcPending: bool

    /** The page before any handler has run. */
    constructor()
      ensures header == Header(InvoiceMode, "", "", "", "", "", false, None, NoToast)
      ensures rows == [] && shown == InitialSummary && !calcPending
    {
      header := Header(InvoiceMode, "", "", "", "", "", false, None, NoToast);
      rows := [];
      shown := InitialSummary;
      calcPending := false;
    }

    /** `calc()`: (re)starts the quiet period of the debounced
        recalculation. */
    method Calc()
      modifies this
      ensures calcPending
      ensures rows == old(rows) && shown == old(shown) && header == old(header)
    {
      calcPending := true;
    }

    /** `performCalc`: every row is read by `calculateRow` (which writes
        its computed cells) while the amounts and the tax amounts are
        summed, then the summary is written. */
    method PerformCalc()
      modifies this
      ensures rows == RefreshAll(old(rows))
      ensures shown == SummaryOf(old(rows), header.currency)
      ensures shown == SummaryOf(rows, header.currency)
      ensures !calcPending
      ensures header == old(header)
    {
      var before := rows;
      var table, sum, totalTax := CalculateRows(before);
      var grand := Plus(Some(sum), totalTax);
      rows := table;
      shown := Summary(Money(Some(sum)), Money(totalTax), Money(grand), WordsLine(grand), CurrencyOrDefault(header.currency));
      calcPending := false;
      RefreshKeepsSums(before);
    }

    /** The quiet period of the debounced `calc` has passed: a waiting
        recalculation runs once. */
    method QuietPeriodElapsed()
      modifies this
      ensures old(calcPending) ==> rows == RefreshAll(old(rows)) && shown == SummaryOf(old(rows), header.currency)
      ensures !old(calcPending) ==> rows == old(rows) && shown == old(shown)
      ensures !calcPending
      ensures header == old(header)
    {
      if calcPending {
        PerformCalc();
      }
    }

    /** `setupInvoiceNumber()` with the `invoiceNo` of its answer (`None`
        when the request threw or gave no body). */
    method SetupInvoiceNumber(next: Option<string>) returns (sent: Call)
      modifies this
      ensures sent == NextNumberCall
      ensures next.Some? && next.value != "" ==> header == old(header).(invoiceNo := next.value)
      ensures next.None? || next.value == "" ==> header == old(header)
      ensures rows == old(rows) && shown == old(shown) && calcPending == old(calcPending)
    {
      sent := NextNumberCall;
      if next.Some? && next.value != "" {
        header := header.(invoiceNo := next.value);
      }
    }

    /** `setMode(m)`, with the answer `next` of the `setupInvoiceNumber`
        it ends with. */
    method SetMode(m: Mode, next: Option<string>) returns (sent: Call)
      modifies this
      ensures sent == NextNumberCall
      ensures header.mode == m
      ensures header.saveLabel == Some(if m == QuotationMode then "Save Offer" else "Save PO")
      ensures header.invoiceNo == (if next.Some? && next.value != "" then next.value else old(header).invoiceNo)
      ensures header == old(header).(mode := header.mode, saveLabel := header.saveLabel, invoiceNo := header.invoiceNo)
      ensures rows == old(rows) && shown == old(shown) && calcPending == old(calcPending)
    {
      header := ModeSet(header, m);
      sent := SetupInvoiceNumber(next);
    }

    /** `addRow(preset)`: one row is appended at the bottom. */
    method AddRow(p: Preset)
      modifies this
      ensures rows == old(rows) + [NewRow(p)]
      ensures calcPending && shown == old(shown) && header == old(header)
    {
      rows := rows + [NewRow(p)];
      Calc();
    }

    /** `removeRow` on the button of row `i`: that row, and only that one,
        leaves the table once its fade-out is over. */
    method RemoveRow(i: nat)
      requires i < |rows|
      modifies this
      ensures rows == old(rows)[..i] + old(rows)[i + 1..]
      ensures calcPending && shown == old(shown) && header == old(header)
    {
      rows := rows[..i] + rows[i + 1..];
      Calc();
    }

    /** `resetRows`: the table is emptied and one blank row is added. */
    method ResetRows()
      modifies this
      ensures rows == [NewRow(NoPreset)]
      ensures calcPending && shown == old(shown) && header == old(header)
    {
      rows := [];
      AddRow(NoPreset);
      Calc();
    }

    /** The user types `text` into input `cell` of row `i`; every input
        of a row starts the debounced recalculation. */
    method TypeInto(i: nat, cell: Cell, text: string)
      requires i < |rows|
      modifies this
      ensures rows == old(rows)[i := Typed(old(rows)[i], cell, text)]
      ensures calcPending && shown == old(shown) && header == old(header)
    {
      rows := rows[i := Typed(rows[i], cell, text)];
      Calc();
    }

    /** The user edits the currency field, which starts the debounced
        recalculation. */
    method SetCurrency(c: string)
      modifies this
      ensures header == old(header).(currency := c)
      ensures calcPending && rows == old(rows) && shown == old(shown)
    {
      header := header.(currency := c);
      Calc();
    }

    /** The user types `value` into the phone field, whose listener
        `formatPhoneNumber` rewrites it at once. */
    method EnterPhone(value: string)
      modifies this
      ensures header == old(header).(clientPhone := FormatPhone(value))
      ensures rows == old(rows) && shown == old(shown) && calcPending == old(calcPending)
    {
      var formatted := FormatPhone(value);
      header := header.(clientPhone := formatted);
    }

    /** The currency step of `importPDF` on the extracted text, whose
        `input` event starts the debounced recalculation. */
    method ImportCurrency(text: string)
      modifies this
      ensures header == old(header).(currency := DetectCurrency(text, old(header.currency)))
      ensures calcPending && rows == old(rows) && shown == old(shown)
    {
      var detected := DetectCurrency(text, header.currency);
      header := header.(currency := detected);
      Calc();
    }

    /** `loadInvoiceFromURL` with the `id` and `mode` query parameters,
        the body of the document response (`None` when the request failed
        or threw) and, in quotation mode, the answer `next` of the number
        request `setMode` sends and whether it arrives after the document
        (`numberLast`). */
    method LoadFromUrl(id: string, modeParam: string, response: Option<Payload>,
                       next: Option<string>, numberLast: bool) returns (sent: seq<Call>)
      modifies this
      ensures id == "" ==> sent == []
      ensures id != "" && modeParam == "quotation" ==> sent == [NextNumberCall, Call(LoadEndpoint(id, modeParam), Get)]
      ensures id != "" && modeParam != "quotation" ==> sent == [Call(LoadEndpoint(id, modeParam), Get)]
      ensures header == AfterLoad(old(header), id, modeParam, response, next, numberLast)
      ensures Loads(id, response) ==> rows == LoadedRows(DocOf(response.value).items) && calcPending
      ensures !Loads(id, response) ==> rows == old(rows) && calcPending == old(calcPending)
      ensures shown == old(shown)
    {
      if id == "" {
        return [];
      }
      sent := [];
      if modeParam == "quotation" {
        var asked := SetMode(QuotationMode, None);
        sent := [asked];
        if !numberLast {
          header := NumberFetched(header, next);
        }
      }
      sent := sent + [Call(LoadEndpoint(id, modeParam), Get)];
      if response.None? || !Numbered(DocOf(response.value)) {
        header := header.(toast := Toast("Failed to load document", Error));
      } else {
        var d := DocOf(response.value);
        header := Populated(header, d);
        rows := ItemRows(d.items);
        calcPending := true;
      }
      if modeParam == "quotation" && numberLast {
        header := NumberFetched(header, next);
      }
    }
  }

  /** The loop of `performCalc`: every row is read by `calculateRow`
      (which writes its computed cells) while the amounts of the counted
      rows and their tax amounts are summed. */
  method CalculateRows(before: seq<Row>) returns (table: seq<Row>, sum: real, totalTax: Option<real>)
    ensures table == RefreshAll(before)
    ensures sum == Subtotal(before) && totalTax == TotalTax(before)
  {
    table := before;
    sum := 0.0;
    totalTax := Some(0.0);
    var i := 0;
    assert before[..0] == [] && Results(before)[..0] == [];
    while i < |table|
      invariant Calculated(before, i, table, sum, totalTax)
    {
      CalculatedStep(before, i, table, sum, totalTax);
      var res := Contribution(table[i]);
      table := table[i := Refresh(table[i])];
      // `if (rowData)`: AmountPart and AddTax add nothing for an excluded row
      sum := sum + AmountPart(res);
      totalTax := AddTax(totalTax, res);
      i := i + 1;
    }
    CalculatedAll(before, table, sum, totalTax);
  }

  /** After `i` passes of the loop of `performCalc`: the first `i` rows
      are written, the others untouched, and the sums cover the first
      `i` results. */
  predicate Calculated(before: seq<Row>, i: int, table: seq<Row>, sum: real, totalTax: Option<real>)
  {
    0 <= i <= |table| == |before| &&
    table == RefreshAll(before[..i]) + before[i..] &&
    sum == SumAmounts(Results(before)[..i]) && totalTax == SumTaxes(Results(before)[..i])
  }

  /** One pass writes row `i` and adds its result to the sums. */
  lemma CalculatedStep(before: seq<Row>, i: int, table: seq<Row>, sum: real, totalTax: Option<real>)
    requires Calculated(before, i, table, sum, totalTax) && i < |table|
    ensures Calculated(before, i + 1, table[i := Refresh(table[i])],
                       sum + AmountPart(Contribution(table[i])), AddTax(totalTax, Contribution(table[i])))
  {
    SumsStep(before, i);
    assert table[i] == before[i];
    assert table[i := Refresh(table[i])] == RefreshAll(before[..i + 1]) + before[i + 1..];
  }

  /** After the last pass every row is written and the sums are the
      subtotal and the tax total. */
  lemma CalculatedAll(before: seq<Row>, table: seq<Row>, sum: real, totalTax: Option<real>)
    requires Calculated(before, |table|, table, sum, totalTax)
    ensures table == RefreshAll(before)
    ensures sum == Subtotal(before) && totalTax == TotalTax(before)
  {
    SumsWhole(before);
    assert before[..|before|] == before;
  }

  /** The rows `loadInvoiceFromURL` appends: one per stored item, in
      order, or a single blank row when there are none. */
  method ItemRows(items: seq<Item>) returns (table: seq<Row>)
    ensures table == LoadedRows(items)
  {
    if |items| == 0 {
      return [NewRow(NoPreset)];
    }
    table := [];
    var k := 0;
    while k < |items|
      invariant 0 <= k <= |items|
      invariant |table| == k
      invariant forall j :: 0 <= j < k ==> table[j] == NewRow(ItemPreset(items[j]))
    {
      table := table + [NewRow(ItemPreset(items[k]))];
      k := k + 1;
    }
  }

  /** Adding a blank row and letting the quiet period pass leaves the
      summary as it would be without the row. */
  method BlankRowKeepsTotals(s: Session)
    modifies s
    ensures s.shown == SummaryOf(old(s.rows), s.header.currency)
    ensures |s.rows| == |old(s.rows)| + 1
  {
    var before := s.rows;
    s.AddRow(NoPreset);
    var added := s.rows;
    s.QuietPeriodElapsed();
    BlankRowKeepsSummary(before, s.header.currency);
  }

  /** A blank row does not change the summary. */
  lemma BlankRowKeepsSummary(rows: seq<Row>, currency: string)
    ensures SummaryOf(rows + [NewRow(NoPreset)], currency) == SummaryOf(rows, currency)
  {
    BlankRowAddsNothing(rows);
    SameSumsSameSummary(rows + [NewRow(NoPreset)], rows, currency);
  }

  /** Two tables with the same subtotal and tax total show the same
      summary. */
  lemma SameSumsSameSummary(a: seq<Row>, b: seq<Row>, currency: string)
    requires Subtotal(a) == Subtotal(b) && TotalTax(a) == TotalTax(b)
    ensures SummaryOf(a, currency) == SummaryOf(b, currency)
  {
    var g := GrandTotal(a);
    assert g == GrandTotal(b);
    var shown := Summary(Money(Some(Subtotal(a))), Money(TotalTax(a)), Money(g), WordsLine(g), CurrencyOrDefault(currency));
    assert SummaryOf(a, currency) == shown;
    assert SummaryOf(b, currency) == shown;
  }

  /** Removing row `i` and recalculating lowers the subtotal by that
      row's amount. */
  method RemovalLowersSubtotal(s: Session, i: nat)
    requires i < |s.rows|
    modifies s
    ensures s.shown.subtotal == Subtotal(old(s.rows)) - AmountPart(Contribution(old(s.rows)[i]))
    ensures |s.rows| == |old(s.rows)| - 1
  {
    var before := s.rows;
    s.RemoveRow(i);
    var left := s.rows;
    s.QuietPeriodElapsed();
    assert s.shown == SummaryOf(left, s.header.currency);
    RemoveRowSums(before, i);
  }

  /** After a reset and a recalculation the table holds one blank row and
      every total shows 0 with the words "Zero Dollars Only". */
  method ResetShowsZero(s: Session)
    modifies s
    ensures |s.rows| == 1
    ensures s.shown.subtotal == 0.0 && s.shown.taxes == 0.0 && s.shown.grand == 0.0
    ensures s.shown.words == Some("Zero Dollars Only")
  {
    s.ResetRows();
    s.QuietPeriodElapsed();
    BlankTableTotals();
  }

  /** The totals of a table holding one blank row. */
  lemma BlankTableTotals()
    ensures Subtotal([NewRow(NoPreset)]) == 0.0 && TotalTax([NewRow(NoPreset)]) == Some(0.0)
    ensures GrandTotal([NewRow(NoPreset)]) == Some(0.0)
    ensures WordsLine(GrandTotal([NewRow(NoPreset)])) == Some("Zero Dollars Only")
  {
    BlankTableSums();
    ZeroWordsLine();
  }

  lemma BlankTableSums()
    ensures Subtotal([NewRow(NoPreset)]) == 0.0 && TotalTax([NewRow(NoPreset)]) == Some(0.0)
  {
    BlankRowAddsNothing([]);
    assert [] + [NewRow(NoPreset)] == [NewRow(NoPreset)];
  }

  lemma ZeroWordsLine()
    ensures WordsLine(Some(0.0)) == Some("Zero Dollars Only")
  {
  }
}
