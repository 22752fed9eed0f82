/** The quotations page (`quotations.js`): the list of offers with its
    live search, the conversion of an offer into an invoice, the Edit
    link into the editor and the admin-only Delete button. */
module Quotations {
  import opened Wrappers
  import opened Text
  import opened Seqs
  import opened Api
  import opened Ui
  import InvoiceSession

  /** One stored quotation; a text field the record lacks is "" and a
      missing total is `None`. */
  datatype Quotation = Quotation(id: string, quotationNo: string, clientName: string,
                                 status: string, date: string,
                                 totalAmount: Option<real>, currency: string)

  /** The status badge of a card. */
  datatype Badge = ConvertedBadge | DraftBadge

  /** The first button of a card: the live "Convert to Invoice" button or
      the disabled "Invoice Created" one. */
  datatype ConvertButton = ConvertAction | InvoiceCreated

  /** The editor link of a card: its `mode` and `id` query parameters. */
  datatype EditLink = EditLink(modeParam: string, id: string)

  /** What one card shows. */
  datatype QuoteCard = QuoteCard(id: string, quotationNo: string, client: string, total: real,
                                 currency: string, badge: Badge, convert: ConvertButton,
                                 edit: EditLink, deleteButton: bool, columns: nat)

  /** The content of `#grid`. */
  datatype QuoteGrid = LoadFailed | NoQuotations | QuoteCards(cards: seq<QuoteCard>)

  /** The search filter with an already lower-cased term: the client name
      or the quotation number, when present, contains the term, ignoring
      case. */
  predicate QuoteMatches(q: Quotation, term: string)
  {
    (q.clientName != "" && Contains(Lower(q.clientName), term)) ||
    (q.quotationNo != "" && Contains(Lower(q.quotationNo), term))
  }

  /** The quotations `render` lists for the text in the search box. */
  function SearchQuotations(all: seq<Quotation>, search: string): (r: seq<Quotation>)
    ensures IsSubsequence(r, all)
    ensures forall q :: q in r <==> q in all && QuoteMatches(q, Lower(search))
  {
    Filter(all, (q: Quotation) => QuoteMatches(q, Lower(search)))
  }

  /** A quotation has been turned into an invoice. */
  predicate IsConverted(q: Quotation)
  {
    q.status == "converted"
  }

  /** The `href` of the Edit button. */
  function Href(l: EditLink): string
  {
    "/?mode=" + l.modeParam + "&id=" + l.id
  }

  /** One card for a user with role `role` ("" when none is stored). */
  function CardOf(q: Quotation, role: string): (c: QuoteCard)
    ensures c.badge == ConvertedBadge <==> IsConverted(q)
    ensures c.convert == InvoiceCreated <==> IsConverted(q)
    ensures c.deleteButton <==> role == "admin"
    ensures c.columns == (if role == "admin" then 2 else 1)
    ensures c.edit == EditLink("quotation", q.id)
    ensures c.client == (if q.clientName != "" then q.clientName else "Unknown")
  {
    var converted := IsConverted(q);
    QuoteCard(q.id, q.quotationNo,
              if q.clientName != "" then q.clientName else "Unknown",
              if q.totalAmount.Some? && q.totalAmount.value != 0.0 then q.totalAmount.value else 0.0,
              q.currency,
              if converted then ConvertedBadge else DraftBadge,
              if converted then InvoiceCreated else ConvertAction,
              EditLink("quotation", q.id),
              role == "admin",
              if role == "admin" then 2 else 1)
  }

  /** `render()` for the text in the search box. */
  function Render(all: seq<Quotation>, search: string, role: string): (g: QuoteGrid)
    ensures g == NoQuotations <==> |SearchQuotations(all, search)| == 0
    ensures g.QuoteCards? ==> |g.cards| == |SearchQuotations(all, search)|
    ensures g.QuoteCards? ==> forall i :: 0 <= i < |g.cards| ==> g.cards[i] == CardOf(SearchQuotations(all, search)[i], role)
  {
    var found := SearchQuotations(all, search);
    if |found| == 0 then NoQuotations else QuoteCards(Map(found, (q: Quotation) => CardOf(q, role)))
  }

  /** A card offers conversion exactly when the quotation is not yet
      converted, and only an administrator sees Delete. */
  lemma CardButtons(all: seq<Quotation>, search: string, role: string, i: nat)
    requires Render(all, search, role).QuoteCards? && i < |Render(all, search, role).cards|
    ensures Render(all, search, role).cards[i].convert == ConvertAction <==> !IsConverted(SearchQuotations(all, search)[i])
    ensures Render(all, search, role).cards[i].deleteButton <==> role == "admin"
  {
  }

  /** The Edit link opens the editor in quotation mode on that quotation:
      the editor asks for the quotation itself and, once loaded, offers
      "Update Quotation". */
  lemma EditOpensQuotation(q: Quotation, role: string, h: InvoiceSession.Header,
                           response: Option<InvoiceSession.Payload>, next: Option<string>, numberLast: bool)
    requires q.id != "" && InvoiceSession.Loads(q.id, response)
    ensures InvoiceSession.LoadEndpoint(CardOf(q, role).edit.id, CardOf(q, role).edit.modeParam) ==
            "/api/quotations/" + q.id
    ensures InvoiceSession.AfterLoad(h, CardOf(q, role).edit.id, CardOf(q, role).edit.modeParam, response,
                                     next, numberLast).saveLabel ==
            Some("Update Quotation")
    ensures Href(CardOf(q, role).edit) == "/?mode=quotation&id=" + q.id
  {
    InvoiceSession.AfterLoadFacts(h, q.id, "quotation", response, next, numberLast);
  }

  /** The case of the search text does not matter and searching the
      results again changes nothing. */
  lemma SearchFacts(all: seq<Quotation>, search: string)
    ensures SearchQuotations(all, Lower(search)) == SearchQuotations(all, search)
    ensures SearchQuotations(SearchQuotations(all, search), search) == SearchQuotations(all, search)
  {
    LowerIdempotent(search);
    FilterIdempotent(all, (q: Quotation) => QuoteMatches(q, Lower(search)));
  }

  /** The quotations page's state: the quotations last loaded, whether
      `quotations` holds a parsed body that is not a list (then `all` is
      meaningless and every use of it throws), the search text, the
      stored role, the grid, the last toast and the page the browser is
      sent to. */
  class QuotationsPage {
    var all: seq<Quotation>
    var broken: bool
    var search: string
    var role: string
    var grid: QuoteGrid
    var toast: Toast
    var redirect: Option<string>

    constructor(role: string)
      ensures all == [] && !broken && search == "" && this.role == role
      ensures grid == NoQuotations && toast == NoToast && redirect == None
    {
      all := [];
      broken := false;
      search := "";
      this.role := role;
      grid := NoQuotations;
      toast := NoToast;
      redirect := None;
    }

    /** `loadQuotations` with what the request and `res.json()` gave. A
        body that is not a list is stored before `render` throws on it, so
        the failure message is shown and the page is left broken. */
    method Load(body: Loaded<Quotation>)
      modifies this
      ensures body.Threw? ==> all == old(all) && broken == old(broken) && grid == LoadFailed
      ensures body.NotAList? ==> all == old(all) && broken && grid == LoadFailed
      ensures body.Listed? ==> all == body.items && !broken && grid == Render(all, search, role)
      ensures search == old(search) && role == old(role) && toast == old(toast) && redirect == old(redirect)
    {
      match body
      case Threw =>
        grid := LoadFailed;
      case NotAList =>
        broken := true;
        grid := LoadFailed;
      case Listed(items) =>
        all := items;
        broken := false;
        grid := Render(all, search, role);
    }

    /** Typing into the search box; on a broken page `render` throws
        before touching the grid. */
    method TypeSearch(text: string)
      modifies this
      ensures search == text
      ensures !broken ==> grid == Render(all, text, role)
      ensures broken ==> grid == old(grid)
      ensures all == old(all) && broken == old(broken)
      ensures role == old(role) && toast == old(toast) && redirect == old(redirect)
    {
      search := text;
      if !broken {
        grid := Render(all, search, role);
      }
    }

    /** `convertToInvoice(id)` with the answer to the confirmation, the
        server's reply and the `error` field of a refusal's body (`None`
        when that body cannot be read, which lands in the catch; a body
        without the field reads as the text "undefined"). */
    method ConvertToInvoice(id: string, confirmed: bool, reply: Reply, error: Option<string>)
      returns (sent: Option<Call>)
      modifies this
      ensures sent == (if confirmed then Some(Call("/api/quotations/" + id + "/convert", Post)) else None)
      ensures !confirmed ==> toast == old(toast) && redirect == old(redirect)
      ensures confirmed && IsOk(reply) ==> toast == Toast("Converted Successfully!", Success) && redirect == Some("/history.html")
      ensures confirmed && !IsOk(reply) && !Throws(reply) && error.Some? ==>
        toast == Toast("Error: " + error.value, Error) && redirect == old(redirect)
      ensures confirmed && (Throws(reply) || (!IsOk(reply) && error.None?)) ==>
        toast == Toast("Conversion failed", Error) && redirect == old(redirect)
      ensures all == old(all) && broken == old(broken) && search == old(search) && role == old(role) && grid == old(grid)
    {
      if !confirmed {
        return None;
      }
      sent := Some(Call("/api/quotations/" + id + "/convert", Post));
      if Throws(reply) {
        toast := Toast("Conversion failed", Error);
      } else if IsOk(reply) {
        toast := Toast("Converted Successfully!", Success);
        redirect := Some("/history.html");
      } else if error.Some? {
        toast := Toast("Error: " + error.value, Error);
      } else {
        toast := Toast("Conversion failed", Error);
      }
    }

    /** `deleteQuotation(id)` with the answer to the confirmation, the
        server's reply and the body of the reload that follows. Only a
        thrown request counts as a failure. */
    method DeleteQuotation(id: string, confirmed: bool, reply: Reply, reloaded: Loaded<Quotation>)
      returns (sent: Option<Call>)
      modifies this
      ensures sent == (if confirmed then Some(Call("/api/quotations/" + id, Delete)) else None)
      ensures !confirmed || Throws(reply) ==> all == old(all) && broken == old(broken) && grid == old(grid)
      ensures !confirmed ==> toast == old(toast)
      ensures confirmed && Throws(reply) ==> toast == Toast("Delete failed", Error)
      ensures confirmed && !Throws(reply) ==> toast == Toast("Quotation deleted", Warning)
      ensures confirmed && !Throws(reply) && reloaded.Listed? ==>
        all == reloaded.items && !broken && grid == Render(all, search, role)
      ensures confirmed && !Throws(reply) && reloaded.Threw? ==>
        all == old(all) && broken == old(broken) && grid == LoadFailed
      ensures confirmed && !Throws(reply) && reloaded.NotAList? ==> all == old(all) && broken && grid == LoadFailed
      ensures search == old(search) && role == old(role) && redirect == old(redirect)
    {
      if !confirmed {
        return None;
      }
      sent := Some(Call("/api/quotations/" + id, Delete));
      if Throws(reply) {
        toast := Toast("Delete failed", Error);
        return;
      }
      toast := Toast("Quotation deleted", Warning);
      Load(reloaded);
    }
  }
}
