/** The invoice archive page (`history.js`): the list of saved invoices,
    the live search over it, the status drop-down of each card and the
    Delete button. */
module History {
  import opened Wrappers
  import opened Text
  import opened Seqs
  import opened Api
  import opened Ui

  /** One saved invoice as the archive endpoint returns it; a text field
      the record lacks is "" and a missing total is `None`. */
  datatype InvoiceRecord = InvoiceRecord(id: string, invoiceNo: string, clientName: string,
                                         status: string, date: string,
                                         totalAmount: Option<real>, currency: string)

  /** The colour of a card's status drop-down. */
  datatype Tone = Emerald | Red | Amber

  /** What one card of the grid shows. */
  datatype Card = Card(id: string, invoiceNo: string, client: string, total: real,
                       currency: string, selected: string, tone: Tone)

  /** The content of `#grid`. */
  datatype Grid = LoadFailed | NoInvoices | Cards(cards: seq<Card>)

  /** The search filter with an already lower-cased term: the client name
      or the invoice number, when present, contains the term, ignoring
      case. */
  predicate Matches(inv: InvoiceRecord, term: string)
  {
    (inv.clientName != "" && Contains(Lower(inv.clientName), term)) ||
    (inv.invoiceNo != "" && Contains(Lower(inv.invoiceNo), term))
  }

  /** The `input` listener of `#search`: the records matching the
      lower-cased term, in archive order. */
  function SearchInvoices(all: seq<InvoiceRecord>, term: string): (r: seq<InvoiceRecord>)
    ensures IsSubsequence(r, all)
    ensures forall inv :: inv in r <==> inv in all && Matches(inv, Lower(term))
  {
    Filter(all, (inv: InvoiceRecord) => Matches(inv, Lower(term)))
  }

  /** `updateStatus` on success: the record with that id takes the new
      status, every other record and every other field stays. */
  function PatchStatus(all: seq<InvoiceRecord>, id: string, status: string): (r: seq<InvoiceRecord>)
    ensures |r| == |all|
    ensures forall i :: 0 <= i < |all| && all[i].id == id ==> r[i] == all[i].(status := status)
    ensures forall i :: 0 <= i < |all| && all[i].id != id ==> r[i] == all[i]
  {
    Map(all, SetStatusOf(id, status))
  }

  function SetStatusOf(id: string, status: string): InvoiceRecord -> InvoiceRecord
  {
    (inv: InvoiceRecord) => if inv.id == id then inv.(status := status) else inv
  }

  /** `deleteInvoice` on success: every record with that id leaves the
      archive, the others stay in order. */
  function RemoveId(all: seq<InvoiceRecord>, id: string): (r: seq<InvoiceRecord>)
    ensures IsSubsequence(r, all)
    ensures forall inv :: inv in r <==> inv in all && inv.id != id
  {
    Filter(all, OtherId(id))
  }

  function OtherId(id: string): InvoiceRecord -> bool
  {
    (inv: InvoiceRecord) => inv.id != id
  }

  /** The option of the status drop-down marked `selected`. */
  function SelectedOption(status: string): (option: string)
    ensures option in {"pending", "paid", "cancelled"}
    ensures option == "pending" <==> status != "paid" && status != "cancelled"
    ensures option != "pending" ==> option == status
  {
    if status == "paid" then "paid"
    else if status == "cancelled" then "cancelled"
    else "pending"
  }

  /** The colour of the drop-down. */
  function ToneOf(status: string): Tone
  {
    if status == "paid" then Emerald else if status == "cancelled" then Red else Amber
  }

  /** One card: the client name or "Unknown Client", the total or 0, the
      currency or nothing. */
  function CardOf(inv: InvoiceRecord): (c: Card)
    ensures c.id == inv.id && c.invoiceNo == inv.invoiceNo
    ensures c.client == "Unknown Client" <==> inv.clientName == "" || inv.clientName == "Unknown Client"
    ensures c.client != "Unknown Client" ==> c.client == inv.clientName
    ensures c.total == 0.0 <==> inv.totalAmount.None? || inv.totalAmount == Some(0.0)
  {
    Card(inv.id, inv.invoiceNo,
         if inv.clientName != "" then inv.clientName else "Unknown Client",
         if inv.totalAmount.Some? && inv.totalAmount.value != 0.0 then inv.totalAmount.value else 0.0,
         inv.currency, SelectedOption(inv.status), ToneOf(inv.status))
  }

  /** `render(list)`: the empty-state message for an empty list, one card
      per record otherwise. */
  function Render(list: seq<InvoiceRecord>): (g: Grid)
    ensures g == NoInvoices <==> |list| == 0
    ensures g.Cards? ==> |g.cards| == |list| && forall i :: 0 <= i < |list| ==> g.cards[i] == CardOf(list[i])
  {
    if |list| == 0 then NoInvoices else Cards(Map(list, CardOf))
  }

  /** Exactly one option of the drop-down is selected, its colour agrees
      with it, and every status the drop-down offers selects itself. */
  lemma OneOptionSelected(status: string)
    ensures status in {"pending", "paid", "cancelled"} ==> SelectedOption(status) == status
    ensures ToneOf(status) == ToneOf(SelectedOption(status))
    ensures SelectedOption(SelectedOption(status)) == SelectedOption(status)
  {
  }

  /** After a status change the changed card selects the new status. */
  lemma PatchedCardSelects(all: seq<InvoiceRecord>, id: string, status: string, i: nat)
    requires i < |all| && all[i].id == id
    requires status in {"pending", "paid", "cancelled"}
    ensures CardOf(PatchStatus(all, id, status)[i]).selected == status
  {
    OneOptionSelected(status);
  }

  /** The search does not look at the status, so changing a status and
      then searching gives the same list as searching and then changing
      the status. */
  lemma SearchAfterPatch(all: seq<InvoiceRecord>, id: string, status: string, term: string)
    ensures SearchInvoices(PatchStatus(all, id, status), term) ==
            PatchStatus(SearchInvoices(all, term), id, status)
  {
    var p := (inv: InvoiceRecord) => Matches(inv, Lower(term));
    FilterMapCommute(all, SetStatusOf(id, status), p);
  }

  /** Deleting and searching commute. */
  lemma SearchAfterRemove(all: seq<InvoiceRecord>, id: string, term: string)
    ensures SearchInvoices(RemoveId(all, id), term) == RemoveId(SearchInvoices(all, term), id)
  {
    FilterCommute(all, OtherId(id), (inv: InvoiceRecord) => Matches(inv, Lower(term)));
  }

  /** Deleting the same id twice removes nothing more. */
  lemma RemoveIdempotent(all: seq<InvoiceRecord>, id: string)
    ensures RemoveId(RemoveId(all, id), id) == RemoveId(all, id)
  {
    FilterIdempotent(all, OtherId(id));
  }

  /** Searching again with the results' own term changes nothing, and the
      term's case does not matter. */
  lemma SearchIdempotent(all: seq<InvoiceRecord>, term: string)
    ensures SearchInvoices(SearchInvoices(all, term), term) == SearchInvoices(all, term)
    ensures SearchInvoices(all, Lower(term)) == SearchInvoices(all, term)
  {
    FilterIdempotent(all, (inv: InvoiceRecord) => Matches(inv, Lower(term)));
    LowerIdempotent(term);
  }

  /** The record has a client name or an invoice number. */
  predicate Named(inv: InvoiceRecord)
  {
    inv.clientName != "" || inv.invoiceNo != ""
  }

  /** An empty search box keeps exactly the records that have a client
      name or an invoice number. */
  lemma EmptySearch(all: seq<InvoiceRecord>)
    ensures SearchInvoices(all, "") == Filter(all, Named)
  {
    forall inv: InvoiceRecord
      ensures Matches(inv, Lower("")) == (inv.clientName != "" || inv.invoiceNo != "")
    {
      ContainsEmpty(Lower(inv.clientName));
      ContainsEmpty(Lower(inv.invoiceNo));
    }
    FilterSamePredicate(all, (inv: InvoiceRecord) => Matches(inv, Lower("")), Named);
  }

  /** The archive page's state: the records last loaded (`allInvoices`),
      whether `allInvoices` holds a parsed body that is not a list (then
      `all` is meaningless and every use of `allInvoices` throws), the
      grid and the last toast. */
  class Archive {
    var all: seq<InvoiceRecord>
    var broken: bool
    var grid: Grid
    var toast: Toast

    constructor()
      ensures all == [] && !broken && grid == NoInvoices && toast == NoToast
    {
      all := [];
      broken := false;
      grid := NoInvoices;
      toast := NoToast;
    }

    /** `loadArchive` with what the request and `res.json()` gave. A body
        that is not a list is stored before `render` throws on it, so the
        failure message is shown and the page is left broken. */
    method Load(body: Loaded<InvoiceRecord>)
      modifies this
      ensures body.Threw? ==> all == old(all) && broken == old(broken) && grid == LoadFailed
      ensures body.NotAList? ==> all == old(all) && broken && grid == LoadFailed
      ensures body.Listed? ==> all == body.items && !broken && grid == Render(body.items)
      ensures toast == old(toast)
    {
      match body
      case Threw =>
        grid := LoadFailed;
      case NotAList =>
        broken := true;
        grid := LoadFailed;
      case Listed(items) =>
        all := items;
        broken := false;
        grid := Render(all);
    }

    /** Typing `term` into the search box; on a broken page the listener
        throws before touching the grid. */
    method Search(term: string)
      modifies this
      ensures !broken ==> grid == Render(SearchInvoices(all, term))
      ensures broken ==> grid == old(grid)
      ensures all == old(all) && broken == old(broken) && toast == old(toast)
    {
      if !broken {
        grid := Render(SearchInvoices(all, term));
      }
    }

    /** `updateStatus(id, status)` with the server's reply to the PUT
        request. Whatever the reply, unless `apiCall` threw, the record is
        patched locally and the whole archive is shown again, whatever was
        searched; on a broken page the patch throws into the same catch. */
    method UpdateStatus(id: string, status: string, reply: Reply) returns (sent: Call)
      modifies this
      ensures sent == Call("/api/invoices/" + id + "/status", Put)
      ensures Throws(reply) || broken ==> all == old(all) && grid == old(grid) && toast == Toast("Failed to update status", Error)
      ensures !Throws(reply) && !broken ==> all == PatchStatus(old(all), id, status) && grid == Render(all)
      ensures !Throws(reply) && !broken ==> toast == Toast("Status updated successfully", Success)
      ensures broken == old(broken)
    {
      sent := Call("/api/invoices/" + id + "/status", Put);
      if Throws(reply) || broken {
        toast := Toast("Failed to update status", Error);
        return;
      }
      all := PatchStatus(all, id, status);
      grid := Render(all);
      toast := Toast("Status updated successfully", Success);
    }

    /** `deleteInvoice(id)` with the answer to the confirmation and the
        server's reply to the DELETE request, which is sent only after a
        confirmation; on a broken page the removal throws into the catch. */
    method DeleteInvoice(id: string, confirmed: bool, reply: Reply) returns (sent: Option<Call>)
      modifies this
      ensures sent == (if confirmed then Some(Call("/api/invoices/" + id, Delete)) else None)
      ensures !confirmed ==> all == old(all) && grid == old(grid) && toast == old(toast)
      ensures confirmed && (Throws(reply) || broken) ==>
        all == old(all) && grid == old(grid) && toast == Toast("Delete failed", Error)
      ensures confirmed && !Throws(reply) && !broken ==> all == RemoveId(old(all), id) && grid == Render(all)
      ensures confirmed && !Throws(reply) && !broken ==> toast == Toast("Invoice deleted", Warning)
      ensures broken == old(broken)
    {
      if !confirmed {
        return None;
      }
      sent := Some(Call("/api/invoices/" + id, Delete));
      if Throws(reply) || broken {
        toast := Toast("Delete failed", Error);
        return;
      }
      all := RemoveId(all, id);
      grid := Render(all);
      toast := Toast("Invoice deleted", Warning);
    }
  }

  /** Deleting an invoice removes its card and keeps every other card:
      after a successful delete no card carries that id. */
  method DeleteLeavesNoCard(a: Archive, id: string)
    modifies a
    ensures !a.broken && a.grid.Cards? ==> forall i :: 0 <= i < |a.grid.cards| ==> a.grid.cards[i].id != id
    ensures forall inv :: inv in old(a.all) && inv.id != id ==> inv in a.all
  {
    var _ := a.DeleteInvoice(id, true, Status(200));
    if !a.broken && a.grid.Cards? {
      forall i | 0 <= i < |a.grid.cards|
        ensures a.grid.cards[i].id != id
      {
        assert a.all[i] in a.all;
      }
    }
  }
}
