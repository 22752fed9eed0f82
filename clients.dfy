/** The client book page (`clients.js`): the list of clients with its
    live search, the add/edit modal and the Delete button. */
module Clients {
  import opened Wrappers
  import opened Text
  import opened Seqs
  import opened Api
  import opened Ui

  /** One stored client; a field the record lacks is "". */
  datatype Client = Client(id: string, name: string, phone: string, email: string, address: string)

  /** The inputs of the modal's form: `cId`, `cName`, `cPhone`, `cEmail`
      and `cAddress`. */
  datatype Form = Form(id: string, name: string, phone: string, email: string, address: string)

  /** The body of the save request. */
  datatype ClientData = ClientData(name: string, phone: string, email: string, address: string)

  /** What one card of the list shows; the e-mail and address lines only
      appear when the client has them. */
  datatype ClientCard = ClientCard(id: string, initial: string, name: string, phone: string,
                                   email: Option<string>, address: Option<string>)

  /** The content of `#clientList`. */
  datatype ClientList = LoadFailed | NoClients | ClientCards(cards: seq<ClientCard>)

  const EmptyForm := Form("", "", "", "", "")

  /** The search filter with an already lower-cased term: the lower-cased
      name contains it, or the phone, as typed, contains it. */
  predicate ClientMatches(c: Client, term: string)
  {
    Contains(Lower(c.name), term) || (c.phone != "" && Contains(c.phone, term))
  }

  /** The clients `renderClients` lists for the text in the search box. */
  function SearchClients(clients: seq<Client>, search: string): (r: seq<Client>)
    ensures IsSubsequence(r, clients)
    ensures forall c :: c in r <==> c in clients && ClientMatches(c, Lower(search))
  {
    Filter(clients, (c: Client) => ClientMatches(c, Lower(search)))
  }

  /** ASCII upper-casing of one character. */
  function UpperChar(ch: char): char
  {
    if 'a' <= ch <= 'z' then (ch as int - 32) as char else ch
  }

  /** One card: the upper-cased first letter of the name, the phone or
      "-". */
  function CardOf(c: Client): (card: ClientCard)
    ensures card.id == c.id && card.name == c.name
    ensures |card.initial| == (if c.name == "" then 0 else 1)
    ensures c.name != "" ==> LowerChar(card.initial[0]) == LowerChar(c.name[0])
    ensures c.name != "" ==> !('a' <= card.initial[0] <= 'z')
    ensures card.phone == (if c.phone != "" then c.phone else "-")
    ensures card.email.Some? <==> c.email != ""
    ensures card.address.Some? <==> c.address != ""
  {
    ClientCard(c.id, if c.name == "" then "" else [UpperChar(c.name[0])], c.name,
               if c.phone != "" then c.phone else "-",
               if c.email != "" then Some(c.email) else None,
               if c.address != "" then Some(c.address) else None)
  }

  /** `renderClients` for the text in the search box. */
  function RenderClients(clients: seq<Client>, search: string): (l: ClientList)
    ensures l == NoClients <==> |SearchClients(clients, search)| == 0
    ensures l.ClientCards? ==> l.cards == Map(SearchClients(clients, search), CardOf)
  {
    var found := SearchClients(clients, search);
    if |found| == 0 then NoClients else ClientCards(Map(found, CardOf))
  }

  /** `saveClient`: a PUT to the client's own URL when the form carries an
      id, a POST to the collection otherwise; the body is the form's four
      text fields. */
  function SaveCall(f: Form): (r: (Call, ClientData))
    ensures r.0.verb == Put <==> f.id != ""
    ensures r.0.verb == Post <==> f.id == ""
    ensures r.0.endpoint == (if f.id != "" then "/api/clients/" + f.id else "/api/clients")
    ensures r.1 == ClientData(f.name, f.phone, f.email, f.address)
  {
    (if f.id != "" then Call("/api/clients/" + f.id, Put) else Call("/api/clients", Post),
     ClientData(f.name, f.phone, f.email, f.address))
  }

  /** The first client with that id, as `Array.prototype.find`. */
  function Find(clients: seq<Client>, id: string): (r: Option<Client>)
    ensures r.Some? <==> exists i :: 0 <= i < |clients| && clients[i].id == id
    ensures r.Some? ==> r.value in clients && r.value.id == id
    ensures r.Some? ==> exists i :: 0 <= i < |clients| && clients[i] == r.value && FirstIdAt(clients, id, i)
    decreases |clients|
  {
    if clients == [] then None
    else if clients[0].id == id then Some(clients[0])
    else
      var r := Find(clients[1..], id);
      assert forall i :: 1 <= i < |clients| ==> clients[i] == clients[1..][i - 1];
      if r.Some? then
        var i :| 0 <= i < |clients[1..]| && clients[1..][i] == r.value && FirstIdAt(clients[1..], id, i);
        assert clients[i + 1] == r.value && FirstIdAt(clients, id, i + 1);
        r
      else
        r
  }

  /** No client before position `i` has that id. */
  predicate FirstIdAt(clients: seq<Client>, id: string, i: int)
    requires 0 <= i <= |clients|
  {
    forall j :: 0 <= j < i ==> clients[j].id != id
  }

  /** `openModal(id)`: the id input is cleared first; with no id the form
      is reset; with the id of a listed client every input takes the
      client's value; with an unknown id the other inputs keep what they
      held. */
  function OpenedForm(f: Form, clients: seq<Client>, id: string): (g: Form)
    ensures id == "" ==> g == EmptyForm
    ensures id != "" && Find(clients, id).None? ==> g == f.(id := "")
    ensures id != "" && Find(clients, id).Some? ==>
      var c := Find(clients, id).value;
      g == Form(id, c.name, c.phone, c.email, c.address)
  {
    if id == "" then EmptyForm
    else match Find(clients, id)
      case None => f.(id := "")
      case Some(c) => Form(c.id, c.name, c.phone, c.email, c.address)
  }

  /** Editing a client and saving sends that client's current fields back
      to that client's own URL. */
  lemma EditSavesBack(f: Form, clients: seq<Client>, c: Client)
    requires c.id != "" && Find(clients, c.id) == Some(c)
    ensures SaveCall(OpenedForm(f, clients, c.id)) ==
            (Call("/api/clients/" + c.id, Put), ClientData(c.name, c.phone, c.email, c.address))
  {
  }

  /** A fresh form always creates a new client. */
  lemma NewClientPosts(f: Form, clients: seq<Client>)
    ensures SaveCall(OpenedForm(f, clients, "")).0 == Call("/api/clients", Post)
  {
  }

  /** An edit button whose client has vanished from the list still
      clears the id, so saving creates a new client. */
  lemma UnknownIdPosts(f: Form, clients: seq<Client>, id: string)
    requires id != "" && forall i :: 0 <= i < |clients| ==> clients[i].id != id
    ensures SaveCall(OpenedForm(f, clients, id)).0 == Call("/api/clients", Post)
  {
  }

  /** The case of the search text does not matter, and the empty search
      lists everyone. */
  lemma SearchFacts(clients: seq<Client>, search: string)
    ensures SearchClients(clients, Lower(search)) == SearchClients(clients, search)
    ensures SearchClients(clients, "") == clients
  {
    LowerIdempotent(search);
    forall i | 0 <= i < |clients|
      ensures ClientMatches(clients[i], Lower(""))
    {
      ContainsEmpty(Lower(clients[i].name));
    }
    FilterKeepsAll(clients, (c: Client) => ClientMatches(c, Lower("")));
  }

  /** A client found by its lower-cased name is found by the name's
      upper-case spelling too. */
  lemma NameSearchIgnoresCase(clients: seq<Client>, c: Client, search: string)
    requires c in clients && Contains(Lower(c.name), Lower(search))
    ensures c in SearchClients(clients, search)
  {
  }

  /** The client book page's state: the clients last loaded, whether
      `clients` holds a parsed body that is not a list (then `clients` is
      meaningless and every use of it throws), the search text, the list,
      the modal and its form, and the last toast. */
  class ClientsPage {
    var clients: seq<Client>
    var broken: bool
    var search: string
    var list: ClientList
    var modalOpen: bool
    var form: Form
    var toast: Toast

    constructor()
      ensures clients == [] && !broken && search == "" && list == NoClients
      ensures !modalOpen && form == EmptyForm && toast == NoToast
    {
      clients := [];
      broken := false;
      search := "";
      list := NoClients;
      modalOpen := false;
      form := EmptyForm;
      toast := NoToast;
    }

    /** `loadClients` with what the request and `res.json()` gave. A body
        that is not a list is stored before `renderClients` throws on it,
        so the failure message is shown and the page is left broken. */
    method LoadClients(body: Loaded<Client>)
      modifies this
      ensures body.Threw? ==> clients == old(clients) && broken == old(broken) && list == LoadFailed
      ensures body.NotAList? ==> clients == old(clients) && broken && list == LoadFailed
      ensures body.Listed? ==> clients == body.items && !broken && list == RenderClients(clients, search)
      ensures search == old(search) && modalOpen == old(modalOpen) && form == old(form) && toast == old(toast)
    {
      match body
      case Threw =>
        list := LoadFailed;
      case NotAList =>
        broken := true;
        list := LoadFailed;
      case Listed(items) =>
        clients := items;
        broken := false;
        list := RenderClients(clients, search);
    }

    /** Typing into the search box; on a broken page `renderClients`
        throws before touching the list. */
    method TypeSearch(text: string)
      modifies this
      ensures search == text
      ensures !broken ==> list == RenderClients(clients, text)
      ensures broken ==> list == old(list)
      ensures clients == old(clients) && broken == old(broken)
      ensures modalOpen == old(modalOpen) && form == old(form) && toast == old(toast)
    {
      search := text;
      if !broken {
        list := RenderClients(clients, search);
      }
    }

    /** `openModal(id)`, with "" for no id. On a broken page the lookup
        throws after the id input was cleared, as for an unknown id. */
    method OpenModal(id: string)
      modifies this
      ensures modalOpen && form == OpenedForm(old(form), if broken then [] else clients, id)
      ensures clients == old(clients) && broken == old(broken)
      ensures search == old(search) && list == old(list) && toast == old(toast)
    {
      modalOpen := true;
      form := form.(id := "");
      if id == "" {
        form := EmptyForm;
      } else if !broken {
        var found := Find(clients, id);
        if found.Some? {
          var c := found.value;
          form := Form(c.id, c.name, c.phone, c.email, c.address);
        }
      }
    }

    /** `closeModal`. */
    method CloseModal()
      modifies this
      ensures !modalOpen
      ensures clients == old(clients) && broken == old(broken) && search == old(search) && list == old(list)
      ensures form == old(form) && toast == old(toast)
    {
      modalOpen := false;
    }

    /** `saveClient` with the server's reply and the body of the reload
        that follows a successful save. */
    method SaveClient(reply: Reply, reloaded: Loaded<Client>) returns (sent: (Call, ClientData))
      modifies this
      ensures sent == SaveCall(old(form))
      ensures Throws(reply) ==> toast == Toast("Error saving client", Error)
      ensures !Throws(reply) && !IsOk(reply) ==> toast == Toast("Failed to save client", Error)
      ensures IsOk(reply) ==> toast == Toast("Client saved successfully", Success) && !modalOpen
      ensures IsOk(reply) && reloaded.Listed? ==>
        clients == reloaded.items && !broken && list == RenderClients(clients, search)
      ensures IsOk(reply) && reloaded.Threw? ==> clients == old(clients) && broken == old(broken) && list == LoadFailed
      ensures IsOk(reply) && reloaded.NotAList? ==> clients == old(clients) && broken && list == LoadFailed
      ensures !IsOk(reply) ==>
        clients == old(clients) && broken == old(broken) && list == old(list) && modalOpen == old(modalOpen)
      ensures form == old(form) && search == old(search)
    {
      sent := SaveCall(form);
      if Throws(reply) {
        toast := Toast("Error saving client", Error);
      } else if IsOk(reply) {
        CloseModal();
        LoadClients(reloaded);
        toast := Toast("Client saved successfully", Success);
      } else {
        toast := Toast("Failed to save client", Error);
      }
    }

    /** `deleteClient(id)` with the answer to the confirmation, the
        server's reply and the body of the reload that follows. Only a
        thrown request counts as a failure. */
    method DeleteClient(id: string, confirmed: bool, reply: Reply, reloaded: Loaded<Client>)
      returns (sent: Option<Call>)
      modifies this
      ensures sent == (if confirmed then Some(Call("/api/clients/" + id, Delete)) else None)
      ensures !confirmed || Throws(reply) ==> clients == old(clients) && broken == old(broken) && list == old(list)
      ensures !confirmed ==> toast == old(toast)
      ensures confirmed && Throws(reply) ==> toast == Toast("Delete failed", Error)
      ensures confirmed && !Throws(reply) ==> toast == Toast("Client deleted", Warning)
      ensures confirmed && !Throws(reply) && reloaded.Listed? ==>
        clients == reloaded.items && !broken && list == RenderClients(clients, search)
      ensures confirmed && !Throws(reply) && reloaded.Threw? ==>
        clients == old(clients) && broken == old(broken) && list == LoadFailed
      ensures confirmed && !Throws(reply) && reloaded.NotAList? ==> clients == old(clients) && broken && list == LoadFailed
      ensures form == old(form) && search == old(search) && modalOpen == old(modalOpen)
    {
      if !confirmed {
        return None;
      }
      sent := Some(Call("/api/clients/" + id, Delete));
      if Throws(reply) {
        toast := Toast("Delete failed", Error);
        return;
      }
      LoadClients(reloaded);
      toast := Toast("Client deleted", Warning);
    }
  }
}
