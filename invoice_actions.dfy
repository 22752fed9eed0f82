/** The decisions the invoice editor takes on the values of its fields:
    how a typed phone number is normalised (`formatPhoneNumber`), which
    request a save or a delete sends (`saveManual`, `deleteCurrentInvoice`),
    how the WhatsApp message is addressed (`sendWhatsApp`) and which
    currency a scanned PDF suggests (`importPDF`). */
module InvoiceActions {
  import opened Wrappers
  import opened Text
  import opened Utils
  import Seqs
  import opened Api

  /** `currentMode`: the editor writes either an invoice (a purchase
      order) or a quotation. */
  datatype Mode = InvoiceMode | QuotationMode

  function Min(a: int, b: int): int
  {
    if a <= b then a else b
  }

  // ---------------------------------------------------------------------
  // formatPhoneNumber
  // ---------------------------------------------------------------------

  /** The characters `formatPhoneNumber` keeps: ASCII digits and '+'. */
  predicate PhoneChar(c: char)
  {
    IsDigit(c) || c == '+'
  }

  predicate AllPhoneChars(s: string)
  {
    forall i :: 0 <= i < |s| ==> PhoneChar(s[i])
  }

  /** `raw`: the typed value with every other character removed, and a
      '+' put in front when it does not start with one. */
  function Raw(value: string): string
  {
    var kept := Seqs.Filter(value, PhoneChar);
    if StartsWith(kept, "+") then kept else "+" + kept
  }

  /** `v`: `raw` with whitespace and then every non-phone character
      removed once more. */
  function Cleaned(value: string): string
  {
    Seqs.Filter(RemoveSpaces(Raw(value)), PhoneChar)
  }

  /** `s.substring(a, b)` for 0 <= a <= b: both ends are clamped to the
      length. */
  function Substring(s: string, a: nat, b: nat): (r: string)
    requires a <= b
    ensures |r| <= b - a
  {
    s[Min(a, |s|)..Min(b, |s|)]
  }

  /** The groups of an Egyptian number: "+20", then up to three, three
      and four further characters. */
  function PhoneGroups(v: string): (parts: seq<string>)
    requires StartsWith(v, "+20")
    ensures 1 <= |parts| <= 4
  {
    [v[..3]]
    + (if |v| > 3 then [Substring(v, 3, 6)] else [])
    + (if |v| > 6 then [Substring(v, 6, 9)] else [])
    + (if |v| > 9 then [Substring(v, 9, 13)] else [])
  }

  /** `parts.join(" ")`. */
  function JoinSpaced(parts: seq<string>): string
  {
    if |parts| == 0 then ""
    else if |parts| == 1 then parts[0]
    else parts[0] + " " + JoinSpaced(parts[1..])
  }

  /** `parts.join("")`. */
  function Concat(parts: seq<string>): string
  {
    if parts == [] then "" else parts[0] + Concat(parts[1..])
  }

  /** The value of the phone field after `formatPhoneNumber`: an Egyptian
      number ("+20...") is rewritten in groups, any other value is left
      exactly as typed. */
  function FormatPhone(value: string): string
  {
    var v := Cleaned(value);
    if StartsWith(v, "+20") then JoinSpaced(PhoneGroups(v)) else value
  }

  /** The second clean-up of `formatPhoneNumber` removes nothing: `raw`
      is already made of digits and '+', and starts with '+'. */
  lemma CleanedIsRaw(value: string)
    ensures Cleaned(value) == Raw(value)
    ensures AllPhoneChars(Raw(value)) && StartsWith(Raw(value), "+")
  {
    var kept := Seqs.Filter(value, PhoneChar);
    var raw := Raw(value);
    assert AllPhoneChars(raw) by {
      if !StartsWith(kept, "+") {
        forall i | 0 <= i < |raw| ensures PhoneChar(raw[i]) {
          if i > 0 { assert raw[i] == kept[i - 1]; }
        }
      }
    }
    Seqs.FilterKeepsAll(raw, NotSpace);
    Seqs.FilterKeepsAll(raw, PhoneChar);
  }

  /** Dropping the characters a filter refuses from a space-joined list of
      groups it accepts leaves the groups run together. */
  lemma {:induction false} JoinedGroupsFiltered(parts: seq<string>, p: char -> bool)
    requires !p(' ')
    requires forall i, j :: 0 <= i < |parts| && 0 <= j < |parts[i]| ==> p(parts[i][j])
    ensures Seqs.Filter(JoinSpaced(parts), p) == Concat(parts)
    decreases |parts|
  {
    if |parts| == 0 {
    } else {
      var first := parts[0];
      assert forall j :: 0 <= j < |first| ==> p(first[j]);
      Seqs.FilterKeepsAll(first, p);
      assert Concat(parts) == first + Concat(parts[1..]);
      if |parts| == 1 {
        assert first + "" == first;
      } else {
        assert JoinSpaced(parts) == first + " " + JoinSpaced(parts[1..]);
        JoinedGroupsFiltered(parts[1..], p);
        FilterSpacedStep(first, JoinSpaced(parts[1..]), p);
      }
    }
  }

  /** One step of the above: a group the filter keeps whole, a dropped
      space, and the rest filtered. */
  lemma FilterSpacedStep(first: string, rest: string, p: char -> bool)
    requires !p(' ') && Seqs.Filter(first, p) == first
    ensures Seqs.Filter(first + " " + rest, p) == first + Seqs.Filter(rest, p)
  {
    Seqs.FilterAppend(first + " ", rest, p);
    Seqs.FilterAppend(first, " ", p);
    assert Seqs.Filter(" ", p) == [];
    assert first + [] == first;
  }

  lemma ConcatUpToFour(a: string, b: string, c: string, d: string)
    ensures Concat([a]) == a
    ensures Concat([a, b]) == a + b
    ensures Concat([a, b, c]) == a + b + c
    ensures Concat([a, b, c, d]) == a + b + c + d
  {
    assert [a, b, c, d][1..] == [b, c, d];
    assert [a, b, c][1..] == [b, c];
    assert [b, c, d][1..] == [c, d];
    assert [a, b][1..] == [b];
    assert [c, d][1..] == [d];
    assert Concat([d]) == d + "" == d;
    assert Concat([c]) == c + "" == c;
    assert Concat([b]) == b + "" == b;
    assert Concat([a]) == a + "" == a;
    assert Concat([c, d]) == c + d;
    assert Concat([b, c, d]) == b + (c + d);
    assert Concat([b, c]) == b + c;
    assert Concat([a, b, c]) == a + (b + c);
    assert Concat([a, b, c, d]) == a + (b + (c + d));
  }

  /** The groups run together are the number cut after its 13th
      character. */
  lemma GroupsConcat(v: string)
    requires StartsWith(v, "+20")
    ensures Concat(PhoneGroups(v)) == v[..Min(13, |v|)]
  {
    var parts := PhoneGroups(v);
    var k := Min(13, |v|);
    if |v| <= 3 {
      assert parts == [v[..3]];
      ConcatUpToFour(v[..3], "", "", "");
    } else if |v| <= 6 {
      assert parts == [v[..3], v[3..k]];
      ConcatUpToFour(v[..3], v[3..k], "", "");
      assert v[..3] + v[3..k] == v[..k];
    } else if |v| <= 9 {
      assert parts == [v[..3], v[3..6], v[6..k]];
      ConcatUpToFour(v[..3], v[3..6], v[6..k], "");
      assert v[..3] + v[3..6] + v[6..k] == v[..k];
    } else {
      assert parts == [v[..3], v[3..6], v[6..9], v[9..k]];
      ConcatUpToFour(v[..3], v[3..6], v[6..9], v[9..k]);
      assert v[..3] + v[3..6] + v[6..9] + v[9..k] == v[..k];
    }
  }

  /** Cutting the number after its 13th character does not change its
      groups. */
  lemma GroupsOfCut(v: string)
    requires StartsWith(v, "+20")
    ensures StartsWith(v[..Min(13, |v|)], "+20")
    ensures PhoneGroups(v[..Min(13, |v|)]) == PhoneGroups(v)
  {
    var w := v[..Min(13, |v|)];
    assert w[..3] == v[..3];
    assert Substring(w, 3, 6) == Substring(v, 3, 6);
    assert Substring(w, 6, 9) == Substring(v, 6, 9);
    assert Substring(w, 9, 13) == Substring(v, 9, 13);
  }

  /** Every character of every group is a phone character. */
  lemma GroupsArePhoneChars(v: string)
    requires StartsWith(v, "+20") && AllPhoneChars(v)
    ensures forall i, j :: 0 <= i < |PhoneGroups(v)| && 0 <= j < |PhoneGroups(v)[i]| ==> PhoneChar(PhoneGroups(v)[i][j])
  {
    var parts := PhoneGroups(v);
    forall i, j | 0 <= i < |parts| && 0 <= j < |parts[i]| ensures PhoneChar(parts[i][j]) {
      assert parts[i] == v[..3] || parts[i] == Substring(v, 3, 6) || parts[i] == Substring(v, 6, 9) || parts[i] == Substring(v, 9, 13);
      assert parts[i][j] in v;
    }
  }

  /** A formatted Egyptian number, with its spaces (or all its non-phone
      characters) removed, is the cleaned number cut after 13 characters:
      the grouping adds nothing but spaces and drops only the tail. */
  lemma FormattedDigits(value: string)
    requires StartsWith(Cleaned(value), "+20")
    ensures RemoveSpaces(FormatPhone(value)) == Cleaned(value)[..Min(13, |Cleaned(value)|)]
    ensures Seqs.Filter(FormatPhone(value), PhoneChar) == Cleaned(value)[..Min(13, |Cleaned(value)|)]
  {
    var v := Cleaned(value);
    CleanedIsRaw(value);
    GroupsArePhoneChars(v);
    GroupsConcat(v);
    var parts := PhoneGroups(v);
    forall i, j | 0 <= i < |parts| && 0 <= j < |parts[i]| ensures NotSpace(parts[i][j]) {
      assert PhoneChar(parts[i][j]);
    }
    JoinedGroupsFiltered(parts, NotSpace);
    JoinedGroupsFiltered(parts, PhoneChar);
  }

  /** What `formatPhoneNumber` promises: an Egyptian number becomes at
      most four space-separated groups of at most 3, 3, 3 and 4
      characters, starting with "+20"; any other value is untouched. */
  lemma FormatPhoneShape(value: string)
    ensures !StartsWith(Cleaned(value), "+20") ==> FormatPhone(value) == value
    ensures StartsWith(Cleaned(value), "+20") ==>
      var parts := PhoneGroups(Cleaned(value));
      FormatPhone(value) == JoinSpaced(parts) && parts[0] == "+20" &&
      forall i :: 1 <= i < |parts| ==> 1 <= |parts[i]| <= (if i == 3 then 4 else 3)
  {
    var v := Cleaned(value);
    if StartsWith(v, "+20") {
      GroupSizes(v);
    }
  }

  lemma GroupSizes(v: string)
    requires StartsWith(v, "+20")
    ensures PhoneGroups(v)[0] == "+20"
    ensures forall i :: 1 <= i < |PhoneGroups(v)| ==> 1 <= |PhoneGroups(v)[i]| <= (if i == 3 then 4 else 3)
  {
    var parts := PhoneGroups(v);
    var k := Min(13, |v|);
    if |v| <= 3 {
      assert parts == [v[..3]];
    } else if |v| <= 6 {
      assert parts == [v[..3], v[3..k]];
    } else if |v| <= 9 {
      assert parts == [v[..3], v[3..6], v[6..k]];
    } else {
      assert parts == [v[..3], v[3..6], v[6..9], v[9..k]];
    }
  }

  /** Formatting a formatted number changes nothing, so the listener that
      fires on every keystroke is stable. */
  lemma FormatPhoneIdempotent(value: string)
    ensures FormatPhone(FormatPhone(value)) == FormatPhone(value)
  {
    var v := Cleaned(value);
    if StartsWith(v, "+20") {
      var r := FormatPhone(value);
      var w := v[..Min(13, |v|)];
      FormattedDigits(value);
      GroupsOfCut(v);
      RecleanFormatted(r, w);
    }
  }

  /** Cleaning a formatted number gives back the digits it shows. */
  lemma RecleanFormatted(r: string, w: string)
    requires Seqs.Filter(r, PhoneChar) == w && StartsWith(w, "+20")
    ensures Cleaned(r) == w
  {
    assert w[..1] == w[..3][..1] == "+";
    CleanedIsRaw(r);
  }

  // ---------------------------------------------------------------------
  // saveManual and deleteCurrentInvoice
  // ---------------------------------------------------------------------

  /** What pressing Save does: a warning and no request, or a request
      that carries the document number under `numberKey` and the status. */
  datatype SaveDecision = SaveWarning(message: string) | SaveCall(call: Call, numberKey: string, status: string)

  /** How a request ends: an ok response, a response that is not ok
      (with the server's message), or a thrown error (with its message). */
  datatype Outcome = Ok | Refused(message: string) | Threw(message: string)

  /** The collection a document of this mode lives in. */
  function Collection(mode: Mode): string
  {
    if mode == QuotationMode then "/api/quotations" else "/api/invoices"
  }

  /** `saveManual` with the `id` query parameter `id` ("" when absent). */
  function SaveRequest(mode: Mode, id: string, clientName: string): (d: SaveDecision)
    ensures d.SaveWarning? <==> clientName == ""
    ensures d.SaveWarning? ==> d.message == "Please enter Client Name"
    ensures d.SaveCall? ==> d.status == "pending"
    ensures d.SaveCall? ==> (d.call.verb == Put <==> id != "") && (d.call.verb == Post <==> id == "")
    ensures d.SaveCall? && id == "" ==> d.call.endpoint == Collection(mode)
    ensures d.SaveCall? && id != "" ==> d.call.endpoint == Collection(mode) + "/" + id
    ensures d.SaveCall? ==> (d.numberKey == "quotationNo" <==> mode == QuotationMode)
  {
    if clientName == "" then SaveWarning("Please enter Client Name")
    else
      var key := if mode == QuotationMode then "quotationNo" else "invoiceNo";
      if id != "" then SaveCall(Call(Collection(mode) + "/" + id, Put), key, "pending")
      else SaveCall(Call(Collection(mode), Post), key, "pending")
  }

  /** The message shown once a save request has ended. */
  function SaveReport(mode: Mode, id: string, outcome: Outcome): (msg: string)
    ensures outcome.Refused? ==> msg == "Error: " + outcome.message
    ensures outcome.Threw? ==> msg == "Save failed: " + outcome.message
  {
    match outcome
    case Ok =>
      (if mode == QuotationMode then "Quotation" else "Invoice") + " " +
      (if id != "" then "Updated" else "Saved") + " Successfully!"
    case Refused(m) => "Error: " + m
    case Threw(m) => "Save failed: " + m
  }

  /** A successful first save names the kind of document and says it
      was saved. */
  lemma SaveReportCreated(mode: Mode)
    ensures mode == InvoiceMode ==> SaveReport(mode, "", Ok) == "Invoice Saved Successfully!"
    ensures mode == QuotationMode ==> SaveReport(mode, "", Ok) == "Quotation Saved Successfully!"
  {
  }

  /** A successful save of an opened document names the kind of document
      and says it was updated. */
  lemma SaveReportUpdated(mode: Mode, id: string)
    requires id != ""
    ensures mode == InvoiceMode ==> SaveReport(mode, id, Ok) == "Invoice Updated Successfully!"
    ensures mode == QuotationMode ==> SaveReport(mode, id, Ok) == "Quotation Updated Successfully!"
  {
  }

  /** What pressing Delete does. */
  datatype DeleteDecision = NothingSelected | Declined | DeleteCall(call: Call)

  /** `deleteCurrentInvoice` with the `id` and `mode` query parameters
      and the answer to the confirmation. */
  function DeleteRequest(id: string, modeParam: string, mode: Mode, confirmed: bool): (d: DeleteDecision)
    ensures d.NothingSelected? <==> id == ""
    ensures d.Declined? <==> id != "" && !confirmed
    ensures d.DeleteCall? ==> d.call.verb == Delete
    ensures d.DeleteCall? && (modeParam == "quotation" || mode == QuotationMode) ==>
      d.call.endpoint == "/api/quotations/" + id
    ensures d.DeleteCall? && modeParam != "quotation" && mode != QuotationMode ==>
      d.call.endpoint == "/api/invoices/" + id
  {
    if id == "" then NothingSelected
    else if !confirmed then Declined
    else
      var collection := if modeParam == "quotation" || mode == QuotationMode then "/api/quotations" else "/api/invoices";
      DeleteCall(Call(collection + "/" + id, Delete))
  }

  /** The document a save of an opened document updates is the one a
      delete removes: both address the same collection and id. */
  lemma SaveAndDeleteAgree(mode: Mode, id: string, modeParam: string, clientName: string)
    requires id != "" && clientName != ""
    requires modeParam == "quotation" ==> mode == QuotationMode
    ensures SaveRequest(mode, id, clientName).call.endpoint == DeleteRequest(id, modeParam, mode, true).call.endpoint
  {
  }

  // ---------------------------------------------------------------------
  // sendWhatsApp
  // ---------------------------------------------------------------------

  /** `s.replace(c, '')` with a one-character string pattern: only the
      first occurrence goes. */
  function RemoveFirst(s: string, c: char): (r: string)
    ensures c !in s ==> r == s
    ensures |s| > 0 && s[0] == c ==> r == s[1..]
  {
    if s == [] then []
    else if s[0] == c then s[1..]
    else [s[0]] + RemoveFirst(s[1..], c)
  }

  /** `s[k]` is the first occurrence of `c` in `s`. */
  predicate FirstOccurrence(s: string, c: char, k: int)
  {
    0 <= k < |s| && s[k] == c && c !in s[..k]
  }

  /** When the text holds the character, exactly its first occurrence is
      cut out and everything before and after it stays. */
  lemma {:induction false} RemoveFirstOccurrence(s: string, c: char)
    requires c in s
    ensures exists k :: FirstOccurrence(s, c, k) && RemoveFirst(s, c) == s[..k] + s[k+1..]
    decreases |s|
  {
    if s[0] == c {
      assert FirstOccurrence(s, c, 0) && s[..0] + s[1..] == s[1..];
    } else {
      RemoveFirstOccurrence(s[1..], c);
      var k :| FirstOccurrence(s[1..], c, k) && RemoveFirst(s[1..], c) == s[1..][..k] + s[1..][k+1..];
      assert s[..k+1] == [s[0]] + s[1..][..k];
      assert s[k+2..] == s[1..][k+1..];
      assert FirstOccurrence(s, c, k + 1);
    }
  }

  /** The text of the first row's service, description and duration
      inputs. */
  datatype RowText = RowText(service: string, desc: string, duration: string)

  /** The fields of the WhatsApp message and the number it is addressed
      to (`None`: the chat picker opens without a number). */
  datatype WhatsAppMessage = WhatsAppMessage(client: string, number: string, date: string,
                                             service: string, duration: string, desc: string,
                                             to: Option<string>)

  /** The phone as `sendWhatsApp` sends it: whitespace removed, then the
      first '+' removed. */
  function DialledPhone(phoneValue: string): string
  {
    RemoveFirst(RemoveSpaces(phoneValue), '+')
  }

  /** `sendWhatsApp`: defaults for a missing client, number and service,
      the date as `formatDate` shows it, the duration in parentheses, and
      the number only when it has at least ten characters. */
  function WhatsApp(clientName: string, invoiceNo: string, dateVal: string,
                    firstRow: Option<RowText>, phoneValue: string): (m: WhatsAppMessage)
    ensures m.to.Some? <==> |DialledPhone(phoneValue)| >= 10
    ensures m.to.Some? ==> m.to.value == DialledPhone(phoneValue)
    ensures m.client != "" && m.number != "" && m.service != ""
    ensures m.date == FormatDate(dateVal)
  {
    var phone := DialledPhone(phoneValue);
    var row := firstRow.GetOr(RowText("", "", ""));
    WhatsAppMessage(
      if clientName != "" then clientName else "Valued Client",
      if invoiceNo != "" then invoiceNo else "PO-XXXXXX",
      if dateVal != "" then Part(Split(dateVal, '-'), 2) + "/" + Part(Split(dateVal, '-'), 1) + "/" + Part(Split(dateVal, '-'), 0) else dateVal,
      if row.service != "" then row.service else "Service",
      if row.duration != "" then "(" + row.duration + ")" else "",
      row.desc,
      if phone != "" && |phone| >= 10 then Some(phone) else None)
  }

  /** A number the phone listener has formatted as Egyptian is dialled as
      its digits: the spaces and the leading '+' are gone, and only the
      digits the grouping kept remain. */
  lemma FormattedPhoneDialled(value: string)
    requires StartsWith(Cleaned(value), "+20")
    ensures DialledPhone(FormatPhone(value)) == Cleaned(value)[1..Min(13, |Cleaned(value)|)]
  {
    FormattedDigits(value);
  }

  // ---------------------------------------------------------------------
  // importPDF: the currency
  // ---------------------------------------------------------------------

  /** The text names one of the three currencies the scan recognises. */
  predicate HasCurrencyMarker(text: string)
  {
    DollarMarker(text) || EuroMarker(text) || PoundMarker(text)
  }

  /** A dollar sign, or "usd" in any case. */
  predicate DollarMarker(text: string)
  {
    Contains(text, "$") || Contains(Lower(text), "usd")
  }

  /** A euro sign, or "eur" in any case. */
  predicate EuroMarker(text: string)
  {
    Contains(text, "€") || Contains(Lower(text), "eur")
  }

  /** "EGP", or the Arabic abbreviation of the Egyptian pound. */
  predicate PoundMarker(text: string)
  {
    Contains(text, "EGP") || Contains(text, "ج.م")
  }

  /** The currency field after scanning a PDF whose text is `text`: the
      dollar wins over the euro, which wins over the Egyptian pound; a
      text with none of their markers leaves the field as it was. */
  function DetectCurrency(text: string, current: string): (c: string)
    ensures DollarMarker(text) ==> c == "$"
    ensures !DollarMarker(text) && EuroMarker(text) ==> c == "€"
    ensures !DollarMarker(text) && !EuroMarker(text) && PoundMarker(text) ==> c == "EGP"
    ensures c == "EGP" && current != "EGP" ==> PoundMarker(text)
    ensures c != current ==> c in {"$", "€", "EGP"}
    ensures !HasCurrencyMarker(text) ==> c == current
  {
    if DollarMarker(text) then "$"
    else if EuroMarker(text) then "€"
    else if PoundMarker(text) then "EGP"
    else current
  }

  /** Once a dollar marker has been read, scanning more text (a further
      page) cannot change the currency detected. */
  lemma DollarStays(text: string, more: string, current: string)
    requires DollarMarker(text)
    ensures DetectCurrency(text + more, current) == "$"
  {
    if Contains(text, "$") {
      ContainsExtends(text, more, "$");
    } else {
      ContainsExtends(Lower(text), Lower(more), "usd");
      LowerAppend(text, more);
    }
  }
}
