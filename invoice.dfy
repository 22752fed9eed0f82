/** The line-item calculation engine of the invoice editor: how one row of
    the items table is read (`calculateRow`), how the rows add up to the
    subtotal, the tax and the grand total (`performCalc`, `updateSummary`),
    and what a new row holds (`addRow` and the presets built by
    `loadInvoiceFromURL`). */
module Invoice {
  import opened Wrappers
  import opened Text
  import opened Numbers
  import opened Utils

  /** A value taken from a stored document or a preset object: missing
      (`null` or `undefined`), a JSON number, or a JSON string. */
  datatype Json = Null | JNum(n: real) | JStr(s: string)

  /** JavaScript truthiness of a JSON value. */
  predicate Truthy(j: Json)
  {
    match j
    case Null => false
    case JNum(n) => n != 0.0
    case JStr(s) => s != ""
  }

  /** `a || b` on JSON values. */
  function Or(a: Json, b: Json): (r: Json)
    ensures Truthy(a) ==> r == a
    ensures !Truthy(a) ==> r == b
  {
    if Truthy(a) then a else b
  }

  /** The text held by an input of the row: text typed or loaded as a
      string, or a JavaScript number written into it (whose decimal text
      reads back as the same number and holds no comma). */
  datatype Field = Text(s: string) | Num(v: real)

  /** `${j ?? default}` written into an input's value. */
  function FieldOf(j: Json, default: Field): (f: Field)
    ensures j.Null? ==> f == default
    ensures j.JNum? ==> f == Num(j.n)
    ensures j.JStr? ==> f == Text(j.s)
  {
    match j
    case Null => default
    case JNum(n) => Num(n)
    case JStr(s) => Text(s)
  }

  /** `Number(input.value)`; `None` stands for NaN and the infinities. */
  function NumberOf(f: Field): Option<real>
  {
    match f
    case Text(s) => ParseNumber(s)
    case Num(v) => Some(v)
  }

  /** `Number(String(input.value).replace(/,/g, ''))`: the amount is read
      with its thousands separators removed. */
  function AmountOf(f: Field): Option<real>
  {
    match f
    case Text(s) => ParseNumber(RemoveChar(s, ','))
    case Num(v) => Some(v)
  }

  /** One `<tr>` of the items table. A row built by `addRow` has every
      input; an input that is absent is `None`. `vat` and `total` are the
      read-only cells that `calculateRow` writes. */
  datatype Row = Row(service: Field, desc: Field, duration: Field,
                     tax: Option<Field>, fees: Option<Field>, vat: Option<Field>,
                     amount: Option<Field>, total: Option<Field>)

  /** The preset object `addRow` is called with. */
  datatype Preset = Preset(service: Json, desc: Json, duration: Json, tax: Json, fees: Json, amount: Json)

  /** `addRow()` with no preset. */
  const NoPreset := Preset(Null, Null, Null, Null, Null, Null)

  /** The row `addRow(preset)` appends: text cells default to "", tax rate
      and fees to 0, the amount to "", and both computed cells start at 0. */
  function NewRow(p: Preset): (r: Row)
    ensures r.tax.Some? && r.fees.Some? && r.amount.Some? && r.vat == Some(Num(0.0)) && r.total == Some(Num(0.0))
    ensures r.tax.value == FieldOf(p.tax, Num(0.0)) && r.fees.value == FieldOf(p.fees, Num(0.0))
    ensures r.amount.value == FieldOf(p.amount, Text(""))
    ensures r.service == FieldOf(p.service, Text("")) && r.desc == FieldOf(p.desc, Text(""))
    ensures r.duration == FieldOf(p.duration, Text(""))
  {
    Row(FieldOf(p.service, Text("")), FieldOf(p.desc, Text("")), FieldOf(p.duration, Text("")),
        Some(FieldOf(p.tax, Num(0.0))), Some(FieldOf(p.fees, Num(0.0))), Some(Num(0.0)),
        Some(FieldOf(p.amount, Text(""))), Some(Num(0.0)))
  }

  /** One stored line item of an invoice or quotation. */
  datatype Item = Item(service: Json, desc: Json, duration: Json, tax: Json, vatRate: Json, fees: Json, amount: Json)

  /** The preset `loadInvoiceFromURL` builds for a stored item: the tax
      rate falls back `tax || vatRate || 0`. */
  function ItemPreset(it: Item): Preset
  {
    Preset(it.service, it.desc, it.duration, Or(it.tax, Or(it.vatRate, JNum(0.0))), it.fees, it.amount)
  }

  /** What `calculateRow` returns: `null`, or the amount and the tax
      amount (`None` when the fees are not a number). */
  datatype RowResult = Excluded | Counted(amount: real, taxAmount: Option<real>)

  /** `Number(feesInput.value)`, or 0 when the row has no fees input. */
  function FeesOf(r: Row): Option<real>
  {
    if r.fees.None? then Some(0.0) else NumberOf(r.fees.value)
  }

  /** `amount * (taxRate / 100) + fees`. */
  function TaxAmount(amount: real, rate: real, fees: Option<real>): (t: Option<real>)
    ensures t.Some? <==> fees.Some?
    ensures fees.Some? ==> t.value - fees.value == amount * rate / 100.0
  {
    match fees
    case Some(f) => Some(amount * (rate / 100.0) + f)
    case None => None
  }

  /** `calculateRow(tr)`: a row without an amount or tax input, or whose
      amount is not a finite number, is left out; a finite tax rate gives
      the tax amount, any other tax rate gives 0. */
  function Contribution(r: Row): (res: RowResult)
    ensures res.Excluded? <==> r.amount.None? || r.tax.None? || AmountOf(r.amount.value).None?
    ensures res.Counted? ==> AmountOf(r.amount.value) == Some(res.amount)
    ensures res.Counted? && NumberOf(r.tax.value).None? ==> res.taxAmount == Some(0.0)
    ensures res.Counted? && NumberOf(r.tax.value).Some? ==>
      res.taxAmount == TaxAmount(res.amount, NumberOf(r.tax.value).value, FeesOf(r))
  {
    if r.amount.None? || r.tax.None? then Excluded
    else
      match AmountOf(r.amount.value)
      case None => Excluded
      case Some(a) =>
        match NumberOf(r.tax.value)
        case Some(rate) => Counted(a, TaxAmount(a, rate, FeesOf(r)))
        case None => Counted(a, Some(0.0))
  }

  /** Addition as JavaScript performs it on numbers that may be NaN. */
  function Plus(a: Option<real>, b: Option<real>): (r: Option<real>)
    ensures r.Some? <==> a.Some? && b.Some?
    ensures r.Some? ==> r.value == a.value + b.value
  {
    match (a, b)
    case (Some(x), Some(y)) => Some(x + y)
    case _ => None
  }

  /** `amount + taxAmount`. */
  function RowTotal(amount: real, taxAmount: Option<real>): Option<real>
  {
    Plus(Some(amount), taxAmount)
  }

  /** The row after `calculateRow` has written its computed cells: only a
      counted row with a finite tax rate is written to, and only the cells
      the row has. */
  function Refresh(r: Row): Row
  {
    match Contribution(r)
    case Excluded => r
    case Counted(a, t) =>
      if NumberOf(r.tax.value).None? then r
      else r.(vat := if r.vat.Some? then Some(Num(Money(t))) else None,
              total := if r.total.Some? then Some(Num(Money(RowTotal(a, t)))) else None)
  }

  /** Writing the computed cells touches nothing that `calculateRow`
      reads, so it is idempotent and never changes a row's contribution;
      a written row total is the amount plus the tax amount. */
  lemma RefreshFacts(r: Row)
    ensures Contribution(Refresh(r)) == Contribution(r)
    ensures Refresh(Refresh(r)) == Refresh(r)
    ensures Refresh(r) == r.(vat := Refresh(r).vat, total := Refresh(r).total)
    ensures Refresh(r).vat.Some? <==> r.vat.Some?
    ensures Refresh(r).total.Some? <==> r.total.Some?
    ensures Contribution(r).Counted? && NumberOf(r.tax.value).Some? && r.total.Some? ==>
      Refresh(r).total == Some(Num(Money(RowTotal(Contribution(r).amount, Contribution(r).taxAmount))))
    ensures Contribution(r).Excluded? || NumberOf(r.tax.value).None? ==> Refresh(r) == r
  {
  }

  /** The amount a row adds to the subtotal. */
  function AmountPart(res: RowResult): real
  {
    if res.Counted? then res.amount else 0.0
  }

  /** `totalTax += rowData.taxAmount` for a counted row; NaN absorbs. */
  function AddTax(acc: Option<real>, res: RowResult): (r: Option<real>)
    ensures res.Excluded? ==> r == acc
    ensures r.Some? <==> acc.Some? && (res.Excluded? || res.taxAmount.Some?)
  {
    match res
    case Excluded => acc
    case Counted(_, t) => Plus(acc, t)
  }

  /** What `calculateRow` returns for each row, in row order. */
  function Results(rows: seq<Row>): (rs: seq<RowResult>)
    ensures |rs| == |rows|
    ensures forall i :: 0 <= i < |rows| ==> rs[i] == Contribution(rows[i])
  {
    seq(|rows|, i requires 0 <= i < |rows| => Contribution(rows[i]))
  }

  /** `sum` after the `forEach` over rows whose results are `rs`. */
  function SumAmounts(rs: seq<RowResult>): real
    decreases |rs|
  {
    if rs == [] then 0.0 else SumAmounts(rs[..|rs| - 1]) + AmountPart(rs[|rs| - 1])
  }

  /** `totalTax` after the `forEach` over rows whose results are `rs`. */
  function SumTaxes(rs: seq<RowResult>): Option<real>
    decreases |rs|
  {
    if rs == [] then Some(0.0) else AddTax(SumTaxes(rs[..|rs| - 1]), rs[|rs| - 1])
  }

  /** One more row of the `forEach`: the sums over the first `i + 1`
      results extend the sums over the first `i` by row `i`'s result. */
  lemma SumsStep(rows: seq<Row>, i: nat)
    requires i < |rows|
    ensures SumAmounts(Results(rows)[..i + 1]) == SumAmounts(Results(rows)[..i]) + AmountPart(Contribution(rows[i]))
    ensures SumTaxes(Results(rows)[..i + 1]) == AddTax(SumTaxes(Results(rows)[..i]), Contribution(rows[i]))
  {
    var rs := Results(rows)[..i + 1];
    assert rs[..|rs| - 1] == Results(rows)[..i];
  }

  /** The sums over all the results are the subtotal and the total tax. */
  lemma SumsWhole(rows: seq<Row>)
    ensures SumAmounts(Results(rows)[..|rows|]) == Subtotal(rows)
    ensures SumTaxes(Results(rows)[..|rows|]) == TotalTax(rows)
  {
    assert Results(rows)[..|rows|] == Results(rows);
  }

  /** The subtotal: the sum, in row order, of the amounts of the rows that
      are not left out. */
  function Subtotal(rows: seq<Row>): real
  {
    SumAmounts(Results(rows))
  }

  /** The total tax: the sum of the counted rows' tax amounts, NaN (`None`)
      as soon as one of them is NaN. */
  function TotalTax(rows: seq<Row>): Option<real>
  {
    SumTaxes(Results(rows))
  }

  /** `sum + totalTax`. */
  function GrandTotal(rows: seq<Row>): Option<real>
  {
    match TotalTax(rows)
    case Some(t) => Some(Subtotal(rows) + t)
    case None => None
  }

  /** The words line `numberToWords(sum + totalTax)`. NaN compares false
      everywhere, so it reads " Dollars Only"; a total whose whole part
      reaches 10^9 in size is not modelled (`None`). */
  function WordsLine(g: Option<real>): (w: Option<string>)
    ensures g.None? ==> w == Some(" Dollars Only")
    ensures g.Some? && -1_000_000_000.0 < g.value < 1_000_000_000.0 ==> w == Some(NumberToWords(g.value))
  {
    match g
    case None => Some(" Dollars Only")
    case Some(x) =>
      if -1_000_000_000.0 < x < 1_000_000_000.0 then Some(NumberToWords(x)) else None
  }

  /** `currencyInput.value || "$"`. */
  function CurrencyOrDefault(c: string): (r: string)
    ensures c == "" ==> r == "$"
    ensures c != "" ==> r == c
  {
    if c == "" then "$" else c
  }

  /** What `updateSummary` and `updateCurrencySymbols` display. */
  datatype Summary = Summary(subtotal: real, taxes: real, grand: real, words: Option<string>, symbol: string)

  /** The display after a recalculation of `rows` with currency field `currency`. */
  function SummaryOf(rows: seq<Row>, currency: string): (s: Summary)
    ensures s.subtotal == Subtotal(rows)
    ensures s.taxes == Money(TotalTax(rows)) && s.grand == Money(GrandTotal(rows))
    ensures s.words == WordsLine(GrandTotal(rows)) && s.symbol == CurrencyOrDefault(currency)
  {
    Summary(Money(Some(Subtotal(rows))), Money(TotalTax(rows)), Money(GrandTotal(rows)),
            WordsLine(GrandTotal(rows)), CurrencyOrDefault(currency))
  }

  /** The summary shown before any recalculation. */
  const InitialSummary := Summary(0.0, 0.0, 0.0, Some("Zero Dollars Only"), "$")

  /** The rows after `calculateRow` has run on each of them. */
  function RefreshAll(rows: seq<Row>): (r: seq<Row>)
    ensures |r| == |rows|
    ensures forall i :: 0 <= i < |rows| ==> r[i] == Refresh(rows[i])
  {
    seq(|rows|, i requires 0 <= i < |rows| => Refresh(rows[i]))
  }

  /** Sums over a concatenation are the sums of the parts. */
  lemma SumsAppend(a: seq<RowResult>, b: seq<RowResult>)
    ensures SumAmounts(a + b) == SumAmounts(a) + SumAmounts(b)
    ensures SumTaxes(a + b) == Plus(SumTaxes(a), SumTaxes(b))
  {
    AmountsAppend(a, b);
    TaxesAppend(a, b);
  }

  lemma {:induction false} AmountsAppend(a: seq<RowResult>, b: seq<RowResult>)
    ensures SumAmounts(a + b) == SumAmounts(a) + SumAmounts(b)
    decreases |b|
  {
    if b == [] {
      assert a + b == a;
    } else {
      var b' := b[..|b| - 1];
      assert (a + b)[..|a + b| - 1] == a + b';
      assert (a + b)[|a + b| - 1] == b[|b| - 1];
      AmountsAppend(a, b');
    }
  }

  lemma {:induction false} TaxesAppend(a: seq<RowResult>, b: seq<RowResult>)
    ensures SumTaxes(a + b) == Plus(SumTaxes(a), SumTaxes(b))
    decreases |b|
  {
    if b == [] {
      assert a + b == a;
      PlusZero(SumTaxes(a));
    } else {
      var b', x := b[..|b| - 1], b[|b| - 1];
      assert (a + b)[..|a + b| - 1] == a + b';
      assert (a + b)[|a + b| - 1] == x;
      TaxesAppend(a, b');
      AddTaxRegroups(SumTaxes(a), SumTaxes(b'), x);
    }
  }

  /** Adding a row's tax after a sum is adding it to the second summand. */
  lemma AddTaxRegroups(p: Option<real>, q: Option<real>, x: RowResult)
    ensures AddTax(Plus(p, q), x) == Plus(p, AddTax(q, x))
  {
  }

  /** The tax sum is NaN exactly when some counted row has a NaN tax
      amount. */
  lemma {:induction false} TaxesUndefinedIff(rs: seq<RowResult>)
    ensures SumTaxes(rs).None? <==> exists i :: 0 <= i < |rs| && rs[i].Counted? && rs[i].taxAmount.None?
    decreases |rs|
  {
    if rs != [] {
      var p := rs[..|rs| - 1];
      TaxesUndefinedIff(p);
      if exists i :: 0 <= i < |p| && p[i].Counted? && p[i].taxAmount.None? {
        var i :| 0 <= i < |p| && p[i].Counted? && p[i].taxAmount.None?;
        assert rs[i] == p[i];
      }
      if exists i :: 0 <= i < |rs| && rs[i].Counted? && rs[i].taxAmount.None? {
        var i :| 0 <= i < |rs| && rs[i].Counted? && rs[i].taxAmount.None?;
        if i < |p| {
          assert p[i] == rs[i];
        }
      }
    }
  }

  lemma ResultsAppend(a: seq<Row>, b: seq<Row>)
    ensures Results(a + b) == Results(a) + Results(b)
  {
  }

  /** The sums of a single row. */
  lemma SumsOfOne(x: RowResult)
    ensures SumAmounts([x]) == AmountPart(x)
    ensures SumTaxes([x]) == AddTax(Some(0.0), x)
  {
    assert [x][..0] == [];
  }

  lemma BlankContribution()
    ensures Contribution(NewRow(NoPreset)) == Counted(0.0, Some(0.0))
  {
    var r := NewRow(NoPreset);
    assert r.amount == Some(Text(""));
    assert RemoveChar("", ',') == "";
    BlankIsZero("");
    assert AmountOf(Text("")) == Some(0.0);
    assert NumberOf(Num(0.0)) == Some(0.0);
  }

  /** Appending a result that contributes nothing keeps both sums. */
  lemma AppendNeutralResult(rs: seq<RowResult>, x: RowResult)
    requires x == Counted(0.0, Some(0.0))
    ensures SumAmounts(rs + [x]) == SumAmounts(rs)
    ensures SumTaxes(rs + [x]) == SumTaxes(rs)
  {
    assert (rs + [x])[..|rs|] == rs;
    PlusZero(SumTaxes(rs));
  }

  /** Appending a row that contributes nothing keeps both sums. */
  lemma AppendNeutral(rows: seq<Row>, r: Row)
    requires Contribution(r) == Counted(0.0, Some(0.0))
    ensures Subtotal(rows + [r]) == Subtotal(rows)
    ensures TotalTax(rows + [r]) == TotalTax(rows)
  {
    ResultsAppend(rows, [r]);
    assert Results([r]) == [Contribution(r)];
    AppendNeutralResult(Results(rows), Contribution(r));
  }

  lemma PlusZero(a: Option<real>)
    ensures Plus(a, Some(0.0)) == a
  {
  }

  /** A blank row (what `addRow()` appends with no preset) adds nothing:
      its empty amount reads as 0, as do its tax rate and fees. */
  lemma BlankRowAddsNothing(rows: seq<Row>)
    ensures Contribution(NewRow(NoPreset)) == Counted(0.0, Some(0.0))
    ensures Subtotal(rows + [NewRow(NoPreset)]) == Subtotal(rows)
    ensures TotalTax(rows + [NewRow(NoPreset)]) == TotalTax(rows)
  {
    BlankContribution();
    AppendNeutral(rows, NewRow(NoPreset));
  }

  /** Taking row `i` out lowers the subtotal by that row's amount and the
      tax total by its tax amount (a NaN tax total may become a number). */
  lemma RemoveRowSums(rows: seq<Row>, i: nat)
    requires i < |rows|
    ensures Subtotal(rows[..i] + rows[i + 1..]) == Subtotal(rows) - AmountPart(Contribution(rows[i]))
    ensures TotalTax(rows) == Plus(TotalTax(rows[..i] + rows[i + 1..]), AddTax(Some(0.0), Contribution(rows[i])))
  {
    RemovedResults(rows, i);
    RemoveResultAmount(Results(rows), i);
    RemoveResultTax(Results(rows), i);
  }

  lemma RemovedResults(rows: seq<Row>, i: nat)
    requires i < |rows|
    ensures Results(rows[..i] + rows[i + 1..]) == Results(rows)[..i] + Results(rows)[i + 1..]
    ensures Results(rows)[i] == Contribution(rows[i])
  {
  }

  lemma RemoveResultAmount(rs: seq<RowResult>, i: nat)
    requires i < |rs|
    ensures SumAmounts(rs[..i] + rs[i + 1..]) == SumAmounts(rs) - AmountPart(rs[i])
  {
    var a, x, b := rs[..i], rs[i], rs[i + 1..];
    SplitAround(rs, i);
    AmountsAppend(a + [x], b);
    AmountsAppend(a, [x]);
    SumsOfOne(x);
    AmountsAppend(a, b);
  }

  lemma SplitAround<T>(s: seq<T>, i: nat)
    requires i < |s|
    ensures s == (s[..i] + [s[i]]) + s[i + 1..]
  {
  }

  lemma RemoveResultTax(rs: seq<RowResult>, i: nat)
    requires i < |rs|
    ensures SumTaxes(rs) == Plus(SumTaxes(rs[..i] + rs[i + 1..]), AddTax(Some(0.0), rs[i]))
  {
    var a, x, b := rs[..i], rs[i], rs[i + 1..];
    SplitAround(rs, i);
    calc {
      SumTaxes(rs);
      { TaxesAppend(a + [x], b); }
      Plus(SumTaxes(a + [x]), SumTaxes(b));
      { TaxesAppend(a, [x]); SumsOfOne(x); }
      Plus(Plus(SumTaxes(a), AddTax(Some(0.0), x)), SumTaxes(b));
      { PlusSwap(SumTaxes(a), AddTax(Some(0.0), x), SumTaxes(b)); }
      Plus(Plus(SumTaxes(a), SumTaxes(b)), AddTax(Some(0.0), x));
      { TaxesAppend(a, b); }
      Plus(SumTaxes(a + b), AddTax(Some(0.0), x));
    }
  }

  lemma PlusSwap(p: Option<real>, q: Option<real>, r: Option<real>)
    ensures Plus(Plus(p, q), r) == Plus(Plus(p, r), q)
  {
  }

  /** The tax total is NaN exactly when some counted row has a NaN tax
      amount (its fees are not a number). */
  lemma TaxUndefinedIff(rows: seq<Row>)
    ensures TotalTax(rows).None? <==>
      exists i :: 0 <= i < |rows| && Contribution(rows[i]).Counted? && Contribution(rows[i]).taxAmount.None?
  {
    TaxesUndefinedIff(Results(rows));
  }

  /** Recalculating writes only the computed cells, so a second
      recalculation shows the same sums. */
  lemma RefreshKeepsSums(rows: seq<Row>)
    ensures Results(RefreshAll(rows)) == Results(rows)
    ensures Subtotal(RefreshAll(rows)) == Subtotal(rows)
    ensures TotalTax(RefreshAll(rows)) == TotalTax(rows)
  {
    forall i | 0 <= i < |rows| ensures Contribution(RefreshAll(rows)[i]) == Contribution(rows[i]) {
      RefreshFacts(rows[i]);
    }
  }

  /** Thousands separators in a typed amount are ignored. */
  lemma CommasIgnored(s: string)
    ensures AmountOf(Text(s)) == AmountOf(Text(RemoveChar(s, ',')))
  {
    RemoveCharTwice(s, ',');
  }

  /** A typed amount "a,b" of digit groups reads as the number "ab". */
  lemma GroupedAmount(a: string, b: string)
    requires AllDigits(a) && AllDigits(b) && a + b != []
    ensures AmountOf(Text(a + "," + b)) == Some(DigitsValue(a + b) as real)
  {
    NoCommaInDigits(a);
    NoCommaInDigits(b);
    RemoveCharAppend(a + ",", b, ',');
    RemoveCharAppend(a, ",", ',');
    assert ',' !in "" + [];
    assert RemoveChar(",", ',') == [];
    assert a + "" == a;
    assert AllDigits(a + b) by {
      forall i | 0 <= i < |a + b| ensures IsDigit((a + b)[i]) {
        if i < |a| { assert (a + b)[i] == a[i]; } else { assert (a + b)[i] == b[i - |a|]; }
      }
    }
    ParseDigits(a + b);
  }

  lemma NoCommaInDigits(ds: string)
    requires AllDigits(ds)
    ensures RemoveChar(ds, ',') == ds
  {
    assert ',' !in ds by {
      forall i | 0 <= i < |ds| ensures ds[i] != ',' { assert IsDigit(ds[i]); }
    }
    RemoveAbsentChar(ds, ',');
  }

  /** A stored 0 (or missing) tax rate falls back to the item's `vatRate`,
      and to 0 when that is missing too. */
  lemma LoadedTaxRate(it: Item)
    requires !it.tax.JStr? && !it.vatRate.JStr?
    ensures NumberOf(NewRow(ItemPreset(it)).tax.value) ==
      Some(if Truthy(it.tax) then it.tax.n else if Truthy(it.vatRate) then it.vatRate.n else 0.0)
  {
  }

  /** A row whose cells were filled from JSON numbers. */
  lemma NumericRow(tax: real, fees: real, amount: real)
    ensures Contribution(NewRow(Preset(Null, Null, Null, JNum(tax), JNum(fees), JNum(amount))))
         == Counted(amount, Some(amount * (tax / 100.0) + fees))
  {
    var r := NewRow(Preset(Null, Null, Null, JNum(tax), JNum(fees), JNum(amount)));
    assert r.amount == Some(Num(amount)) && r.tax == Some(Num(tax)) && r.fees == Some(Num(fees));
    assert AmountOf(Num(amount)) == Some(amount) && NumberOf(Num(tax)) == Some(tax);
    assert FeesOf(r) == Some(fees);
    assert TaxAmount(amount, tax, Some(fees)) == Some(amount * (tax / 100.0) + fees);
  }

  /** The two-row example: 100 at 14% with fees 10, and 50 untaxed, make a
      subtotal of 150, a tax total of 24 and a grand total of 174. */
  lemma TwoRowExample()
    ensures var rows := [NewRow(Preset(Null, Null, Null, JNum(14.0), JNum(10.0), JNum(100.0))),
                         NewRow(Preset(Null, Null, Null, JNum(0.0), JNum(0.0), JNum(50.0)))];
      Subtotal(rows) == 150.0 && TotalTax(rows) == Some(24.0) && GrandTotal(rows) == Some(174.0)
  {
    var r1 := NewRow(Preset(Null, Null, Null, JNum(14.0), JNum(10.0), JNum(100.0)));
    var r2 := NewRow(Preset(Null, Null, Null, JNum(0.0), JNum(0.0), JNum(50.0)));
    NumericRow(14.0, 10.0, 100.0);
    NumericRow(0.0, 0.0, 50.0);
    TwoResults(r1, r2);
  }

  lemma TwoResults(r1: Row, r2: Row)
    requires Contribution(r1) == Counted(100.0, Some(24.0))
    requires Contribution(r2) == Counted(50.0, Some(0.0))
    ensures Subtotal([r1, r2]) == 150.0 && TotalTax([r1, r2]) == Some(24.0)
  {
    var rs := Results([r1, r2]);
    assert rs == [Contribution(r1), Contribution(r2)];
    TwoResultSums(Contribution(r1), Contribution(r2));
  }

  lemma TwoResultSums(x1: RowResult, x2: RowResult)
    requires x1 == Counted(100.0, Some(24.0)) && x2 == Counted(50.0, Some(0.0))
    ensures SumAmounts([x1, x2]) == 150.0 && SumTaxes([x1, x2]) == Some(24.0)
  {
    assert [x1, x2] == [x1] + [x2];
    SumsAppend([x1], [x2]);
    SumsOfOne(x1);
    SumsOfOne(x2);
    assert SumTaxes([x1]) == Some(24.0);
    assert SumTaxes([x2]) == Some(0.0);
    PlusZero(SumTaxes([x1]));
  }
}
