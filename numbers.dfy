/** JavaScript's `Number(text)` on the decimal notation users type into the
    row fields: surrounding whitespace is ignored, the empty text is 0, an
    optional sign, then digits with at most one decimal point. Anything else
    reads as NaN, which the model writes `None`. */
module Numbers {
  import opened Wrappers
  import opened Text

  predicate AllDigits(s: string)
  {
    forall i :: 0 <= i < |s| ==> IsDigit(s[i])
  }

  /** The value of a string of decimal digits. */
  function DigitsValue(s: string): nat
    requires AllDigits(s)
    decreases |s|
  {
    if s == [] then 0 else 10 * DigitsValue(s[..|s| - 1]) + (s[|s| - 1] as int - '0' as int)
  }

  function Pow10(k: nat): (r: nat)
    ensures r >= 1
  {
    if k == 0 then 1 else 10 * Pow10(k - 1)
  }

  /** The value of the literal `whole.frac`. */
  function DecimalValue(whole: string, frac: string): real
    requires AllDigits(whole) && AllDigits(frac)
  {
    DigitsValue(whole) as real + DigitsValue(frac) as real / Pow10(|frac|) as real
  }

  /** An unsigned literal `ddd`, `ddd.`, `.ddd` or `ddd.ddd`. */
  function ParseUnsigned(u: string): Option<real>
  {
    var parts := Split(u, '.');
    if |parts| == 1 && u != [] && AllDigits(u) then
      Some(DigitsValue(u) as real)
    else if |parts| == 2 && AllDigits(parts[0]) && AllDigits(parts[1]) && parts[0] + parts[1] != [] then
      Some(DecimalValue(parts[0], parts[1]))
    else
      None
  }

  /** `Number(s)`, with `None` for every result that is not finite. */
  function ParseNumber(s: string): Option<real>
  {
    var t := Trim(s);
    if t == [] then Some(0.0)
    else if t[0] == '-' then
      match ParseUnsigned(t[1..])
      case Some(v) => Some(-v)
      case None => None
    else if t[0] == '+' then ParseUnsigned(t[1..])
    else ParseUnsigned(t)
  }

  /** A blank field reads as 0, so an empty row still counts (with 0). */
  lemma BlankIsZero(s: string)
    requires forall i :: 0 <= i < |s| ==> IsSpace(s[i])
    ensures ParseNumber(s) == Some(0.0)
  {
    TrimOfBlank(s);
  }

  lemma {:induction false} TrimOfBlank(s: string)
    requires forall i :: 0 <= i < |s| ==> IsSpace(s[i])
    ensures Trim(s) == []
    decreases |s|
  {
    if s != [] {
      TrimOfBlank(s[1..]);
    }
  }

  /** A plain run of digits reads as the number it spells. */
  lemma ParseDigits(ds: string)
    requires ds != [] && AllDigits(ds)
    ensures ParseNumber(ds) == Some(DigitsValue(ds) as real)
  {
    DigitsUntrimmed(ds);
    NoPoint(ds);
    SplitWithoutSeparator(ds, '.', "");
    assert "" + ds == ds;
  }

  lemma DigitsUntrimmed(ds: string)
    requires ds != [] && AllDigits(ds)
    ensures Trim(ds) == ds && ds[0] != '-' && ds[0] != '+'
  {
    assert IsDigit(ds[0]) && IsDigit(ds[|ds| - 1]);
    TrimKeeps(ds);
  }

  /** `int.frac` reads as int + frac / 10^|frac|. */
  lemma ParseDecimal(a: string, b: string)
    requires AllDigits(a) && AllDigits(b) && a + b != []
    ensures ParseNumber(a + "." + b) == Some(DecimalValue(a, b))
  {
    DecimalUntrimmed(a, b);
    DecimalParts(a, b);
  }

  lemma DecimalUntrimmed(a: string, b: string)
    requires AllDigits(a) && AllDigits(b)
    ensures Trim(a + "." + b) == a + "." + b
    ensures (a + "." + b)[0] != '-' && (a + "." + b)[0] != '+'
  {
    var s := a + "." + b;
    assert s == a + ['.'] + b;
    assert s[|a|] == '.';
    assert s[0] == '.' || IsDigit(s[0]);
    assert s[|s| - 1] == '.' || IsDigit(s[|s| - 1]);
    TrimKeeps(s);
  }

  lemma DecimalParts(a: string, b: string)
    requires AllDigits(a) && AllDigits(b)
    ensures Split(a + "." + b, '.') == [a, b]
  {
    assert a + "." + b == a + ['.'] + b;
    NoPoint(a);
    NoPoint(b);
    SplitAtSeparator(a, '.', b, "");
    SplitWithoutSeparator(a, '.', "");
    SplitWithoutSeparator(b, '.', "");
    assert "" + a == a && "" + b == b;
  }

  lemma TrimKeeps(s: string)
    requires s != [] && !IsSpace(s[0]) && !IsSpace(s[|s| - 1])
    ensures Trim(s) == s
  {
  }

  lemma NoPoint(ds: string)
    requires AllDigits(ds)
    ensures '.' !in ds
  {
    forall i | 0 <= i < |ds| ensures ds[i] != '.' { assert IsDigit(ds[i]); }
  }
}
