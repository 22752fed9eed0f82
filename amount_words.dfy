/** What the words produced by `numberToWords` say. A reader of the phrase
    (`DecodeWords`) turns its space-separated words back into a number the
    usual English way; the round trip shows that the phrase always names the
    whole part of the amount, so distinct whole parts never share a phrase.

    The proof runs in two halves: the phrase splits into a list of words
    group by group, and the reader's view of those words (a `Token` per
    word) adds up to the whole part. */
module AmountWords {
  import opened Wrappers
  import opened Text
  import opened Utils

  // ---------------------------------------------------------------------
  // The reader
  // ---------------------------------------------------------------------

  /** How the reader classifies one word. */
  datatype Token = Number(v: nat) | Hundred | Thousand | Million | Unknown

  /** The reader's dictionary: the number words and the scale words. */
  const Dictionary: map<string, Token> := map[
    "One" := Number(1), "Two" := Number(2), "Three" := Number(3), "Four" := Number(4),
    "Five" := Number(5), "Six" := Number(6), "Seven" := Number(7), "Eight" := Number(8),
    "Nine" := Number(9), "Ten" := Number(10), "Eleven" := Number(11), "Twelve" := Number(12),
    "Thirteen" := Number(13), "Fourteen" := Number(14), "Fifteen" := Number(15),
    "Sixteen" := Number(16), "Seventeen" := Number(17), "Eighteen" := Number(18),
    "Nineteen" := Number(19), "Twenty" := Number(20), "Thirty" := Number(30),
    "Forty" := Number(40), "Fifty" := Number(50), "Sixty" := Number(60),
    "Seventy" := Number(70), "Eighty" := Number(80), "Ninety" := Number(90),
    "Hundred" := Hundred, "Thousand" := Thousand, "Million" := Million]

  /** A word the dictionary does not know reads as `Unknown`. */
  function TokenOf(w: string): Token
  {
    if w in Dictionary then Dictionary[w] else Unknown
  }

  function Tokens(ws: seq<string>): (ts: seq<Token>)
    ensures |ts| == |ws|
    ensures forall i :: 0 <= i < |ws| ==> ts[i] == TokenOf(ws[i])
  {
    seq(|ws|, i requires 0 <= i < |ws| => TokenOf(ws[i]))
  }

  /** Reads tokens left to right: numbers add to the current group,
      "Hundred" scales it, "Thousand" and "Million" close it. */
  function EvalTokens(ts: seq<Token>, total: int, cur: int): Option<int>
    decreases |ts|
  {
    if ts == [] then Some(total + cur)
    else
      match ts[0]
      case Number(v) => EvalTokens(ts[1..], total, cur + v)
      case Hundred => EvalTokens(ts[1..], total, cur * 100)
      case Thousand => EvalTokens(ts[1..], total + cur * 1000, 0)
      case Million => EvalTokens(ts[1..], total + cur * 1_000_000, 0)
      case Unknown => None
  }

  /** The phrase closes with the currency words. */
  predicate EndsInDollarsOnly(ws: seq<string>)
  {
    |ws| >= 2 && ws[|ws| - 2..] == ["Dollars", "Only"]
  }

  /** Reads "<words> Dollars Only", with "Zero" standing alone for 0. */
  function DecodeAmount(ws: seq<string>): Option<int>
  {
    if EndsInDollarsOnly(ws) then
      var body := ws[..|ws| - 2];
      if body == ["Zero"] then Some(0) else EvalTokens(Tokens(body), 0, 0)
    else None
  }

  /** Reads the words of a phrase; a leading "Minus" negates the rest. */
  function DecodeWordList(ws: seq<string>): Option<int>
  {
    match DecodeAmount(ws)
    case Some(v) => Some(v)
    case None =>
      if |ws| > 0 && ws[0] == "Minus" then
        match DecodeAmount(ws[1..])
        case Some(v) => Some(-v)
        case None => None
      else None
  }

  /** Reads a whole phrase. */
  function DecodeWords(s: string): Option<int>
  {
    DecodeWordList(Words(s))
  }

  /** The whole part of an amount as `numberToWords` spells it: `floor(n)`
      for n >= 0 and `-floor(-n)` for n < 0. */
  function WholePart(n: real): int
  {
    if n < 0.0 then -((-n).Floor) else n.Floor
  }

  // ---------------------------------------------------------------------
  // The words of the tables
  // ---------------------------------------------------------------------

  predicate IsWord(w: string)
  {
    w != [] && ' ' !in w
  }

  lemma OnesIsWord(k: nat)
    requires 1 <= k < 20
    ensures IsWord(Ones[k])
  {
    if k == 1 {} else if k == 2 {} else if k == 3 {} else if k == 4 {} else if k == 5 {}
    else if k == 6 {} else if k == 7 {} else if k == 8 {} else if k == 9 {} else if k == 10 {}
    else if k == 11 {} else if k == 12 {} else if k == 13 {} else if k == 14 {} else if k == 15 {}
    else if k == 16 {} else if k == 17 {} else if k == 18 {} else {}
  }

  lemma TensIsWord(k: nat)
    requires 2 <= k < 10
    ensures IsWord(Tens[k])
  {
    if k == 2 {} else if k == 3 {} else if k == 4 {} else if k == 5 {}
    else if k == 6 {} else if k == 7 {} else if k == 8 {} else {}
  }

  lemma DigitToken(k: nat)
    requires 1 <= k < 10
    ensures TokenOf(Ones[k]) == Number(k)
  {
    if k == 1 {} else if k == 2 {} else if k == 3 {} else if k == 4 {} else if k == 5 {}
    else if k == 6 {} else if k == 7 {} else if k == 8 {} else {}
  }

  lemma TeenToken(k: nat)
    requires 10 <= k < 20
    ensures TokenOf(Ones[k]) == Number(k)
  {
    if k == 10 {} else if k == 11 {} else if k == 12 {} else if k == 13 {} else if k == 14 {}
    else if k == 15 {} else if k == 16 {} else if k == 17 {} else if k == 18 {} else {}
  }

  lemma OnesToken(k: nat)
    requires 1 <= k < 20
    ensures TokenOf(Ones[k]) == Number(k)
  {
    if k < 10 { DigitToken(k); } else { TeenToken(k); }
  }

  lemma TensToken(k: nat)
    requires 2 <= k < 10
    ensures TokenOf(Tens[k]) == Number(10 * k)
  {
    if k == 2 {} else if k == 3 {} else if k == 4 {} else if k == 5 {}
    else if k == 6 {} else if k == 7 {} else if k == 8 {} else {}
  }

  lemma ScaleTokens()
    ensures TokenOf("Hundred") == Hundred && TokenOf("Thousand") == Thousand && TokenOf("Million") == Million
    ensures IsWord("Hundred") && IsWord("Thousand") && IsWord("Million")
  {
  }

  /** The words of `w + " " + rest` are `w` followed by the words of `rest`. */
  lemma WordsCons(w: string, rest: string)
    requires IsWord(w)
    ensures Words(w + " " + rest) == [w] + Words(rest)
  {
    WordsAtSpace(w, rest, "");
    WordsOfSingle(w);
  }

  // ---------------------------------------------------------------------
  // The phrase, group by group
  // ---------------------------------------------------------------------

  /** The words of a chunk below 100: none, one word, or a tens word and a
      ones word. */
  function ChunkList(x: nat): seq<string>
    requires x < 100
  {
    if x == 0 then []
    else if x < 20 then [Ones[x]]
    else if x % 10 > 0 then [Tens[x / 10], Ones[x % 10]]
    else [Tens[x / 10]]
  }

  lemma ChunkWords(x: nat)
    requires x < 100
    ensures Words(ConvertChunk(x)) == ChunkList(x)
  {
    if x == 0 {
      assert Words("") == [];
    } else if x < 20 {
      OnesIsWord(x);
      WordsOfSingle(Ones[x]);
    } else if x % 10 > 0 {
      TensIsWord(x / 10);
      OnesIsWord(x % 10);
      assert ConvertChunk(x) == Tens[x / 10] + " " + Ones[x % 10];
      WordsCons(Tens[x / 10], Ones[x % 10]);
      WordsOfSingle(Ones[x % 10]);
    } else {
      TensIsWord(x / 10);
      assert ConvertChunk(x) == Tens[x / 10];
      WordsOfSingle(Tens[x / 10]);
    }
  }

  /** The words of a group below 1000. */
  function HundredsList(x: nat): seq<string>
    requires x < 1000
  {
    if x > 99 then [Ones[x / 100], "Hundred"] + ChunkList(x % 100) else ChunkList(x)
  }

  lemma HundredsWords(x: nat)
    requires x < 1000
    ensures Words(ConvertHundreds(x)) == HundredsList(x)
  {
    if x <= 99 {
      ChunkWords(x);
    } else {
      HundredsWordsAbove(x);
    }
  }

  /** The text after the hundreds word: the chunk, if any, after a space. */
  function ChunkTail(c: nat): string
    requires c < 100
  {
    if c > 0 then " " + ConvertChunk(c) else ""
  }

  lemma HundredsShape(x: nat)
    requires 99 < x < 1000
    ensures ConvertHundreds(x) == Ones[x / 100] + " " + ("Hundred" + ChunkTail(x % 100))
  {
  }

  lemma HundredsWordsAbove(x: nat)
    requires 99 < x < 1000
    ensures Words(ConvertHundreds(x)) == HundredsList(x)
  {
    OnesIsWord(x / 100);
    HundredsShape(x);
    WordsCons(Ones[x / 100], "Hundred" + ChunkTail(x % 100));
    HundredTail(x % 100);
  }

  lemma HundredTail(c: nat)
    requires c < 100
    ensures Words("Hundred" + ChunkTail(c)) == ["Hundred"] + ChunkList(c)
  {
    ScaleTokens();
    if c > 0 {
      assert "Hundred" + (" " + ConvertChunk(c)) == "Hundred" + " " + ConvertChunk(c);
      WordsCons("Hundred", ConvertChunk(c));
      ChunkWords(c);
    } else {
      WordsOfSingle("Hundred");
      assert "Hundred" + "" == "Hundred";
    }
  }

  /** The words of a million or thousand group, as `ScaledGroup` writes it. */
  function ScaledList(present: bool, g: nat, marker: string): seq<string>
    requires g < 1000
  {
    if present then HundredsList(g) + [marker] else []
  }

  /** The words of the last three digits, as `LastGroup` writes them. */
  function LastList(h: nat): seq<string>
    requires h < 1000
  {
    if h > 0 then HundredsList(h) else []
  }

  lemma WholeDecomposition(w: nat)
    requires w < 1_000_000_000
    ensures w == (w / 1_000_000) * 1_000_000 + ((w % 1_000_000) / 1000) * 1000 + w % 1000
    ensures w / 1_000_000 < 1000 && (w % 1_000_000) / 1000 < 1000
    ensures w >= 1_000_000 <==> w / 1_000_000 >= 1
    ensures w % 1_000_000 >= 1000 <==> (w % 1_000_000) / 1000 >= 1
    ensures GroupSum(w >= 1_000_000, w / 1_000_000, w % 1_000_000 >= 1000, (w % 1_000_000) / 1000, w % 1000) == w
  {
    var m := w % 1_000_000;
    assert w == (w / 1_000_000) * 1_000_000 + m;
    assert m == (m / 1000) * 1000 + m % 1000;
    assert m % 1000 == w % 1000 by {
      assert w == ((w / 1_000_000) * 1000) * 1000 + m;
    }
  }

  /** The value of a million group, a thousand group and the last three
      digits; a group that is not present counts nothing. */
  function GroupSum(pm: bool, m: nat, pt: bool, t: nat, h: nat): int
  {
    (if pm then m * 1_000_000 else 0) + (if pt then t * 1000 else 0) + h
  }

  /** The words of `GroupWords(w)`, group by group. */
  function GroupList(w: nat): seq<string>
    requires w < 1_000_000_000
  {
    WholeDecomposition(w);
    ScaledList(w >= 1_000_000, w / 1_000_000, "Million")
    + ScaledList(w % 1_000_000 >= 1000, (w % 1_000_000) / 1000, "Thousand")
    + LastList(w % 1000)
  }

  lemma ScaledWords(present: bool, g: nat, marker: string)
    requires g < 1000 && IsWord(marker)
    ensures Words(ScaledGroup(present, g, marker)) == ScaledList(present, g, marker)
    ensures ScaledGroup(present, g, marker) == "" || ScaledGroup(present, g, marker)[|ScaledGroup(present, g, marker)| - 1] == ' '
  {
    if present {
      var s := ConvertHundreds(g);
      assert s + " " + marker + " " == s + " " + (marker + " ");
      WordsAtSpace(s, marker + " ", "");
      assert marker + " " == marker + " " + "";
      WordsCons(marker, "");
      assert Words("") == [];
      HundredsWords(g);
    } else {
      assert Words("") == [];
    }
  }

  lemma DollarsOnlyWords()
    ensures Words(" Dollars Only") == ["Dollars", "Only"]
  {
    assert " Dollars Only" == "" + " " + "Dollars Only";
    assert "Dollars Only" == "Dollars" + " " + "Only";
    WordsAtSpace("", "Dollars Only", "");
    WordsCons("Dollars", "Only");
    WordsOfSingle("Only");
    assert Words("") == [];
  }

  lemma LastWords(h: nat)
    requires h < 1000
    ensures Words(LastGroup(h) + " Dollars Only") == LastList(h) + ["Dollars", "Only"]
  {
    WordsJoin(LastGroup(h), " Dollars Only");
    DollarsOnlyWords();
    if h > 0 {
      HundredsWords(h);
    } else {
      assert Words("") == [];
    }
  }

  /** Words of a concatenation whose first two pieces end in a space. */
  lemma JoinThree(a: string, b: string, cd: string)
    requires a == "" || a[|a| - 1] == ' '
    requires b == "" || b[|b| - 1] == ' '
    ensures Words(a + b + cd) == Words(a) + Words(b) + Words(cd)
  {
    assert a + b + cd == a + (b + cd);
    WordsJoin(a, b + cd);
    WordsJoin(b, cd);
  }

  /** The words of the three groups for given group values. */
  lemma GroupsWords(pm: bool, m: nat, pt: bool, t: nat, h: nat)
    requires m < 1000 && t < 1000 && h < 1000
    ensures Words(ScaledGroup(pm, m, "Million") + ScaledGroup(pt, t, "Thousand") + LastGroup(h) + " Dollars Only")
         == ScaledList(pm, m, "Million") + ScaledList(pt, t, "Thousand") + LastList(h) + ["Dollars", "Only"]
  {
    ScaleTokens();
    var a, b, c := ScaledGroup(pm, m, "Million"), ScaledGroup(pt, t, "Thousand"), LastGroup(h);
    assert a + b + c + " Dollars Only" == a + b + (c + " Dollars Only");
    ScaledWords(pm, m, "Million");
    ScaledWords(pt, t, "Thousand");
    JoinThree(a, b, c + " Dollars Only");
    LastWords(h);
  }

  /** The phrase for a whole part `w > 0` is its groups' words followed by
      "Dollars Only". */
  lemma GroupWordsSplit(w: nat)
    requires w < 1_000_000_000
    ensures Words(GroupWords(w) + " Dollars Only") == GroupList(w) + ["Dollars", "Only"]
  {
    WholeDecomposition(w);
    GroupsWords(w >= 1_000_000, w / 1_000_000, w % 1_000_000 >= 1000, (w % 1_000_000) / 1000, w % 1000);
  }

  // ---------------------------------------------------------------------
  // The reader's view of the groups
  // ---------------------------------------------------------------------

  lemma TokensAppend(a: seq<string>, b: seq<string>)
    ensures Tokens(a + b) == Tokens(a) + Tokens(b)
  {
  }

  /** The tokens of a chunk below 100. */
  function ChunkToks(x: nat): seq<Token>
    requires x < 100
  {
    if x == 0 then []
    else if x < 20 then [Number(x)]
    else if x % 10 > 0 then [Number(10 * (x / 10)), Number(x % 10)]
    else [Number(10 * (x / 10))]
  }

  lemma ChunkTokens(x: nat)
    requires x < 100
    ensures Tokens(ChunkList(x)) == ChunkToks(x)
  {
    if x == 0 {
    } else if x < 20 {
      OnesToken(x);
    } else if x % 10 > 0 {
      TensToken(x / 10);
      OnesToken(x % 10);
    } else {
      TensToken(x / 10);
    }
  }

  /** The tokens of a group below 1000. */
  function HundredsToks(x: nat): seq<Token>
    requires x < 1000
  {
    if x > 99 then [Number(x / 100), Hundred] + ChunkToks(x % 100) else ChunkToks(x)
  }

  lemma HundredsTokens(x: nat)
    requires x < 1000
    ensures Tokens(HundredsList(x)) == HundredsToks(x)
  {
    if x <= 99 {
      ChunkTokens(x);
    } else {
      OnesToken(x / 100);
      ScaleTokens();
      ChunkTokens(x % 100);
      TokensAppend([Ones[x / 100], "Hundred"], ChunkList(x % 100));
    }
  }

  /** A chunk below 100 adds its value to the current group. */
  lemma EvalChunk(x: nat, rest: seq<Token>, total: int, cur: int)
    requires x < 100
    ensures EvalTokens(ChunkToks(x) + rest, total, cur) == EvalTokens(rest, total, cur + x)
  {
    var ts := ChunkToks(x);
    if x == 0 {
      assert ts + rest == rest;
    } else if x < 20 || x % 10 == 0 {
      assert (ts + rest)[1..] == rest;
    } else {
      var t, o := x / 10, x % 10;
      assert (ts + rest)[1..] == [Number(o)] + rest;
      assert ([Number(o)] + rest)[1..] == rest;
    }
  }

  /** A group below 1000 read from an empty current group yields its value. */
  lemma EvalHundreds(x: nat, rest: seq<Token>, total: int)
    requires x < 1000
    ensures EvalTokens(HundredsToks(x) + rest, total, 0) == EvalTokens(rest, total, x)
  {
    if x <= 99 {
      EvalChunk(x, rest, total, 0);
    } else {
      var h, c := x / 100, x % 100;
      var cs := ChunkToks(c);
      assert HundredsToks(x) + rest == [Number(h)] + ([Hundred] + (cs + rest));
      assert ([Number(h)] + ([Hundred] + (cs + rest)))[1..] == [Hundred] + (cs + rest);
      assert ([Hundred] + (cs + rest))[1..] == cs + rest;
      EvalChunk(c, rest, total, h * 100);
    }
  }

  /** The tokens of a million or thousand group. */
  function ScaledToks(present: bool, g: nat, scale: Token): seq<Token>
    requires g < 1000
  {
    if present then HundredsToks(g) + [scale] else []
  }

  /** The tokens of the last three digits. */
  function LastToks(h: nat): seq<Token>
    requires h < 1000
  {
    if h > 0 then HundredsToks(h) else []
  }

  lemma ScaledTokens(present: bool, g: nat, marker: string, scale: Token)
    requires g < 1000 && TokenOf(marker) == scale
    ensures Tokens(ScaledList(present, g, marker)) == ScaledToks(present, g, scale)
  {
    if present {
      HundredsTokens(g);
      TokensAppend(HundredsList(g), [marker]);
    }
  }

  lemma LastTokens(h: nat)
    requires h < 1000
    ensures Tokens(LastList(h)) == LastToks(h)
  {
    if h > 0 {
      HundredsTokens(h);
    }
  }

  /** The reader's tokens for `GroupList(w)`. */
  lemma GroupTokens(w: nat)
    requires w < 1_000_000_000
    ensures Tokens(GroupList(w)) ==
      ScaledToks(w >= 1_000_000, w / 1_000_000, Million)
      + ScaledToks(w % 1_000_000 >= 1000, (w % 1_000_000) / 1000, Thousand)
      + LastToks(w % 1000)
  {
    WholeDecomposition(w);
    ScaleTokens();
    var a := ScaledList(w >= 1_000_000, w / 1_000_000, "Million");
    var b := ScaledList(w % 1_000_000 >= 1000, (w % 1_000_000) / 1000, "Thousand");
    var c := LastList(w % 1000);
    TokensAppend(a + b, c);
    TokensAppend(a, b);
    ScaledTokens(w >= 1_000_000, w / 1_000_000, "Million", Million);
    ScaledTokens(w % 1_000_000 >= 1000, (w % 1_000_000) / 1000, "Thousand", Thousand);
    LastTokens(w % 1000);
  }

  /** A group and its scale word move `g * scale` into the total. */
  lemma EvalScaled(present: bool, g: nat, scale: Token, factor: int, rest: seq<Token>, total: int, after: int)
    requires g < 1000
    requires (scale == Million && factor == 1_000_000) || (scale == Thousand && factor == 1000)
    requires after == total + (if present then g * factor else 0)
    ensures EvalTokens(ScaledToks(present, g, scale) + rest, total, 0) == EvalTokens(rest, after, 0)
  {
    if present {
      var hs := HundredsToks(g);
      assert hs + [scale] + rest == hs + ([scale] + rest);
      EvalHundreds(g, [scale] + rest, total);
      assert ([scale] + rest)[1..] == rest;
    } else {
      assert ScaledToks(present, g, scale) + rest == rest;
    }
  }

  lemma EvalLast(h: nat, total: int)
    requires h < 1000
    ensures EvalTokens(LastToks(h), total, 0) == Some(total + h)
  {
    if h > 0 {
      EvalHundreds(h, [], total);
      assert HundredsToks(h) + [] == HundredsToks(h);
    }
  }

  /** The value read from the thousand group and the last three digits, on
      top of `total`. */
  lemma EvalTail(pt: bool, t: nat, h: nat, total: int)
    requires t < 1000 && h < 1000
    ensures EvalTokens(ScaledToks(pt, t, Thousand) + LastToks(h), total, 0)
         == Some(total + (if pt then t * 1000 else 0) + h)
  {
    var tt: int := if pt then t * 1000 else 0;
    EvalScaled(pt, t, Thousand, 1000, LastToks(h), total, total + tt);
    EvalLast(h, total + tt);
  }

  /** The value read from the three groups. */
  lemma EvalGroups(pm: bool, m: nat, pt: bool, t: nat, h: nat)
    requires m < 1000 && t < 1000 && h < 1000
    ensures EvalTokens(ScaledToks(pm, m, Million) + ScaledToks(pt, t, Thousand) + LastToks(h), 0, 0)
         == Some(GroupSum(pm, m, pt, t, h))
  {
    var la, rest := ScaledToks(pm, m, Million), ScaledToks(pt, t, Thousand) + LastToks(h);
    var tm: int := if pm then m * 1_000_000 else 0;
    assert la + ScaledToks(pt, t, Thousand) + LastToks(h) == la + rest;
    EvalScaled(pm, m, Million, 1_000_000, rest, 0, tm);
    EvalTail(pt, t, h, tm);
  }

  /** The groups of `w` read back as `w`. */
  lemma EvalGroupList(w: nat)
    requires w < 1_000_000_000
    ensures EvalTokens(Tokens(GroupList(w)), 0, 0) == Some(w)
  {
    WholeDecomposition(w);
    var pm, m, pt, t, h := w >= 1_000_000, w / 1_000_000, w % 1_000_000 >= 1000, (w % 1_000_000) / 1000, w % 1000;
    var ts := ScaledToks(pm, m, Million) + ScaledToks(pt, t, Thousand) + LastToks(h);
    GroupTokens(w);
    assert Tokens(GroupList(w)) == ts;
    EvalGroups(pm, m, pt, t, h);
    assert EvalTokens(ts, 0, 0) == Some(w);
  }

  // ---------------------------------------------------------------------
  // The round trip
  // ---------------------------------------------------------------------

  /** "Zero" alone does not read as a group, so it cannot be mistaken for
      the groups of a positive amount. */
  lemma ZeroIsNotAGroup()
    ensures EvalTokens(Tokens(["Zero"]), 0, 0) == None
  {
    SignWordsUnknown();
    assert Tokens(["Zero"])[0] == Unknown;
  }

  /** "Zero" and "Minus" are not words the reader knows inside a group. */
  lemma SignWordsUnknown()
    ensures TokenOf("Zero") == Unknown && TokenOf("Minus") == Unknown
  {
  }

  /** "Zero Dollars Only" reads as 0. */
  lemma ZeroPhrase()
    ensures DecodeWords("Zero Dollars Only") == Some(0)
  {
    ZeroWords();
    ZeroList();
  }

  lemma ZeroWords()
    ensures Words("Zero Dollars Only") == ["Zero", "Dollars", "Only"]
  {
    assert "Zero Dollars Only" == "Zero" + " " + ("Dollars" + " " + "Only");
    WordsCons("Zero", "Dollars" + " " + "Only");
    WordsCons("Dollars", "Only");
    WordsOfSingle("Only");
  }

  lemma ZeroList()
    ensures DecodeWordList(["Zero", "Dollars", "Only"]) == Some(0)
  {
    var ws := ["Zero", "Dollars", "Only"];
    assert ws[..|ws| - 2] == ["Zero"];
  }

  /** The phrase for a whole part w > 0 ends in "Dollars Only", and what
      comes before reads as w. */
  lemma PositivePhrase(w: nat)
    requires w < 1_000_000_000
    ensures EndsInDollarsOnly(Words(GroupWords(w) + " Dollars Only"))
    ensures DecodeAmount(Words(GroupWords(w) + " Dollars Only")) == Some(w)
    ensures DecodeWords(GroupWords(w) + " Dollars Only") == Some(w)
  {
    GroupWordsSplit(w);
    EvalGroupList(w);
    var ws := GroupList(w) + ["Dollars", "Only"];
    assert ws[..|ws| - 2] == GroupList(w);
    assert ws[|ws| - 2..] == ["Dollars", "Only"];
    ZeroIsNotAGroup();
  }

  /** The phrase for every whole part below 10^9 reads back as that whole
      part. */
  lemma PhrasesReadBack()
    ensures forall w: nat {:trigger GroupWords(w)} :: w < 1_000_000_000 ==>
      EndsInDollarsOnly(Words(GroupWords(w) + " Dollars Only")) &&
      DecodeAmount(Words(GroupWords(w) + " Dollars Only")) == Some(w)
  {
    forall w: nat | w < 1_000_000_000
      ensures EndsInDollarsOnly(Words(GroupWords(w) + " Dollars Only"))
      ensures DecodeAmount(Words(GroupWords(w) + " Dollars Only")) == Some(w)
    {
      PositivePhrase(w);
    }
  }

  /** A phrase that starts with "Minus" is not an unsigned amount, so the
      reader negates what follows. */
  lemma ReadMinus(ws: seq<string>, v: int)
    requires EndsInDollarsOnly(ws) && DecodeAmount(ws) == Some(v)
    ensures DecodeWordList(["Minus"] + ws) == Some(-v)
  {
    var all := ["Minus"] + ws;
    assert all[|all| - 2..] == ws[|ws| - 2..];
    var body := all[..|all| - 2];
    assert body == ["Minus"] + body[1..];
    SignWordsUnknown();
    assert Tokens(body)[0] == Unknown;
    assert all[1..] == ws;
  }

  /** The phrase of the magnitude of a negative amount ends in "Dollars
      Only" and reads as the whole part of that magnitude. */
  lemma MagnitudeReadsBack(n: real)
    requires -1_000_000_000.0 < n < 0.0
    ensures EndsInDollarsOnly(Words(NumberToWords(-n)))
    ensures DecodeAmount(Words(NumberToWords(-n))) == Some((-n).Floor)
  {
    PhrasesReadBack();
    assert NumberToWords(-n) == GroupWords((-n).Floor) + " Dollars Only";
  }

  /** The words of a negative amount are "Minus" and the words of its
      magnitude. */
  lemma NegativeWords(n: real)
    requires -1_000_000_000.0 < n < 0.0
    ensures Words(NumberToWords(n)) == ["Minus"] + Words(NumberToWords(-n))
  {
    assert NumberToWords(n) == "Minus" + " " + NumberToWords(-n);
    WordsCons("Minus", NumberToWords(-n));
  }

  /** "Minus" followed by the phrase of the magnitude reads as the negated
      whole part of the magnitude. */
  lemma MinusMagnitude(n: real)
    requires -1_000_000_000.0 < n < 0.0
    ensures DecodeWordList(["Minus"] + Words(NumberToWords(-n))) == Some(-((-n).Floor))
  {
    MagnitudeReadsBack(n);
    ReadMinus(Words(NumberToWords(-n)), (-n).Floor);
  }

  lemma NegativeRoundTrip(n: real)
    requires -1_000_000_000.0 < n < 0.0
    ensures DecodeWords(NumberToWords(n)) == Some(WholePart(n))
  {
    calc {
      DecodeWords(NumberToWords(n));
      DecodeWordList(Words(NumberToWords(n)));
      { NegativeWords(n); }
      DecodeWordList(["Minus"] + Words(NumberToWords(-n)));
      { MinusMagnitude(n); }
      Some(-((-n).Floor));
    }
  }

  lemma ZeroRoundTrip(n: real)
    requires n == 0.0
    ensures DecodeWords(NumberToWords(n)) == Some(WholePart(n))
  {
    assert NumberToWords(n) == "Zero Dollars Only";
    ZeroPhrase();
  }

  lemma PositiveRoundTrip(n: real)
    requires 0.0 < n < 1_000_000_000.0
    ensures DecodeWords(NumberToWords(n)) == Some(WholePart(n))
  {
    PhrasesReadBack();
    assert NumberToWords(n) == GroupWords(n.Floor) + " Dollars Only";
  }

  /** Round trip: reading back the words of `numberToWords(n)` gives the
      whole part of n, its sign included; the fraction is never spelled. */
  lemma WordsRoundTrip(n: real)
    requires -1_000_000_000.0 < n < 1_000_000_000.0
    ensures DecodeWords(NumberToWords(n)) == Some(WholePart(n))
  {
    if n < 0.0 {
      NegativeRoundTrip(n);
    } else if n == 0.0 {
      ZeroRoundTrip(n);
    } else {
      PositiveRoundTrip(n);
    }
  }

  /** Two positive amounts get the same words exactly when their whole
      parts agree. */
  lemma SameWordsIffSameWholePart(n: real, k: real)
    requires 0.0 < n < 1_000_000_000.0 && 0.0 < k < 1_000_000_000.0
    ensures NumberToWords(n) == NumberToWords(k) <==> n.Floor == k.Floor
  {
    WordsRoundTrip(n);
    WordsRoundTrip(k);
  }

  /** An amount strictly between 0 and 1 is spelled with no number at all,
      unlike 0 itself. */
  lemma BelowOneHasNoNumber(n: real)
    requires 0.0 < n < 1.0
    ensures NumberToWords(n) == " Dollars Only"
    ensures NumberToWords(n) != NumberToWords(0.0)
  {
    assert n.Floor == 0;
    assert GroupWords(0) == "";
  }

  // ---------------------------------------------------------------------
  // Where the scale words appear
  // ---------------------------------------------------------------------

  /** A word of the phrase shows up among the reader's tokens. */
  lemma TokenOfMember(ws: seq<string>, w: string)
    requires w in ws
    ensures TokenOf(w) in Tokens(ws)
  {
    var i :| 0 <= i < |ws| && ws[i] == w;
    assert Tokens(ws)[i] == TokenOf(w);
  }

  /** A group below 1000 holds no scale word. */
  lemma NoScaleInGroup(x: nat, marker: string)
    requires x < 1000 && (marker == "Million" || marker == "Thousand")
    ensures marker !in HundredsList(x)
  {
    ScaleTokens();
    HundredsTokens(x);
    if marker in HundredsList(x) {
      TokenOfMember(HundredsList(x), marker);
      assert false;
    }
  }

  /** Where the scale words can occur, for given groups. */
  lemma ScaleWordPlaces(pm: bool, m: nat, pt: bool, t: nat, h: nat)
    requires m < 1000 && t < 1000 && h < 1000
    ensures var ws := ScaledList(pm, m, "Million") + ScaledList(pt, t, "Thousand") + LastList(h) + ["Dollars", "Only"];
      ("Million" in ws <==> pm) && ("Thousand" in ws <==> pt)
  {
    NoScaleInGroup(m, "Million");
    NoScaleInGroup(m, "Thousand");
    NoScaleInGroup(t, "Million");
    NoScaleInGroup(t, "Thousand");
    NoScaleInGroup(h, "Million");
    NoScaleInGroup(h, "Thousand");
  }

  /** For n > 0 the "Million" group appears exactly when the whole part is at
      least 10^6, and the "Thousand" group exactly when the whole part modulo
      10^6 is at least 1000. */
  lemma ScaleWordsAppear(n: real)
    requires 0.0 < n < 1_000_000_000.0
    ensures "Million" in Words(NumberToWords(n)) <==> n.Floor >= 1_000_000
    ensures "Thousand" in Words(NumberToWords(n)) <==> n.Floor % 1_000_000 >= 1000
  {
    var w := n.Floor;
    GroupWordsSplit(w);
    WholeDecomposition(w);
    ScaleWordPlaces(w >= 1_000_000, w / 1_000_000, w % 1_000_000 >= 1000, (w % 1_000_000) / 1000, w % 1000);
  }
}
