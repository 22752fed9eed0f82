/** The number formatter shared by every page: the display value of an
    amount, the day/month/year rendering of an ISO date, and the English
    words for the whole part of an amount ("... Dollars Only"). */
module Utils {
  import opened Wrappers
  import opened Text

  /** `money(n)`: the amount displayed for `n`; a value that is not finite
      is displayed as 0. The two-decimal text of `toFixed(2)` is not modelled. */
  function Money(n: Option<real>): (r: real)
    ensures n.None? ==> r == 0.0
    ensures n.Some? ==> r == n.value
  {
    n.GetOr(0.0)
  }

  /** The `k`-th element of a destructured `split` result; JavaScript
      interpolates a missing element as "undefined". */
  function Part(parts: seq<string>, k: nat): string
  {
    if k < |parts| then parts[k] else "undefined"
  }

  /** `formatDate(dateStr)`: "" stays "", otherwise `y-m-d` becomes `d/m/y`. */
  function FormatDate(dateStr: string): (r: string)
    ensures dateStr == "" <==> r == ""
  {
    if dateStr == "" then ""
    else
      var parts := Split(dateStr, '-');
      Part(parts, 2) + "/" + Part(parts, 1) + "/" + Part(parts, 0)
  }

  /** An ISO date `y-m-d` is shown as `d/m/y`. */
  lemma FormatDateOfIso(y: string, m: string, d: string)
    requires '-' !in y && '-' !in m && '-' !in d
    ensures FormatDate(y + "-" + m + "-" + d) == d + "/" + m + "/" + y
  {
    assert y + "-" + m + "-" + d == y + ['-'] + m + ['-'] + d;
    SplitThree(y, m, d, '-');
  }

  /** Text without a dash keeps its place as the year, the missing day and
      month print as "undefined". */
  lemma FormatDateWithoutDash(s: string)
    requires s != "" && '-' !in s
    ensures FormatDate(s) == "undefined/undefined/" + s
  {
    SplitWithoutSeparator(s, '-', "");
    assert "" + s == s;
  }

  const Ones: seq<string> := ["", "One", "Two", "Three", "Four", "Five", "Six", "Seven", "Eight", "Nine", "Ten",
                              "Eleven", "Twelve", "Thirteen", "Fourteen", "Fifteen", "Sixteen", "Seventeen",
                              "Eighteen", "Nineteen"]
  const Tens: seq<string> := ["", "", "Twenty", "Thirty", "Forty", "Fifty", "Sixty", "Seventy", "Eighty", "Ninety"]

  /** `convertChunk(x)` for 0 <= x < 100. */
  function ConvertChunk(x: nat): string
    requires x < 100
  {
    if x < 20 then Ones[x]
    else Tens[x / 10] + (if x % 10 > 0 then " " + Ones[x % 10] else "")
  }

  /** `convertHundreds(x)` for 0 <= x < 1000. */
  function ConvertHundreds(x: nat): string
    requires x < 1000
  {
    if x > 99 then Ones[x / 100] + " Hundred" + (if x % 100 > 0 then " " + ConvertChunk(x % 100) else "")
    else ConvertChunk(x)
  }

  /** A million or thousand group as `numberToWords` appends it to `str`:
      the group's words and the scale word, or nothing when the group is
      skipped. */
  function ScaledGroup(present: bool, g: nat, scale: string): string
    requires g < 1000
  {
    if present then ConvertHundreds(g) + " " + scale + " " else ""
  }

  /** The last three digits as `numberToWords` appends them to `str`. */
  function LastGroup(h: nat): string
    requires h < 1000
  {
    if h > 0 then ConvertHundreds(h) else ""
  }

  /** The words `numberToWords` accumulates in `str` for the whole part `w`:
      the million group, the thousand group, then the last three digits. */
  function GroupWords(w: nat): string
    requires w < 1_000_000_000
  {
    ScaledGroup(w >= 1_000_000, w / 1_000_000, "Million")
    + ScaledGroup(w % 1_000_000 >= 1000, (w % 1_000_000) / 1000, "Thousand")
    + LastGroup(w % 1000)
  }

  /** `numberToWords(n)`. From 10^9 on the million group has more than
      three digits and no longer reads as a number, so the whole part is
      required to stay below that bound. */
  function NumberToWords(n: real): string
    requires -1_000_000_000.0 < n < 1_000_000_000.0
    decreases if n < 0.0 then 1 else 0
  {
    if n < 0.0 then "Minus " + NumberToWords(-n)
    else if n == 0.0 then "Zero Dollars Only"
    else GroupWords(n.Floor) + " Dollars Only"
  }

  /** The three shapes of `numberToWords`: zero has its own phrase, a
      negative amount is "Minus " and the words of its magnitude, and a
      positive amount ends in " Dollars Only" with its fraction ignored
      from 1 on. */
  lemma NumberToWordsCases(n: real)
    requires -1_000_000_000.0 < n < 1_000_000_000.0
    ensures n == 0.0 ==> NumberToWords(n) == "Zero Dollars Only"
    ensures n < 0.0 ==> NumberToWords(n) == "Minus " + NumberToWords(-n)
    ensures n > 0.0 ==> |NumberToWords(n)| >= 13 && NumberToWords(n)[|NumberToWords(n)| - 13..] == " Dollars Only"
    ensures n >= 1.0 ==> NumberToWords(n) == NumberToWords(n.Floor as real)
  {
    if n > 0.0 {
      var g := GroupWords(n.Floor);
      assert NumberToWords(n) == g + " Dollars Only";
      assert (g + " Dollars Only")[|g|..] == " Dollars Only";
    }
  }
  /** Worked value: one. */
  lemma OneExample()
    ensures NumberToWords(1.0) == "One Dollars Only"
  {
    assert 1 / 1_000_000 == 0 && 1 % 1_000_000 == 1 && 1 / 1000 == 0 && 1 % 1000 == 1;
    assert GroupWords(1) == "One";
  }

  /** Worked value: twenty-one, a tens word and a ones word. */
  lemma TwentyOneExample()
    ensures NumberToWords(21.0) == "Twenty One Dollars Only"
  {
    assert 21 / 1_000_000 == 0 && 21 % 1_000_000 == 21 && 21 / 1000 == 0 && 21 % 1000 == 21;
    assert 21 / 10 == 2 && 21 % 10 == 1;
    assert GroupWords(21) == "Twenty One";
  }

  /** Worked value: a hundred. */
  lemma HundredExample()
    ensures NumberToWords(100.0) == "One Hundred" + " Dollars Only"
  {
    assert (100.0).Floor == 100;
    HundredGroups();
  }

  lemma HundredGroups()
    ensures GroupWords(100) == "One Hundred"
  {
    assert 100 / 1_000_000 == 0 && 100 % 1_000_000 == 100 && 100 / 1000 == 0 && 100 % 1000 == 100;
    assert ScaledGroup(false, 0, "Million") == "" && ScaledGroup(false, 0, "Thousand") == "";
    OneHundredWords();
  }

  lemma OneHundredWords()
    ensures ConvertHundreds(100) == "One Hundred"
  {
    assert 100 / 100 == 1 && 100 % 100 == 0;
  }

  /** Worked value: a thousand group followed by hundreds. */
  lemma FifteenHundredExample()
    ensures NumberToWords(1500.0) == "One Thousand Five Hundred" + " Dollars Only"
  {
    FifteenHundredGroups();
  }

  lemma FifteenHundredGroups()
    ensures GroupWords(1500) == "One Thousand Five Hundred"
  {
    assert 1500 / 1_000_000 == 0 && 1500 % 1_000_000 == 1500 && 1500 / 1000 == 1 && 1500 % 1000 == 500;
    assert ScaledGroup(true, 1, "Thousand") == "One Thousand ";
    FiveHundredGroup();
  }

  lemma FiveHundredGroup()
    ensures LastGroup(500) == "Five Hundred"
  {
    assert 500 / 100 == 5 && 500 % 100 == 0;
  }

  /** Worked value: a round thousand, whose empty last group leaves two
      spaces before "Dollars". */
  lemma ThousandExample()
    ensures NumberToWords(1000.0) == "One Thousand " + " Dollars Only"
  {
    ThousandGroups();
  }

  lemma ThousandGroups()
    ensures GroupWords(1000) == "One Thousand "
  {
    assert 1000 / 1_000_000 == 0 && 1000 % 1_000_000 == 1000 && 1000 / 1000 == 1 && 1000 % 1000 == 0;
    assert ScaledGroup(true, 1, "Thousand") == "One Thousand ";
  }

  /** Worked value: a negative amount. */
  lemma NegativeExample()
    ensures NumberToWords(-5.0) == "Minus " + "Five" + " Dollars Only"
  {
    FiveExample();
  }

  lemma FiveExample()
    ensures NumberToWords(5.0) == "Five" + " Dollars Only"
  {
    assert 5 / 1_000_000 == 0 && 5 % 1_000_000 == 5 && 5 / 1000 == 0 && 5 % 1000 == 5;
    assert GroupWords(5) == "Five";
  }
}
