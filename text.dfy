/** String helpers with the meaning JavaScript gives them: `toLowerCase`,
    `includes`/`indexOf(..) > -1`, `startsWith`, `split`, and splitting a phrase
    into its space-separated words. */
module Text {
  import Seqs

  /** ASCII lower-casing of one character. */
  function LowerChar(c: char): char
  {
    if 'A' <= c <= 'Z' then (c as int + 32) as char else c
  }

  /** `s.toLowerCase()`, restricted to ASCII letters. */
  function Lower(s: string): (r: string)
    ensures |r| == |s|
    ensures forall i :: 0 <= i < |s| ==> r[i] == LowerChar(s[i])
  {
    seq(|s|, i requires 0 <= i < |s| => LowerChar(s[i]))
  }

  /** `s.includes(t)`: `t` occurs in `s` at some position (the empty string
      occurs everywhere). */
  predicate Contains(s: string, t: string)
  {
    exists i :: 0 <= i <= |s| && OccursAt(s, t, i)
  }

  /** `t` occurs in `s` starting at index `i`. */
  predicate OccursAt(s: string, t: string, i: nat)
  {
    i + |t| <= |s| && s[i..i + |t|] == t
  }

  /** `s.startsWith(p)`. */
  predicate StartsWith(s: string, p: string)
  {
    |p| <= |s| && s[..|p|] == p
  }

  /** Lower-casing twice is lower-casing once. */
  lemma LowerIdempotent(s: string)
    ensures Lower(Lower(s)) == Lower(s)
  {
  }

  /** The empty string is contained in every string. */
  lemma ContainsEmpty(s: string)
    ensures Contains(s, "")
  {
    assert OccursAt(s, "", 0);
  }

  /** Lower-casing works piece by piece. */
  lemma LowerAppend(s: string, u: string)
    ensures Lower(s + u) == Lower(s) + Lower(u)
  {
  }

  /** What occurs in a text still occurs once more text follows it. */
  lemma ContainsExtends(s: string, u: string, t: string)
    requires Contains(s, t)
    ensures Contains(s + u, t)
  {
    var i :| 0 <= i <= |s| && OccursAt(s, t, i);
    assert (s + u)[i..i + |t|] == s[i..i + |t|];
    assert OccursAt(s + u, t, i);
  }

  /** ASCII whitespace, the part of JavaScript's `\s` this model covers. */
  predicate IsSpace(c: char)
  {
    c == ' ' || c == '\t' || c == '\n' || c == '\r' || c == '\U{B}' || c == '\U{C}'
  }

  predicate IsDigit(c: char)
  {
    '0' <= c <= '9'
  }

  predicate NotSpace(c: char)
  {
    !IsSpace(c)
  }

  /** `s.replace(/\s+/g, '')`. */
  function RemoveSpaces(s: string): string
  {
    Seqs.Filter(s, NotSpace)
  }

  /** The test "is not `c`", as a value. */
  function Other(c: char): char -> bool
  {
    x => x != c
  }

  /** `s.replace(/c/g, '')` for a single character `c`. */
  function RemoveChar(s: string, c: char): string
  {
    Seqs.Filter(s, Other(c))
  }

  /** Removing a character that does not occur changes nothing. */
  lemma RemoveAbsentChar(s: string, c: char)
    requires c !in s
    ensures RemoveChar(s, c) == s
  {
    Seqs.FilterKeepsAll(s, Other(c));
  }

  /** Removing a character twice is removing it once. */
  lemma RemoveCharTwice(s: string, c: char)
    ensures RemoveChar(RemoveChar(s, c), c) == RemoveChar(s, c)
  {
    Seqs.FilterIdempotent(s, Other(c));
  }

  /** Removing a character distributes over concatenation. */
  lemma RemoveCharAppend(a: string, b: string, c: char)
    ensures RemoveChar(a + b, c) == RemoveChar(a, c) + RemoveChar(b, c)
  {
    Seqs.FilterAppend(a, b, Other(c));
  }

  /** `s.trim()` for ASCII whitespace. */
  function Trim(s: string): (r: string)
    ensures |r| <= |s|
    ensures forall i :: 0 <= i < |r| ==> r[i] in s
    ensures r != [] ==> !IsSpace(r[0]) && !IsSpace(r[|r| - 1])
    decreases |s|
  {
    if s == [] then []
    else if IsSpace(s[0]) then Trim(s[1..])
    else if IsSpace(s[|s| - 1]) then Trim(s[..|s| - 1])
    else s
  }

  /** `s.split(sep)` with `cur` the part read so far: every separator closes
      a part, so there is always one more part than separators. */
  function SplitFrom(s: string, sep: char, cur: string): (r: seq<string>)
    ensures |r| >= 1
    decreases |s|
  {
    if s == [] then [cur]
    else if s[0] == sep then [cur] + SplitFrom(s[1..], sep, "")
    else SplitFrom(s[1..], sep, cur + [s[0]])
  }

  function Split(s: string, sep: char): seq<string>
  {
    SplitFrom(s, sep, "")
  }

  lemma {:induction false} SplitAtSeparator(a: string, sep: char, b: string, cur: string)
    ensures SplitFrom(a + [sep] + b, sep, cur) == SplitFrom(a, sep, cur) + SplitFrom(b, sep, "")
    decreases |a|
  {
    if a == [] {
      assert a + [sep] + b == [sep] + b;
    } else {
      assert (a + [sep] + b)[1..] == a[1..] + [sep] + b;
      SplitAtSeparator(a[1..], sep, b, if a[0] == sep then "" else cur + [a[0]]);
    }
  }

  lemma {:induction false} SplitWithoutSeparator(w: string, sep: char, cur: string)
    requires sep !in w
    ensures SplitFrom(w, sep, cur) == [cur + w]
    decreases |w|
  {
    if w != [] {
      SplitWithoutSeparator(w[1..], sep, cur + [w[0]]);
      assert cur + [w[0]] + w[1..] == cur + w;
    } else {
      assert cur + w == cur;
    }
  }

  /** `"y-m-d".split('-')` is `[y, m, d]` when none of the three holds a dash. */
  lemma SplitThree(x: string, y: string, z: string, sep: char)
    requires sep !in x && sep !in y && sep !in z
    ensures Split(x + [sep] + y + [sep] + z, sep) == [x, y, z]
  {
    assert x + [sep] + y + [sep] + z == x + [sep] + (y + [sep] + z);
    SplitAtSeparator(x, sep, y + [sep] + z, "");
    SplitAtSeparator(y, sep, z, "");
    SplitWithoutSeparator(x, sep, "");
    SplitWithoutSeparator(y, sep, "");
    SplitWithoutSeparator(z, sep, "");
    assert "" + x == x && "" + y == y && "" + z == z;
  }

  /** The space-separated words of a phrase, runs of spaces counting as one
      separator (so doubled spaces produce no empty word). */
  function WordsFrom(s: string, cur: string): seq<string>
    decreases |s|
  {
    if s == [] then Flush(cur)
    else if s[0] == ' ' then Flush(cur) + WordsFrom(s[1..], "")
    else WordsFrom(s[1..], cur + [s[0]])
  }

  function Flush(cur: string): seq<string>
  {
    if cur == [] then [] else [cur]
  }

  function Words(s: string): seq<string>
  {
    WordsFrom(s, "")
  }

  lemma {:induction false} WordsAtSpace(a: string, b: string, cur: string)
    ensures WordsFrom(a + " " + b, cur) == WordsFrom(a, cur) + Words(b)
    decreases |a|
  {
    if a == [] {
      assert a + " " + b == " " + b;
    } else {
      assert (a + " " + b)[1..] == a[1..] + " " + b;
      WordsAtSpace(a[1..], b, if a[0] == ' ' then "" else cur + [a[0]]);
    }
  }

  lemma {:induction false} WordsOfWord(w: string, cur: string)
    requires ' ' !in w
    ensures WordsFrom(w, cur) == Flush(cur + w)
    decreases |w|
  {
    if w != [] {
      WordsOfWord(w[1..], cur + [w[0]]);
      assert cur + [w[0]] + w[1..] == cur + w;
    } else {
      assert cur + w == cur;
    }
  }

  /** Joining two phrases at a space boundary joins their word lists. */
  lemma WordsJoin(a: string, b: string)
    requires a == [] || b == [] || a[|a| - 1] == ' ' || b[0] == ' '
    ensures Words(a + b) == Words(a) + Words(b)
  {
    if a == [] {
      assert a + b == b;
    } else if b == [] {
      assert a + b == a;
      assert Words(b) == [] by { assert WordsFrom(b, "") == Flush(""); }
    } else if a[|a| - 1] == ' ' {
      var a' := a[..|a| - 1];
      assert a + b == a' + " " + b;
      assert a == a' + " " + "";
      WordsAtSpace(a', b, "");
      WordsAtSpace(a', "", "");
      assert Words("") == [];
    } else {
      var b' := b[1..];
      assert a + b == a + " " + b';
      assert b == "" + " " + b';
      WordsAtSpace(a, b', "");
      WordsAtSpace("", b', "");
      assert WordsFrom("", "") == [];
    }
  }

  /** A single word without spaces is its own word list. */
  lemma WordsOfSingle(w: string)
    requires w != [] && ' ' !in w
    ensures Words(w) == [w]
  {
    WordsOfWord(w, "");
    assert "" + w == w;
  }
}
