/**
  The handful of Python `str` operations the library relies on, stated over
  `string` (a sequence of Unicode scalar values): whitespace classification,
  `split()`, `strip()`, `join`, prefix and substring tests, `s[:n]`, and the
  ASCII part of `lower()`, `upper()` and `capitalize()`.
 */
module Text {

  import opened Base

  /** Python's `str.isspace()` for a single character. */
  predicate IsSpace(c: char) {
    || c == ' ' || c == '\t' || c == '\n' || c == '\r'
    || c == '\U{000B}' || c == '\U{000C}'
    || ('\U{001C}' <= c <= '\U{001F}')
    || c == '\U{0085}' || c == '\U{00A0}' || c == '\U{1680}'
    || ('\U{2000}' <= c <= '\U{200A}')
    || c == '\U{2028}' || c == '\U{2029}' || c == '\U{202F}'
    || c == '\U{205F}' || c == '\U{3000}'
  }

  /** A word as `str.split()` produces it: non-empty, no whitespace. */
  predicate IsWord(w: string) {
    |w| > 0 && forall i :: 0 <= i < |w| ==> !IsSpace(w[i])
  }

  /** `s.lstrip()`: drop the leading whitespace. */
  function DropSpaces(s: string): (r: string)
    ensures |r| <= |s| && r == s[|s| - |r|..]
    ensures |r| > 0 ==> !IsSpace(r[0])
    ensures forall i :: 0 <= i < |s| - |r| ==> IsSpace(s[i])
  {
    if |s| > 0 && IsSpace(s[0]) then DropSpaces(s[1..]) else s
  }

  /** The longest whitespace-free prefix of `s`. */
  function TakeWord(s: string): (w: string)
    ensures w <= s
    ensures forall i :: 0 <= i < |w| ==> !IsSpace(w[i])
    ensures |w| < |s| ==> IsSpace(s[|w|])
  {
    if |s| > 0 && !IsSpace(s[0]) then [s[0]] + TakeWord(s[1..]) else []
  }

  /** Python's `s.split()` with no separator: the maximal runs of
      non-whitespace characters, in order. */
  function Split(s: string): (ws: seq<string>)
    ensures forall i :: 0 <= i < |ws| ==> IsWord(ws[i])
    decreases |s|
  {
    var t := DropSpaces(s);
    if |t| == 0 then []
    else
      var w := TakeWord(t);
      [w] + Split(t[|w|..])
  }

  /** `len(s.split())`, the word count the mock and Hugging Face facades
      report as token usage. */
  function WordCount(s: string): nat {
    |Split(s)|
  }

  /** `''.join(parts)`. */
  function Concat(parts: seq<string>): string {
    if |parts| == 0 then "" else parts[0] + Concat(parts[1..])
  }

  /** `sep.join(parts)`. */
  function Join(sep: string, parts: seq<string>): string {
    if |parts| == 0 then ""
    else if |parts| == 1 then parts[0]
    else parts[0] + sep + Join(sep, parts[1..])
  }

  /** Each word followed by one space, concatenated: what a consumer collects
      from a stream that yields `word + " "` per word. */
  function Spaced(ws: seq<string>): string {
    if |ws| == 0 then "" else ws[0] + " " + Spaced(ws[1..])
  }

  /** The characters of `s` that are not whitespace, in order. */
  function NonSpace(s: string): string {
    if |s| == 0 then ""
    else if IsSpace(s[0]) then NonSpace(s[1..])
    else [s[0]] + NonSpace(s[1..])
  }

  /** `s.rstrip()`. */
  function StripRight(s: string): (r: string)
    ensures r <= s
    ensures |r| > 0 ==> !IsSpace(r[|r| - 1])
    ensures forall i :: |r| <= i < |s| ==> IsSpace(s[i])
  {
    if |s| > 0 && IsSpace(s[|s| - 1]) then StripRight(s[..|s| - 1]) else s
  }

  /** `s.strip()`. */
  function Strip(s: string): (r: string)
    ensures |r| > 0 ==> !IsSpace(r[0]) && !IsSpace(r[|r| - 1])
  {
    StripRight(DropSpaces(s))
  }

  /** `s.startswith(p)`. */
  predicate StartsWith(s: string, p: string) {
    p <= s
  }

  /** Python's substring test `sub in s`. */
  predicate Contains(s: string, sub: string)
    decreases |s|
  {
    sub <= s || (|s| > 0 && Contains(s[1..], sub))
  }

  /** `s[:n]` for a non-negative `n`. */
  function Take(s: string, n: nat): (r: string)
    ensures |r| == if n <= |s| then n else |s|
    ensures r <= s
  {
    if n <= |s| then s[..n] else s
  }

  /** The index of the first occurrence of `c` in `s`, if any. */
  function Find(s: string, c: char): (r: Option<nat>)
    ensures r.Some? ==> r.value < |s| && s[r.value] == c
    ensures r.Some? ==> forall i :: 0 <= i < r.value ==> s[i] != c
    ensures r.None? ==> forall i :: 0 <= i < |s| ==> s[i] != c
  {
    if |s| == 0 then None
    else if s[0] == c then Some(0)
    else match Find(s[1..], c)
      case None => None
      case Some(i) => Some(i + 1)
  }

  function LowerChar(c: char): char {
    if 'A' <= c <= 'Z' then (c as int + 32) as char else c
  }

  function UpperChar(c: char): char {
    if 'a' <= c <= 'z' then (c as int - 32) as char else c
  }

  /** `s.lower()` on ASCII letters. */
  function Lower(s: string): (r: string)
    ensures |r| == |s|
    ensures forall i :: 0 <= i < |s| ==> r[i] == LowerChar(s[i])
  {
    seq(|s|, i requires 0 <= i < |s| => LowerChar(s[i]))
  }

  /** `s.upper()` on ASCII letters. */
  function Upper(s: string): (r: string)
    ensures |r| == |s|
    ensures forall i :: 0 <= i < |s| ==> r[i] == UpperChar(s[i])
  {
    seq(|s|, i requires 0 <= i < |s| => UpperChar(s[i]))
  }

  /** `s.capitalize()` on ASCII letters: first character upper case, the rest
      lower case. */
  function Capitalize(s: string): (r: string)
    ensures |r| == |s|
  {
    if |s| == 0 then "" else [UpperChar(s[0])] + Lower(s[1..])
  }

  /** Decimal rendering of an integer, as Python's `str(n)`. */
  function IntToString(n: int): string
    decreases if n < 0 then 1 - n else n
  {
    if n < 0 then "-" + IntToString(-n)
    else if n < 10 then [('0' as int + n) as char]
    else IntToString(n / 10) + [('0' as int + n % 10) as char]
  }

  // ---------------------------------------------------------------------
  // Properties of `split()`.

  lemma DropSpacesLeadingSpace(c: char, s: string)
    requires IsSpace(c)
    ensures DropSpaces([c] + s) == DropSpaces(s)
  {
    assert ([c] + s)[1..] == s;
  }

  lemma {:induction false} TakeWordOfWordThenSpace(w: string, rest: string)
    requires forall i :: 0 <= i < |w| ==> !IsSpace(w[i])
    requires |rest| > 0 && IsSpace(rest[0])
    ensures TakeWord(w + rest) == w
    decreases |w|
  {
    if |w| == 0 {
      assert w + rest == rest;
    } else {
      var s := w + rest;
      assert s[0] == w[0];
      assert s[1..] == w[1..] + rest;
      forall i | 0 <= i < |w[1..]| ensures !IsSpace(w[1..][i]) {
        assert w[1..][i] == w[i + 1];
      }
      TakeWordOfWordThenSpace(w[1..], rest);
      assert TakeWord(s) == [w[0]] + w[1..];
      assert [w[0]] + w[1..] == w;
    }
  }

  /** A word followed by a space splits off as the first word. */
  lemma SplitWordSpace(w: string, rest: string)
    requires IsWord(w)
    ensures Split(w + (" " + rest)) == [w] + Split(rest)
  {
    var s := w + (" " + rest);
    assert !IsSpace(s[0]);
    assert DropSpaces(s) == s;
    TakeWordOfWordThenSpace(w, " " + rest);
    assert s[|w|..] == [' '] + rest;
    DropSpacesLeadingSpace(' ', rest);
  }

  /** Splitting the concatenation of `word + " "` fragments gives back the
      words: a whitespace-separated stream re-splits to the same words. */
  lemma {:induction false} SplitSpaced(ws: seq<string>)
    requires forall i :: 0 <= i < |ws| ==> IsWord(ws[i])
    ensures Split(Spaced(ws)) == ws
  {
    if |ws| > 0 {
      var rest := Spaced(ws[1..]);
      assert Spaced(ws) == ws[0] + (" " + rest);
      SplitWordSpace(ws[0], rest);
      SplitSpaced(ws[1..]);
      assert [ws[0]] + ws[1..] == ws;
    }
  }

  /** Re-splitting the stream rendering of `s`'s words gives `s`'s words:
      the streamed text carries exactly the words of the whole text. */
  lemma SplitSpacedSplit(s: string)
    ensures Split(Spaced(Split(s))) == Split(s)
    ensures WordCount(Spaced(Split(s))) == WordCount(s)
  {
    SplitSpaced(Split(s));
  }

  lemma {:induction false} NonSpaceDropSpaces(s: string)
    ensures NonSpace(DropSpaces(s)) == NonSpace(s)
    decreases |s|
  {
    if |s| > 0 && IsSpace(s[0]) {
      NonSpaceDropSpaces(s[1..]);
    }
  }

  lemma {:induction false} NonSpaceWordThenRest(s: string)
    ensures NonSpace(s) == TakeWord(s) + NonSpace(s[|TakeWord(s)|..])
    decreases |s|
  {
    if |s| > 0 && !IsSpace(s[0]) {
      var w := TakeWord(s[1..]);
      assert TakeWord(s) == [s[0]] + w;
      NonSpaceWordThenRest(s[1..]);
      assert s[1..][|w|..] == s[|w| + 1..];
      assert NonSpace(s) == [s[0]] + (w + NonSpace(s[|w| + 1..]));
    }
  }

  /** The words of `split()` are exactly the non-whitespace characters of the
      input, in order, cut into pieces: nothing is lost, reordered or added. */
  lemma {:induction false} SplitKeepsNonSpace(s: string)
    ensures Concat(Split(s)) == NonSpace(s)
    decreases |s|
  {
    var t := DropSpaces(s);
    NonSpaceDropSpaces(s);
    if |t| == 0 {
    } else {
      var w := TakeWord(t);
      SplitKeepsNonSpace(t[|w|..]);
      NonSpaceWordThenRest(t);
      assert Split(s) == [w] + Split(t[|w|..]);
      assert Concat(Split(s)) == w + Concat(Split(t[|w|..]));
    }
  }

  /** A text with no whitespace at all is one word (or none when empty). */
  lemma SplitOfWord(w: string)
    requires IsWord(w)
    ensures Split(w) == [w]
  {
    assert DropSpaces(w) == w;
    TakeWordAll(w);
    assert w[|w|..] == "";
  }

  lemma {:induction false} TakeWordAll(w: string)
    requires forall i :: 0 <= i < |w| ==> !IsSpace(w[i])
    ensures TakeWord(w) == w
    decreases |w|
  {
    if |w| > 0 {
      TakeWordAll(w[1..]);
      assert [w[0]] + w[1..] == w;
    }
  }

  // ---------------------------------------------------------------------
  // Properties of the case mappings.

  lemma LowerIdempotent(s: string)
    ensures Lower(Lower(s)) == Lower(s)
  {
  }

  lemma LowerUpperLower(s: string)
    ensures Lower(Upper(s)) == Lower(s)
  {
  }
}
