/**
 * The pieces of Rust's standard library that `from_fen` leans on, written out:
 * `str::is_ascii`, `str::split_ascii_whitespace` and `str::parse` for a signed
 * integer type, each with the inverse it is meant to undo.
 */
module Text {
  import opened Wrappers

  /** `str::is_ascii`. */
  predicate IsAscii(s: string)
  {
    forall i | 0 <= i < |s| :: s[i] as int < 128
  }

  /** `u8::is_ascii_whitespace`: space, tab, line feed, form feed, carriage return (not vertical tab). */
  predicate IsAsciiWhitespace(c: char)
  {
    c == ' ' || c as int == 9 || c as int == 10 || c as int == 12 || c as int == 13
  }

  /** A word of `split_ascii_whitespace`: non-empty, without whitespace. */
  predicate IsWord(w: string)
  {
    w != [] && forall i | 0 <= i < |w| :: !IsAsciiWhitespace(w[i])
  }

  predicate NoWhitespace(w: string)
  {
    forall i | 0 <= i < |w| :: !IsAsciiWhitespace(w[i])
  }

  /** The words of `s`, the first of them continuing `word`. */
  function Words(s: string, word: string): (ws: seq<string>)
    requires NoWhitespace(word)
    ensures forall k | 0 <= k < |ws| :: IsWord(ws[k])
    decreases |s|
  {
    if s == [] then (if word == [] then [] else [word])
    else if IsAsciiWhitespace(s[0]) then (if word == [] then [] else [word]) + Words(s[1..], [])
    else Words(s[1..], word + [s[0]])
  }

  /** `split_ascii_whitespace`: the maximal runs of non-whitespace characters, in order. */
  function SplitWhitespace(s: string): (ws: seq<string>)
    ensures forall k | 0 <= k < |ws| :: IsWord(ws[k])
  {
    Words(s, [])
  }

  /** The words joined by single spaces: what `split_ascii_whitespace` takes apart. */
  function JoinWords(ws: seq<string>): string
  {
    if ws == [] then []
    else if |ws| == 1 then ws[0]
    else ws[0] + [' '] + JoinWords(ws[1..])
  }

  lemma {:induction false} WordsOfWord(w: string, rest: string, word: string)
    requires NoWhitespace(w) && NoWhitespace(word)
    ensures Words(w + rest, word) == Words(rest, word + w)
    decreases |w|
  {
    if w == [] {
      assert w + rest == rest;
      assert word + w == word;
    } else {
      assert (w + rest)[0] == w[0];
      assert (w + rest)[1..] == w[1..] + rest;
      WordsOfWord(w[1..], rest, word + [w[0]]);
      assert word + [w[0]] + w[1..] == word + w;
    }
  }

  lemma {:induction false} WordsJoin(ws: seq<string>, word: string)
    requires forall k | 0 <= k < |ws| :: IsWord(ws[k])
    requires NoWhitespace(word) && ws != []
    ensures Words(JoinWords(ws), word) == [word + ws[0]] + ws[1..]
    decreases |ws|
  {
    if |ws| == 1 {
      WordsOfWord(ws[0], [], word);
      assert ws[0] + [] == ws[0];
    } else {
      var rest := [' '] + JoinWords(ws[1..]);
      assert JoinWords(ws) == ws[0] + rest;
      WordsOfWord(ws[0], rest, word);
      assert rest[1..] == JoinWords(ws[1..]);
      WordsJoin(ws[1..], []);
      assert [] + ws[1..][0] == ws[1];
      assert [ws[1]] + ws[1..][1..] == ws[1..];
    }
  }

  /** Splitting words joined by spaces gives the words back. */
  lemma SplitJoin(ws: seq<string>)
    requires forall k | 0 <= k < |ws| :: IsWord(ws[k])
    ensures SplitWhitespace(JoinWords(ws)) == ws
  {
    if ws != [] {
      WordsJoin(ws, []);
      assert [] + ws[0] == ws[0];
    }
  }

  // ---------------------------------------------------------------------------
  // Integers

  predicate IsDigit(c: char)
  {
    '0' <= c <= '9'
  }

  function DigitValue(c: char): (d: nat)
    requires IsDigit(c)
    ensures d <= 9
  {
    c as int - '0' as int
  }

  predicate AllDigits(s: string)
  {
    forall i | 0 <= i < |s| :: IsDigit(s[i])
  }

  /** The value of a string of decimal digits, most significant first. */
  function DigitsValue(s: string): nat
    requires AllDigits(s)
  {
    if s == [] then 0 else DigitsValue(s[..|s| - 1]) * 10 + DigitValue(s[|s| - 1])
  }

  /**
   * `str::parse` for an integer type with range lo..hi: an optional sign, then
   * one or more decimal digits, and a value in range; anything else is an
   * error (None).
   */
  function ParseInt(s: string, lo: int, hi: int): (r: Option<int>)
    ensures r.Some? ==> lo <= r.value <= hi
    ensures s == [] || s == "+" || s == "-" ==> r.None?
  {
    if s == [] then None
    else
      var neg := s[0] == '-';
      var digits := if s[0] == '-' || s[0] == '+' then s[1..] else s;
      if digits == [] || !AllDigits(digits) then None
      else
        var v := if neg then 0 - DigitsValue(digits) as int else DigitsValue(digits) as int;
        if lo <= v <= hi then Some(v) else None
  }

  function DigitChar(d: nat): (c: char)
    requires d <= 9
    ensures IsDigit(c) && DigitValue(c) == d
  {
    ('0' as int + d) as char
  }

  /** Decimal digits of n, without leading zeros. */
  function ShowNat(n: nat): (s: string)
    ensures s != [] && AllDigits(s)
  {
    if n < 10 then [DigitChar(n)] else ShowNat(n / 10) + [DigitChar(n % 10)]
  }

  /** The decimal rendering of an integer, with '-' before a negative one. */
  function ShowInt(n: int): string
  {
    if n < 0 then ['-'] + ShowNat(-n) else ShowNat(n)
  }

  lemma {:induction false} DigitsShow(n: nat)
    ensures DigitsValue(ShowNat(n)) == n
  {
    if n >= 10 {
      var s := ShowNat(n);
      assert s[..|s| - 1] == ShowNat(n / 10);
      DigitsShow(n / 10);
    }
  }

  /** Parsing the rendering of an in-range integer gives it back. */
  lemma ParseShow(n: int, lo: int, hi: int)
    requires lo <= n <= hi
    ensures ParseInt(ShowInt(n), lo, hi) == Some(n)
  {
    var s := ShowInt(n);
    if n < 0 {
      var d := ShowNat(-n);
      assert s[0] == '-' && s[1..] == d;
      DigitsShow(-n);
      assert 0 - DigitsValue(d) as int == n;
    } else {
      var d := ShowNat(n);
      assert s == d && IsDigit(s[0]);
      DigitsShow(n);
    }
  }
}
