/** Character-level helpers: ASCII case folding (`to_uppercase` and the `(?i)`
    flag restricted to ASCII), `str::split_whitespace` and the decimal
    `str::parse::<usize>`. */
module Text {
  import opened Wrappers

  /** ASCII upper-casing of one character; every other character is kept. */
  function Upper(c: char): (u: char)
    ensures 'a' <= c <= 'z' ==> u as int == c as int - 32
    ensures !('a' <= c <= 'z') ==> u == c
  {
    if 'a' <= c <= 'z' then (c as int - 32) as char else c
  }

  /** `s.to_uppercase()`, character by character. */
  function ToUpper(s: string): (u: string)
    ensures |u| == |s|
    ensures forall i :: 0 <= i < |s| ==> u[i] == Upper(s[i])
  {
    if s == [] then [] else [Upper(s[0])] + ToUpper(s[1..])
  }

  /** Case-insensitive equality of two characters, as `(?i)` compares them. */
  predicate SameLetter(c: char, d: char)
  {
    Upper(c) == Upper(d)
  }

  lemma ToUpperIdempotent(s: string)
    ensures ToUpper(ToUpper(s)) == ToUpper(s)
  {
  }

  lemma ToUpperAppend(a: string, b: string)
    ensures ToUpper(a + b) == ToUpper(a) + ToUpper(b)
  {
  }

  /** A string with no lower-case ASCII letter is its own upper-case form. */
  lemma ToUpperOfUpper(s: string)
    requires forall i :: 0 <= i < |s| ==> !('a' <= s[i] <= 'z')
    ensures ToUpper(s) == s
  {
  }

  /** The Unicode White_Space property, which `split_whitespace` splits on. */
  predicate IsWhitespace(c: char)
  {
    || '\t' <= c <= '\r'
    || c == ' '
    || c == '\U{0085}'
    || c == '\U{00A0}'
    || c == '\U{1680}'
    || '\U{2000}' <= c <= '\U{200A}'
    || c == '\U{2028}'
    || c == '\U{2029}'
    || c == '\U{202F}'
    || c == '\U{205F}'
    || c == '\U{3000}'
  }

  predicate NoWhitespace(w: string)
  {
    forall i :: 0 <= i < |w| ==> !IsWhitespace(w[i])
  }

  /** The longest prefix of `s` without whitespace. */
  function WordPrefix(s: string): (w: string)
    ensures w <= s && NoWhitespace(w)
    ensures |w| < |s| ==> IsWhitespace(s[|w|])
  {
    if s == [] || IsWhitespace(s[0]) then [] else [s[0]] + WordPrefix(s[1..])
  }

  /** `s.split_whitespace()`: the maximal runs of non-whitespace characters,
      left to right. */
  function SplitWhitespace(s: string): (words: seq<string>)
    ensures forall k :: 0 <= k < |words| ==> words[k] != [] && NoWhitespace(words[k])
    decreases |s|
  {
    if s == [] then []
    else if IsWhitespace(s[0]) then SplitWhitespace(s[1..])
    else
      var w := WordPrefix(s);
      [w] + SplitWhitespace(s[|w|..])
  }

  lemma WordPrefixBeforeSpace(a: string, c: char, b: string)
    requires IsWhitespace(c)
    ensures WordPrefix(a + [c] + b) == WordPrefix(a)
  {
    if a != [] && !IsWhitespace(a[0]) {
      assert (a + [c] + b)[1..] == a[1..] + [c] + b;
      WordPrefixBeforeSpace(a[1..], c, b);
    }
  }

  /** Splitting is compositional across a whitespace character. */
  lemma {:induction false} SplitAcrossSpace(a: string, c: char, b: string)
    requires IsWhitespace(c)
    ensures SplitWhitespace(a + [c] + b) == SplitWhitespace(a) + SplitWhitespace(b)
    decreases |a|
  {
    var s := a + [c] + b;
    if a == [] {
      assert s[1..] == b;
    } else if IsWhitespace(a[0]) {
      assert s[1..] == a[1..] + [c] + b;
      SplitAcrossSpace(a[1..], c, b);
    } else {
      WordPrefixBeforeSpace(a, c, b);
      var w := WordPrefix(a);
      assert s[|w|..] == a[|w|..] + [c] + b;
      SplitAcrossSpace(a[|w|..], c, b);
    }
  }

  /** A non-empty whitespace-free string splits into itself. */
  lemma {:induction false} SplitWord(w: string)
    requires w != [] && NoWhitespace(w)
    ensures SplitWhitespace(w) == [w]
  {
    WordPrefixWhole(w);
    assert w[|w|..] == [];
  }

  lemma {:induction false} WordPrefixWhole(w: string)
    requires NoWhitespace(w)
    ensures WordPrefix(w) == w
  {
    if w != [] {
      WordPrefixWhole(w[1..]);
    }
  }

  predicate IsDigit(c: char)
  {
    '0' <= c <= '9'
  }

  function DigitValue(c: char): (d: nat)
    requires IsDigit(c)
    ensures d < 10
  {
    c as int - '0' as int
  }

  /** `s.parse::<usize>()` on decimal digits: a non-empty run of ASCII digits
      parses, read most significant digit first; anything else is rejected. */
  function ParseDecimal(s: string): (r: Option<nat>)
    ensures r.Some? <==> s != [] && forall i :: 0 <= i < |s| ==> IsDigit(s[i])
    decreases |s|
  {
    if s == [] || !IsDigit(s[|s| - 1]) then None
    else if |s| == 1 then Some(DigitValue(s[0]))
    else
      match ParseDecimal(s[..|s| - 1])
      case None => None
      case Some(n) => Some(10 * n + DigitValue(s[|s| - 1]))
  }

  function DigitChar(d: nat): (c: char)
    requires d < 10
    ensures IsDigit(c) && DigitValue(c) == d
  {
    ('0' as int + d) as char
  }

  /** The decimal notation of `n`, without leading zeros. */
  function ShowDecimal(n: nat): (s: string)
    ensures s != [] && forall i :: 0 <= i < |s| ==> IsDigit(s[i])
    decreases n
  {
    if n < 10 then [DigitChar(n)] else ShowDecimal(n / 10) + [DigitChar(n % 10)]
  }

  /** Parsing reads back every number written in decimal. */
  lemma {:induction false} ParseShow(n: nat)
    ensures ParseDecimal(ShowDecimal(n)) == Some(n)
    decreases n
  {
    if n >= 10 {
      ParseShow(n / 10);
      var s := ShowDecimal(n);
      assert s[..|s| - 1] == ShowDecimal(n / 10);
    }
  }

  /** The talon and teammate values of the notation. */
  lemma ParseExamples()
    ensures ParseDecimal("12") == Some(12) && ParseDecimal("1") == Some(1) && ParseDecimal("2") == Some(2)
    ensures ParseDecimal("-") == None && ParseDecimal("") == None
  {
    assert "12"[..1] == "1";
  }
}
