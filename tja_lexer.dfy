/** The character-level pieces the chart grammar is built from, in the
    manner of nom's `multispace0`, `space0`, `not_line_ending`,
    `line_ending`, `tag` and `digit1`. Each consumes a prefix of its input
    and hands back the rest. */
module TjaLexer {
  import opened Wrappers
  import opened TjaTypes

  /** `rest` is what is left of `s` after a prefix has been consumed. */
  predicate IsSuffix(rest: string, s: string) {
    |rest| <= |s| && rest == s[|s| - |rest|..]
  }

  lemma Associative(a: string, b: string, c: string)
    ensures (a + b) + c == a + (b + c)
  {
  }

  lemma SuffixTransitive(a: string, b: string, c: string)
    requires IsSuffix(a, b) && IsSuffix(b, c)
    ensures IsSuffix(a, c)
  {
    assert c[|c| - |b|..][|b| - |a|..] == c[|c| - |a|..];
  }

  /** Blanks within a line (nom's `space0`). */
  predicate IsSpace(c: char) { c == ' ' || c == '\t' }

  /** Blanks and line breaks (nom's `multispace0`). */
  predicate IsWhitespace(c: char) { c == ' ' || c == '\t' || c == '\r' || c == '\n' }

  /** Characters that do not end a line (nom's `not_line_ending`). */
  predicate IsLineChar(c: char) { c != '\r' && c != '\n' }

  /** Every character of `s[..n]` satisfies `p`. */
  predicate AllDigits(s: string) {
    forall i :: 0 <= i < |s| ==> IsDigit(s[i])
  }

  /** Length of the longest prefix of `s` whose characters all satisfy `p`. */
  function Span(p: char -> bool, s: string): (n: nat)
    ensures n <= |s|
    ensures forall i :: 0 <= i < n ==> p(s[i])
    ensures n == |s| || !p(s[n])
  {
    if |s| > 0 && p(s[0]) then 1 + Span(p, s[1..]) else 0
  }

  /** `s` without its longest prefix of characters satisfying `p`. */
  function SkipWhile(p: char -> bool, s: string): (r: string)
    ensures IsSuffix(r, s)
    ensures r == [] || !p(r[0])
  {
    s[Span(p, s)..]
  }

  /** Maximal munch: the span of `a + b` is `a` when every character of `a`
      satisfies `p` and `b` does not start with one that does. */
  lemma SpanOfConcat(p: char -> bool, a: string, b: string)
    requires forall i :: 0 <= i < |a| ==> p(a[i])
    requires b == [] || !p(b[0])
    ensures Span(p, a + b) == |a|
    ensures SkipWhile(p, a + b) == b
  {
    assert (a + b)[|a|..] == b;
  }

  /** Nothing is skipped when the first character does not satisfy `p`. */
  lemma SkipNone(p: char -> bool, s: string)
    requires |s| > 0 && !p(s[0])
    ensures SkipWhile(p, s) == s
  {
    assert Span(p, s) == 0;
  }

  /** Skipping is not changed by more skippable characters in front. */
  lemma {:induction false} SkipPrefix(p: char -> bool, w: string, s: string)
    requires forall i :: 0 <= i < |w| ==> p(w[i])
    ensures SkipWhile(p, w + s) == SkipWhile(p, s)
    decreases |w|
  {
    var ws := w + s;
    if w == [] {
      assert ws == s;
    } else {
      assert ws[0] == w[0] && ws[1..] == w[1..] + s;
      SkipPrefix(p, w[1..], s);
      assert Span(p, ws) == 1 + Span(p, ws[1..]);
      assert ws[Span(p, ws)..] == ws[1..][Span(p, ws[1..])..];
    }
  }

  /** Skipping blanks and line breaks ignores one more leading line break. */
  lemma SkipWhitespaceNewline(s: string)
    ensures SkipWhile(IsWhitespace, "\n" + s) == SkipWhile(IsWhitespace, s)
  {
    assert ("\n" + s)[1..] == s;
  }

  /** nom's `line_ending` or `eof`: consumes `\n` or `\r\n`, or succeeds on
      empty input; anything else on the line is an error. */
  function LineEndOrEof(s: string): (r: Option<string>)
    ensures r.Some? <==> s == [] || s[0] == '\n' || (|s| >= 2 && s[0] == '\r' && s[1] == '\n')
    ensures r.Some? ==> IsSuffix(r.value, s)
    ensures r.Some? && s != [] ==> |r.value| < |s|
  {
    if s == [] then Some(s)
    else if s[0] == '\n' then Some(s[1..])
    else if |s| >= 2 && s[0] == '\r' && s[1] == '\n' then Some(s[2..])
    else None
  }

  /** The three ways a line may end, as text. */
  predicate IsLineEnd(eol: string) { eol == "\n" || eol == "\r\n" }

  lemma LineEndOf(eol: string, tail: string)
    requires IsLineEnd(eol)
    ensures LineEndOrEof(eol + tail) == Some(tail)
  {
    assert (eol + tail)[|eol|..] == tail;
  }

  /** nom's `tag(kw)`: consumes `kw` exactly. */
  function Keyword(kw: string, s: string): (r: Option<string>)
    ensures r.Some? <==> kw <= s
    ensures r.Some? ==> s == kw + r.value
  {
    if kw <= s then
      assert s == kw + s[|kw|..];
      Some(s[|kw|..])
    else None
  }

  lemma KeywordOf(kw: string, tail: string)
    ensures Keyword(kw, kw + tail) == Some(tail)
  {
    assert kw <= kw + tail;
    assert (kw + tail)[|kw|..] == tail;
  }

  function DigitValue(c: char): nat
    requires IsDigit(c)
  {
    (c - '0') as nat
  }

  function DigitChar(d: nat): (c: char)
    requires d < 10
    ensures IsDigit(c) && DigitValue(c) == d
  {
    ('0' as int + d) as char
  }

  /** The number a run of decimal digits denotes. */
  function DigitsValue(ds: string): nat
    requires AllDigits(ds)
  {
    if ds == [] then 0
    else 10 * DigitsValue(ds[..|ds| - 1]) + DigitValue(ds[|ds| - 1])
  }

  /** The decimal text of `n`, without leading zeros. */
  function NatText(n: nat): (s: string)
    ensures |s| > 0 && AllDigits(s)
  {
    if n < 10 then [DigitChar(n)] else NatText(n / 10) + [DigitChar(n % 10)]
  }

  lemma {:induction false} NatTextValue(n: nat)
    ensures DigitsValue(NatText(n)) == n
  {
    if n >= 10 {
      var s := NatText(n);
      assert s[..|s| - 1] == NatText(n / 10);
      NatTextValue(n / 10);
    }
  }

  /** nom's `digit1` followed by a conversion to a number. */
  function Number(s: string): (r: Option<Parsed<nat>>)
    ensures r.Some? ==> IsSuffix(r.value.rest, s) && |r.value.rest| < |s|
    ensures r.Some? <==> |s| > 0 && IsDigit(s[0])
  {
    var n := Span(IsDigit, s);
    if n == 0 then None else Some(Parsed(s[n..], DigitsValue(s[..n])))
  }

  /** Reading back the decimal text of `n` gives `n`, and stops where the
      digits stop. */
  lemma NumberOfNatText(n: nat, tail: string)
    requires tail == [] || !IsDigit(tail[0])
    ensures Number(NatText(n) + tail) == Some(Parsed(tail, n))
  {
    var s := NatText(n) + tail;
    SpanOfConcat(IsDigit, NatText(n), tail);
    assert s[..|NatText(n)|] == NatText(n);
    NatTextValue(n);
  }
}
