/** `preprocess_tja_file`: comment removal before the grammar runs. */
module TjaPreprocess {
  import opened TjaLexer

  /** `s` opens a `//` comment. */
  predicate StartsComment(s: string) {
    |s| >= 2 && s[0] == '/' && s[1] == '/'
  }

  /** No `//` occurs anywhere in `s`. */
  predicate CommentFree(s: string) {
    forall i :: 0 <= i < |s| - 1 ==> !(s[i] == '/' && s[i + 1] == '/')
  }

  /** Every `//` and the rest of its line are removed; the line ending itself
      stays, so the lines of the result line up with those of the input. */
  function PreprocessTjaFile(s: string): (r: string)
    ensures |r| <= |s|
    ensures |r| > 0 && r[0] == '/' ==> |s| > 0 && s[0] == '/'
    decreases |s|
  {
    if s == [] then []
    else if StartsComment(s) then PreprocessTjaFile(s[Span(IsLineChar, s)..])
    else [s[0]] + PreprocessTjaFile(s[1..])
  }

  /** After preprocessing no comment is left. */
  lemma {:induction false} PreprocessLeavesNoComment(s: string)
    ensures CommentFree(PreprocessTjaFile(s))
    decreases |s|
  {
    if s == [] {
    } else if StartsComment(s) {
      PreprocessLeavesNoComment(s[Span(IsLineChar, s)..]);
    } else {
      var tail := PreprocessTjaFile(s[1..]);
      PreprocessLeavesNoComment(s[1..]);
      var r := [s[0]] + tail;
      forall i | 0 <= i < |r| - 1
        ensures !(r[i] == '/' && r[i + 1] == '/')
      {
        if i > 0 {
          assert r[i] == tail[i - 1] && r[i + 1] == tail[i];
        }
      }
    }
  }

  /** Text without comments is left as it is. */
  lemma {:induction false} PreprocessCommentFree(s: string)
    requires CommentFree(s)
    ensures PreprocessTjaFile(s) == s
    decreases |s|
  {
    if s != [] {
      assert !StartsComment(s);
      assert CommentFree(s[1..]) by {
        forall i | 0 <= i < |s[1..]| - 1
          ensures !(s[1..][i] == '/' && s[1..][i + 1] == '/')
        {
          assert s[1..][i] == s[i + 1] && s[1..][i + 1] == s[i + 2];
        }
      }
      PreprocessCommentFree(s[1..]);
      assert s == [s[0]] + s[1..];
    }
  }

  /** Preprocessing twice is preprocessing once. */
  lemma PreprocessIdempotent(s: string)
    ensures PreprocessTjaFile(PreprocessTjaFile(s)) == PreprocessTjaFile(s)
  {
    PreprocessLeavesNoComment(s);
    PreprocessCommentFree(PreprocessTjaFile(s));
  }

  /** How many times `c` occurs in `s`. */
  function Occurrences(c: char, s: string): nat
  {
    if s == [] then 0 else (if s[0] == c then 1 else 0) + Occurrences(c, s[1..])
  }

  lemma {:induction false} OccurrencesSkipped(c: char, s: string, n: nat)
    requires n <= |s|
    requires forall i :: 0 <= i < n ==> s[i] != c
    ensures Occurrences(c, s) == Occurrences(c, s[n..])
  {
    if n > 0 {
      OccurrencesSkipped(c, s[1..], n - 1);
      assert s[1..][n - 1..] == s[n..];
    }
  }

  /** Line breaks survive preprocessing: the result has as many `\r` and as
      many `\n` as the input. */
  lemma {:induction false} PreprocessKeepsLineBreaks(s: string, c: char)
    requires c == '\r' || c == '\n'
    ensures Occurrences(c, PreprocessTjaFile(s)) == Occurrences(c, s)
    decreases |s|
  {
    if s == [] {
    } else if StartsComment(s) {
      var n := Span(IsLineChar, s);
      OccurrencesSkipped(c, s, n);
      PreprocessKeepsLineBreaks(s[n..], c);
    } else {
      PreprocessKeepsLineBreaks(s[1..], c);
      assert ([s[0]] + PreprocessTjaFile(s[1..]))[1..] == PreprocessTjaFile(s[1..]);
    }
  }

  /** A comment that runs to the end of its line disappears, and everything
      from the line ending on is preprocessed as usual. */
  lemma CommentRemoved(comment: string, rest: string)
    requires forall i :: 0 <= i < |comment| ==> IsLineChar(comment[i])
    requires rest == [] || !IsLineChar(rest[0])
    ensures PreprocessTjaFile("//" + comment + rest) == PreprocessTjaFile(rest)
  {
    var s := "//" + comment + rest;
    assert s == ("//" + comment) + rest;
    SpanOfConcat(IsLineChar, "//" + comment, rest);
  }

  /** Text without a slash holds no comment. */
  lemma NoSlashNoComment(s: string)
    requires '/' !in s
    ensures CommentFree(s)
  {
    forall i | 0 <= i < |s| - 1
      ensures !(s[i] == '/' && s[i + 1] == '/')
    {
      assert s[i] in s;
    }
  }
}
