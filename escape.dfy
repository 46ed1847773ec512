/**
  The appender's quote escaper: every double quote gets a backslash in front of it and nothing
  else is touched. This is deliberately not a JSON string encoder: backslashes, control
  characters and non-ASCII characters pass through as they are.
 */
module Escape {

  /** The number of occurrences of `c` in `s`. */
  function Count(c: char, s: string): nat
  {
    if s == [] then 0 else (if s[0] == c then 1 else 0) + Count(c, s[1..])
  }

  /** The concatenation of `parts`, in order. */
  function Flatten(parts: seq<string>): string
  {
    if parts == [] then [] else parts[0] + Flatten(parts[1..])
  }

  /** What one input character becomes: a quote turns into `\"`, any other character stays. */
  function EscapePiece(c: char): string
  {
    if c == '"' then "\\\"" else [c]
  }

  /** `s` with every `"` replaced by the two characters `\"`, all in one pass. */
  function EscapeQuotes(s: string): string
  {
    Flatten(seq(|s|, i requires 0 <= i < |s| => EscapePiece(s[i])))
  }

  /** Escaping the first character, then the rest. */
  lemma EscapeQuotesUnfold(s: string)
    ensures s == [] ==> EscapeQuotes(s) == []
    ensures s != [] ==> EscapeQuotes(s) == EscapePiece(s[0]) + EscapeQuotes(s[1..])
  {
    if s != [] {
      var pieces := seq(|s|, i requires 0 <= i < |s| => EscapePiece(s[i]));
      assert pieces[1..] == seq(|s[1..]|, i requires 0 <= i < |s[1..]| => EscapePiece(s[1..][i]));
    }
  }

  /** A string without quotes is its own escape. */
  lemma {:induction false} EscapeQuotesWithoutQuotes(s: string)
    requires '"' !in s
    ensures EscapeQuotes(s) == s
  {
    EscapeQuotesUnfold(s);
    if s != [] {
      assert s[0] != '"' && '"' !in s[1..];
      EscapeQuotesWithoutQuotes(s[1..]);
    }
  }

  /** A lone quote becomes a backslash and a quote. */
  lemma EscapeQuotesOfQuote()
    ensures EscapeQuotes("\"") == "\\\""
  {
    EscapeQuotesUnfold("\"");
    EscapeQuotesUnfold([]);
  }

  /**
    Escaping adds one character per quote and no quote: the output is as long as the input plus
    its quotes, holds as many quotes, and one more backslash for each of them.
   */
  lemma {:induction false} EscapeQuotesCounts(s: string)
    ensures |EscapeQuotes(s)| == |s| + Count('"', s)
    ensures Count('"', EscapeQuotes(s)) == Count('"', s)
    ensures Count('\\', EscapeQuotes(s)) == Count('\\', s) + Count('"', s)
  {
    EscapeQuotesUnfold(s);
    if s != [] {
      EscapeQuotesCounts(s[1..]);
      CountConcat('"', EscapePiece(s[0]), EscapeQuotes(s[1..]));
      CountConcat('\\', EscapePiece(s[0]), EscapeQuotes(s[1..]));
    }
  }

  lemma {:induction false} CountConcat(c: char, a: string, b: string)
    ensures Count(c, a + b) == Count(c, a) + Count(c, b)
  {
    if a == [] {
      assert a + b == b;
    } else {
      assert (a + b)[1..] == a[1..] + b;
      CountConcat(c, a[1..], b);
    }
  }

  /**
    Escaping works character by character: the escape of a concatenation is the concatenation
    of the escapes, so every character other than `"` keeps its place in the output.
   */
  lemma {:induction false} EscapeQuotesConcat(a: string, b: string)
    ensures EscapeQuotes(a + b) == EscapeQuotes(a) + EscapeQuotes(b)
  {
    EscapeQuotesUnfold(a);
    if a == [] {
      assert a + b == b;
    } else {
      EscapeQuotesUnfold(a + b);
      assert (a + b)[1..] == a[1..] + b;
      EscapeQuotesConcat(a[1..], b);
    }
  }

  /** No quote in the output is bare: each one directly follows a backslash. */
  lemma {:induction false} EscapedQuotesFollowBackslash(s: string, i: nat)
    requires i < |EscapeQuotes(s)| && EscapeQuotes(s)[i] == '"'
    ensures 0 < i && EscapeQuotes(s)[i - 1] == '\\'
  {
    EscapeQuotesUnfold(s);
    var head := EscapePiece(s[0]);
    if i >= |head| {
      EscapedQuotesFollowBackslash(s[1..], i - |head|);
    }
  }
}
