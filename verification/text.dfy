/** The string operations the run builder borrows from Python: the whitespace
    test, `str.split()` (word counting), `str.strip()`, `str.split(sep)` /
    `sep.join(...)` (the tab- and newline-separated task-1 file) and the
    decimal rendering of an index. */
module Text {

  /** Python's `str.isspace` for a single character: the characters that
      `str.split()` and `str.strip()` treat as whitespace. */
  predicate IsWhitespace(c: char) {
    ('\t' <= c <= '\r') || ('\U{1C}' <= c <= ' ') || c == '\U{85}' || c == '\U{A0}'
    || c == '\U{1680}' || ('\U{2000}' <= c <= '\U{200A}') || c == '\U{2028}'
    || c == '\U{2029}' || c == '\U{202F}' || c == '\U{205F}' || c == '\U{3000}'
  }

  predicate AllWhitespace(s: string) {
    forall k :: 0 <= k < |s| ==> IsWhitespace(s[k])
  }

  predicate NoWhitespace(s: string) {
    forall k :: 0 <= k < |s| ==> !IsWhitespace(s[k])
  }

  // ---------------------------------------------------------------------------
  // Word counting: `len(sentence.split())`
  // ---------------------------------------------------------------------------

  /** Length of the maximal run of non-whitespace characters that begins `s`. */
  function RunLength(s: string): (n: nat)
    ensures n <= |s|
    ensures NoWhitespace(s[..n])
    ensures n < |s| ==> IsWhitespace(s[n])
    ensures s != [] && !IsWhitespace(s[0]) ==> n > 0
  {
    if s == [] || IsWhitespace(s[0]) then 0 else 1 + RunLength(s[1..])
  }

  /** Python's `str.split()` without a separator: the maximal runs of
      non-whitespace characters, in order. Whitespace only separates, so no
      token is empty. */
  function Split(s: string): (tokens: seq<string>)
    ensures forall t :: t in tokens ==> t != [] && NoWhitespace(t)
    decreases |s|
  {
    if s == [] then []
    else if IsWhitespace(s[0]) then Split(s[1..])
    else
      var n := RunLength(s);
      [s[..n]] + Split(s[n..])
  }

  /** `len(sentence.split())`: the number of words of one sentence. */
  function WordCount(s: string): nat {
    |Split(s)|
  }

  /** The characters of `s` that are not whitespace, in order. */
  function NonSpace(s: string): string {
    if s == [] then []
    else (if IsWhitespace(s[0]) then [] else [s[0]]) + NonSpace(s[1..])
  }

  function Concat(pieces: seq<string>): string {
    if pieces == [] then [] else pieces[0] + Concat(pieces[1..])
  }

  /** Number of word beginnings in `s`: non-whitespace characters that stand at
      the front of `s` (when `afterSpace` holds) or right after whitespace. */
  function WordStarts(s: string, afterSpace: bool): nat {
    if s == [] then 0
    else (if afterSpace && !IsWhitespace(s[0]) then 1 else 0) + WordStarts(s[1..], IsWhitespace(s[0]))
  }

  lemma {:induction false} NonSpaceAppend(a: string, b: string)
    ensures NonSpace(a + b) == NonSpace(a) + NonSpace(b)
  {
    if a == [] {
      assert a + b == b;
    } else {
      assert (a + b)[1..] == a[1..] + b;
      NonSpaceAppend(a[1..], b);
    }
  }

  lemma {:induction false} NonSpaceOfRun(s: string)
    requires NoWhitespace(s)
    ensures NonSpace(s) == s
  {
    if s != [] {
      assert NoWhitespace(s[1..]) by {
        forall k | 0 <= k < |s[1..]| ensures !IsWhitespace(s[1..][k]) {
          assert s[1..][k] == s[k + 1];
        }
      }
      NonSpaceOfRun(s[1..]);
    }
  }

  lemma {:induction false} NonSpaceEmptyIffBlank(s: string)
    ensures NonSpace(s) == [] <==> AllWhitespace(s)
  {
    if s != [] {
      NonSpaceEmptyIffBlank(s[1..]);
      if AllWhitespace(s[1..]) && IsWhitespace(s[0]) {
        forall k | 0 <= k < |s| ensures IsWhitespace(s[k]) {
          if k > 0 { assert s[k] == s[1..][k - 1]; }
        }
      }
      if AllWhitespace(s) {
        forall k | 0 <= k < |s[1..]| ensures IsWhitespace(s[1..][k]) {
          assert s[1..][k] == s[k + 1];
        }
      }
    }
  }

  /** The words of `s`, laid end to end, are exactly the non-whitespace
      characters of `s`, in order: splitting loses nothing but whitespace. */
  lemma {:induction false} SplitKeepsNonSpace(s: string)
    ensures Concat(Split(s)) == NonSpace(s)
    decreases |s|
  {
    if s == [] {
    } else if IsWhitespace(s[0]) {
      SplitKeepsNonSpace(s[1..]);
    } else {
      var n := RunLength(s);
      SplitKeepsNonSpace(s[n..]);
      assert s == s[..n] + s[n..];
      NonSpaceAppend(s[..n], s[n..]);
      NonSpaceOfRun(s[..n]);
      assert ([s[..n]] + Split(s[n..]))[1..] == Split(s[n..]);
    }
  }

  /** A sentence adds no words exactly when it is all whitespace. */
  lemma WordCountZeroIffBlank(s: string)
    ensures WordCount(s) == 0 <==> AllWhitespace(s)
  {
    SplitKeepsNonSpace(s);
    NonSpaceEmptyIffBlank(s);
    var tokens := Split(s);
    if tokens != [] {
      assert tokens[0] in tokens;
      assert |Concat(tokens)| >= |tokens[0]| > 0;
    }
  }

  lemma {:induction false} WordStartsSkipRun(t: string)
    ensures WordStarts(t, false) == WordStarts(t[RunLength(t)..], true)
    decreases |t|
  {
    if t != [] && !IsWhitespace(t[0]) {
      WordStartsSkipRun(t[1..]);
      assert t[1..][RunLength(t[1..])..] == t[RunLength(t)..];
    }
  }

  /** Word count is the number of word beginnings: each maximal
      non-whitespace run is counted once, at its first character. */
  lemma {:induction false} WordCountIsWordStarts(s: string)
    ensures WordCount(s) == WordStarts(s, true)
    decreases |s|
  {
    if s == [] {
    } else if IsWhitespace(s[0]) {
      WordCountIsWordStarts(s[1..]);
    } else {
      var n := RunLength(s);
      WordCountIsWordStarts(s[n..]);
      WordStartsSkipRun(s[1..]);
      assert s[1..][RunLength(s[1..])..] == s[n..];
    }
  }

  lemma {:induction false} WordStartsAppend(a: string, b: string, afterSpace: bool)
    ensures WordStarts(a + b, afterSpace)
         == WordStarts(a, afterSpace) + WordStarts(b, if a == [] then afterSpace else IsWhitespace(a[|a| - 1]))
  {
    if a == [] {
      assert a + b == b;
    } else {
      assert (a + b)[1..] == a[1..] + b;
      WordStartsAppend(a[1..], b, IsWhitespace(a[0]));
    }
  }

  // ---------------------------------------------------------------------------
  // Report word count: `sum(len(sentence.split()) for sentence in sentences)`
  // ---------------------------------------------------------------------------

  /** The word count of a report: the sum of its sentences' word counts. */
  function ReportWordCount(sentences: seq<string>): nat {
    if sentences == [] then 0
    else ReportWordCount(sentences[..|sentences| - 1]) + WordCount(sentences[|sentences| - 1])
  }

  lemma {:induction false} ReportWordCountAppend(a: seq<string>, b: seq<string>)
    ensures ReportWordCount(a + b) == ReportWordCount(a) + ReportWordCount(b)
    decreases |b|
  {
    if b == [] {
      assert a + b == a;
    } else {
      var front := b[..|b| - 1];
      assert (a + b)[..|a + b| - 1] == a + front;
      ReportWordCountAppend(a, front);
    }
  }

  /** The sentences of a report, each followed by a space. */
  function Spaced(sentences: seq<string>): string {
    if sentences == [] then []
    else Spaced(sentences[..|sentences| - 1]) + sentences[|sentences| - 1] + " "
  }

  /** Summing per-sentence word counts gives the word count of the whole
      report written out as one text with a space after each sentence. */
  lemma {:induction false} ReportWordCountOfSpacedText(sentences: seq<string>)
    ensures ReportWordCount(sentences) == WordCount(Spaced(sentences))
    decreases |sentences|
  {
    if sentences != [] {
      var front := sentences[..|sentences| - 1];
      var last := sentences[|sentences| - 1];
      var prefix := Spaced(front);
      ReportWordCountOfSpacedText(front);
      WordCountIsWordStarts(prefix);
      WordCountIsWordStarts(last);
      WordCountIsWordStarts(Spaced(sentences));
      assert Spaced(sentences) == prefix + (last + " ");
      WordStartsAppend(prefix, last + " ", true);
      WordStartsAppend(last, " ", true);
      assert " "[1..] == [];
    }
  }

  // ---------------------------------------------------------------------------
  // `str.strip()`
  // ---------------------------------------------------------------------------

  /** `str.lstrip()`: `s` without its leading whitespace. */
  function TrimStart(s: string): (r: string)
    ensures |r| <= |s| && r == s[|s| - |r|..]
    ensures AllWhitespace(s[..|s| - |r|])
    ensures r == [] || !IsWhitespace(r[0])
  {
    if s != [] && IsWhitespace(s[0]) then
      var r := TrimStart(s[1..]);
      TrimStartStep(s, r);
      r
    else s
  }

  /** A leading whitespace character joins the part `TrimStart` drops. */
  lemma TrimStartStep(s: string, r: string)
    requires s != [] && IsWhitespace(s[0])
    requires |r| <= |s| - 1 && r == s[1..][|s| - 1 - |r|..]
    requires AllWhitespace(s[1..][..|s| - 1 - |r|])
    ensures r == s[|s| - |r|..] && AllWhitespace(s[..|s| - |r|])
  {
    var n := |s| - |r|;
    assert s[..n] == [s[0]] + s[1..][..n - 1];
    forall k | 0 <= k < n ensures IsWhitespace(s[k]) {
      if k > 0 {
        assert s[k] == s[1..][..n - 1][k - 1];
      }
    }
  }

  /** `str.rstrip()`: `s` without its trailing whitespace. */
  function TrimEnd(s: string): (r: string)
    ensures |r| <= |s| && r == s[..|r|]
    ensures AllWhitespace(s[|r|..])
    ensures r == [] || !IsWhitespace(r[|r| - 1])
  {
    if s != [] && IsWhitespace(s[|s| - 1]) then
      var r := TrimEnd(s[..|s| - 1]);
      TrimEndStep(s, r);
      r
    else s
  }

  /** A trailing whitespace character joins the part `TrimEnd` drops. */
  lemma TrimEndStep(s: string, r: string)
    requires s != [] && IsWhitespace(s[|s| - 1])
    requires |r| <= |s| - 1 && r == s[..|s| - 1][..|r|]
    requires AllWhitespace(s[..|s| - 1][|r|..])
    ensures r == s[..|r|] && AllWhitespace(s[|r|..])
  {
    forall k | |r| <= k < |s| ensures IsWhitespace(s[k]) {
      if k < |s| - 1 {
        assert s[k] == s[..|s| - 1][|r|..][k - |r|];
      }
    }
    assert forall k :: 0 <= k < |s[|r|..]| ==> s[|r|..][k] == s[|r| + k];
  }


  /** `str.strip()` without an argument. */
  function Strip(s: string): string {
    TrimEnd(TrimStart(s))
  }

  /** Strip keeps one contiguous slice of `s`, drops only whitespace on either
      side of it, and the slice neither starts nor ends with whitespace. */
  lemma StripIsInfix(s: string) returns (i: nat, j: nat)
    ensures i <= j <= |s| && Strip(s) == s[i..j]
    ensures AllWhitespace(s[..i]) && AllWhitespace(s[j..])
    ensures Strip(s) == [] || (!IsWhitespace(s[i]) && !IsWhitespace(s[j - 1]))
  {
    var t := TrimStart(s);
    var u := TrimEnd(t);
    i := |s| - |t|;
    j := i + |u|;
    assert s[j..] == t[|u|..];
    assert s[i..j] == t[..|u|];
  }

  /** A newline-terminated text whose body starts and ends with
      non-whitespace loses exactly its final newline under `strip()`. */
  lemma StripNewlineTerminated(body: string)
    requires body != [] && !IsWhitespace(body[0]) && !IsWhitespace(body[|body| - 1])
    ensures Strip(body + "\n") == body
  {
    var text := body + "\n";
    assert TrimStart(text) == text;
    assert text[..|text| - 1] == body;
    assert TrimEnd(text) == TrimEnd(body);
  }

  // ---------------------------------------------------------------------------
  // `str.split(sep)` and `sep.join(pieces)` for a one-character separator
  // ---------------------------------------------------------------------------

  function CountChar(s: string, c: char): nat {
    if s == [] then 0 else (if s[0] == c then 1 else 0) + CountChar(s[1..], c)
  }

  /** Python's `s.split(sep)`: the pieces between separators, empty pieces
      included; one more piece than there are separators. */
  function SplitOn(s: string, sep: char): (pieces: seq<string>)
    ensures |pieces| == CountChar(s, sep) + 1
  {
    if s == [] then [[]]
    else
      var rest := SplitOn(s[1..], sep);
      if s[0] == sep then [[]] + rest else [[s[0]] + rest[0]] + rest[1..]
  }

  /** Python's `sep.join(pieces)`. */
  function JoinOn(pieces: seq<string>, sep: char): string {
    if pieces == [] then []
    else if |pieces| == 1 then pieces[0]
    else pieces[0] + [sep] + JoinOn(pieces[1..], sep)
  }

  lemma {:induction false} SplitOnWithoutSeparator(a: string, sep: char)
    requires sep !in a
    ensures SplitOn(a, sep) == [a]
  {
    if a != [] {
      SplitOnWithoutSeparator(a[1..], sep);
      assert [a[0]] + a[1..] == a;
    }
  }

  lemma {:induction false} SplitOnFirstSeparator(a: string, b: string, sep: char)
    requires sep !in a
    ensures SplitOn(a + [sep] + b, sep) == [a] + SplitOn(b, sep)
  {
    if a == [] {
      assert (a + [sep] + b)[1..] == b;
    } else {
      assert (a + [sep] + b)[1..] == a[1..] + [sep] + b;
      SplitOnFirstSeparator(a[1..], b, sep);
      assert [a[0]] + a[1..] == a;
    }
  }

  /** Splitting a join gives back the pieces, provided no piece holds the
      separator. */
  lemma {:induction false} SplitJoinRoundTrip(pieces: seq<string>, sep: char)
    requires |pieces| >= 1
    requires forall p :: p in pieces ==> sep !in p
    ensures SplitOn(JoinOn(pieces, sep), sep) == pieces
  {
    assert pieces[0] in pieces;
    if |pieces| == 1 {
      SplitOnWithoutSeparator(pieces[0], sep);
    } else {
      forall p | p in pieces[1..] ensures sep !in p { assert p in pieces; }
      SplitJoinRoundTrip(pieces[1..], sep);
      SplitOnFirstSeparator(pieces[0], JoinOn(pieces[1..], sep), sep);
      assert [pieces[0]] + pieces[1..] == pieces;
    }
  }

  /** A join starts with the first piece and ends with the last one. */
  lemma {:induction false} JoinOnEnds(pieces: seq<string>, sep: char)
    requires |pieces| >= 1
    ensures |JoinOn(pieces, sep)| >= |pieces[0]| && |JoinOn(pieces, sep)| >= |pieces[|pieces| - 1]|
    ensures JoinOn(pieces, sep)[..|pieces[0]|] == pieces[0]
    ensures JoinOn(pieces, sep)[|JoinOn(pieces, sep)| - |pieces[|pieces| - 1]|..] == pieces[|pieces| - 1]
  {
    if |pieces| > 1 {
      var tail := pieces[1..];
      JoinOnEnds(tail, sep);
      var j := JoinOn(tail, sep);
      assert JoinOn(pieces, sep) == pieces[0] + [sep] + j;
      assert tail[|tail| - 1] == pieces[|pieces| - 1];
      assert (pieces[0] + [sep] + j)[..|pieces[0]|] == pieces[0];
      assert (pieces[0] + [sep] + j)[|pieces[0] + [sep] + j| - |tail[|tail| - 1]|..] == j[|j| - |tail[|tail| - 1]|..];
    }
  }

  // ---------------------------------------------------------------------------
  // Decimal rendering of an index: `f'{i+1}'`
  // ---------------------------------------------------------------------------

  predicate IsDigit(c: char) {
    '0' <= c <= '9'
  }

  function DigitChar(d: nat): (c: char)
    requires d < 10
    ensures IsDigit(c)
  {
    ('0' as int + d) as char
  }

  /** The decimal numeral of `n`: digits only, and no leading zero. */
  function Decimal(n: nat): (r: string)
    ensures r != [] && forall k :: 0 <= k < |r| ==> IsDigit(r[k])
    ensures r[0] == '0' ==> n == 0
  {
    if n < 10 then [DigitChar(n)] else Decimal(n / 10) + [DigitChar(n % 10)]
  }

  /** Python's `int(s)` for a string of digits. */
  function DecimalValue(s: string): int
    requires forall k :: 0 <= k < |s| ==> IsDigit(s[k])
  {
    if s == [] then 0
    else 10 * DecimalValue(s[..|s| - 1]) + (s[|s| - 1] as int - '0' as int)
  }

  /** Reading a rendered index back gives the index. */
  lemma {:induction false} DecimalRoundTrip(n: nat)
    ensures DecimalValue(Decimal(n)) == n
  {
    if n >= 10 {
      DecimalRoundTrip(n / 10);
      var r := Decimal(n);
      assert r[..|r| - 1] == Decimal(n / 10);
    }
  }
}
