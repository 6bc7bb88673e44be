/** The lightweight extractive summarizer: split a text into sentences, keep the first few, join them again. */
module Summarizer {
  import opened Prelude

  /** `str.isspace`, which is also what `\s` matches in a `str` pattern. */
  predicate IsSpace(c: char) {
    var k := c as int;
    || 0x09 <= k <= 0x0D || 0x1C <= k <= 0x20 || k == 0x85 || k == 0xA0 || k == 0x1680
    || 0x2000 <= k <= 0x200A || k == 0x2028 || k == 0x2029 || k == 0x202F || k == 0x205F || k == 0x3000
  }

  predicate EndsSentence(c: char) { c == '.' || c == '!' || c == '?' }

  predicate IsBlank(s: string) { forall i :: 0 <= i < |s| ==> IsSpace(s[i]) }

  function LStrip(s: string): (r: string)
    ensures |r| <= |s|
  {
    if s != "" && IsSpace(s[0]) then LStrip(s[1..]) else s
  }

  function RStrip(s: string): (r: string)
    ensures |r| <= |s|
  {
    if s != "" && IsSpace(s[|s| - 1]) then RStrip(s[..|s| - 1]) else s
  }

  function Strip(s: string): string { RStrip(LStrip(s)) }

  // ---------------------------------------------------------------------------------------------
  // re.split(r"(?<=[.!?])\s+", s)
  // ---------------------------------------------------------------------------------------------

  /** White space right after a sentence end. */
  predicate BreaksAt(s: string, p: int) {
    0 < p < |s| && EndsSentence(s[p - 1]) && IsSpace(s[p])
  }

  /** The leftmost break at or after `p`, or the end. */
  function NextBreak(s: string, p: nat): (r: nat)
    requires p <= |s|
    ensures p <= r <= |s|
    ensures r < |s| ==> BreaksAt(s, r)
    ensures forall q :: p <= q < r ==> !BreaksAt(s, q)
    decreases |s| - p
  {
    if p == |s| || BreaksAt(s, p) then p else NextBreak(s, p + 1)
  }

  /** The end of the run of white space starting at `p`. */
  function SkipSpace(s: string, p: nat): (r: nat)
    requires p <= |s|
    ensures p <= r <= |s|
    ensures p < |s| && IsSpace(s[p]) ==> p < r
    ensures r < |s| ==> !IsSpace(s[r])
    ensures forall q :: p <= q < r ==> IsSpace(s[q])
    decreases |s| - p
  {
    if p < |s| && IsSpace(s[p]) then SkipSpace(s, p + 1) else p
  }

  function Pieces(s: string): seq<string>
    decreases |s|
  {
    var p := NextBreak(s, 0);
    if p == |s| then [s] else [s[..p]] + Pieces(s[SkipSpace(s, p)..])
  }

  /** The stripped pieces that are not blank. */
  function Cleaned(pieces: seq<string>): seq<string> {
    if pieces == [] then []
    else (if Strip(pieces[0]) != "" then [Strip(pieces[0])] else []) + Cleaned(pieces[1..])
  }

  function Sentences(text: string): seq<string> {
    var sentences := Cleaned(Pieces(Strip(text)));
    if sentences == [] then [Strip(text)] else sentences
  }

  function Join(ss: seq<string>): string {
    if ss == [] then "" else if |ss| == 1 then ss[0] else ss[0] + " " + Join(ss[1..])
  }

  function Summarize(text: string, maxSentences: int): string {
    Join(Slice(Sentences(text), maxSentences))
  }

  // ---------------------------------------------------------------------------------------------
  // Sentence sequences: what splitting produces and joining preserves
  // ---------------------------------------------------------------------------------------------

  ghost predicate Trimmed(s: string) {
    s != "" && !IsSpace(s[0]) && !IsSpace(s[|s| - 1])
  }

  /** Trimmed, and with no sentence break inside. */
  ghost predicate IsSentence(s: string) {
    Trimmed(s) && forall p :: 0 <= p < |s| ==> !BreaksAt(s, p)
  }

  /** Sentences one after the other, all but the last properly ended. */
  ghost predicate WellFormed(ss: seq<string>) {
    && ss != []
    && (forall i :: 0 <= i < |ss| ==> IsSentence(ss[i]))
    && (forall i :: 0 <= i < |ss| - 1 ==> EndsSentence(ss[i][|ss[i]| - 1]))
  }

  /** How the first piece is cut off. */
  lemma FirstPiece(s: string) returns (p: nat, q: nat)
    requires NextBreak(s, 0) < |s|
    ensures 0 < p < q <= |s|
    ensures Pieces(s) == [s[..p]] + Pieces(s[q..])
    ensures EndsSentence(s[p - 1]) && IsBlank(s[p..q]) && (q < |s| ==> !IsSpace(s[q])) && IsSpace(s[q - 1])
    ensures forall i :: 0 <= i < p ==> !BreaksAt(s, i)
  {
    hide IsSpace, EndsSentence;
    p := NextBreak(s, 0);
    q := SkipSpace(s, p);
  }

  lemma HeadIsSentence(s: string, p: nat)
    requires Trimmed(s) && 0 < p <= |s| && EndsSentence(s[p - 1])
    requires forall i :: 0 <= i < p ==> !BreaksAt(s, i)
    ensures IsSentence(s[..p])
  {
    forall i | 0 <= i < p ensures !BreaksAt(s[..p], i) {
      assert !BreaksAt(s, i);
    }
  }

  lemma ConsWellFormed(head: string, tail: seq<string>)
    requires IsSentence(head) && EndsSentence(head[|head| - 1]) && WellFormed(tail)
    ensures WellFormed([head] + tail)
  {
    hide IsSentence, EndsSentence;
    assert forall i :: 0 < i < |[head] + tail| ==> ([head] + tail)[i] == tail[i - 1];
  }

  lemma {:induction false} PiecesAreSentences(s: string)
    requires Trimmed(s)
    ensures WellFormed(Pieces(s))
    decreases |s|
  {
    hide IsSpace, EndsSentence, BreaksAt, IsSentence, WellFormed;
    if NextBreak(s, 0) == |s| {
      WholeIsSentence(s);
    } else {
      var p, q := FirstPiece(s);
      var rest := s[q..];
      assert rest[|rest| - 1] == s[|s| - 1];
      PiecesAreSentences(rest);
      HeadIsSentence(s, p);
      ConsWellFormed(s[..p], Pieces(rest));
    }
  }

  lemma WholeIsSentence(s: string)
    requires Trimmed(s) && NextBreak(s, 0) == |s|
    ensures WellFormed(Pieces(s))
  {
    assert Pieces(s) == [s];
  }

  /** Splitting undoes joining. */
  lemma {:induction false} SplitJoin(ss: seq<string>)
    requires WellFormed(ss)
    ensures Trimmed(Join(ss))
    ensures Pieces(Join(ss)) == ss
    decreases |ss|
  {
    hide Pieces, BreaksAt, IsSpace, WellFormed, IsSentence, EndsSentence, Trimmed, Join;
    FirstOfWellFormed(ss);
    if |ss| == 1 {
      NoBreak(ss[0]);
      assert ss == [ss[0]];
    } else {
      SplitJoin(ss[1..]);
      SplitGlue(ss[0], Join(ss[1..]));
      assert ss == [ss[0]] + ss[1..];
    }
  }

  lemma FirstOfWellFormed(ss: seq<string>)
    requires WellFormed(ss)
    ensures ss != [] && ss[0] != "" && IsSentence(ss[0]) && Trimmed(ss[0])
    ensures |ss| == 1 ==> Join(ss) == ss[0]
    ensures |ss| > 1 ==>
      WellFormed(ss[1..]) && EndsSentence(ss[0][|ss[0]| - 1]) && Join(ss) == ss[0] + " " + Join(ss[1..])
  {
    hide IsSpace, EndsSentence, BreaksAt;
    assert forall i :: 0 <= i < |ss[1..]| ==> ss[1..][i] == ss[i + 1];
  }

  lemma SplitGlue(head: string, rest: string)
    requires IsSentence(head) && EndsSentence(head[|head| - 1]) && Trimmed(rest)
    ensures Trimmed(head + " " + rest)
    ensures Pieces(head + " " + rest) == [head] + Pieces(rest)
  {
    var s, p := head + " " + rest, |head|;
    assert s[p - 1] == head[p - 1] && s[p] == ' ' && s[p + 1] == rest[0];
    FirstBreak(s, head, p);
    assert SkipSpace(s, p) == p + 1;
    assert s[p + 1..] == rest && s[..p] == head;
  }

  lemma NoBreak(s: string)
    requires IsSentence(s)
    ensures Pieces(s) == [s]
  {
    hide IsSpace;
  }

  lemma FirstBreak(s: string, head: string, p: nat)
    requires IsSentence(head) && p == |head| < |s| && s[..p] == head && BreaksAt(s, p)
    ensures NextBreak(s, 0) == p
  {
    hide IsSpace, EndsSentence;
    forall q | 0 <= q < p ensures !BreaksAt(s, q) {
      assert !BreaksAt(head, q);
      assert head[q] == s[q] && (q > 0 ==> head[q - 1] == s[q - 1]);
    }
  }

  lemma {:induction false} StripTrimmed(s: string)
    requires Trimmed(s)
    ensures Strip(s) == s
  {
    hide IsSpace;
  }

  lemma LStripLeads(s: string)
    ensures LStrip(s) != "" ==> !IsSpace(LStrip(s)[0])
    ensures LStrip(s) == "" <==> IsBlank(s)
  {
    hide IsSpace;
    if s != "" && IsSpace(s[0]) {
      LStripLeads(s[1..]);
      assert forall i :: 0 < i < |s| ==> s[i] == s[1..][i - 1];
      assert IsBlank(s) <==> IsBlank(s[1..]);
    }
  }

  lemma RStripTrails(s: string)
    requires s != "" && !IsSpace(s[0])
    ensures Trimmed(RStrip(s))
  {
    hide IsSpace;
    if IsSpace(s[|s| - 1]) {
      RStripTrails(s[..|s| - 1]);
    }
  }

  lemma StripBlank(s: string)
    ensures IsBlank(s) ==> Strip(s) == ""
    ensures !IsBlank(s) ==> Trimmed(Strip(s))
  {
    hide IsSpace;
    LStripLeads(s);
    if !IsBlank(s) {
      RStripTrails(LStrip(s));
    }
  }

  lemma {:induction false} CleanedSentences(ss: seq<string>)
    requires forall s :: s in ss ==> IsSentence(s)
    ensures Cleaned(ss) == ss
  {
    hide Strip, IsSentence;
    if ss != [] {
      StripSentence(ss[0]);
      CleanedSentences(ss[1..]);
    }
  }

  lemma StripSentence(s: string)
    requires IsSentence(s)
    ensures Strip(s) == s && s != ""
  {
    StripTrimmed(s);
  }

  /** A text that is not blank is split into sentences, and stripping and filtering change nothing. */
  lemma SentencesAreWellFormed(text: string)
    requires !IsBlank(text)
    ensures WellFormed(Sentences(text)) && Sentences(text) == Pieces(Strip(text))
  {
    StripBlank(text);
    PiecesAreSentences(Strip(text));
    CleanedSentences(Pieces(Strip(text)));
  }

  /** A full stop, exclamation or question mark, and white space right after it. */
  predicate SplitsAt(s: string, p: int) {
    0 < p < |s| && (s[p - 1] == '.' || s[p - 1] == '!' || s[p - 1] == '?') && IsSpace(s[p])
  }

  /** A trimmed text is split first right after the first such mark, and the rest in the same way; without one it is
      a single sentence. */
  lemma FirstSentence(s: string)
    requires Trimmed(s)
    ensures (forall p :: !SplitsAt(s, p)) <==> Sentences(s) == [s]
    ensures forall p :: SplitsAt(s, p) && (forall q :: q < p ==> !SplitsAt(s, q)) ==>
              Sentences(s) == [s[..p]] + Sentences(s[p..])
  {
    assert forall p :: BreaksAt(s, p) <==> SplitsAt(s, p);
    hide BreaksAt, SplitsAt;
    SentencesOfTrimmed(s);
    var b := NextBreak(s, 0);
    if b < |s| {
      assert SplitsAt(s, b);
      BreakSplits(s, b);
      assert |s[..b]| < |s|;
      assert Sentences(s)[0] == s[..b];
    }
    forall p | SplitsAt(s, p) && (forall q :: q < p ==> !SplitsAt(s, q))
      ensures Sentences(s) == [s[..p]] + Sentences(s[p..])
    {
      InRange(s, p);
      assert p == b;
    }
    forall p ensures SplitsAt(s, p) ==> 0 <= b < |s| {
      InRange(s, p);
    }
  }

  lemma InRange(s: string, p: int)
    ensures SplitsAt(s, p) ==> 0 < p < |s|
  {
  }

  lemma SentencesOfTrimmed(s: string)
    requires Trimmed(s)
    ensures Sentences(s) == Pieces(s)
  {
    StripTrimmed(s);
    SentencesAreWellFormed(s);
  }

  lemma BreakSplits(s: string, b: nat)
    requires Trimmed(s) && b == NextBreak(s, 0) < |s|
    ensures Sentences(s[b..]) == Pieces(s[SkipSpace(s, b)..])
  {
    hide Pieces, LStrip, RStrip, IsSpace, Trimmed, NextBreak, Cleaned;
    RestIsTrimmed(s, b);
    var q := SkipSpace(s, b);
    LStripSkips(s[b..], q - b);
    assert s[b..][q - b..] == s[q..];
    RStripOnly(s[q..]);
    assert Strip(s[b..]) == s[q..];
    SentencesOfTrimmed(s[q..]);
    StripTrimmed(s[q..]);
  }

  lemma RestIsTrimmed(s: string, b: nat)
    requires Trimmed(s) && b < |s| && BreaksAt(s, b)
    ensures var q := SkipSpace(s, b);
      && b <= q < |s| && Trimmed(s[q..])
      && !IsSpace(s[b..][q - b]) && forall i :: 0 <= i < q - b ==> IsSpace(s[b..][i])
  {
    hide IsSpace, EndsSentence;
    assert !IsSpace(s[|s| - 1]);
  }

  lemma RStripOnly(s: string)
    requires Trimmed(s)
    ensures RStrip(s) == s
  {
  }

  lemma {:induction false} LStripSkips(s: string, n: nat)
    requires n < |s| && !IsSpace(s[n]) && forall i :: 0 <= i < n ==> IsSpace(s[i])
    ensures LStrip(s) == s[n..]
    decreases n
  {
    hide IsSpace;
    if n > 0 {
      LStripSkips(s[1..], n - 1);
      assert s[1..][n - 1..] == s[n..];
    }
  }

  lemma SentencesOfBlank(text: string)
    requires IsBlank(text)
    ensures Sentences(text) == [""]
  {
    StripBlank(text);
    assert Pieces("") == [""];
    assert Cleaned([""]) == Cleaned([""][1..]) == [];
  }

  /** Parsing is left inverse to printing on every sequence of sentences. */
  lemma SentencesOfJoin(ss: seq<string>)
    requires WellFormed(ss)
    ensures Sentences(Join(ss)) == ss
  {
    SplitJoin(ss);
    StripTrimmed(Join(ss));
    CleanedSentences(ss);
  }

  lemma WellFormedPrefix(ss: seq<string>, k: nat)
    requires WellFormed(ss) && 0 < k <= |ss|
    ensures WellFormed(ss[..k])
  {
  }

  /** Re-splitting a summary gives back exactly the sentences that were kept. */
  lemma SummaryRoundTrip(text: string, n: int)
    requires !IsBlank(text) && Slice(Sentences(text), n) != []
    ensures Sentences(Summarize(text, n)) == Slice(Sentences(text), n)
  {
    SentencesAreWellFormed(text);
    var kept := Slice(Sentences(text), n);
    WellFormedPrefix(Sentences(text), |kept|);
    assert kept == Sentences(text)[..|kept|];
    SentencesOfJoin(kept);
  }

  /** Summarizing twice is summarizing once to the smaller length, for every text and all lengths from 0 on. */
  lemma SummarizeTwice(text: string, n: nat, m: nat)
    ensures Summarize(Summarize(text, n), m) == Summarize(text, if n < m then n else m)
  {
    hide Summarize, Sentences;
    var k := if n < m then n else m;
    if IsBlank(text) {
      BlankSummary(text, n);
      BlankSummary(text, k);
      BlankSummary("", m);
    } else if n == 0 {
      EmptySummary(text);
      BlankSummary("", m);
    } else {
      SummarizeTwiceNonBlank(text, n, m);
    }
  }

  lemma SummarizeTwiceNonBlank(text: string, n: nat, m: nat)
    requires !IsBlank(text) && n > 0
    ensures Summarize(Summarize(text, n), m) == Summarize(text, if n < m then n else m)
  {
    hide Sentences, Join;
    SentencesAreWellFormed(text);
    SummaryRoundTrip(text, n);
    assert Slice(Slice(Sentences(text), n), m) == Slice(Sentences(text), if n < m then n else m);
  }

  lemma BlankSummary(text: string, n: nat)
    requires IsBlank(text)
    ensures Summarize(text, n) == ""
  {
    SentencesOfBlank(text);
  }

  lemma EmptySummary(text: string)
    ensures Summarize(text, 0) == ""
  {
  }

  // ---------------------------------------------------------------------------------------------
  // Words
  // ---------------------------------------------------------------------------------------------

  function WordEnd(s: string, p: nat): (r: nat)
    requires p <= |s|
    ensures p <= r <= |s|
    ensures p < |s| && !IsSpace(s[p]) ==> p < r
    ensures r < |s| ==> IsSpace(s[r])
    ensures forall q :: p <= q < r ==> !IsSpace(s[q])
    decreases |s| - p
  {
    if p < |s| && !IsSpace(s[p]) then WordEnd(s, p + 1) else p
  }

  /** `str.split()`. */
  function Words(s: string): seq<string>
    decreases |s|
  {
    if s == "" then []
    else if IsSpace(s[0]) then Words(s[1..])
    else [s[..WordEnd(s, 0)]] + Words(s[WordEnd(s, 0)..])
  }

  function AllWords(ss: seq<string>): seq<string> {
    if ss == [] then [] else Words(ss[0]) + AllWords(ss[1..])
  }

  /** No word straddles white space. */
  lemma {:induction false} WordsSplit(a: string, b: string)
    requires b == "" || IsSpace(b[0])
    ensures Words(a + b) == Words(a) + Words(b)
    decreases |a|
  {
    hide IsSpace;
    if a == "" {
      assert a + b == b;
    } else if IsSpace(a[0]) {
      assert (a + b)[1..] == a[1..] + b;
      WordsSplit(a[1..], b);
    } else {
      var e := WordEnd(a, 0);
      SameWordEnd(a, b);
      assert (a + b)[..e] == a[..e] && (a + b)[e..] == a[e..] + b;
      WordsSplit(a[e..], b);
      assert Words(a + b) == [a[..e]] + Words(a[e..] + b);
    }
  }

  lemma SameWordEnd(a: string, b: string)
    requires a != "" && !IsSpace(a[0]) && (b == "" || IsSpace(b[0]))
    ensures WordEnd(a + b, 0) == WordEnd(a, 0)
  {
    hide IsSpace;
    var e := WordEnd(a, 0);
    assert forall q :: 0 <= q < e ==> !IsSpace((a + b)[q]);
    assert e < |a + b| ==> IsSpace((a + b)[e]);
  }

  lemma {:induction false} WordsOfSpace(s: string, q: nat)
    requires q <= |s| && forall i :: 0 <= i < q ==> IsSpace(s[i])
    ensures Words(s) == Words(s[q..])
    decreases q
  {
    hide IsSpace;
    if q > 0 {
      WordsOfSpace(s[1..], q - 1);
      assert s[1..][q - 1..] == s[q..];
    }
  }

  lemma {:induction false} WordsOfPieces(s: string)
    ensures Words(s) == AllWords(Pieces(s))
    decreases |s|
  {
    hide Words, IsSpace, BreaksAt;
    if NextBreak(s, 0) == |s| {
      WordsOfOne(s);
    } else {
      var p, q := FirstPiece(s);
      WordsOfPieces(s[q..]);
      assert s == s[..p] + s[p..q] + s[q..];
      WordsAroundBreak(s[..p], s[p..q], s[q..]);
      assert Pieces(s)[1..] == Pieces(s[q..]);
    }
  }

  lemma WordsOfOne(s: string)
    ensures AllWords([s]) == Words(s)
  {
    assert AllWords([s][1..]) == [];
  }

  lemma WordsAroundBreak(a: string, gap: string, b: string)
    requires gap != "" && IsBlank(gap)
    ensures Words(a + gap + b) == Words(a) + Words(b)
  {
    hide Words;
    assert a + gap + b == a + (gap + b);
    WordsSplit(a, gap + b);
    WordsOfSpace(gap + b, |gap|);
    assert (gap + b)[|gap|..] == b;
  }

  lemma {:induction false} WordsOfJoin(ss: seq<string>)
    ensures Words(Join(ss)) == AllWords(ss)
  {
    if |ss| == 1 {
      assert AllWords(ss[1..]) == [];
    } else if |ss| > 1 {
      var rest := Join(ss[1..]);
      WordsOfJoin(ss[1..]);
      WordsSplit(ss[0], " " + rest);
      assert ss[0] + " " + rest == ss[0] + (" " + rest);
      assert (" " + rest)[1..] == rest;
    }
  }

  lemma {:induction false} WordsOfStrip(s: string)
    ensures Words(Strip(s)) == Words(s)
  {
    WordsOfLStrip(s);
    WordsOfRStrip(LStrip(s));
  }

  lemma WordsOfLStrip(s: string)
    ensures Words(LStrip(s)) == Words(s)
  {
  }

  lemma {:induction false} WordsOfRStrip(s: string)
    ensures Words(RStrip(s)) == Words(s)
    decreases |s|
  {
    hide IsSpace;
    if s != "" && IsSpace(s[|s| - 1]) {
      var a, b := s[..|s| - 1], s[|s| - 1..];
      assert s == a + b;
      WordsSplit(a, b);
      assert Words(b) == Words(b[1..]) == [];
      WordsOfRStrip(a);
    }
  }

  /** Splitting into sentences neither loses, adds nor reorders words. */
  lemma SentencesKeepWords(text: string)
    ensures AllWords(Sentences(text)) == Words(text)
  {
    WordsOfStrip(text);
    WordsOfPieces(Strip(text));
    if IsBlank(text) {
      SentencesOfBlank(text);
      StripBlank(text);
      assert AllWords([""]) == Words("") + AllWords([""][1..]);
    } else {
      SentencesAreWellFormed(text);
    }
  }

  lemma {:induction false} AllWordsSplit(ss: seq<string>, k: nat)
    requires k <= |ss|
    ensures AllWords(ss) == AllWords(ss[..k]) + AllWords(ss[k..])
    decreases k
  {
    if k > 0 {
      AllWordsSplit(ss[1..], k - 1);
      assert ss[1..][..k - 1] == ss[..k][1..] && ss[1..][k - 1..] == ss[k..];
      assert ss[..k][0] == ss[0];
    } else {
      assert ss[..0] == [] && ss[0..] == ss;
    }
  }

  /** The words of a summary are a prefix of the words of the text, whatever the requested length. */
  lemma SummaryWordsArePrefix(text: string, n: int)
    ensures Words(Summarize(text, n)) <= Words(text)
  {
    var ss := Sentences(text);
    var k := |Slice(ss, n)|;
    assert Slice(ss, n) == ss[..k];
    SentencesKeepWords(text);
    WordsOfJoin(ss[..k]);
    AllWordsSplit(ss, k);
  }

  lemma SentenceHasWords(s: string)
    requires Trimmed(s)
    ensures Words(s) != []
  {
    hide IsSpace;
  }

  lemma {:induction false} SentencesHaveWords(ss: seq<string>)
    requires forall i :: 0 <= i < |ss| ==> IsSentence(ss[i])
    ensures |AllWords(ss)| >= |ss|
  {
    hide IsSpace, BreaksAt, Words;
    if ss != [] {
      SentenceHasWords(ss[0]);
      assert forall i :: 0 <= i < |ss[1..]| ==> ss[1..][i] == ss[i + 1];
      SentencesHaveWords(ss[1..]);
    }
  }

  /** A summary keeps every word exactly when it keeps every sentence. */
  lemma SummaryLosslessIff(text: string, n: nat)
    requires !IsBlank(text)
    ensures Words(Summarize(text, n)) == Words(text) <==> n >= |Sentences(text)|
  {
    var ss := Sentences(text);
    var k := |Slice(ss, n)|;
    SentencesAreWellFormed(text);
    SentencesKeepWords(text);
    assert Slice(ss, n) == ss[..k];
    WordsOfJoin(ss[..k]);
    AllWordsSplit(ss, k);
    SentencesHaveWords(ss[k..]);
  }

  datatype Output = Output(summary: string, originalWordCount: nat, summaryWordCount: nat, compressionRatio: real)

  /** Python's `round(x)`: to the nearest integer, ties to the even one. */
  function RoundHalfEven(x: real): (n: int)
    ensures -0.5 <= x - n as real <= 0.5
    ensures x - n as real == 0.5 || x - n as real == -0.5 ==> n % 2 == 0
  {
    var f := x.Floor;
    var d := x - f as real;
    if d < 0.5 then f else if d > 0.5 then f + 1 else if f % 2 == 0 then f else f + 1
  }

  /** `round(x, 4)`, exactly. */
  function Round4(x: real): real { RoundHalfEven(x * 10000.0) as real / 10000.0 }

  function SummarizationOutput(text: string, summary: string): Output {
    var original, kept := |Words(text)|, |Words(summary)|;
    Output(summary, original, kept, if kept != 0 then Round4(original as real / kept as real) else 0.0)
  }

  function Run(text: string, maxSentences: int): Output {
    SummarizationOutput(text, Summarize(text, maxSentences))
  }

  /** What the service returns: the kept sentences, re-splittable into just those, with its own word counts. */
  lemma OutputIsSummary(text: string, n: int)
    ensures Run(text, n).originalWordCount == |Words(text)|
    ensures Run(text, n).summaryWordCount == |Words(Run(text, n).summary)|
    ensures Words(Run(text, n).summary) <= Words(text)
    ensures !IsBlank(text) && Slice(Sentences(text), n) != [] ==>
      Sentences(Run(text, n).summary) == Slice(Sentences(text), n)
    ensures IsBlank(text) || Slice(Sentences(text), n) == [] ==> Words(Run(text, n).summary) == []
  {
    SummaryWordsArePrefix(text, n);
    if IsBlank(text) {
      SentencesKeepWords(text);
      BlankHasNoWords(text);
    } else if Slice(Sentences(text), n) != [] {
      SummaryRoundTrip(text, n);
    }
  }

  lemma BlankHasNoWords(text: string)
    requires IsBlank(text)
    ensures Words(text) == []
  {
    WordsOfStrip(text);
    StripBlank(text);
  }

  /** Summaries never grow; the ratio, rounded to four places, is at least 1 exactly when some sentence of a
      non-blank text is kept. */
  lemma CompressionRatio(text: string, n: int)
    ensures Run(text, n).summaryWordCount <= Run(text, n).originalWordCount
    ensures Run(text, n).compressionRatio >= 1.0 <==> (!IsBlank(text) && Slice(Sentences(text), n) != [])
    ensures Run(text, n).compressionRatio < 1.0 ==> Run(text, n).compressionRatio == 0.0
    ensures var out := Run(text, n);
      out.summaryWordCount > 0 ==>
        -0.00005 <= out.compressionRatio - out.originalWordCount as real / out.summaryWordCount as real <= 0.00005
  {
    SummaryWordsArePrefix(text, n);
    var ss := Sentences(text);
    var kept := Slice(ss, n);
    assert kept == ss[..|kept|];
    WordsOfJoin(kept);
    if IsBlank(text) {
      SentencesOfBlank(text);
      SentencesKeepWords(text);
      assert AllWords([""]) == Words("") + AllWords([""][1..]);
    } else {
      SentencesAreWellFormed(text);
      SentencesHaveWords(kept);
    }
    Ratio(|Words(text)|, |Words(Summarize(text, n))|);
  }

  lemma Ratio(a: nat, b: nat)
    requires b <= a
    ensures b != 0 ==> Round4(a as real / b as real) >= 1.0
    ensures b != 0 ==> -0.00005 <= Round4(a as real / b as real) - a as real / b as real <= 0.00005
  {
    if b != 0 {
      var x := a as real / b as real;
      assert x >= 1.0;
      RoundsNear(x);
    }
  }

  lemma RoundsNear(x: real)
    ensures -0.00005 <= Round4(x) - x <= 0.00005
    ensures x >= 1.0 ==> Round4(x) >= 1.0
  {
    var n := RoundHalfEven(x * 10000.0);
    assert x >= 1.0 ==> n >= 10000;
  }
}
