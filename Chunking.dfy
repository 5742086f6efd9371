/** Model of src/chunking.py: whitespace normalisation, the paragraph and
    sentence splitters (each regex written out as a character-level scan),
    the packing loop that builds overlapping chunks, and the numbering of
    chunks across pages. */
module Chunking {
  import opened Common
  import opened Text

  // ---------------------------------------------------------------------
  // clean_text
  // ---------------------------------------------------------------------

  /** The class `[ \t]` of the first substitution. */
  predicate IsBlank(c: char) {
    c == ' ' || c == '\t'
  }

  predicate NoTab(s: string) {
    forall i :: 0 <= i < |s| ==> s[i] != '\t'
  }

  predicate NoDoubleSpace(s: string) {
    forall i :: 0 <= i < |s| - 1 ==> !(s[i] == ' ' && s[i + 1] == ' ')
  }

  predicate NoTripleNewline(s: string) {
    forall i :: 0 <= i < |s| - 2 ==> !(s[i] == '\n' && s[i + 1] == '\n' && s[i + 2] == '\n')
  }

  /** Length of the run of spaces and tabs at the front of `s`. */
  function BlankRun(s: string): (n: nat)
    ensures 0 < |s| && IsBlank(s[0]) ==> 0 < n
    ensures n <= |s|
    ensures forall i :: 0 <= i < n ==> IsBlank(s[i])
    ensures n < |s| ==> !IsBlank(s[n])
  {
    if s == [] || !IsBlank(s[0]) then 0 else 1 + BlankRun(s[1..])
  }

  /** `re.sub(r'[ \t]+', ' ', s)`: every maximal run of spaces and tabs
      becomes one space. */
  function CollapseBlanks(s: string): (r: string)
    ensures s == [] <==> r == []
    ensures s != [] ==> r[0] == (if IsBlank(s[0]) then ' ' else s[0])
    ensures NoTab(r) && NoDoubleSpace(r)
    ensures AllSpace(r) <==> AllSpace(s)
    decreases |s|
  {
    if s == [] then []
    else if IsBlank(s[0]) then
      var n := BlankRun(s);
      var rest := CollapseBlanks(s[n..]);
      assert AllSpace(s) <==> AllSpace(s[n..]) by {
        assert forall i :: 0 <= i < n ==> IsSpace(s[i]);
        assert forall i :: n <= i < |s| ==> s[i] == s[n..][i - n];
      }
      AllSpaceConcat(" ", rest);
      " " + rest
    else
      var rest := CollapseBlanks(s[1..]);
      assert AllSpace(s) <==> IsSpace(s[0]) && AllSpace(s[1..]) by {
        assert forall i :: 1 <= i < |s| ==> s[i] == s[1..][i - 1];
      }
      AllSpaceConcat([s[0]], rest);
      [s[0]] + rest
  }

  /** Length of the run of newlines at the front of `s`. */
  function NewlineRun(s: string): (n: nat)
    ensures 0 < |s| && s[0] == '\n' ==> 0 < n
    ensures n <= |s|
    ensures forall i :: 0 <= i < n ==> s[i] == '\n'
    ensures n < |s| ==> s[n] != '\n'
  {
    if s == [] || s[0] != '\n' then 0 else 1 + NewlineRun(s[1..])
  }

  /** `re.sub(r'\n{3,}', '\n\n', s)`: every maximal run of three or more
      newlines becomes exactly two. */
  function CapNewlines(s: string): (r: string)
    ensures s == [] <==> r == []
    ensures s != [] ==> r[0] == s[0]
    decreases |s|
  {
    if s == [] then []
    else if s[0] == '\n' then
      var n := NewlineRun(s);
      (if n >= 3 then "\n\n" else s[..n]) + CapNewlines(s[n..])
    else [s[0]] + CapNewlines(s[1..])
  }

  /** After capping, no three newlines are adjacent. */
  lemma {:induction false} CapNewlinesNoTriple(s: string)
    ensures NoTripleNewline(CapNewlines(s))
    decreases |s|
  {
    if s != [] {
      if s[0] == '\n' {
        var n := NewlineRun(s);
        var head := if n >= 3 then "\n\n" else s[..n];
        var rest := CapNewlines(s[n..]);
        CapNewlinesNoTriple(s[n..]);
        var r := head + rest;
        forall i | 0 <= i < |r| - 2
          ensures !(r[i] == '\n' && r[i + 1] == '\n' && r[i + 2] == '\n')
        {
          if i >= |head| {
            assert r[i] == rest[i - |head|];
            assert r[i + 1] == rest[i - |head| + 1];
            assert r[i + 2] == rest[i - |head| + 2];
          } else {
            assert r[|head|] == rest[0] == s[n];
          }
        }
      } else {
        var rest := CapNewlines(s[1..]);
        CapNewlinesNoTriple(s[1..]);
        var r := [s[0]] + rest;
        forall i | 0 <= i < |r| - 2
          ensures !(r[i] == '\n' && r[i + 1] == '\n' && r[i + 2] == '\n')
        {
          if i >= 1 {
            assert r[i] == rest[i - 1] && r[i + 1] == rest[i] && r[i + 2] == rest[i + 1];
          }
        }
      }
    }
  }

  /** The head that `CapNewlines` emits for the first n characters, and the
      decomposition it follows. */
  function CapStep(s: string): (n: nat)
    requires s != []
    ensures 0 < n <= |s|
    ensures CapNewlines(s) == CapHead(s) + CapNewlines(s[n..])
  {
    if s[0] == '\n' then NewlineRun(s) else 1
  }

  function CapHead(s: string): (h: string)
    requires s != []
  {
    if s[0] != '\n' then [s[0]] else if NewlineRun(s) >= 3 then "\n\n" else s[..NewlineRun(s)]
  }

  lemma {:induction false} CapNewlinesNoTab(s: string)
    requires NoTab(s)
    ensures NoTab(CapNewlines(s))
    decreases |s|
  {
    if s != [] {
      var n := CapStep(s);
      var head, rest := CapHead(s), CapNewlines(s[n..]);
      assert NoTab(s[n..]) by { assert forall i :: 0 <= i < |s[n..]| ==> s[n..][i] == s[n + i]; }
      CapNewlinesNoTab(s[n..]);
      var r := head + rest;
      forall i | 0 <= i < |r| ensures r[i] != '\t' {
        if i >= |head| { assert r[i] == rest[i - |head|]; }
      }
    }
  }

  lemma {:induction false} CapNewlinesNoDoubleSpace(s: string)
    requires NoDoubleSpace(s)
    ensures NoDoubleSpace(CapNewlines(s))
    decreases |s|
  {
    if s != [] {
      var n := CapStep(s);
      var head, rest := CapHead(s), CapNewlines(s[n..]);
      assert NoDoubleSpace(s[n..]) by {
        forall i | 0 <= i < |s[n..]| - 1 ensures !(s[n..][i] == ' ' && s[n..][i + 1] == ' ') {
          assert s[n..][i] == s[n + i] && s[n..][i + 1] == s[n + i + 1];
        }
      }
      CapNewlinesNoDoubleSpace(s[n..]);
      var r := head + rest;
      forall i | 0 <= i < |r| - 1 ensures !(r[i] == ' ' && r[i + 1] == ' ') {
        if i >= |head| {
          assert r[i] == rest[i - |head|] && r[i + 1] == rest[i - |head| + 1];
        } else if s[0] == '\n' {
          assert r[i] == '\n';
        } else {
          assert r[1] == rest[0] == s[1];
        }
      }
    }
  }

  lemma {:induction false} CapNewlinesAllSpace(s: string)
    ensures AllSpace(CapNewlines(s)) <==> AllSpace(s)
    decreases |s|
  {
    if s != [] {
      var n := CapStep(s);
      CapNewlinesAllSpace(s[n..]);
      AllSpaceConcat(CapHead(s), CapNewlines(s[n..]));
      AllSpaceSplit(s, n);
      CapHeadAllSpace(s, n);
    }
  }

  lemma {:induction false} CapHeadAllSpace(s: string, n: nat)
    requires s != [] && n == CapStep(s)
    ensures AllSpace(CapHead(s)) <==> AllSpace(s[..n])
  {
    var head := CapHead(s);
    if s[0] != '\n' {
      assert head == s[..n];
    } else {
      assert AllSpace(s[..n]) by {
        forall i | 0 <= i < n ensures IsSpace(s[..n][i]) { assert s[..n][i] == s[i] == '\n'; }
      }
      assert AllSpace(head) by {
        forall i | 0 <= i < |head| ensures IsSpace(head[i]) { assert head[i] == '\n'; }
      }
    }
  }

  /** A slice of normalised text is still normalised. */
  lemma {:induction false} NormalisedSlice(s: string, a: nat, b: nat)
    requires a <= b <= |s|
    ensures NoTab(s) ==> NoTab(s[a..b])
    ensures NoDoubleSpace(s) ==> NoDoubleSpace(s[a..b])
    ensures NoTripleNewline(s) ==> NoTripleNewline(s[a..b])
  {
    var t := s[a..b];
    assert forall i :: 0 <= i < |t| ==> t[i] == s[a + i];
  }

  /** `clean_text`: collapse spaces and tabs, cap newline runs at two, strip. */
  function CleanText(text: string): (r: string)
    ensures NoTab(r) && NoDoubleSpace(r) && NoTripleNewline(r) && IsStripped(r)
    ensures r == [] <==> AllSpace(text)
  {
    if text == [] then ""
    else
      var t := CapNewlines(CollapseBlanks(text));
      CapNewlinesNoTriple(CollapseBlanks(text));
      CapNewlinesNoTab(CollapseBlanks(text));
      CapNewlinesNoDoubleSpace(CollapseBlanks(text));
      CapNewlinesAllSpace(CollapseBlanks(text));
      StripIsSlice(t);
      var a, b :| 0 <= a <= b <= |t| && Strip(t) == t[a..b];
      NormalisedSlice(t, a, b);
      Strip(t)
  }

  // ---------------------------------------------------------------------
  // split_into_paragraphs: re.split(r'\n\s*\n', text)
  // ---------------------------------------------------------------------

  /** The largest k in [lo, hi) with s[k] == '\n'. */
  function LastNewline(s: string, lo: nat, hi: nat): (r: Option<nat>)
    requires lo <= hi <= |s|
    ensures r.Some? ==> lo <= r.value < hi && s[r.value] == '\n'
    ensures r.Some? ==> forall k :: r.value < k < hi ==> s[k] != '\n'
    ensures r.None? ==> forall k :: lo <= k < hi ==> s[k] != '\n'
    decreases hi - lo
  {
    if hi == lo then None
    else if s[hi - 1] == '\n' then Some(hi - 1)
    else LastNewline(s, lo, hi - 1)
  }

  // ---------------------------------------------------------------------
  // What `re.split` returns, stated over the separators it matched
  // ---------------------------------------------------------------------

  /** Where piece k of a split begins: at `start`, or just after separator
      k - 1. */
  function PieceStart(start: nat, spans: seq<(nat, nat)>, k: nat): nat
    requires k <= |spans|
  {
    if k == 0 then start else spans[k - 1].1
  }

  /** Where piece k of a split ends: at separator k, or at the end of the
      text. */
  function PieceEnd(s: string, spans: seq<(nat, nat)>, k: nat): nat
    requires k <= |spans|
  {
    if k < |spans| then spans[k].0 else |s|
  }

  /** The pieces are the text around the separators `spans` (each a
      non-empty [begin, end) range of `s`, in order): piece k runs from the
      end of separator k - 1 to the beginning of separator k. */
  predicate SplitAt(s: string, start: nat, pieces: seq<string>, spans: seq<(nat, nat)>) {
    && |pieces| == |spans| + 1
    && (forall k :: 0 <= k < |spans| ==> spans[k].0 < spans[k].1)
    && forall k :: 0 <= k <= |spans| ==>
         && PieceStart(start, spans, k) <= PieceEnd(s, spans, k) <= |s|
         && pieces[k] == s[PieceStart(start, spans, k)..PieceEnd(s, spans, k)]
  }

  /** The pieces with the separators between them. */
  function Interleave(pieces: seq<string>, seps: seq<string>): string
    requires |pieces| == |seps| + 1
    decreases |seps|
  {
    if seps == [] then pieces[0] else pieces[0] + seps[0] + Interleave(pieces[1..], seps[1..])
  }

  /** The text each separator matched. */
  function Separators(s: string, spans: seq<(nat, nat)>): (r: seq<string>)
    requires forall k :: 0 <= k < |spans| ==> spans[k].0 <= spans[k].1 <= |s|
    ensures |r| == |spans|
    ensures forall k :: 0 <= k < |r| ==> r[k] == s[spans[k].0..spans[k].1]
  {
    seq(|spans|, k requires 0 <= k < |spans| => s[spans[k].0..spans[k].1])
  }

  /** One more piece and separator in front of a split. */
  lemma {:induction false} SplitAtCons(s: string, start: nat, i: nat, e: nat, pieces: seq<string>, spans: seq<(nat, nat)>)
    requires start <= i < e <= |s| && SplitAt(s, e, pieces, spans)
    ensures SplitAt(s, start, [s[start..i]] + pieces, [(i, e)] + spans)
  {
    var ps, sp := [s[start..i]] + pieces, [(i, e)] + spans;
    assert PieceStart(e, spans, 0) <= PieceEnd(s, spans, 0) <= |s|;
    forall k | 0 <= k <= |sp|
      ensures PieceStart(start, sp, k) <= PieceEnd(s, sp, k) <= |s|
      ensures ps[k] == s[PieceStart(start, sp, k)..PieceEnd(s, sp, k)]
    {
      if k > 0 {
        assert PieceStart(start, sp, k) == PieceStart(e, spans, k - 1);
        assert PieceEnd(s, sp, k) == PieceEnd(s, spans, k - 1);
      }
    }
  }

  /** The separators of a split lie within the text, and so does `start`. */
  lemma {:induction false} SplitAtBounds(s: string, start: nat, pieces: seq<string>, spans: seq<(nat, nat)>)
    requires SplitAt(s, start, pieces, spans)
    ensures start <= |s|
    ensures forall k :: 0 <= k < |spans| ==> spans[k].0 <= spans[k].1 <= |s|
  {
    assert PieceStart(start, spans, 0) <= PieceEnd(s, spans, 0);
    forall k | 0 <= k < |spans| ensures spans[k].0 <= spans[k].1 <= |s| {
      assert PieceStart(start, spans, k + 1) <= PieceEnd(s, spans, k + 1) <= |s|;
    }
  }

  /** What follows the first separator of a split is a split itself. */
  lemma {:induction false} SplitAtTail(s: string, start: nat, pieces: seq<string>, spans: seq<(nat, nat)>)
    requires SplitAt(s, start, pieces, spans) && spans != []
    ensures SplitAt(s, spans[0].1, pieces[1..], spans[1..])
  {
    var e, rest, restSpans := spans[0].1, pieces[1..], spans[1..];
    forall k | 0 <= k <= |restSpans|
      ensures PieceStart(e, restSpans, k) <= PieceEnd(s, restSpans, k) <= |s|
      ensures rest[k] == s[PieceStart(e, restSpans, k)..PieceEnd(s, restSpans, k)]
    {
      assert PieceStart(e, restSpans, k) == PieceStart(start, spans, k + 1);
      assert PieceEnd(s, restSpans, k) == PieceEnd(s, spans, k + 1);
    }
  }

  /** A split rebuilds the text: the pieces with the matched separators
      between them are the text from `start` on. */
  lemma {:induction false} SplitRebuilds(s: string, start: nat, pieces: seq<string>, spans: seq<(nat, nat)>)
    requires SplitAt(s, start, pieces, spans)
    ensures forall k :: 0 <= k < |spans| ==> spans[k].0 <= spans[k].1 <= |s|
    ensures start <= |s| && s[start..] == Interleave(pieces, Separators(s, spans))
    decreases |spans|
  {
    SplitAtBounds(s, start, pieces, spans);
    if spans == [] {
      assert PieceEnd(s, spans, 0) == |s|;
    } else {
      var b, e := spans[0].0, spans[0].1;
      SplitAtTail(s, start, pieces, spans);
      SplitRebuilds(s, e, pieces[1..], spans[1..]);
      var seps := Separators(s, spans);
      assert seps[1..] == Separators(s, spans[1..]);
      assert pieces[0] == s[start..b] by {
        assert PieceStart(start, spans, 0) == start && PieceEnd(s, spans, 0) == b;
      }
      assert s[start..] == s[start..b] + s[b..e] + s[e..];
    }
  }

  /** Where a match of `\n\s*\n` starting at position i ends (exclusive), if
      there is one. The greedy `\s*` takes the whole whitespace run after the
      first newline and gives back characters until a newline follows, so the
      match ends just after the last newline of that run. */
  function BlankLineAt(s: string, i: nat): (r: Option<nat>)
    requires i < |s|
    ensures r.Some? ==> i + 2 <= r.value <= |s|
  {
    if s[i] != '\n' then None
    else
      var e := i + 1 + StartWs(s[i + 1..]);
      match LastNewline(s, i + 1, e)
      case None => None
      case Some(k) => Some(k + 1)
  }

  /** The pieces `re.split` returns, scanning from position i for the leftmost
      match; the current piece began at `start`. */
  function SplitOnBlankLines(s: string, start: nat, i: nat): (r: seq<string>)
    requires start <= i <= |s|
    ensures r != []
    decreases |s| - i
  {
    if i == |s| then [s[start..]]
    else match BlankLineAt(s, i)
      case Some(e) => [s[start..i]] + SplitOnBlankLines(s, e, e)
      case None => SplitOnBlankLines(s, start, i + 1)
  }

  /** Where the scan from position i finds the separators of
      `SplitOnBlankLines`. */
  ghost function BlankLineSpans(s: string, i: nat): seq<(nat, nat)>
    requires i <= |s|
    decreases |s| - i
  {
    if i == |s| then []
    else match BlankLineAt(s, i)
      case Some(e) => [(i, e)] + BlankLineSpans(s, e)
      case None => BlankLineSpans(s, i + 1)
  }

  /** No match of `\n\s*\n` starts in [lo, hi). */
  predicate NoBlankLineIn(s: string, lo: nat, hi: nat) {
    forall p :: lo <= p < hi && p < |s| ==> BlankLineAt(s, p).None?
  }

  /** `re.split(r'\n\s*\n', s)`: the pieces are the text around the
      separators, every separator is a match, and no piece holds the start
      of a match, so each separator is the leftmost match after the one
      before; the pieces and separators rebuild the text. */
  lemma {:induction false} BlankLineSplit(s: string, start: nat, i: nat)
    requires start <= i <= |s| && NoBlankLineIn(s, start, i)
    ensures BlankLineSplits(s, start, SplitOnBlankLines(s, start, i), BlankLineSpans(s, i))
    ensures s[start..] == Interleave(SplitOnBlankLines(s, start, i), Separators(s, BlankLineSpans(s, i)))
  {
    BlankLineSplitShape(s, start, i);
    SplitRebuilds(s, start, SplitOnBlankLines(s, start, i), BlankLineSpans(s, i));
  }

  /** The scan's pieces and separators have that shape. */
  predicate BlankLineSplits(s: string, start: nat, pieces: seq<string>, spans: seq<(nat, nat)>) {
    && SplitAt(s, start, pieces, spans)
    && (forall k :: 0 <= k < |spans| ==> spans[k].0 < |s| && BlankLineAt(s, spans[k].0) == Some(spans[k].1))
    && (forall k :: 0 <= k <= |spans| ==> NoBlankLineIn(s, PieceStart(start, spans, k), PieceEnd(s, spans, k)))
  }

  lemma {:induction false} BlankLineSplitShape(s: string, start: nat, i: nat)
    requires start <= i <= |s| && NoBlankLineIn(s, start, i)
    ensures BlankLineSplits(s, start, SplitOnBlankLines(s, start, i), BlankLineSpans(s, i))
    decreases |s| - i
  {
    if i == |s| {
      assert PieceEnd(s, [], 0) == |s|;
    } else {
      match BlankLineAt(s, i)
      case Some(e) =>
        BlankLineSplitShape(s, e, e);
        BlankLineSplitsCons(s, start, i, e, SplitOnBlankLines(s, e, e), BlankLineSpans(s, e));
      case None =>
        BlankLineSplitShape(s, start, i + 1);
    }
  }

  /** A match at i, with none before it since `start`, puts one more piece
      and separator in front. */
  lemma {:induction false} BlankLineSplitsCons(s: string, start: nat, i: nat, e: nat, pieces: seq<string>, spans: seq<(nat, nat)>)
    requires start <= i < |s| && BlankLineAt(s, i) == Some(e) && NoBlankLineIn(s, start, i)
    requires BlankLineSplits(s, e, pieces, spans)
    ensures BlankLineSplits(s, start, [s[start..i]] + pieces, [(i, e)] + spans)
  {
    SplitAtCons(s, start, i, e, pieces, spans);
    BlankLineMatchesCons(s, i, e, spans);
    NoBlankLineCons(s, start, i, e, spans);
  }

  lemma {:induction false} BlankLineMatchesCons(s: string, i: nat, e: nat, spans: seq<(nat, nat)>)
    requires i < |s| && BlankLineAt(s, i) == Some(e)
    requires forall k :: 0 <= k < |spans| ==> spans[k].0 < |s| && BlankLineAt(s, spans[k].0) == Some(spans[k].1)
    ensures var sp := [(i, e)] + spans;
      forall k :: 0 <= k < |sp| ==> sp[k].0 < |s| && BlankLineAt(s, sp[k].0) == Some(sp[k].1)
  {
    var sp := [(i, e)] + spans;
    forall k | 0 <= k < |sp| ensures sp[k].0 < |s| && BlankLineAt(s, sp[k].0) == Some(sp[k].1) {
      if k > 0 { assert sp[k] == spans[k - 1]; }
    }
  }

  lemma {:induction false} NoBlankLineCons(s: string, start: nat, i: nat, e: nat, spans: seq<(nat, nat)>)
    requires NoBlankLineIn(s, start, i)
    requires forall k :: 0 <= k <= |spans| ==> NoBlankLineIn(s, PieceStart(e, spans, k), PieceEnd(s, spans, k))
    ensures var sp := [(i, e)] + spans;
      forall k :: 0 <= k <= |sp| ==> NoBlankLineIn(s, PieceStart(start, sp, k), PieceEnd(s, sp, k))
  {
    var sp := [(i, e)] + spans;
    forall k | 0 <= k <= |sp|
      ensures NoBlankLineIn(s, PieceStart(start, sp, k), PieceEnd(s, sp, k))
    {
      if k > 0 {
        assert PieceStart(start, sp, k) == PieceStart(e, spans, k - 1);
        assert PieceEnd(s, sp, k) == PieceEnd(s, spans, k - 1);
      }
    }
  }

  /** `[p.strip() for p in pieces if p.strip()]` */
  function StrippedNonEmpty(pieces: seq<string>): (r: seq<string>)
    ensures |r| <= |pieces|
    ensures forall k :: 0 <= k < |r| ==> r[k] != [] && IsStripped(r[k])
  {
    if pieces == [] then []
    else
      var p := Strip(pieces[0]);
      (if p == [] then [] else [p]) + StrippedNonEmpty(pieces[1..])
  }

  /** `split_into_paragraphs` */
  function SplitParagraphs(text: string): (r: seq<string>)
    ensures forall k :: 0 <= k < |r| ==> r[k] != [] && IsStripped(r[k])
  {
    StrippedNonEmpty(SplitOnBlankLines(text, 0, 0))
  }

  // ---------------------------------------------------------------------
  // split_into_sentences: re.split(r'(?<=[.?!。])\s+', text)
  // ---------------------------------------------------------------------

  predicate IsTerminal(c: char) {
    c == '.' || c == '?' || c == '!' || c == '。'
  }

  /** Where a match of `(?<=[.?!。])\s+` starting at position i ends: the whole
      whitespace run, provided the character before it ends a sentence. */
  function SentenceBreakAt(s: string, i: nat): (r: Option<nat>)
    requires i < |s|
    ensures r.Some? ==> i < r.value <= |s|
  {
    if 0 < i && IsTerminal(s[i - 1]) && IsSpace(s[i]) then Some(i + StartWs(s[i..])) else None
  }

  function SplitOnSentenceBreaks(s: string, start: nat, i: nat): (r: seq<string>)
    requires start <= i <= |s|
    ensures r != []
    decreases |s| - i
  {
    if i == |s| then [s[start..]]
    else match SentenceBreakAt(s, i)
      case Some(e) => [s[start..i]] + SplitOnSentenceBreaks(s, e, e)
      case None => SplitOnSentenceBreaks(s, start, i + 1)
  }

  /** Where the scan from position i finds the separators of
      `SplitOnSentenceBreaks`. */
  ghost function SentenceBreakSpans(s: string, i: nat): seq<(nat, nat)>
    requires i <= |s|
    decreases |s| - i
  {
    if i == |s| then []
    else match SentenceBreakAt(s, i)
      case Some(e) => [(i, e)] + SentenceBreakSpans(s, e)
      case None => SentenceBreakSpans(s, i + 1)
  }

  /** No match of `(?<=[.?!。])\s+` starts in [lo, hi). */
  predicate NoSentenceBreakIn(s: string, lo: nat, hi: nat) {
    forall p :: lo <= p < hi && p < |s| ==> SentenceBreakAt(s, p).None?
  }

  /** `re.split(r'(?<=[.?!。])\s+', s)`: the pieces are the text around the
      separators, every separator is a match, no piece holds the start of a
      match, and the pieces and separators rebuild the text. */
  lemma {:induction false} SentenceBreakSplit(s: string, start: nat, i: nat)
    requires start <= i <= |s| && NoSentenceBreakIn(s, start, i)
    ensures SentenceBreakSplits(s, start, SplitOnSentenceBreaks(s, start, i), SentenceBreakSpans(s, i))
    ensures s[start..] == Interleave(SplitOnSentenceBreaks(s, start, i), Separators(s, SentenceBreakSpans(s, i)))
  {
    SentenceBreakSplitShape(s, start, i);
    SplitRebuilds(s, start, SplitOnSentenceBreaks(s, start, i), SentenceBreakSpans(s, i));
  }

  /** The scan's pieces and separators have that shape. */
  predicate SentenceBreakSplits(s: string, start: nat, pieces: seq<string>, spans: seq<(nat, nat)>) {
    && SplitAt(s, start, pieces, spans)
    && (forall k :: 0 <= k < |spans| ==> spans[k].0 < |s| && SentenceBreakAt(s, spans[k].0) == Some(spans[k].1))
    && (forall k :: 0 <= k <= |spans| ==> NoSentenceBreakIn(s, PieceStart(start, spans, k), PieceEnd(s, spans, k)))
  }

  lemma {:induction false} SentenceBreakSplitShape(s: string, start: nat, i: nat)
    requires start <= i <= |s| && NoSentenceBreakIn(s, start, i)
    ensures SentenceBreakSplits(s, start, SplitOnSentenceBreaks(s, start, i), SentenceBreakSpans(s, i))
    decreases |s| - i
  {
    if i == |s| {
      assert PieceEnd(s, [], 0) == |s|;
    } else {
      match SentenceBreakAt(s, i)
      case Some(e) =>
        SentenceBreakSplitShape(s, e, e);
        SentenceBreakSplitsCons(s, start, i, e, SplitOnSentenceBreaks(s, e, e), SentenceBreakSpans(s, e));
      case None =>
        SentenceBreakSplitShape(s, start, i + 1);
    }
  }

  /** A match at i, with none before it since `start`, puts one more piece
      and separator in front. */
  lemma {:induction false} SentenceBreakSplitsCons(s: string, start: nat, i: nat, e: nat, pieces: seq<string>, spans: seq<(nat, nat)>)
    requires start <= i < |s| && SentenceBreakAt(s, i) == Some(e) && NoSentenceBreakIn(s, start, i)
    requires SentenceBreakSplits(s, e, pieces, spans)
    ensures SentenceBreakSplits(s, start, [s[start..i]] + pieces, [(i, e)] + spans)
  {
    SplitAtCons(s, start, i, e, pieces, spans);
    SentenceBreakMatchesCons(s, i, e, spans);
    NoSentenceBreakCons(s, start, i, e, spans);
  }

  lemma {:induction false} SentenceBreakMatchesCons(s: string, i: nat, e: nat, spans: seq<(nat, nat)>)
    requires i < |s| && SentenceBreakAt(s, i) == Some(e)
    requires forall k :: 0 <= k < |spans| ==> spans[k].0 < |s| && SentenceBreakAt(s, spans[k].0) == Some(spans[k].1)
    ensures var sp := [(i, e)] + spans;
      forall k :: 0 <= k < |sp| ==> sp[k].0 < |s| && SentenceBreakAt(s, sp[k].0) == Some(sp[k].1)
  {
    var sp := [(i, e)] + spans;
    forall k | 0 <= k < |sp| ensures sp[k].0 < |s| && SentenceBreakAt(s, sp[k].0) == Some(sp[k].1) {
      if k > 0 { assert sp[k] == spans[k - 1]; }
    }
  }

  lemma {:induction false} NoSentenceBreakCons(s: string, start: nat, i: nat, e: nat, spans: seq<(nat, nat)>)
    requires NoSentenceBreakIn(s, start, i)
    requires forall k :: 0 <= k <= |spans| ==> NoSentenceBreakIn(s, PieceStart(e, spans, k), PieceEnd(s, spans, k))
    ensures var sp := [(i, e)] + spans;
      forall k :: 0 <= k <= |sp| ==> NoSentenceBreakIn(s, PieceStart(start, sp, k), PieceEnd(s, sp, k))
  {
    var sp := [(i, e)] + spans;
    forall k | 0 <= k <= |sp|
      ensures NoSentenceBreakIn(s, PieceStart(start, sp, k), PieceEnd(s, sp, k))
    {
      if k > 0 {
        assert PieceStart(start, sp, k) == PieceStart(e, spans, k - 1);
        assert PieceEnd(s, sp, k) == PieceEnd(s, spans, k - 1);
      }
    }
  }

  /** `split_into_sentences` */
  function SplitSentences(text: string): (r: seq<string>)
    ensures forall k :: 0 <= k < |r| ==> r[k] != [] && IsStripped(r[k])
  {
    StrippedNonEmpty(SplitOnSentenceBreaks(text, 0, 0))
  }

  // ---------------------------------------------------------------------
  // create_chunks_with_overlap
  // ---------------------------------------------------------------------

  /** A chunk record as the chunker emits it. */
  datatype Chunk = Chunk(chunkId: nat, text: string, charCount: nat)

  /** `range()` refuses a zero step, so the forced split raises ValueError
      when chunk_size == overlap. */
  datatype ChunkError = ZeroStep

  /** The state of the packing loop: the chunks emitted so far and the
      accumulator `current_chunk`. The program's `chunk_id` counter always
      equals |chunks|. */
  datatype Packer = Packer(chunks: seq<Chunk>, current: string)

  /** A chunk record: the stripped text and its length. */
  function MakeChunk(id: nat, raw: string): Chunk {
    var t := Strip(raw);
    Chunk(id, t, |t|)
  }

  /** Ids 0, 1, 2, ... in emission order, and every `char_count` is the length
      of its stripped text. */
  predicate WellNumbered(cs: seq<Chunk>) {
    forall k :: 0 <= k < |cs| ==>
      cs[k].chunkId == k && cs[k].charCount == |cs[k].text| && IsStripped(cs[k].text)
  }

  /** Emit the accumulator as the next chunk. */
  function Flush(chunks: seq<Chunk>, current: string): seq<Chunk> {
    chunks + [MakeChunk(|chunks|, current)]
  }

  /** The accumulator after a flush: the last `overlap` characters of the
      flushed text, the separator and the new piece; or the piece alone when
      there is no overlap or the flushed text is not longer than it. */
  function Seed(flushed: string, sep: string, piece: string, overlap: int): string {
    if overlap > 0 && |flushed| > overlap then flushed[|flushed| - overlap..] + sep + piece else piece
  }

  /** The raw slices `sent[i:i+size]` for i = from, from+step, ... < |sent|. */
  function RawSlices(sent: string, size: nat, step: nat, from: nat): seq<string>
    requires step > 0
    decreases |sent| - from
  {
    if from >= |sent| then []
    else [sent[from..Min(from + size, |sent|)]] + RawSlices(sent, size, step, from + step)
  }

  /** Chunk records for consecutive raw texts, numbered from `id`. */
  function Number(raws: seq<string>, id: nat): (r: seq<Chunk>)
    ensures |r| == |raws|
    ensures forall k :: 0 <= k < |r| ==> r[k] == MakeChunk(id + k, raws[k])
  {
    seq(|raws|, k requires 0 <= k < |raws| => MakeChunk(id + k, raws[k]))
  }

  lemma {:induction false} NumberSnoc(chunks0: seq<Chunk>, raws: seq<string>, raw: string)
    ensures chunks0 + Number(raws + [raw], |chunks0|)
            == chunks0 + Number(raws, |chunks0|) + [MakeChunk(|chunks0 + Number(raws, |chunks0|)|, raw)]
  {
    assert forall k :: 0 <= k < |raws| ==> (raws + [raw])[k] == raws[k];
  }

  /** The forced split of a sentence longer than any chunk: a zero step is an
      error, a negative step gives no slice at all. */
  function ForcedSplit(sent: string, size: nat, overlap: int, id: nat): Result<seq<Chunk>, ChunkError> {
    var step := size - overlap;
    if step == 0 then Err(ZeroStep)
    else if step < 0 then Ok([])
    else Ok(Number(RawSlices(sent, size, step, 0), id))
  }

  /** One iteration of the sentence loop. */
  function SentenceStep(p: Packer, sent: string, size: nat, overlap: int): Result<Packer, ChunkError> {
    if |p.current| + |sent| + 1 <= size then
      Ok(Packer(p.chunks, p.current + (if p.current == [] then "" else " ") + sent))
    else if p.current != [] then
      Ok(Packer(Flush(p.chunks, p.current), Seed(p.current, " ", sent, overlap)))
    else if |sent| > size then
      match ForcedSplit(sent, size, overlap, |p.chunks|)
      case Err(e) => Err(e)
      case Ok(cs) => Ok(Packer(p.chunks + cs, p.current))
    else Ok(Packer(p.chunks, sent))
  }

  /** The sentence loop, as a fold over the sentences processed so far. */
  function PackSentences(p: Packer, sents: seq<string>, size: nat, overlap: int): Result<Packer, ChunkError>
    decreases |sents|
  {
    if sents == [] then Ok(p)
    else match PackSentences(p, sents[..|sents| - 1], size, overlap)
      case Err(e) => Err(e)
      case Ok(q) => SentenceStep(q, sents[|sents| - 1], size, overlap)
  }

  /** One iteration of the paragraph loop. */
  function ParagraphStep(p: Packer, para: string, size: nat, overlap: int): Result<Packer, ChunkError> {
    if |para| > size then PackSentences(p, SplitSentences(para), size, overlap)
    else if |p.current| + |para| + 2 <= size then
      Ok(Packer(p.chunks, p.current + (if p.current == [] then "" else "\n\n") + para))
    else if p.current != [] then
      Ok(Packer(Flush(p.chunks, p.current), Seed(p.current, "\n\n", para, overlap)))
    else Ok(Packer(p.chunks, para))
  }

  /** The paragraph loop, as a fold over the paragraphs processed so far. */
  function PackParagraphs(paras: seq<string>, size: nat, overlap: int): Result<Packer, ChunkError>
    decreases |paras|
  {
    if paras == [] then Ok(Packer([], ""))
    else match PackParagraphs(paras[..|paras| - 1], size, overlap)
      case Err(e) => Err(e)
      case Ok(q) => ParagraphStep(q, paras[|paras| - 1], size, overlap)
  }

  /** What `create_chunks_with_overlap` returns (or raises). */
  function ChunkText(text: string, size: nat, overlap: int): (r: Result<seq<Chunk>, ChunkError>)
    ensures AllSpace(text) ==> r == Ok([])
  {
    var t := CleanText(text);
    if t == [] then Ok([])
    else match PackParagraphs(SplitParagraphs(t), size, overlap)
      case Err(e) => Err(e)
      case Ok(p) => Ok(if p.current != [] then Flush(p.chunks, p.current) else p.chunks)
  }

  // --- properties of one step ---------------------------------------------

  /** With a non-empty accumulator, a sentence is appended without a flush
      exactly when accumulator, separator and sentence fit in `size`. */
  lemma {:induction false} SentenceFitRule(p: Packer, sent: string, size: nat, overlap: int)
    requires p.current != []
    ensures SentenceStep(p, sent, size, overlap) == Ok(Packer(p.chunks, p.current + " " + sent))
            <==> |p.current| + 1 + |sent| <= size
  {
  }

  /** The same rule for paragraphs, whose separator is a blank line. */
  lemma {:induction false} ParagraphFitRule(p: Packer, para: string, size: nat, overlap: int)
    requires p.current != [] && |para| <= size
    ensures ParagraphStep(p, para, size, overlap) == Ok(Packer(p.chunks, p.current + "\n\n" + para))
            <==> |p.current| + 2 + |para| <= size
  {
  }

  /** A sentence that does not fit flushes a non-empty accumulator and seeds
      the next one with the overlap. */
  lemma {:induction false} SentenceFlushSeedsOverlap(p: Packer, sent: string, size: nat, overlap: int)
    requires p.current != [] && |p.current| + |sent| + 1 > size
    ensures SentenceStep(p, sent, size, overlap) == Ok(Packer(
              p.chunks + [MakeChunk(|p.chunks|, p.current)],
              if overlap > 0 && |p.current| > overlap
              then p.current[|p.current| - overlap..] + " " + sent
              else sent))
  {
  }

  lemma {:induction false} ParagraphFlushSeedsOverlap(p: Packer, para: string, size: nat, overlap: int)
    requires |para| <= size && p.current != [] && |p.current| + |para| + 2 > size
    ensures ParagraphStep(p, para, size, overlap) == Ok(Packer(
              p.chunks + [MakeChunk(|p.chunks|, p.current)],
              if overlap > 0 && |p.current| > overlap
              then p.current[|p.current| - overlap..] + "\n\n" + para
              else para))
  {
  }

  /** Raw slice k starts at offset from + k * step inside the sentence and
      runs for `size` characters or to the end of the sentence. */
  lemma {:induction false} RawSlicesAt(sent: string, size: nat, step: nat, from: nat, k: nat)
    requires step > 0 && k < |RawSlices(sent, size, step, from)|
    ensures from + k * step < |sent|
    ensures RawSlices(sent, size, step, from)[k] == sent[from + k * step .. Min(from + k * step + size, |sent|)]
    decreases k
  {
    if k > 0 {
      RawSlicesAt(sent, size, step, from + step, k - 1);
      assert from + step + (k - 1) * step == from + k * step;
    }
  }

  /** There is a slice exactly when the start lies inside the sentence, and
      the slices run to its end. */
  lemma {:induction false} RawSlicesCover(sent: string, size: nat, step: nat, from: nat)
    requires step > 0
    ensures var n := |RawSlices(sent, size, step, from)|;
      (n == 0 <==> from >= |sent|) && (n > 0 ==> from + n * step >= |sent|)
    decreases |sent| - from
  {
    if from < |sent| {
      RawSlicesCover(sent, size, step, from + step);
      var n := |RawSlices(sent, size, step, from + step)|;
      assert from + step + n * step == from + (n + 1) * step;
    }
  }

  /** The pieces of a forced split, before numbering (`Number` strips piece
      k and gives it id `base + k`): piece k is taken at offset k * step and
      is at most `size` characters; there is at least one piece and together
      they reach the end of the sentence. */
  lemma {:induction false} ForcedSplitPieces(sent: string, size: nat, step: nat)
    requires step > 0 && |sent| > 0
    ensures |RawSlices(sent, size, step, 0)| > 0
    ensures |RawSlices(sent, size, step, 0)| * step >= |sent|
    ensures PiecesAtOffsets(RawSlices(sent, size, step, 0), sent, size, step)
  {
    RawSlicesCover(sent, size, step, 0);
    var raws := RawSlices(sent, size, step, 0);
    forall k | 0 <= k < |raws|
      ensures k * step < |sent|
      ensures raws[k] == sent[k * step .. Min(k * step + size, |sent|)]
    {
      RawSlicesAt(sent, size, step, 0, k);
    }
  }

  /** Piece k is the slice of `sent` at offset k * step, at most `size`
      characters long. */
  predicate PiecesAtOffsets(raws: seq<string>, sent: string, size: nat, step: nat) {
    forall k :: 0 <= k < |raws| ==>
      && k * step < |sent|
      && raws[k] == sent[k * step .. Min(k * step + size, |sent|)]
  }

  /** An oversized sentence meeting an empty accumulator is cut into the
      forced-split pieces with step size - overlap, numbered on from the
      chunks already emitted, and the accumulator stays empty. */
  lemma {:induction false} ForcedSplitRule(p: Packer, sent: string, size: nat, overlap: int)
    requires p.current == [] && |sent| > size && size > overlap
    ensures SentenceStep(p, sent, size, overlap)
            == Ok(Packer(p.chunks + Number(RawSlices(sent, size, size - overlap, 0), |p.chunks|), []))
  {
  }

  /** With chunk_size == overlap the forced split raises; with
      chunk_size < overlap it silently emits nothing. */
  lemma {:induction false} ForcedSplitDegenerate(p: Packer, sent: string, size: nat, overlap: int)
    requires p.current == [] && |sent| > size && size <= overlap
    ensures size == overlap ==> SentenceStep(p, sent, size, overlap) == Err(ZeroStep)
    ensures size < overlap ==> SentenceStep(p, sent, size, overlap) == Ok(p)
  {
    assert p.chunks + [] == p.chunks;
  }

  // --- properties of the whole loop ---------------------------------------

  lemma {:induction false} NumberedAppend(chunks: seq<Chunk>, raws: seq<string>)
    requires WellNumbered(chunks)
    ensures WellNumbered(chunks + Number(raws, |chunks|))
  {
  }

  lemma {:induction false} SentenceStepNumbered(p: Packer, sent: string, size: nat, overlap: int)
    requires WellNumbered(p.chunks)
    ensures SentenceStep(p, sent, size, overlap).Ok? ==> WellNumbered(SentenceStep(p, sent, size, overlap).value.chunks)
  {
    if |p.current| + |sent| + 1 > size && p.current == [] && |sent| > size && size > overlap {
      NumberedAppend(p.chunks, RawSlices(sent, size, size - overlap, 0));
    }
  }

  lemma {:induction false} PackSentencesNumbered(p: Packer, sents: seq<string>, size: nat, overlap: int)
    requires WellNumbered(p.chunks)
    ensures PackSentences(p, sents, size, overlap).Ok? ==> WellNumbered(PackSentences(p, sents, size, overlap).value.chunks)
    decreases |sents|
  {
    if sents != [] {
      PackSentencesNumbered(p, sents[..|sents| - 1], size, overlap);
      var q := PackSentences(p, sents[..|sents| - 1], size, overlap);
      if q.Ok? {
        SentenceStepNumbered(q.value, sents[|sents| - 1], size, overlap);
      }
    }
  }

  lemma {:induction false} PackParagraphsNumbered(paras: seq<string>, size: nat, overlap: int)
    ensures PackParagraphs(paras, size, overlap).Ok? ==> WellNumbered(PackParagraphs(paras, size, overlap).value.chunks)
    decreases |paras|
  {
    if paras != [] {
      PackParagraphsNumbered(paras[..|paras| - 1], size, overlap);
      var q := PackParagraphs(paras[..|paras| - 1], size, overlap);
      if q.Ok? && |paras[|paras| - 1]| > size {
        PackSentencesNumbered(q.value, SplitSentences(paras[|paras| - 1]), size, overlap);
      }
    }
  }

  /** Chunk ids from one call are 0, 1, 2, ... in emission order, and every
      chunk's `char_count` is the length of its stripped text. */
  lemma {:induction false} ChunkIdsDense(text: string, size: nat, overlap: int)
    ensures ChunkText(text, size, overlap).Ok? ==> WellNumbered(ChunkText(text, size, overlap).value)
  {
    var t := CleanText(text);
    if t != [] {
      PackParagraphsNumbered(SplitParagraphs(t), size, overlap);
    }
  }

  lemma {:induction false} PackSentencesNoError(p: Packer, sents: seq<string>, size: nat, overlap: int)
    requires size > overlap
    ensures PackSentences(p, sents, size, overlap).Ok?
    decreases |sents|
  {
    if sents != [] {
      PackSentencesNoError(p, sents[..|sents| - 1], size, overlap);
    }
  }

  lemma {:induction false} PackParagraphsNoError(paras: seq<string>, size: nat, overlap: int)
    requires size > overlap
    ensures PackParagraphs(paras, size, overlap).Ok?
    decreases |paras|
  {
    if paras != [] {
      PackParagraphsNoError(paras[..|paras| - 1], size, overlap);
      var q := PackParagraphs(paras[..|paras| - 1], size, overlap);
      PackSentencesNoError(q.value, SplitSentences(paras[|paras| - 1]), size, overlap);
    }
  }

  /** When chunk_size > overlap the chunker never raises. */
  lemma {:induction false} ChunkTextNoError(text: string, size: nat, overlap: int)
    requires size > overlap
    ensures ChunkText(text, size, overlap).Ok?
  {
    var t := CleanText(text);
    if t != [] {
      PackParagraphsNoError(SplitParagraphs(t), size, overlap);
    }
  }

  /** One more sentence is one more step of the fold. */
  lemma {:induction false} PackSentencesNext(p: Packer, sents: seq<string>, j: nat, size: nat, overlap: int, q: Packer)
    requires j < |sents| && PackSentences(p, sents[..j], size, overlap) == Ok(q)
    ensures PackSentences(p, sents[..j + 1], size, overlap) == SentenceStep(q, sents[j], size, overlap)
  {
    assert sents[..j + 1][..j] == sents[..j];
  }

  /** One more paragraph is one more step of the fold. */
  lemma {:induction false} PackParagraphsNext(paras: seq<string>, i: nat, size: nat, overlap: int, p: Packer)
    requires i < |paras| && PackParagraphs(paras[..i], size, overlap) == Ok(p)
    ensures PackParagraphs(paras[..i + 1], size, overlap) == ParagraphStep(p, paras[i], size, overlap)
  {
    assert paras[..i + 1][..i] == paras[..i];
  }

  /** Once a fold has failed, processing more input keeps the failure. */
  lemma {:induction false} PackSentencesErrSticky(p: Packer, sents: seq<string>, j: nat, size: nat, overlap: int, e: ChunkError)
    requires j <= |sents| && PackSentences(p, sents[..j], size, overlap) == Err(e)
    ensures PackSentences(p, sents, size, overlap) == Err(e)
    decreases |sents| - j
  {
    if j < |sents| {
      assert sents[..j + 1][..j] == sents[..j];
      PackSentencesErrSticky(p, sents, j + 1, size, overlap, e);
    } else {
      assert sents[..j] == sents;
    }
  }

  lemma {:induction false} PackParagraphsErrSticky(paras: seq<string>, i: nat, size: nat, overlap: int, e: ChunkError)
    requires i <= |paras| && PackParagraphs(paras[..i], size, overlap) == Err(e)
    ensures PackParagraphs(paras, size, overlap) == Err(e)
    decreases |paras| - i
  {
    if i < |paras| {
      assert paras[..i + 1][..i] == paras[..i];
      PackParagraphsErrSticky(paras, i + 1, size, overlap, e);
    } else {
      assert paras[..i] == paras;
    }
  }

  /** The `for i in range(0, len(sent), step)` loop of the forced split,
      appending one chunk per slice. */
  method AppendSlices(chunks0: seq<Chunk>, sent: string, chunkSize: nat, step: nat)
    returns (chunks: seq<Chunk>)
    requires step > 0
    ensures chunks == chunks0 + Number(RawSlices(sent, chunkSize, step, 0), |chunks0|)
  {
    chunks := chunks0;
    var i: nat := 0;
    ghost var done: seq<string> := [];
    while i < |sent|
      invariant done + RawSlices(sent, chunkSize, step, i) == RawSlices(sent, chunkSize, step, 0)
      invariant chunks == chunks0 + Number(done, |chunks0|)
      decreases |sent| - i
    {
      var piece := sent[i..Min(i + chunkSize, |sent|)];
      assert done + [piece] + RawSlices(sent, chunkSize, step, i + step) == done + RawSlices(sent, chunkSize, step, i);
      NumberSnoc(chunks0, done, piece);
      chunks := chunks + [MakeChunk(|chunks|, piece)];
      done := done + [piece];
      i := i + step;
    }
    assert done == RawSlices(sent, chunkSize, step, 0);
  }

  /** The sentence loop that packs one oversized paragraph. */
  method PackSentenceLoop(p: Packer, sentences: seq<string>, chunkSize: nat, overlap: int)
    returns (r: Result<Packer, ChunkError>)
    ensures r == PackSentences(p, sentences, chunkSize, overlap)
  {
    var packer := p;
    var j := 0;
    assert sentences[..0] == [];
    while j < |sentences|
      invariant 0 <= j <= |sentences|
      invariant PackSentences(p, sentences[..j], chunkSize, overlap) == Ok(packer)
    {
      PackSentencesNext(p, sentences, j, chunkSize, overlap, packer);
      var next := PlaceSentence(packer, sentences[j], chunkSize, overlap);
      if next.Err? {
        PackSentencesErrSticky(p, sentences, j + 1, chunkSize, overlap, next.error);
        return next;
      }
      packer := next.value;
      j := j + 1;
    }
    assert sentences[..j] == sentences;
    return Ok(packer);
  }

  /** The body of the sentence loop: place one sentence. */
  method PlaceSentence(p: Packer, sent: string, chunkSize: nat, overlap: int)
    returns (r: Result<Packer, ChunkError>)
    ensures r == SentenceStep(p, sent, chunkSize, overlap)
  {
    var chunks, current := p.chunks, p.current;
    if |current| + |sent| + 1 <= chunkSize {
      current := current + (if current == "" then "" else " ") + sent;
    } else if current != "" {
      chunks := chunks + [MakeChunk(|chunks|, current)];
      if overlap > 0 && |current| > overlap {
        current := current[|current| - overlap..] + " " + sent;
      } else {
        current := sent;
      }
    } else if |sent| > chunkSize {
      var step := chunkSize - overlap;
      if step == 0 {
        return Err(ZeroStep);
      }
      if step > 0 {
        chunks := AppendSlices(chunks, sent, chunkSize, step);
      } else {
        assert chunks + [] == chunks;
      }
    } else {
      current := sent;
    }
    return Ok(Packer(chunks, current));
  }

  /** The body of the paragraph loop: place one paragraph, packing it
      sentence by sentence when it is longer than a chunk. */
  method PlaceParagraph(p: Packer, para: string, chunkSize: nat, overlap: int)
    returns (r: Result<Packer, ChunkError>)
    ensures r == ParagraphStep(p, para, chunkSize, overlap)
  {
    var chunks, current := p.chunks, p.current;
    if |para| > chunkSize {
      r := PackSentenceLoop(p, SplitSentences(para), chunkSize, overlap);
      return;
    } else if |current| + |para| + 2 <= chunkSize {
      current := current + (if current == "" then "" else "\n\n") + para;
    } else if current != "" {
      chunks := chunks + [MakeChunk(|chunks|, current)];
      if overlap > 0 && |current| > overlap {
        current := current[|current| - overlap..] + "\n\n" + para;
      } else {
        current := para;
      }
    } else {
      current := para;
    }
    return Ok(Packer(chunks, current));
  }

  /** `create_chunks_with_overlap`, the packing loop as the program runs it. */
  method CreateChunksWithOverlap(text: string, chunkSize: nat, overlap: int)
    returns (r: Result<seq<Chunk>, ChunkError>)
    ensures r == ChunkText(text, chunkSize, overlap)
  {
    var cleaned := CleanText(text);
    if cleaned == [] {
      return Ok([]);
    }
    var paragraphs := SplitParagraphs(cleaned);
    var packer := Packer([], "");
    var i := 0;
    assert paragraphs[..0] == [];
    while i < |paragraphs|
      invariant 0 <= i <= |paragraphs|
      invariant PackParagraphs(paragraphs[..i], chunkSize, overlap) == Ok(packer)
    {
      PackParagraphsNext(paragraphs, i, chunkSize, overlap, packer);
      var next := PlaceParagraph(packer, paragraphs[i], chunkSize, overlap);
      if next.Err? {
        PackParagraphsErrSticky(paragraphs, i + 1, chunkSize, overlap, next.error);
        return Err(next.error);
      }
      packer := next.value;
      i := i + 1;
    }
    assert paragraphs[..i] == paragraphs;
    var chunks := packer.chunks;
    if packer.current != "" {
      chunks := chunks + [MakeChunk(|chunks|, packer.current)];
    }
    return Ok(chunks);
  }

  // ---------------------------------------------------------------------
  // chunk_by_pages
  // ---------------------------------------------------------------------

  /** A page of extracted text; a missing `page_number` reads as 0 and a
      missing `text` as the empty string. */
  datatype Page = Page(pageNumber: Option<int>, text: string)

  /** A chunk tagged with its page: `global_chunk_id`, `page_number` and
      `source_type`. */
  datatype PageChunk = PageChunk(chunkId: nat, text: string, charCount: nat,
                                 globalChunkId: nat, pageNumber: int, sourceType: string)

  function Tag(c: Chunk, globalId: nat, pageNumber: int): PageChunk {
    PageChunk(c.chunkId, c.text, c.charCount, globalId, pageNumber, "page")
  }

  function TagAll(cs: seq<Chunk>, base: nat, pageNumber: int): (r: seq<PageChunk>)
    ensures |r| == |cs|
    ensures forall k :: 0 <= k < |r| ==> r[k] == Tag(cs[k], base + k, pageNumber)
  {
    seq(|cs|, k requires 0 <= k < |cs| => Tag(cs[k], base + k, pageNumber))
  }

  /** One page of `chunk_by_pages`: pages without text are skipped. */
  function PageStep(acc: seq<PageChunk>, page: Page, size: nat, overlap: int): Result<seq<PageChunk>, ChunkError> {
    if page.text == [] then Ok(acc)
    else match ChunkText(page.text, size, overlap)
      case Err(e) => Err(e)
      case Ok(cs) => Ok(acc + TagAll(cs, |acc|, page.pageNumber.GetOr(0)))
  }

  /** What `chunk_by_pages` returns (or raises), as a fold over the pages. */
  function ChunkPages(pages: seq<Page>, size: nat, overlap: int): Result<seq<PageChunk>, ChunkError>
    decreases |pages|
  {
    if pages == [] then Ok([])
    else match ChunkPages(pages[..|pages| - 1], size, overlap)
      case Err(e) => Err(e)
      case Ok(acc) => PageStep(acc, pages[|pages| - 1], size, overlap)
  }

  /** The index of the page each chunk of `ChunkPages` was cut from. */
  ghost function PageOrigins(pages: seq<Page>, size: nat, overlap: int): seq<nat>
    decreases |pages|
  {
    if pages == [] then []
    else
      var page := pages[|pages| - 1];
      var cs := ChunkText(page.text, size, overlap);
      PageOrigins(pages[..|pages| - 1], size, overlap)
        + (if page.text != [] && cs.Ok? then seq(|cs.value|, _ => |pages| - 1) else [])
  }

  /** `chunk_by_pages`' call of the chunker on one page's text. */
  function PageChunker(size: nat, overlap: int): string -> Result<seq<Chunk>, ChunkError> {
    t => ChunkText(t, size, overlap)
  }

  /** `c`, the k-th chunk of the result, is the chunk of `page`'s own text
      whose position is its `chunk_id`, tagged with the global id k and the
      number of that page. */
  ghost predicate CutFrom(c: PageChunk, k: nat, page: Page, chunker: string -> Result<seq<Chunk>, ChunkError>) {
    && page.text != []
    && chunker(page.text).Ok?
    && c.chunkId < |chunker(page.text).value|
    && c == Tag(chunker(page.text).value[c.chunkId], k, page.pageNumber.GetOr(0))
  }

  /** The chunks come page by page: chunk k was cut from page js[k], and the
      page indices never decrease. */
  ghost predicate PageByPage(r: seq<PageChunk>, js: seq<nat>, pages: seq<Page>,
                             chunker: string -> Result<seq<Chunk>, ChunkError>) {
    && |js| == |r|
    && (forall k, l :: 0 <= k < l < |js| ==> js[k] <= js[l])
    && forall k :: 0 <= k < |r| ==> js[k] < |pages| && CutFrom(r[k], k, pages[js[k]], chunker)
  }

  /** `global_chunk_id` runs 0..n-1 densely, every chunk is tagged 'page'
      and keeps the chunker's `char_count`, and chunk k is a chunk of the
      text of the page it is tagged with, the pages taken in order. */
  lemma {:induction false} ChunkPagesDense(pages: seq<Page>, size: nat, overlap: int)
    ensures var r := ChunkPages(pages, size, overlap);
      r.Ok? ==> forall k :: 0 <= k < |r.value| ==>
        && r.value[k].globalChunkId == k
        && r.value[k].sourceType == "page"
        && r.value[k].charCount == |r.value[k].text|
    ensures ChunkPages(pages, size, overlap).Ok? ==>
      PageByPage(ChunkPages(pages, size, overlap).value, PageOrigins(pages, size, overlap), pages, PageChunker(size, overlap))
  {
    ChunkPagesByPage(pages, size, overlap);
    var r := ChunkPages(pages, size, overlap);
    if r.Ok? {
      var js := PageOrigins(pages, size, overlap);
      forall k | 0 <= k < |r.value|
        ensures r.value[k].globalChunkId == k && r.value[k].sourceType == "page"
        ensures r.value[k].charCount == |r.value[k].text|
      {
        var page := pages[js[k]];
        assert CutFrom(r.value[k], k, page, PageChunker(size, overlap));
        ChunkIdsDense(page.text, size, overlap);
      }
    }
  }

  lemma {:induction false} ChunkPagesByPage(pages: seq<Page>, size: nat, overlap: int)
    ensures ChunkPages(pages, size, overlap).Ok? ==>
      PageByPage(ChunkPages(pages, size, overlap).value, PageOrigins(pages, size, overlap), pages, PageChunker(size, overlap))
    decreases |pages|
  {
    if pages != [] {
      var init, page := pages[..|pages| - 1], pages[|pages| - 1];
      assert pages == init + [page];
      ChunkPagesByPage(init, size, overlap);
      var prev := ChunkPages(init, size, overlap);
      if prev.Ok? {
        PageByPageStep(init, page, size, overlap, prev.value);
      }
    }
  }

  /** One page of the fold keeps the pairing. */
  lemma {:induction false} PageByPageStep(init: seq<Page>, page: Page, size: nat, overlap: int, acc: seq<PageChunk>)
    requires PageByPage(acc, PageOrigins(init, size, overlap), init, PageChunker(size, overlap))
    ensures var next := PageStep(acc, page, size, overlap);
      next.Ok? ==> PageByPage(next.value, PageOrigins(init + [page], size, overlap), init + [page], PageChunker(size, overlap))
  {
    var pages := init + [page];
    assert pages[..|pages| - 1] == init && pages[|pages| - 1] == page;
    var js := PageOrigins(init, size, overlap);
    var cs := ChunkText(page.text, size, overlap);
    if page.text != [] && cs.Ok? {
      ChunkIdsDense(page.text, size, overlap);
      PageByPageSnoc(acc, js, init, page, PageChunker(size, overlap), cs.value);
    } else {
      PageByPageSkip(acc, js, init, page, PageChunker(size, overlap));
    }
  }

  /** A page that adds no chunk keeps the pairing. */
  lemma {:induction false} PageByPageSkip(r: seq<PageChunk>, js: seq<nat>, pages: seq<Page>, page: Page,
                                          chunker: string -> Result<seq<Chunk>, ChunkError>)
    requires PageByPage(r, js, pages, chunker)
    ensures PageByPage(r, js, pages + [page], chunker)
  {
    forall k | 0 <= k < |r| ensures js[k] < |pages + [page]| && CutFrom(r[k], k, (pages + [page])[js[k]], chunker) {
      assert (pages + [page])[js[k]] == pages[js[k]];
    }
  }

  /** A page with chunks appends them, tagged, after the earlier pages'. */
  lemma {:induction false} PageByPageSnoc(r: seq<PageChunk>, js: seq<nat>, pages: seq<Page>, page: Page,
                                          chunker: string -> Result<seq<Chunk>, ChunkError>, cs: seq<Chunk>)
    requires PageByPage(r, js, pages, chunker)
    requires page.text != [] && chunker(page.text) == Ok(cs) && WellNumbered(cs)
    ensures PageByPage(r + TagAll(cs, |r|, page.pageNumber.GetOr(0)), js + seq(|cs|, _ => |pages|),
                       pages + [page], chunker)
  {
    var r2, js2, pages2 := r + TagAll(cs, |r|, page.pageNumber.GetOr(0)), js + seq(|cs|, _ => |pages|), pages + [page];
    forall k | 0 <= k < |r2| ensures js2[k] < |pages2| && CutFrom(r2[k], k, pages2[js2[k]], chunker) {
      if k < |r| {
        assert r2[k] == r[k] && js2[k] == js[k];
        assert pages2[js[k]] == pages[js[k]];
      } else {
        var m := k - |r|;
        assert js2[k] == |pages| && pages2[|pages|] == page;
        assert r2[k] == Tag(cs[m], k, page.pageNumber.GetOr(0));
        assert cs[m].chunkId == m;
      }
    }
    forall k, l | 0 <= k < l < |js2| ensures js2[k] <= js2[l] {
      if l >= |js| {
        if k < |js| { assert js[k] < |pages|; }
      }
    }
  }

  /** One more page is one more step of the fold. */
  lemma {:induction false} ChunkPagesNext(pages: seq<Page>, i: nat, size: nat, overlap: int, acc: seq<PageChunk>)
    requires i < |pages| && ChunkPages(pages[..i], size, overlap) == Ok(acc)
    ensures ChunkPages(pages[..i + 1], size, overlap) == PageStep(acc, pages[i], size, overlap)
  {
    assert pages[..i + 1][..i] == pages[..i];
  }

  lemma {:induction false} TagAllSnoc(cs: seq<Chunk>, c: Chunk, base: nat, pageNumber: int)
    ensures TagAll(cs + [c], base, pageNumber) == TagAll(cs, base, pageNumber) + [Tag(c, base + |cs|, pageNumber)]
  {
    assert forall k :: 0 <= k < |cs| ==> (cs + [c])[k] == cs[k];
  }

  lemma {:induction false} ChunkPagesErrSticky(pages: seq<Page>, i: nat, size: nat, overlap: int, e: ChunkError)
    requires i <= |pages| && ChunkPages(pages[..i], size, overlap) == Err(e)
    ensures ChunkPages(pages, size, overlap) == Err(e)
    decreases |pages| - i
  {
    if i < |pages| {
      assert pages[..i + 1][..i] == pages[..i];
      ChunkPagesErrSticky(pages, i + 1, size, overlap, e);
    } else {
      assert pages[..i] == pages;
    }
  }

  /** The inner loop of `chunk_by_pages`: tag each chunk of one page with
      the running global id and the page number. */
  method AppendPageChunks(acc: seq<PageChunk>, cs: seq<Chunk>, pageNum: int)
    returns (allChunks: seq<PageChunk>)
    ensures allChunks == acc + TagAll(cs, |acc|, pageNum)
  {
    allChunks := acc;
    var globalChunkId := |acc|;
    var j := 0;
    while j < |cs|
      invariant 0 <= j <= |cs|
      invariant allChunks == acc + TagAll(cs[..j], |acc|, pageNum)
      invariant globalChunkId == |allChunks|
    {
      var c := cs[j];
      assert cs[..j + 1] == cs[..j] + [c];
      TagAllSnoc(cs[..j], c, |acc|, pageNum);
      allChunks := allChunks + [PageChunk(c.chunkId, c.text, c.charCount, globalChunkId, pageNum, "page")];
      globalChunkId := globalChunkId + 1;
      j := j + 1;
    }
    assert cs[..j] == cs;
  }

  /** The body of the page loop. */
  method ChunkPage(acc: seq<PageChunk>, page: Page, chunkSize: nat, overlap: int)
    returns (r: Result<seq<PageChunk>, ChunkError>)
    ensures r == PageStep(acc, page, chunkSize, overlap)
  {
    var pageNum := page.pageNumber.GetOr(0);
    if page.text == "" {
      return Ok(acc);
    }
    var pageChunks := CreateChunksWithOverlap(page.text, chunkSize, overlap);
    if pageChunks.Err? {
      return Err(pageChunks.error);
    }
    var all := AppendPageChunks(acc, pageChunks.value, pageNum);
    return Ok(all);
  }

  /** `chunk_by_pages`, the loop as the program runs it. */
  method ChunkByPages(pages: seq<Page>, chunkSize: nat, overlap: int)
    returns (r: Result<seq<PageChunk>, ChunkError>)
    ensures r == ChunkPages(pages, chunkSize, overlap)
  {
    var allChunks: seq<PageChunk> := [];
    var i := 0;
    assert pages[..0] == [];
    while i < |pages|
      invariant 0 <= i <= |pages|
      invariant ChunkPages(pages[..i], chunkSize, overlap) == Ok(allChunks)
    {
      ChunkPagesNext(pages, i, chunkSize, overlap, allChunks);
      var next := ChunkPage(allChunks, pages[i], chunkSize, overlap);
      if next.Err? {
        ChunkPagesErrSticky(pages, i + 1, chunkSize, overlap, next.error);
        return next;
      }
      allChunks := next.value;
      i := i + 1;
    }
    assert pages[..i] == pages;
    return Ok(allChunks);
  }
}
