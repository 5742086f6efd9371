/** Character-level models of the Python string operations the core relies on:
    `str.isspace` / regex `\s`, `strip`, `join`, `replace`, `in`, `split`,
    `str(int)` and `int(str)`. */
module Text {
  import opened Common

  /** The characters Python treats as whitespace (`str.isspace`, and `\s` in a
      `str` regex): ASCII blanks, the four ASCII separators and the Unicode
      space characters. */
  predicate IsSpace(c: char) {
    c == ' ' || c == '\t' || c == '\n' || c == '\r' || c == '\U{0B}' || c == '\U{0C}'
    || ('\U{1C}' <= c <= '\U{1F}') || c == '\U{85}' || c == '\U{A0}' || c == '\U{1680}'
    || ('\U{2000}' <= c <= '\U{200A}') || c == '\U{2028}' || c == '\U{2029}'
    || c == '\U{202F}' || c == '\U{205F}' || c == '\U{3000}'
  }

  predicate AllSpace(s: string) {
    forall i :: 0 <= i < |s| ==> IsSpace(s[i])
  }

  lemma {:induction false} AllSpaceConcat(a: string, b: string)
    ensures AllSpace(a + b) <==> AllSpace(a) && AllSpace(b)
  {
    if AllSpace(a) && AllSpace(b) {
      forall i | 0 <= i < |a + b| ensures IsSpace((a + b)[i]) {
        if i >= |a| { assert (a + b)[i] == b[i - |a|]; }
      }
    }
    if AllSpace(a + b) {
      assert forall i :: 0 <= i < |a| ==> (a + b)[i] == a[i];
      assert forall i :: 0 <= i < |b| ==> (a + b)[|a| + i] == b[i];
    }
  }

  lemma {:induction false} AllSpaceSplit(s: string, n: nat)
    requires n <= |s|
    ensures AllSpace(s) <==> AllSpace(s[..n]) && AllSpace(s[n..])
  {
    AllSpaceConcat(s[..n], s[n..]);
    assert s == s[..n] + s[n..];
  }

  /** No whitespace at either end (what `strip()` guarantees). */
  predicate IsStripped(s: string) {
    s == [] || (!IsSpace(s[0]) && !IsSpace(s[|s| - 1]))
  }

  /** Number of leading whitespace characters. */
  function StartWs(s: string): (n: nat)
    ensures n <= |s|
    ensures forall i :: 0 <= i < n ==> IsSpace(s[i])
    ensures n < |s| ==> !IsSpace(s[n])
  {
    if s == [] || !IsSpace(s[0]) then 0 else 1 + StartWs(s[1..])
  }

  /** Number of trailing whitespace characters. */
  function EndWs(s: string): (n: nat)
    ensures n <= |s|
    ensures forall i :: |s| - n <= i < |s| ==> IsSpace(s[i])
    ensures n < |s| ==> !IsSpace(s[|s| - 1 - n])
  {
    if s == [] || !IsSpace(s[|s| - 1]) then 0 else 1 + EndWs(s[..|s| - 1])
  }

  /** Python's `s.strip()`: the slice between the first and the last
      non-whitespace character. */
  function Strip(s: string): (r: string)
    ensures IsStripped(r)
    ensures |r| <= |s|
    ensures r == [] <==> AllSpace(s)
  {
    var a := StartWs(s);
    if a == |s| then [] else s[a .. |s| - EndWs(s)]
  }

  /** `strip()` removes whitespace from the two ends and nothing else: the
      result is a slice of the text with only whitespace before and after. */
  lemma {:induction false} StripIsSlice(s: string)
    ensures exists a, b :: 0 <= a <= b <= |s| && Strip(s) == s[a..b] && AllSpace(s[..a]) && AllSpace(s[b..])
  {
    var a := StartWs(s);
    if a == |s| {
      assert Strip(s) == s[0..0] && s[..0] == [] && s[0..] == s;
    } else {
      var b := |s| - EndWs(s);
      StripSlice(s, a, EndWs(s));
      assert forall i :: 0 <= i < |s[b..]| ==> s[b..][i] == s[b + i];
      assert Strip(s) == s[a..b] && AllSpace(s[..a]) && AllSpace(s[b..]);
    }
  }

  /** `strip()` brings in no character: one the text lacks, the result lacks. */
  lemma {:induction false} StripAvoids(s: string, c: char)
    requires forall i :: 0 <= i < |s| ==> s[i] != c
    ensures forall i :: 0 <= i < |Strip(s)| ==> Strip(s)[i] != c
  {
    StripIsSlice(s);
    var a, b :| 0 <= a <= b <= |s| && Strip(s) == s[a..b] && AllSpace(s[..a]) && AllSpace(s[b..]);
    forall i | 0 <= i < |Strip(s)| ensures Strip(s)[i] != c {
      assert Strip(s)[i] == s[a + i];
    }
  }

  /** Stripping text that already has no whitespace at its ends changes nothing. */
  lemma {:induction false} StripStripped(s: string)
    requires IsStripped(s)
    ensures Strip(s) == s
  {
    if s != [] {
      assert StartWs(s) == 0;
      assert EndWs(s) == 0;
    }
  }

  /** Leading whitespace does not change the result of `strip()`. */
  lemma {:induction false} StripLeadingSpace(w: string, s: string)
    requires AllSpace(w)
    ensures Strip(w + s) == Strip(s)
  {
    StartWsAppend(w, s);
    var a := StartWs(s);
    if a < |s| {
      assert !AllSpace(s) by { assert !IsSpace(s[a]); }
      EndWsPrepend(w, s);
      StripLeadingSpaceText(w, s, a, EndWs(s));
    }
  }

  lemma {:induction false} StripLeadingSpaceText(w: string, s: string, a: nat, e: nat)
    requires StartWs(s) == a < |s| && StartWs(w + s) == |w| + a
    requires EndWs(s) == e && EndWs(w + s) == e
    ensures Strip(w + s) == Strip(s)
  {
    StripSlice(w + s, |w| + a, e);
    StripSlice(s, a, e);
    SliceOfAppend(w, s, a, e);
  }

  /** `strip()` in terms of the two whitespace counts. */
  lemma {:induction false} StripSlice(s: string, a: nat, e: nat)
    requires StartWs(s) == a < |s| && EndWs(s) == e
    ensures a <= |s| - e && Strip(s) == s[a .. |s| - e]
  {
    WsCountsDisjoint(s, a, e);
  }

  /** Leading and trailing whitespace of a text that is not all whitespace
      do not overlap. */
  lemma {:induction false} WsCountsDisjoint(s: string, a: nat, e: nat)
    requires StartWs(s) == a < |s| && EndWs(s) == e
    ensures a < |s| - e
  {
    assert !IsSpace(s[a]);
  }

  lemma {:induction false} SliceOfAppend(w: string, s: string, a: nat, e: nat)
    requires a <= |s| - e
    ensures (w + s)[|w| + a .. |w + s| - e] == s[a .. |s| - e]
  {
    assert |w + s| - e == |w| + (|s| - e);
  }

  lemma {:induction false} StartWsAppend(w: string, s: string)
    requires AllSpace(w)
    ensures StartWs(w + s) == |w| + StartWs(s)
  {
    if w != [] {
      assert (w + s)[1..] == w[1..] + s;
      StartWsAppend(w[1..], s);
    } else {
      assert w + s == s;
    }
  }

  lemma {:induction false} EndWsPrepend(w: string, s: string)
    requires !AllSpace(s)
    ensures EndWs(w + s) == EndWs(s)
    decreases |s|
  {
    var ws := w + s;
    assert ws[|ws| - 1] == s[|s| - 1];
    if IsSpace(s[|s| - 1]) {
      var s' := s[..|s| - 1];
      assert ws[..|ws| - 1] == w + s';
      assert !AllSpace(s') by {
        var i :| 0 <= i < |s| && !IsSpace(s[i]);
        assert s'[i] == s[i];
      }
      EndWsPrepend(w, s');
    }
  }

  /** Python's `sep.join(parts)`. */
  function Join(parts: seq<string>, sep: string): (r: string)
    decreases |parts|
  {
    if parts == [] then ""
    else if |parts| == 1 then parts[0]
    else parts[0] + sep + Join(parts[1..], sep)
  }

  /** The length of a join: the parts plus one separator between each pair. */
  lemma {:induction false} JoinLength(parts: seq<string>, sep: string)
    ensures parts == [] ==> |Join(parts, sep)| == 0
    ensures parts != [] ==> |Join(parts, sep)| == SumLen(parts) + (|parts| - 1) * |sep|
  {
    if |parts| > 1 {
      JoinLength(parts[1..], sep);
    }
  }

  function SumLen(parts: seq<string>): nat {
    if parts == [] then 0 else |parts[0]| + SumLen(parts[1..])
  }

  /** Appending one more part to a non-empty join adds the separator and the part. */
  lemma {:induction false} JoinSnoc(parts: seq<string>, p: string, sep: string)
    requires parts != []
    ensures Join(parts + [p], sep) == Join(parts, sep) + sep + p
  {
    if |parts| == 1 {
      assert parts + [p] == [parts[0], p];
    } else {
      assert (parts + [p])[1..] == parts[1..] + [p];
      JoinSnoc(parts[1..], p, sep);
    }
  }

  /** A join opens with its first part. */
  lemma {:induction false} JoinStartsWith(parts: seq<string>, sep: string)
    requires parts != []
    ensures |parts[0]| <= |Join(parts, sep)| && Join(parts, sep)[..|parts[0]|] == parts[0]
  {
    if |parts| > 1 {
      var rest := sep + Join(parts[1..], sep);
      assert Join(parts, sep) == parts[0] + rest;
    }
  }

  /** The concatenation of `g(x)` for the elements `x` of `xs`, in order. */
  function ConcatMap<T>(g: T -> string, xs: seq<T>): string
    decreases |xs|
  {
    if xs == [] then "" else ConcatMap(g, xs[..|xs| - 1]) + g(xs[|xs| - 1])
  }

  lemma {:induction false} ConcatMapSingle<T>(g: T -> string, x: T)
    ensures ConcatMap(g, [x]) == g(x)
  {
    assert [x][..0] == [];
  }

  /** `ConcatMap` turns sequence concatenation into string concatenation. */
  lemma {:induction false} ConcatMapAppend<T>(g: T -> string, a: seq<T>, b: seq<T>)
    ensures ConcatMap(g, a + b) == ConcatMap(g, a) + ConcatMap(g, b)
    decreases |b|
  {
    if b == [] {
      assert a + b == a;
    } else {
      var n := |b| - 1;
      assert (a + b)[..|a + b| - 1] == a + b[..n];
      assert (a + b)[|a + b| - 1] == b[n];
      ConcatMapAppend(g, a, b[..n]);
    }
  }

  predicate IsPrefix(pat: string, s: string) {
    |pat| <= |s| && s[..|pat|] == pat
  }

  /** Python's `pat in s`. */
  predicate Contains(s: string, pat: string)
    decreases |s|
  {
    IsPrefix(pat, s) || (s != [] && Contains(s[1..], pat))
  }

  lemma {:induction false} ContainsAt(s: string, pat: string, i: nat)
    requires i + |pat| <= |s| && s[i..i + |pat|] == pat
    ensures Contains(s, pat)
  {
    if i > 0 {
      assert s[1..][i - 1..i - 1 + |pat|] == s[i..i + |pat|];
      ContainsAt(s[1..], pat, i - 1);
    }
  }

  /** An occurrence of `pat` in `s`, when `s` contains it. */
  lemma {:induction false} ContainsWitness(s: string, pat: string) returns (i: nat)
    requires Contains(s, pat)
    ensures i + |pat| <= |s| && s[i..i + |pat|] == pat
    decreases |s|
  {
    if IsPrefix(pat, s) {
      i := 0;
    } else {
      var j := ContainsWitness(s[1..], pat);
      assert s[1..][j..j + |pat|] == s[j + 1..j + 1 + |pat|];
      i := j + 1;
    }
  }

  /** A text that contains `a + pat + b` contains `pat`. */
  lemma {:induction false} ContainsInner(s: string, a: string, pat: string, b: string)
    requires Contains(s, a + pat + b)
    ensures Contains(s, pat)
  {
    var w := a + pat + b;
    var i := ContainsWitness(s, w);
    assert w[|a|..|a| + |pat|] == pat;
    forall k | 0 <= k < |pat| ensures s[i + |a| + k] == pat[k] {
      assert s[i + |a| + k] == s[i..i + |w|][|a| + k] == w[|a| + k];
    }
    assert s[i + |a|..i + |a| + |pat|] == pat;
    ContainsAt(s, pat, i + |a|);
  }

  /** Python's `s.replace(pat, rep)`: occurrences are found left to right and do
      not overlap. */
  function Replace(s: string, pat: string, rep: string): (r: string)
    requires pat != []
    decreases |s|
  {
    if |s| < |pat| then s
    else if s[..|pat|] == pat then rep + Replace(s[|pat|..], pat, rep)
    else [s[0]] + Replace(s[1..], pat, rep)
  }

  /** Replacing a pattern that does not occur leaves the text as it is. */
  lemma {:induction false} ReplaceAbsent(s: string, pat: string, rep: string)
    requires pat != [] && !Contains(s, pat)
    ensures Replace(s, pat, rep) == s
  {
    if |s| >= |pat| {
      ReplaceAbsent(s[1..], pat, rep);
    }
  }

  /** Deleting a pattern never lengthens the text. */
  lemma {:induction false} ReplaceByEmptyShrinks(s: string, pat: string)
    requires pat != []
    ensures |Replace(s, pat, "")| <= |s|
  {
    if |s| >= |pat| {
      if s[..|pat|] == pat {
        ReplaceByEmptyShrinks(s[|pat|..], pat);
      } else {
        ReplaceByEmptyShrinks(s[1..], pat);
      }
    }
  }

  /** Python's `s.split(pat)[-1]`: the text after the last occurrence, or all of
      `s` when there is none. */
  function AfterLast(s: string, pat: string): (r: string)
    requires pat != []
    ensures |r| <= |s|
    decreases |s|
  {
    if |s| < |pat| then s
    else if s[..|pat|] == pat then AfterLast(s[|pat|..], pat)
    else if Contains(s[1..], pat) then AfterLast(s[1..], pat)
    else s
  }

  /** A text without the character `c` does not contain `[c]`. */
  lemma {:induction false} NotContainsChar(t: string, c: char)
    requires forall i :: 0 <= i < |t| ==> t[i] != c
    ensures !Contains(t, [c])
    decreases |t|
  {
    if t != [] {
      assert t[..1] != [c] by { assert t[..1][0] == t[0] != c; }
      assert forall i :: 0 <= i < |t[1..]| ==> t[1..][i] == t[i + 1];
      NotContainsChar(t[1..], c);
    }
  }

  /** The part after the last `c` of `p + [c] + t`, when `t` has no `c`, is `t`. */
  lemma {:induction false} AfterLastChar(p: string, c: char, t: string)
    requires forall i :: 0 <= i < |t| ==> t[i] != c
    ensures AfterLast(p + [c] + t, [c]) == t
    decreases |p|
  {
    var s := p + [c] + t;
    if p == [] {
      assert s[..1] == [c] && s[1..] == t;
      NotContainsChar(t, c);
      if |t| >= 1 {
        assert t[..1] != [c] by { assert t[0] != c; }
      }
    } else {
      assert s[1..] == p[1..] + [c] + t;
      AfterLastChar(p[1..], c, t);
      if s[..1] != [c] {
        assert s[1..][|p| - 1..|p|] == [c];
        ContainsAt(s[1..], [c], |p| - 1);
      }
    }
  }

  /** Python's `s.split(c)[0]`: the text before the first occurrence of `c`. */
  function Before(s: string, c: char): (r: string)
    ensures IsPrefix(r, s)
    ensures forall i :: 0 <= i < |r| ==> r[i] != c
    ensures |r| < |s| ==> s[|r|] == c
  {
    if s == [] || s[0] == c then [] else [s[0]] + Before(s[1..], c)
  }

  /** The text before the first `c` of `s`, when that `c` is at index `n`. */
  lemma {:induction false} BeforeAt(s: string, c: char, n: nat)
    requires n < |s| && s[n] == c
    requires forall i :: 0 <= i < n ==> s[i] != c
    ensures Before(s, c) == s[..n]
  {
    if n > 0 {
      assert s[0] != c;
      BeforeAt(s[1..], c, n - 1);
      assert s[..n] == [s[0]] + s[1..][..n - 1];
    }
  }

  /** No proper suffix of `pat` is also a prefix of it, so two occurrences
      of `pat` never overlap. */
  predicate BorderFree(pat: string) {
    forall k :: 0 < k < |pat| ==> pat[k..] != pat[..|pat| - k]
  }

  /** Two occurrences of `pat` less than `|pat|` apart share a border. */
  lemma {:induction false} OverlapIsBorder(s: string, pat: string, k: nat)
    requires 0 < k < |pat| && k + |pat| <= |s|
    requires s[..|pat|] == pat && s[k..k + |pat|] == pat
    ensures pat[k..] == pat[..|pat| - k]
  {
    forall j | 0 <= j < |pat| - k
      ensures pat[k..][j] == pat[..|pat| - k][j]
    {
      assert pat[k..][j] == s[k + j];
      assert pat[..|pat| - k][j] == s[k..k + |pat|][j];
    }
  }

  /** A text without `pat` is its own part after the last `pat`. */
  lemma {:induction false} AfterLastAbsent(s: string, pat: string)
    requires pat != [] && !Contains(s, pat)
    ensures AfterLast(s, pat) == s
  {
  }

  /** For a pattern whose occurrences cannot overlap, the part of
      `p + pat + t` after the last `pat` is `t` when `t` holds no `pat`. */
  lemma {:induction false} AfterLastBorderFree(p: string, pat: string, t: string)
    requires pat != [] && BorderFree(pat) && !Contains(t, pat)
    ensures AfterLast(p + pat + t, pat) == t
    decreases |p|
  {
    var s := p + pat + t;
    if p == [] {
      assert s[..|pat|] == pat && s[|pat|..] == t;
      AfterLastAbsent(t, pat);
    } else if s[..|pat|] == pat {
      if |p| < |pat| {
        assert s[|p|..|p| + |pat|] == pat;
        OverlapIsBorder(s, pat, |p|);
        assert false;
      }
      assert p[..|pat|] == pat;
      assert s[|pat|..] == p[|pat|..] + pat + t;
      AfterLastBorderFree(p[|pat|..], pat, t);
    } else {
      assert s[1..] == p[1..] + pat + t;
      assert s[1..][|p| - 1..|p| - 1 + |pat|] == pat;
      ContainsAt(s[1..], pat, |p| - 1);
      AfterLastBorderFree(p[1..], pat, t);
    }
  }

  /** An occurrence of `pat` in `a + b` that is in neither part covers the
      first character of `b`; a `b` starting with a character `pat` lacks
      therefore adds no occurrence. */
  lemma {:induction false} NoStraddle(a: string, b: string, pat: string)
    requires b != [] && forall j :: 0 <= j < |pat| ==> pat[j] != b[0]
    ensures Contains(a + b, pat) <==> Contains(a, pat) || Contains(b, pat)
  {
    if Contains(a + b, pat) {
      var i := ContainsWitness(a + b, pat);
      if i + |pat| <= |a| {
        assert a[i..i + |pat|] == (a + b)[i..i + |pat|];
        ContainsAt(a, pat, i);
      } else if i >= |a| {
        assert b[i - |a|..i - |a| + |pat|] == (a + b)[i..i + |pat|];
        ContainsAt(b, pat, i - |a|);
      } else {
        StraddleChar(a, b, pat, i);
        assert false;
      }
    }
    if Contains(a, pat) {
      var i := ContainsWitness(a, pat);
      assert (a + b)[i..i + |pat|] == a[i..i + |pat|];
      ContainsAt(a + b, pat, i);
    } else if Contains(b, pat) {
      var i := ContainsWitness(b, pat);
      assert (a + b)[|a| + i..|a| + i + |pat|] == b[i..i + |pat|];
      ContainsAt(a + b, pat, |a| + i);
    }
  }

  /** An occurrence of `pat` at `i` that starts in `a` and ends in `b`
      holds the first character of `b`. */
  lemma {:induction false} StraddleChar(a: string, b: string, pat: string, i: nat)
    requires i < |a| < i + |pat| <= |a| + |b|
    requires (a + b)[i..i + |pat|] == pat
    ensures pat[|a| - i] == b[0]
  {
    assert (a + b)[i..i + |pat|][|a| - i] == (a + b)[|a|];
  }

  /** A text lacking one of the characters of `pat` does not contain `pat`. */
  lemma {:induction false} NotContainsCharOf(t: string, pat: string, j: nat)
    requires j < |pat| && forall i :: 0 <= i < |t| ==> t[i] != pat[j]
    ensures !Contains(t, pat)
    decreases |t|
  {
    if t != [] {
      if |pat| <= |t| {
        assert t[..|pat|][j] == t[j];
      }
      assert forall i :: 0 <= i < |t[1..]| ==> t[1..][i] == t[i + 1];
      NotContainsCharOf(t[1..], pat, j);
    }
  }

  predicate IsDigit(c: char) {
    '0' <= c <= '9'
  }

  predicate AllDigits(s: string) {
    forall i :: 0 <= i < |s| ==> IsDigit(s[i])
  }

  function DigitChar(d: nat): (c: char)
    requires d < 10
    ensures IsDigit(c) && c as int - '0' as int == d
  {
    ('0' as int + d) as char
  }

  /** Python's `str(n)` for a natural number. */
  function NatToString(n: nat): (s: string)
    ensures s != [] && AllDigits(s)
  {
    if n < 10 then [DigitChar(n)] else NatToString(n / 10) + [DigitChar(n % 10)]
  }

  /** Python's `str(i)` for an integer. */
  function IntToString(i: int): string {
    if i < 0 then "-" + NatToString(-i) else NatToString(i)
  }

  /** The value of a string of decimal digits. */
  function DigitsValue(s: string): nat
    requires AllDigits(s)
  {
    if s == [] then 0
    else 10 * DigitsValue(s[..|s| - 1]) + (s[|s| - 1] as int - '0' as int)
  }

  /** Python's `int(s)` on text without underscores: surrounding whitespace, an
      optional sign and at least one digit; anything else is a ValueError. */
  function ParseInt(s: string): (r: Option<int>)
    ensures r.Some? ==> Strip(s) != []
  {
    var t := Strip(s);
    if t == [] then None
    else if t[0] == '-' || t[0] == '+' then
      var d := t[1..];
      if d != [] && AllDigits(d) then
        var v: int := DigitsValue(d);
        Some(if t[0] == '-' then -v else v)
      else None
    else if AllDigits(t) then Some(DigitsValue(t))
    else None
  }

  /** Reading back what `str(n)` wrote gives `n` again. */
  lemma {:induction false} NatToStringRoundTrip(n: nat)
    ensures DigitsValue(NatToString(n)) == n
  {
    if n >= 10 {
      NatToStringRoundTrip(n / 10);
      var s := NatToString(n);
      assert s[..|s| - 1] == NatToString(n / 10);
    }
  }

  lemma {:induction false} ParseIntOfNatToString(n: nat)
    ensures ParseInt(NatToString(n)) == Some(n)
  {
    var s := NatToString(n);
    assert IsStripped(s);
    StripStripped(s);
    NatToStringRoundTrip(n);
  }
}
