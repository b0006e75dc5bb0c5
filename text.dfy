/** Option type shared by the modules of the model. */
module Wrappers {
  datatype Option<+T> = None | Some(value: T) {
    function GetOr(default: T): T {
      match this
      case Some(v) => v
      case None => default
    }
  }
}

/**
 * Python string and slice semantics used throughout the pipeline: the
 * whitespace set of `str.isspace` (and of the regex class `\s`), `strip`,
 * `str.join`, the slices `s[:k]` and `s[-k:]` for every integer `k`, ASCII
 * `lower`, decimal `str(n)` and the sentence split `re.split(r'(?<=[.!?])\s+', s)`.
 */
module Text {

  /** The characters for which Python's `str.isspace()` holds; `\s` matches exactly these. */
  predicate IsSpace(c: char) {
    || ('\t' <= c <= '\r')
    || ('\U{1C}' <= c <= ' ')
    || c == '\U{85}' || c == '\U{A0}' || c == '\U{1680}'
    || ('\U{2000}' <= c <= '\U{200A}')
    || c == '\U{2028}' || c == '\U{2029}' || c == '\U{202F}' || c == '\U{205F}' || c == '\U{3000}'
  }

  predicate IsTerminator(c: char) {
    c == '.' || c == '!' || c == '?'
  }

  predicate IsAscii(c: char) {
    c as int < 128
  }

  function Min(a: int, b: int): int { if a <= b then a else b }

  function Max(a: int, b: int): int { if a >= b then a else b }

  /** Length of the longest prefix of `s` whose characters all satisfy `p`. */
  function RunLength(s: string, p: char -> bool): (n: nat)
    ensures n <= |s|
    ensures forall i :: 0 <= i < n ==> p(s[i])
    ensures n < |s| ==> !p(s[n])
  {
    if s == [] || !p(s[0]) then 0 else 1 + RunLength(s[1..], p)
  }

  /** No whitespace at either end (the result shape of `str.strip()`). */
  predicate IsStripped(s: string) {
    s == [] || (!IsSpace(s[0]) && !IsSpace(s[|s| - 1]))
  }

  /** `s.lstrip()`: drops the leading whitespace and nothing else. */
  function LStrip(s: string): (r: string)
    ensures |r| <= |s|
    ensures forall i :: 0 <= i < |s| - |r| ==> IsSpace(s[i])
    ensures r == [] || !IsSpace(r[0])
  {
    if s != [] && IsSpace(s[0]) then LStrip(s[1..]) else s
  }

  /** What `lstrip` keeps is a suffix of its argument. */
  lemma {:induction false} LStripSuffix(s: string)
    ensures LStrip(s) == s[|s| - |LStrip(s)|..]
    decreases |s|
  {
    if s != [] && IsSpace(s[0]) {
      LStripSuffix(s[1..]);
      assert s[1..][|s| - 1 - |LStrip(s)|..] == s[|s| - |LStrip(s)|..];
    }
  }

  /** `s.rstrip()`: drops the trailing whitespace and nothing else. */
  function RStrip(s: string): (r: string)
    ensures |r| <= |s| && r == s[..|r|]
    ensures forall i :: |r| <= i < |s| ==> IsSpace(s[i])
    ensures r == [] || !IsSpace(r[|r| - 1])
  {
    if s != [] && IsSpace(s[|s| - 1]) then RStrip(s[..|s| - 1]) else s
  }

  /** `s.strip()`: a contiguous slice of `s` with no whitespace at either end. */
  function Strip(s: string): (r: string)
    ensures IsStripped(r)
    ensures 0 <= |RStrip(s)| - |r| && r == s[|RStrip(s)| - |r|..|RStrip(s)|]
    ensures IsStripped(s) ==> r == s
  {
    var t := RStrip(s);
    var r := LStrip(t);
    LStripSuffix(t);
    assert r == [] || r[|r| - 1] == t[|t| - 1];
    r
  }

  /** Everything `strip()` cuts off, before and after the slice it keeps, is whitespace. */
  lemma StripRemovesOnlySpace(s: string)
    ensures forall i :: 0 <= i < |RStrip(s)| - |Strip(s)| ==> IsSpace(s[i])
    ensures forall i :: |RStrip(s)| <= i < |s| ==> IsSpace(s[i])
  {
    var t := RStrip(s);
    forall i | 0 <= i < |t| - |Strip(s)| ensures IsSpace(s[i]) {
      assert s[i] == t[i];
    }
  }

  lemma Assoc<T>(a: seq<T>, b: seq<T>, c: seq<T>)
    ensures a + b + c == a + (b + c)
  {
  }

  /** `sep.join(parts)`. */
  function Join(parts: seq<string>, sep: string): string
    decreases |parts|
  {
    if |parts| == 0 then ""
    else if |parts| == 1 then parts[0]
    else Join(parts[..|parts| - 1], sep) + sep + parts[|parts| - 1]
  }

  lemma {:induction false} JoinAppend(a: seq<string>, b: seq<string>, sep: string)
    requires a != [] && b != []
    ensures Join(a + b, sep) == Join(a, sep) + sep + Join(b, sep)
    decreases |b|
  {
    if |b| == 1 {
      assert (a + b)[..|a + b| - 1] == a;
    } else {
      var b' := b[..|b| - 1];
      assert (a + b)[..|a + b| - 1] == a + b';
      JoinAppend(a, b', sep);
    }
  }

  /** Python's `s[:k]` for any integer `k`. */
  function PyTake<T>(s: seq<T>, k: int): (r: seq<T>)
    ensures k >= 0 ==> |r| == Min(k, |s|)
    ensures k < 0 ==> |r| == Max(0, |s| + k)
    ensures r == s[..|r|]
  {
    if k >= 0 then (if k <= |s| then s[..k] else s)
    else (if -k <= |s| then s[..|s| + k] else [])
  }

  /** Python's `s[-k:]` for any integer `k`; note that `s[-0:]` is all of `s`. */
  function PyTail<T>(s: seq<T>, k: int): (r: seq<T>)
    ensures k > 0 ==> |r| == Min(k, |s|)
    ensures k == 0 ==> r == s
    ensures k < 0 ==> |r| == Max(0, |s| + k)
  {
    if k > 0 then (if k <= |s| then s[|s| - k..] else s)
    else if k == 0 then s
    else (if -k <= |s| then s[-k..] else [])
  }

  lemma PyTailSuffix<T>(s: seq<T>, k: int)
    ensures PyTail(s, k) == s[|s| - |PyTail(s, k)|..]
  {
  }

  function LowerChar(c: char): char {
    if 'A' <= c <= 'Z' then (c as int + 32) as char else c
  }

  /** `s.lower()` restricted to ASCII letters. */
  function Lower(s: string): (r: string)
    ensures |r| == |s|
    ensures forall i :: 0 <= i < |s| ==> r[i] == LowerChar(s[i])
  {
    seq(|s|, i requires 0 <= i < |s| => LowerChar(s[i]))
  }

  predicate IsPrefix(p: string, s: string) {
    |p| <= |s| && s[..|p|] == p
  }

  /** `sub in s` for strings. */
  predicate Contains(s: string, sub: string)
    decreases |s|
  {
    IsPrefix(sub, s) || (s != [] && Contains(s[1..], sub))
  }

  /** `s.replace(a, b)` for single characters. */
  function ReplaceChar(s: string, from: char, to: char): (r: string)
    ensures |r| == |s|
    ensures forall i :: 0 <= i < |s| ==> r[i] == (if s[i] == from then to else s[i])
  {
    seq(|s|, i requires 0 <= i < |s| => if s[i] == from then to else s[i])
  }

  predicate IsDigit(c: char) { '0' <= c <= '9' }

  function DigitChar(d: nat): char
    requires d < 10
  {
    ('0' as int + d) as char
  }

  /** `str(n)` for a non-negative integer. */
  function NatToString(n: nat): (r: string)
    ensures r != []
    ensures forall i :: 0 <= i < |r| ==> IsDigit(r[i])
  {
    if n < 10 then [DigitChar(n)] else NatToString(n / 10) + [DigitChar(n % 10)]
  }

  lemma {:induction false} NatToStringInjective(a: nat, b: nat)
    requires NatToString(a) == NatToString(b)
    ensures a == b
  {
    if a >= 10 && b >= 10 {
      var sa, sb := NatToString(a / 10), NatToString(b / 10);
      assert NatToString(a) == sa + [DigitChar(a % 10)];
      assert NatToString(b) == sb + [DigitChar(b % 10)];
      assert sa == NatToString(a)[..|sa|];
      assert DigitChar(a % 10) == DigitChar(b % 10);
      NatToStringInjective(a / 10, b / 10);
    }
  }

  /** A sentence boundary: whitespace at `m` directly after a terminator. */
  predicate BreakAt(s: string, m: int)
    requires 1 <= m < |s|
  {
    IsTerminator(s[m - 1]) && IsSpace(s[m])
  }

  /** First index `j >= k` where a whitespace character follows a terminator, or `|s|`. */
  function FindBreak(s: string, k: nat): (j: nat)
    requires k >= 1
    ensures k <= j || j == |s|
    ensures j <= |s| || j == k
    ensures j < |s| ==> 1 <= j && BreakAt(s, j)
    ensures forall m :: k <= m < j && m < |s| ==> !BreakAt(s, m)
    decreases |s| - k
  {
    if k >= |s| then |s|
    else if BreakAt(s, k) then k
    else FindBreak(s, k + 1)
  }

  /**
   * `re.split(r'(?<=[.!?])\s+', s)`: cut at every maximal whitespace run that
   * directly follows `.`, `!` or `?`, dropping the run. Always at least one
   * piece (the empty string splits into `[""]`).
   */
  function SplitSentences(s: string): (r: seq<string>)
    ensures |r| >= 1
    decreases |s|
  {
    var i := FindBreak(s, 1);
    if i >= |s| then [s]
    else
      var n := RunLength(s[i..], IsSpace);
      [s[..i]] + SplitSentences(s[i + n..])
  }

  /** Every piece is non-empty and has no whitespace at either end. */
  ghost predicate WellFormedSentences(ss: seq<string>) {
    forall k :: 0 <= k < |ss| ==> ss[k] != [] && IsStripped(ss[k])
  }

  /** Cutting a stripped text at a break leaves a stripped sentence before it and a stripped rest after the whitespace. */
  lemma BreakSplits(s: string, i: nat, n: nat)
    requires s != [] && IsStripped(s)
    requires 1 <= i < |s| && BreakAt(s, i)
    requires n == RunLength(s[i..], IsSpace)
    ensures s[..i] != [] && IsStripped(s[..i])
    ensures i + n < |s| && IsStripped(s[i + n..])
  {
    assert s[i..][|s| - i - 1] == s[|s| - 1];
    assert s[..i][i - 1] == s[i - 1];
    assert !IsSpace(s[i..][n]);
    var rest := s[i + n..];
    assert rest[0] == s[i + n];
    assert rest[|rest| - 1] == s[|s| - 1];
  }

  /** At the first break, the text splits into the sentence before it and the split of the rest. */
  lemma SplitAtBreak(s: string, i: nat, n: nat)
    requires i == FindBreak(s, 1) && i < |s|
    requires n == RunLength(s[i..], IsSpace)
    ensures SplitSentences(s) == [s[..i]] + SplitSentences(s[i + n..])
  {
    var r := SplitSentences(s);
    assert r == (if i >= |s| then [s] else [s[..i]] + SplitSentences(s[i + n..]));
  }

  /** A non-empty text without surrounding whitespace splits into well-formed sentences. */
  lemma {:induction false} SplitSentencesWellFormed(s: string)
    requires s != [] && IsStripped(s)
    ensures WellFormedSentences(SplitSentences(s))
    decreases |s|
  {
    var i := FindBreak(s, 1);
    if i < |s| {
      var n := RunLength(s[i..], IsSpace);
      var rest := s[i + n..];
      BreakSplits(s, i, n);
      SplitSentencesWellFormed(rest);
      var r := SplitSentences(s);
      SplitAtBreak(s, i, n);
      forall k | 0 <= k < |r| ensures r[k] != [] && IsStripped(r[k]) {
        if k > 0 {
          assert r[k] == SplitSentences(rest)[k - 1];
        }
      }
    }
  }
}
