/**
 * The lexical answer evaluator: a tokeniser, the sentence splitter and five
 * overlap ratios (faithfulness, answer relevancy, context precision, context
 * recall, answer correctness), their mean and a quality label. Ratios are
 * exact reals; Python's `round(..., 4)` is not modelled.
 */
module Evaluator {
  import opened Wrappers
  import opened Text

  /** A character of the regex class `\w`, restricted to ASCII. */
  predicate IsWordChar(c: char) {
    ('a' <= c <= 'z') || ('A' <= c <= 'Z') || ('0' <= c <= '9') || c == '_'
  }

  predicate IsLowerWord(w: string) {
    |w| >= 2 && forall i :: 0 <= i < |w| ==> 'a' <= w[i] <= 'z'
  }

  /**
   * `re.findall(r'\b[a-z]{2,}\b', t)`: the maximal runs of word characters
   * that consist of at least two letters `a`-`z` and nothing else.
   */
  function Words(t: string): (r: seq<string>)
    ensures forall k :: 0 <= k < |r| ==> IsLowerWord(r[k])
    decreases |t|
  {
    if t == [] then []
    else if !IsWordChar(t[0]) then Words(t[1..])
    else
      var n := RunLength(t, IsWordChar);
      var w := t[..n];
      (if IsLowerWord(w) then [w] else []) + Words(t[n..])
  }

  /** `_tokenize`. */
  function Tokenize(text: string): (r: seq<string>)
    ensures forall k :: 0 <= k < |r| ==> IsLowerWord(r[k])
  {
    Words(Lower(text))
  }

  /**
   * A single run of word characters gives itself exactly when it is at least
   * two letters `a`-`z`, and nothing otherwise (so `abc1` and `t` give nothing).
   * With `WordsSplit` this fixes `Words` on every text.
   */
  lemma WordsOfRun(w: string)
    requires forall i :: 0 <= i < |w| ==> IsWordChar(w[i])
    ensures Words(w) == (if IsLowerWord(w) then [w] else [])
  {
    if w != [] {
      assert RunLength(w, IsWordChar) == |w|;
      assert w[..|w|] == w;
      assert w[|w|..] == [];
    }
  }

  /** Text without upper-case letters is its own lower-casing. */
  lemma LowerFixed(s: string)
    requires forall i :: 0 <= i < |s| ==> !('A' <= s[i] <= 'Z')
    ensures Lower(s) == s
  {
  }

  /** A run mixing letters and a digit is not a token. */
  lemma MixedRunDropped()
    ensures Tokenize("abc1") == []
  {
    LowerFixed("abc1");
    WordsOfRun("abc1");
  }

  /** The lone letter after an apostrophe is not a token: `don't` gives `don`. */
  lemma ApostropheSplit(w: string, c: char)
    requires IsLowerWord(w) && 'a' <= c <= 'z'
    ensures Tokenize(w + ['\''] + [c]) == [w]
  {
    var t := w + ['\''] + [c];
    LowerFixed(t);
    WordsSplit(w, '\'', [c]);
    WordsOfRun(w);
    WordsOfRun([c]);
  }

  /** Tokenising text joined at a non-word character tokenises the two sides separately. */
  lemma {:induction false} WordsSplit(a: string, sep: char, b: string)
    requires !IsWordChar(sep)
    ensures Words(a + [sep] + b) == Words(a) + Words(b)
    decreases |a|
  {
    var t := a + [sep] + b;
    if a == [] {
      assert t[1..] == b;
    } else if !IsWordChar(a[0]) {
      assert t[1..] == a[1..] + [sep] + b;
      WordsSplit(a[1..], sep, b);
    } else {
      var n := RunLength(a, IsWordChar);
      RunLengthPrefix(a, [sep] + b, n);
      SliceConcat(a, [sep], b, n);
      WordsSplit(a[n..], sep, b);
      WordsRun(t, n);
      WordsRun(a, n);
    }
  }

  lemma SliceConcat(a: string, m: string, b: string, n: nat)
    requires n <= |a|
    ensures (a + m + b)[..n] == a[..n]
    ensures (a + m + b)[n..] == a[n..] + m + b
  {
  }

  /** A text that starts with a word character starts with the word made of its first run. */
  lemma WordsRun(t: string, n: nat)
    requires t != [] && IsWordChar(t[0]) && n == RunLength(t, IsWordChar)
    ensures Words(t) == (if IsLowerWord(t[..n]) then [t[..n]] else []) + Words(t[n..])
  {
  }

  lemma {:induction false} RunLengthPrefix(a: string, c: string, n: nat)
    requires n == RunLength(a, IsWordChar)
    requires c != [] && !IsWordChar(c[0])
    ensures RunLength(a + c, IsWordChar) == n
    decreases |a|
  {
    if a != [] && IsWordChar(a[0]) {
      assert (a + c)[1..] == a[1..] + c;
      RunLengthPrefix(a[1..], c, n - 1);
    }
  }

  lemma LowerSplit(a: string, b: string)
    ensures Lower(a + " " + b) == Lower(a) + " " + Lower(b)
  {
  }

  function TokenSet(text: string): set<string> {
    set w | w in Tokenize(text)
  }

  /** The contexts as one text, as the metrics join them. */
  function Combined(contexts: seq<string>): string {
    Join(contexts, " ")
  }

  /** The tokens of the joined contexts are the tokens of the contexts, one after the other. */
  lemma {:induction false} CombinedTokens(contexts: seq<string>)
    ensures TokenSet(Combined(contexts)) == set i, w | 0 <= i < |contexts| && w in Tokenize(contexts[i]) :: w
    decreases |contexts|
  {
    if |contexts| == 1 {
    } else if |contexts| > 1 {
      var init := contexts[..|contexts| - 1];
      var last := contexts[|contexts| - 1];
      CombinedTokens(init);
      LowerSplit(Combined(init), last);
      WordsSplit(Lower(Combined(init)), ' ', Lower(last));
      assert Tokenize(Combined(contexts)) == Tokenize(Combined(init)) + Tokenize(last);
      forall w | w in TokenSet(Combined(contexts))
        ensures exists i :: 0 <= i < |contexts| && w in Tokenize(contexts[i])
      {
        if w in Tokenize(last) {
          assert w in Tokenize(contexts[|contexts| - 1]);
        } else {
          assert w in TokenSet(Combined(init));
          var i :| 0 <= i < |init| && w in Tokenize(init[i]);
          assert contexts[i] == init[i];
        }
      }
      forall i, w | 0 <= i < |contexts| && w in Tokenize(contexts[i])
        ensures w in TokenSet(Combined(contexts))
      {
        if i < |init| {
          assert init[i] == contexts[i];
          assert w in TokenSet(Combined(init));
        }
      }
    }
  }

  /** `_split_sentences`: the stripped non-empty pieces of the sentence split. */
  function Sentences(text: string): (r: seq<string>)
    ensures forall k :: 0 <= k < |r| ==> r[k] != [] && IsStripped(r[k])
  {
    NonEmptyStripped(SplitSentences(text))
  }

  function NonEmptyStripped(ps: seq<string>): (r: seq<string>)
    ensures |r| <= |ps|
    ensures forall k :: 0 <= k < |r| ==> r[k] != [] && IsStripped(r[k])
  {
    if ps == [] then []
    else
      var s := Strip(ps[0]);
      (if s != [] then [s] else []) + NonEmptyStripped(ps[1..])
  }

  function Ratio(num: nat, den: nat): real
    requires den > 0
  {
    num as real / den as real
  }

  lemma RatioBounds(num: nat, den: nat)
    requires den > 0 && num <= den
    ensures 0.0 <= Ratio(num, den) <= 1.0
    ensures Ratio(num, den) == 1.0 <==> num == den
    ensures Ratio(num, den) == 0.0 <==> num == 0
  {
  }

  lemma {:induction false} SubsetSize(a: set<string>, b: set<string>)
    requires a <= b
    ensures |a| <= |b|
    decreases |a|
  {
    if a != {} {
      var x :| x in a;
      SubsetSize(a - {x}, b - {x});
    }
  }

  lemma SubsetCard(a: set<string>, b: set<string>)
    ensures |a * b| <= |a|
  {
    SubsetSize(a * b, a);
  }

  lemma MulPos(u: real, v: real)
    requires u > 0.0 && v > 0.0
    ensures u * v > 0.0
  {
  }

  /** An answer sentence is supported when more than half of its tokens occur in the context. */
  predicate Supported(tokens: set<string>, ctx: set<string>) {
    tokens != {} && Ratio(|tokens * ctx|, |tokens|) > 0.5
  }

  /** The ratio test is the integer test `2 * shared > total`. */
  lemma SupportedIff(tokens: set<string>, ctx: set<string>)
    ensures Supported(tokens, ctx) <==> tokens != {} && 2 * |tokens * ctx| > |tokens|
  {
    if tokens != {} {
      var k := |tokens * ctx|;
      HalfTest(k as real, |tokens| as real);
      assert (2 * k) as real == 2.0 * (k as real);
    }
  }

  /** `n / d > 0.5` is `2 n > d` for a positive `d`. */
  lemma HalfTest(n: real, d: real)
    requires d > 0.0
    ensures n / d > 0.5 <==> 2.0 * n > d
  {
    var r := n / d;
    assert r * d == n;
    MulMono(r, 0.5, d);
  }

  /** Multiplying by a positive number keeps a strict order. */
  lemma MulMono(a: real, b: real, d: real)
    requires d > 0.0
    ensures a > b <==> a * d > b * d
  {
    if a > b {
      MulPos(a - b, d);
    } else if a < b {
      MulPos(b - a, d);
    }
  }

  function SupportedCount(sents: seq<string>, ctx: set<string>): (n: nat)
    ensures n <= |sents|
  {
    if sents == [] then 0
    else SupportedCount(sents[..|sents| - 1], ctx) + (if Supported(TokenSet(sents[|sents| - 1]), ctx) then 1 else 0)
  }

  lemma SupportedCountStep(sents: seq<string>, i: nat, ctx: set<string>)
    requires i < |sents|
    ensures SupportedCount(sents[..i + 1], ctx)
      == SupportedCount(sents[..i], ctx) + (if Supported(TokenSet(sents[i]), ctx) then 1 else 0)
  {
    assert sents[..i + 1][..i] == sents[..i];
  }

  /** The share of answer sentences the contexts support. */
  function FaithfulnessOf(answer: string, contexts: seq<string>): (r: real)
    ensures 0.0 <= r <= 1.0
    ensures contexts == [] || answer == "" || Sentences(answer) == [] ==> r == 0.0
  {
    var sents := Sentences(answer);
    if contexts == [] || answer == "" || sents == [] then 0.0
    else
      var n := SupportedCount(sents, TokenSet(Lower(Combined(contexts))));
      RatioBounds(n, |sents|);
      Ratio(n, |sents|)
  }

  /** `_faithfulness`: counts the supported sentences in a loop. */
  method Faithfulness(answer: string, contexts: seq<string>) returns (r: real)
    ensures r == FaithfulnessOf(answer, contexts)
    ensures 0.0 <= r <= 1.0
  {
    if contexts == [] || answer == "" {
      return 0.0;
    }
    var answerSentences := Sentences(answer);
    if answerSentences == [] {
      return 0.0;
    }
    var combinedContext := Lower(Combined(contexts));
    var ctxTokens := TokenSet(combinedContext);
    var supported := 0;
    for i := 0 to |answerSentences|
      invariant supported == SupportedCount(answerSentences[..i], ctxTokens)
    {
      SupportedCountStep(answerSentences, i, ctxTokens);
      var tokens := TokenSet(answerSentences[i]);
      if tokens != {} && Ratio(|tokens * ctxTokens|, |tokens|) > 0.5 {
        supported := supported + 1;
      }
    }
    assert answerSentences[..|answerSentences|] == answerSentences;
    r := Ratio(supported, |answerSentences|);
  }

  const StopWords: set<string> := {
    "what", "is", "the", "a", "an", "of", "in", "to", "how",
    "does", "do", "can", "who", "when", "where", "why", "which"
  }

  /** `_answer_relevancy`: the share of content words of the question the answer repeats. */
  function AnswerRelevancy(question: string, answer: string): (r: real)
    ensures 0.0 <= r <= 1.0
    ensures question == "" || answer == "" ==> r == 0.0
    ensures question != "" && answer != "" && TokenSet(question) - StopWords == {} ==> r == 0.5
    ensures |answer| < 20 ==> r <= 0.5
    ensures question != "" && answer != "" && TokenSet(question) - StopWords != {} ==>
      r == (if |answer| < 20 then 0.5 else 1.0)
           * Ratio(|(TokenSet(question) - StopWords) * TokenSet(answer)|, |TokenSet(question) - StopWords|)
  {
    if question == "" || answer == "" then 0.0
    else
      var q := TokenSet(question) - StopWords;
      var a := TokenSet(answer);
      if q == {} then 0.5
      else
        SubsetCard(q, a);
        RatioBounds(|q * a|, |q|);
        var score := Min2(Ratio(|q * a|, |q|), 1.0);
        if |answer| < 20 then score * 0.5 else score
  }

  function Min2(x: real, y: real): real { if x <= y then x else y }

  /** A context is relevant when it shares more than 30% of the question's tokens. */
  predicate Relevant(q: set<string>, ctx: string)
    requires q != {}
  {
    Ratio(|q * TokenSet(ctx)|, |q|) > 0.3
  }

  function RelevantCount(q: set<string>, contexts: seq<string>): (n: nat)
    requires q != {}
    ensures n <= |contexts|
  {
    if contexts == [] then 0
    else RelevantCount(q, contexts[..|contexts| - 1]) + (if Relevant(q, contexts[|contexts| - 1]) then 1 else 0)
  }

  /** `_context_precision`: counts the relevant contexts in a loop. */
  method ContextPrecision(question: string, contexts: seq<string>) returns (r: real)
    ensures 0.0 <= r <= 1.0
    ensures contexts == [] ==> r == 0.0
    ensures contexts != [] && TokenSet(question) == {} ==> r == 0.5
    ensures contexts != [] && TokenSet(question) != {} ==>
      r == Ratio(RelevantCount(TokenSet(question), contexts), |contexts|)
  {
    if contexts == [] {
      return 0.0;
    }
    var qTokens := TokenSet(question);
    if qTokens == {} {
      return 0.5;
    }
    var relevant := 0;
    for i := 0 to |contexts|
      invariant relevant == RelevantCount(qTokens, contexts[..i])
    {
      assert contexts[..i + 1][..i] == contexts[..i];
      var ctxTokens := TokenSet(contexts[i]);
      var overlap := Ratio(|qTokens * ctxTokens|, |qTokens|);
      if overlap > 0.3 {
        relevant := relevant + 1;
      }
    }
    assert contexts[..|contexts|] == contexts;
    RatioBounds(relevant, |contexts|);
    r := Ratio(relevant, |contexts|);
  }

  /** `_context_recall`: the share of ground-truth tokens found in the contexts. */
  function ContextRecall(contexts: seq<string>, groundTruth: string): (r: real)
    ensures 0.0 <= r <= 1.0
    ensures groundTruth == "" || contexts == [] ==> r == 0.0
    ensures groundTruth != "" && contexts != [] && TokenSet(groundTruth) == {} ==> r == 0.5
  {
    if groundTruth == "" || contexts == [] then 0.0
    else
      var gt := TokenSet(groundTruth);
      var ctx := TokenSet(Combined(contexts));
      if gt == {} then 0.5
      else
        SubsetCard(gt, ctx);
        RatioBounds(|gt * ctx|, |gt|);
        Min2(Ratio(|gt * ctx|, |gt|), 1.0)
  }

  /** Full recall means every ground-truth token occurs in some context. */
  lemma FullRecallIff(contexts: seq<string>, groundTruth: string)
    requires groundTruth != "" && contexts != [] && TokenSet(groundTruth) != {}
    ensures ContextRecall(contexts, groundTruth) == 1.0 <==>
      forall w :: w in TokenSet(groundTruth) ==>
        exists i :: 0 <= i < |contexts| && w in Tokenize(contexts[i])
  {
    var gt := TokenSet(groundTruth);
    var ctx := TokenSet(Combined(contexts));
    CombinedTokens(contexts);
    SubsetCard(gt, ctx);
    RatioBounds(|gt * ctx|, |gt|);
    if |gt * ctx| == |gt| {
      assert gt * ctx <= gt;
      SameCardSubset(gt * ctx, gt);
      forall w | w in gt ensures w in ctx {
        assert w in gt * ctx;
      }
    }
    if forall w :: w in gt ==> w in ctx {
      assert gt * ctx == gt;
    }
  }

  lemma SameCardSubset(a: set<string>, b: set<string>)
    requires a <= b && |a| == |b|
    ensures a == b
  {
    if a != b {
      var x :| x in b && x !in a;
      SubsetSize(a, b - {x});
    }
  }

  lemma MultisetMeetBound(a: multiset<string>, b: multiset<string>)
    ensures |a * b| <= |a| && |a * b| <= |b|
    ensures a * b == b * a
  {
    assert a * b + (a - b) == a;
    assert a * b + (b - a) == b;
  }

  /** `_answer_correctness`: token F1 over multisets, as `2 * common / (|answer| + |truth|)`. */
  function AnswerCorrectness(answer: string, groundTruth: string): (r: real)
    ensures 0.0 <= r <= 1.0
    ensures groundTruth == "" || answer == "" ==> r == 0.0
    ensures var a, g := multiset(Tokenize(answer)), multiset(Tokenize(groundTruth));
      groundTruth != "" && answer != "" && |a * g| > 0 ==> r == Ratio(2 * |a * g|, |a| + |g|)
    ensures var a, g := multiset(Tokenize(answer)), multiset(Tokenize(groundTruth));
      |a * g| == 0 ==> r == 0.0
  {
    if groundTruth == "" || answer == "" then 0.0
    else
      var a := multiset(Tokenize(answer));
      var g := multiset(Tokenize(groundTruth));
      var common := |a * g|;
      if common == 0 then 0.0
      else
        MultisetMeetBound(a, g);
        F1(common, |a|, |g|)
  }

  /** `2 * precision * recall / (precision + recall)` for `common` shared tokens out of `x` and `y`. */
  function F1(common: nat, x: nat, y: nat): (r: real)
    requires 0 < common <= x && common <= y
    ensures r == Ratio(2 * common, x + y)
    ensures 0.0 < r <= 1.0
  {
    var precision := Ratio(common, x);
    var recall := Ratio(common, y);
    F1Identity(common, x, y);
    2.0 * precision * recall / (precision + recall)
  }

  /** The harmonic mean of `c/x` and `c/y` is `2c/(x+y)`, at most 1 when `c <= x, y`. */
  lemma F1Identity(c: nat, x: nat, y: nat)
    requires 0 < c <= x && c <= y
    ensures Ratio(c, x) + Ratio(c, y) > 0.0
    ensures 2.0 * Ratio(c, x) * Ratio(c, y) / (Ratio(c, x) + Ratio(c, y)) == Ratio(2 * c, x + y)
    ensures 0.0 < Ratio(2 * c, x + y) <= 1.0
  {
    var cr, xr, yr := c as real, x as real, y as real;
    var p, q := Ratio(c, x), Ratio(c, y);
    assert p * xr == cr;
    assert q * yr == cr;
    MulPos(p, 1.0);
    assert p > 0.0 && q > 0.0;
    assert 2.0 * p * q * (xr + yr) == 2.0 * q * (p * xr) + 2.0 * p * (q * yr);
    CrossMul(2.0 * p * q, p + q, 2.0 * cr, xr + yr);
    RatioBounds(2 * c, x + y);
  }

  lemma CrossMul(u: real, v: real, w: real, z: real)
    requires v != 0.0 && z != 0.0
    requires u * z == w * v
    ensures u / v == w / z
  {
    assert u / v == (u * z) / (v * z);
    assert w / z == (w * v) / (z * v);
  }

  /** Answer correctness does not care which text is the answer and which the truth. */
  lemma AnswerCorrectnessSymmetric(answer: string, groundTruth: string)
    ensures AnswerCorrectness(answer, groundTruth) == AnswerCorrectness(groundTruth, answer)
  {
    var a, g := multiset(Tokenize(answer)), multiset(Tokenize(groundTruth));
    MultisetMeetBound(a, g);
    assert |a| + |g| == |g| + |a|;
  }

  function Sum(vs: seq<real>): real {
    if vs == [] then 0.0 else Sum(vs[..|vs| - 1]) + vs[|vs| - 1]
  }

  predicate InUnit(vs: seq<real>) {
    forall i :: 0 <= i < |vs| ==> 0.0 <= vs[i] <= 1.0
  }

  lemma {:induction false} SumBounds(vs: seq<real>)
    requires InUnit(vs)
    ensures 0.0 <= Sum(vs) <= |vs| as real
  {
    if vs != [] {
      SumBounds(vs[..|vs| - 1]);
    }
  }

  /** The mean of scores in `[0, 1]` lies in `[0, 1]`. */
  lemma MeanBounds(vs: seq<real>)
    requires vs != [] && InUnit(vs)
    ensures 0.0 <= Sum(vs) / |vs| as real <= 1.0
  {
    SumBounds(vs);
  }

  /** `aggregate`: the mean of the present metrics, 0 when there are none. */
  function Aggregate(vs: seq<real>): real {
    if vs == [] then 0.0 else Sum(vs) / |vs| as real
  }

  const Excellent: string := "Excellent \U{2705}"
  const Good: string := "Good \U{1F7E1}"
  const Fair: string := "Fair \U{1F7E0}"
  const Poor: string := "Poor \U{1F534}"

  /** The quality label: each of the four labels is given exactly on its band of aggregates. */
  function Label(aggregate: real): (name: string)
    ensures name == Excellent <==> aggregate >= 0.8
    ensures name == Good <==> 0.6 <= aggregate < 0.8
    ensures name == Fair <==> 0.4 <= aggregate < 0.6
    ensures name == Poor <==> aggregate < 0.4
  {
    if aggregate >= 0.8 then Excellent
    else if aggregate >= 0.6 then Good
    else if aggregate >= 0.4 then Fair
    else Poor
  }

  /** The position of a label from Poor (0) to Excellent (3). */
  function LabelRank(name: string): nat {
    if name == Excellent then 3
    else if name == Good then 2
    else if name == Fair then 1
    else 0
  }

  /** A higher aggregate never gets a worse label. */
  lemma LabelMonotone(x: real, y: real)
    requires x <= y
    ensures LabelRank(Label(x)) <= LabelRank(Label(y))
  {
    assert Excellent != Good && Excellent != Fair && Excellent != Poor;
    assert Good != Fair && Good != Poor && Fair != Poor;
  }

  datatype Scores = Scores(
    faithfulness: real,
    answerRelevancy: real,
    contextPrecision: real,
    contextRecall: Option<real>,
    answerCorrectness: Option<real>,
    aggregate: real,
    qualityLabel: string)

  /** The metrics that are present, in the order the result lists them. */
  function Present(s: Scores): seq<real> {
    [s.faithfulness, s.answerRelevancy, s.contextPrecision]
      + (if s.contextRecall.Some? then [s.contextRecall.value] else [])
      + (if s.answerCorrectness.Some? then [s.answerCorrectness.value] else [])
  }

  /** Adds the mean of the present metrics and its label. */
  function WithAggregate(p: Scores): (s: Scores)
    requires 0.0 <= p.faithfulness <= 1.0 && 0.0 <= p.answerRelevancy <= 1.0 && 0.0 <= p.contextPrecision <= 1.0
    requires p.contextRecall.Some? ==> 0.0 <= p.contextRecall.value <= 1.0
    requires p.answerCorrectness.Some? ==> 0.0 <= p.answerCorrectness.value <= 1.0
    ensures s == p.(aggregate := s.aggregate, qualityLabel := s.qualityLabel)
    ensures 3 <= |Present(s)| <= 5 && InUnit(Present(s))
    ensures s.aggregate == Sum(Present(s)) / |Present(s)| as real
    ensures 0.0 <= s.aggregate <= 1.0
    ensures s.qualityLabel == Label(s.aggregate)
  {
    var valid := Present(p);
    var agg := Aggregate(valid);
    MeanBounds(valid);
    var s := p.(aggregate := agg, qualityLabel := Label(agg));
    assert Present(s) == valid;
    s
  }

  /** `evaluate`: fills in the metrics one after the other, then the mean and the label. */
  method Evaluate(question: string, answer: string, contexts: seq<string>, groundTruth: Option<string>)
    returns (scores: Scores)
    ensures scores.faithfulness == FaithfulnessOf(answer, contexts)
    ensures scores.answerRelevancy == AnswerRelevancy(question, answer)
    ensures contexts == [] ==> scores.contextPrecision == 0.0
    ensures contexts != [] && TokenSet(question) == {} ==> scores.contextPrecision == 0.5
    ensures contexts != [] && TokenSet(question) != {} ==>
      scores.contextPrecision == Ratio(RelevantCount(TokenSet(question), contexts), |contexts|)
    ensures var truthy := groundTruth.Some? && groundTruth.value != "";
      && (scores.contextRecall.Some? <==> truthy)
      && (scores.answerCorrectness.Some? <==> truthy)
      && (truthy ==>
            && scores.contextRecall == Some(ContextRecall(contexts, groundTruth.value))
            && scores.answerCorrectness == Some(AnswerCorrectness(answer, groundTruth.value)))
    ensures 3 <= |Present(scores)| <= 5 && InUnit(Present(scores))
    ensures scores.aggregate == Sum(Present(scores)) / |Present(scores)| as real
    ensures 0.0 <= scores.aggregate <= 1.0
    ensures scores.qualityLabel == Label(scores.aggregate)
  {
    var f := Faithfulness(answer, contexts);
    var ar := AnswerRelevancy(question, answer);
    var cp := ContextPrecision(question, contexts);
    var truthy := groundTruth.Some? && groundTruth.value != "";
    var cr: Option<real> := if truthy then Some(ContextRecall(contexts, groundTruth.value)) else None;
    var ac: Option<real> := None;
    if truthy {
      ac := Some(AnswerCorrectness(answer, groundTruth.value));
    }
    scores := WithAggregate(Scores(f, ar, cp, cr, ac, 0.0, ""));
  }
}
