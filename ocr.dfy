/**
  The word and confidence pass of the OCR service (`ocr_image_with_boxes`):
  Tesseract reports one entry per token, as parallel lists of texts and
  integer confidences (-1 where it has none). The service keeps the tokens
  whose stripped text is not empty as words, averages the confidences other
  than -1 into an integer, and returns the stripped full-page text with them.
  Any exception raised inside the `try` (lines 67-103 of the service) turns
  the result into ("", 0, []); the preprocessing before it is not part of
  this model.
 */
module Ocr {
  import opened Text
  import Seqs

  /** The two lists of `image_to_data` that the pass reads. */
  datatype TesseractData = TesseractData(text: seq<string>, conf: seq<int>)

  /** One recognised word (its box coordinates are not part of this model). */
  datatype Word = Word(text: string, conf: int)

  /** The service's result: the page text, the mean confidence and the words. */
  datatype OcrResult = OcrResult(text: string, confidence: int, words: seq<Word>)

  /** What the `except` branch returns. */
  const Failed: OcrResult := OcrResult("", 0, [])

  /** A token whose `strip()` is empty (see Text.StripEmptyIffBlank). */
  predicate IsBlank(t: string) {
    AllSpace(t)
  }

  /**
    Every token that the loop reads a confidence for has one; otherwise
    `data['conf'][i]` raises IndexError.
   */
  predicate ConfCovers(text: seq<string>, conf: seq<int>) {
    forall i | 0 <= i < |text| && !IsBlank(text[i]) :: i < |conf|
  }

  /** A word's confidence: Tesseract's -1 ("none") is reported as 0. */
  function WordConf(c: int): (r: int)
    ensures c != -1 ==> r == c
    ensures c == -1 ==> r == 0
  {
    if c == -1 then 0 else c
  }

  /** The words of the first |text| tokens. */
  function WordsOf(text: seq<string>, conf: seq<int>): (r: seq<Word>)
    requires ConfCovers(text, conf)
    ensures |r| <= |text|
    ensures forall w | w in r :: w.text != []
  {
    if text == [] then []
    else
      var n := |text| - 1;
      assert ConfCovers(text[..n], conf);
      var rest := WordsOf(text[..n], conf);
      if IsBlank(text[n]) then rest
      else
        StripEmptyIffBlank(text[n]);
        rest + [Word(Strip(text[n]), WordConf(conf[n]))]
  }

  /** The confidences that are averaged: those of non-blank tokens other than -1. */
  function ConfidencesOf(text: seq<string>, conf: seq<int>): (r: seq<int>)
    requires ConfCovers(text, conf)
    ensures |r| <= |text|
    ensures forall c | c in r :: c in conf && c != -1
  {
    if text == [] then []
    else
      var n := |text| - 1;
      assert ConfCovers(text[..n], conf);
      var rest := ConfidencesOf(text[..n], conf);
      if IsBlank(text[n]) || conf[n] == -1 then rest else rest + [conf[n]]
  }

  /** The positions of the non-blank tokens, in increasing order. */
  function NonBlankIndices(text: seq<string>): (r: seq<nat>)
    ensures forall j | 0 <= j < |r| :: r[j] < |text| && !IsBlank(text[r[j]])
    ensures StrictlyIncreasing(r)
    ensures forall i | 0 <= i < |text| && !IsBlank(text[i]) :: i in r
  {
    if text == [] then []
    else
      var n := |text| - 1;
      var rest := NonBlankIndices(text[..n]);
      assert forall i | 0 <= i < n :: text[..n][i] == text[i];
      if IsBlank(text[n]) then rest
      else
        AppendIncreasing(rest, n);
        rest + [n]
  }

  /** A position past every one of an increasing list extends it. */
  lemma AppendIncreasing(r: seq<nat>, n: nat)
    requires StrictlyIncreasing(r) && forall j | 0 <= j < |r| :: r[j] < n
    ensures StrictlyIncreasing(r + [n])
    ensures forall j | 0 <= j < |r| :: (r + [n])[j] == r[j]
  {
  }

  predicate StrictlyIncreasing(r: seq<nat>) {
    forall j, k | 0 <= j < k < |r| :: r[j] < r[k]
  }

  function Sum(cs: seq<int>): int {
    if cs == [] then 0 else Sum(cs[..|cs| - 1]) + cs[|cs| - 1]
  }

  /** Python's `int(a / n)` for a positive `n`: the quotient truncated toward zero. */
  function TruncDiv(a: int, n: int): (q: int)
    requires n > 0
    ensures a >= 0 ==> q >= 0 && n * q <= a < n * q + n
    ensures a < 0 ==> q <= 0 && n * q - n < a <= n * q
  {
    if a >= 0 then
      EuclidQuotient(a, n);
      a / n
    else
      EuclidQuotient(-a, n);
      NegMul(n, (-a) / n);
      -((-a) / n)
  }

  /** The quotient of a non-negative number leaves a remainder in [0, n). */
  lemma EuclidQuotient(b: int, n: int)
    requires b >= 0 && n > 0
    ensures b / n >= 0 && n * (b / n) <= b < n * (b / n) + n
  {
    assert b == n * (b / n) + b % n;
  }

  lemma NegMul(n: int, x: int)
    ensures n * -x == -(n * x)
  {
  }

  /** `int(sum(cs) / len(cs)) if cs else 0`. */
  function Mean(cs: seq<int>): int {
    if cs == [] then 0 else TruncDiv(Sum(cs), |cs|)
  }

  /** The whole pass; `None` stands for a Tesseract call that raised. */
  function Recognise(data: Option<TesseractData>, fullText: Option<string>): OcrResult {
    if data.None? || !ConfCovers(data.value.text, data.value.conf) || fullText.None? then Failed
    else
      var d := data.value;
      OcrResult(Strip(fullText.value), Mean(ConfidencesOf(d.text, d.conf)), WordsOf(d.text, d.conf))
  }

  // ---------------------------------------------------------------------------
  // The loop of ocr_image_with_boxes

  method OcrImageWithBoxes(data: Option<TesseractData>, fullText: Option<string>)
    returns (text: string, confidence: int, words: seq<Word>)
    ensures OcrResult(text, confidence, words) == Recognise(data, fullText)
    ensures (data.None? || fullText.None?) ==> text == "" && confidence == 0 && words == []
  {
    if data.None? {
      return "", 0, [];
    }
    var d := data.value;
    var confidences: seq<int> := [];
    words := [];
    var i := 0;
    while i < |d.text|
      invariant 0 <= i <= |d.text|
      invariant ConfCovers(d.text[..i], d.conf)
      invariant words == WordsOf(d.text[..i], d.conf)
      invariant confidences == ConfidencesOf(d.text[..i], d.conf)
    {
      var t := Strip(d.text[i]);
      StripEmptyIffBlank(d.text[i]);
      if t != [] && i >= |d.conf| {
        // data['conf'][i] raises IndexError
        PrefixNotCovered(d.text, d.conf, i);
        return "", 0, [];
      }
      PrefixCovered(d.text, d.conf, i);
      PrefixWords(d.text, d.conf, i);
      PrefixConfidences(d.text, d.conf, i);
      if t != [] {
        var c := d.conf[i];
        if c != -1 {
          confidences := confidences + [c];
        }
        words := words + [Word(t, if c != -1 then c else 0)];
      }
      i := i + 1;
    }
    assert d.text[..i] == d.text;
    if fullText.None? {
      return "", 0, [];
    }
    confidence := if confidences != [] then TruncDiv(Sum(confidences), |confidences|) else 0;
    text := Strip(fullText.value);
  }

  /** One more token keeps the prefix covered. */
  lemma PrefixCovered(text: seq<string>, conf: seq<int>, i: nat)
    requires i < |text| && ConfCovers(text[..i], conf)
    requires !IsBlank(text[i]) ==> i < |conf|
    ensures ConfCovers(text[..i + 1], conf)
  {
    var pre := text[..i + 1];
    forall j | 0 <= j < |pre| && !IsBlank(pre[j]) ensures j < |conf| {
      if j < i {
        assert pre[j] == text[..i][j];
      }
    }
  }

  /** One more token of the prefix: its word, if any, is appended. */
  lemma PrefixWords(text: seq<string>, conf: seq<int>, i: nat)
    requires i < |text| && ConfCovers(text[..i + 1], conf)
    ensures IsBlank(text[i]) ==> WordsOf(text[..i + 1], conf) == WordsOf(text[..i], conf)
    ensures !IsBlank(text[i]) ==> WordsOf(text[..i + 1], conf) == WordsOf(text[..i], conf) + [Word(Strip(text[i]), WordConf(conf[i]))]
  {
    var pre := text[..i + 1];
    assert pre[..i] == text[..i];
    assert pre[i] == text[i];
  }

  /** One more token of the prefix: its confidence, if it has one, is appended. */
  lemma PrefixConfidences(text: seq<string>, conf: seq<int>, i: nat)
    requires i < |text| && ConfCovers(text[..i + 1], conf)
    ensures IsBlank(text[i]) || conf[i] == -1 ==> ConfidencesOf(text[..i + 1], conf) == ConfidencesOf(text[..i], conf)
    ensures !IsBlank(text[i]) && conf[i] != -1 ==> ConfidencesOf(text[..i + 1], conf) == ConfidencesOf(text[..i], conf) + [conf[i]]
  {
    var pre := text[..i + 1];
    assert pre[..i] == text[..i];
    assert pre[i] == text[i];
  }

  /** A non-blank token without a confidence makes the whole input uncovered. */
  lemma PrefixNotCovered(text: seq<string>, conf: seq<int>, i: nat)
    requires i < |text| && !IsBlank(text[i]) && i >= |conf|
    ensures !ConfCovers(text, conf)
  {
  }

  // ---------------------------------------------------------------------------
  // What the pass promises

  /**
    The words are exactly the non-blank tokens, in input order: the j-th word
    is the stripped j-th non-blank token with its confidence (0 for -1).
   */
  lemma {:induction false} WordsAreNonBlankTokens(text: seq<string>, conf: seq<int>)
    requires ConfCovers(text, conf)
    ensures var k := NonBlankIndices(text); var ws := WordsOf(text, conf);
      |ws| == |k|
      && forall j | 0 <= j < |k| :: k[j] < |conf| && ws[j] == Word(Strip(text[k[j]]), WordConf(conf[k[j]]))
  {
    if text != [] {
      var n := |text| - 1;
      var pre := text[..n];
      assert ConfCovers(pre, conf);
      WordsAreNonBlankTokens(pre, conf);
      var kr, wr := NonBlankIndices(pre), WordsOf(pre, conf);
      var k, ws := NonBlankIndices(text), WordsOf(text, conf);
      assert k == kr + (if IsBlank(text[n]) then [] else [n]);
      assert ws == wr + (if IsBlank(text[n]) then [] else [Word(Strip(text[n]), WordConf(conf[n]))]);
      forall j | 0 <= j < |k| ensures k[j] < |conf| && ws[j] == Word(Strip(text[k[j]]), WordConf(conf[k[j]])) {
        if j < |kr| {
          assert k[j] == kr[j] && ws[j] == wr[j];
          assert pre[kr[j]] == text[kr[j]];
        }
      }
    }
  }

  /**
    The averaged confidences are exactly those of the non-blank tokens whose
    confidence is not -1, in input order.
   */
  lemma {:induction false} ConfidencesAreReadTokens(text: seq<string>, conf: seq<int>)
    requires ConfCovers(text, conf)
    ensures forall j | 0 <= j < |NonBlankIndices(text)| :: NonBlankIndices(text)[j] < |conf|
    ensures ConfidencesOf(text, conf)
         == Seqs.Filter(RawConfidences(text, conf), c => c != -1)
  {
    if text != [] {
      var n := |text| - 1;
      assert ConfCovers(text[..n], conf);
      ConfidencesAreReadTokens(text[..n], conf);
      var raw := RawConfidences(text[..n], conf);
      if !IsBlank(text[n]) {
        assert RawConfidences(text, conf) == raw + [conf[n]];
        Seqs.FilterConcat(raw, [conf[n]], c => c != -1);
        assert Seqs.Filter([conf[n]], c => c != -1) == if conf[n] != -1 then [conf[n]] else [];
      }
    }
  }

  /** The raw confidences of the non-blank tokens, in input order. */
  function RawConfidences(text: seq<string>, conf: seq<int>): (r: seq<int>)
    requires ConfCovers(text, conf)
    ensures |r| == |NonBlankIndices(text)|
    ensures forall j | 0 <= j < |r| :: NonBlankIndices(text)[j] < |conf| && r[j] == conf[NonBlankIndices(text)[j]]
  {
    if text == [] then []
    else
      var n := |text| - 1;
      assert ConfCovers(text[..n], conf);
      var rest := RawConfidences(text[..n], conf);
      if IsBlank(text[n]) then rest else rest + [conf[n]]
  }

  lemma {:induction false} SumBounds(cs: seq<int>, lo: int, hi: int)
    requires forall c | c in cs :: lo <= c <= hi
    ensures |cs| * lo <= Sum(cs) <= |cs| * hi
  {
    if cs != [] {
      var n := |cs| - 1;
      assert forall c | c in cs[..n] :: c in cs;
      SumBounds(cs[..n], lo, hi);
      assert cs[n] in cs;
      MulSucc(n, lo);
      MulSucc(n, hi);
    }
  }

  lemma MulSucc(n: int, x: int)
    ensures (n + 1) * x == n * x + x
  {
  }

  /** Multiplying by a positive number keeps the order. */
  lemma MulMonotone(n: int, x: int, y: int)
    requires n > 0 && x <= y
    ensures n * x <= n * y
  {
    assert n * y - n * x == n * (y - x);
  }

  /** A quotient whose remainder is smaller than the divisor lies between any bounds of the dividend over it. */
  lemma QuotientBounds(a: int, n: int, q: int, lo: int, hi: int)
    requires n > 0 && -n < a - n * q < n && n * lo <= a <= n * hi
    ensures lo <= q <= hi
  {
    if q > hi {
      MulMonotone(n, hi + 1, q);
    }
    if q < lo {
      MulMonotone(n, q + 1, lo);
    }
  }

  lemma TruncDivBounds(a: int, n: int, lo: int, hi: int)
    requires n > 0 && n * lo <= a <= n * hi
    ensures lo <= TruncDiv(a, n) <= hi
  {
    if a >= 0 {
      assert a == n * (a / n) + a % n;
      QuotientBounds(a, n, a / n, lo, hi);
    } else {
      var b := -a;
      assert b == n * (b / n) + b % n;
      assert a == n * -(b / n) - b % n;
      QuotientBounds(a, n, -(b / n), lo, hi);
    }
  }

  /** A non-empty mean lies between any bounds of the values, hence between their minimum and maximum. */
  lemma MeanWithinBounds(cs: seq<int>, lo: int, hi: int)
    requires cs != [] && forall c | c in cs :: lo <= c <= hi
    ensures lo <= Mean(cs) <= hi
  {
    SumBounds(cs, lo, hi);
    TruncDivBounds(Sum(cs), |cs|, lo, hi);
  }

  /** With Tesseract's confidences in [-1, 100], every word's confidence lies in [0, 100]. */
  lemma {:induction false} WordConfsInRange(text: seq<string>, conf: seq<int>)
    requires ConfCovers(text, conf) && forall c | c in conf :: -1 <= c <= 100
    ensures forall w | w in WordsOf(text, conf) :: 0 <= w.conf <= 100
  {
    if text != [] {
      var n := |text| - 1;
      assert ConfCovers(text[..n], conf);
      WordConfsInRange(text[..n], conf);
      if !IsBlank(text[n]) {
        LastWord(text, conf);
        assert conf[n] in conf;
      }
    }
  }

  /** A non-blank last token contributes the last word, with its own confidence. */
  lemma LastWord(text: seq<string>, conf: seq<int>)
    requires ConfCovers(text, conf) && text != [] && !IsBlank(text[|text| - 1])
    ensures var n := |text| - 1;
      n < |conf|
      && WordsOf(text, conf) == WordsOf(text[..n], conf) + [Word(Strip(text[n]), WordConf(conf[n]))]
  {
  }

  /**
    With Tesseract's confidences in [-1, 100], the reported mean and every
    word's confidence lie in [0, 100], and the text has no surrounding white
    space.
   */
  lemma ResultInRange(data: Option<TesseractData>, fullText: Option<string>)
    requires data.Some? ==> forall c | c in data.value.conf :: -1 <= c <= 100
    ensures var r := Recognise(data, fullText);
      0 <= r.confidence <= 100
      && (forall w | w in r.words :: 0 <= w.conf <= 100)
      && (r.text == [] || (!IsSpace(r.text[0]) && !IsSpace(r.text[|r.text| - 1])))
  {
    var r := Recognise(data, fullText);
    if r != Failed {
      var d := data.value;
      var cs := ConfidencesOf(d.text, d.conf);
      if cs != [] {
        MeanWithinBounds(cs, 0, 100);
      }
      WordConfsInRange(d.text, d.conf);
      StripIsTrimmedSlice(fullText.value);
    }
  }
}
