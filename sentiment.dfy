/**
 * The keyword sentiment scorer of ai_service.py (`VietnameseNLPProcessor.analyze_sentiment`):
 * it counts how many of the listed negative and positive keywords occur in the
 * lower-cased text, turns the winning count into a score per word, clamps the
 * score to [-1, 1] and labels it at +/-0.3.
 */
module Sentiment {
  import opened Text

  /** The negative (depression) keywords, in the order the source lists them. */
  const NegativeKeywords: seq<string> := [
    "buồn", "tuyệt vọng", "chán nản", "stress", "lo lắng", "cô đơn",
    "mệt mỏi", "không có ý nghĩa", "thất vọng", "trầm cảm", "tự tử",
    "khóc", "mất ngủ", "không ăn được", "tự ti", "vô dụng",
    "không ai hiểu", "cuộc sống khó khăn", "áp lực", "đau khổ"
  ]

  /** The positive-emotion keywords. */
  const PositiveKeywords: seq<string> := [
    "vui vẻ", "hạnh phúc", "tích cực", "hy vọng", "yêu thương",
    "thành công", "tự tin", "mạnh mẽ", "biết ơn", "sáng tạo"
  ]

  datatype Label = Negative | Positive | Neutral

  /** The dictionary `analyze_sentiment` returns. */
  datatype SentimentResult = SentimentResult(score: real, negativeHits: nat, positiveHits: nat, analysis: Label)

  /** What the `except` branch returns: a neutral zero result. */
  const Fallback := SentimentResult(0.0, 0, 0, Neutral)

  /** Every keyword starts with a character that is not whitespace. */
  predicate Spelled(kws: seq<string>)
  {
    forall i :: 0 <= i < |kws| ==> |kws[i]| > 0 && !IsSpace(kws[i][0])
  }

  /**
   * `sum(1 for keyword in kws if keyword in t)`: the number of listed keywords
   * that occur in `t`. A keyword counts once however often it occurs.
   */
  function CountHits(kws: seq<string>, t: string): (n: nat)
    ensures n <= |kws|
    ensures n > 0 <==> exists i :: 0 <= i < |kws| && Occurs(kws[i], t)
  {
    if kws == [] then 0
    else
      var rest := CountHits(kws[1..], t);
      assert forall i :: 1 <= i < |kws| ==> kws[i] == kws[1..][i - 1];
      (if Occurs(kws[0], t) then 1 else 0) + rest
  }

  /** `max(-1, min(1, x))`. */
  function Clamp(x: real): (r: real)
    ensures -1.0 <= r <= 1.0
    ensures -1.0 <= x <= 1.0 ==> r == x
    ensures (r < 0.0 <==> x < 0.0) && (r > 0.0 <==> x > 0.0)
  {
    if x < -1.0 then -1.0 else if x > 1.0 then 1.0 else x
  }

  /**
   * The unclamped score: -0.7 or 0.7 times the winning count per word, and 0 on a tie.
   * Its sign is the sign of `pos - neg`.
   */
  function RawScore(neg: nat, pos: nat, words: nat): (raw: real)
    requires neg != pos ==> words > 0
    ensures (raw < 0.0 <==> neg > pos) && (raw > 0.0 <==> pos > neg)
  {
    if neg > pos then -0.7 * (neg as real / words as real)
    else if pos > neg then 0.7 * (pos as real / words as real)
    else 0.0
  }

  /** The `analysis` field: negative below -0.3, positive above 0.3, neutral in between. */
  function LabelOf(score: real): Label
  {
    if score < -0.3 then Negative else if score > 0.3 then Positive else Neutral
  }

  /**
   * `analyze_sentiment(text)`. The winning count is divided by the number of
   * words; when that division would raise (no words), the source's `except`
   * branch yields the neutral zero result.
   */
  function AnalyzeSentiment(text: string): (r: SentimentResult)
    ensures -1.0 <= r.score <= 1.0
    ensures r.analysis == Negative <==> r.score < -0.3
    ensures r.analysis == Positive <==> r.score > 0.3
    ensures r.analysis == Neutral <==> -0.3 <= r.score <= 0.3
  {
    var t := Lower(text);
    var neg := CountHits(NegativeKeywords, t);
    var pos := CountHits(PositiveKeywords, t);
    var words := WordCount(text);
    if neg != pos && words == 0 then Fallback
    else
      var score := Clamp(RawScore(neg, pos, words));
      SentimentResult(score, neg, pos, LabelOf(score))
  }

  /** Both keyword lists are spelled with a leading letter. */
  lemma KeywordsSpelled()
    ensures Spelled(NegativeKeywords) && Spelled(PositiveKeywords)
  {
  }

  /** A keyword hit in the lower-cased text means the text has a word to divide by. */
  lemma HitsNeedWords(kws: seq<string>, text: string)
    requires Spelled(kws)
    requires CountHits(kws, Lower(text)) > 0
    ensures WordCount(text) > 0
  {
    var i :| 0 <= i < |kws| && Occurs(kws[i], Lower(text));
    HitNeedsWord(kws[i], text, 0);
  }

  /**
   * The `except` branch is never taken: the reported counts are always the
   * keyword counts of the lower-cased text.
   */
  lemma CountsReported(text: string)
    ensures AnalyzeSentiment(text).negativeHits == CountHits(NegativeKeywords, Lower(text))
    ensures AnalyzeSentiment(text).positiveHits == CountHits(PositiveKeywords, Lower(text))
  {
    KeywordsSpelled();
    var neg := CountHits(NegativeKeywords, Lower(text));
    var pos := CountHits(PositiveKeywords, Lower(text));
    if neg > pos {
      HitsNeedWords(NegativeKeywords, text);
    } else if pos > neg {
      HitsNeedWords(PositiveKeywords, text);
    }
  }

  /**
   * The sign of the score is decided by which keyword list has more hits:
   * negative exactly when more negative keywords occur, positive exactly when
   * more positive ones do, and zero exactly on a tie.
   */
  lemma ScoreSign(text: string)
    ensures var r := AnalyzeSentiment(text);
      var neg := CountHits(NegativeKeywords, Lower(text));
      var pos := CountHits(PositiveKeywords, Lower(text));
      && (r.score < 0.0 <==> neg > pos)
      && (r.score > 0.0 <==> pos > neg)
      && (r.score == 0.0 <==> neg == pos)
  {
    KeywordsSpelled();
    var neg := CountHits(NegativeKeywords, Lower(text));
    var pos := CountHits(PositiveKeywords, Lower(text));
    if neg > pos {
      HitsNeedWords(NegativeKeywords, text);
    } else if pos > neg {
      HitsNeedWords(PositiveKeywords, text);
    }
  }

  /**
   * When two negative keywords share a single word and no positive keyword
   * occurs, the unclamped score is below -1 and the clamp sets it to -1.
   */
  lemma ClampBinds(text: string)
    requires WordCount(text) == 1
    requires CountHits(NegativeKeywords, Lower(text)) >= 2
    requires CountHits(PositiveKeywords, Lower(text)) == 0
    ensures RawScore(CountHits(NegativeKeywords, Lower(text)), 0, 1) < -1.0
    ensures AnalyzeSentiment(text).score == -1.0
  {
  }

  /** An upper-case message folds onto its keyword: Ă, Ô, Đ, Ư and Ợ all lower-case. */
  lemma UpperCaseFolds()
    ensures Lower("KHÔNG ĂN ĐƯỢC") == "không ăn được"
  {
  }

  /** So the upper-case message still counts the keyword "không ăn được" as a negative hit. */
  lemma UpperCaseHits()
    ensures CountHits(NegativeKeywords, Lower("KHÔNG ĂN ĐƯỢC")) > 0
  {
    UpperCaseFolds();
    assert NegativeKeywords[13] == "không ăn được";
    assert Occurs(NegativeKeywords[13], "không ăn được");
  }

  /** "buồnkhóc" is already lower-case. */
  lemma CrowdedLower()
    ensures Lower("buồnkhóc") == "buồnkhóc"
  {
  }

  /** "buồnkhóc" is one word. */
  lemma CrowdedWords()
    ensures WordCount("buồnkhóc") == 1
  {
  }

  /** "buồn" and "khóc" both occur in "buồnkhóc". */
  lemma CrowdedNegative()
    ensures CountHits(NegativeKeywords, "buồnkhóc") >= 2
  {
    assert OccursAt("buồn", "buồnkhóc", 0);
    OccursIff("buồn", "buồnkhóc");
    assert OccursAt("khóc", "buồnkhóc", 4);
    OccursIff("khóc", "buồnkhóc");
  }

  /** The first five positive keywords do not occur in "buồnkhóc": their first two letters are never adjacent in it. */
  lemma CrowdedPositiveFirst()
    ensures !Occurs("vui vẻ", "buồnkhóc") && !Occurs("hạnh phúc", "buồnkhóc") && !Occurs("tích cực", "buồnkhóc")
    ensures !Occurs("hy vọng", "buồnkhóc") && !Occurs("yêu thương", "buồnkhóc")
  {
    PairFreeNoOccurs("vui vẻ", "buồnkhóc");
    PairFreeNoOccurs("hạnh phúc", "buồnkhóc");
    PairFreeNoOccurs("tích cực", "buồnkhóc");
    PairFreeNoOccurs("hy vọng", "buồnkhóc");
    PairFreeNoOccurs("yêu thương", "buồnkhóc");
  }

  /** The last five positive keywords do not occur in "buồnkhóc" either. */
  lemma CrowdedPositiveSecond()
    ensures !Occurs("thành công", "buồnkhóc") && !Occurs("tự tin", "buồnkhóc") && !Occurs("mạnh mẽ", "buồnkhóc")
    ensures !Occurs("biết ơn", "buồnkhóc") && !Occurs("sáng tạo", "buồnkhóc")
  {
    PairFreeNoOccurs("thành công", "buồnkhóc");
    PairFreeNoOccurs("tự tin", "buồnkhóc");
    PairFreeNoOccurs("mạnh mẽ", "buồnkhóc");
    PairFreeNoOccurs("biết ơn", "buồnkhóc");
    PairFreeNoOccurs("sáng tạo", "buồnkhóc");
  }

  /** No positive keyword occurs in "buồnkhóc". */
  lemma CrowdedPositive()
    ensures CountHits(PositiveKeywords, "buồnkhóc") == 0
  {
    CrowdedPositiveFirst();
    CrowdedPositiveSecond();
    assert forall i :: 0 <= i < |PositiveKeywords| ==> !Occurs(PositiveKeywords[i], "buồnkhóc");
  }

  /**
   * The clamp is not dead code: "buồnkhóc" ("sad" run into "cry") is one word
   * holding two negative keywords and reaches it.
   */
  lemma ClampReached()
    ensures AnalyzeSentiment("buồnkhóc").score == -1.0
    ensures RawScore(CountHits(NegativeKeywords, Lower("buồnkhóc")), 0, 1) < -1.0
  {
    CrowdedLower();
    CrowdedWords();
    CrowdedNegative();
    CrowdedPositive();
    ClampBinds("buồnkhóc");
  }
}
