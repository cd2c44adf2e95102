/**
 * The threshold rules of ai_service.py that sit on top of an analysis: the
 * four-level `depression_level` of `update_user_tracking`, the emergency gate
 * and the two-sample mood trend of `enhanced_chat`, and the trend arithmetic of
 * `user_dashboard`.
 */
module Tracking {
  import opened Text
  import Indicators
  import R = Recommender

  datatype DepressionLevel = Normal | Mild | Moderate | Severe

  /** The order normal < mild < moderate < severe. */
  function LevelRank(l: DepressionLevel): nat
  {
    match l
    case Normal => 0
    case Mild => 1
    case Moderate => 2
    case Severe => 3
  }

  /**
   * `depression_level` in `update_user_tracking`: severe below -0.7, moderate
   * below -0.4, mild below -0.1, normal otherwise. The recommender's tier for
   * the same score is never milder than this level, whatever the indicator count.
   */
  function LevelOf(score: real): (level: DepressionLevel)
    ensures level == Severe ==> forall n: nat :: R.Severity(score, n) == R.Severe
    ensures level == Moderate ==> forall n: nat :: R.Severity(score, n) != R.Mild
    ensures level == Normal ==> score >= -0.1
  {
    if score < -0.7 then Severe
    else if score < -0.4 then Moderate
    else if score < -0.1 then Mild
    else Normal
  }

  /** A lower score never gives a milder level. */
  lemma LevelMonotone(score: real, lowerScore: real)
    requires lowerScore <= score
    ensures LevelRank(LevelOf(score)) <= LevelRank(LevelOf(lowerScore))
  {
  }

  /**
   * `emergency_detected`: some indicator contains the text `suicidal_thoughts`
   * (Python's `'suicidal_thoughts' in ind` is a substring test), or the score is
   * below -0.8.
   */
  function EmergencyDetected(indicators: seq<string>, score: real): (detected: bool)
    ensures "suicidal_thoughts" in indicators ==> detected
    ensures score < -0.8 ==> detected
    ensures indicators == [] ==> (detected <==> score < -0.8)
  {
    (exists i :: 0 <= i < |indicators| && Occurs("suicidal_thoughts", indicators[i])) || score < -0.8
  }

  /** Among the eight category names only `suicidal_thoughts` contains `suicidal_thoughts`. */
  lemma OnlySuicidalNameMatches(n: string)
    requires n in Indicators.Names(Indicators.Categories)
    ensures Occurs("suicidal_thoughts", n) <==> n == "suicidal_thoughts"
  {
    Indicators.CategoryNamesDistinct();
    var p := "suicidal_thoughts";
    if n == "concentration_issues" {
      SuicidalNotInConcentration();
    } else {
      OccursByLength(p, n);
    }
  }

  /**
   * "concentration_issues" is longer than "suicidal_thoughts", but none of the
   * four places where it could start holds an `s`.
   */
  lemma SuicidalNotInConcentration()
    ensures !Occurs("suicidal_thoughts", "concentration_issues")
  {
    var p, n := "suicidal_thoughts", "concentration_issues";
    assert n[0] != 's' && n[1] != 's' && n[2] != 's' && n[3] != 's';
    forall i | 0 <= i ensures !OccursAt(p, n, i) {
      if i <= 3 {
        assert n[i] != p[0];
      }
    }
    OccursIff(p, n);
  }

  /**
   * On what the extractor returns, the substring test is the same as asking
   * whether `suicidal_thoughts` was reported.
   */
  lemma EmergencyOnExtracted(text: string, score: real)
    ensures var inds := Indicators.Matching(Indicators.Categories, Lower(text));
      EmergencyDetected(inds, score) <==> "suicidal_thoughts" in inds || score < -0.8
  {
    var inds := Indicators.Matching(Indicators.Categories, Lower(text));
    Indicators.MatchingNamed(Indicators.Categories, Lower(text));
    forall i | 0 <= i < |inds|
      ensures Occurs("suicidal_thoughts", inds[i]) <==> inds[i] == "suicidal_thoughts"
    {
      OnlySuicidalNameMatches(inds[i]);
    }
  }

  /**
   * A message whose lower-cased form contains "tự tử" always raises the
   * emergency flag, whatever its score.
   */
  lemma SuicidalPhraseIsEmergency(text: string, score: real)
    requires Occurs("tự tử", Lower(text))
    ensures EmergencyDetected(Indicators.Matching(Indicators.Categories, Lower(text)), score)
  {
    Indicators.SuicidalPhraseFlagged(text);
    EmergencyOnExtracted(text, score);
  }

  /** A score below -0.8 is an emergency, the severe level and the severe tier. */
  lemma LowScoreIsEmergency(indicators: seq<string>, score: real)
    requires score < -0.8
    ensures EmergencyDetected(indicators, score)
    ensures LevelOf(score) == Severe && R.Severity(score, |indicators|) == R.Severe
  {
  }

  datatype MoodTrend = Improving | Stable

  /** `mood_trend`: improving when the newest sample is above the one before it. */
  function MoodTrendOf(sentiments: seq<real>): (trend: MoodTrend)
    ensures trend == Improving ==> |sentiments| > 1
    ensures (forall i, j :: 0 <= i < j < |sentiments| ==> sentiments[j] <= sentiments[i]) ==> trend == Stable
  {
    if |sentiments| > 1 && sentiments[|sentiments| - 1] > sentiments[|sentiments| - 2] then Improving
    else Stable
  }

  /**
   * The trend right after a sample `x` is logged: improving exactly when
   * there was an earlier sample and `x` beats the latest one.
   */
  lemma TrendAfterSample(sentiments: seq<real>, x: real)
    ensures MoodTrendOf(sentiments + [x]) == Improving <==>
      sentiments != [] && x > sentiments[|sentiments| - 1]
  {
  }

  /** The dashboard's `trend`: "no_data", "stable", "improving" or "concerning". */
  datatype DashboardTrend = NoData | DashStable | DashImproving | Concerning

  /**
   * The statistics `user_dashboard` reports. The user id is echoed back
   * unchanged, and `last_30_days_data` always equals `chat_count`, so neither
   * is a field here.
   */
  datatype Dashboard = Dashboard(chatCount: nat, avgSentiment: real, trend: DashboardTrend)

  /** `sum(...)` over scores. */
  function Sum(s: seq<real>): real
  {
    if s == [] then 0.0 else s[0] + Sum(s[1..])
  }

  /** `sum(...) / len(...)`. */
  function Mean(s: seq<real>): real
    requires s != []
  {
    Sum(s) / |s| as real
  }

  /**
   * The aggregate of `user_dashboard` over the last 30 days' scores, newest
   * first: average, count, and the trend that compares the mean of the first
   * five rows with the mean of the last five (only when there are more than five).
   */
  function Summarize(scores: seq<real>): (d: Dashboard)
    ensures d.chatCount == |scores|
    ensures d.trend == NoData <==> scores == []
    ensures scores == [] ==> d.avgSentiment == 0.0
  {
    if scores == [] then Dashboard(0, 0.0, NoData)
    else
      var recent := if |scores| < 5 then scores else scores[..5];
      var older := if |scores| > 5 then scores[|scores| - 5..] else [];
      var trend :=
        if recent != [] && older != [] then
          if Mean(recent) > Mean(older) + 0.1 then DashImproving
          else if Mean(recent) < Mean(older) - 0.1 then Concerning
          else DashStable
        else DashStable;
      Dashboard(|scores|, Mean(scores), trend)
  }

  /** The sum of a concatenation is the sum of the parts. */
  lemma {:induction false} SumAppend(a: seq<real>, b: seq<real>)
    ensures Sum(a + b) == Sum(a) + Sum(b)
    decreases |a|
  {
    if a != [] {
      assert (a + b)[0] == a[0];
      assert (a + b)[1..] == a[1..] + b;
      assert Sum(a + b) == (a + b)[0] + Sum((a + b)[1..]);
      SumAppend(a[1..], b);
    } else {
      assert a + b == b;
    }
  }

  /** Scores within [lo, hi] sum to between |s| * lo and |s| * hi. */
  lemma {:induction false} SumBounds(s: seq<real>, lo: real, hi: real)
    requires forall i :: 0 <= i < |s| ==> lo <= s[i] <= hi
    ensures |s| as real * lo <= Sum(s) <= |s| as real * hi
    decreases |s|
  {
    if s != [] {
      SumBounds(s[1..], lo, hi);
    }
  }

  /** A total between -n and n, divided by n > 0, lies in [-1, 1]. */
  lemma RatioInRange(total: real, n: real)
    requires n > 0.0 && -n <= total <= n
    ensures -1.0 <= total / n <= 1.0
  {
    var q := total / n;
    assert q * n == total;
    assert (q + 1.0) * n == total + n;
    assert (1.0 - q) * n == n - total;
  }

  /** Since every stored score lies in [-1, 1], so does the average. */
  lemma AverageInRange(scores: seq<real>)
    requires forall i :: 0 <= i < |scores| ==> -1.0 <= scores[i] <= 1.0
    ensures -1.0 <= Summarize(scores).avgSentiment <= 1.0
  {
    if scores != [] {
      SumBounds(scores, -1.0, 1.0);
      RatioInRange(Sum(scores), |scores| as real);
    }
  }

  /** With one to five rows there is no "old" window and the trend stays stable. */
  lemma FewRowsStable(scores: seq<real>)
    requires 1 <= |scores| <= 5
    ensures Summarize(scores).trend == DashStable
  {
  }

  /** Equal scores sum to their count times the score. */
  lemma {:induction false} SumConstant(s: seq<real>, c: real)
    requires forall i :: 0 <= i < |s| ==> s[i] == c
    ensures Sum(s) == |s| as real * c
    decreases |s|
  {
    if s != [] {
      SumConstant(s[1..], c);
    }
  }

  /** A user whose every score is the same is never reported as improving or concerning. */
  lemma ConstantScoresStable(scores: seq<real>, c: real)
    requires scores != []
    requires forall i :: 0 <= i < |scores| ==> scores[i] == c
    ensures Summarize(scores).trend == DashStable
    ensures Summarize(scores).avgSentiment == c
  {
    SumConstant(scores, c);
    if |scores| > 5 {
      SumConstant(scores[..5], c);
      SumConstant(scores[|scores| - 5..], c);
    }
  }

  /**
   * With six to nine rows the "recent 5" and "old 5" windows overlap, and the
   * shared rows cancel: the trend compares only the rows that are in one
   * window and not the other. With six rows that is the newest row against
   * the oldest.
   */
  lemma OverlapCancels(scores: seq<real>)
    requires 5 < |scores| < 10
    ensures var n := |scores|;
      var gap := Sum(scores[..n - 5]) - Sum(scores[5..]);
      && (Summarize(scores).trend == DashImproving <==> gap > 0.5)
      && (Summarize(scores).trend == Concerning <==> gap < -0.5)
  {
    var n := |scores|;
    var shared := scores[n - 5..5];
    assert scores[..5] == scores[..n - 5] + shared;
    assert scores[n - 5..] == shared + scores[5..];
    SumAppend(scores[..n - 5], shared);
    SumAppend(shared, scores[5..]);
  }
}
