/**
 * Rolling analysis of recent results: the `EmotionAnalyzer` class of
 * emotion_detection/detector.py.
 *
 * The analyzer keeps the last `historySize` results and derives from them
 * the dominant label, whether a label persists, a split-half trend and a
 * table of response suggestions.  Means and ratios are exact reals.
 */
module EmotionAnalysis {
  import opened Wrappers
  import opened Tally
  import opened EmotionDetection

  datatype Trend = Improving | Stable | Declining

  /** The dictionary `get_response_suggestions` returns. */
  datatype Suggestions = Suggestions(dominantEmotion: Option<string>, trend: Trend, tone: string,
                                     approach: seq<string>, avoid: seq<string>)

  /** The labels of a run of results, in order. */
  function Labels(history: seq<EmotionResult>): (labels: seq<string>)
    ensures |labels| == |history|
    ensures forall i :: 0 <= i < |history| ==> labels[i] == history[i].emotion
  {
    seq(|history|, i requires 0 <= i < |history| => history[i].emotion)
  }

  /**
   * `is_emotion_persistent`: false on an empty history, otherwise whether the
   * share of results labelled `emotion` reaches `threshold`.
   */
  function IsEmotionPersistent(history: seq<EmotionResult>, emotion: string, threshold: real): (b: bool)
    ensures b <==> |history| > 0 && Count(Labels(history), emotion) as real >= threshold * |history| as real
  {
    |history| > 0 && ShareAtLeast(Count(Labels(history), emotion), |history|, threshold)
  }

  /** `matching / size >= threshold`, on exact reals. */
  predicate ShareAtLeast(matching: nat, size: nat, threshold: real)
    requires size > 0
    ensures ShareAtLeast(matching, size, threshold) <==> matching as real >= threshold * size as real
  {
    DivCompare(matching as real, size as real, threshold);
    matching as real / size as real >= threshold
  }

  /** Comparing a quotient with `k` is comparing the dividend with `k` times the divisor. */
  lemma DivCompare(x: real, d: real, k: real)
    requires d > 0.0
    ensures x / d >= k <==> x >= k * d
  {
    DivTimes(x, d, x / d);
    MulCompare(x / d, d, k);
  }

  /** Multiplying by a positive number keeps comparisons. */
  lemma MulCompare(q: real, d: real, k: real)
    requires d > 0.0
    ensures q < k <==> q * d < k * d
    ensures q > k <==> q * d > k * d
  {
    if q < k { PositiveProduct(k - q, d); }
    if q > k { PositiveProduct(q - k, d); }
    if q == k { assert q * d == k * d; }
  }

  lemma PositiveProduct(a: real, b: real)
    requires a > 0.0 && b > 0.0
    ensures a * b > 0.0
  {
  }

  /** With ten results and the default threshold, persistence means at least six matching results. */
  lemma PersistentOutOfTen(history: seq<EmotionResult>, emotion: string)
    requires |history| == 10
    ensures IsEmotionPersistent(history, emotion, 0.6) <==> Count(Labels(history), emotion) >= 6
  {
  }

  /** The positivity weight of a label; a label outside the table weighs 0. */
  function Positivity(emotion: string): (p: real)
    ensures -1.0 <= p <= 1.0
    ensures emotion !in EmotionKeys ==> p == 0.0
    ensures p * 10.0 == PositivityTenths(emotion) as real
  {
    if emotion == "happy" then 1.0
    else if emotion == "surprise" then 0.5
    else if emotion == "neutral" then 0.0
    else if emotion == "fear" then -0.5
    else if emotion == "sad" then -0.7
    else if emotion == "disgust" then -0.8
    else if emotion == "angry" then -1.0
    else 0.0
  }

  function SumPositivity(history: seq<EmotionResult>): real {
    if |history| == 0 then 0.0
    else SumPositivity(history[..|history| - 1]) + Positivity(history[|history| - 1].emotion)
  }

  /** `np.mean` of the positivity weights. */
  function MeanPositivity(history: seq<EmotionResult>): real
    requires |history| > 0
  {
    SumPositivity(history) / |history| as real
  }

  /** Improving when `up`, otherwise declining when `down`, otherwise stable. */
  function TrendOf(up: bool, down: bool): Trend {
    if up then Improving else if down then Declining else Stable
  }

  /** The trend from the mean positivity `m1` of the earlier half and `m2` of the later half. */
  function MeanTrend(m1: real, m2: real): Trend {
    TrendOf(m2 - m1 > 0.2, m2 - m1 < -0.2)
  }

  /**
   * `get_emotional_trend`: stable below three results; otherwise compare the
   * mean positivity of the later half (from index `len // 2` on) with that of
   * the earlier half.
   */
  function EmotionalTrend(history: seq<EmotionResult>): (t: Trend)
    ensures |history| < 3 ==> t == Stable
  {
    if |history| < 3 then Stable
    else
      var mid := |history| / 2;
      MeanTrend(MeanPositivity(history[..mid]), MeanPositivity(history[mid..]))
  }

  /** The positivity weights scaled by ten, as integers. */
  function PositivityTenths(emotion: string): int {
    if emotion == "happy" then 10
    else if emotion == "surprise" then 5
    else if emotion == "neutral" then 0
    else if emotion == "fear" then -5
    else if emotion == "sad" then -7
    else if emotion == "disgust" then -8
    else if emotion == "angry" then -10
    else 0
  }

  function SumTenths(history: seq<EmotionResult>): int {
    if |history| == 0 then 0
    else SumTenths(history[..|history| - 1]) + PositivityTenths(history[|history| - 1].emotion)
  }

  /**
   * The trend on integers only: with sums `s1`, `s2` (in tenths) over halves
   * of sizes `n1`, `n2`, the mean difference exceeds 0.2 exactly when
   * `s2 * n1 - s1 * n2 > 2 * n1 * n2`.
   */
  function CrossTrend(s1: int, n1: int, s2: int, n2: int): Trend {
    TrendOf(s2 * n1 - s1 * n2 > 2 * n1 * n2, s2 * n1 - s1 * n2 < -2 * n1 * n2)
  }

  function ScaledTrend(history: seq<EmotionResult>): Trend {
    if |history| < 3 then Stable
    else
      var mid := |history| / 2;
      CrossTrend(SumTenths(history[..mid]), mid, SumTenths(history[mid..]), |history| - mid)
  }

  lemma {:induction false} SumPositivityIsTenths(history: seq<EmotionResult>)
    ensures SumPositivity(history) == SumTenths(history) as real / 10.0
  {
    if |history| > 0 {
      SumPositivityIsTenths(history[..|history| - 1]);
    }
  }

  /** The exact-real trend and the integer trend agree on every history. */
  lemma TrendMatchesScaled(history: seq<EmotionResult>)
    ensures EmotionalTrend(history) == ScaledTrend(history)
  {
    if |history| >= 3 {
      var mid := |history| / 2;
      var first, second := history[..mid], history[mid..];
      HalvesAgree(first, second);
      assert |first| == mid && |second| == |history| - mid;
    }
  }

  lemma HalvesAgree(first: seq<EmotionResult>, second: seq<EmotionResult>)
    requires |first| > 0 && |second| > 0
    ensures MeanTrend(MeanPositivity(first), MeanPositivity(second))
         == CrossTrend(SumTenths(first), |first|, SumTenths(second), |second|)
  {
    SumPositivityIsTenths(first);
    SumPositivityIsTenths(second);
    MeansInTenths(SumPositivity(first), SumPositivity(second), |first|, |second|,
                  SumTenths(first), SumTenths(second));
  }

  /** The means of two halves whose sums are `s1 / 10` and `s2 / 10`. */
  lemma MeansInTenths(t1: real, t2: real, n1: int, n2: int, s1: int, s2: int)
    requires n1 > 0 && n2 > 0
    requires t1 == s1 as real / 10.0 && t2 == s2 as real / 10.0
    ensures MeanTrend(t1 / n1 as real, t2 / n2 as real) == CrossTrend(s1, n1, s2, n2)
  {
    DivTimes(t1, n1 as real, t1 / n1 as real);
    DivTimes(t2, n2 as real, t2 / n2 as real);
    TrendArithmetic(t1 / n1 as real, t2 / n2 as real, n1, n2, s1, s2);
  }

  /** The comparison of two means against 0.2, cleared of denominators. */
  lemma TrendArithmetic(m1: real, m2: real, n1: int, n2: int, s1: int, s2: int)
    requires n1 > 0 && n2 > 0
    requires m1 * n1 as real == s1 as real / 10.0 && m2 * n2 as real == s2 as real / 10.0
    ensures MeanTrend(m1, m2) == CrossTrend(s1, n1, s2, n2)
  {
    var cross, p := s2 * n1 - s1 * n2, n1 * n2;
    assert (m2 - m1) * (10.0 * p as real) == cross as real by {
      ScaledDifference(m1, m2, n1 as real, n2 as real, s1 as real, s2 as real);
      CastProduct(s2, n1);
      CastProduct(s1, n2);
      CastProduct(n1, n2);
    }
    assert 2 * n1 * n2 == 2 * p && -2 * n1 * n2 == -2 * p;
    CompareCleared(m2 - m1, cross, p);
  }

  /** `d > 0.2` and `d < -0.2`, once `d` is multiplied by `10 * p`. */
  lemma CompareCleared(d: real, cross: int, p: int)
    requires p > 0 && d * (10.0 * p as real) == cross as real
    ensures d > 0.2 <==> cross > 2 * p
    ensures d < -0.2 <==> cross < -2 * p
  {
    var scale := 10.0 * p as real;
    MulCompare(d, scale, 0.2);
    MulCompare(d, scale, -0.2);
    assert 0.2 * scale == (2 * p) as real;
    assert -0.2 * scale == (-2 * p) as real;
  }

  lemma DivTimes(x: real, d: real, q: real)
    requires d != 0.0 && q == x / d
    ensures q * d == x
  {
  }

  lemma CastProduct(a: int, b: int)
    ensures (a * b) as real == a as real * b as real
  {
  }

  /** Two means, cleared of their denominators. */
  lemma ScaledDifference(m1: real, m2: real, n1: real, n2: real, s1: real, s2: real)
    requires m1 * n1 == s1 / 10.0 && m2 * n2 == s2 / 10.0
    ensures (m2 - m1) * (10.0 * (n1 * n2)) == s2 * n1 - s1 * n2
  {
    calc {
      (m2 - m1) * (10.0 * (n1 * n2));
      10.0 * (m2 * n2) * n1 - 10.0 * (m1 * n1) * n2;
      s2 * n1 - s1 * n2;
    }
  }

  /** A history that repeats one label has no trend. */
  lemma ConstantHistoryIsStable(history: seq<EmotionResult>, emotion: string)
    requires forall i :: 0 <= i < |history| ==> history[i].emotion == emotion
    ensures EmotionalTrend(history) == Stable
  {
    if |history| >= 3 {
      var mid := |history| / 2;
      MeanOfConstant(history[..mid], emotion);
      MeanOfConstant(history[mid..], emotion);
    }
  }

  lemma MeanOfConstant(history: seq<EmotionResult>, emotion: string)
    requires |history| > 0
    requires forall i :: 0 <= i < |history| ==> history[i].emotion == emotion
    ensures MeanPositivity(history) == Positivity(emotion)
  {
    SumOfConstant(history, emotion);
    CancelSize(|history| as real, Positivity(emotion));
  }

  lemma CancelSize(n: real, p: real)
    requires n > 0.0
    ensures (n * p) / n == p
  {
  }

  lemma {:induction false} SumOfConstant(history: seq<EmotionResult>, emotion: string)
    requires forall i :: 0 <= i < |history| ==> history[i].emotion == emotion
    ensures SumPositivity(history) == |history| as real * Positivity(emotion)
  {
    if |history| > 0 {
      SumOfConstant(history[..|history| - 1], emotion);
    }
  }

  /** Four sad results followed by four happy ones: the trend is improving. */
  lemma SadThenHappyImproves(history: seq<EmotionResult>)
    requires |history| == 8
    requires forall i :: 0 <= i < 4 ==> history[i].emotion == "sad"
    requires forall i :: 4 <= i < 8 ==> history[i].emotion == "happy"
    ensures EmotionalTrend(history) == Improving
  {
    SumOfConstant(history[..4], "sad");
    SumOfConstant(history[4..], "happy");
  }

  const EscalationItem := "Suggérer délicatement de parler à quelqu'un de confiance"
  const DecliningItem := "Porter une attention particulière au bien-être"
  const ImprovingItem := "Encourager la progression positive"

  /** The labels with a table of their own. */
  predicate HasOwnTable(dominant: Option<string>) {
    dominant == Some("sad") || dominant == Some("angry") || dominant == Some("happy") || dominant == Some("fear")
  }

  /** The tone for a dominant label. */
  function Tone(dominant: Option<string>): (tone: string)
    ensures !HasOwnTable(dominant) ==> tone == "amical et engageant"
  {
    if dominant == Some("sad") then "empathique et réconfortant"
    else if dominant == Some("angry") then "calme et apaisant"
    else if dominant == Some("happy") then "joyeux et énergique"
    else if dominant == Some("fear") then "rassurant et calme"
    else "amical et engageant"
  }

  /** The approaches of the table for a dominant label, before any addition. */
  function TableApproach(dominant: Option<string>): (approach: seq<string>)
    ensures HasOwnTable(dominant) ==> |approach| == 3
    ensures !HasOwnTable(dominant) ==> |approach| == 2
    ensures EscalationItem !in approach && DecliningItem !in approach && ImprovingItem !in approach
  {
    if dominant == Some("sad") then
      ["Poser des questions ouvertes sur les sentiments", "Offrir du soutien sans juger",
       "Suggérer des activités positives"]
    else if dominant == Some("angry") then
      ["Reconnaître la frustration", "Proposer des exercices de respiration", "Rediriger vers des solutions"]
    else if dominant == Some("happy") then
      ["Renforcer la positivité", "Partager l'enthousiasme", "Encourager à maintenir cette énergie"]
    else if dominant == Some("fear") then
      ["Rassurer sur la situation", "Proposer des techniques de relaxation", "Être une présence stable"]
    else
      ["Engager la conversation naturellement", "Poser des questions pour mieux comprendre"]
  }

  /** What to avoid for a dominant label; the generic table avoids nothing. */
  function TableAvoid(dominant: Option<string>): (avoid: seq<string>)
    ensures !HasOwnTable(dominant) <==> avoid == []
  {
    if dominant == Some("sad") then ["Minimiser les sentiments", "Être trop enthousiaste"]
    else if dominant == Some("angry") then ["Être confrontationnel", "Ignorer la colère"]
    else if dominant == Some("happy") then ["Être rabat-joie"]
    else if dominant == Some("fear") then ["Amplifier les inquiétudes"]
    else []
  }

  /**
   * The counting loop of `get_dominant_emotion`: a dictionary from label to
   * number of occurrences, whose keys come in first-seen order.
   */
  method CountLabels(labels: seq<string>) returns (keys: seq<string>, counts: map<string, nat>)
    ensures Tallied(labels, keys, counts)
  {
    keys, counts := [], map[];
    var i := 0;
    while i < |labels|
      invariant 0 <= i <= |labels|
      invariant Tallied(labels[..i], keys, counts)
    {
      var emotion := labels[i];
      TallyExtend(labels, i, keys, counts);
      if emotion in counts {
        counts := counts[emotion := counts[emotion] + 1];
      } else {
        keys := keys + [emotion];
        counts := counts[emotion := 1];
      }
      i := i + 1;
    }
    assert labels[..i] == labels;
  }

  /** `keys` lists the labels of `s` in first-seen order and `counts` maps each to its number of occurrences. */
  ghost predicate Tallied(s: seq<string>, keys: seq<string>, counts: map<string, nat>) {
    && keys == FirstSeen(s)
    && (forall k :: k in counts <==> k in s)
    && (forall k :: k in counts ==> counts[k] == Count(s, k))
  }

  /** One more label: counted once more if already a key, otherwise added as a key with count 1. */
  lemma TallyExtend(s: seq<string>, i: nat, keys: seq<string>, counts: map<string, nat>)
    requires i < |s| && Tallied(s[..i], keys, counts)
    ensures var e := s[i];
      Tallied(s[..i + 1], if e in counts then keys else keys + [e],
              counts[e := if e in counts then counts[e] + 1 else 1])
  {
    TallyStep(s, i);
    assert s[..i + 1] == s[..i] + [s[i]];
  }

  /** `max(counts, key=counts.get)`: the first key, in dictionary order, of largest count. */
  method MostCountedKey(keys: seq<string>, counts: map<string, nat>) returns (best: nat)
    requires |keys| > 0
    requires forall t :: 0 <= t < |keys| ==> keys[t] in counts
    ensures best < |keys|
    ensures forall t :: 0 <= t < |keys| ==> counts[keys[t]] <= counts[keys[best]]
    ensures forall t :: 0 <= t < best ==> counts[keys[t]] < counts[keys[best]]
  {
    best := 0;
    var j := 1;
    while j < |keys|
      invariant 0 <= best < j <= |keys|
      invariant forall t :: 0 <= t < j ==> counts[keys[t]] <= counts[keys[best]]
      invariant forall t :: 0 <= t < best ==> counts[keys[t]] < counts[keys[best]]
    {
      if counts[keys[j]] > counts[keys[best]] {
        best := j;
      }
      j := j + 1;
    }
  }

  class EmotionAnalyzer {
    /** The latest results, oldest first. */
    var history: seq<EmotionResult>
    const historySize: int
    /** Every result added since construction or the last clear. */
    ghost var added: seq<EmotionResult>

    ghost predicate Valid()
      reads this
    {
      history == LastN(added, historySize)
    }

    constructor (historySize: int := 10)
      ensures Valid() && history == [] && added == []
      ensures this.historySize == historySize
    {
      history := [];
      this.historySize := historySize;
      added := [];
    }

    /**
     * `add_emotion`: a missing result is ignored; otherwise it is appended and
     * the oldest result dropped once there are more than `historySize`.
     */
    method AddEmotion(result: Option<EmotionResult>)
      requires Valid()
      modifies this
      ensures Valid()
      ensures result == None ==> history == old(history) && added == old(added)
      ensures result.Some? ==> added == old(added) + [result.value]
      ensures result.Some? ==> history == BoundedAppend(old(history), result.value, historySize)
    {
      if result.Some? {
        BoundedAppendKeepsWindow(added, result.value, historySize);
        history := BoundedAppend(history, result.value, historySize);
        added := added + [result.value];
      }
    }

    /**
     * `get_dominant_emotion`: none on an empty history; otherwise count the
     * labels into a dictionary filled in first-seen order and take the first
     * key of maximal count.
     */
    method GetDominantEmotion() returns (dominant: Option<string>)
      ensures history == [] <==> dominant == None
      ensures dominant.Some? ==> IsMode(Labels(history), dominant.value)
      ensures dominant.Some? ==> dominant.value == Mode(Labels(history))
    {
      if |history| == 0 {
        return None;
      }
      var labels := Labels(history);
      var keys, counts := CountLabels(labels);
      assert forall t :: 0 <= t < |keys| ==> keys[t] in counts;
      var best := MostCountedKey(keys, counts);
      ghost var tallies := CountsOf(keys, labels);
      assert forall t :: 0 <= t < |keys| ==> tallies[t] == counts[keys[t]] as real;
      ModeOfFirstSeen(labels, best);
      ModeUnique(labels, keys[best], Mode(labels));
      dominant := Some(keys[best]);
    }

    /**
     * `get_response_suggestions`: the table for the dominant label, one more
     * approach when sadness dominates and persists, and one more for a
     * declining or improving trend.
     */
    method GetResponseSuggestions() returns (s: Suggestions)
      ensures s.dominantEmotion == if history == [] then None else Some(Mode(Labels(history)))
      ensures s.trend == EmotionalTrend(history)
      ensures s.tone == Tone(s.dominantEmotion) && s.avoid == TableAvoid(s.dominantEmotion)
      ensures |s.approach| == |TableApproach(s.dominantEmotion)|
                + (if s.dominantEmotion == Some("sad") && IsEmotionPersistent(history, "sad", 0.6) then 1 else 0)
                + (if s.trend == Stable then 0 else 1)
      ensures s.approach[..|TableApproach(s.dominantEmotion)|] == TableApproach(s.dominantEmotion)
      ensures (EscalationItem in s.approach)
                == (s.dominantEmotion == Some("sad") && IsEmotionPersistent(history, "sad", 0.6))
      ensures s.trend == Declining ==> s.approach[|s.approach| - 1] == DecliningItem
      ensures s.trend == Improving ==> s.approach[|s.approach| - 1] == ImprovingItem
    {
      var dominant := GetDominantEmotion();
      var trend := EmotionalTrend(history);
      var approach := TableApproach(dominant);
      if dominant == Some("sad") && IsEmotionPersistent(history, "sad", 0.6) {
        approach := approach + [EscalationItem];
      }
      if trend == Declining {
        approach := approach + [DecliningItem];
      } else if trend == Improving {
        approach := approach + [ImprovingItem];
      }
      s := Suggestions(dominant, trend, Tone(dominant), approach, TableAvoid(dominant));
    }

    /** `clear_history`: afterwards every query gives its empty-history default. */
    method ClearHistory()
      modifies this
      ensures Valid() && history == [] && added == []
      ensures EmotionalTrend(history) == Stable
      ensures forall e, t :: !IsEmotionPersistent(history, e, t)
    {
      history := [];
      added := [];
    }
  }
}
