/**
 * Per-frame emotion scoring and temporal stabilisation: the `EmotionDetector`
 * half of emotion_detection/detector.py.
 *
 * The Haar-cascade detectors are not modelled: their outputs (the face boxes
 * found in a frame, and the smile and eye boxes found inside the chosen face)
 * are inputs.  The `random.uniform` draws are the fields of a `Jitter` value
 * constrained to the ranges the calls use.  Scores are exact reals: the
 * division by the total is modelled, the rounding to two decimals is not.
 */
module EmotionDetection {
  import opened Wrappers
  import opened Tally

  /** The seven labels, in the key order of the score dictionary. */
  const EmotionKeys: seq<string> := ["happy", "sad", "angry", "neutral", "surprise", "fear", "disgust"]

  /** French display name with an emoji; a label outside the table is shown as itself. */
  function Translation(name: string): (t: string)
    ensures name !in EmotionKeys ==> t == name
  {
    if name == "happy" then "😊 Heureux"
    else if name == "sad" then "😢 Triste"
    else if name == "angry" then "😠 En colère"
    else if name == "neutral" then "😐 Neutre"
    else if name == "surprise" then "😲 Surpris"
    else if name == "fear" then "😨 Peur"
    else if name == "disgust" then "🤢 Dégoût"
    else name
  }

  /** A detector box `(x, y, w, h)` in pixels. */
  datatype Box = Box(x: int, y: int, w: int, h: int)

  function Area(b: Box): int {
    b.w * b.h
  }

  /** One score per label; the constructor makes "all seven keys present" hold by construction. */
  datatype Scores = Scores(happy: real, sad: real, angry: real, neutral: real,
                           surprise: real, fear: real, disgust: real)
  {
    /** The scores in key order. */
    function Values(): (v: seq<real>)
      ensures |v| == |EmotionKeys|
    {
      [happy, sad, angry, neutral, surprise, fear, disgust]
    }

    /** The `(label, score)` pairs in key order (the dictionary's `items()`). */
    function Items(): (items: seq<(string, real)>)
      ensures |items| == |EmotionKeys|
      ensures forall i :: 0 <= i < |items| ==> items[i] == (EmotionKeys[i], Values()[i])
    {
      seq(|EmotionKeys|, i requires 0 <= i < |EmotionKeys| => (EmotionKeys[i], Values()[i]))
    }

    function Total(): real {
      happy + sad + angry + neutral + surprise + fear + disgust
    }

    predicate Positive() {
      happy > 0.0 && sad > 0.0 && angry > 0.0 && neutral > 0.0 && surprise > 0.0 && fear > 0.0 && disgust > 0.0
    }
  }

  /** The score stored under `label` (`emotion_scores[label]`). */
  function ScoreOf(s: Scores, name: string): (v: real)
    requires name in EmotionKeys
    ensures exists i :: 0 <= i < |EmotionKeys| && EmotionKeys[i] == name && s.Values()[i] == v
  {
    if name == "happy" then s.happy
    else if name == "sad" then s.sad
    else if name == "angry" then s.angry
    else if name == "neutral" then s.neutral
    else if name == "surprise" then s.surprise
    else if name == "fear" then s.fear
    else assert EmotionKeys[6] == name; s.disgust
  }

  /**
   * `max(emotion_scores, key=emotion_scores.get)`: the first label, in key
   * order, whose score is maximal.
   */
  function Dominant(s: Scores): (name: string)
    ensures name in EmotionKeys
  {
    EmotionKeys[FirstMax(s.Values())]
  }

  /** The raw scores divided by their total. */
  function Normalize(s: Scores): (n: Scores)
    requires s.Positive()
    ensures n.Positive() && n.Total() == 1.0
    ensures forall i :: 0 <= i < |EmotionKeys| ==> 0.0 < n.Values()[i] <= 1.0
  {
    var t := s.Total();
    var n := Scores(s.happy / t, s.sad / t, s.angry / t, s.neutral / t,
                    s.surprise / t, s.fear / t, s.disgust / t);
    assert n.Total() == s.Total() / t;
    n
  }

  /** Dividing by the (positive) total does not change which label dominates. */
  lemma NormalizeKeepsDominant(s: Scores)
    requires s.Positive()
    ensures Dominant(Normalize(s)) == Dominant(s)
  {
    var t := s.Total();
    var xs, ys := s.Values(), Normalize(s).Values();
    forall i, j | 0 <= i < |xs| && 0 <= j < |xs|
      ensures xs[i] < xs[j] <==> ys[i] < ys[j]
    {
      assert ys[i] == xs[i] / t && ys[j] == xs[j] / t;
      DivideKeepsOrder(xs[i], xs[j], t);
    }
    FirstMaxOrderInvariant(xs, ys);
  }

  lemma DivideKeepsOrder(a: real, b: real, t: real)
    requires t > 0.0
    ensures a < b <==> a / t < b / t
  {
    if a < b {
      assert b / t - a / t == (b - a) / t;
    }
    if a / t < b / t {
      assert a == (a / t) * t && b == (b / t) * t;
    }
  }

  /** `random.uniform` draws of one call of the scorer, one per rule that may fire. */
  datatype Jitter = Jitter(happy: real, surprise: real, angry: real, sad: real, neutral: real)

  /** The ranges `random.uniform(0, 0.15)` and `random.uniform(0, 0.1)` draw from. */
  predicate JitterInRange(j: Jitter) {
    && 0.0 <= j.happy <= 0.15
    && 0.0 <= j.surprise <= 0.1
    && 0.0 <= j.angry <= 0.1
    && 0.0 <= j.sad <= 0.1
    && 0.0 <= j.neutral <= 0.15
  }

  function SumAreas(boxes: seq<Box>): int {
    if |boxes| == 0 then 0 else SumAreas(boxes[..|boxes| - 1]) + Area(boxes[|boxes| - 1])
  }

  /** The mean eye area exceeds 2% of the face area. */
  predicate WideEyes(eyes: seq<Box>, w: int, h: int)
    requires |eyes| > 0
    ensures WideEyes(eyes, w, h) <==> 50 * SumAreas(eyes) > w * h * |eyes|
  {
    MeanAboveShare(SumAreas(eyes), |eyes|, w * h);
    SumAreas(eyes) as real / |eyes| as real > (w * h) as real * 0.02
  }

  /** A mean above 2% of `a`, cleared of its denominators. */
  lemma MeanAboveShare(s: int, n: int, a: int)
    requires n > 0
    ensures s as real / n as real > a as real * 0.02 <==> 50 * s > a * n
  {
    var k := a as real * 0.02;
    DivideKeepsOrder(k * n as real, s as real, n as real);
    assert (k * n as real) / n as real == k;
    assert (a * n) as real == a as real * n as real;
  }

  /**
   * The score bands the rules put each label in, for a face of size `w` x `h`
   * with `smileCount` smiles and the eye boxes `eyes`.
   */
  ghost predicate FollowsRules(s: Scores, smileCount: nat, eyes: seq<Box>, w: int, h: int) {
    var surprised := |eyes| >= 2 && WideEyes(eyes, w, h);
    && (smileCount > 0 ==> 0.70 <= s.happy <= 0.85 && s.neutral == 0.10 && s.sad == 0.05)
    && (smileCount == 0 ==> s.happy == 0.15)
    && (smileCount == 0 && |eyes| < 2 ==>
          0.35 <= s.angry <= 0.45 && 0.30 <= s.sad <= 0.40 && s.neutral == 0.25)
    && (smileCount > 0 || |eyes| >= 2 ==> s.angry == 0.15)
    && (smileCount == 0 && |eyes| >= 2 ==> 0.50 <= s.neutral <= 0.65 && s.sad == 0.15)
    && (surprised ==> 0.40 <= s.surprise <= 0.50)
    && (!surprised ==> s.surprise == 0.10)
    && s.fear == 0.10 && s.disgust == 0.10
  }

  function RealMax(a: real, b: real): (m: real)
    ensures m >= a && m >= b && (m == a || m == b)
  {
    if a >= b then a else b
  }

  /**
   * `_analyze_facial_features` up to normalisation: start from the priors and
   * apply the smile, eye-size, closed-eyes and neutral rules in that order.
   */
  method AnalyzeFacialFeatures(w: int, h: int, smiles: seq<Box>, eyes: seq<Box>, jitter: Jitter)
    returns (scores: Scores)
    requires JitterInRange(jitter)
    ensures scores.Positive()
    ensures FollowsRules(scores, |smiles|, eyes, w, h)
  {
    scores := Scores(0.15, 0.15, 0.15, 0.25, 0.10, 0.10, 0.10);
    if |smiles| > 0 {
      scores := scores.(happy := 0.70 + jitter.happy, neutral := 0.10, sad := 0.05);
    }
    if |eyes| >= 2 {
      if WideEyes(eyes, w, h) {
        scores := scores.(surprise := RealMax(scores.surprise, 0.40 + jitter.surprise));
      }
    } else if |eyes| < 2 && |smiles| == 0 {
      scores := scores.(angry := RealMax(scores.angry, 0.35 + jitter.angry));
      scores := scores.(sad := RealMax(scores.sad, 0.30 + jitter.sad));
    }
    // The neutral boost also fires when the surprise boost above did.
    if |smiles| == 0 && |eyes| >= 2 {
      scores := scores.(neutral := RealMax(scores.neutral, 0.50 + jitter.neutral));
    }
  }

  /**
   * Which label a frame's scores make dominant: a smile always gives happy;
   * no smile and two or more eyes always gives neutral (even when the
   * surprise boost fired, neutral wins the tie by key order); otherwise sad
   * or angry, sad winning ties.  Surprise, fear and disgust never dominate.
   */
  lemma DominantByRules(s: Scores, smileCount: nat, eyes: seq<Box>, w: int, h: int)
    requires FollowsRules(s, smileCount, eyes, w, h)
    ensures smileCount > 0 ==> Dominant(s) == "happy"
    ensures smileCount == 0 && |eyes| >= 2 ==> Dominant(s) == "neutral"
    ensures smileCount == 0 && |eyes| < 2 ==> Dominant(s) == if s.sad >= s.angry then "sad" else "angry"
  {
    var v := s.Values();
    var i := FirstMax(v);
    if smileCount > 0 {
      assert v[i] >= v[0];
    } else if |eyes| >= 2 {
      assert v[i] >= v[3];
    } else {
      assert v[i] >= v[1] && v[i] >= v[2];
    }
  }

  /** `DominantByRules` carried over to the normalised scores. */
  lemma RawLabelOfFrame(raw: Scores, smileCount: nat, eyes: seq<Box>, w: int, h: int)
    requires raw.Positive() && FollowsRules(raw, smileCount, eyes, w, h)
    ensures RawLabelRule(smileCount, |eyes|, Dominant(Normalize(raw)))
  {
    NormalizeKeepsDominant(raw);
    DominantByRules(raw, smileCount, eyes, w, h);
  }

  /** The label a frame makes dominant, as `DominantByRules` states it. */
  predicate RawLabelRule(smileCount: nat, eyeCount: nat, name: string) {
    if smileCount > 0 then name == "happy"
    else if eyeCount >= 2 then name == "neutral"
    else name == "sad" || name == "angry"
  }

  /**
   * `max(faces, key=lambda f: f[2] * f[3])`: the index of the first face of
   * largest area.
   */
  function LargestFace(faces: seq<Box>): (i: nat)
    requires |faces| > 0
    ensures i < |faces|
    ensures forall j :: 0 <= j < |faces| ==> Area(faces[j]) <= Area(faces[i])
    ensures forall j :: 0 <= j < i ==> Area(faces[j]) < Area(faces[i])
  {
    var areas := seq(|faces|, k requires 0 <= k < |faces| => Area(faces[k]) as real);
    assert forall k :: 0 <= k < |faces| ==> areas[k] == Area(faces[k]) as real;
    FirstMax(areas)
  }

  /** One processed frame. */
  datatype EmotionResult = EmotionResult(emotion: string, confidence: real, allEmotions: Scores, faceBox: Option<Box>)

  /** The smoothing rule: with at least three buffered labels the most frequent one, else the raw label. */
  function Stabilized(buffer: seq<string>, raw: string): (name: string)
    ensures |buffer| < 3 ==> name == raw
    ensures |buffer| >= 3 ==> IsMode(buffer, name)
  {
    if |buffer| >= 3 then Mode(buffer) else raw
  }

  /** The example of a five-label buffer holding three happy and two sad labels. */
  lemma StabilizedMajorityExample(raw: string)
    ensures Stabilized(["happy", "happy", "sad", "happy", "sad"], raw) == "happy"
  {
    var b := ["happy", "happy", "sad", "happy", "sad"];
    ExampleCounts(b);
    var m := Stabilized(b, raw);
    assert m == "happy" || m == "sad";
  }

  lemma ExampleCounts(b: seq<string>)
    requires b == ["happy", "happy", "sad", "happy", "sad"]
    ensures Count(b, "happy") == 3 && Count(b, "sad") == 2
  {
    var b4, b3, b2, b1 := b[..4], b[..4][..3], b[..4][..3][..2], b[..4][..3][..2][..1];
    assert b1 == ["happy"] && b1[..0] == [];
    assert b2 == ["happy", "happy"] && b3 == ["happy", "happy", "sad"];
    assert b4 == ["happy", "happy", "sad", "happy"];
    assert Count(b1, "happy") == 1 && Count(b1, "sad") == 0;
    assert Count(b2, "happy") == 2 && Count(b2, "sad") == 0;
    assert Count(b3, "happy") == 2 && Count(b3, "sad") == 1;
    assert Count(b4, "happy") == 3 && Count(b4, "sad") == 1;
  }

  class EmotionDetector {
    /** Raw per-frame labels of the latest frames with a face, oldest first. */
    var emotionBuffer: seq<string>
    const bufferSize: int
    /** Every raw label appended since construction. */
    ghost var rawLabels: seq<string>

    ghost predicate Valid()
      reads this
    {
      bufferSize == 5 && emotionBuffer == LastN(rawLabels, bufferSize)
    }

    constructor ()
      ensures Valid() && emotionBuffer == [] && rawLabels == []
    {
      emotionBuffer := [];
      bufferSize := 5;
      rawLabels := [];
    }

    /**
     * `detect_emotion`: a missing or empty frame gives no result and leaves the
     * buffer alone; otherwise the frame goes through `DetectWithOpenCV`.
     */
    method DetectEmotion(frame: Option<seq<bv8>>, faces: seq<Box>, smiles: seq<Box>, eyes: seq<Box>, jitter: Jitter)
      returns (r: Option<EmotionResult>)
      requires Valid() && JitterInRange(jitter)
      modifies this
      ensures Valid()
      ensures frame == None || frame == Some([]) ==> r == None
      ensures r == None ==> emotionBuffer == old(emotionBuffer) && rawLabels == old(rawLabels)
      ensures frame != None && frame != Some([]) ==> (r == None <==> |faces| == 0)
      ensures r.Some? ==> FrameStep(old(rawLabels), rawLabels, emotionBuffer, faces, smiles, eyes, r.value)
    {
      if frame == None || frame == Some([]) {
        return None;
      }
      r := DetectWithOpenCV(faces, smiles, eyes, jitter);
    }

    /**
     * `_detect_with_opencv`: no face gives no result and leaves the buffer
     * alone; otherwise score the largest face, append its raw label to the
     * five-slot buffer and smooth the label over the buffer.
     */
    method DetectWithOpenCV(faces: seq<Box>, smiles: seq<Box>, eyes: seq<Box>, jitter: Jitter)
      returns (r: Option<EmotionResult>)
      requires Valid() && JitterInRange(jitter)
      modifies this
      ensures Valid()
      ensures r == None <==> |faces| == 0
      ensures r == None ==> emotionBuffer == old(emotionBuffer) && rawLabels == old(rawLabels)
      ensures r.Some? ==> FrameStep(old(rawLabels), rawLabels, emotionBuffer, faces, smiles, eyes, r.value)
    {
      if |faces| == 0 {
        return None;
      }
      var face := faces[LargestFace(faces)];
      var raw := AnalyzeFacialFeatures(face.w, face.h, smiles, eyes, jitter);
      var scores := Normalize(raw);
      var dominant := Dominant(scores);
      var confidence := ScoreOf(scores, dominant);
      RawLabelOfFrame(raw, |smiles|, eyes, face.w, face.h);

      BoundedAppendKeepsWindow(rawLabels, dominant, bufferSize);
      emotionBuffer := BoundedAppend(emotionBuffer, dominant, bufferSize);
      rawLabels := rawLabels + [dominant];

      if |emotionBuffer| >= 3 {
        dominant := Mode(emotionBuffer);
      }
      r := Some(EmotionResult(dominant, confidence, scores, Some(face)));
      assert raw.Positive() && FollowsRules(raw, |smiles|, eyes, face.w, face.h) && r.value.allEmotions == Normalize(raw);
    }
  }

  /**
   * What one frame with a face does: the chosen face is the first largest
   * one, the scores are a distribution whose dominant label follows the
   * rules, exactly that raw label is appended, the confidence is the raw
   * label's score, and only the label is smoothed over the new buffer.
   */
  ghost predicate FrameStep(rawBefore: seq<string>, rawAfter: seq<string>, buffer: seq<string>,
                            faces: seq<Box>, smiles: seq<Box>, eyes: seq<Box>, r: EmotionResult)
  {
    var raw := Dominant(r.allEmotions);
    && |faces| > 0
    && r.faceBox == Some(faces[LargestFace(faces)])
    && r.allEmotions.Positive() && r.allEmotions.Total() == 1.0
    && (exists sc: Scores :: sc.Positive() && FollowsRules(sc, |smiles|, eyes, faces[LargestFace(faces)].w, faces[LargestFace(faces)].h)
                             && r.allEmotions == Normalize(sc))
    && RawLabelRule(|smiles|, |eyes|, raw)
    && rawAfter == rawBefore + [raw]
    && r.confidence == ScoreOf(r.allEmotions, raw)
    && r.emotion == Stabilized(buffer, raw)
  }

  /** One bar of the score chart. */
  datatype BarEntry = BarEntry(emotion: string, score: real)

  predicate Descending(s: seq<(string, real)>) {
    forall i, j :: 0 <= i < j < |s| ==> s[i].1 >= s[j].1
  }

  /** The entries of `s` whose score is `v`, in order. */
  function WithScore(s: seq<(string, real)>, v: real): seq<(string, real)> {
    if |s| == 0 then []
    else (if s[0].1 == v then [s[0]] else []) + WithScore(s[1..], v)
  }

  /** Put `x` before the first entry whose score is not above its own. */
  function InsertByScore(x: (string, real), s: seq<(string, real)>): (r: seq<(string, real)>)
    ensures |r| == |s| + 1
    ensures r[0] == x || (|s| > 0 && r[0] == s[0])
  {
    if |s| == 0 then [x]
    else if s[0].1 > x.1 then
      [s[0]] + InsertByScore(x, s[1..])
    else [x] + s
  }

  /** `sorted(items, key=score, reverse=True)`: a stable sort by decreasing score. */
  function SortByScore(items: seq<(string, real)>): (r: seq<(string, real)>)
    ensures |r| == |items|
  {
    if |items| == 0 then [] else InsertByScore(items[0], SortByScore(items[1..]))
  }

  lemma {:induction false} InsertKeepsDescending(x: (string, real), s: seq<(string, real)>)
    requires Descending(s)
    ensures Descending(InsertByScore(x, s))
  {
    if |s| > 0 && s[0].1 > x.1 {
      InsertKeepsDescending(x, s[1..]);
      var t := InsertByScore(x, s[1..]);
      assert t[0] == x || t[0] == s[1..][0];
    }
  }

  lemma {:induction false} SortByScoreDescending(items: seq<(string, real)>)
    ensures Descending(SortByScore(items))
  {
    if |items| > 0 {
      SortByScoreDescending(items[1..]);
      InsertKeepsDescending(items[0], SortByScore(items[1..]));
    }
  }

  lemma {:induction false} InsertPermutes(x: (string, real), s: seq<(string, real)>)
    ensures multiset(InsertByScore(x, s)) == multiset(s) + multiset{x}
  {
    if |s| > 0 && s[0].1 > x.1 {
      InsertPermutes(x, s[1..]);
      assert s == [s[0]] + s[1..];
    }
  }

  lemma {:induction false} SortByScorePermutes(items: seq<(string, real)>)
    ensures multiset(SortByScore(items)) == multiset(items)
  {
    if |items| > 0 {
      SortByScorePermutes(items[1..]);
      InsertPermutes(items[0], SortByScore(items[1..]));
      assert items == [items[0]] + items[1..];
    }
  }

  lemma {:induction false} InsertWithScore(x: (string, real), s: seq<(string, real)>, v: real)
    ensures WithScore(InsertByScore(x, s), v) == (if x.1 == v then [x] else []) + WithScore(s, v)
  {
    if |s| == 0 {
      WithScoreCons(x, [], v);
    } else if s[0].1 > x.1 {
      InsertWithScore(x, s[1..], v);
      InsertBehindWithScore(x, s, v);
    } else {
      WithScoreCons(x, s, v);
    }
  }

  /** The step of `InsertWithScore` where `x` goes behind the first entry. */
  lemma InsertBehindWithScore(x: (string, real), s: seq<(string, real)>, v: real)
    requires |s| > 0 && s[0].1 > x.1
    requires WithScore(InsertByScore(x, s[1..]), v) == (if x.1 == v then [x] else []) + WithScore(s[1..], v)
    ensures WithScore(InsertByScore(x, s), v) == (if x.1 == v then [x] else []) + WithScore(s, v)
  {
    var t := InsertByScore(x, s);
    assert t[0] == s[0] && t[1..] == InsertByScore(x, s[1..]);
    SwapAroundEmpty(if s[0].1 == v then [s[0]] else [], if x.1 == v then [x] else [], WithScore(s[1..], v));
  }

  lemma SwapAroundEmpty<T>(a: seq<T>, b: seq<T>, c: seq<T>)
    requires a == [] || b == []
    ensures a + (b + c) == b + (a + c)
  {
    if a == [] {
      assert a + (b + c) == b + c == b + (a + c);
    } else {
      assert a + (b + c) == a + c == b + (a + c);
    }
  }

  lemma WithScoreCons(y: (string, real), s: seq<(string, real)>, v: real)
    ensures WithScore([y] + s, v) == (if y.1 == v then [y] else []) + WithScore(s, v)
  {
    assert ([y] + s)[1..] == s;
  }

  /** Entries with equal scores keep their relative order: the sort is stable. */
  lemma {:induction false} SortByScoreStable(items: seq<(string, real)>, v: real)
    ensures WithScore(SortByScore(items), v) == WithScore(items, v)
  {
    if |items| > 0 {
      SortByScoreStable(items[1..], v);
      InsertWithScore(items[0], SortByScore(items[1..]), v);
    }
  }

  /** The display names of the seven labels. */
  const Translations: set<string> := set k | k in EmotionKeys :: Translation(k)

  /** Every bar is labelled with the display name of one of the seven labels. */
  predicate AllDisplayNames(bars: seq<BarEntry>) {
    forall i :: 0 <= i < |bars| ==> bars[i].emotion in Translations
  }

  lemma SortedLabelsTranslate(items: seq<(string, real)>, sorted: seq<(string, real)>)
    requires forall i :: 0 <= i < |items| ==> items[i].0 in EmotionKeys
    requires multiset(sorted) == multiset(items)
    ensures forall i :: 0 <= i < |sorted| ==> Translation(sorted[i].0) in Translations
  {
    forall i | 0 <= i < |sorted| ensures Translation(sorted[i].0) in Translations {
      assert sorted[i] in multiset(items);
      var j :| 0 <= j < |items| && items[j] == sorted[i];
    }
  }

  /** The scores of a list of entries, in order. */
  function ScoresOf(s: seq<(string, real)>): (r: seq<real>)
    ensures |r| == |s|
    ensures forall i :: 0 <= i < |s| ==> r[i] == s[i].1
  {
    seq(|s|, i requires 0 <= i < |s| => s[i].1)
  }

  /** How often `v` occurs among the scores is the number of entries `WithScore` keeps. */
  lemma {:induction false} ScoreMultiplicity(s: seq<(string, real)>, v: real)
    ensures multiset(ScoresOf(s))[v] == |WithScore(s, v)|
  {
    if |s| > 0 {
      ScoreMultiplicity(s[1..], v);
      assert ScoresOf(s) == [s[0].1] + ScoresOf(s[1..]);
    }
  }

  /** Sorting keeps the multiset of scores. */
  lemma SortByScoreKeepsScores(items: seq<(string, real)>)
    ensures multiset(ScoresOf(SortByScore(items))) == multiset(ScoresOf(items))
  {
    forall v ensures multiset(ScoresOf(SortByScore(items)))[v] == multiset(ScoresOf(items))[v] {
      ScoreMultiplicity(SortByScore(items), v);
      ScoreMultiplicity(items, v);
      SortByScoreStable(items, v);
    }
  }

  function BarScores(bars: seq<BarEntry>): (r: seq<real>)
    ensures |r| == |bars|
    ensures forall i :: 0 <= i < |bars| ==> r[i] == bars[i].score
  {
    seq(|bars|, i requires 0 <= i < |bars| => bars[i].score)
  }

  /** The bar of one `(label, score)` entry: its display name and its own score. */
  function BarOf(e: (string, real)): BarEntry {
    BarEntry(Translation(e.0), e.1)
  }

  /** One translated bar per entry, in order. */
  function BarsOf(sorted: seq<(string, real)>): (bars: seq<BarEntry>)
    ensures |bars| == |sorted|
    ensures forall i :: 0 <= i < |sorted| ==> bars[i] == BarOf(sorted[i])
  {
    seq(|sorted|, i requires 0 <= i < |sorted| => BarOf(sorted[i]))
  }

  lemma BarsOfCons(e: (string, real), s: seq<(string, real)>)
    ensures BarsOf([e] + s) == [BarOf(e)] + BarsOf(s)
  {
    var l, r := BarsOf([e] + s), [BarOf(e)] + BarsOf(s);
    forall i | 0 <= i < |l|
      ensures l[i] == r[i]
    {
      if i > 0 {
        assert ([e] + s)[i] == s[i - 1];
      }
    }
  }

  /** Inserting an entry adds exactly its bar. */
  lemma {:induction false} InsertBars(x: (string, real), s: seq<(string, real)>)
    ensures multiset(BarsOf(InsertByScore(x, s))) == multiset(BarsOf(s)) + multiset{BarOf(x)}
  {
    if |s| == 0 {
      BarsOfCons(x, []);
    } else if s[0].1 > x.1 {
      InsertBars(x, s[1..]);
      BarsOfCons(s[0], InsertByScore(x, s[1..]));
      BarsOfCons(s[0], s[1..]);
      assert s == [s[0]] + s[1..];
    } else {
      BarsOfCons(x, s);
    }
  }

  /** The bars of the sorted entries are a permutation of the bars of the entries. */
  lemma {:induction false} SortByScoreKeepsBars(items: seq<(string, real)>)
    ensures multiset(BarsOf(SortByScore(items))) == multiset(BarsOf(items))
  {
    if |items| > 0 {
      SortByScoreKeepsBars(items[1..]);
      InsertBars(items[0], SortByScore(items[1..]));
      BarsOfCons(items[0], items[1..]);
      assert items == [items[0]] + items[1..];
    }
  }

  /** The bars of `bars` whose score is `v`, in order. */
  function BarsWithScore(bars: seq<BarEntry>, v: real): seq<BarEntry> {
    if |bars| == 0 then []
    else (if bars[0].score == v then [bars[0]] else []) + BarsWithScore(bars[1..], v)
  }

  /** Picking the bars of one score commutes with making bars. */
  lemma {:induction false} BarsWithScoreOf(s: seq<(string, real)>, v: real)
    ensures BarsWithScore(BarsOf(s), v) == BarsOf(WithScore(s, v))
  {
    if |s| > 0 {
      assert s == [s[0]] + s[1..];
      BarsOfCons(s[0], s[1..]);
      assert BarsOf(s)[1..] == BarsOf(s[1..]);
      BarsWithScoreOf(s[1..], v);
      if s[0].1 == v {
        BarsOfCons(s[0], WithScore(s[1..], v));
      }
    }
  }

  /** Bars of equal score appear in the key order of the entries. */
  lemma BarsStable(items: seq<(string, real)>, bars: seq<BarEntry>)
    requires bars == BarsOf(SortByScore(items))
    ensures forall v :: BarsWithScore(bars, v) == BarsOf(WithScore(items, v))
  {
    forall v
      ensures BarsWithScore(bars, v) == BarsOf(WithScore(items, v))
    {
      BarsWithScoreOf(SortByScore(items), v);
      SortByScoreStable(items, v);
    }
  }

  /**
   * `get_emotion_bar_data`: no bars without a result; otherwise one bar per
   * label carrying exactly the result's scores, by decreasing score (ties in
   * key order, see `SortByScoreStable`), each labelled with a display name.
   */
  function EmotionBarData(result: Option<EmotionResult>): (bars: seq<BarEntry>)
    ensures result == None ==> bars == []
    ensures result.Some? ==> |bars| == |EmotionKeys|
    ensures forall i, j :: 0 <= i < j < |bars| ==> bars[i].score >= bars[j].score
    ensures result.Some? ==> multiset(BarScores(bars)) == multiset(result.value.allEmotions.Values())
    ensures result.Some? ==> AllDisplayNames(bars)
    ensures result.Some? ==> multiset(bars) == multiset(BarsOf(result.value.allEmotions.Items()))
    ensures result.Some? ==>
              forall v :: BarsWithScore(bars, v) == BarsOf(WithScore(result.value.allEmotions.Items(), v))
  {
    match result
    case None => []
    case Some(r) =>
      var items := r.allEmotions.Items();
      var bars := BarsOf(SortByScore(items));
      SortByScoreKeepsBars(items);
      BarsFacts(items, bars);
      BarsTranslated(items, bars);
      BarsStable(items, bars);
      assert ScoresOf(items) == r.allEmotions.Values();
      bars
  }

  lemma BarsFacts(items: seq<(string, real)>, bars: seq<BarEntry>)
    requires forall i :: 0 <= i < |items| ==> items[i].0 in EmotionKeys
    requires bars == BarsOf(SortByScore(items))
    ensures |bars| == |items|
    ensures forall i, j :: 0 <= i < j < |bars| ==> bars[i].score >= bars[j].score
    ensures multiset(BarScores(bars)) == multiset(ScoresOf(items))
  {
    BarsDescending(items, bars);
    BarsKeepScores(items, bars);
  }

  lemma BarsDescending(items: seq<(string, real)>, bars: seq<BarEntry>)
    requires bars == BarsOf(SortByScore(items))
    ensures forall i, j :: 0 <= i < j < |bars| ==> bars[i].score >= bars[j].score
  {
    SortByScoreDescending(items);
  }

  lemma BarsKeepScores(items: seq<(string, real)>, bars: seq<BarEntry>)
    requires bars == BarsOf(SortByScore(items))
    ensures multiset(BarScores(bars)) == multiset(ScoresOf(items))
  {
    SortByScoreKeepsScores(items);
    assert BarScores(bars) == ScoresOf(SortByScore(items));
  }

  lemma BarsTranslated(items: seq<(string, real)>, bars: seq<BarEntry>)
    requires forall i :: 0 <= i < |items| ==> items[i].0 in EmotionKeys
    requires bars == BarsOf(SortByScore(items))
    ensures AllDisplayNames(bars)
  {
    SortByScorePermutes(items);
    SortedLabelsTranslate(items, SortByScore(items));
  }
}
