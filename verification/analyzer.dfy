/**
 * The discrete part of the frame analyzer: which verdict a frame gets, the
 * per-student bookkeeping, the bounded gaze history and the length of the
 * current look-away. What the vision engine measures (face count, landmark
 * presence, gaze ratios, the confusion cues, the mouth aspect ratio) arrives
 * as an `EngineOutput`; the landmark geometry that produces it is not here.
 */
module Analyzer {
  import opened Wrappers
  import opened Wire

  const GazeAwayThreshold: real := 4.0
  const HistorySize: nat := 30
  const ConfusionThreshold: real := 0.6
  const SmileThreshold: real := 0.6

  /** The outcome of each of the five geometric confusion tests. */
  datatype ConfusionCues = ConfusionCues(
    browFurrowing: bool,
    noSmile: bool,
    headTilt: bool,
    eyeSquinting: bool,
    mouthTension: bool)

  /**
   * What the face mesh yields for the one face: the mean horizontal iris
   * ratio, the mean vertical iris position, the confusion cues and the mouth
   * aspect ratio used for the smile score.
   */
  datatype LandmarkReading = LandmarkReading(
    ratioX: real,
    irisY: real,
    cues: ConfusionCues,
    mouthAspect: real)

  /**
   * What the vision engine reports for a frame. `EngineFault` is the engine
   * raising (for instance when it failed to load and is `None`).
   */
  datatype EngineOutput =
    | EngineFault
    | Reading(faceCount: nat, landmarks: Option<LandmarkReading>)

  datatype Gaze = Gaze(direction: string, away: bool)

  /** One entry of a student's gaze history. */
  datatype GazeSample = GazeSample(away: bool, at: Time)

  /** The analyzer's record of one student (`student_states[id]`). */
  datatype StudentRecord = StudentRecord(
    lastUpdate: Time,
    status: string,
    gazeAwayStart: Option<Time>,
    latestAnalysis: Option<Analysis>)

  function Min(a: real, b: real): real {
    if a <= b then a else b
  }

  // ---------------------------------------------------------------- gaze

  /**
   * Gaze direction from the iris position: left/right from the horizontal
   * ratio, then up/down from the vertical position, which wins.
   */
  function AnalyzeGaze(ratioX: real, irisY: real): (g: Gaze)
    ensures g.away <==> g.direction != "center"
    ensures irisY < 0.45 ==> g.direction == "up"
    ensures irisY > 0.55 ==> g.direction == "down"
    ensures 0.45 <= irisY <= 0.55 ==>
      && (g.direction == "left" <==> ratioX < 0.35)
      && (g.direction == "right" <==> ratioX > 0.65)
  {
    var horizontal :=
      if ratioX < 0.35 then Gaze("left", true)
      else if ratioX > 0.65 then Gaze("right", true)
      else Gaze("center", false);
    if irisY < 0.45 then Gaze("up", true)
    else if irisY > 0.55 then Gaze("down", true)
    else horizontal
  }

  /** The smile score: the mouth aspect ratio scaled by 0.35 and capped at 1. */
  function SmileScore(mouthAspect: real): (s: real)
    ensures s <= 1.0
    ensures mouthAspect >= 0.0 ==> s >= 0.0
    ensures s > SmileThreshold <==> mouthAspect > 0.21
  {
    Min(mouthAspect / 0.35, 1.0)
  }

  // ----------------------------------------------------------- confusion

  /** The indicator names, in the order the tests run. */
  function Indicators(c: ConfusionCues): seq<string> {
    (if c.browFurrowing then ["brow_furrowing"] else [])
    + (if c.noSmile then ["no_smile"] else [])
    + (if c.headTilt then ["head_tilt"] else [])
    + (if c.eyeSquinting then ["eye_squinting"] else [])
    + (if c.mouthTension then ["mouth_tension"] else [])
  }

  function CueCount(c: ConfusionCues): (n: nat)
    ensures n == |Indicators(c)|
  {
    (if c.browFurrowing then 1 else 0) + (if c.noSmile then 1 else 0)
    + (if c.headTilt then 1 else 0) + (if c.eyeSquinting then 1 else 0)
    + (if c.mouthTension then 1 else 0)
  }

  /** The sum of the weights of the cues that fired. */
  function CueTotal(c: ConfusionCues): real {
    (if c.browFurrowing then 0.8 else 0.0) + (if c.noSmile then 0.5 else 0.0)
    + (if c.headTilt then 0.6 else 0.0) + (if c.eyeSquinting then 0.7 else 0.0)
    + (if c.mouthTension then 0.6 else 0.0)
  }

  lemma DivBounds(total: real, n: real, lo: real, hi: real)
    requires n > 0.0 && lo * n <= total <= hi * n
    ensures lo <= total / n <= hi
  {
    assert total / n * n == total;
  }

  lemma DivAbove(total: real, n: real, lo: real)
    requires n > 0.0 && lo * n < total
    ensures lo < total / n
  {
    assert total / n * n == total;
  }

  /**
   * The aggregation of `n` weights summing to `total`: 0 without any,
   * otherwise their mean, raised by a fifth and capped at 1 from three on.
   */
  function Aggregate(total: real, n: nat): real {
    if n == 0 then 0.0
    else if n >= 3 then Min(total / (n as real) * 1.2, 1.0)
    else total / (n as real)
  }

  /** The confusion score of the cues that fired. */
  function ConfusionScore(c: ConfusionCues): (score: real)
    ensures 0.0 <= score <= 1.0
    ensures score == 0.0 <==> Indicators(c) == []
    ensures |Indicators(c)| >= 3 ==> score > ConfusionThreshold
    ensures |Indicators(c)| == 1 ==>
      (score > ConfusionThreshold <==> c.browFurrowing || c.eyeSquinting)
    ensures score <= 0.96
  {
    var n := CueCount(c);
    var total := CueTotal(c);
    if n == 0 then Aggregate(total, n)
    else
      DivBounds(total, n as real, 0.5, 0.8);
      if n >= 3 then
        DivAbove(total, n as real, 0.5);
        Aggregate(total, n)
      else
        (if n == 1 then DivBounds(total, 1.0, total, total); Aggregate(total, n) else Aggregate(total, n))
  }

  function Sum(xs: seq<real>): real {
    if xs == [] then 0.0 else Sum(xs[..|xs| - 1]) + xs[|xs| - 1]
  }

  lemma SumAppend(xs: seq<real>, x: real)
    ensures Sum(xs + [x]) == Sum(xs) + x
  {
    assert (xs + [x])[..|xs|] == xs;
  }

  /** One test of `_detect_confusion`: when it fires, record its name and weight. */
  method Collect(fired: bool, name: string, weight: real, indicators: seq<string>, scores: seq<real>)
    returns (indicators': seq<string>, scores': seq<real>)
    ensures indicators' == indicators + (if fired then [name] else [])
    ensures |scores'| == |scores| + (if fired then 1 else 0)
    ensures Sum(scores') == Sum(scores) + (if fired then weight else 0.0)
  {
    indicators', scores' := indicators, scores;
    if fired {
      indicators' := indicators' + [name];
      SumAppend(scores', weight);
      scores' := scores' + [weight];
    }
  }

  /**
   * `_detect_confusion` from the cues on: collect the indicator names and
   * their weights, then aggregate.
   */
  method DetectConfusion(c: ConfusionCues) returns (score: real, indicators: seq<string>)
    ensures indicators == Indicators(c)
    ensures score == ConfusionScore(c)
  {
    var scores;
    indicators, scores := CollectCues(c);
    if |scores| == 0 {
      score := 0.0;
    } else {
      score := Sum(scores) / (|scores| as real);
      if |indicators| >= 3 {
        score := Min(score * 1.2, 1.0);
      }
    }
    assert score == Aggregate(Sum(scores), |scores|);
  }

  /** The five tests of `_detect_confusion`, in order. */
  method CollectCues(c: ConfusionCues) returns (indicators: seq<string>, scores: seq<real>)
    ensures indicators == Indicators(c)
    ensures |scores| == |indicators| && Sum(scores) == CueTotal(c)
  {
    indicators, scores := Collect(c.browFurrowing, "brow_furrowing", 0.8, [], []);
    indicators, scores := Collect(c.noSmile, "no_smile", 0.5, indicators, scores);
    indicators, scores := Collect(c.headTilt, "head_tilt", 0.6, indicators, scores);
    indicators, scores := Collect(c.eyeSquinting, "eye_squinting", 0.7, indicators, scores);
    indicators, scores := Collect(c.mouthTension, "mouth_tension", 0.6, indicators, scores);
  }

  // -------------------------------------------------------- gaze history

  /** Appending to a deque whose `maxlen` is `HistorySize`. */
  function PushBounded(h: seq<GazeSample>, s: GazeSample): (r: seq<GazeSample>)
    ensures 0 < |r| <= HistorySize && r[|r| - 1] == s
    ensures |h| < HistorySize ==> |r| == |h| + 1
    ensures |h| >= HistorySize ==> |r| == HistorySize
    ensures forall i :: 0 <= i < |r| - 1 ==> r[i] == h[|h| - (|r| - 1) + i]
  {
    var e := h + [s];
    if |e| > HistorySize then e[|e| - HistorySize..] else e
  }

  /** Where the trailing run of away samples starts (`|h|` when there is none). */
  function AwayRunStart(h: seq<GazeSample>): (k: nat)
    ensures k <= |h|
    ensures forall i :: k <= i < |h| ==> h[i].away
    ensures k == 0 || !h[k - 1].away
  {
    if h == [] || !h[|h| - 1].away then |h| else AwayRunStart(h[..|h| - 1])
  }

  /** The trailing run is determined by the two properties AwayRunStart promises. */
  lemma AwayRunStartUnique(h: seq<GazeSample>, k: nat)
    requires k <= |h|
    requires forall i :: k <= i < |h| ==> h[i].away
    requires k == 0 || !h[k - 1].away
    ensures k == AwayRunStart(h)
  {
  }

  /**
   * How long the student has been looking away: `now` minus the time of the
   * oldest sample in the trailing run of away samples, or 0 without one.
   */
  function AwayFor(h: seq<GazeSample>, now: Time): (d: real)
    ensures h == [] || !h[|h| - 1].away ==> d == 0.0
    ensures (forall i :: 0 <= i < |h| ==> h[i].at <= now) ==> d >= 0.0
  {
    var k := AwayRunStart(h);
    if k == |h| then 0.0 else now - h[k].at
  }

  /** A frame in which the student looks at the screen resets the look-away. */
  lemma LookingBackResets(h: seq<GazeSample>, t: Time, now: Time)
    ensures AwayFor(PushBounded(h, GazeSample(false, t)), now) == 0.0
  {
  }

  // ------------------------------------------------------------- verdict

  /** The analysis a frame starts from before any check fills it in. */
  function Baseline(faceCount: nat, landmarksDetected: bool): Analysis {
    Analysis(
      faceCount := faceCount,
      faceDetected := faceCount > 0,
      multipleFaces := faceCount > 1,
      landmarksDetected := landmarksDetected,
      status := "unknown",
      alertType := None,
      confidence := 0.0,
      gazeDirection := "center",
      emotion := "neutral",
      confusionScore := 0.0,
      engagementLevel := "unknown",
      message := None,
      gazeAway := None,
      confusionIndicators := None,
      studentId := None,
      timestamp := None)
  }

  /**
   * The verdict for a frame with `faceCount` faces, the landmark reading if
   * the mesh found one, and the look-away length measured after this frame's
   * gaze sample was recorded.
   */
  function Verdict(faceCount: nat, landmarks: Option<LandmarkReading>, awayFor: real): Analysis
  {
    var base := Baseline(faceCount, landmarks.Some?);
    if faceCount == 0 then
      base.(status := "alert", alertType := Some("no_face_detected"), message := Some(NoFace))
    else if faceCount > 1 then
      base.(status := "alert", alertType := Some("multiple_faces"), message := Some(MultipleFaces))
    else match landmarks
      case None =>
        base.(status := "warning", message := Some(LandmarksUnclear), confidence := 0.3)
      case Some(lm) =>
        var gaze := AnalyzeGaze(lm.ratioX, lm.irisY);
        var looked := base.(gazeDirection := gaze.direction, gazeAway := Some(gaze.away));
        if awayFor > GazeAwayThreshold then
          looked.(status := "alert", alertType := Some("gaze_away"), message := Some(LookingAway(awayFor)))
        else
          var score := ConfusionScore(lm.cues);
          var scored := looked.(confusionScore := score, confusionIndicators := Some(Indicators(lm.cues)),
                                confidence := 0.85);
          if score > ConfusionThreshold then
            scored.(emotion := "confused", status := "warning", alertType := Some("confused"),
                    message := Some(Confused), engagementLevel := "struggling")
          else if SmileScore(lm.mouthAspect) > SmileThreshold then
            scored.(emotion := "happy", status := "good", engagementLevel := "engaged")
          else
            scored.(emotion := "focused", status := "good", engagementLevel := "focused")
  }

  /**
   * The precedence of the checks: no face, then several faces, then missing
   * landmarks; with one face and landmarks, looking away for longer than
   * the threshold, then confusion, then the smile.
   */
  lemma VerdictSpec(faceCount: nat, landmarks: Option<LandmarkReading>, awayFor: real)
    ensures var a := Verdict(faceCount, landmarks, awayFor);
      && a.faceCount == faceCount
      && (a.faceDetected <==> faceCount > 0)
      && (a.multipleFaces <==> faceCount > 1)
      && (a.landmarksDetected <==> landmarks.Some?)
      && a.status in {"alert", "warning", "good"}
      && (a.status == "alert" <==> faceCount != 1 || (landmarks.Some? && awayFor > GazeAwayThreshold))
      && 0.0 <= a.confidence <= 1.0 && 0.0 <= a.confusionScore <= 1.0
      && a.studentId.None? && a.timestamp.None?
    ensures var a := Verdict(faceCount, landmarks, awayFor);
      && (faceCount == 0 ==> a.alertType == Some("no_face_detected") && a.gazeAway.None?)
      && (faceCount > 1 ==> a.alertType == Some("multiple_faces") && a.gazeAway.None?)
      && (faceCount == 1 && landmarks.None? ==> a.status == "warning" && a.confidence == 0.3)
    ensures faceCount == 1 && landmarks.Some? ==>
      var a := Verdict(faceCount, landmarks, awayFor);
      var lm := landmarks.value;
      && a.gazeDirection == AnalyzeGaze(lm.ratioX, lm.irisY).direction
      && (awayFor > GazeAwayThreshold ==>
            a.alertType == Some("gaze_away") && a.confusionIndicators.None? && a.confusionScore == 0.0)
      && (awayFor <= GazeAwayThreshold ==>
            && a.confusionIndicators == Some(Indicators(lm.cues))
            && a.confidence == 0.85
            && (a.status == "warning" <==> ConfusionScore(lm.cues) > ConfusionThreshold)
            && (a.status == "warning" ==> a.engagementLevel == "struggling")
            && (a.status == "good" ==> (a.emotion == "happy" <==> SmileScore(lm.mouthAspect) > SmileThreshold)))
    ensures faceCount == 1 && landmarks.Some? && awayFor <= GazeAwayThreshold ==>
      var a := Verdict(faceCount, landmarks, awayFor);
      var lm := landmarks.value;
      && (ConfusionScore(lm.cues) > ConfusionThreshold ==>
            a.emotion == "confused" && a.alertType == Some("confused") && a.message == Some(Confused))
      && (ConfusionScore(lm.cues) <= ConfusionThreshold ==> a.alertType.None? && a.message.None?)
      && (ConfusionScore(lm.cues) <= ConfusionThreshold && SmileScore(lm.mouthAspect) > SmileThreshold ==>
            a.emotion == "happy" && a.engagementLevel == "engaged")
      && (ConfusionScore(lm.cues) <= ConfusionThreshold && SmileScore(lm.mouthAspect) <= SmileThreshold ==>
            a.emotion == "focused" && a.engagementLevel == "focused")
      && (a.emotion == "happy" <==> a.status == "good" && a.engagementLevel == "engaged")
      && (a.emotion == "focused" <==> a.status == "good" && a.engagementLevel == "focused")
  {
  }

  /** The record a student gets on first sighting. */
  function FreshRecord(now: Time): StudentRecord {
    StudentRecord(now, "unknown", None, None)
  }

  /** The snapshot entry `get_all_students_state` writes for one student. */
  function SnapshotEntry(id: string, rec: StudentRecord): StudentEntry {
    StudentEntry(Some(id), rec.latestAnalysis, Some(rec.lastUpdate))
  }

  // ------------------------------------------------------------ analyzer

  class VideoAnalyzer {
    var studentStates: map<string, StudentRecord>
    var gazeHistory: map<string, seq<GazeSample>>

    /** Every known student has a history, and no history outgrows the deque. */
    ghost predicate Valid()
      reads this
    {
      && gazeHistory.Keys == studentStates.Keys
      && forall id :: id in gazeHistory ==> |gazeHistory[id]| <= HistorySize
    }

    constructor ()
      ensures Valid()
      ensures studentStates == map[] && gazeHistory == map[]
    {
      studentStates := map[];
      gazeHistory := map[];
    }

    method InitializeStudentState(id: string, now: Time)
      requires Valid()
      modifies this
      ensures Valid()
      ensures studentStates == old(studentStates)[id := FreshRecord(now)]
      ensures gazeHistory == old(gazeHistory)[id := []]
    {
      studentStates := studentStates[id := FreshRecord(now)];
      gazeHistory := gazeHistory[id := []];
    }

    method UpdateStudentState(id: string, analysis: Analysis, now: Time)
      requires Valid() && id in studentStates
      modifies this
      ensures Valid()
      ensures studentStates ==
        old(studentStates)[id := old(studentStates)[id].(lastUpdate := now, latestAnalysis := Some(analysis))]
      ensures gazeHistory == old(gazeHistory)
    {
      var rec := studentStates[id];
      studentStates := studentStates[id := rec.(lastUpdate := now, latestAnalysis := Some(analysis))];
    }

    method UpdateGazeHistory(id: string, away: bool, now: Time)
      requires Valid() && id in gazeHistory
      modifies this
      ensures Valid()
      ensures gazeHistory == old(gazeHistory)[id := PushBounded(old(gazeHistory)[id], GazeSample(away, now))]
      ensures studentStates == old(studentStates)
    {
      gazeHistory := gazeHistory[id := PushBounded(gazeHistory[id], GazeSample(away, now))];
    }

    /** Walks the history from the newest sample back while the samples are away. */
    method ContinuousGazeAwayDuration(id: string, now: Time) returns (duration: real)
      requires id in gazeHistory
      ensures duration == AwayFor(gazeHistory[id], now)
    {
      var history := gazeHistory[id];
      duration := 0.0;
      var i := |history|;
      while i > 0
        invariant 0 <= i <= |history|
        invariant forall j :: i <= j < |history| ==> history[j].away
        invariant duration == if i == |history| then 0.0 else now - history[i].at
      {
        if history[i - 1].away {
          duration := now - history[i - 1].at;
          i := i - 1;
        } else {
          break;
        }
      }
      AwayRunStartUnique(history, i);
    }

    /**
     * Analyse one frame of student `id`. `None` is the engine raising: the
     * student is known from then on but has no analysis.
     */
    method AnalyzeFrame(id: string, out: EngineOutput, now: Time) returns (r: Option<Analysis>)
      requires Valid()
      modifies this
      ensures Valid()
      ensures studentStates.Keys == old(studentStates).Keys + {id}
      ensures forall other :: other in old(studentStates) && other != id ==>
        studentStates[other] == old(studentStates)[other] && gazeHistory[other] == old(gazeHistory)[other]
      ensures
        var rec := if id in old(studentStates) then old(studentStates)[id] else FreshRecord(now);
        var before := if id in old(gazeHistory) then old(gazeHistory)[id] else [];
        match out
        case EngineFault =>
          && r.None?
          && studentStates[id] == rec
          && gazeHistory[id] == before
        case Reading(faceCount, landmarks) =>
          && (faceCount == 1 && landmarks.Some? ==>
                gazeHistory[id] == PushBounded(before,
                  GazeSample(AnalyzeGaze(landmarks.value.ratioX, landmarks.value.irisY).away, now)))
          && (faceCount != 1 || landmarks.None? ==> gazeHistory[id] == before)
          && r == Some(Verdict(faceCount, landmarks, AwayFor(gazeHistory[id], now)))
          && studentStates[id] == rec.(lastUpdate := now, latestAnalysis := r)
    {
      if id !in studentStates {
        InitializeStudentState(id, now);
      }
      if out.EngineFault? {
        return None;
      }
      var faceCount := out.faceCount;
      var analysis := Baseline(faceCount, out.landmarks.Some?);
      ghost var awayFor := AwayFor(gazeHistory[id], now);
      if faceCount == 0 {
        analysis := analysis.(status := "alert", alertType := Some("no_face_detected"), message := Some(NoFace));
        assert analysis == Verdict(faceCount, out.landmarks, awayFor);
      } else if faceCount > 1 {
        analysis := analysis.(status := "alert", alertType := Some("multiple_faces"), message := Some(MultipleFaces));
        assert analysis == Verdict(faceCount, out.landmarks, awayFor);
      } else if out.landmarks.Some? {
        analysis := ReadLandmarks(id, out.landmarks.value, now);
        awayFor := AwayFor(gazeHistory[id], now);
      } else {
        analysis := analysis.(status := "warning", message := Some(LandmarksUnclear), confidence := 0.3);
        assert analysis == Verdict(faceCount, out.landmarks, awayFor);
      }
      assert analysis == Verdict(faceCount, out.landmarks, awayFor);
      UpdateStudentState(id, analysis, now);
      r := Some(analysis);
    }

    /**
     * The one-face, landmarks-found part of a frame: record the gaze sample,
     * then alert on a long look-away or grade confusion and smile.
     */
    method ReadLandmarks(id: string, lm: LandmarkReading, now: Time) returns (analysis: Analysis)
      requires Valid() && id in gazeHistory
      modifies this
      ensures Valid()
      ensures gazeHistory ==
        old(gazeHistory)[id := PushBounded(old(gazeHistory)[id], GazeSample(AnalyzeGaze(lm.ratioX, lm.irisY).away, now))]
      ensures studentStates == old(studentStates)
      ensures analysis == Verdict(1, Some(lm), AwayFor(gazeHistory[id], now))
    {
      analysis := Baseline(1, true);
      var gaze := AnalyzeGaze(lm.ratioX, lm.irisY);
      analysis := analysis.(gazeDirection := gaze.direction, gazeAway := Some(gaze.away));
      UpdateGazeHistory(id, gaze.away, now);
      var awayFor := ContinuousGazeAwayDuration(id, now);
      if awayFor > GazeAwayThreshold {
        analysis := analysis.(status := "alert", alertType := Some("gaze_away"), message := Some(LookingAway(awayFor)));
        return;
      }
      var score, indicators := DetectConfusion(lm.cues);
      analysis := analysis.(confusionScore := score, confusionIndicators := Some(indicators));
      if score > ConfusionThreshold {
        analysis := analysis.(emotion := "confused", status := "warning", alertType := Some("confused"),
                              message := Some(Confused), engagementLevel := "struggling");
      } else {
        var smile := SmileScore(lm.mouthAspect);
        if smile > SmileThreshold {
          analysis := analysis.(emotion := "happy", status := "good", engagementLevel := "engaged");
        } else {
          analysis := analysis.(emotion := "focused", status := "good", engagementLevel := "focused");
        }
      }
      analysis := analysis.(confidence := 0.85);
    }

    /**
     * Stamps the stored analysis of `id` with the student's id and the time.
     * The endpoint stamps the very dictionary the analyzer keeps, so the
     * stored analysis carries the stamp too.
     */
    method StampLatest(id: string, now: Time) returns (stamped: Analysis)
      requires Valid() && id in studentStates && studentStates[id].latestAnalysis.Some?
      modifies this
      ensures Valid()
      ensures stamped == old(studentStates)[id].latestAnalysis.value.(studentId := Some(id), timestamp := Some(now))
      ensures studentStates == old(studentStates)[id := old(studentStates)[id].(latestAnalysis := Some(stamped))]
      ensures gazeHistory == old(gazeHistory)
    {
      var rec := studentStates[id];
      stamped := rec.latestAnalysis.value.(studentId := Some(id), timestamp := Some(now));
      studentStates := studentStates[id := rec.(latestAnalysis := Some(stamped))];
    }

    /** One entry per student ever analysed, including students who have left. */
    function AllStudentsState(): (snapshot: map<string, StudentEntry>)
      reads this
      ensures snapshot.Keys == studentStates.Keys
      ensures forall id :: id in snapshot ==>
        && snapshot[id].studentId == Some(id)
        && snapshot[id].latestAnalysis == studentStates[id].latestAnalysis
        && snapshot[id].lastUpdate == Some(studentStates[id].lastUpdate)
    {
      map id | id in studentStates :: SnapshotEntry(id, studentStates[id])
    }
  }
}
