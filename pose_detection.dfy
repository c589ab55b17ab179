/** The rep-counting classifier of `PoseDetectionService`: a two-phase
    hysteresis detector per exercise. The frame's joint angles (already
    computed from the landmarks) and the handful of landmark coordinates that
    the jumping-jack rule reads are inputs.

    `Analyze` is the specification of one frame; the class
    `PoseDetectionService` holds the three mutable fields and its methods are
    proved to follow `Analyze`. */
module PoseDetection {
  import opened FitnessTypes
  import opened Text

  datatype Point = Point(x: real, y: real)

  /** What one frame provides to the analyzers: the hip-knee-ankle and
      shoulder-elbow-wrist angles in degrees on each side, and the nose,
      wrist and ankle landmarks in normalised image coordinates (y grows
      downwards). */
  datatype Frame = Frame(
    leftKneeAngle: real, rightKneeAngle: real,
    leftElbowAngle: real, rightElbowAngle: real,
    nose: Point, leftWrist: Point, rightWrist: Point,
    leftAnkle: Point, rightAnkle: Point)

  /** The classifier's mutable fields. */
  datatype ClassifierState = ClassifierState(exercise: ExerciseType, repCount: nat, inPosition: bool)

  /** The next classifier state and the frame's judgment. */
  datatype Step = Step(state: ClassifierState, result: ExerciseResult)

  const InitialState := ClassifierState(Squat, 0, false)

  // ---------------------------------------------------------------------
  // Geometry
  // ---------------------------------------------------------------------

  /** The last step of the angle computation: an absolute difference of two
      arctangents, in degrees, is reflected into [0, 180]. */
  function FoldAngle(a: real): (r: real)
    ensures 0.0 <= a < 360.0 ==> 0.0 <= r <= 180.0
    ensures a <= 180.0 ==> r == a
    ensures 180.0 < a < 360.0 ==> r + a == 360.0
  {
    if a > 180.0 then 360.0 - a else a
  }

  function Average(l: real, r: real): real {
    (l + r) / 2.0
  }

  function Abs(x: real): real {
    if x < 0.0 then -x else x
  }

  // ---------------------------------------------------------------------
  // Per-exercise verdicts
  // ---------------------------------------------------------------------

  function SquatAngle(f: Frame): real { Average(f.leftKneeAngle, f.rightKneeAngle) }
  function PushupAngle(f: Frame): real { Average(f.leftElbowAngle, f.rightElbowAngle) }

  /** Knees bent enough. */
  predicate SquatDown(avg: real) { avg < 120.0 }
  /** Not too deep, not too shallow. */
  predicate SquatForm(avg: real) { avg > 70.0 && avg < 120.0 }

  predicate PushupDown(avg: real) { avg < 120.0 }
  predicate PushupForm(avg: real) { avg > 60.0 && avg < 120.0 }

  predicate ArmsRaised(f: Frame) { f.leftWrist.y < f.nose.y && f.rightWrist.y < f.nose.y }
  predicate FeetApart(f: Frame) { Abs(f.leftAnkle.x - f.rightAnkle.x) > 0.3 }
  predicate JackPosition(f: Frame) { ArmsRaised(f) && FeetApart(f) }

  /** The exercises that have an analyzer. */
  predicate Implemented(e: ExerciseType) {
    e.Squat? || e.Pushup? || e.JumpingJack?
  }

  /** The frame's in-position verdict for an implemented exercise. */
  predicate InPosition(e: ExerciseType, f: Frame)
    requires Implemented(e)
  {
    match e
    case Squat => SquatDown(SquatAngle(f))
    case Pushup => PushupDown(PushupAngle(f))
    case JumpingJack => JackPosition(f)
  }

  /** The frame's form verdict for an implemented exercise. */
  predicate CorrectForm(e: ExerciseType, f: Frame)
    requires Implemented(e)
  {
    match e
    case Squat => SquatForm(SquatAngle(f))
    case Pushup => PushupForm(PushupAngle(f))
    case JumpingJack => JackPosition(f)
  }

  // ---------------------------------------------------------------------
  // Messages
  // ---------------------------------------------------------------------


  const SquatDepthTip := "Try to lower your hips more"
  const PushupBackTip := "Keep your back straight"

  function SquatDoneMessage(n: nat): string {
    if n % 5 == 0 then IntToString(n) + " reps! You're crushing it! " + Fire
    else "Rep " + IntToString(n) + " completed!"
  }

  function PushupDoneMessage(n: nat): string { "Pushup " + IntToString(n) + " done!" }
  function JackDoneMessage(n: nat): string { "Jumping jack " + IntToString(n) + "!" }

  // ---------------------------------------------------------------------
  // One frame, as a function of the previous state
  // ---------------------------------------------------------------------

  /** Entering the position sets the flag; leaving it clears the flag and
      counts a rep; otherwise nothing changes. */
  function Advance(st: ClassifierState, down: bool): ClassifierState {
    if down && !st.inPosition then st.(inPosition := true)
    else if !down && st.inPosition then st.(inPosition := false, repCount := st.repCount + 1)
    else st
  }

  function SquatStep(st: ClassifierState, f: Frame): (r: Step)
    ensures r.result.exerciseType == Squat && r.result.confidence == 0.8
    ensures r.result.repCount == r.state.repCount && r.state.exercise == st.exercise
    ensures r.state.inPosition == SquatDown(SquatAngle(f))
  {
    var avg := SquatAngle(f);
    var next := Advance(st, SquatDown(avg));
    var entering := SquatDown(avg) && !st.inPosition;
    var leaving := !SquatDown(avg) && st.inPosition;
    var feedback :=
      if entering then (if SquatForm(avg) then "Great squat form!" else if avg < 70.0 then "You can go a bit deeper!" else "")
      else if leaving then SquatDoneMessage(next.repCount)
      else "";
    var tips := if entering && !SquatForm(avg) && avg < 70.0 then [SquatDepthTip] else [];
    Step(next, ExerciseResult(Squat, SquatForm(avg), next.repCount, 0.8, feedback, tips))
  }

  function PushupStep(st: ClassifierState, f: Frame): (r: Step)
    ensures r.result.exerciseType == Pushup && r.result.confidence == 0.7
    ensures r.result.repCount == r.state.repCount && r.state.exercise == st.exercise
    ensures r.state.inPosition == PushupDown(PushupAngle(f))
  {
    var avg := PushupAngle(f);
    var next := Advance(st, PushupDown(avg));
    var entering := PushupDown(avg) && !st.inPosition;
    var leaving := !PushupDown(avg) && st.inPosition;
    var feedback :=
      if entering then (if PushupForm(avg) then "Perfect pushup form!" else "Good, keep your form tight!")
      else if leaving then PushupDoneMessage(next.repCount)
      else "";
    var tips := if entering && !PushupForm(avg) then [PushupBackTip] else [];
    Step(next, ExerciseResult(Pushup, PushupForm(avg), next.repCount, 0.7, feedback, tips))
  }

  function JumpingJackStep(st: ClassifierState, f: Frame): (r: Step)
    ensures r.result.exerciseType == JumpingJack && r.result.confidence == 0.6
    ensures r.result.repCount == r.state.repCount && r.state.exercise == st.exercise
    ensures r.state.inPosition == JackPosition(f) && r.result.isCorrectForm == r.state.inPosition
  {
    var pos := JackPosition(f);
    var next := Advance(st, pos);
    var feedback :=
      if pos && !st.inPosition then "Great jumping jack!"
      else if !pos && st.inPosition then JackDoneMessage(next.repCount)
      else "";
    Step(next, ExerciseResult(JumpingJack, pos, next.repCount, 0.6, feedback, []))
  }

  const NotImplementedMessage := "Exercise not implemented yet"

  /** `analyzeExercise`: dispatch on the current exercise. */
  function Analyze(st: ClassifierState, f: Frame): (r: Step)
    ensures r.state.exercise == st.exercise && r.result.exerciseType == st.exercise
    ensures r.result.repCount == r.state.repCount
    ensures !Implemented(st.exercise) ==> r.state == st && !r.result.isCorrectForm
  {
    match st.exercise
    case Squat => SquatStep(st, f)
    case Pushup => PushupStep(st, f)
    case JumpingJack => JumpingJackStep(st, f)
    case _ => Step(st, ExerciseResult(st.exercise, false, st.repCount, 0.0, NotImplementedMessage, []))
  }

  /** A stream of frames, one after the other. */
  function Run(st: ClassifierState, frames: seq<Frame>): ClassifierState
    decreases |frames|
  {
    if frames == [] then st else Run(Analyze(st, frames[0]).state, frames[1..])
  }

  // ---------------------------------------------------------------------
  // Properties of one frame
  // ---------------------------------------------------------------------

  /** After a frame the flag is that frame's verdict, the exercise is kept,
      and the rep count rises by exactly one on an in-to-out edge and is
      unchanged otherwise; the judgment carries the new count. */
  lemma AnalyzeEdge(st: ClassifierState, f: Frame)
    requires Implemented(st.exercise)
    ensures Analyze(st, f).state.inPosition == InPosition(st.exercise, f)
    ensures Analyze(st, f).state.exercise == st.exercise
    ensures Analyze(st, f).state.repCount ==
            if st.inPosition && !InPosition(st.exercise, f) then st.repCount + 1 else st.repCount
    ensures Analyze(st, f).result.repCount == Analyze(st, f).state.repCount
    ensures Analyze(st, f).result.exerciseType == st.exercise
  {
  }

  /** The count never goes down, whatever the exercise. */
  lemma AnalyzeMonotone(st: ClassifierState, f: Frame)
    ensures st.repCount <= Analyze(st, f).state.repCount <= st.repCount + 1
    ensures Analyze(st, f).state.exercise == st.exercise
  {
  }

  /** The judgment's form flag is the frame's form verdict, and correct form
      always means in position. */
  lemma AnalyzeForm(st: ClassifierState, f: Frame)
    requires Implemented(st.exercise)
    ensures Analyze(st, f).result.isCorrectForm == CorrectForm(st.exercise, f)
    ensures CorrectForm(st.exercise, f) ==> InPosition(st.exercise, f)
    ensures st.exercise.JumpingJack? ==> CorrectForm(st.exercise, f) == InPosition(st.exercise, f)
  {
  }

  /** The thresholds written out: squat 120/70, push-up 120/60, jumping jack
      both wrists above the nose and the ankles more than 0.3 apart. */
  lemma Thresholds(f: Frame)
    ensures InPosition(Squat, f) <==> (f.leftKneeAngle + f.rightKneeAngle) / 2.0 < 120.0
    ensures CorrectForm(Squat, f) <==> 70.0 < (f.leftKneeAngle + f.rightKneeAngle) / 2.0 < 120.0
    ensures InPosition(Pushup, f) <==> (f.leftElbowAngle + f.rightElbowAngle) / 2.0 < 120.0
    ensures CorrectForm(Pushup, f) <==> 60.0 < (f.leftElbowAngle + f.rightElbowAngle) / 2.0 < 120.0
    ensures InPosition(JumpingJack, f) <==>
            (f.leftWrist.y < f.nose.y && f.rightWrist.y < f.nose.y
             && (f.leftAnkle.x - f.rightAnkle.x > 0.3 || f.rightAnkle.x - f.leftAnkle.x > 0.3))
  {
  }

  /** Tips appear only when entering the position: for the squat exactly when
      the knees are bent below 70 degrees, for the push-up exactly when the
      form is off; the jumping jack never gives tips. */
  lemma AnalyzeTips(st: ClassifierState, f: Frame)
    ensures var r := Analyze(st, f).result;
      && (r.tips != [] ==> Implemented(st.exercise) && !st.inPosition && InPosition(st.exercise, f))
      && (st.exercise.Squat? ==>
            (r.tips != [] <==> !st.inPosition && SquatAngle(f) < 70.0)
            && (r.tips != [] ==> r.tips == [SquatDepthTip]))
      && (st.exercise.Pushup? ==>
            (r.tips != [] <==> !st.inPosition && PushupDown(PushupAngle(f)) && !PushupForm(PushupAngle(f)))
            && (r.tips != [] ==> r.tips == [PushupBackTip]))
      && (!st.exercise.Squat? && !st.exercise.Pushup? ==> r.tips == [])
  {
  }

  /** The feedback on leaving the position names the new count; only the
      squat replaces it on every fifth rep. */
  lemma AnalyzeExitFeedback(st: ClassifierState, f: Frame)
    requires Implemented(st.exercise) && st.inPosition && !InPosition(st.exercise, f)
    ensures var n := st.repCount + 1;
      var fb := Analyze(st, f).result.feedback;
      match st.exercise
      case Squat => fb == (if n % 5 == 0 then IntToString(n) + " reps! You're crushing it! " + Fire
                           else "Rep " + IntToString(n) + " completed!")
      case Pushup => fb == "Pushup " + IntToString(n) + " done!"
      case _ => fb == "Jumping jack " + IntToString(n) + "!"
  {
  }

  /** A frame that is neither an entry nor an exit gives empty feedback. */
  lemma AnalyzeQuietFrame(st: ClassifierState, f: Frame)
    requires Implemented(st.exercise) && st.inPosition == InPosition(st.exercise, f)
    ensures Analyze(st, f).result.feedback == "" && Analyze(st, f).result.tips == []
    ensures Analyze(st, f).state == st
  {
  }

  /** Fixed confidences, and the neutral judgment for an exercise without an
      analyzer, which leaves the state as it was. */
  lemma AnalyzeConfidence(st: ClassifierState, f: Frame)
    ensures var r := Analyze(st, f).result;
      match st.exercise
      case Squat => r.confidence == 0.8
      case Pushup => r.confidence == 0.7
      case JumpingJack => r.confidence == 0.6
      case _ => r.confidence == 0.0 && !r.isCorrectForm && r.repCount == st.repCount
                && r.feedback == NotImplementedMessage && r.tips == []
                && Analyze(st, f).state == st
  {
  }

  // ---------------------------------------------------------------------
  // Properties of a stream of frames
  // ---------------------------------------------------------------------

  /** The in-position verdicts of a stream of frames. */
  function Verdicts(e: ExerciseType, frames: seq<Frame>): (vs: seq<bool>)
    requires Implemented(e)
    ensures |vs| == |frames|
    ensures forall i :: 0 <= i < |frames| ==> vs[i] == InPosition(e, frames[i])
    decreases |frames|
  {
    if frames == [] then [] else [InPosition(e, frames[0])] + Verdicts(e, frames[1..])
  }

  /** The number of in-to-out edges in a sequence of verdicts that follows
      the verdict `prev`. */
  function Exits(prev: bool, vs: seq<bool>): nat
    decreases |vs|
  {
    if vs == [] then 0 else (if prev && !vs[0] then 1 else 0) + Exits(vs[0], vs[1..])
  }

  /** Over a stream of frames the count grows by exactly the number of
      in-to-out edges, and the flag ends at the last frame's verdict. */
  lemma {:induction false} RunCountsExits(st: ClassifierState, frames: seq<Frame>)
    requires Implemented(st.exercise)
    ensures Run(st, frames).exercise == st.exercise
    ensures Run(st, frames).repCount == st.repCount + Exits(st.inPosition, Verdicts(st.exercise, frames))
    ensures Run(st, frames).inPosition == if frames == [] then st.inPosition else InPosition(st.exercise, frames[|frames| - 1])
    decreases |frames|
  {
    if frames != [] {
      var next := Analyze(st, frames[0]).state;
      AnalyzeEdge(st, frames[0]);
      RunCountsExits(next, frames[1..]);
      var vs := Verdicts(st.exercise, frames);
      assert vs[1..] == Verdicts(st.exercise, frames[1..]);
      if |frames| > 1 {
        assert frames[1..][|frames[1..]| - 1] == frames[|frames| - 1];
      }
    }
  }

  /** No edges in a run of one repeated verdict. */
  lemma {:induction false} ExitsConstant(b: bool, vs: seq<bool>)
    requires forall i :: 0 <= i < |vs| ==> vs[i] == b
    ensures Exits(b, vs) == 0
    decreases |vs|
  {
    if vs != [] {
      ExitsConstant(b, vs[1..]);
    }
  }

  /** Frames that keep the current in-position verdict never change the
      count. */
  lemma SameVerdictKeepsCount(st: ClassifierState, frames: seq<Frame>)
    requires Implemented(st.exercise)
    requires forall i :: 0 <= i < |frames| ==> InPosition(st.exercise, frames[i]) == st.inPosition
    ensures Run(st, frames).repCount == st.repCount
  {
    RunCountsExits(st, frames);
    ExitsConstant(st.inPosition, Verdicts(st.exercise, frames));
  }

  /** A squat whose average knee angle goes 150, 100, 150 degrees counts one
      rep, on the way up, and is in good form at the bottom. */
  lemma SquatScenario(l: Point)
    ensures var up := Frame(150.0, 150.0, 0.0, 0.0, l, l, l, l, l);
      var down := Frame(100.0, 100.0, 0.0, 0.0, l, l, l, l, l);
      var s1 := Analyze(InitialState, up);
      var s2 := Analyze(s1.state, down);
      var s3 := Analyze(s2.state, up);
      && s1.result.repCount == 0 && s2.result.repCount == 0 && s3.result.repCount == 1
      && s2.result.isCorrectForm && s2.result.feedback == "Great squat form!"
      && s3.result.feedback == "Rep 1 completed!"
  {
  }

  // ---------------------------------------------------------------------
  // The service object
  // ---------------------------------------------------------------------

  /** The stateful part of `PoseDetectionService`. */
  class PoseDetectionService {
    var currentExercise: ExerciseType
    var repCount: nat
    var isInPosition: bool

    function State(): ClassifierState
      reads this
    {
      ClassifierState(currentExercise, repCount, isInPosition)
    }

    constructor ()
      ensures State() == InitialState
    {
      currentExercise := Squat;
      repCount := 0;
      isInPosition := false;
    }

    /** Switch exercise: the counter and the flag start afresh. */
    method SetExercise(exercise: ExerciseType)
      modifies this
      ensures State() == ClassifierState(exercise, 0, false)
    {
      currentExercise := exercise;
      repCount := 0;
      isInPosition := false;
    }

    /** Clear the counter and the flag, keeping the exercise. */
    method ResetReps()
      modifies this
      ensures State() == ClassifierState(old(currentExercise), 0, false)
    {
      repCount := 0;
      isInPosition := false;
    }

    method AnalyzeExercise(f: Frame) returns (r: ExerciseResult)
      modifies this
      ensures Step(State(), r) == Analyze(old(State()), f)
    {
      match currentExercise
      case Squat =>
        r := AnalyzeSquat(f);
      case Pushup =>
        r := AnalyzePushup(f);
      case JumpingJack =>
        r := AnalyzeJumpingJack(f);
      case _ =>
        r := ExerciseResult(currentExercise, false, repCount, 0.0, NotImplementedMessage, []);
    }

    method AnalyzeSquat(f: Frame) returns (r: ExerciseResult)
      modifies this
      ensures Step(State(), r) == SquatStep(old(State()), f)
    {
      var avgKneeAngle := (f.leftKneeAngle + f.rightKneeAngle) / 2.0;
      var inSquatPosition := avgKneeAngle < 120.0;
      var correctForm := avgKneeAngle > 70.0 && avgKneeAngle < 120.0;
      var feedback := "";
      var tips: seq<string> := [];
      if inSquatPosition && !isInPosition {
        isInPosition := true;
        if correctForm {
          feedback := "Great squat form!";
        } else if avgKneeAngle < 70.0 {
          feedback := "You can go a bit deeper!";
          tips := tips + [SquatDepthTip];
        }
      } else if !inSquatPosition && isInPosition {
        isInPosition := false;
        repCount := repCount + 1;
        feedback := "Rep " + IntToString(repCount) + " completed!";
        if repCount % 5 == 0 {
          feedback := IntToString(repCount) + " reps! You're crushing it! " + Fire;
        }
      }
      r := ExerciseResult(Squat, correctForm, repCount, 0.8, feedback, tips);
    }

    method AnalyzePushup(f: Frame) returns (r: ExerciseResult)
      modifies this
      ensures Step(State(), r) == PushupStep(old(State()), f)
    {
      var avgElbowAngle := (f.leftElbowAngle + f.rightElbowAngle) / 2.0;
      var inPushupPosition := avgElbowAngle < 120.0;
      var correctForm := avgElbowAngle > 60.0 && avgElbowAngle < 120.0;
      var feedback := "";
      var tips: seq<string> := [];
      if inPushupPosition && !isInPosition {
        isInPosition := true;
        if correctForm {
          feedback := "Perfect pushup form!";
        } else {
          feedback := "Good, keep your form tight!";
          tips := tips + [PushupBackTip];
        }
      } else if !inPushupPosition && isInPosition {
        isInPosition := false;
        repCount := repCount + 1;
        feedback := "Pushup " + IntToString(repCount) + " done!";
      }
      r := ExerciseResult(Pushup, correctForm, repCount, 0.7, feedback, tips);
    }

    method AnalyzeJumpingJack(f: Frame) returns (r: ExerciseResult)
      modifies this
      ensures Step(State(), r) == JumpingJackStep(old(State()), f)
    {
      var armsRaised := f.leftWrist.y < f.nose.y && f.rightWrist.y < f.nose.y;
      var feetApart := Abs(f.leftAnkle.x - f.rightAnkle.x) > 0.3;
      var inJackPosition := armsRaised && feetApart;
      var feedback := "";
      if inJackPosition && !isInPosition {
        isInPosition := true;
        feedback := "Great jumping jack!";
      } else if !inJackPosition && isInPosition {
        isInPosition := false;
        repCount := repCount + 1;
        feedback := "Jumping jack " + IntToString(repCount) + "!";
      }
      r := ExerciseResult(JumpingJack, inJackPosition, repCount, 0.6, feedback, []);
    }
  }
}
