/** The workout hook (`useWorkout`): session lifecycle, de-duplication of
    exercise results by rep count, the energy score with its clamp and decay,
    the mascot's mood, and the coaching call chosen for each new rep.

    The hook's state is the value `WorkoutState`; each operation is a
    function from the state before to the state after (`Started`, `Paused`,
    ..., `ResultHandled`, `Decayed`). The class `WorkoutController` holds the
    same state in fields, owns the voice service, and its methods are proved
    to follow those functions and to make the voice calls the hook makes.
    Wall-clock readings are the integer millisecond parameter `nowMs`. */
module Workout {
  import opened FitnessTypes
  import opened Text
  import opened VoiceFeedback

  datatype WorkoutState = WorkoutState(
    isWorkoutActive: bool,
    currentExercise: ExerciseType,
    session: Option<WorkoutSession>,
    latest: Option<ExerciseResult>,
    goose: GooseState,
    sessionStartTime: Option<int>,
    lastRepTime: Option<int>,
    lastRepCount: int)

  const Initial := WorkoutState(false, Squat, None, None, GooseState(0, Focused, Some(Squat), false), None, None, 0)

  /** What every reachable state satisfies: energy within [0, 100], the rep
      watermark non-negative, and the mascot agreeing with the hook on
      whether the workout runs and on the exercise. */
  predicate Valid(s: WorkoutState) {
    && 0 <= s.goose.energyLevel <= 100
    && s.lastRepCount >= 0
    && s.goose.sessionActive == s.isWorkoutActive
    && s.goose.currentExercise == Some(s.currentExercise)
  }

  lemma InitialValid()
    ensures Valid(Initial)
  {
  }

  // ---------------------------------------------------------------------
  // Energy and mood
  // ---------------------------------------------------------------------

  /** A rep within five seconds of the previous accepted rep; there is no
      previous rep before the first one. The source compares
      `(now - last) / 1000 < 5` on real numbers, which for whole
      milliseconds is `now - last < 5000`. */
  predicate Streak(lastRepTime: Option<int>, nowMs: int) {
    lastRepTime.Some? && nowMs - lastRepTime.value < 5000
  }

  /** The energy a new rep earns: a flat 1 for poor form; otherwise 5, plus
      2 for a streak, plus 10 on every tenth rep or else 5 on every fifth. */
  function EnergyGain(correct: bool, repCount: int, lastRepTime: Option<int>, nowMs: int): (g: int)
    ensures 1 <= g <= 17
    ensures g == 1 <==> !correct
    ensures correct ==> g >= 5 && (g % 5 == 2 <==> Streak(lastRepTime, nowMs))
    ensures correct && repCount % 10 == 0 ==> g >= 15
    ensures correct && repCount % 5 != 0 ==> g <= 7
  {
    if !correct then 1
    else
      5 + (if Streak(lastRepTime, nowMs) then 2 else 0)
        + (if repCount % 10 == 0 then 10 else if repCount % 5 == 0 then 5 else 0)
  }

  /** The new energy level: the sum, clamped at 100. */
  function AddEnergy(energy: int, gain: int): (e: int)
    ensures e <= 100
    ensures gain >= 1 && energy < 100 ==> energy < e
    ensures 0 <= energy && 0 <= gain ==> 0 <= e
    ensures e == energy + gain || (e == 100 && energy + gain > 100)
  {
    if 100 < energy + gain then 100 else energy + gain
  }

  /** The mood after a new rep, from the new energy and the rep's form. */
  function MoodAfterRep(energy: int, correct: bool): (m: Mood)
    ensures m == Celebrating <==> energy >= 90
    ensures m == Excited <==> 70 <= energy < 90
    ensures m == Encouraging <==> energy < 70 && correct
    ensures m == Focused <==> energy < 70 && !correct
  {
    if energy >= 90 then Celebrating
    else if energy >= 70 then Excited
    else if correct then Encouraging
    else Focused
  }

  /** The hook's decay step: one point less, never below zero. */
  function DecayEnergy(energy: int): (e: int)
    ensures 0 <= energy ==> 0 <= e
    ensures e <= energy || energy < 0
    ensures 0 < energy ==> e == energy - 1
  {
    if 0 > energy - 1 then 0 else energy - 1
  }

  // ---------------------------------------------------------------------
  // Lifecycle
  // ---------------------------------------------------------------------

  /** `startWorkout`: a fresh session whose id is the start time, the
      workout running, the mascot excited at base energy 10. */
  function Started(s: WorkoutState, nowMs: int): (t: WorkoutState)
    ensures Valid(s) ==> Valid(t)
    ensures t.isWorkoutActive && t.goose.sessionActive && t.goose.mood == Excited && t.goose.energyLevel == 10
    ensures t.session == Some(WorkoutSession(IntToString(nowMs), nowMs, None, [], 0, 0, 0))
    ensures t.sessionStartTime == Some(nowMs)
    ensures t.lastRepCount == s.lastRepCount && t.lastRepTime == s.lastRepTime
    ensures t.currentExercise == s.currentExercise && t.latest == s.latest
  {
    s.(session := Some(WorkoutSession(IntToString(nowMs), nowMs, None, [], 0, 0, 0)),
       isWorkoutActive := true,
       goose := s.goose.(sessionActive := true, mood := Excited, energyLevel := 10,
                         currentExercise := Some(s.currentExercise)),
       sessionStartTime := Some(nowMs))
  }

  /** `pauseWorkout`: stopped, mascot focused, everything else kept. */
  function Paused(s: WorkoutState): (t: WorkoutState)
    ensures Valid(s) ==> Valid(t)
    ensures !t.isWorkoutActive && !t.goose.sessionActive && t.goose.mood == Focused
    ensures t.goose.energyLevel == s.goose.energyLevel && t.session == s.session
    ensures t.lastRepCount == s.lastRepCount && t.lastRepTime == s.lastRepTime
    ensures t.currentExercise == s.currentExercise && t.latest == s.latest
    ensures t.sessionStartTime == s.sessionStartTime
  {
    s.(isWorkoutActive := false, goose := s.goose.(sessionActive := false, mood := Focused))
  }

  /** `resumeWorkout`: running, mascot encouraging, everything else kept. */
  function Resumed(s: WorkoutState): (t: WorkoutState)
    ensures Valid(s) ==> Valid(t)
    ensures t.isWorkoutActive && t.goose.sessionActive && t.goose.mood == Encouraging
    ensures t.goose.energyLevel == s.goose.energyLevel && t.session == s.session
    ensures t.lastRepCount == s.lastRepCount && t.lastRepTime == s.lastRepTime
    ensures t.currentExercise == s.currentExercise && t.latest == s.latest
    ensures t.sessionStartTime == s.sessionStartTime
  {
    s.(isWorkoutActive := true, goose := s.goose.(sessionActive := true, mood := Encouraging))
  }

  /** `stopWorkout`: stopped, session cleared, mascot celebrating at energy 0;
      the rep watermark survives. */
  function Stopped(s: WorkoutState): (t: WorkoutState)
    ensures Valid(s) ==> Valid(t)
    ensures !t.isWorkoutActive && !t.goose.sessionActive && t.goose.mood == Celebrating
    ensures t.goose.energyLevel == 0 && t.session == None
    ensures t.lastRepCount == s.lastRepCount && t.lastRepTime == s.lastRepTime
    ensures t.currentExercise == s.currentExercise && t.latest == s.latest
    ensures t.sessionStartTime == s.sessionStartTime
  {
    s.(isWorkoutActive := false, session := None,
       goose := s.goose.(sessionActive := false, mood := Celebrating, energyLevel := 0))
  }

  /** The session length in whole seconds that `stopWorkout` reports, when
      a session and its start time exist. */
  function StopDuration(s: WorkoutState, nowMs: int): (d: Option<int>)
    ensures d.Some? <==> s.session.Some? && s.sessionStartTime.Some?
    ensures d.Some? ==> d.value * 1000 <= nowMs - s.sessionStartTime.value < d.value * 1000 + 1000
  {
    if s.session.Some? && s.sessionStartTime.Some? then Some((nowMs - s.sessionStartTime.value) / 1000)
    else None
  }

  /** `changeExercise`: the new exercise, mascot focused, energy kept. */
  function ExerciseChanged(s: WorkoutState, e: ExerciseType): (t: WorkoutState)
    ensures Valid(s) ==> Valid(t)
    ensures t.currentExercise == e && t.goose.currentExercise == Some(e) && t.goose.mood == Focused
    ensures t.goose.energyLevel == s.goose.energyLevel && t.isWorkoutActive == s.isWorkoutActive
    ensures t.session == s.session
    ensures t.lastRepCount == s.lastRepCount && t.lastRepTime == s.lastRepTime
  {
    s.(currentExercise := e, goose := s.goose.(currentExercise := Some(e), mood := Focused))
  }

  // ---------------------------------------------------------------------
  // Exercise results
  // ---------------------------------------------------------------------

  /** Only a result with a higher rep count than the last accepted one is a
      new rep. */
  predicate Accepts(s: WorkoutState, r: ExerciseResult) {
    r.repCount > s.lastRepCount
  }

  /** `handleExerciseResult`: the latest result is always recorded; a new rep
      is appended to the session (when there is one), earns energy, sets the
      mood and moves the rep watermark and its time. */
  function ResultHandled(s: WorkoutState, r: ExerciseResult, nowMs: int): (t: WorkoutState)
    ensures Valid(s) ==> Valid(t)
    ensures t.latest == Some(r)
    ensures !Accepts(s, r) ==> t == s.(latest := Some(r))
    ensures t.lastRepCount >= s.lastRepCount
  {
    if !Accepts(s, r) then
      s.(latest := Some(r))
    else
      var session :=
        match s.session
        case Some(sd) => Some(sd.(exercises := sd.exercises + [r], totalReps := r.repCount,
                                  gooseEnergyLevel := s.goose.energyLevel))
        case None => None;
      var gain := EnergyGain(r.isCorrectForm, r.repCount, s.lastRepTime, nowMs);
      var energy := AddEnergy(s.goose.energyLevel, gain);
      s.(latest := Some(r),
         session := session,
         goose := s.goose.(energyLevel := energy, mood := MoodAfterRep(energy, r.isCorrectForm)),
         lastRepTime := Some(nowMs),
         lastRepCount := r.repCount)
  }

  /** A new rep, in full: the session (if any) grows by exactly this result,
      takes its count and records the energy before the rep; energy rises by the gain, clamped at 100; the
      watermark becomes the result's count; nothing else moves. */
  lemma AcceptedRep(s: WorkoutState, r: ExerciseResult, nowMs: int)
    requires Valid(s) && Accepts(s, r)
    ensures var t := ResultHandled(s, r, nowMs);
      var gain := EnergyGain(r.isCorrectForm, r.repCount, s.lastRepTime, nowMs);
      && t.lastRepCount == r.repCount && t.lastRepTime == Some(nowMs)
      && t.goose.energyLevel == (if s.goose.energyLevel + gain > 100 then 100 else s.goose.energyLevel + gain)
      && (t.goose.energyLevel > s.goose.energyLevel || s.goose.energyLevel == 100)
      && t.goose.mood == MoodAfterRep(t.goose.energyLevel, r.isCorrectForm)
      && (s.session.None? <==> t.session.None?)
      && (s.session.Some? ==>
            t.session.value.exercises == s.session.value.exercises + [r]
            && t.session.value.totalReps == r.repCount
            && t.session.value.gooseEnergyLevel == s.goose.energyLevel
            && t.session.value.startTime == s.session.value.startTime
            && t.session.value.id == s.session.value.id
            && t.session.value.endTime == s.session.value.endTime
            && t.session.value.duration == s.session.value.duration)
      && t.latest == Some(r)
      && t.isWorkoutActive == s.isWorkoutActive && t.currentExercise == s.currentExercise
      && t.sessionStartTime == s.sessionStartTime
      && t.goose.sessionActive == s.goose.sessionActive
      && t.goose.currentExercise == s.goose.currentExercise
  {
  }

  /** De-duplication: the same result handled a second time changes
      nothing, however much later it arrives. */
  lemma ResultHandledTwice(s: WorkoutState, r: ExerciseResult, t1: int, t2: int)
    ensures ResultHandled(ResultHandled(s, r, t1), r, t2) == ResultHandled(s, r, t1)
  {
  }

  /** The sequence of results one frame stream delivers, with their arrival
      times. */
  function Feed(s: WorkoutState, results: seq<ExerciseResult>, times: seq<int>): WorkoutState
    requires |results| == |times|
    decreases |results|
  {
    if results == [] then s else Feed(ResultHandled(s, results[0], times[0]), results[1..], times[1..])
  }

  /** Over any stream of results the invariant holds, the watermark never
      falls, and the session grows by at most one entry per result. */
  lemma {:induction false} FeedInvariant(s: WorkoutState, results: seq<ExerciseResult>, times: seq<int>)
    requires |results| == |times| && Valid(s)
    ensures Valid(Feed(s, results, times))
    ensures Feed(s, results, times).lastRepCount >= s.lastRepCount
    ensures s.session.Some? && Feed(s, results, times).session.Some? ==>
            |Feed(s, results, times).session.value.exercises| <= |s.session.value.exercises| + |results|
    ensures s.session.None? ==> Feed(s, results, times).session.None?
    decreases |results|
  {
    if results != [] {
      var next := ResultHandled(s, results[0], times[0]);
      FeedInvariant(next, results[1..], times[1..]);
    }
  }

  /** Repeating one result any number of times mutates the state once. */
  lemma {:induction false} FeedRepeated(s: WorkoutState, r: ExerciseResult, times: seq<int>)
    requires |times| > 0
    ensures Feed(s, seq(|times|, _ => r), times) == ResultHandled(s, r, times[0])
    decreases |times|
  {
    var rs := seq(|times|, _ => r);
    var first := ResultHandled(s, r, times[0]);
    if |times| > 1 {
      FeedRepeated(first, r, times[1..]);
      assert rs[1..] == seq(|times[1..]|, _ => r);
      ResultHandledTwice(s, r, times[0], times[1]);
      assert Feed(s, rs, times) == Feed(first, rs[1..], times[1..]);
    } else {
      assert rs[1..] == [];
    }
  }

  /** The spoken coaching calls a new rep triggers while the workout runs. */
  datatype CoachingCall =
    | CelebrateCall(repCount: int)
    | EncourageCall
    | PraiseCall(exercise: ExerciseType)
    | CorrectCall(tip: Option<string>)

  /** The coaching call for a new rep: good form is celebrated on every
      tenth rep, encouraged on every fifth and praised otherwise; poor form
      is corrected with the result's first tip. */
  function CoachingFor(r: ExerciseResult): (c: CoachingCall)
    ensures c.CorrectCall? <==> !r.isCorrectForm
    ensures c.CelebrateCall? ==> c.repCount == r.repCount && r.repCount % 10 == 0
    ensures c.EncourageCall? ==> r.repCount % 10 != 0 && r.repCount % 5 == 0
    ensures c.CorrectCall? ==> c.tip == FirstTip(r)
    ensures c.PraiseCall? ==> c.exercise == r.exerciseType && r.repCount % 5 != 0
  {
    if r.isCorrectForm then
      if r.repCount % 10 == 0 then CelebrateCall(r.repCount)
      else if r.repCount % 5 == 0 then EncourageCall
      else PraiseCall(r.exerciseType)
    else CorrectCall(FirstTip(r))
  }

  /** Only a new rep during an active workout gets a coaching call. */
  function Coaching(s: WorkoutState, r: ExerciseResult): (c: Option<CoachingCall>)
    ensures c.Some? <==> Accepts(s, r) && s.isWorkoutActive
  {
    if Accepts(s, r) && s.isWorkoutActive then Some(CoachingFor(r)) else None
  }

  /** What the voice service is asked to say for a coaching call. */
  function CoachingUtterances(c: Option<CoachingCall>, pick: nat): (u: seq<Utterance>)
    ensures |u| <= 1
    ensures c.None? ==> u == []
    ensures c.Some? && (c.value.CelebrateCall? || c.value.CorrectCall?) ==> |u| == 1 && u[0].priority == High
    ensures c.Some? && c.value.EncourageCall? ==> |u| == 1 && u[0].priority == Medium && u[0].message in EncouragementLibrary
    ensures c.Some? && c.value.PraiseCall? ==> (u == [] <==> ExerciseFeedback(c.value.exercise).None?)
  {
    match c
    case None => []
    case Some(CelebrateCall(n)) => [Utterance(CelebrationMessage(n, pick), High)]
    case Some(EncourageCall) => [Utterance(Pick(EncouragementLibrary, pick), Medium)]
    case Some(PraiseCall(e)) =>
      (match ExerciseFeedback(e)
       case Some(lines) => [Utterance(Pick(lines.good, pick), Medium)]
       case None => [])
    case Some(CorrectCall(tip)) => [Utterance(CorrectionMessage(tip, pick), High)]
  }

  // ---------------------------------------------------------------------
  // Decay
  // ---------------------------------------------------------------------

  /** One tick of the ten-second decay timer, which runs only while the
      workout is active; only the energy moves. */
  function Decayed(s: WorkoutState): (t: WorkoutState)
    ensures Valid(s) ==> Valid(t)
    ensures !s.isWorkoutActive ==> t == s
    ensures s.isWorkoutActive ==>
      t == s.(goose := s.goose.(energyLevel := if s.goose.energyLevel - 1 < 0 then 0 else s.goose.energyLevel - 1))
  {
    if s.isWorkoutActive then s.(goose := s.goose.(energyLevel := DecayEnergy(s.goose.energyLevel))) else s
  }

  function DecayTimes(s: WorkoutState, n: nat): WorkoutState
    decreases n
  {
    if n == 0 then s else DecayTimes(Decayed(s), n - 1)
  }

  /** n ticks during an active workout take n points off, down to zero, and
      leave the mood alone. */
  lemma {:induction false} DecayTimesEnergy(s: WorkoutState, n: nat)
    requires Valid(s) && s.isWorkoutActive
    ensures Valid(DecayTimes(s, n))
    ensures DecayTimes(s, n).goose.energyLevel == if s.goose.energyLevel >= n then s.goose.energyLevel - n else 0
    ensures DecayTimes(s, n) == s.(goose := s.goose.(energyLevel := DecayTimes(s, n).goose.energyLevel))
    decreases n
  {
    if n > 0 {
      DecayTimesEnergy(Decayed(s), n - 1);
    }
  }

  // ---------------------------------------------------------------------
  // Voice commands
  // ---------------------------------------------------------------------

  /** `handleVoiceCommand`: start, pause, stop, or change to the command's
      exercise when it names one; anything else is ignored. */
  function CommandHandled(s: WorkoutState, cmd: VoiceCommand, nowMs: int): (t: WorkoutState)
    ensures Valid(s) ==> Valid(t)
    ensures t.lastRepCount == s.lastRepCount && t.lastRepTime == s.lastRepTime
  {
    match cmd.action
    case StartWorkoutAction => Started(s, nowMs)
    case PauseWorkoutAction => Paused(s)
    case StopWorkoutAction => Stopped(s)
    case ChangeExerciseAction => if cmd.exercise.Some? then ExerciseChanged(s, cmd.exercise.value) else s
    case RepeatInstructionAction => s
  }

  /** What the voice service is asked to say for a command. */
  function CommandUtterances(s: WorkoutState, cmd: VoiceCommand, nowMs: int, pick: nat): (u: seq<Utterance>)
    ensures |u| <= 2
    ensures forall i :: 0 <= i < |u| ==> u[i].priority == (if cmd.action.PauseWorkoutAction? then Medium else High)
    ensures cmd.action.StartWorkoutAction? ==> |u| == 2 && u[0].message in StartWorkoutMessages
    ensures cmd.action.StopWorkoutAction? ==> (u != [] <==> StopDuration(s, nowMs).Some?)
    ensures cmd.action.RepeatInstructionAction? ==> u == []
  {
    match cmd.action
    case StartWorkoutAction =>
      [Utterance(Pick(StartWorkoutMessages, pick), High), Utterance(InstructionMessage(s.currentExercise), High)]
    case PauseWorkoutAction => [Utterance(PauseMessage, Medium)]
    case StopWorkoutAction =>
      (match StopDuration(s, nowMs)
       case Some(d) => [Utterance(EndWorkoutMessage(s.session.value.totalReps, d), High)]
       case None => [])
    case ChangeExerciseAction =>
      if cmd.exercise.Some? then [Utterance(InstructionMessage(cmd.exercise.value), High)] else []
    case RepeatInstructionAction => []
  }

  /** Whether the recogniser listens after a command: starting turns it on,
      pausing (and stopping a recorded session) turns it off, when a
      recogniser exists. */
  function ListeningAfterCommand(s: WorkoutState, cmd: VoiceCommand, nowMs: int,
                                 listening: bool, hasRecognition: bool): (on: bool)
    ensures !hasRecognition ==> on == listening
    ensures hasRecognition && cmd.action.StartWorkoutAction? ==> on
    ensures hasRecognition && cmd.action.PauseWorkoutAction? ==> !on
    ensures cmd.action.ChangeExerciseAction? || cmd.action.RepeatInstructionAction? ==> on == listening
  {
    match cmd.action
    case StartWorkoutAction => listening || hasRecognition
    case PauseWorkoutAction => listening && !hasRecognition
    case StopWorkoutAction => if StopDuration(s, nowMs).Some? then listening && !hasRecognition else listening
    case _ => listening
  }

  /** Because "stop" is parsed as a pause, nothing said to the recogniser
      can end a session: a session present before a spoken command is still
      present after it. */
  lemma SpokenCommandKeepsSession(s: WorkoutState, transcript: string, nowMs: int)
    requires ParseCommand(transcript).Some?
    ensures s.session.Some? ==> CommandHandled(s, ParseCommand(transcript).value, nowMs).session.Some?
    ensures CommandHandled(s, ParseCommand(transcript).value, nowMs).goose.energyLevel
            in {10, s.goose.energyLevel}
  {
  }

  /** The rep watermark survives a change of exercise and a stop followed
      by a new start, so a result whose count does not exceed the old
      watermark (a classifier that restarted its count) is ignored in full. */
  lemma WatermarkOutlivesSession(s: WorkoutState, e: ExerciseType, r: ExerciseResult, nowMs: int, t: int)
    requires Valid(s) && r.repCount <= s.lastRepCount
    ensures var c := ExerciseChanged(s, e); ResultHandled(c, r, t) == c.(latest := Some(r))
    ensures var n := Started(Stopped(s), nowMs); ResultHandled(n, r, t) == n.(latest := Some(r))
  {
  }

  // ---------------------------------------------------------------------
  // A worked scenario
  // ---------------------------------------------------------------------

  function GoodRep(n: int): ExerciseResult {
    ExerciseResult(Squat, true, n, 0.8, "", [])
  }

  /** Ten good squats six seconds apart after a start at time 0: 50 points
      of base energy, 5 for the fifth rep and 10 for the tenth on top of the
      starting 10 give 75, and the mascot is excited. */
  lemma TenGoodReps()
    ensures var s0 := Started(Initial, 0);
      var s1 := ResultHandled(s0, GoodRep(1), 6000);
      var s2 := ResultHandled(s1, GoodRep(2), 12000);
      var s3 := ResultHandled(s2, GoodRep(3), 18000);
      var s4 := ResultHandled(s3, GoodRep(4), 24000);
      var s5 := ResultHandled(s4, GoodRep(5), 30000);
      var s6 := ResultHandled(s5, GoodRep(6), 36000);
      var s7 := ResultHandled(s6, GoodRep(7), 42000);
      var s8 := ResultHandled(s7, GoodRep(8), 48000);
      var s9 := ResultHandled(s8, GoodRep(9), 54000);
      var s10 := ResultHandled(s9, GoodRep(10), 60000);
      && s5.goose.energyLevel == 40
      && s10.goose.energyLevel == 75 && s10.goose.mood == Excited
      && s10.session.Some? && s10.session.value.totalReps == 10
      && |s10.session.value.exercises| == 10
  {
  }

  /** Two appends in a row append the pair. */
  lemma AppendPair<T>(s: seq<T>, a: T, b: T)
    ensures s + [a] + [b] == s + [a, b]
  {
  }

  // ---------------------------------------------------------------------
  // The hook as an object
  // ---------------------------------------------------------------------

  class WorkoutController {
    const voice: VoiceFeedbackService
    var isWorkoutActive: bool
    var currentExercise: ExerciseType
    var sessionData: Option<WorkoutSession>
    var latestExerciseResult: Option<ExerciseResult>
    var gooseState: GooseState
    var sessionStartTime: Option<int>
    var lastRepTime: Option<int>
    var lastRepCount: int

    function Snapshot(): WorkoutState
      reads this
    {
      WorkoutState(isWorkoutActive, currentExercise, sessionData, latestExerciseResult,
                   gooseState, sessionStartTime, lastRepTime, lastRepCount)
    }

    constructor (voice: VoiceFeedbackService)
      ensures this.voice == voice && Snapshot() == Initial
    {
      this.voice := voice;
      isWorkoutActive := false;
      currentExercise := Squat;
      sessionData := None;
      latestExerciseResult := None;
      gooseState := GooseState(0, Focused, Some(Squat), false);
      sessionStartTime := None;
      lastRepTime := None;
      lastRepCount := 0;
    }

    method StartWorkout(nowMs: int, pick: nat)
      modifies this, voice
      ensures Snapshot() == Started(old(Snapshot()), nowMs)
      ensures voice.spoken == old(voice.spoken)
        + [Utterance(Pick(StartWorkoutMessages, pick), High), Utterance(InstructionMessage(old(currentExercise)), High)]
      ensures voice.isListening == (old(voice.isListening) || voice.hasRecognition)
    {
      BeginSession(nowMs);
      ghost var said := voice.spoken;
      voice.StartWorkout(pick);
      voice.InstructExercise(currentExercise);
      AppendPair(said, Utterance(Pick(StartWorkoutMessages, pick), High), Utterance(InstructionMessage(currentExercise), High));
      voice.StartListening();
    }

    /** The state updates of `startWorkout`. */
    method BeginSession(nowMs: int)
      modifies this
      ensures Snapshot() == Started(old(Snapshot()), nowMs)
    {
      sessionStartTime := Some(nowMs);
      var newSession := WorkoutSession(IntToString(nowMs), nowMs, None, [], 0, 0, 0);
      sessionData := Some(newSession);
      isWorkoutActive := true;
      gooseState := gooseState.(sessionActive := true, mood := Excited, energyLevel := 10,
                                currentExercise := Some(currentExercise));
    }

    method PauseWorkout()
      modifies this, voice
      ensures Snapshot() == Paused(old(Snapshot()))
      ensures voice.spoken == old(voice.spoken) + [Utterance(PauseMessage, Medium)]
      ensures voice.isListening == (old(voice.isListening) && !voice.hasRecognition)
    {
      isWorkoutActive := false;
      gooseState := gooseState.(sessionActive := false, mood := Focused);
      voice.PauseWorkout();
      voice.StopListening();
    }

    method ResumeWorkout()
      modifies this, voice
      ensures Snapshot() == Resumed(old(Snapshot()))
      ensures voice.spoken == old(voice.spoken) + [Utterance(ResumeMessage, Medium)]
      ensures voice.isListening == (old(voice.isListening) || voice.hasRecognition)
    {
      isWorkoutActive := true;
      gooseState := gooseState.(sessionActive := true, mood := Encouraging);
      voice.ResumeWorkout();
      voice.StartListening();
    }

    /** Ends the workout; the summary is spoken only when a session and its
        start time exist. */
    method StopWorkout(nowMs: int)
      modifies this, voice
      ensures Snapshot() == Stopped(old(Snapshot()))
      ensures StopDuration(old(Snapshot()), nowMs).None? ==>
                voice.spoken == old(voice.spoken) && voice.isListening == old(voice.isListening)
      ensures StopDuration(old(Snapshot()), nowMs).Some? ==>
                voice.spoken == old(voice.spoken)
                  + [Utterance(EndWorkoutMessage(old(sessionData).value.totalReps,
                                                 StopDuration(old(Snapshot()), nowMs).value), High)]
      ensures StopDuration(old(Snapshot()), nowMs).Some? ==>
                voice.isListening == (old(voice.isListening) && !voice.hasRecognition)
    {
      ghost var before := Snapshot();
      if sessionData.Some? && sessionStartTime.Some? {
        var duration := (nowMs - sessionStartTime.value) / 1000;
        assert StopDuration(before, nowMs) == Some(duration);
        var finalSession := sessionData.value.(endTime := Some(nowMs), duration := duration);
        voice.EndWorkout(finalSession.totalReps, duration);
        voice.StopListening();
      } else {
        assert StopDuration(before, nowMs).None?;
      }
      isWorkoutActive := false;
      sessionData := None;
      gooseState := gooseState.(sessionActive := false, mood := Celebrating, energyLevel := 0);
    }

    method ChangeExercise(exercise: ExerciseType)
      modifies this, voice
      ensures Snapshot() == ExerciseChanged(old(Snapshot()), exercise)
      ensures voice.spoken == old(voice.spoken) + [Utterance(InstructionMessage(exercise), High)]
      ensures voice.isListening == old(voice.isListening)
    {
      currentExercise := exercise;
      gooseState := gooseState.(currentExercise := Some(exercise), mood := Focused);
      voice.InstructExercise(exercise);
    }

    method HandleExerciseResult(result: ExerciseResult, nowMs: int, pick: nat)
      modifies this, voice
      ensures Snapshot() == ResultHandled(old(Snapshot()), result, nowMs)
      ensures voice.spoken == old(voice.spoken) + CoachingUtterances(Coaching(old(Snapshot()), result), pick)
      ensures voice.isListening == old(voice.isListening)
    {
      latestExerciseResult := Some(result);
      if result.repCount > lastRepCount {
        RecordRep(result, nowMs);
        if isWorkoutActive {
          Coach(result, pick);
        }
      }
    }

    /** The state updates for a new rep, once the result has been recorded
        as the latest. */
    method RecordRep(result: ExerciseResult, nowMs: int)
      requires result.repCount > lastRepCount && latestExerciseResult == Some(result)
      modifies this
      ensures Snapshot() == ResultHandled(old(Snapshot()), result, nowMs)
    {
      var oldEnergy := gooseState.energyLevel;
      if sessionData.Some? {
        var sd := sessionData.value;
        sessionData := Some(sd.(exercises := sd.exercises + [result], totalReps := result.repCount,
                                gooseEnergyLevel := gooseState.energyLevel));
      }

      var energyGain := ComputeEnergyGain(result, nowMs);

      var newEnergyLevel := if 100 < oldEnergy + energyGain then 100 else oldEnergy + energyGain;
      var newMood := Encouraging;
      if newEnergyLevel >= 90 {
        newMood := Celebrating;
      } else if newEnergyLevel >= 70 {
        newMood := Excited;
      } else if result.isCorrectForm {
        newMood := Encouraging;
      } else {
        newMood := Focused;
      }
      gooseState := gooseState.(energyLevel := newEnergyLevel, mood := newMood);
      lastRepTime := Some(nowMs);
      lastRepCount := result.repCount;
    }

    /** The energy gain of a new rep, accumulated as the hook does. */
    method ComputeEnergyGain(result: ExerciseResult, nowMs: int) returns (energyGain: int)
      ensures energyGain == EnergyGain(result.isCorrectForm, result.repCount, lastRepTime, nowMs)
    {
      energyGain := 0;
      if result.isCorrectForm {
        energyGain := 5;
        if lastRepTime.Some? {
          var timeDiff := nowMs - lastRepTime.value;
          if timeDiff < 5000 {
            energyGain := energyGain + 2;
          }
        }
        if result.repCount % 10 == 0 {
          energyGain := energyGain + 10;
        } else if result.repCount % 5 == 0 {
          energyGain := energyGain + 5;
        }
      } else {
        energyGain := 1;
      }
    }

    /** The voice call for a new rep during an active workout. */
    method Coach(result: ExerciseResult, pick: nat)
      modifies voice
      ensures voice.spoken == old(voice.spoken) + CoachingUtterances(Some(CoachingFor(result)), pick)
      ensures voice.isListening == old(voice.isListening)
    {
      if result.isCorrectForm {
        if result.repCount % 10 == 0 {
          voice.Celebrate(result.repCount, pick);
        } else if result.repCount % 5 == 0 {
          voice.GiveEncouragement(pick);
        } else {
          voice.GiveExerciseSpecificFeedback(result.exerciseType, true, pick);
        }
      } else {
        voice.GiveCorrection(FirstTip(result), pick);
      }
    }

    /** The body of the decay interval, which exists only while the workout
        is active. */
    method DecayTick()
      modifies this
      ensures Snapshot() == Decayed(old(Snapshot()))
    {
      if isWorkoutActive {
        gooseState := gooseState.(energyLevel := if 0 > gooseState.energyLevel - 1 then 0 else gooseState.energyLevel - 1);
      }
    }

    method HandleVoiceCommand(command: VoiceCommand, nowMs: int, pick: nat)
      modifies this, voice
      ensures Snapshot() == CommandHandled(old(Snapshot()), command, nowMs)
      ensures voice.spoken == old(voice.spoken) + CommandUtterances(old(Snapshot()), command, nowMs, pick)
      ensures voice.isListening ==
              ListeningAfterCommand(old(Snapshot()), command, nowMs, old(voice.isListening), voice.hasRecognition)
    {
      match command.action
      case StartWorkoutAction =>
        StartWorkout(nowMs, pick);
      case PauseWorkoutAction =>
        PauseWorkout();
      case StopWorkoutAction =>
        StopWorkout(nowMs);
      case ChangeExerciseAction =>
        if command.exercise.Some? {
          ChangeExercise(command.exercise.value);
        }
      case RepeatInstructionAction =>
    }
  }
}
