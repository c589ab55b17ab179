/** The coaching and command layer of `VoiceFeedbackService`: keyword
    matching from a recognised transcript to a `VoiceCommand`, the choice of
    the spoken message for each coaching call, and the listening flag.

    Speech output is modelled as a log of utterances (`spoken`) that each
    call to `Speak` extends; a `Math.random` pick from a message list is the
    parameter `pick`, and the message taken is the list's element at
    `pick % |list|`, so every element of the list is a possible choice. */
module VoiceFeedback {
  import opened FitnessTypes
  import opened Text

  // ---------------------------------------------------------------------
  // Voice commands
  // ---------------------------------------------------------------------

  /** The transcript as the recogniser handler passes it on: lower-cased and
      trimmed. */
  function Normalize(raw: string): (t: string)
    ensures NoUpper(t)
  {
    TrimLower(raw);
    Trim(ToLower(raw))
  }

  /** The phrases the command parser looks for. */
  const StartPhrase := "start workout"
  const BeginPhrase := "begin"
  const PausePhrase := "pause"
  const StopPhrase := "stop"
  const SquatPhrase := "squat"
  const PushUpPhrase := "push up"
  const PushupPhrase := "pushup"
  const JackPhrase := "jumping jack"

  predicate StartKeyword(t: string) { Contains(t, StartPhrase) || Contains(t, BeginPhrase) }
  predicate PauseKeyword(t: string) { Contains(t, PausePhrase) || Contains(t, StopPhrase) }
  predicate SquatKeyword(t: string) { Contains(t, SquatPhrase) }
  predicate PushupKeyword(t: string) { Contains(t, PushUpPhrase) || Contains(t, PushupPhrase) }
  predicate JackKeyword(t: string) { Contains(t, JackPhrase) }

  predicate AnyKeyword(t: string) {
    StartKeyword(t) || PauseKeyword(t) || SquatKeyword(t) || PushupKeyword(t) || JackKeyword(t)
  }

  /** `processVoiceCommand`: the first keyword group that matches decides the
      command. */
  function ParseCommand(t: string): (r: Option<VoiceCommand>)
    ensures r.None? <==> !AnyKeyword(t)
    ensures r.Some? ==> r.value.command == t
    ensures r.Some? ==> !r.value.action.StopWorkoutAction? && !r.value.action.RepeatInstructionAction?
    ensures r.Some? ==> (r.value.action.ChangeExerciseAction? <==> r.value.exercise.Some?)
  {
    if StartKeyword(t) then Some(VoiceCommand(t, StartWorkoutAction, None))
    else if PauseKeyword(t) then Some(VoiceCommand(t, PauseWorkoutAction, None))
    else if SquatKeyword(t) then Some(VoiceCommand(t, ChangeExerciseAction, Some(Squat)))
    else if PushupKeyword(t) then Some(VoiceCommand(t, ChangeExerciseAction, Some(Pushup)))
    else if JackKeyword(t) then Some(VoiceCommand(t, ChangeExerciseAction, Some(JumpingJack)))
    else None
  }

  /** The order of the keyword groups: each group wins over every later one,
      and "stop" pauses rather than ends the workout. */
  lemma ParseFirstMatch(t: string)
    ensures StartKeyword(t) ==> ParseCommand(t).Some? && ParseCommand(t).value.action == StartWorkoutAction
    ensures !StartKeyword(t) && PauseKeyword(t) ==>
            ParseCommand(t).Some? && ParseCommand(t).value.action == PauseWorkoutAction
    ensures !StartKeyword(t) && !PauseKeyword(t) && SquatKeyword(t) ==>
            ParseCommand(t) == Some(VoiceCommand(t, ChangeExerciseAction, Some(Squat)))
    ensures !StartKeyword(t) && !PauseKeyword(t) && !SquatKeyword(t) && PushupKeyword(t) ==>
            ParseCommand(t) == Some(VoiceCommand(t, ChangeExerciseAction, Some(Pushup)))
    ensures !StartKeyword(t) && !PauseKeyword(t) && !SquatKeyword(t) && !PushupKeyword(t) && JackKeyword(t) ==>
            ParseCommand(t) == Some(VoiceCommand(t, ChangeExerciseAction, Some(JumpingJack)))
  {
  }

  /** The spoken word "stop" on its own is taken as a pause. */
  lemma StopMeansPause()
    ensures ParseCommand("stop") == Some(VoiceCommand("stop", PauseWorkoutAction, None))
  {
    assert OccursAt("stop", "stop", 0);
    assert !Contains("stop", "start workout");
    assert !Contains("stop", "begin");
  }

  /** A capital Kelvin sign in a transcript reads as a `k`, as `toLowerCase`
      maps it, so "start wor\U{212A}out" starts the workout. */
  lemma KelvinSignStarts()
    ensures ParseCommand(Normalize("start wor\U{212A}out")).Some?
    ensures ParseCommand(Normalize("start wor\U{212A}out")).value.action == StartWorkoutAction
  {
    KelvinNormalized();
    StartWorkoutPhrase();
  }

  lemma StartWorkoutPhrase()
    ensures ParseCommand("start workout").Some?
    ensures ParseCommand("start workout").value.action == StartWorkoutAction
  {
    assert OccursAt("start workout", "start workout", 0);
  }

  lemma KelvinNormalized()
    ensures Normalize("start wor\U{212A}out") == "start workout"
  {
    KelvinLowerCase();
    TrimUntouched("start workout");
  }

  lemma KelvinLowerCase()
    ensures ToLower("start wor\U{212A}out") == "start workout"
  {
    var raw := "start wor\U{212A}out";
    var u := "start workout";
    forall i | 0 <= i < |u| ensures ToLower(raw)[i] == u[i] {
      if i == 9 {
        assert raw[i] == '\U{212A}';
      }
    }
  }

  /** One entry of the speech recogniser's result list: whether it is final
      and the transcript of its first alternative. */
  datatype RecognitionResult = RecognitionResult(isFinal: bool, transcript: string)

  /** The commands one recognition result yields: none for an interim
      result; otherwise the parse of the normalised transcript, if any. */
  function ResultCommands(r: RecognitionResult): (cs: seq<VoiceCommand>)
    ensures |cs| <= 1
  {
    if r.isFinal then
      match ParseCommand(Normalize(r.transcript))
      case Some(c) => [c]
      case None => []
    else []
  }

  /** A result yields a command exactly when it is final and its normalised
      transcript holds a keyword. */
  lemma ResultCommandsSilent(r: RecognitionResult)
    ensures ResultCommands(r) != [] <==> r.isFinal && AnyKeyword(Normalize(r.transcript))
  {
  }

  /** The lists `f` gives for the items of `xs`, concatenated in order. */
  function FlatMap<T, U>(xs: seq<T>, f: T -> seq<U>): seq<U>
    decreases |xs|
  {
    if xs == [] then [] else f(xs[0]) + FlatMap(xs[1..], f)
  }

  lemma {:induction false} FlatMapAppend<T, U>(a: seq<T>, b: seq<T>, f: T -> seq<U>)
    ensures FlatMap(a + b, f) == FlatMap(a, f) + FlatMap(b, f)
    decreases |a|
  {
    if a == [] {
      assert a + b == b;
    } else {
      var ab := a + b;
      assert ab[0] == a[0] && ab[1..] == a[1..] + b;
      FlatMapAppend(a[1..], b, f);
    }
  }

  lemma FlatMapStep<T, U>(xs: seq<T>, from: nat, i: nat, f: T -> seq<U>)
    requires from <= i < |xs|
    ensures FlatMap(xs[from..i + 1], f) == FlatMap(xs[from..i], f) + f(xs[i])
  {
    assert xs[from..i + 1] == xs[from..i] + [xs[i]];
    FlatMapAppend(xs[from..i], [xs[i]], f);
    assert FlatMap([xs[i]], f) == f(xs[i]) + FlatMap([], f);
  }

  /** The commands that a list of recognition results yields, in order. */
  function CommandsOf(results: seq<RecognitionResult>): seq<VoiceCommand> {
    FlatMap(results, ResultCommands)
  }

  /** The commands of consecutive results are those of each part in turn. */
  lemma CommandsOfAppend(a: seq<RecognitionResult>, b: seq<RecognitionResult>)
    ensures CommandsOf(a + b) == CommandsOf(a) + CommandsOf(b)
  {
    FlatMapAppend(a, b, ResultCommands);
  }

  /** Each result gives at most one command. */
  lemma {:induction false} CommandsOfBound(results: seq<RecognitionResult>)
    ensures |CommandsOf(results)| <= |results|
    decreases |results|
  {
    if results != [] {
      CommandsOfBound(results[1..]);
    }
  }

  /** Extending a slice of the results by one more element. */
  lemma CommandsOfStep(results: seq<RecognitionResult>, from: nat, i: nat)
    requires from <= i < |results|
    ensures CommandsOf(results[from..i + 1]) == CommandsOf(results[from..i]) + ResultCommands(results[i])
  {
    FlatMapStep(results, from, i, ResultCommands);
  }

  /** No interim result, and no final result without a keyword, produces a
      command. */
  lemma {:induction false} CommandsOfSilent(results: seq<RecognitionResult>)
    requires forall i :: 0 <= i < |results| ==>
               !results[i].isFinal || !AnyKeyword(Normalize(results[i].transcript))
    ensures CommandsOf(results) == []
    decreases |results|
  {
    if results != [] {
      ResultCommandsSilent(results[0]);
      CommandsOfSilent(results[1..]);
    }
  }

  // ---------------------------------------------------------------------
  // Message libraries
  // ---------------------------------------------------------------------


  const EncouragementLibrary: seq<string> := [
    "You're doing great!", "Keep it up!", "Nice form!", "Perfect!",
    "You've got this!", "Looking strong!", "Excellent work!", "Stay focused!"]

  const CorrectionLibrary: seq<string> := [
    "Try to go a little lower", "Keep your back straight", "Slow and controlled",
    "Focus on your form", "Remember to breathe", "Keep your core tight", "Full range of motion"]

  const CelebrationLibrary: seq<string> := [
    "That's 5 reps - you're crushing it!", "10 reps down! Amazing!", "Halfway there! Keep going!",
    "15 reps! You're on fire! " + Fire, "20 reps! Incredible work!",
    "You completed the set! Well done!", "New personal record! Fantastic!"]

  const StartWorkoutMessages: seq<string> := [
    "Let's get this workout started! You've got this!",
    "Time to sweat! I'm here to guide you every step!",
    "Ready to feel amazing? Let's begin!",
    "Your fitness journey continues now! Let's go!"]

  const PauseMessage := "Workout paused. Take your time, I'll be here when you're ready!"
  const ResumeMessage := "Welcome back! Let's pick up where we left off!"

  /** The element a random draw selects. */
  function Pick(messages: seq<string>, pick: nat): (m: string)
    requires |messages| > 0
    ensures m in messages
  {
    messages[pick % |messages|]
  }

  datatype ExerciseLines = ExerciseLines(start: string, good: seq<string>, correction: seq<string>)

  /** The exercise-specific lines; plank and lunge have none. */
  function ExerciseFeedback(e: ExerciseType): (r: Option<ExerciseLines>)
    ensures r.Some? <==> (e.Squat? || e.Pushup? || e.JumpingJack?)
    ensures r.Some? ==> |r.value.good| > 0 && |r.value.correction| > 0
  {
    match e
    case Squat => Some(ExerciseLines(
      "Let's do some squats! Stand with feet shoulder-width apart",
      ["Perfect squat!", "Great depth!", "Nice form!"],
      ["Go a bit lower", "Keep your chest up", "Don't let your knees cave in"]))
    case Pushup => Some(ExerciseLines(
      "Time for push-ups! Keep your body straight",
      ["Excellent push-up!", "Perfect form!", "Strong!"],
      ["Keep your back straight", "Go all the way down", "Control the movement"]))
    case JumpingJack => Some(ExerciseLines(
      "Let's do jumping jacks! Jump and spread your arms and legs",
      ["Great jumping jack!", "Perfect coordination!", "Keep the rhythm!"],
      ["Jump higher", "Spread your arms wider", "Land softly"]))
    case _ => None
  }

  /** Every tenth rep is also a fifth rep. */
  lemma TenthIsFifth(n: int)
    ensures n % 10 == 0 ==> n % 5 == 0
  {
    if n % 10 == 0 {
      var q := n / 10;
      assert n == 5 * (2 * q);
    }
  }

  /** The message of `celebrate(n)`: the count on every fifth rep (with a
      stronger line on every tenth), otherwise a line of the library. */
  function CelebrationMessage(n: int, pick: nat): (m: string)
    ensures n % 10 == 0 ==> m == IntToString(n) + " reps! You're absolutely crushing it! " + Fire
    ensures n % 10 != 0 && n % 5 == 0 ==> m == IntToString(n) + " reps! Keep that energy up!"
    ensures n % 5 != 0 ==> m in CelebrationLibrary
  {
    TenthIsFifth(n);
    if n % 10 == 0 then IntToString(n) + " reps! You're absolutely crushing it! " + Fire
    else if n % 5 == 0 then IntToString(n) + " reps! Keep that energy up!"
    else Pick(CelebrationLibrary, pick)
  }

  /** The instruction of `instructExercise`: the exercise's start line, or a
      generic line built from the exercise's name. */
  function InstructionMessage(e: ExerciseType): (m: string)
    ensures ExerciseFeedback(e).Some? ==> m == ExerciseFeedback(e).value.start
    ensures ExerciseFeedback(e).None? ==> m == "Let's do some " + ExerciseName(e) + "s!"
  {
    match ExerciseFeedback(e)
    case Some(lines) => lines.start
    case None => "Let's do some " + ExerciseName(e) + "s!"
  }

  /** The correction line: the given tip unless it is absent or empty. */
  function CorrectionMessage(tip: Option<string>, pick: nat): (m: string)
    ensures tip.Some? && tip.value != "" ==> m == tip.value
    ensures tip.None? || tip.value == "" ==> m in CorrectionLibrary
  {
    if tip.Some? && tip.value != "" then tip.value else Pick(CorrectionLibrary, pick)
  }

  /** Whole minutes of a duration in seconds, rounded down. */
  function Minutes(duration: int): (m: int)
    ensures m * 60 <= duration < m * 60 + 60
  {
    duration / 60
  }

  const EndOpening := "Workout complete! You did "
  const EndMiddle := " reps in "
  const EndClosing := " minutes. Outstanding work!"

  /** The end-of-workout summary: the rep count and the whole minutes. */
  function EndWorkoutMessage(totalReps: int, duration: int): (m: string)
    ensures |m| > |EndOpening| + |EndMiddle| + |EndClosing|
    ensures m[..|EndOpening|] == EndOpening
  {
    EndOpening + IntToString(totalReps) + EndMiddle + IntToString(Minutes(duration)) + EndClosing
  }

  /** The summary of a non-negative count and duration is the opening, the
      digits of the rep count, the middle, the digits of the whole minutes
      and the closing, and both digit fields read back as their numbers. */
  lemma EndWorkoutMessageReadsBack(totalReps: nat, duration: nat)
    ensures var reps := NatToString(totalReps);
      var mins := NatToString(duration / 60);
      && EndWorkoutMessage(totalReps, duration) == EndOpening + reps + EndMiddle + mins + EndClosing
      && ParseNat(reps) == totalReps && ParseNat(mins) == duration / 60
  {
    ParseNatToString(totalReps);
    ParseNatToString(duration / 60);
  }

  datatype Utterance = Utterance(message: string, priority: Priority)

  // ---------------------------------------------------------------------
  // The service object
  // ---------------------------------------------------------------------

  class VoiceFeedbackService {
    /** Whether the browser provides a speech recogniser. */
    const hasRecognition: bool
    var isListening: bool
    /** Everything handed to speech synthesis so far. */
    var spoken: seq<Utterance>

    constructor (hasRecognition: bool)
      ensures this.hasRecognition == hasRecognition
      ensures !isListening && spoken == []
    {
      this.hasRecognition := hasRecognition;
      isListening := false;
      spoken := [];
    }

    /** The recogniser's result handler: walks the results from
        `resultIndex` on and returns the commands, in order, that are passed
        to the command callback. */
    method OnResult(results: seq<RecognitionResult>, resultIndex: nat) returns (commands: seq<VoiceCommand>)
      ensures resultIndex >= |results| ==> commands == []
      ensures resultIndex < |results| ==> commands == CommandsOf(results[resultIndex..])
    {
      commands := [];
      if resultIndex >= |results| {
        return;
      }
      var i := resultIndex;
      while i < |results|
        invariant resultIndex <= i <= |results|
        invariant commands == CommandsOf(results[resultIndex..i])
        decreases |results| - i
      {
        var found := ResultOf(results[i]);
        CommandsOfStep(results, resultIndex, i);
        commands := commands + found;
        i := i + 1;
      }
      assert results[resultIndex..i] == results[resultIndex..];
    }

    /** The body of the result loop for one result: a final result's
        transcript is lower-cased, trimmed and parsed. */
    method ResultOf(r: RecognitionResult) returns (found: seq<VoiceCommand>)
      ensures found == ResultCommands(r)
    {
      found := [];
      if r.isFinal {
        var transcript := Trim(ToLower(r.transcript));
        var command := ParseCommand(transcript);
        if command.Some? {
          found := [command.value];
        }
      }
    }

    method Speak(message: string, priority: Priority)
      modifies this
      ensures spoken == old(spoken) + [Utterance(message, priority)]
      ensures isListening == old(isListening)
    {
      spoken := spoken + [Utterance(message, priority)];
    }

    method ProvideFeedback(feedback: VoiceFeedback)
      modifies this
      ensures spoken == old(spoken) + [Utterance(feedback.message, feedback.priority)]
      ensures isListening == old(isListening)
    {
      Speak(feedback.message, feedback.priority);
    }

    method GiveEncouragement(pick: nat)
      modifies this
      ensures spoken == old(spoken) + [Utterance(Pick(EncouragementLibrary, pick), Medium)]
      ensures isListening == old(isListening)
    {
      Speak(Pick(EncouragementLibrary, pick), Medium);
    }

    method GiveCorrection(tip: Option<string>, pick: nat)
      modifies this
      ensures spoken == old(spoken) + [Utterance(CorrectionMessage(tip, pick), High)]
      ensures isListening == old(isListening)
    {
      var message := if tip.Some? && tip.value != "" then tip.value else Pick(CorrectionLibrary, pick);
      Speak(message, High);
    }

    method Celebrate(repCount: int, pick: nat)
      modifies this
      ensures spoken == old(spoken) + [Utterance(CelebrationMessage(repCount, pick), High)]
      ensures isListening == old(isListening)
    {
      var message := "";
      if repCount % 10 == 0 {
        message := IntToString(repCount) + " reps! You're absolutely crushing it! " + Fire;
      } else if repCount % 5 == 0 {
        message := IntToString(repCount) + " reps! Keep that energy up!";
      } else {
        message := Pick(CelebrationLibrary, pick);
      }
      Speak(message, High);
    }

    method InstructExercise(exercise: ExerciseType)
      modifies this
      ensures spoken == old(spoken) + [Utterance(InstructionMessage(exercise), High)]
      ensures isListening == old(isListening)
    {
      var data := ExerciseFeedback(exercise);
      var instruction := if data.Some? then data.value.start else "Let's do some " + ExerciseName(exercise) + "s!";
      Speak(instruction, High);
    }

    /** Speaks a good or a corrective line for the exercise; nothing for an
        exercise without lines. */
    method GiveExerciseSpecificFeedback(exercise: ExerciseType, isGood: bool, pick: nat)
      modifies this
      ensures ExerciseFeedback(exercise).None? ==> spoken == old(spoken)
      ensures ExerciseFeedback(exercise).Some? ==>
        var lines := ExerciseFeedback(exercise).value;
        spoken == old(spoken) + [Utterance(Pick(if isGood then lines.good else lines.correction, pick), Medium)]
      ensures isListening == old(isListening)
    {
      var data := ExerciseFeedback(exercise);
      if data.None? {
        return;
      }
      var messages := if isGood then data.value.good else data.value.correction;
      Speak(messages[pick % |messages|], Medium);
    }

    method StartListening()
      modifies this
      ensures isListening == (old(isListening) || hasRecognition)
      ensures spoken == old(spoken)
    {
      if hasRecognition && !isListening {
        isListening := true;
      }
    }

    method StopListening()
      modifies this
      ensures isListening == (old(isListening) && !hasRecognition)
      ensures spoken == old(spoken)
    {
      if hasRecognition && isListening {
        isListening := false;
      }
    }

    method StartWorkout(pick: nat)
      modifies this
      ensures spoken == old(spoken) + [Utterance(Pick(StartWorkoutMessages, pick), High)]
      ensures isListening == old(isListening)
    {
      Speak(StartWorkoutMessages[pick % |StartWorkoutMessages|], High);
    }

    method EndWorkout(totalReps: int, duration: int)
      modifies this
      ensures spoken == old(spoken) + [Utterance(EndWorkoutMessage(totalReps, duration), High)]
      ensures isListening == old(isListening)
    {
      var minutes := duration / 60;
      var message := "Workout complete! You did " + IntToString(totalReps) + " reps in "
                     + IntToString(minutes) + " minutes. Outstanding work!";
      Speak(message, High);
    }

    method PauseWorkout()
      modifies this
      ensures spoken == old(spoken) + [Utterance(PauseMessage, Medium)]
      ensures isListening == old(isListening)
    {
      Speak(PauseMessage, Medium);
    }

    method ResumeWorkout()
      modifies this
      ensures spoken == old(spoken) + [Utterance(ResumeMessage, Medium)]
      ensures isListening == old(isListening)
    {
      Speak(ResumeMessage, Medium);
    }
  }
}
