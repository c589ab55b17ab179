/** The value types shared by the classifier, the workout hook, the voice
    service and the views (the application's `types/fitness.ts`). */
module FitnessTypes {

  datatype Option<T> = None | Some(value: T)

  /** The five declared exercises; only the first three have an analyzer. */
  datatype ExerciseType = Squat | Pushup | JumpingJack | Plank | Lunge

  /** The string literal the type uses for each exercise. */
  function ExerciseName(e: ExerciseType): string {
    match e
    case Squat => "squat"
    case Pushup => "pushup"
    case JumpingJack => "jumping_jack"
    case Plank => "plank"
    case Lunge => "lunge"
  }

  /** One frame's judgment. An absent `tips` array is the empty sequence. */
  datatype ExerciseResult = ExerciseResult(
    exerciseType: ExerciseType,
    isCorrectForm: bool,
    repCount: int,
    confidence: real,
    feedback: string,
    tips: seq<string>)

  /** The first tip, as `result.tips?.[0]` reads it. */
  function FirstTip(r: ExerciseResult): Option<string> {
    if |r.tips| > 0 then Some(r.tips[0]) else None
  }

  datatype Mood = Excited | Encouraging | Focused | Celebrating

  /** The mascot's state. The energy level is an integer: it starts at 0 or
      10 and only ever moves by whole steps. */
  datatype GooseState = GooseState(
    energyLevel: int,
    mood: Mood,
    currentExercise: Option<ExerciseType>,
    sessionActive: bool)

  /** An in-memory workout session; times are milliseconds since the epoch. */
  datatype WorkoutSession = WorkoutSession(
    id: string,
    startTime: int,
    endTime: Option<int>,
    exercises: seq<ExerciseResult>,
    totalReps: int,
    duration: int,
    gooseEnergyLevel: int)

  datatype Priority = Low | Medium | High

  datatype FeedbackKind = Encouragement | Correction | Celebration | Instruction

  datatype VoiceFeedback = VoiceFeedback(message: string, kind: FeedbackKind, priority: Priority)

  datatype VoiceAction =
    | StartWorkoutAction
    | PauseWorkoutAction
    | StopWorkoutAction
    | ChangeExerciseAction
    | RepeatInstructionAction

  /** A recognised command. Its `parameters` record only ever carries an
      `exercise` entry, which is kept as an optional exercise. */
  datatype VoiceCommand = VoiceCommand(command: string, action: VoiceAction, exercise: Option<ExerciseType>)

  /** The fire emoji that ends the milestone messages, as the
      application spells it: its UTF-8 bytes read as Windows-1252 characters. */
  const Fire := "\U{00F0}\U{0178}\U{201D}\U{00A5}"
}
