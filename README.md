# FitGoose core, modelled in Dafny

FitGoose is a browser fitness trainer. A camera feeds pose landmarks to a rep
counter. A workout hook turns each new rep into a score called "energy", a
mood for the goose mascot and a spoken coaching line. A speech recogniser
turns phrases such as "start workout", "pause" or "squat" into commands. An
energy meter shows the score as colour, message and badge bands. The
application shell shows an `m:ss` session clock.

This project models that logic and proves the properties the code promises:

- `text.dfy`, module `Text`: the JavaScript string operations the app relies
  on. These are integer printing, `includes`, `toLowerCase`, `trim` and
  `padStart(2, '0')`.
- `fitness_types.dfy`, module `FitnessTypes`: the shared records. These are
  exercise, result, mascot state, session and voice command.
- `pose_detection.dfy`, module `PoseDetection`: the rep counter.
  - Each exercise has a two-phase hysteresis rule. A rep is counted on the
    edge from in position to out of position.
  - `Analyze` specifies one frame.
  - The class `PoseDetectionService` keeps the three mutable fields. Its
    methods are proved to follow `Analyze`.
- `voice_feedback.dfy`, module `VoiceFeedback`:
  - the first-match command parser;
  - the recogniser's result loop;
  - the message choices;
  - the class `VoiceFeedbackService`, which has the listening flag and a log
    of what it was asked to say.
- `workout.dfy`, module `Workout`: the workout hook.
  - Its state is the value `WorkoutState`, and each operation is a function
    on it.
  - The class `WorkoutController` holds the same state in fields and owns a
    `VoiceFeedbackService`. Its methods are proved to follow those functions
    and to make the voice calls the hook makes.
- `energy_meter.dfy`, module `EnergyMeter`: the meter's bands, the mascot
  emoji, the two pop-up conditions and the boost pop-up's timer effect.
- `app_view.dfy`, module `AppView`: the exercise selector, `formatTime` with
  its read-back, `getCurrentDuration`, and what the shell passes to the
  meter.

Inputs the code reads from the outside world become parameters:

- Wall-clock time is an integer millisecond `nowMs`.
- Each `Math.random` choice is a `pick: nat`, and the message chosen is
  `list[pick % |list|]`.
- A frame is its joint angles plus the five landmarks the jumping-jack rule
  reads.
- Whether the browser has a recogniser is the constant `hasRecognition`.

Speech output is the sequence `spoken` of (message, priority) pairs.

Some consequences of the code that the proofs make explicit:

- Ten good reps more than five seconds apart, after a start, end at energy
  75. Each good rep earns 5, the fifth rep also earns the five-rep bonus of
  5, and the tenth the ten-rep bonus of 10 (`Workout.TenGoodReps`).
- "stop" is parsed as a pause (`VoiceFeedback.StopMeansPause`). No phrase
  yields `stop_workout` or `repeat_instruction`, and the `VoiceCommand`
  action type has no resume action. So no spoken command can end a session
  (`Workout.SpokenCommandKeepsSession`).
- The rep watermark `lastRepCount` is never reset. Stopping and restarting,
  or changing exercise, leaves it in place. A result whose count does not
  exceed it is ignored (`Workout.WatermarkOutlivesSession`). So reps of a
  classifier that restarted from zero are lost until they pass the old count.
- The "+Energy!" pop-up can stay on screen for good: see "## Findings".

## Model

| member | source | states |
|---|---|---|
| PoseDetection.Analyze | app/src/services/poseDetection.ts:105-122 | the exercise is kept and reported, the result's count is the new state's count; plank and lunge leave the state alone with form false |
| PoseDetection.SquatStep | app/src/services/poseDetection.ts:124-173 | a squat result with confidence 0.8 and the new count; the in-position flag becomes the frame's squat verdict |
| PoseDetection.PushupStep | app/src/services/poseDetection.ts:175-218 | a push-up result with confidence 0.7 and the new count; the flag becomes the frame's push-up verdict |
| PoseDetection.JumpingJackStep | app/src/services/poseDetection.ts:220-252 | a jumping-jack result with confidence 0.6 and the new count; the flag becomes the frame's verdict, which is also the form |
| PoseDetection.FoldAngle | app/src/services/poseDetection.ts:256-262 | an angle in [0, 360) ends in [0, 180]: unchanged up to 180, reflected to 360 − a above |
| PoseDetection.Thresholds | app/src/services/poseDetection.ts:136-232 | squat: in position iff average knee angle < 120, good form iff 70 < average < 120; push-up: elbows with 120 and 60/120; jumping jack: both wrists above the nose and ankles more than 0.3 apart |
| PoseDetection.AnalyzeEdge | app/src/services/poseDetection.ts:145-243 | after a frame the in-position flag is that frame's verdict; the count rises by one exactly on an in-to-out edge; the result carries the new count and the exercise |
| PoseDetection.AnalyzeMonotone | app/src/services/poseDetection.ts:154-241 | one frame never lowers the count and raises it by at most one; the exercise is kept |
| PoseDetection.AnalyzeForm | app/src/services/poseDetection.ts:139-247 | the reported form is the exercise's form verdict; good form implies in position; for the jumping jack form equals the in-position verdict |
| PoseDetection.AnalyzeTips | app/src/services/poseDetection.ts:142-251 | tips only on entering the position: squat iff average < 70 (the depth tip), push-up iff form is off (the back tip), never for the jumping jack |
| PoseDetection.AnalyzeExitFeedback | app/src/services/poseDetection.ts:154-243 | on leaving the position the feedback names the new count; only the squat switches to the celebration text on every fifth rep |
| PoseDetection.AnalyzeQuietFrame | app/src/services/poseDetection.ts:142-251 | a frame that neither enters nor leaves gives empty feedback, no tips, and leaves the state unchanged |
| PoseDetection.AnalyzeConfidence | app/src/services/poseDetection.ts:105-249 | confidence 0.8, 0.7, 0.6; plank and lunge give form false, confidence 0, the current count, the "not implemented" text, and no state change |
| PoseDetection.RunCountsExits | app/src/services/poseDetection.ts:145-243 | over any stream of frames the count grows by exactly the number of in-to-out edges, and the flag ends at the last frame's verdict |
| PoseDetection.SameVerdictKeepsCount | app/src/services/poseDetection.ts:145-243 | frames repeating the current verdict never change the count |
| PoseDetection.SquatScenario | app/src/services/poseDetection.ts:124-173 | knee angles 150, 100, 150 count 0, 0, 1, with good form and "Great squat form!" at the bottom and "Rep 1 completed!" on the way up |
| PoseDetection.PoseDetectionService.constructor | app/src/services/poseDetection.ts:13-15 | starts at squat, count 0, not in position |
| PoseDetection.PoseDetectionService.SetExercise | app/src/services/poseDetection.ts:68-72 | sets the exercise and zeroes the count and the flag |
| PoseDetection.PoseDetectionService.ResetReps | app/src/services/poseDetection.ts:265-268 | zeroes the count and the flag, keeps the exercise |
| PoseDetection.PoseDetectionService.AnalyzeExercise | app/src/services/poseDetection.ts:105-122 | the new fields and the result are those `Analyze` gives for the old fields |
| PoseDetection.PoseDetectionService.AnalyzeSquat | app/src/services/poseDetection.ts:124-173 | the new fields and the result follow the squat rule |
| PoseDetection.PoseDetectionService.AnalyzePushup | app/src/services/poseDetection.ts:175-218 | the new fields and the result follow the push-up rule |
| PoseDetection.PoseDetectionService.AnalyzeJumpingJack | app/src/services/poseDetection.ts:220-252 | the new fields and the result follow the jumping-jack rule |
| Text.NatToString | app/src/App.tsx:39 | at least one digit, all digits, no leading zero, one digit exactly below 10 |
| Text.IntToString | app/src/hooks/useWorkout.ts:64 | non-empty, with a leading minus sign exactly for a negative number |
| Text.Contains | app/src/services/voiceFeedback.ts:103-125 | `includes`: some position of the string at which the phrase occurs; its edge cases are `ContainsBounds` |
| Text.ContainsBounds | app/src/services/voiceFeedback.ts:103-125 | `includes`: the empty string occurs in every string, and no string occurs in a shorter one |
| Text.LowerChar | app/src/services/voiceFeedback.ts:87 | A–Z move down by 32 to a–z; the Kelvin sign becomes 'k'; the result is never an ASCII capital |
| Text.ToLower | app/src/services/voiceFeedback.ts:87 | same length, each character mapped by `LowerChar` |
| Text.TrimUntouched | app/src/services/voiceFeedback.ts:87 | a string with no white space at either end is its own trim |
| Text.TrimLower | app/src/services/voiceFeedback.ts:87 | a lower-cased, trimmed transcript has no ASCII capital in it |
| Text.PadStart2 | app/src/App.tsx:39 | at least two characters; the input at the end, preceded only by zeros |
| Text.Trim | app/src/services/voiceFeedback.ts:87 | the result is a slice of the input with only whitespace cut off either end and no whitespace left at its ends |
| Text.ParseNatToString | app/src/App.tsx:39 | the decimal text of a number reads back as that number |
| VoiceFeedback.Normalize | app/src/services/voiceFeedback.ts:87 | the normalised transcript has no ASCII capital |
| VoiceFeedback.KelvinSignStarts | app/src/services/voiceFeedback.ts:87-104 | "start wor\u212Aout", with a Kelvin sign for the k, still starts the workout, as `toLowerCase` maps that sign to 'k' |
| VoiceFeedback.ParseCommand | app/src/services/voiceFeedback.ts:99-130 | no command iff no keyword occurs; a command carries the transcript; never stop or repeat; an exercise parameter iff it is a change of exercise |
| VoiceFeedback.ParseFirstMatch | app/src/services/voiceFeedback.ts:103-125 | the first matching keyword group decides: start, pause, squat, push-up, jumping jack |
| VoiceFeedback.StopMeansPause | app/src/services/voiceFeedback.ts:105-106 | "stop" is a pause command |
| VoiceFeedback.ResultCommandsSilent | app/src/services/voiceFeedback.ts:85-88 | a recognition result gives a command iff it is final and its lower-cased, trimmed transcript has a keyword |
| VoiceFeedback.ResultCommands | app/src/services/voiceFeedback.ts:86-88 | one recognition result gives at most one command |
| VoiceFeedback.CommandsOf | app/src/services/voiceFeedback.ts:84-91 | each result's commands, concatenated in order; its laws are `CommandsOfBound`, `CommandsOfAppend` and `CommandsOfSilent` |
| VoiceFeedback.CommandsOfBound | app/src/services/voiceFeedback.ts:85-90 | a list of results gives at most one command per result |
| VoiceFeedback.CommandsOfAppend | app/src/services/voiceFeedback.ts:85-90 | the commands of consecutive results concatenate |
| VoiceFeedback.CommandsOfSilent | app/src/services/voiceFeedback.ts:85-90 | results that are not final give no commands |
| VoiceFeedback.Pick | app/src/services/voiceFeedback.ts:207-210 | the chosen message is one of the list |
| VoiceFeedback.ExerciseFeedback | app/src/services/voiceFeedback.ts:51-67 | lines exist exactly for squat, push-up and jumping jack, each with non-empty good and correction lists |
| VoiceFeedback.CelebrationMessage | app/src/services/voiceFeedback.ts:178-190 | the mod-10 text, else the mod-5 text, else a library message |
| VoiceFeedback.InstructionMessage | app/src/services/voiceFeedback.ts:192-196 | the exercise's start line, or "Let's do some <name>s!" for plank and lunge |
| VoiceFeedback.CorrectionMessage | app/src/services/voiceFeedback.ts:173-176 | a non-empty tip is said as it is, otherwise a correction-library message |
| VoiceFeedback.Minutes | app/src/services/voiceFeedback.ts:239 | the whole minutes m of a duration d: 60m ≤ d < 60m + 60 |
| VoiceFeedback.EndWorkoutMessage | app/src/services/voiceFeedback.ts:238-240 | the summary is longer than its fixed text and begins with "Workout complete! You did " |
| VoiceFeedback.EndWorkoutMessageReadsBack | app/src/services/voiceFeedback.ts:238-240 | the summary is the opening, the rep count's digits, " reps in ", the whole minutes' digits and the closing, and both fields read back as their numbers |
| VoiceFeedback.VoiceFeedbackService.constructor | app/src/services/voiceFeedback.ts:69-73 | not listening, nothing said |
| VoiceFeedback.VoiceFeedbackService.OnResult | app/src/services/voiceFeedback.ts:84-91 | the loop from `resultIndex` yields the commands of exactly those results, in order |
| VoiceFeedback.VoiceFeedbackService.ResultOf | app/src/services/voiceFeedback.ts:86-88 | one result's commands: for a final result, the parse of its lower-cased, trimmed transcript |
| VoiceFeedback.VoiceFeedbackService.Speak | app/src/services/voiceFeedback.ts:132-162 | one utterance with its priority is appended |
| VoiceFeedback.VoiceFeedbackService.ProvideFeedback | app/src/services/voiceFeedback.ts:164-166 | says the feedback's message at its priority |
| VoiceFeedback.VoiceFeedbackService.GiveEncouragement | app/src/services/voiceFeedback.ts:168-171 | says an encouragement at medium priority |
| VoiceFeedback.VoiceFeedbackService.GiveCorrection | app/src/services/voiceFeedback.ts:173-176 | says the correction message at high priority |
| VoiceFeedback.VoiceFeedbackService.Celebrate | app/src/services/voiceFeedback.ts:178-190 | says the celebration message at high priority |
| VoiceFeedback.VoiceFeedbackService.InstructExercise | app/src/services/voiceFeedback.ts:192-196 | says the instruction at high priority |
| VoiceFeedback.VoiceFeedbackService.GiveExerciseSpecificFeedback | app/src/services/voiceFeedback.ts:198-205 | says nothing for plank and lunge, otherwise one good or correction line at medium priority |
| VoiceFeedback.VoiceFeedbackService.StartListening | app/src/services/voiceFeedback.ts:212-217 | listening afterwards iff listening before or a recogniser exists |
| VoiceFeedback.VoiceFeedbackService.StopListening | app/src/services/voiceFeedback.ts:219-224 | listening afterwards iff listening before and no recogniser exists |
| VoiceFeedback.VoiceFeedbackService.StartWorkout | app/src/services/voiceFeedback.ts:227-236 | says one of the four start messages at high priority |
| VoiceFeedback.VoiceFeedbackService.EndWorkout | app/src/services/voiceFeedback.ts:238-242 | says the summary with the reps and whole minutes at high priority |
| VoiceFeedback.VoiceFeedbackService.PauseWorkout | app/src/services/voiceFeedback.ts:244-246 | says the pause message at medium priority |
| VoiceFeedback.VoiceFeedbackService.ResumeWorkout | app/src/services/voiceFeedback.ts:248-250 | says the welcome-back message at medium priority |
| Workout.InitialValid | app/src/hooks/useWorkout.ts:12-26 | the initial state has energy 0, watermark 0 and a mascot in step with the hook |
| Workout.EnergyGain | app/src/hooks/useWorkout.ts:172-193 | the gain is between 1 and 17; 1 iff the form is poor; with good form at least 5, the streak bonus present iff the gap is under 5 s, at least 15 on every tenth rep, at most 7 off the fifth reps |
| Workout.AddEnergy | app/src/hooks/useWorkout.ts:196 | the sum clamped at 100; it grows while below 100 and stays non-negative |
| Workout.MoodAfterRep | app/src/hooks/useWorkout.ts:197-207 | celebrating iff ≥ 90, excited iff 70..89, otherwise encouraging iff the form was good, else focused |
| Workout.DecayEnergy | app/src/hooks/useWorkout.ts:242 | one point off, never below zero |
| Workout.Started | app/src/hooks/useWorkout.ts:60-80 | active, excited, energy 10, a fresh empty session stamped now; the watermark is kept; validity preserved |
| Workout.Paused | app/src/hooks/useWorkout.ts:91-93 | inactive and focused; energy, session, watermark, exercise, latest result and start time kept |
| Workout.Resumed | app/src/hooks/useWorkout.ts:102-104 | active and encouraging; energy, session, watermark, exercise, latest result and start time kept |
| Workout.Stopped | app/src/hooks/useWorkout.ts:113-137 | inactive, celebrating, energy 0, no session; watermark, exercise, latest result and start time kept |
| Workout.StopDuration | app/src/hooks/useWorkout.ts:114-116 | a duration exists iff a session and a start time exist, and it is the elapsed whole seconds |
| Workout.ExerciseChanged | app/src/hooks/useWorkout.ts:141-143 | the exercise is set on the hook and the mascot, the mood is focused; energy, activity, session and watermark kept |
| Workout.ResultHandled | app/src/hooks/useWorkout.ts:151-233 | the latest result is always recorded; a result that is not a new rep changes nothing else; the watermark never falls; validity preserved |
| Workout.AcceptedRep | app/src/hooks/useWorkout.ts:158-231 | a new rep appends to the session (if any), sets its total and records the energy before the rep in it, keeping its end time and duration; adds the clamped gain, sets the mood, records the result, moves the watermark and its time, and keeps the start time and everything else |
| Workout.ResultHandledTwice | app/src/hooks/useWorkout.ts:158-231 | the same result handled twice mutates once |
| Workout.FeedInvariant | app/src/hooks/useWorkout.ts:151-233 | along any stream of results validity holds, the watermark never falls, and the session grows by at most one entry per result |
| Workout.FeedRepeated | app/src/hooks/useWorkout.ts:158-231 | a result repeated any number of times acts once |
| Workout.CoachingFor | app/src/hooks/useWorkout.ts:217-227 | poor form: a correction with the first tip; good form: celebrate on tenth reps, encourage on other fifth reps, praise the exercise otherwise |
| Workout.Coaching | app/src/hooks/useWorkout.ts:216 | a coaching call is made iff the rep is new and the workout is active |
| Workout.CoachingUtterances | app/src/hooks/useWorkout.ts:216-227 | at most one utterance: none without a call; celebrations and corrections at high priority; an encouragement from the library at medium; a praise line exactly when the exercise has lines |
| Workout.Decayed | app/src/hooks/useWorkout.ts:236-247 | while active, a tick takes one point off down to zero and changes nothing else; while inactive nothing changes |
| Workout.DecayTimesEnergy | app/src/hooks/useWorkout.ts:239-244 | n ticks take n points off, down to zero, and touch nothing but the energy |
| Workout.CommandHandled | app/src/hooks/useWorkout.ts:40-57 | a command keeps validity and never touches the watermark |
| Workout.CommandUtterances | app/src/hooks/useWorkout.ts:40-147 | at most two utterances, medium for a pause and high otherwise; a start says a start message and the instruction; a stop speaks exactly when a duration exists; a repeat says nothing |
| Workout.ListeningAfterCommand | app/src/hooks/useWorkout.ts:40-147 | without a recogniser listening is unchanged; with one a start turns it on and a pause turns it off; changing exercise or repeating leaves it alone |
| Workout.SpokenCommandKeepsSession | app/src/hooks/useWorkout.ts:40-57 | a parsed spoken command never clears a session and leaves the energy at 10 or as it was |
| Workout.WatermarkOutlivesSession | app/src/hooks/useWorkout.ts:158 | after a change of exercise, or a stop and a new start, a result not above the old watermark is ignored |
| Workout.TenGoodReps | app/src/hooks/useWorkout.ts:172-207 | ten good reps six seconds apart after a start give energy 40 after five, 75 after ten, an excited mascot and a ten-entry session |
| Workout.WorkoutController.constructor | app/src/hooks/useWorkout.ts:12-26 | the fields hold the initial state |
| Workout.WorkoutController.StartWorkout | app/src/hooks/useWorkout.ts:60-88 | the fields become `Started`; the start message and the exercise instruction are said; listening starts |
| Workout.WorkoutController.BeginSession | app/src/hooks/useWorkout.ts:61-80 | the state updates of a start: the fields become `Started` |
| Workout.WorkoutController.PauseWorkout | app/src/hooks/useWorkout.ts:90-99 | the fields become `Paused`; the pause message is said; listening stops |
| Workout.WorkoutController.ResumeWorkout | app/src/hooks/useWorkout.ts:101-110 | the fields become `Resumed`; the welcome-back message is said; listening starts |
| Workout.WorkoutController.StopWorkout | app/src/hooks/useWorkout.ts:112-138 | the fields become `Stopped`; with a recorded session the summary is said and listening stops |
| Workout.WorkoutController.ChangeExercise | app/src/hooks/useWorkout.ts:140-148 | the fields become `ExerciseChanged`; the instruction is said |
| Workout.WorkoutController.HandleExerciseResult | app/src/hooks/useWorkout.ts:151-233 | the fields become `ResultHandled`; exactly the coaching call's utterance is said |
| Workout.WorkoutController.RecordRep | app/src/hooks/useWorkout.ts:161-231 | for a new rep whose result is already recorded as the latest, the fields become `ResultHandled` |
| Workout.WorkoutController.ComputeEnergyGain | app/src/hooks/useWorkout.ts:172-193 | the gain built up step by step equals `EnergyGain` for the stored last rep time |
| Workout.WorkoutController.Coach | app/src/hooks/useWorkout.ts:217-227 | says the utterance of the result's coaching call |
| Workout.WorkoutController.DecayTick | app/src/hooks/useWorkout.ts:239-244 | the fields become `Decayed` |
| Workout.WorkoutController.HandleVoiceCommand | app/src/hooks/useWorkout.ts:40-57 | the fields, the utterances and the listening flag are those of the dispatched operation |
| EnergyMeter.GooseEmoji | app/src/components/GooseEnergyMeter/GooseEnergyMeter.tsx:37-50 | every mood has a two-character face starting with the goose |
| EnergyMeter.GooseEmojiDistinct | app/src/components/GooseEnergyMeter/GooseEnergyMeter.tsx:37-50 | different moods have different faces |
| EnergyMeter.EnergyColor | app/src/components/GooseEnergyMeter/GooseEnergyMeter.tsx:52-58 | the colour is one of the five on the scale |
| EnergyMeter.EnergyColorBands | app/src/components/GooseEnergyMeter/GooseEnergyMeter.tsx:52-58 | on [0, 100) the colour's rank is the energy's 20-point band, capped at the top; more energy never gives a lower colour |
| EnergyMeter.EnergyMessage | app/src/components/GooseEnergyMeter/GooseEnergyMeter.tsx:60-67 | one of the six messages; "Let's Begin!" iff below 10; "MAXIMUM POWER!" iff at least 90 |
| EnergyMeter.EnergyMessageBands | app/src/components/GooseEnergyMeter/GooseEnergyMeter.tsx:60-67 | below 90 the message's rank is 0 under 10 and otherwise the 20-point band counted from 10; from 90 up the top message |
| EnergyMeter.EnergyMessageMonotone | app/src/components/GooseEnergyMeter/GooseEnergyMeter.tsx:60-67 | more energy never gives a lower message |
| EnergyMeter.LevelBadgeIndex | app/src/components/GooseEnergyMeter/GooseEnergyMeter.tsx:69-72 | the index is at most 4, non-negative for non-negative energy, 4 from 80 up, and otherwise the energy's 20-point band |
| EnergyMeter.LevelBadge | app/src/components/GooseEnergyMeter/GooseEnergyMeter.tsx:69-73 | a badge exists iff the energy is non-negative; the crown at 100 |
| EnergyMeter.LevelBadgeMonotone | app/src/components/GooseEnergyMeter/GooseEnergyMeter.tsx:69-73 | more energy never gives a lower badge |
| EnergyMeter.ShowBoost | app/src/components/GooseEnergyMeter/GooseEnergyMeter.tsx:30 | the pop-up is switched on only with good form after at least one rep |
| EnergyMeter.BoostTimerFires | app/src/components/GooseEnergyMeter/GooseEnergyMeter.tsx:32 | a pending timer hides the pop-up; with no timer nothing changes |
| EnergyMeter.BoostEffect | app/src/components/GooseEnergyMeter/GooseEnergyMeter.tsx:29-35 | as written: when the condition holds the pop-up shows with a timer; otherwise the timer is cancelled and the pop-up stays as it was |
| EnergyMeter.BoostEffectSticks | app/src/components/GooseEnergyMeter/GooseEnergyMeter.tsx:29-35 | a good rep then a poor-form frame (or a reset of the rep count) leaves the pop-up on with no timer, and no timer firing hides it |
| EnergyMeter.BoostEffectFixed | app/src/components/GooseEnergyMeter/GooseEnergyMeter.tsx:29-35 | corrected: the pop-up shows exactly while the condition holds, and a pop-up on screen always has a timer |
| EnergyMeter.BoostFixedAlwaysHides | app/src/components/GooseEnergyMeter/GooseEnergyMeter.tsx:29-35 | corrected: the effect and the timer keep "on screen implies a timer", and the timer after the effect always hides the pop-up |
| EnergyMeter.ShowAchievement | app/src/components/GooseEnergyMeter/GooseEnergyMeter.tsx:129 | the notice shows only at 100 or more, and then with the crown badge and the top message |
| AppView.SelectorOffersImplemented | app/src/App.tsx:24 | the selector offers exactly the exercises that have an analyzer, never plank or lunge |
| AppView.JsRemainder | app/src/App.tsx:38 | the remainder differs from the dividend by a multiple of the divisor, is in [0, b) for a non-negative dividend and in (−b, 0] for a negative one |
| AppView.FormatTime | app/src/App.tsx:36-40 | at least four characters, starting with a minus sign exactly for a negative time |
| AppView.TimeFields | app/src/App.tsx:37-38 | for s ≥ 0: 0 ≤ secs < 60 and 60·mins + secs = s |
| AppView.FormatTimeFields | app/src/App.tsx:36-40 | for s ≥ 0 the text is the minutes, a colon and the padded seconds |
| AppView.ClockTextShape | app/src/App.tsx:39 | the seconds field is exactly two digits after the colon |
| AppView.ClockTextRoundTrip | app/src/App.tsx:39 | the clock text reads back as its minutes and seconds |
| AppView.FormatTimeRoundTrip | app/src/App.tsx:36-40 | reading `formatTime(s)` back gives s for every s ≥ 0 |
| AppView.FormatTimeNegative | app/src/App.tsx:36-40 | −5 seconds prints as "-1:-5", as in JavaScript |
| AppView.GetCurrentDuration | app/src/App.tsx:42-45 | "0:00" without a session |
| AppView.CurrentDurationReadsBack | app/src/App.tsx:42-45 | with a session and a clock reading at or after its start, the text reads back as the elapsed whole seconds |
| AppView.MeterReps | app/src/App.tsx:126 | the session's total with 0 as the fallback: zero exactly without a session or with zero reps, otherwise the session's total |
| AppView.MeterForm | app/src/App.tsx:127 | poor form is shown exactly when a latest result exists and says so |
| AppView.MeterOfValidState | app/src/App.tsx:123-127 | in every reachable state the meter has a badge and the achievement shows iff energy is 100; without a session the boost condition is false, so the corrected effect hides the pop-up |

## Left out

- `calculateAngle`'s `atan2` and `Math.PI` step is floating point. The
  analyzers take the joint angles as inputs. Only the last step of
  `calculateAngle`, the fold into [0, 180], is modelled, on its own
  (`FoldAngle`).
- MediaPipe `Pose`, the camera, canvas drawing and `onPoseResults` are not
  modelled. They are foreign SDK and canvas calls.
- `app/src/components/Camera/Camera.tsx` is not part of this model. It holds
  camera access, timeouts, the random demo mode and rendering.
- Speech output is not modelled beyond a log of (message, priority) pairs.
  This covers cancelling on high priority, voice selection, rate, pitch and
  volume, which are browser I/O.
- Recogniser set-up and `onerror` are replaced by the `hasRecognition`
  constant. `start()` and `stop()` are replaced by the `isListening` flag.
- `Math.random` choices are the `pick` parameter. The model says which list
  the message comes from, not how it is drawn.
- React effects, `setInterval` and `Date.now()` are not modelled directly.
  Decay is the explicit `DecayTick` method, and time is `nowMs`.
- Stale React closures are not modelled; state updates apply in order to the
  current state:
  - `handleVoiceCommand`, bound once at mount, sees the first render's state;
  - `handleExerciseResult` reads `sessionData` and `gooseState` from its
    render.
- The voice service reference is not modelled as null during the first
  render. The controller always owns a service.
- The meter's `animatedEnergy` 100 ms delay, `Math.round` for the percentage
  and the CSS are not modelled. The meter functions take the energy level
  itself.
- EnergyMeter.ShowBoost: only the condition that switches the pop-up on, not
  whether the pop-up is on screen. Once shown, the pop-up can stay on with no
  session; its life is modelled by `BoostEffect` and `BoostTimerFires`, with
  timer firings as explicit steps rather than clock time.
- The recogniser callback's absence in `processVoiceCommand`
  (voiceFeedback.ts:127) is not modelled. The controller always receives the
  parsed command.
- Energy is an integer. Every change in the code is a whole number from 0 or
  10, so an integer is exact.
- Text.ToLower: only A–Z and the Kelvin sign (U+212A, which JavaScript
  lower-cases to 'k') are mapped. Every other character is left as it is,
  where `toLowerCase` maps other capitals: 'Ä' to 'ä', and U+0130 to the
  two characters "i̇". On such input the model's transcript, and its
  length, differ from JavaScript's.
- `WorkoutSession.startTime` and `endTime` are integer milliseconds, not
  `Date` objects. `id` is the decimal text of the start time.

## Findings

| source | as written | input that shows it | evidently intended | confidence | as-written member | corrected member |
|---|---|---|---|---|---|---|
| app/src/components/GooseEnergyMeter/GooseEnergyMeter.tsx:29-35 | when the effect re-runs with the condition false, the cleanup cancels the hiding timer and nothing hides the pop-up | `isCorrectForm` true with `currentRep` 1, then `isCorrectForm` false within the second (or a stop that resets `currentRep` to 0) | the pop-up shows for about one second after a good rep | not executed | EnergyMeter.BoostEffectSticks | EnergyMeter.BoostFixedAlwaysHides |
