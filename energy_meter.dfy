/** The display bands of the mascot's energy meter (`GooseEnergyMeter`):
    the mood emoji, the bar colour, the status message, the level badge and
    the two pop-ups. The energy shown is the integer energy level. */
module EnergyMeter {
  import opened FitnessTypes

  const Goose := "\U{1F9A2}"

  /** The mascot's face for each mood. */
  function GooseEmoji(m: Mood): (r: string)
    ensures |r| == 2 && r[..1] == Goose
  {
    match m
    case Excited => Goose + "\U{2728}"
    case Celebrating => Goose + "\U{1F389}"
    case Encouraging => Goose + "\U{1F4AA}"
    case Focused => Goose + "\U{1F3AF}"
  }

  /** The four moods have four different faces. */
  lemma GooseEmojiDistinct(a: Mood, b: Mood)
    ensures a != b ==> GooseEmoji(a) != GooseEmoji(b)
  {
  }

  // ---------------------------------------------------------------------
  // Colour
  // ---------------------------------------------------------------------

  /** The bar colours from the lowest band to the highest: red, orange,
      yellow, light green, green. */
  const ColorScale: seq<string> := ["#F44336", "#FF9800", "#FFC107", "#8BC34A", "#4CAF50"]

  /** The bar colour: the first matching threshold of 80, 60, 40 and 20. */
  function EnergyColor(energy: int): (c: string)
    ensures c in ColorScale
  {
    if energy >= 80 then "#4CAF50"
    else if energy >= 60 then "#8BC34A"
    else if energy >= 40 then "#FFC107"
    else if energy >= 20 then "#FF9800"
    else "#F44336"
  }

  /** The position of a colour on the scale. */
  function ColorRank(c: string): (k: nat)
    requires c in ColorScale
    ensures k < |ColorScale| && ColorScale[k] == c
  {
    if c == ColorScale[0] then 0
    else if c == ColorScale[1] then 1
    else if c == ColorScale[2] then 2
    else if c == ColorScale[3] then 3
    else 4
  }

  /** The colour band is the energy's score band of width 20, capped at the
      top band, and more energy never shows a lower band. */
  lemma EnergyColorBands(e1: int, e2: int)
    ensures 0 <= e1 < 100 ==> ColorRank(EnergyColor(e1)) == if e1 / 20 < 4 then e1 / 20 else 4
    ensures e1 <= e2 ==> ColorRank(EnergyColor(e1)) <= ColorRank(EnergyColor(e2))
  {
  }

  // ---------------------------------------------------------------------
  // Message
  // ---------------------------------------------------------------------

  /** The status messages from the lowest band to the highest. */
  const MessageScale: seq<string> := [
    "Let's Begin! \U{1F680}", "Getting Started... \U{1F331}", "Building Up... \U{1F4C8}",
    "Good Energy! \U{26A1}", "HIGH ENERGY! \U{1F4A5}", "MAXIMUM POWER! \U{1F525}"]

  /** The status message: the first matching threshold of 90, 70, 50, 30
      and 10. */
  function EnergyMessage(energy: int): (m: string)
    ensures m in MessageScale
    ensures m == MessageScale[0] <==> energy < 10
    ensures m == MessageScale[5] <==> energy >= 90
  {
    if energy >= 90 then "MAXIMUM POWER! \U{1F525}"
    else if energy >= 70 then "HIGH ENERGY! \U{1F4A5}"
    else if energy >= 50 then "Good Energy! \U{26A1}"
    else if energy >= 30 then "Building Up... \U{1F4C8}"
    else if energy >= 10 then "Getting Started... \U{1F331}"
    else "Let's Begin! \U{1F680}"
  }

  function MessageRank(m: string): (k: nat)
    requires m in MessageScale
    ensures k < |MessageScale| && MessageScale[k] == m
  {
    if m == MessageScale[0] then 0
    else if m == MessageScale[1] then 1
    else if m == MessageScale[2] then 2
    else if m == MessageScale[3] then 3
    else if m == MessageScale[4] then 4
    else 5
  }

  /** The message band below 90 is the energy's 20-point band counted from
      10 (10, 30, 50, 70), with everything below 10 in the lowest band. */
  lemma EnergyMessageBands(e: int)
    ensures e < 90 ==> MessageRank(EnergyMessage(e)) == if e < 10 then 0 else (e + 10) / 20
    ensures e >= 90 ==> MessageRank(EnergyMessage(e)) == 5
  {
  }

  /** More energy never shows a lower message. */
  lemma EnergyMessageMonotone(e1: int, e2: int)
    requires e1 <= e2
    ensures MessageRank(EnergyMessage(e1)) <= MessageRank(EnergyMessage(e2))
  {
  }

  // ---------------------------------------------------------------------
  // Badge
  // ---------------------------------------------------------------------

  const Badges: seq<string> := ["\U{1F949}", "\U{1F948}", "\U{1F947}", "\U{1F3C6}", "\U{1F451}"]

  /** The badge index: one level per 20 points (`floor(e / 20) + 1`), read
      from a list of five with the last one for every higher level. */
  function LevelBadgeIndex(energy: int): (k: int)
    ensures k <= |Badges| - 1
    ensures energy >= 0 ==> 0 <= k
    ensures energy >= 80 ==> k == |Badges| - 1
    ensures energy < 80 ==> k * 20 <= energy < k * 20 + 20
  {
    var level := energy / 20 + 1;
    if level - 1 < |Badges| - 1 then level - 1 else |Badges| - 1
  }

  /** The badge shown; a negative energy would index before the list and
      show nothing. */
  function LevelBadge(energy: int): (b: Option<string>)
    ensures b.Some? <==> energy >= 0
    ensures energy >= 100 ==> b == Some("\U{1F451}")
  {
    var k := LevelBadgeIndex(energy);
    if k < 0 then None else Some(Badges[k])
  }

  /** More energy never shows a lower badge. */
  lemma LevelBadgeMonotone(e1: int, e2: int)
    requires e1 <= e2
    ensures LevelBadgeIndex(e1) <= LevelBadgeIndex(e2)
  {
  }

  // ---------------------------------------------------------------------
  // Pop-ups
  // ---------------------------------------------------------------------

  /** The condition under which the "+Energy!" pop-up is switched on: good
      form after at least one rep. */
  predicate ShowBoost(isCorrectForm: bool, currentRep: int): (on: bool)
    ensures on ==> isCorrectForm && currentRep >= 1
    ensures !isCorrectForm || currentRep <= 0 ==> !on
  {
    isCorrectForm && currentRep > 0
  }

  /** The pop-up's state: whether it is on screen, and whether the
      one-second timer that hides it is pending. */
  datatype BoostPopup = BoostPopup(showing: bool, timerPending: bool)

  const BoostHidden := BoostPopup(false, false)

  /** A pop-up on screen always has a pending timer that will hide it. */
  predicate BoostWillHide(p: BoostPopup) {
    p.showing ==> p.timerPending
  }

  /** The one-second timer fires: a pending timer hides the pop-up. */
  function BoostTimerFires(p: BoostPopup): (q: BoostPopup)
    ensures p.timerPending ==> q == BoostHidden
    ensures !p.timerPending ==> q == p
  {
    if p.timerPending then BoostHidden else p
  }

  /** The boost effect as written, run when `currentRep` or `isCorrectForm`
      changes: the previous run's cleanup cancels its timer; the new run
      shows the pop-up and starts a timer when the condition holds, and
      otherwise does nothing, so a pop-up already on screen stays on. */
  function BoostEffect(p: BoostPopup, isCorrectForm: bool, currentRep: int): (q: BoostPopup)
    ensures ShowBoost(isCorrectForm, currentRep) ==> q == BoostPopup(true, true)
    ensures !ShowBoost(isCorrectForm, currentRep) ==> !q.timerPending && q.showing == p.showing
  {
    if ShowBoost(isCorrectForm, currentRep) then BoostPopup(true, true)
    else BoostPopup(p.showing, false)
  }

  /** As written, the pop-up can stay on for good: a good rep shows it, and
      a poor-form frame (or a reset of the rep count) within the second
      cancels the timer without hiding it; the timer then never fires. */
  lemma BoostEffectSticks()
    ensures var shown := BoostEffect(BoostHidden, true, 1);
      var after := BoostEffect(shown, false, 1);
      && shown.showing && BoostWillHide(shown)
      && after.showing && !BoostWillHide(after)
      && BoostTimerFires(after) == after
    ensures BoostEffect(BoostEffect(BoostHidden, true, 3), true, 0).showing
  {
  }

  /** The boost effect as evidently intended: when the condition no longer
      holds, the pop-up is hidden along with its cancelled timer. */
  function BoostEffectFixed(p: BoostPopup, isCorrectForm: bool, currentRep: int): (q: BoostPopup)
    ensures q.showing <==> ShowBoost(isCorrectForm, currentRep)
    ensures BoostWillHide(q)
  {
    if ShowBoost(isCorrectForm, currentRep) then BoostPopup(true, true)
    else BoostHidden
  }

  /** With the corrected effect, every pop-up on screen is hidden by the
      next timer or the next effect run whose condition fails, whatever
      sequence of prop changes and timer firings happens. */
  lemma BoostFixedAlwaysHides(p: BoostPopup, isCorrectForm: bool, currentRep: int)
    requires BoostWillHide(p)
    ensures BoostWillHide(BoostTimerFires(p))
    ensures BoostWillHide(BoostEffectFixed(p, isCorrectForm, currentRep))
    ensures !BoostTimerFires(BoostEffectFixed(p, isCorrectForm, currentRep)).showing
  {
  }

  /** The "MAXIMUM ENERGY ACHIEVED!" notice. */
  predicate ShowAchievement(energy: int): (on: bool)
    ensures on ==> LevelBadge(energy) == Some(Badges[4]) && EnergyMessage(energy) == MessageScale[5]
    ensures energy < 100 ==> !on
  {
    energy >= 100
  }
}
