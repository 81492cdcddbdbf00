/** What every loot-box renderer derives from its box's state: whether the
    trigger button is enabled, the button's label, and whether the reward
    text is shown. The eight renderers share these expressions and differ
    only in their two label texts. */
module Renderer {
  import opened Lifecycle

  /** The eight visual variants, in the order the page lays them out. */
  datatype Variant =
    | Spinning | Chest | CardFlip | SlotMachine
    | ParticleBurst | MultiStage | Shake | GlowPulse

  /** The label of the button of an idle box. */
  function OpenVerb(v: Variant): string
  {
    match v
    case Spinning => "Open Box"
    case Chest => "Open Chest"
    case CardFlip => "Flip Card"
    case SlotMachine => "Pull Lever"
    case ParticleBurst => "Burst Open"
    case MultiStage => "Unlock"
    case Shake => "Shake & Open"
    case GlowPulse => "Activate"
  }

  /** The label of the button while a box is in the middle of its sequence. */
  function ProgressLabel(v: Variant): string
  {
    match v
    case Spinning => "Opening..."
    case Chest => "Opening..."
    case CardFlip => "Flipping..."
    case SlotMachine => "Spinning..."
    case ParticleBurst => "Bursting..."
    case MultiStage => "Unlocking..."
    case Shake => "Shaking..."
    case GlowPulse => "Activating..."
  }

  const CLAIMED_LABEL: string := "Claimed"

  /** The `disabled` attribute of every variant's button. */
  predicate Disabled(s: AnimationState)
  {
    s != Idle && s != Claimed
  }

  /** The text of every variant's button. */
  function ButtonLabel(v: Variant, s: AnimationState): string
  {
    if s == Idle then OpenVerb(v)
    else if s == Claimed then CLAIMED_LABEL
    else ProgressLabel(v)
  }

  /** The reward paragraph is rendered only while revealing, and only for a
      truthy (non-empty) reward. */
  predicate ShowsReward(s: AnimationState, reward: string)
  {
    s == Revealing && reward != ""
  }

  /** The button is enabled exactly when the box is not in the middle of a
      sequence: it rests in idle or in claimed. */
  lemma EnabledWhenAtRest(s: AnimationState)
    ensures !Disabled(s) <==> s == Idle || s == Claimed
    ensures Disabled(s) <==> s in {Anticipation, Opening, Revealing}
  {
  }

  /** In every variant the label tells the three kinds of state apart: the
      open verb exactly when idle, "Claimed" exactly when claimed, the
      progress label exactly when the button is disabled. */
  lemma LabelIdentifiesState(v: Variant, s: AnimationState)
    ensures ButtonLabel(v, s) == OpenVerb(v) <==> s == Idle
    ensures ButtonLabel(v, s) == "Claimed" <==> s == Claimed
    ensures ButtonLabel(v, s) == ProgressLabel(v) <==> Disabled(s)
  {
    assert OpenVerb(v) != CLAIMED_LABEL && OpenVerb(v) != ProgressLabel(v);
    assert ProgressLabel(v) != CLAIMED_LABEL;
  }

  /** Two states with the same label have the same enabledness. */
  lemma LabelDeterminesEnabled(v: Variant, s: AnimationState, t: AnimationState)
    requires ButtonLabel(v, s) == ButtonLabel(v, t)
    ensures Disabled(s) == Disabled(t)
  {
    LabelIdentifiesState(v, s);
    LabelIdentifiesState(v, t);
  }

  /** A non-empty reward is on screen exactly while the box is revealing. */
  lemma RewardShownOnlyWhileRevealing(s: AnimationState, reward: string)
    requires reward != ""
    ensures ShowsReward(s, reward) <==> s == Revealing
  {
  }

  /** Over one sequence the button is disabled for the first 4000 ms, and the
      reward is visible from 2000 ms to 4000 ms. */
  lemma RenderingOverTimetable(e: int, reward: string)
    requires 0 <= e && reward != ""
    ensures Disabled(Timetable(e)) <==> e < 4000
    ensures ShowsReward(Timetable(e), reward) <==> 2000 <= e < 4000
  {
  }
}
