/** The reward-claim lifecycle shared by the eight loot boxes of the demo page:
    the five states a box can be in, and the fixed timing of the chain of
    updates that one press of a box's button sets off. */
module Lifecycle {

  /** The claim-progress phase of one box. */
  datatype AnimationState = Idle | Anticipation | Opening | Revealing | Claimed

  /** The page renders eight boxes; every call site uses one of the ids 0..7. */
  const BOX_COUNT: nat := 8

  type BoxId = i: int | 0 <= i < BOX_COUNT

  /** Number of a deferred update of a chain: 1 sets `opening`, 2 `revealing`,
      3 `claimed` and 4 resets the box to `idle`. */
  type Step = k: int | 1 <= k <= 4 witness 1

  /** The k-th update of a chain writes this state; update 0 is the immediate one. */
  function ChainState(k: nat): AnimationState
    requires k <= 4
  {
    if k == 0 then Anticipation
    else if k == 1 then Opening
    else if k == 2 then Revealing
    else if k == 3 then Claimed
    else Idle
  }

  /** The state that follows `s` along the lifecycle idle, anticipation,
      opening, revealing, claimed, idle. */
  function Successor(s: AnimationState): AnimationState
  {
    match s
    case Idle => Anticipation
    case Anticipation => Opening
    case Opening => Revealing
    case Revealing => Claimed
    case Claimed => Idle
  }

  /** The chain writes the lifecycle in order: each update moves the box one
      step along the path, starting from the first state after idle. */
  lemma ChainFollowsLifecycle(k: nat)
    requires k < 4
    ensures ChainState(0) == Successor(Idle)
    ensures ChainState(k + 1) == Successor(ChainState(k))
    ensures ChainState(4) == Idle
  {
  }

  /** The delay, in milliseconds, passed to the timer that performs the k-th
      deferred update; it is counted from the moment update k - 1 ran. */
  function Delay(k: Step): (d: nat)
    ensures d > 0
  {
    if k == 1 then 500
    else if k == 2 then 1500
    else if k == 3 then 2000
    else 3000
  }

  /** Time from the trigger to the k-th update. Each timer is started inside
      the callback of the previous one, so the delays add up. */
  function Offset(k: nat): nat
    requires k <= 4
  {
    if k == 0 then 0 else Offset(k - 1) + Delay(k)
  }

  lemma {:induction false} OffsetIncreasing(j: nat, k: nat)
    requires j < k <= 4
    ensures Offset(j) < Offset(k)
  {
    if j < k - 1 {
      OffsetIncreasing(j, k - 1);
    }
  }

  /** The cumulative offsets of the five updates: 0, 500, 2000, 4000, 7000 ms. */
  lemma CumulativeOffsets()
    ensures Offset(0) == 0 && Offset(1) == 500 && Offset(2) == 2000
    ensures Offset(3) == 4000 && Offset(4) == 7000
  {
    assert Offset(1) == 500;
    assert Offset(2) == 2000;
    assert Offset(3) == 4000;
  }

  /** `e` ms after the trigger, updates 0..k-1 have run and update k has not
      (k == 5: the whole chain has run). */
  predicate InWindow(e: int, k: int)
  {
    1 <= k <= 5 && Offset(k - 1) <= e && (k < 5 ==> e < Offset(k))
  }

  /** The number of the next update due `e` ms after the trigger (5 when none is left). */
  function Phase(e: int): (k: int)
    requires 0 <= e
    ensures InWindow(e, k)
  {
    PhaseFrom(e, 1)
  }

  function PhaseFrom(e: int, k: int): (r: int)
    requires 1 <= k <= 5 && Offset(k - 1) <= e
    ensures k <= r && InWindow(e, r)
    decreases 5 - k
  {
    if k == 5 || e < Offset(k) then k else PhaseFrom(e, k + 1)
  }

  /** The windows of the five updates do not overlap. */
  lemma WindowUnique(e: int, j: int, k: int)
    requires InWindow(e, j) && InWindow(e, k)
    ensures j == k
  {
    if j < k {
      if j < k - 1 { OffsetIncreasing(j, k - 1); }
    } else if k < j {
      if k < j - 1 { OffsetIncreasing(k, j - 1); }
    }
  }

  /** The state of a box `e` ms after a trigger, as the chain of timers yields it. */
  function ScheduledState(e: int): AnimationState
    requires 0 <= e
  {
    ChainState(Phase(e) - 1)
  }

  /** No update is left exactly from 7000 ms after the trigger on. */
  lemma ChainEndsAt(e: int)
    requires 0 <= e
    ensures Phase(e) == 5 <==> e >= 7000
  {
    CumulativeOffsets();
    if e >= 7000 {
      WindowUnique(e, Phase(e), 5);
    }
  }

  /** The timetable of one claim sequence: the state shown `e` ms after the
      press, from the delays the code sets. */
  function Timetable(e: int): AnimationState
    requires 0 <= e
  {
    if e < 500 then Anticipation
    else if e < 2000 then Opening
    else if e < 4000 then Revealing
    else if e < 7000 then Claimed
    else Idle
  }

  /** The chain of delays 500, 1500, 2000, 3000 realises the timetable. */
  lemma ScheduleMatchesTimetable(e: int)
    requires 0 <= e
    ensures ScheduledState(e) == Timetable(e)
  {
    CumulativeOffsets();
    var k := Phase(e);
    if e < 500 { WindowUnique(e, k, 1); }
    else if e < 2000 { WindowUnique(e, k, 2); }
    else if e < 4000 { WindowUnique(e, k, 3); }
    else if e < 7000 { WindowUnique(e, k, 4); }
    else { WindowUnique(e, k, 5); }
  }
}
