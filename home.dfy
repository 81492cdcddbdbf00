/** The `Home` page component: the state table of the eight boxes, the
    reward table, `handleOpen`, and the wiring of box i to renderer i,
    state `boxes[i]` and reward `rewards[i]`. */
module HomeComponent {
  import opened Lifecycle
  import opened TimerQueue
  import opened Renderer
  import opened Timeline

  /** The reward texts, box by box. */
  const Rewards: seq<string> := [
    "🏆 Legendary Sword",
    "💎 1000 Gems",
    "⭐ Epic Skin",
    "💰 Jackpot!",
    "🎁 Mystery Box",
    "🔮 Rare Artifact",
    "🎉 Party Pack",
    "⚡ Power Boost"
  ]

  /** The reward passed to the renderer of box `id`. */
  function Reward(id: BoxId): (r: string)
    ensures r != ""
    ensures r in Rewards
  {
    Rewards[id]
  }

  /** The renderer the page uses for box `id`. */
  function VariantOf(id: BoxId): Variant
  {
    if id == 0 then Spinning
    else if id == 1 then Chest
    else if id == 2 then CardFlip
    else if id == 3 then SlotMachine
    else if id == 4 then ParticleBurst
    else if id == 5 then MultiStage
    else if id == 6 then Shake
    else GlowPulse
  }

  /** Every renderer is used for exactly one box. */
  lemma VariantsCoverPage(v: Variant)
    ensures exists id: BoxId :: VariantOf(id) == v
    ensures forall i: BoxId, j: BoxId :: VariantOf(i) == VariantOf(j) ==> i == j
  {
    match v
    case Spinning => assert VariantOf(0) == v;
    case Chest => assert VariantOf(1) == v;
    case CardFlip => assert VariantOf(2) == v;
    case SlotMachine => assert VariantOf(3) == v;
    case ParticleBurst => assert VariantOf(4) == v;
    case MultiStage => assert VariantOf(5) == v;
    case Shake => assert VariantOf(6) == v;
    case GlowPulse => assert VariantOf(7) == v;
  }

  /** Box `id`'s reward is on screen exactly while the box is revealing. */
  lemma BoxShowsItsReward(p: Page, id: BoxId)
    requires WellFormed(p)
    ensures ShowsReward(p.boxes[id], Reward(id)) <==> p.boxes[id] == Revealing
  {
    RewardShownOnlyWhileRevealing(p.boxes[id], Reward(id));
  }

  /** Pressing the first box on the freshly rendered page: opening at 600 ms,
      revealing with "🏆 Legendary Sword" on screen at 2100 ms and still at
      3600 ms, claimed with the button enabled again at 4000 ms, and idle
      from 7000 ms on. */
  lemma FirstBoxWalkthrough(dt: nat)
    ensures var r := AdvanceTo(Trigger(Initial(), 0), dt).boxes[0];
      && (dt == 600 ==> r == Opening && Disabled(r))
      && (dt == 2100 || dt == 3600 ==> r == Revealing && ShowsReward(r, "🏆 Legendary Sword"))
      && (dt == 4000 ==> r == Claimed && !Disabled(r))
      && (dt >= 7000 ==> r == Idle)
    ensures Reward(0) == "🏆 Legendary Sword"
  {
    TriggerTimeline(Initial(), 0, dt);
  }

  /** The page as a stateful object: the `boxes` table React keeps, the
      current virtual time, and the pending callbacks `handleOpen` scheduled. */
  class Home {
    var boxes: map<BoxId, AnimationState>
    var clock: int
    var timers: seq<Timer>

    function Snapshot(): Page
      reads this
    {
      Page(boxes, clock, timers)
    }

    ghost predicate Valid()
      reads this
    {
      WellFormed(Snapshot())
    }

    /** The first render: every box idle, nothing scheduled. */
    constructor ()
      ensures Snapshot() == Initial() && Valid() && Settled(Snapshot())
    {
      boxes := map[0 := Idle, 1 := Idle, 2 := Idle, 3 := Idle, 4 := Idle, 5 := Idle, 6 := Idle, 7 := Idle];
      clock := 0;
      timers := [];
    }

    /** The state passed to the renderer of box `id`. */
    function State(id: BoxId): (s: AnimationState)
      reads this
      requires Valid()
      ensures s == Snapshot().boxes[id]
    {
      boxes[id]
    }

    /** handleOpen(boxId): sets the box to anticipation and schedules the
        opening update 500 ms later. */
    method HandleOpen(boxId: BoxId)
      modifies this
      ensures Snapshot() == Trigger(old(Snapshot()), boxId)
      ensures boxes == old(boxes)[boxId := Anticipation] && clock == old(clock)
      ensures old(Valid()) ==> Valid()
    {
      boxes := boxes[boxId := Anticipation];
      timers := Insert(timers, Timer(clock + Delay(1), boxId, 1));
    }

    /** The browser runs the earliest callback: it writes its state into the
        box's entry and, unless it is the reset, schedules the next one. */
    method RunNextTimer()
      requires timers != []
      modifies this
      ensures Snapshot() == Fire(old(Snapshot()))
      ensures old(Valid()) ==> Valid() && old(clock) <= clock
    {
      var h := timers[0];
      boxes := boxes[h.box := ChainState(h.step)];
      clock := h.deadline;
      if h.step < 4 {
        timers := Insert(timers[1..], NextTimer(h));
      } else {
        timers := timers[1..];
      }
    }

    /** Lets `dt` ms pass, running every callback that falls due meanwhile,
        earliest first. */
    method Advance(dt: nat)
      modifies this
      ensures Snapshot() == AdvanceTo(old(Snapshot()), old(clock) + dt)
      ensures old(Valid()) ==> Valid() && Settled(Snapshot())
    {
      var target := clock + dt;
      while timers != [] && timers[0].deadline <= target
        invariant clock <= target
        invariant AdvanceTo(Snapshot(), target) == AdvanceTo(old(Snapshot()), target)
        invariant old(Valid()) ==> Valid()
        decreases Weight(timers)
      {
        ghost var before := Snapshot();
        RunNextTimer();
        assert AdvanceTo(before, target) == AdvanceTo(Snapshot(), target);
      }
      clock := target;
    }

    /** A press of box `id`'s button: a disabled button ignores it, an
        enabled one calls handleOpen. */
    method Click(id: BoxId)
      requires Valid()
      modifies this
      ensures Snapshot() == if Disabled(old(boxes[id])) then old(Snapshot()) else Trigger(old(Snapshot()), id)
      ensures Valid()
    {
      if !Disabled(boxes[id]) {
        HandleOpen(id);
      }
    }
  }

  /** Pressing a box's button and waiting `dt` ms, on the page object: the
      box shows the timetable's state, provided it had nothing pending. */
  method OpenAndWait(home: Home, id: BoxId, dt: nat) returns (s: AnimationState)
    requires home.Valid() && Pending(home.timers, id) == []
    modifies home
    ensures home.Valid() && s == home.State(id)
    ensures s == Timetable(dt)
  {
    ghost var p0 := home.Snapshot();
    home.HandleOpen(id);
    home.Advance(dt);
    ghost var r := home.Snapshot();
    assert r == AdvanceTo(Trigger(p0, id), p0.clock + dt);
    TriggerTimeline(p0, id, dt);
    assert r.boxes[id] == Timetable(dt);
    s := home.State(id);
  }
}
