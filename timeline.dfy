/** The page's state as one value: the state table of the eight boxes, a
    virtual clock in milliseconds, and the queue of pending timers. Pressing
    a box's button sets it to anticipation and starts the first timer; each
    timer, when it runs, performs one update of its box and starts the next
    timer of the chain. */
module Timeline {
  import opened Lifecycle
  import opened TimerQueue
  import opened Renderer

  datatype Page = Page(boxes: map<BoxId, AnimationState>, clock: int, timers: seq<Timer>)

  /** Every box has a state, the queue is ordered, and no timer is overdue. */
  ghost predicate WellFormed(p: Page)
  {
    && (forall i: BoxId :: i in p.boxes)
    && Sorted(p.timers)
    && forall t :: t in p.timers ==> p.clock <= t.deadline
  }

  /** All timers due by now have run. */
  ghost predicate Settled(p: Page)
  {
    forall t :: t in p.timers ==> p.clock < t.deadline
  }

  /** `after` differs from `before` at most in the entry for `id`. */
  ghost predicate OnlyChanges(before: map<BoxId, AnimationState>, after: map<BoxId, AnimationState>, id: BoxId)
  {
    && after.Keys == before.Keys + {id}
    && forall j :: j in before && j != id ==> after[j] == before[j]
  }

  /** The page when it is first rendered. */
  function Initial(): (p: Page)
    ensures WellFormed(p) && Settled(p)
    ensures forall i: BoxId :: p.boxes[i] == Idle
    ensures p.timers == []
  {
    Page(map[0 := Idle, 1 := Idle, 2 := Idle, 3 := Idle, 4 := Idle, 5 := Idle, 6 := Idle, 7 := Idle], 0, [])
  }

  /** handleOpen(id): the immediate update, and the timer of the first deferred one. */
  function Trigger(p: Page, id: BoxId): (r: Page)
    ensures OnlyChanges(p.boxes, r.boxes, id) && r.boxes[id] == Anticipation
    ensures r.clock == p.clock
    ensures WellFormed(p) ==> WellFormed(r)
    ensures Settled(p) ==> Settled(r)
  {
    var t := Timer(p.clock + Delay(1), id, 1);
    TriggerEnqueues(p, t);
    Page(p.boxes[id := Anticipation], p.clock, Insert(p.timers, t))
  }

  lemma TriggerEnqueues(p: Page, t: Timer)
    requires t.deadline > p.clock
    ensures WellFormed(p) ==> Sorted(Insert(p.timers, t))
    ensures forall x :: x in Insert(p.timers, t) ==> x in p.timers || x == t
  {
    InsertElements(p.timers, t);
    if WellFormed(p) {
      InsertSorted(p.timers, t);
    }
  }

  /** Runs the earliest pending timer: the clock moves to its deadline, it
      performs its update, and unless it was the last of its chain it starts
      the next timer. */
  function Fire(p: Page): (r: Page)
    requires p.timers != []
    ensures OnlyChanges(p.boxes, r.boxes, p.timers[0].box)
    ensures r.boxes[p.timers[0].box] == ChainState(p.timers[0].step)
    ensures r.clock == p.timers[0].deadline
    ensures WellFormed(p) ==> WellFormed(r) && p.clock <= r.clock
    ensures Weight(r.timers) < Weight(p.timers)
  {
    var h := p.timers[0];
    RunHeadKeepsOrder(p.timers);
    assert WellFormed(p) ==> p.clock <= h.deadline;
    Page(p.boxes[h.box := ChainState(h.step)], h.deadline, RunHead(p.timers))
  }

  /** The timer the callback of `h` starts: the next update of the same box,
      due its delay after `h`'s deadline. */
  function NextTimer(h: Timer): (n: Timer)
    requires h.step < 4
  {
    Timer(h.deadline + Delay(h.step + 1), h.box, h.step + 1)
  }

  /** The queue once its head timer has run. */
  function RunHead(q: seq<Timer>): seq<Timer>
    requires q != []
  {
    if q[0].step == 4 then q[1..] else Insert(q[1..], NextTimer(q[0]))
  }

  lemma RunHeadKeepsOrder(q: seq<Timer>)
    requires q != []
    ensures Weight(RunHead(q)) < Weight(q)
    ensures Sorted(q) ==> Sorted(RunHead(q)) && forall x :: x in RunHead(q) ==> q[0].deadline <= x.deadline
  {
    if q[0].step < 4 {
      WeightInsert(q[1..], NextTimer(q[0]));
    }
    if Sorted(q) {
      RunHeadSorted(q);
    }
  }

  lemma RunHeadSorted(q: seq<Timer>)
    requires q != [] && Sorted(q)
    ensures Sorted(RunHead(q)) && forall x :: x in RunHead(q) ==> q[0].deadline <= x.deadline
  {
    var rest := q[1..];
    assert Sorted(rest);
    forall x | x in rest ensures q[0].deadline <= x.deadline {
      var j :| 0 <= j < |rest| && rest[j] == x;
      assert q[j + 1] == x;
      SortedHeadFirst(q, x);
    }
    if q[0].step < 4 {
      InsertSorted(rest, NextTimer(q[0]));
      InsertElements(rest, NextTimer(q[0]));
    }
  }

  /** Lets virtual time pass up to `t`, running every timer due by then. */
  function AdvanceTo(p: Page, t: int): (r: Page)
    requires p.clock <= t
    ensures r.clock == t
    ensures WellFormed(p) ==> WellFormed(r) && Settled(r)
    decreases Weight(p.timers)
  {
    if p.timers != [] && p.timers[0].deadline <= t then AdvanceTo(Fire(p), t)
    else
      assert WellFormed(p) ==> Settled(p.(clock := t)) by {
        if WellFormed(p) && p.timers != [] {
          forall x | x in p.timers ensures t < x.deadline {
            SortedHeadFirst(p.timers, x);
          }
        }
      }
      p.(clock := t)
  }

  /** Box `id` follows exactly one chain, started at time `start`: updates
      0..k-1 have run, and the only timer pending for the box is the one of
      update k (none when k == 5, the chain having finished). */
  ghost predicate Tracks(p: Page, id: BoxId, start: int, k: int)
  {
    && 1 <= k <= 5
    && id in p.boxes && p.boxes[id] == ChainState(k - 1)
    && start + Offset(k - 1) <= p.clock
    && Pending(p.timers, id) == (if k == 5 then [] else [Timer(start + Offset(k), id, k)])
  }

  /** Once all due timers have run, a box that follows a chain shows the
      state of the timetable for the time elapsed since its trigger. */
  lemma TrackedBoxShowsTimetable(p: Page, id: BoxId, start: int, k: int)
    requires WellFormed(p) && Settled(p) && Tracks(p, id, start, k)
    ensures p.clock - start >= 0 && k == Phase(p.clock - start)
    ensures p.boxes[id] == Timetable(p.clock - start)
  {
    var e := p.clock - start;
    if k < 5 {
      var x := Timer(start + Offset(k), id, k);
      PendingElements(p.timers, id);
      assert x in Pending(p.timers, id);
    }
    WindowUnique(e, k, Phase(e));
    ScheduleMatchesTimetable(e);
  }

  /** A trigger on a box with nothing pending starts a chain for it. */
  lemma TriggerStartsChain(p: Page, id: BoxId)
    requires WellFormed(p) && Pending(p.timers, id) == []
    ensures Tracks(Trigger(p, id), id, p.clock, 1)
  {
    var t := Timer(p.clock + Delay(1), id, 1);
    PendingInsert(p.timers, t, id);
    assert Insert([], t) == [t];
  }

  /** A trigger on one box leaves the chain of every other box as it was. */
  lemma TriggerKeepsOtherChains(p: Page, id: BoxId, other: BoxId, start: int, k: int)
    requires WellFormed(p) && other != id && Tracks(p, other, start, k)
    ensures Tracks(Trigger(p, id), other, start, k)
  {
    var t := Timer(p.clock + Delay(1), id, 1);
    var q := Trigger(p, id);
    assert q == Page(p.boxes[id := Anticipation], p.clock, Insert(p.timers, t));
    PendingInsertOther(p.timers, t, other);
    assert q.boxes[other] == p.boxes[other];
  }

  /** Running a timer moves its own box's chain one update on and leaves
      every other box's chain where it was. */
  lemma FireAdvancesChain(p: Page, id: BoxId, start: int, k: int)
    requires WellFormed(p) && p.timers != [] && Tracks(p, id, start, k)
    ensures Tracks(Fire(p), id, start, if p.timers[0].box == id then k + 1 else k)
  {
    var h := p.timers[0];
    RunHeadPending(p.timers, id);
    if h.box == id {
      assert [h] + Pending(p.timers[1..], id) == [Timer(start + Offset(k), id, k)];
      assert h == Timer(start + Offset(k), id, k);
      assert Pending(p.timers[1..], id) == [];
      if h.step < 4 {
        assert Insert([], NextTimer(h)) == [NextTimer(h)];
      }
    }
  }

  /** What running the head timer does to the queue of box `id`. */
  lemma RunHeadPending(q: seq<Timer>, id: BoxId)
    requires Sorted(q) && q != []
    ensures Pending(q, id) == (if q[0].box == id then [q[0]] else []) + Pending(q[1..], id)
    ensures Pending(RunHead(q), id)
         == if q[0].box == id && q[0].step < 4
            then Insert(Pending(q[1..], id), NextTimer(q[0]))
            else Pending(q[1..], id)
  {
    if q[0].step < 4 {
      assert Sorted(q[1..]);
      PendingInsert(q[1..], NextTimer(q[0]), id);
    }
  }

  /** Letting time pass keeps a chain on the timetable: at time `t` the box
      is in the window of the update due `t - start` ms after its trigger. */
  lemma {:induction false} AdvanceFollowsChain(p: Page, t: int, id: BoxId, start: int, k: int)
    requires WellFormed(p) && p.clock <= t && Tracks(p, id, start, k)
    ensures t - start >= 0 && Tracks(AdvanceTo(p, t), id, start, Phase(t - start))
    decreases Weight(p.timers)
  {
    if p.timers != [] && p.timers[0].deadline <= t {
      FireAdvancesChain(p, id, start, k);
      AdvanceFollowsChain(Fire(p), t, id, start, if p.timers[0].box == id then k + 1 else k);
    } else {
      var r := AdvanceTo(p, t);
      assert r == p.(clock := t);
      TrackedBoxShowsTimetable(r, id, start, k);
    }
  }

  /** A box with no pending timer keeps its state, and stays without one,
      however much time passes. */
  lemma {:induction false} QuietBoxStaysPut(p: Page, t: int, id: BoxId)
    requires WellFormed(p) && p.clock <= t && Pending(p.timers, id) == []
    ensures AdvanceTo(p, t).boxes[id] == p.boxes[id]
    ensures Pending(AdvanceTo(p, t).timers, id) == []
    decreases Weight(p.timers)
  {
    if p.timers != [] && p.timers[0].deadline <= t {
      RunHeadPending(p.timers, id);
      QuietBoxStaysPut(Fire(p), t, id);
    }
  }

  /** The timing of one claim sequence: after a trigger at time T on a box
      with nothing pending, and no further trigger of it, the box shows
      Timetable(dt) at time T + dt, and it has a timer pending until 7000 ms. */
  lemma TriggerTimeline(p: Page, id: BoxId, dt: nat)
    requires WellFormed(p) && Pending(p.timers, id) == []
    ensures AdvanceTo(Trigger(p, id), p.clock + dt).boxes[id] == Timetable(dt)
    ensures Pending(AdvanceTo(Trigger(p, id), p.clock + dt).timers, id) == [] <==> dt >= 7000
  {
    TriggerStartsChain(p, id);
    TrackedBoxAfter(Trigger(p, id), p.clock + dt, id, p.clock, 1);
  }

  /** A box on its chain, with all due timers run, has a timer pending
      exactly until 7000 ms after its trigger. */
  lemma TrackedBoxFinishes(r: Page, id: BoxId, start: int)
    requires WellFormed(r) && Settled(r) && r.clock - start >= 0
    requires Tracks(r, id, start, Phase(r.clock - start))
    ensures r.boxes[id] == Timetable(r.clock - start)
    ensures Pending(r.timers, id) == [] <==> r.clock - start >= 7000
  {
    TrackedBoxShowsTimetable(r, id, start, Phase(r.clock - start));
    ChainEndsAt(r.clock - start);
  }

  /** After a whole sequence the box is back at rest with nothing pending:
      the starting condition of TriggerTimeline holds again, so a new trigger
      runs the same timeline again. */
  lemma CycleEndsAtRest(p: Page, id: BoxId, dt: nat)
    requires WellFormed(p) && Pending(p.timers, id) == [] && dt >= 7000
    ensures var q := AdvanceTo(Trigger(p, id), p.clock + dt);
      && q.boxes[id] == Idle && Pending(q.timers, id) == [] && WellFormed(q)
  {
    TriggerTimeline(p, id, dt);
  }

  /** Triggering a box while another one follows its chain: the two run
      independently, each on its own timetable. */
  lemma TwoBoxesRunIndependently(p: Page, a: BoxId, start: int, k: int, b: BoxId, dt: nat)
    requires WellFormed(p) && a != b
    requires Tracks(p, a, start, k) && Pending(p.timers, b) == []
    ensures var r := AdvanceTo(Trigger(p, b), p.clock + dt);
      && r.boxes[a] == Timetable(p.clock + dt - start)
      && r.boxes[b] == Timetable(dt)
  {
    var q := Trigger(p, b);
    TriggerKeepsOtherChains(p, b, a, start, k);
    TriggerStartsChain(p, b);
    assert WellFormed(q) && q.clock == p.clock;
    TwoTrackedBoxes(q, p.clock + dt, a, start, k, b, p.clock, 1);
  }

  /** Two boxes on their own chains each keep to their own timetable. */
  lemma TwoTrackedBoxes(q: Page, t: int, a: BoxId, sa: int, ka: int, b: BoxId, sb: int, kb: int)
    requires WellFormed(q) && q.clock <= t && Tracks(q, a, sa, ka) && Tracks(q, b, sb, kb)
    ensures t - sa >= 0 && AdvanceTo(q, t).boxes[a] == Timetable(t - sa)
    ensures t - sb >= 0 && AdvanceTo(q, t).boxes[b] == Timetable(t - sb)
  {
    TrackedBoxAfter(q, t, a, sa, ka);
    TrackedBoxAfter(q, t, b, sb, kb);
  }

  /** A box on its chain shows, at any later time, the timetable's state for
      the time since its trigger, and has a timer pending until 7000 ms. */
  lemma TrackedBoxAfter(q: Page, t: int, id: BoxId, start: int, k: int)
    requires WellFormed(q) && q.clock <= t && Tracks(q, id, start, k)
    ensures t - start >= 0 && AdvanceTo(q, t).boxes[id] == Timetable(t - start)
    ensures Pending(AdvanceTo(q, t).timers, id) == [] <==> t - start >= 7000
  {
    AdvanceFollowsChain(q, t, id, start, k);
    TrackedBoxFinishes(AdvanceTo(q, t), id, start);
  }

  /** What one box sees of the page: its state and its own pending timers. */
  datatype BoxView = BoxView(state: AnimationState, timers: seq<Timer>)

  function View(p: Page, id: BoxId): BoxView
    requires id in p.boxes
  {
    BoxView(p.boxes[id], Pending(p.timers, id))
  }

  /** Lets time pass up to `t` for a box on its own: the timers of the box
      run in order, each performing its update and starting its successor. */
  function RunBox(b: BoxView, t: int): BoxView
    decreases Weight(b.timers)
  {
    if b.timers != [] && b.timers[0].deadline <= t then
      RunHeadKeepsOrder(b.timers);
      RunBox(BoxView(ChainState(b.timers[0].step), RunHead(b.timers)), t)
    else b
  }

  /** Running the head timer changes only what its own box sees, and for
      that box it is the box's own next step. */
  lemma FireView(p: Page, id: BoxId)
    requires WellFormed(p) && p.timers != []
    ensures var h := p.timers[0];
      View(Fire(p), id) == if h.box == id then BoxView(ChainState(h.step), RunHead(View(p, id).timers)) else View(p, id)
  {
    var q := p.timers;
    var h := q[0];
    RunHeadPending(q, id);
    var own := Pending(q, id);
    if h.box == id {
      assert own == [h] + Pending(q[1..], id);
      assert own[0] == h && own[1..] == Pending(q[1..], id);
      assert RunHead(own) == Pending(RunHead(q), id);
    } else {
      assert own == Pending(q[1..], id);
    }
  }

  lemma RunBoxStep(b: BoxView, t: int)
    requires b.timers != [] && b.timers[0].deadline <= t
    ensures RunBox(b, t) == RunBox(BoxView(ChainState(b.timers[0].step), RunHead(b.timers)), t)
  {
  }

  /** Boxes do not interfere: what a box sees after time passes depends only
      on what it saw before, not on the other boxes or their timers. */
  lemma {:induction false} AdvanceProjects(p: Page, t: int, id: BoxId)
    requires WellFormed(p) && p.clock <= t
    ensures View(AdvanceTo(p, t), id) == RunBox(View(p, id), t)
    decreases Weight(p.timers)
  {
    var q := p.timers;
    if q != [] && q[0].deadline <= t {
      assert AdvanceTo(p, t) == AdvanceTo(Fire(p), t);
      FireView(p, id);
      AdvanceProjects(Fire(p), t, id);
      if q[0].box == id {
        RunHeadPending(q, id);
        RunBoxStep(View(p, id), t);
      }
    } else {
      assert AdvanceTo(p, t) == p.(clock := t);
      var own := Pending(q, id);
      if own != [] {
        PendingElements(q, id);
        assert own[0] in own;
        SortedHeadFirst(q, own[0]);
      }
    }
  }

  /** The re-trigger race. The button of a claimed box is enabled, and
      pressing it does not cancel the reset timer of the finished sequence.
      Pressed the moment the box becomes claimed, the new sequence is cut
      short: 3000 ms into it, when the timetable says revealing, the stale
      reset makes the box idle, while the new sequence's claimed update is
      still pending. */
  lemma RetriggerWhenClaimed(p: Page, id: BoxId, start: int)
    requires WellFormed(p) && Tracks(p, id, start, 4) && p.clock == start + 4000
    ensures p.boxes[id] == Claimed && !Disabled(p.boxes[id])
    ensures var r := AdvanceTo(Trigger(p, id), start + 7000);
      && r.boxes[id] == Idle && Timetable(3000) == Revealing
      && Pending(r.timers, id) == [Timer(start + 8000, id, 3)]
  {
    CumulativeOffsets();
    var q := Trigger(p, id);
    RetriggerKeepsStaleReset(p, id, start);
    AdvanceProjects(q, start + 7000, id);
    StaleResetWins(start, id);
  }

  /** The run of one box behind RetriggerWhenClaimed: the new chain's opening
      and revealing timers run before the stale reset, so at start + 6000 the
      box reveals with the reset still ahead; its claimed timer does not, so
      the reset then leaves the box idle. */
  lemma StaleResetWins(start: int, id: BoxId)
    ensures RunBox(BoxView(Anticipation, [Timer(start + 4500, id, 1), Timer(start + 7000, id, 4)]), start + 6000)
         == BoxView(Revealing, [Timer(start + 7000, id, 4), Timer(start + 8000, id, 3)])
    ensures RunBox(BoxView(Anticipation, [Timer(start + 4500, id, 1), Timer(start + 7000, id, 4)]), start + 7000)
         == BoxView(Idle, [Timer(start + 8000, id, 3)])
  {
    var stale := Timer(start + 7000, id, 4);
    var first := Timer(start + 4500, id, 1);
    var second := Timer(start + 6000, id, 2);
    var third := Timer(start + 8000, id, 3);
    assert Insert([], second) == [second];
    assert Insert([stale], second) == [second, stale];
    assert Insert([], third) == [third];
    assert Insert([stale], third) == [stale] + Insert([], third);
    var b0 := BoxView(Anticipation, [first, stale]);
    var b1 := BoxView(Opening, [second, stale]);
    var b2 := BoxView(Revealing, [stale, third]);
    var b3 := BoxView(Idle, [third]);
    assert RunHead(b0.timers) == b1.timers;
    RunBoxStep(b0, start + 6000);
    RunBoxStep(b1, start + 6000);
    assert RunBox(b2, start + 6000) == b2;
    RunBoxStep(b0, start + 7000);
    assert RunHead(b1.timers) == b2.timers;
    RunBoxStep(b1, start + 7000);
    assert RunHead(b2.timers) == b3.timers;
    RunBoxStep(b2, start + 7000);
    assert RunBox(b3, start + 7000) == b3;
  }

  /** A re-press at any moment while the box is claimed keeps the old
      chain's reset: the box then has the new chain's first timer and the
      stale reset, in deadline order, and equal deadlines put the stale
      reset first. */
  lemma RetriggerKeepsStaleReset(p: Page, id: BoxId, start: int)
    requires WellFormed(p) && Tracks(p, id, start, 4) && p.clock <= start + 7000
    ensures p.boxes[id] == Claimed && !Disabled(p.boxes[id])
    ensures var first := Timer(p.clock + 500, id, 1);
      var stale := Timer(start + 7000, id, 4);
      Pending(Trigger(p, id).timers, id) == if p.clock + 500 < start + 7000 then [first, stale] else [stale, first]
  {
    CumulativeOffsets();
    var first := Timer(p.clock + 500, id, 1);
    var stale := Timer(start + 7000, id, 4);
    assert Trigger(p, id).timers == Insert(p.timers, first);
    PendingInsert(p.timers, first, id);
    assert Pending(p.timers, id) == [stale];
    if p.clock + 500 < start + 7000 {
      assert Insert([stale], first) == [first, stale];
    } else {
      assert Insert([], first) == [first];
      assert Insert([stale], first) == [stale, first];
    }
  }

  /** The outcome of the race depends on when the re-press happens. Pressed
      1000 ms into claimed, the new chain's revealing update falls due together
      with the stale reset and runs after it: at start + 7000 the box shows
      revealing, not idle, and the new chain goes on with claimed at
      start + 9000. */
  lemma RetriggerLater(p: Page, id: BoxId, start: int)
    requires WellFormed(p) && Tracks(p, id, start, 4) && p.clock == start + 5000
    ensures var r := AdvanceTo(Trigger(p, id), start + 7000);
      && r.boxes[id] == Revealing
      && Pending(r.timers, id) == [Timer(start + 9000, id, 3)]
  {
    RetriggerKeepsStaleReset(p, id, start);
    AdvanceProjects(Trigger(p, id), start + 7000, id);
    RevealingAfterStaleReset(start, id);
  }

  /** The run of one box behind RetriggerLater. */
  lemma RevealingAfterStaleReset(start: int, id: BoxId)
    ensures RunBox(BoxView(Anticipation, [Timer(start + 5500, id, 1), Timer(start + 7000, id, 4)]), start + 7000)
         == BoxView(Revealing, [Timer(start + 9000, id, 3)])
  {
    var stale := Timer(start + 7000, id, 4);
    var first := Timer(start + 5500, id, 1);
    var second := Timer(start + 7000, id, 2);
    var third := Timer(start + 9000, id, 3);
    assert Insert([], second) == [second];
    assert Insert([stale], second) == [stale] + Insert([], second);
    assert Insert([], third) == [third];
    var b0 := BoxView(Anticipation, [first, stale]);
    var b1 := BoxView(Opening, [stale, second]);
    var b2 := BoxView(Idle, [second]);
    var b3 := BoxView(Revealing, [third]);
    assert RunHead(b0.timers) == b1.timers;
    RunBoxStep(b0, start + 7000);
    assert RunHead(b1.timers) == b2.timers;
    RunBoxStep(b1, start + 7000);
    assert RunHead(b2.timers) == b3.timers;
    RunBoxStep(b2, start + 7000);
    assert RunBox(b3, start + 7000) == b3;
  }
}
