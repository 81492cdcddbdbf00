# Loot-box reward-claim lifecycle

A Dafny model of the behaviour in `app/page.tsx` of the animation-demos
page. The page shows eight loot boxes. One press of a box's button runs it
through the lifecycle idle → anticipation → opening → revealing → claimed →
idle; a second press while it is claimed starts a second chain beside the
first, and the two then interleave.

- The `Home` component keeps the state table `boxes`. Pressing a box's
  button calls `handleOpen(boxId)`.
- `handleOpen` sets the box to anticipation at once. It then starts a chain
  of nested `setTimeout` callbacks. Each callback writes the next state into
  the box's entry and starts the next timer.
- Eight renderer components draw the boxes. Each one derives three things
  from its box's state: whether the button is disabled, the button label,
  and whether the reward is shown.
- The multi-stage renderer also keeps a `stage` counter of its own.

Modules, in dependency order:

- `Lifecycle` (lifecycle.dfy): the states, box ids 0..7, the four delays
  (500, 1500, 2000, 3000 ms), their cumulative offsets and the timetable of
  one sequence.
- `Renderer` (renderer.dfy): the `disabled`, label and reward-visibility
  expressions the eight renderers share.
- `TimerQueue` (timer_queue.dfy): the scheduled callbacks as a queue ordered
  by deadline. Callbacks with equal deadlines run in the order they were set.
- `Timeline` (timeline.dfy): the page as one value (state table, virtual
  clock, timer queue). `Trigger` is `handleOpen`, `Fire` runs one callback,
  and `AdvanceTo` lets time pass. The timing theorems, the independence of
  the boxes and the re-trigger race are proved here.
- `HomeComponent` (home.dfy): the reward table, the box-to-renderer wiring,
  and the class `Home`. Each method of `Home` is proved equal to the
  matching `Timeline` function.
- `MultiStage` (multistage.dfy): the class `MultiStageLootBox` with its
  `stage` field, its layer conditions and its caption.

Browser time is a virtual clock. `setTimeout(f, d)` inside a callback that
runs at time T becomes a timer due at T + d.

Each timer is started inside the callback of the previous one, so the
delays add up: 500, 500 + 1500 = 2000, 2000 + 2000 = 4000 and
4000 + 3000 = 7000. A sequence started at time T reaches opening at T+500,
revealing at T+2000, claimed at T+4000 and idle at T+7000
(`Lifecycle.CumulativeOffsets`, `Timeline.TriggerTimeline`).

`handleOpen` does not check the box's current state, and the button of a
claimed box is enabled. Pressing it while the box is claimed starts a second
chain, and the first chain's pending reset to idle stays in the queue,
whenever during claimed the press happens (`Timeline.RetriggerKeepsStaleReset`).
What the box then shows depends on the moment of the press:

- Pressed the moment the box becomes claimed, the stale reset makes the box
  idle 3000 ms into the new sequence, while the timetable says revealing
  (`Timeline.RetriggerWhenClaimed`).
- Pressed 1000 ms into claimed, the new chain's revealing update falls due
  together with the stale reset and runs after it, so at that moment the box
  ends up revealing, as the new chain's timetable says (`Timeline.RetriggerLater`).
  This outcome rests on the model's tie-break, which runs equal deadlines in
  the order they were set. The HTML timer rules only order a timer after
  earlier ones with a timeout no longer than its own. The stale reset was set
  with 3000 ms and the revealing update with 1500 ms, so a browser may run
  them in either order.

In both cases the new chain's later callbacks still write claimed and idle.
The source does not say whether this is intended, so it is stated as proved
behaviour and not as a defect.

## Model

| member | source | states |
|---|---|---|
| Lifecycle.ChainFollowsLifecycle | app/page.tsx:423-446 | `ChainState(k)`, the state update k writes: the immediate update and the four deferred updates write anticipation, opening, revealing, claimed, idle, each the lifecycle successor of the previous one, ending in idle |
| Lifecycle.Delay | app/page.tsx:427-445 | every timer delay is positive, so each deferred update runs strictly after the one that scheduled it |
| Lifecycle.OffsetIncreasing | app/page.tsx:427-445 | the time from the press to update k grows strictly with k |
| Lifecycle.CumulativeOffsets | app/page.tsx:427-445 | the nested delays put the updates at 0, 500, 2000, 4000 and 7000 ms after the press |
| Lifecycle.Phase | app/page.tsx:427-445 | for every elapsed time there is an update window containing it: updates before it have run, it has not |
| Lifecycle.PhaseFrom | app/page.tsx:427-445 | the window search starting at update k finds a window at or after k |
| Lifecycle.WindowUnique | app/page.tsx:427-445 | the update windows do not overlap, so the state at a given time is determined |
| Lifecycle.ChainEndsAt | app/page.tsx:441-445 | the last update is due 7000 ms after the press: no update is left exactly from then on |
| Lifecycle.ScheduleMatchesTimetable | app/page.tsx:423-446 | the state the chain produces e ms after a press is anticipation below 500, opening below 2000, revealing below 4000, claimed below 7000, idle from then on |
| Renderer.EnabledWhenAtRest | app/page.tsx:42 | `Disabled`, the expression at this line and at lines 97, 147, 189, 238, 298, 340 and 386: the button is enabled iff the box is idle or claimed, and disabled iff it is in anticipation, opening or revealing |
| Renderer.LabelIdentifiesState | app/page.tsx:49 | `ButtonLabel` with `OpenVerb` and `ProgressLabel`, the conditional at this line and at lines 104, 154, 196, 245, 305, 347 and 393: in every variant the label is the open verb iff idle, "Claimed" iff claimed, and the progress label iff the button is disabled |
| Renderer.LabelDeterminesEnabled | app/page.tsx:42-49 | two states with the same label have the same enabledness, in every variant |
| Renderer.RewardShownOnlyWhileRevealing | app/page.tsx:34 | `ShowsReward`, the condition at this line and at lines 89, 139, 181, 230, 287, 332 and 378: a non-empty reward is rendered iff the box is revealing |
| Renderer.RenderingOverTimetable | app/page.tsx:34-42 | over one sequence the button is disabled exactly for the first 4000 ms, and the reward is visible exactly from 2000 to 4000 ms |
| TimerQueue.SortedHeadFirst | app/page.tsx:427 | `Sorted`, each timer due no later than the next: in an ordered queue no timer is due before the head, which is the callback the browser runs next |
| TimerQueue.DuePrefix | app/page.tsx:427 | the prefix of the queue due no later than a deadline is maximal: all its timers are due by then and the next one is later |
| TimerQueue.InsertElements | app/page.tsx:427 | `Insert`, a `setTimeout` call: scheduling a timer adds exactly that timer to the queue (multiset equality) |
| TimerQueue.InsertSorted | app/page.tsx:427 | scheduling a timer keeps the queue ordered by deadline |
| TimerQueue.InsertSplices | app/page.tsx:427 | a new timer goes right after every timer due no later than it, so equal deadlines run in scheduling order |
| TimerQueue.PendingElements | app/page.tsx:427 | a box's own queue holds exactly the timers of the whole queue that belong to that box |
| TimerQueue.PendingInsert | app/page.tsx:427 | scheduling a timer for one box leaves every other box's queue unchanged, and inserts into the box's own queue as into the whole queue |
| TimerQueue.PendingInsertOther | app/page.tsx:427 | scheduling a timer for one box leaves other boxes' queues unchanged |
| TimerQueue.PendingInsertOwn | app/page.tsx:427 | scheduling a timer inserts it into its box's own queue in deadline order |
| TimerQueue.WeightInsert | app/page.tsx:427-445 | scheduling update k adds the 5 - k updates it still leads to to the work left in the queue |
| Timeline.Initial | app/page.tsx:401-410 | the first render maps every box 0..7 to idle, with nothing scheduled |
| Timeline.Trigger | app/page.tsx:423-427 | handleOpen sets the box to anticipation, changes no other entry, keeps the clock, and keeps the queue ordered and not overdue |
| Timeline.Fire | app/page.tsx:427-445 | a callback writes its update into its own box's entry only, at its deadline; the clock never goes back and the work left decreases |
| Timeline.RunHeadKeepsOrder | app/page.tsx:427-445 | `RunHead` with `NextTimer`, the nested `setTimeout` each callback makes: running the earliest callback and scheduling its successor decreases the work left and keeps the queue ordered, with nothing due before the callback that ran |
| Timeline.RunHeadSorted | app/page.tsx:427-445 | the queue after the earliest callback has run is ordered and due no earlier than that callback |
| Timeline.AdvanceTo | app/page.tsx:427-445 | letting time pass to t sets the clock to t and leaves no callback overdue |
| Timeline.TrackedBoxShowsTimetable | app/page.tsx:423-446 | a box following one chain shows the timetable state for the time since its press |
| Timeline.TriggerStartsChain | app/page.tsx:423-427 | pressing a box with nothing pending starts a chain for it, with update 1 due 500 ms later |
| Timeline.TriggerKeepsOtherChains | app/page.tsx:425 | a press on one box leaves every other box's chain as it was |
| Timeline.FireAdvancesChain | app/page.tsx:427-445 | a callback moves its own box's chain one update on and every other chain stays where it was |
| Timeline.RunHeadPending | app/page.tsx:427-445 | what running the earliest callback does to one box's queue: it only touches the queue of its own box |
| Timeline.AdvanceFollowsChain | app/page.tsx:423-446 | while time passes a chain stays on its timetable |
| Timeline.QuietBoxStaysPut | app/page.tsx:423-446 | a box with no pending callback keeps its state however much time passes |
| Timeline.TriggerTimeline | app/page.tsx:423-446 | after a press on a box with nothing pending, dt ms later it shows the timetable state for dt, and it has a callback pending iff dt < 7000 |
| Timeline.TrackedBoxFinishes | app/page.tsx:423-446 | a box on its chain, with all due callbacks run, shows the timetable state and has a callback pending iff fewer than 7000 ms have passed since its press |
| Timeline.TrackedBoxAfter | app/page.tsx:423-446 | a box on its chain shows, at any later time, the timetable state for the time since its press, with a callback pending until 7000 ms |
| Timeline.TwoTrackedBoxes | app/page.tsx:423-446 | two boxes, each at any point of its own chain, each keep to their own timetable while time passes |
| Timeline.CycleEndsAtRest | app/page.tsx:441-443 | after a full sequence the box is idle with nothing pending, so pressing it again runs the same timeline |
| Timeline.TwoBoxesRunIndependently | app/page.tsx:423-446 | pressing one box while another follows its chain leaves each on its own timetable |
| Timeline.FireView | app/page.tsx:427-445 | running a callback changes only what its own box sees (its state and its own timers) |
| Timeline.AdvanceProjects | app/page.tsx:423-446 | boxes do not interfere: what a box sees after time passes depends only on what it saw before |
| Timeline.RetriggerWhenClaimed | app/page.tsx:423-446 | a claimed box's button is enabled (line 298); pressed the moment it is claimed, 3000 ms later the stale reset has made it idle (the timetable says revealing) with the new chain's claimed update still pending at 4000 ms |
| Timeline.StaleResetWins | app/page.tsx:427-443 | the new chain's opening and revealing timers run before the stale reset, so at start + 6000 the box reveals with the reset still pending; its claimed timer does not, so at start + 7000 the reset leaves the box idle |
| Timeline.RetriggerKeepsStaleReset | app/page.tsx:423-446 | a re-press at any moment while claimed keeps the old chain's reset: the box's timers are the new opening timer and the stale reset, in deadline order, the stale reset first on a tie |
| Timeline.RetriggerLater | app/page.tsx:423-446 | pressed 1000 ms into claimed, at the stale reset's deadline the box shows revealing, and the new chain's claimed update is pending 2000 ms later |
| Timeline.RevealingAfterStaleReset | app/page.tsx:427-443 | of the two chains the stale reset and the new revealing update fall due together, and the reset runs first |
| HomeComponent.Reward | app/page.tsx:412-421 | the reward of every box (passed as `rewards[i]`, line 493) is a non-empty entry of the reward table |
| HomeComponent.VariantsCoverPage | app/page.tsx:487-550 | `VariantOf`, the renderer the page uses for each box: every renderer variant draws exactly one box |
| HomeComponent.BoxShowsItsReward | app/page.tsx:491-493 | box i's reward is shown iff box i is revealing |
| HomeComponent.FirstBoxWalkthrough | app/page.tsx:423-446 | pressing box 0 on a fresh page: opening and disabled at 600 ms, revealing with "🏆 Legendary Sword" shown at 2100 and 3600 ms, claimed and enabled at 4000 ms, idle from 7000 ms |
| HomeComponent.Home.constructor | app/page.tsx:401-410 | the page object starts as the initial page |
| HomeComponent.Home.HandleOpen | app/page.tsx:423-427 | the object's new state is the press of the box: only its entry changes, to anticipation, and its opening callback is scheduled |
| HomeComponent.Home.RunNextTimer | app/page.tsx:427-445 | the object's new state is the page after its earliest callback has run |
| HomeComponent.Home.Advance | app/page.tsx:427-445 | the loop runs due callbacks until none is due; the new state is the page with time advanced by dt, with nothing overdue |
| HomeComponent.Home.Click | app/page.tsx:41-42 | a press of a disabled button changes nothing; an enabled one runs handleOpen |
| HomeComponent.OpenAndWait | app/page.tsx:423-446 | on the page object, a press followed by dt ms of waiting leaves the box in the timetable state for dt |
| MultiStage.LayersNeedStage | app/page.tsx:270-272 | `LayerReleased`, the condition `state === 'opening' && stage >= n` of layer n: a layer is drawn released only while opening with a positive stage, and an inner layer never before the outer ones |
| MultiStage.DecimalValue | app/page.tsx:284 | `Decimal(n)`, the text `{stage}` renders, is a non-empty string of decimal digits without a leading zero that denotes n |
| MultiStage.StageCaption | app/page.tsx:283-285 | the caption is shown iff the box is opening |
| MultiStage.StageZeroRendering | app/page.tsx:270-284 | at stage 0 no layer is ever released and the caption reads "Stage 0/3" while opening |
| MultiStage.CaptionOverTimetable | app/page.tsx:283-285 | over one sequence of the multi-stage box the caption reads "Stage 0/3" exactly from 500 to 2000 ms |
| MultiStage.MultiStageLootBox.constructor | app/page.tsx:254 | the stage starts at 0 |
| MultiStage.MultiStageLootBox.Click | app/page.tsx:294-298 | the handler leaves the stage at 0 and presses box 5 when its button is enabled |
| MultiStage.MultiStageLootBox.Caption | app/page.tsx:283-285 | the box's caption is "Stage 0/3" while opening and absent otherwise |

## Left out

- app/layout.tsx is not part of this model: it holds only page metadata and the HTML shell.
- Styling, emoji, titles, descriptions, the legend and the grid markup are not modelled, because they have no behaviour.
- Real time, the browser's event loop and React's batching of `setBoxes` are not modelled. Time is a virtual clock, and each state update takes effect at once.
- Box ids outside 0..7 are not modelled, because every call site passes a literal 0..7.
- An undefined `reward` is not modelled: every renderer gets a defined string, and only a non-empty one counts as truthy.
- Negative stages are not rendered: `stage` is a natural number, because the only value ever stored in it is 0.
- The queue's ordering is modelled on values (a sorted sequence), not as the browser's timer heap.
- Timers due at the same time always run in the order they were set. This is a modelling choice. The HTML timer rules leave two timers unordered when the later-set one has the shorter timeout, so `Timeline.RetriggerLater` and `Timeline.RevealingAfterStaleReset` describe one of the orders a browser may choose.
