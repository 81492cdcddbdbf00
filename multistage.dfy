/** The one renderer with state of its own: the multi-stage unlock box keeps
    a `stage` counter that drives its three lock layers and its caption. The
    counter starts at 0 and the only write to it, in the button handler,
    sets it to 0 again, so no layer is ever released and the caption always
    reads "Stage 0/3". */
module MultiStage {
  import opened Lifecycle
  import opened Renderer
  import opened Timeline
  import opened HomeComponent

  datatype Option<T> = None | Some(value: T)

  /** The box of the page that the multi-stage renderer shows. */
  const MULTI_STAGE_BOX: BoxId := 5

  /** The number of lock layers, and the denominator of the caption. */
  const LAYERS: nat := 3

  /** Lock layer `n` (1..3) is drawn released while the box is opening and
      the stage has reached `n`. */
  predicate LayerReleased(s: AnimationState, stage: nat, n: nat)
  {
    s == Opening && stage >= n
  }

  /** The value of a decimal digit. */
  function DigitValue(c: char): nat
  {
    if '0' <= c <= '9' then (c - '0') as nat else 0
  }

  /** The number a string of decimal digits denotes. */
  function DigitsValue(d: string): nat
  {
    if d == [] then 0 else 10 * DigitsValue(d[..|d| - 1]) + DigitValue(d[|d| - 1])
  }

  /** The decimal rendering of `n`, as `{stage}` renders a number. */
  function Decimal(n: nat): (d: string)
    ensures |d| >= 1
    ensures forall i :: 0 <= i < |d| ==> '0' <= d[i] <= '9'
    ensures n > 0 ==> d[0] != '0'
    decreases n
  {
    if n < 10 then ["0123456789"[n]] else Decimal(n / 10) + ["0123456789"[n % 10]]
  }

  /** The rendering denotes the number rendered. */
  lemma {:induction false} DecimalValue(n: nat)
    ensures DigitsValue(Decimal(n)) == n
    decreases n
  {
    var d := Decimal(n);
    if n >= 10 {
      DecimalValue(n / 10);
      assert d[..|d| - 1] == Decimal(n / 10);
      assert DigitValue(d[|d| - 1]) == n % 10;
    } else {
      assert DigitValue(d[0]) == n;
    }
  }

  /** The caption under the box: "Stage <stage>/3" while opening, none otherwise. */
  function StageCaption(s: AnimationState, stage: nat): (c: Option<string>)
    ensures c.Some? <==> s == Opening
  {
    if s == Opening then Some("Stage " + Decimal(stage) + "/" + Decimal(LAYERS)) else None
  }

  /** The renderer component with its own `stage` state. */
  class MultiStageLootBox {
    var stage: nat

    /** `stage` never leaves its initial value. */
    ghost predicate Valid()
      reads this
    {
      stage == 0
    }

    constructor ()
      ensures Valid()
    {
      stage := 0;
    }

    /** The button handler: reset the stage, then call handleOpen for box 5;
        a disabled button runs neither. */
    method Click(home: Home)
      requires Valid() && home.Valid()
      modifies this, home
      ensures Valid()
      ensures home.Snapshot() == if Disabled(old(home.boxes[MULTI_STAGE_BOX])) then old(home.Snapshot())
                                 else Trigger(old(home.Snapshot()), MULTI_STAGE_BOX)
      ensures home.Valid()
    {
      if !Disabled(home.boxes[MULTI_STAGE_BOX]) {
        stage := 0;
        home.HandleOpen(MULTI_STAGE_BOX);
      }
    }

    /** The caption this box draws for its box state `s`. */
    function Caption(s: AnimationState): (c: Option<string>)
      reads this
      requires Valid()
      ensures c == if s == Opening then Some("Stage 0/3") else None
    {
      StageZeroRendering(s, 1);
      StageCaption(s, stage)
    }
  }

  /** With the stage at 0, whatever state the box is in, no layer is
      released and the caption, when shown, reads "Stage 0/3". */
  lemma StageZeroRendering(s: AnimationState, n: nat)
    requires 1 <= n <= LAYERS
    ensures !LayerReleased(s, 0, n)
    ensures StageCaption(s, 0) == if s == Opening then Some("Stage 0/3") else None
  {
    assert Decimal(0) == "0";
    assert Decimal(LAYERS) == "3";
    assert "Stage " + "0" + "/" + "3" == "Stage 0/3";
  }

  /** A layer is released only during opening with a positive counter, so
      with a counter that only ever holds 0 none ever is; and the outer
      layers go before the inner ones. */
  lemma LayersNeedStage(s: AnimationState, stage: nat, n: nat)
    requires 1 <= n <= LAYERS
    ensures LayerReleased(s, stage, n) ==> s == Opening && stage > 0
    ensures n < LAYERS && LayerReleased(s, stage, n + 1) ==> LayerReleased(s, stage, n)
  {
  }

  /** Over one sequence of box 5 the caption is on screen from 500 ms to
      2000 ms, and reads "Stage 0/3" all that time. */
  lemma CaptionOverTimetable(e: int)
    requires 0 <= e
    ensures StageCaption(Timetable(e), 0) == if 500 <= e < 2000 then Some("Stage 0/3") else None
  {
    StageZeroRendering(Timetable(e), 1);
  }
}
