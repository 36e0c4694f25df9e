/**
 * The sheet controller: the state a presented sheet and its container keep,
 * and how each event (appear, drag, drag end, dismiss, the deferred close
 * reset and unmount, and geometry measurement) changes it.
 */
module Sheet {
  import opened Optional
  import opened Detents
  import opened Closest
  import opened Scale

  /** What the caller attaches a sheet with; `height` is the measured container height. */
  datatype Config = Config(detents: seq<Detent>, dismissible: bool, height: real)

  /**
   * `offset` and `lastOffset` belong to the mounted sheet surface,
   * `scaleFactor` to the container, `isPresented` to the caller.
   * `pendingReset` and `pendingUnmount` count the close continuations
   * scheduled but not yet run: the next-tick reset of offset and scale,
   * and the delayed unmount.
   */
  datatype State = State(
    offset: real,
    lastOffset: real,
    scaleFactor: real,
    isPresented: bool,
    pendingReset: nat,
    pendingUnmount: nat)

  datatype Event =
    | Present                        // the caller sets the presented flag
    | Appear                         // the surface appears
    | DragUpdate(translation: real)  // live vertical translation since the drag began
    | DragEnd
    | Dismiss                        // content invokes its injected dismiss action
    | ResetFires                     // the scheduled offset/scale reset runs
    | UnmountFires                   // the delayed unmount runs
    | Measure(minY: real)            // the surface's live top edge was measured

  /** Overshoot allowed past the drag limit before the offset is clamped. */
  const RubberBand: real := 40.0

  /** A container with no sheet shown: nothing moved, background unscaled. */
  const Initial: State := State(0.0, 0.0, 1.0, false, 0, 0)

  /** The detent offsets for this container. */
  function Offsets(c: Config): seq<real> {
    Resolve(c.detents, c.height)
  }

  /** The farthest a drag may pull the sheet up: 90% of the container height. */
  function DragLimit(c: Config): real {
    -(c.height * 0.9)
  }

  /** `close()`: schedules the reset and the delayed unmount; changes nothing yet. */
  function RequestClose(s: State): (r: State)
    ensures r.pendingReset == s.pendingReset + 1 && r.pendingUnmount == s.pendingUnmount + 1
    ensures r == s.(pendingReset := r.pendingReset, pendingUnmount := r.pendingUnmount)
  {
    s.(pendingReset := s.pendingReset + 1, pendingUnmount := s.pendingUnmount + 1)
  }

  /** The dismiss action content receives; outside a sheet it is the do-nothing default. */
  datatype DismissAction = NoAction | CloseSheet

  const DefaultDismiss: DismissAction := NoAction

  function CallDismiss(a: DismissAction, s: State): (r: State)
    ensures a == DefaultDismiss ==> r == s
    ensures a == CloseSheet ==> r.pendingUnmount == s.pendingUnmount + 1
    ensures a == CloseSheet ==> r.pendingReset == s.pendingReset + 1
    ensures r == s.(pendingReset := r.pendingReset, pendingUnmount := r.pendingUnmount)
  {
    match a
    case NoAction => s
    case CloseSheet => RequestClose(s)
  }

  /** A fresh surface for a presented flag that turns true: its own state starts at zero. */
  function OnPresent(s: State): (r: State)
    ensures r.isPresented
    ensures s.isPresented ==> r == s
    ensures !s.isPresented ==> r == s.(isPresented := true, offset := 0.0, lastOffset := 0.0)
  {
    if s.isPresented then s else s.(isPresented := true, offset := 0.0, lastOffset := 0.0)
  }

  /** The surface appears: it moves to the first detent, or to the raw large fraction. */
  function OnAppear(c: Config, s: State): (r: State)
    ensures r.offset == r.lastOffset
    ensures c.detents != [] ==> r.offset == -(Value(c.detents[0]) * c.height)
    ensures c.detents == [] ==> r.offset == 0.93
    ensures r == s.(offset := r.offset, lastOffset := r.lastOffset)
  {
    var o := if Offsets(c) != [] then Offsets(c)[0] else Value(Large);
    s.(offset := o, lastOffset := o)
  }

  /**
   * A live drag update: the sheet follows the finger from where the drag
   * began, unless that is more than the rubber band beyond the drag limit,
   * in which case it is held at the limit.
   */
  function OnDragUpdate(c: Config, s: State, t: real): (r: State)
    ensures r.offset >= DragLimit(c) - RubberBand
    ensures r.offset >= t + s.lastOffset
    ensures r.offset == t + s.lastOffset || r.offset == DragLimit(c)
    ensures t + s.lastOffset >= DragLimit(c) - RubberBand ==> r.offset == t + s.lastOffset
    ensures r == s.(offset := r.offset)
  {
    var newOffset := t + s.lastOffset;
    if newOffset < DragLimit(c) - RubberBand then s.(offset := DragLimit(c))
    else s.(offset := newOffset)
  }

  /** Whether a drag ending at `offset` asks the sheet to close. */
  predicate ClosesAt(c: Config, offset: real) {
    offset > LowestThreshold(Offsets(c), c.height) / 2.0 && c.dismissible
  }

  /**
   * The drag ends: the sheet snaps to the closest detent (0 when there are
   * none), which also becomes the start of the next drag; when it ends low
   * enough and the sheet is dismissible, a close is requested as well.
   */
  function OnDragEnd(c: Config, s: State): (r: State)
    ensures r.lastOffset == r.offset
    ensures c.detents != [] ==> r.offset in Offsets(c)
    ensures c.detents != [] ==> forall i :: 0 <= i < |Offsets(c)| ==>
              Abs(r.offset - s.offset) <= Abs(Offsets(c)[i] - s.offset)
    ensures c.detents != [] ==> exists k :: IsEarliestClosest(Offsets(c), s.offset, k) && r.offset == Offsets(c)[k]
    ensures c.detents == [] ==> r.offset == 0.0
    ensures r.pendingUnmount == s.pendingUnmount + 1 <==> ClosesAt(c, s.offset)
    ensures r.pendingReset == s.pendingReset + 1 <==> ClosesAt(c, s.offset)
    ensures !ClosesAt(c, s.offset) ==>
              r.pendingUnmount == s.pendingUnmount && r.pendingReset == s.pendingReset
    ensures r.isPresented == s.isPresented && r.scaleFactor == s.scaleFactor
  {
    var s' := if ClosesAt(c, s.offset) then RequestClose(s) else s;
    var snapped := ClosestMatch(Offsets(c), s.offset).GetOr(0.0);
    ClosestMatchIsNearest(Offsets(c), s.offset);
    ClosestMatchSpec(Offsets(c), s.offset, snapped);
    s'.(offset := snapped, lastOffset := snapped)
  }

  /** The scheduled reset: the sheet and the background return to rest. */
  function OnResetFires(s: State): (r: State)
    ensures s.pendingReset > 0 ==> r.offset == 0.0 && r.scaleFactor == 1.0
    ensures s.pendingReset > 0 ==> r.pendingReset == s.pendingReset - 1
    ensures s.pendingReset == 0 ==> r == s
    ensures r.isPresented == s.isPresented && r.lastOffset == s.lastOffset
    ensures r == s.(offset := r.offset, scaleFactor := r.scaleFactor, pendingReset := r.pendingReset)
  {
    if s.pendingReset == 0 then s
    else s.(offset := 0.0, scaleFactor := 1.0, pendingReset := s.pendingReset - 1)
  }

  /** The delayed unmount: the presented flag turns false. */
  function OnUnmountFires(s: State): (r: State)
    ensures s.pendingUnmount > 0 ==> !r.isPresented && r.pendingUnmount == s.pendingUnmount - 1
    ensures s.pendingUnmount == 0 ==> r == s
    ensures r == s.(isPresented := r.isPresented, pendingUnmount := r.pendingUnmount)
  {
    if s.pendingUnmount == 0 then s
    else s.(isPresented := false, pendingUnmount := s.pendingUnmount - 1)
  }

  /**
   * One event. Gestures, appearance, measurement and the dismiss action only
   * reach a mounted surface; for an unmounted one they change nothing.
   */
  function Step(c: Config, s: State, e: Event): (r: State)
    ensures !s.isPresented && !e.Present? && !e.ResetFires? && !e.UnmountFires? ==> r == s
    ensures e.Present? ==> r.isPresented
    ensures s.isPresented && e.Measure? ==> r == s.(scaleFactor := ScaleFactor(e.minY, c.height))
  {
    match e
    case Present => OnPresent(s)
    case ResetFires => OnResetFires(s)
    case UnmountFires => OnUnmountFires(s)
    case _ =>
      if !s.isPresented then s
      else
        match e
        case Appear => OnAppear(c, s)
        case DragUpdate(t) => OnDragUpdate(c, s, t)
        case DragEnd => OnDragEnd(c, s)
        case Dismiss => CallDismiss(CloseSheet, s)
        case Measure(minY) => s.(scaleFactor := ScaleFactor(minY, c.height))
  }

  /** A trace of events, applied in order. */
  function Run(c: Config, s: State, events: seq<Event>): State
    decreases |events|
  {
    if events == [] then s else Run(c, Step(c, s, events[0]), events[1..])
  }

  /** The dismiss threshold is the detent with the SMALLEST magnitude, not the largest. */
  lemma ThresholdIsShallowestDetent(c: Config)
    requires c.detents != []
    requires c.height >= 0.0
    requires WellFormed(c.detents)
    ensures forall i :: 0 <= i < |Offsets(c)| ==>
              Abs(LowestThreshold(Offsets(c), c.height)) <= Abs(Offsets(c)[i])
  {
    ResolveBounds(c.detents, c.height);
  }

  /** A later drag update overrides an earlier one: the offset tracks the total translation. */
  lemma DragUpdateLatestWins(c: Config, s: State, t1: real, t2: real)
    ensures Step(c, Step(c, s, DragUpdate(t1)), DragUpdate(t2)) == Step(c, s, DragUpdate(t2))
  {}

  /** The background scale stays within [MinScale, 1]. */
  predicate ScaleInvariant(c: Config, s: State)
    requires TallEnough(c.height)
  {
    TallEnoughPositive(c.height);
    MinScale(c.height) <= s.scaleFactor <= 1.0
  }

  lemma StepKeepsScale(c: Config, s: State, e: Event)
    requires TallEnough(c.height)
    requires ScaleInvariant(c, s)
    ensures ScaleInvariant(c, Step(c, s, e))
  {
    TallEnoughPositive(c.height);
    if e.Measure? {
      ScaleFactorBounds(e.minY, c.height);
    }
  }

  /** Every trace from a state within bounds keeps the background scale in (0, 1]. */
  lemma {:induction false} RunKeepsScale(c: Config, s: State, events: seq<Event>)
    requires TallEnough(c.height)
    requires ScaleInvariant(c, s)
    ensures ScaleInvariant(c, Run(c, s, events))
    ensures 0.0 < Run(c, s, events).scaleFactor <= 1.0
    decreases |events|
  {
    TallEnoughPositive(c.height);
    if events != [] {
      StepKeepsScale(c, s, events[0]);
      RunKeepsScale(c, Step(c, s, events[0]), events[1..]);
    }
  }

  /**
   * The position a drag starts from is always a resting position: a detent
   * offset, the closed position 0, or, with no detents, the raw large fraction.
   */
  predicate Resting(c: Config, x: real) {
    x == 0.0 || x in Offsets(c) || (c.detents == [] && x == Value(Large))
  }

  lemma StepKeepsResting(c: Config, s: State, e: Event)
    requires Resting(c, s.lastOffset)
    ensures Resting(c, Step(c, s, e).lastOffset)
  {}

  lemma {:induction false} RunKeepsResting(c: Config, s: State, events: seq<Event>)
    requires Resting(c, s.lastOffset)
    ensures Resting(c, Run(c, s, events).lastOffset)
    decreases |events|
  {
    if events != [] {
      StepKeepsResting(c, s, events[0]);
      RunKeepsResting(c, Step(c, s, events[0]), events[1..]);
    }
  }

  /**
   * A sheet that is not dismissible is never closed by a drag: without the
   * dismiss action, no trace unmounts it.
   */
  lemma {:induction false} NotDismissibleStaysPresented(c: Config, s: State, events: seq<Event>)
    requires !c.dismissible
    requires s.isPresented && s.pendingUnmount == 0
    requires forall i :: 0 <= i < |events| ==> events[i] != Dismiss
    ensures Run(c, s, events).isPresented
    ensures Run(c, s, events).pendingUnmount == 0
    decreases |events|
  {
    if events != [] {
      var s' := Step(c, s, events[0]);
      assert s'.isPresented && s'.pendingUnmount == 0;
      NotDismissibleStaysPresented(c, s', events[1..]);
    }
  }

  /**
   * Closing through the dismiss action happens in three steps: the request
   * changes nothing visible, the reset brings offset and scale to rest while
   * the sheet stays presented, and only the delayed unmount clears the flag.
   */
  lemma DismissThenUnmount(c: Config, s: State)
    requires s.isPresented && s.pendingReset == 0 && s.pendingUnmount == 0
    ensures var r := Run(c, s, [Dismiss]);
              r.offset == s.offset && r.scaleFactor == s.scaleFactor && r.isPresented
    ensures var r := Run(c, s, [Dismiss, ResetFires]);
              r.offset == 0.0 && r.scaleFactor == 1.0 && r.isPresented
    ensures var r := Run(c, s, [Dismiss, ResetFires, UnmountFires]);
              r.offset == 0.0 && r.scaleFactor == 1.0 && !r.isPresented
              && r.pendingReset == 0 && r.pendingUnmount == 0
  {}

  /**
   * A drag that ends low enough on a dismissible sheet first snaps to the
   * closest detent, and the sheet is only reset and unmounted by the later
   * deferred events.
   */
  lemma DragEndDismisses(c: Config, s: State)
    requires s.isPresented && s.pendingReset == 0 && s.pendingUnmount == 0
    requires c.dismissible && s.offset > LowestThreshold(Offsets(c), c.height) / 2.0
    ensures var r := Run(c, s, [DragEnd]);
              r.isPresented && r.offset == ClosestMatch(Offsets(c), s.offset).GetOr(0.0)
    ensures var r := Run(c, s, [DragEnd, ResetFires, UnmountFires]);
              r.offset == 0.0 && r.scaleFactor == 1.0 && !r.isPresented
  {}

  /** Worked example: a sheet with only the large detent opens at -0.93 * height, background unscaled. */
  lemma OpenLargeExample(height: real, dismissible: bool)
    ensures var r := Run(Config(DefaultDetents, dismissible, height), Initial, [Present, Appear]);
              r.isPresented && r.offset == -(0.93 * height) && r.lastOffset == r.offset
              && r.scaleFactor == 1.0
  {}

  /**
   * Worked example: three named detents at height 1000, resting at the small
   * one; dragging up by 400 and letting go snaps to the medium detent.
   */
  lemma SnapExample(dismissible: bool)
    ensures var c := Config([Small, Medium, Large], dismissible, 1000.0);
            var s := State(-200.0, -200.0, 1.0, true, 0, 0);
            var r := Run(c, s, [DragUpdate(-400.0), DragEnd]);
              r.offset == -550.0 && r.lastOffset == -550.0 && r.isPresented && r.pendingUnmount == 0
  {}

  /**
   * The large detent lies beyond the drag limit: in a container taller than
   * 4000 / 3 points, the first drag update from the large detent, even with
   * no translation, moves the sheet down to the limit.
   */
  lemma LargeBeyondDragLimit(height: real)
    requires height > 4000.0 / 3.0
    ensures var c := Config([Large], true, height);
            var s := State(-(0.93 * height), -(0.93 * height), 1.0, true, 0, 0);
            var r := Step(c, s, DragUpdate(0.0));
              r.offset == -(0.9 * height) && r.offset > s.offset
  {}
}
