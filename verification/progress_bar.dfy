/** The playback progress bar's drag-to-seek controller. Pressing the bar
    captures its bounding rectangle and starts a preview; moving the
    pointer maps its x coordinate linearly onto `[0, duration]`, clamped;
    releasing commits the previewed position as one `seek`. While a
    preview is shown the live playback position is not displayed. */
module ProgressBar {
  import opened Wrappers

  /** The bar's bounding rectangle as far as the controller reads it. */
  datatype BoundingRect = BoundingRect(left: real, width: real)

  /** A rectangle the bar can have on screen: of positive width. */
  type Rect = r: BoundingRect | r.width > 0.0 witness BoundingRect(0.0, 1.0)

  /** The controller's state: the `isDragging` flag, the drag-position ref
      and the captured-rectangle ref. The document's `pointermove` and
      `pointerup` listeners are registered exactly while `isDragging`. */
  datatype DragState = DragState(isDragging: bool, dragPosition: Option<real>, rect: Option<Rect>)

  /** The state on mount. */
  const Mounted: DragState := DragState(false, None, None)

  /** What the controller asks of the player. */
  datatype Output = Seek(position: real)

  /** `duration` is `number | null`; the handlers branch on its truthiness. */
  predicate HasDuration(duration: Option<real>) {
    duration.Some? && duration.value != 0.0
  }

  function Min(a: real, b: real): real { if a <= b then a else b }

  function Max(a: real, b: real): real { if a >= b then a else b }

  /** `p` lies between 0 and `d`, whichever of the two is smaller. */
  predicate Between(p: real, d: real) {
    Min(0.0, d) <= p <= Max(0.0, d)
  }

  /** `Math.max(0, Math.min(1, v))`. */
  function Clamp01(v: real): (r: real)
    ensures 0.0 <= r <= 1.0
    ensures 0.0 <= v <= 1.0 ==> r == v
    ensures v < 0.0 ==> r == 0.0
    ensures v > 1.0 ==> r == 1.0
  {
    Max(0.0, Min(1.0, v))
  }

  lemma ScaleStaysBetween(f: real, d: real)
    requires 0.0 <= f <= 1.0
    ensures Between(f * d, d)
  {
    if d >= 0.0 {
      assert f * d <= 1.0 * d;
    } else {
      assert f * d >= 1.0 * d;
    }
  }

  /** The track position under pointer x: the pointer's fraction along the
      bar, clamped to the bar, times the duration. */
  function PositionAt(rect: Rect, clientX: real, duration: real): (p: real)
    ensures Between(p, duration)
    ensures clientX <= rect.left ==> p == 0.0
    ensures clientX >= rect.left + rect.width ==> p == duration
    ensures rect.left <= clientX <= rect.left + rect.width ==>
      p == (clientX - rect.left) / rect.width * duration
  {
    var fraction := (clientX - rect.left) / rect.width;
    FractionOfBar(rect, clientX);
    ScaleStaysBetween(Clamp01(fraction), duration);
    Clamp01(fraction) * duration
  }

  /** Where the pointer is relative to the bar decides where its fraction
      along the bar lies relative to `[0, 1]`. */
  lemma FractionOfBar(rect: Rect, clientX: real)
    ensures clientX <= rect.left ==> (clientX - rect.left) / rect.width <= 0.0
    ensures clientX >= rect.left + rect.width ==> (clientX - rect.left) / rect.width >= 1.0
    ensures rect.left <= clientX <= rect.left + rect.width ==>
      0.0 <= (clientX - rect.left) / rect.width <= 1.0
  {
  }

  // ---------------------------------------------------------------------
  // Handlers
  // ---------------------------------------------------------------------

  /** `updateDragPosition(clientX)`: without a captured rectangle or a
      truthy duration nothing changes; otherwise the drag position becomes
      the position under the pointer. */
  function UpdateDragPosition(s: DragState, clientX: real, duration: Option<real>): (s': DragState)
    ensures s.rect.None? || !HasDuration(duration) ==> s' == s
    ensures s.rect.Some? && HasDuration(duration) ==>
      && s'.isDragging == s.isDragging
      && s'.rect == s.rect
      && s'.dragPosition == Some(PositionAt(s.rect.value, clientX, duration.value))
  {
    if s.rect.None? || !HasDuration(duration) then s
    else s.(dragPosition := Some(PositionAt(s.rect.value, clientX, duration.value)))
  }

  /** `handlePointerDown`: a no-op without a truthy duration or a mounted
      bar (`measured` is the bar's bounding rectangle, `None` when the bar
      element is not mounted); otherwise start dragging, capture the
      rectangle and preview the position under the pointer. */
  function PointerDown(s: DragState, clientX: real, duration: Option<real>, measured: Option<Rect>): (s': DragState)
    ensures !HasDuration(duration) || measured.None? ==> s' == s
    ensures HasDuration(duration) && measured.Some? ==>
      && s'.isDragging
      && s'.rect == measured
      && s'.dragPosition == Some(PositionAt(measured.value, clientX, duration.value))
  {
    if !HasDuration(duration) || measured.None? then s
    else UpdateDragPosition(s.(isDragging := true, rect := measured), clientX, duration)
  }

  /** `handlePointerMove`. */
  function PointerMove(s: DragState, clientX: real, duration: Option<real>): (s': DragState)
    ensures s'.isDragging == s.isDragging && s'.rect == s.rect
    ensures s.rect.None? || !HasDuration(duration) ==> s'.dragPosition == s.dragPosition
    ensures s.rect.Some? && HasDuration(duration) ==>
      s'.dragPosition == Some(PositionAt(s.rect.value, clientX, duration.value))
  {
    UpdateDragPosition(s, clientX, duration)
  }

  /** `handlePointerUp`: seek to the previewed position, if there is one,
      then stop dragging and forget the preview. The captured rectangle
      is kept. */
  function PointerUp(s: DragState): (r: (DragState, seq<Output>))
    ensures s.dragPosition.Some? ==> r.1 == [Seek(s.dragPosition.value)]
    ensures s.dragPosition.None? ==> r.1 == []
    ensures !r.0.isDragging && r.0.dragPosition.None? && r.0.rect == s.rect
  {
    var seeks := if s.dragPosition.Some? then [Seek(s.dragPosition.value)] else [];
    (DragState(false, None, s.rect), seeks)
  }

  // ---------------------------------------------------------------------
  // Derived views
  // ---------------------------------------------------------------------

  /** The position fed to the formatter: the preview while dragging, the
      player's live position otherwise. */
  function DisplayedPosition(s: DragState, currentPosition: real): (r: Option<real>)
    ensures s.isDragging ==> r == s.dragPosition
    ensures !s.isDragging ==> r == Some(currentPosition)
  {
    if s.isDragging then s.dragPosition else Some(currentPosition)
  }

  /** The width of the filled part of the bar, in percent. */
  function ProgressPercentage(s: DragState, currentPosition: real, duration: Option<real>): (r: real)
    ensures !HasDuration(duration) ==> r == 0.0
    ensures r <= 100.0
  {
    if !HasDuration(duration) then 0.0
    else Min(s.dragPosition.GetOr(currentPosition) / duration.value * 100.0, 100.0)
  }

  // ---------------------------------------------------------------------
  // Event dispatch
  // ---------------------------------------------------------------------

  /** A pointer event. `Down` is delivered by the bar itself; `Move` and
      `Up` by the document, and only while the listeners registered by a
      successful pointer-down are in place. */
  datatype Event =
    | Down(clientX: real, measured: Option<Rect>)
    | Move(clientX: real)
    | Up

  function Dispatch(s: DragState, duration: Option<real>, e: Event): (r: (DragState, seq<Output>))
    ensures !e.Down? && !s.isDragging ==> r == (s, [])
    ensures e.Down? ==> r.1 == [] && r.0 == PointerDown(s, e.clientX, duration, e.measured)
    ensures e.Move? && s.isDragging ==> r == (PointerMove(s, e.clientX, duration), [])
    ensures e.Up? && s.isDragging ==> r == PointerUp(s)
    ensures |r.1| <= 1 && (|r.1| == 1 ==> e.Up? && s.isDragging && s.dragPosition.Some?)
  {
    match e
    case Down(x, measured) => (PointerDown(s, x, duration, measured), [])
    case Move(x) => if s.isDragging then (PointerMove(s, x, duration), []) else (s, [])
    case Up => if s.isDragging then PointerUp(s) else (s, [])
  }

  /** The final state and the outputs of a sequence of events. `duration`
      is the one the listeners captured when they were registered. */
  function Run(s: DragState, duration: Option<real>, events: seq<Event>): (DragState, seq<Output>)
    decreases |events|
  {
    if |events| == 0 then (s, [])
    else
      var (s1, out1) := Dispatch(s, duration, events[0]);
      var (s2, out2) := Run(s1, duration, events[1..]);
      (s2, out1 + out2)
  }

  function Moves(xs: seq<real>): (es: seq<Event>)
    ensures |es| == |xs|
    ensures forall i :: 0 <= i < |xs| ==> es[i] == Move(xs[i])
  {
    seq(|xs|, i requires 0 <= i < |xs| => Move(xs[i]))
  }

  // ---------------------------------------------------------------------
  // Properties
  // ---------------------------------------------------------------------

  /** The states the controller can reach: a preview exists exactly while
      dragging, and then the rectangle is captured and the preview lies in
      `[0, duration]`. */
  predicate Consistent(s: DragState, duration: Option<real>) {
    && (s.isDragging <==> s.dragPosition.Some?)
    && (s.isDragging ==> s.rect.Some? && duration.Some? && Between(s.dragPosition.value, duration.value))
  }

  lemma RunCons(s: DragState, duration: Option<real>, events: seq<Event>)
    requires |events| > 0
    ensures var (s1, out1) := Dispatch(s, duration, events[0]);
      Run(s, duration, events) == (Run(s1, duration, events[1..]).0, out1 + Run(s1, duration, events[1..]).1)
  {
  }

  lemma {:induction false} RunAppend(s: DragState, duration: Option<real>, a: seq<Event>, b: seq<Event>)
    ensures Run(s, duration, a + b).0 == Run(Run(s, duration, a).0, duration, b).0
    ensures Run(s, duration, a + b).1 == Run(s, duration, a).1 + Run(Run(s, duration, a).0, duration, b).1
    decreases |a|
  {
    if |a| == 0 {
      assert a + b == b;
    } else {
      assert (a + b)[0] == a[0];
      assert (a + b)[1..] == a[1..] + b;
      var s1 := Dispatch(s, duration, a[0]).0;
      RunAppend(s1, duration, a[1..], b);
    }
  }

  /** Every event keeps the controller consistent, and a seek is only ever
      issued for a position in `[0, duration]`. */
  lemma DispatchKeepsConsistent(s: DragState, duration: Option<real>, e: Event)
    requires Consistent(s, duration)
    ensures Consistent(Dispatch(s, duration, e).0, duration)
    ensures forall o :: o in Dispatch(s, duration, e).1 ==> duration.Some? && Between(o.position, duration.value)
  {
  }

  lemma {:induction false} RunKeepsConsistent(s: DragState, duration: Option<real>, events: seq<Event>)
    requires Consistent(s, duration)
    ensures Consistent(Run(s, duration, events).0, duration)
    ensures forall o :: o in Run(s, duration, events).1 ==> duration.Some? && Between(o.position, duration.value)
    decreases |events|
  {
    if |events| > 0 {
      DispatchKeepsConsistent(s, duration, events[0]);
      RunKeepsConsistent(Dispatch(s, duration, events[0]).0, duration, events[1..]);
    }
  }

  /** Moving the pointer during a drag only re-previews: no seek is
      issued, and the preview follows the last pointer x. */
  lemma {:induction false} MovesPreview(s: DragState, duration: Option<real>, xs: seq<real>)
    requires s.isDragging && s.rect.Some? && HasDuration(duration)
    ensures Run(s, duration, Moves(xs)).1 == []
    ensures Run(s, duration, Moves(xs)).0 ==
      if |xs| == 0 then s
      else DragState(true, Some(PositionAt(s.rect.value, xs[|xs| - 1], duration.value)), s.rect)
    decreases |xs|
  {
    if |xs| > 0 {
      var es := Moves(xs);
      var s1 := PointerMove(s, xs[0], duration);
      assert Dispatch(s, duration, es[0]) == (s1, []);
      assert es[1..] == Moves(xs[1..]);
      MovesPreview(s1, duration, xs[1..]);
    }
  }

  /** A press on the bar at `x0` followed by moves to each of `xs`. */
  function Hold(x0: real, rect: Rect, xs: seq<real>): seq<Event>
  {
    [Down(x0, Some(rect))] + Moves(xs)
  }

  /** A whole drag gesture: a hold, then the release. */
  function Drag(x0: real, rect: Rect, xs: seq<real>): seq<Event>
  {
    Hold(x0, rect, xs) + [Up]
  }

  /** The pointer x a drag ends at: the last move's, or the press's when
      there is no move. */
  function LastPointerX(x0: real, xs: seq<real>): real
  {
    if |xs| == 0 then x0 else xs[|xs| - 1]
  }

  /** Holding the pointer after a press with a truthy duration keeps the
      controller dragging, previewing the position under the last pointer
      x, with the pressed bar's rectangle captured, and issues no seek. */
  lemma HoldPreviews(s: DragState, duration: Option<real>, x0: real, rect: Rect, xs: seq<real>)
    requires HasDuration(duration)
    ensures Run(s, duration, Hold(x0, rect, xs))
         == (DragState(true, Some(PositionAt(rect, LastPointerX(x0, xs), duration.value)), Some(rect)), [])
  {
    var press := [Down(x0, Some(rect))];
    var down := PointerDown(s, x0, duration, Some(rect));
    RunCons(s, duration, press);
    assert press[1..] == [];
    RunAppend(s, duration, press, Moves(xs));
    MovesPreview(down, duration, xs);
    var none: seq<Output> := [];
    assert none + none == none;
  }

  /** A press with a truthy duration, any number of moves and a release
      issue exactly one seek, to the position under the last pointer x
      (the press's own x when there is no move), and leave the controller
      idle with no preview. */
  lemma DragGestureSeeksOnce(s: DragState, duration: Option<real>, x0: real, rect: Rect, xs: seq<real>)
    requires HasDuration(duration)
    ensures Run(s, duration, Drag(x0, rect, xs)).1
         == [Seek(PositionAt(rect, LastPointerX(x0, xs), duration.value))]
    ensures Run(s, duration, Drag(x0, rect, xs)).0
         == DragState(false, None, Some(rect))
  {
    HoldPreviews(s, duration, x0, rect, xs);
    var held := Run(s, duration, Hold(x0, rect, xs)).0;
    RunAppend(s, duration, Hold(x0, rect, xs), [Up]);
    ReleaseIsPointerUp(held, duration);
    var none: seq<Output> := [];
    assert none + PointerUp(held).1 == PointerUp(held).1;
  }

  /** A release during a drag runs `handlePointerUp` and nothing else. */
  lemma ReleaseIsPointerUp(held: DragState, duration: Option<real>)
    requires held.isDragging
    ensures Run(held, duration, [Up]) == PointerUp(held)
  {
    RunCons(held, duration, [Up]);
    assert [Up][1..] == [];
    assert PointerUp(held).1 + [] == PointerUp(held).1;
  }

  /** While the pointer is held, the displayed position and the fill are
      the preview's, whatever the player's live position does: after the
      press and any moves, two different live positions show the same. */
  lemma PreviewIgnoresLivePosition(s: DragState, duration: Option<real>, x0: real, rect: Rect,
                                   xs: seq<real>, live1: real, live2: real)
    requires HasDuration(duration)
    ensures DisplayedPosition(Run(s, duration, Hold(x0, rect, xs)).0, live1)
         == Some(PositionAt(rect, LastPointerX(x0, xs), duration.value))
    ensures DisplayedPosition(Run(s, duration, Hold(x0, rect, xs)).0, live1)
         == DisplayedPosition(Run(s, duration, Hold(x0, rect, xs)).0, live2)
    ensures ProgressPercentage(Run(s, duration, Hold(x0, rect, xs)).0, live1, duration)
         == ProgressPercentage(Run(s, duration, Hold(x0, rect, xs)).0, live2, duration)
  {
    HoldPreviews(s, duration, x0, rect, xs);
  }


  /** After the release the bar mirrors the player again: the displayed
      position is the live one and the fill is the one an untouched bar
      shows, computed from the live position. */
  lemma ReleaseShowsLivePosition(s: DragState, duration: Option<real>, x0: real, rect: Rect,
                                 xs: seq<real>, live: real)
    requires HasDuration(duration)
    ensures DisplayedPosition(Run(s, duration, Drag(x0, rect, xs)).0, live)
         == Some(live)
    ensures ProgressPercentage(Run(s, duration, Drag(x0, rect, xs)).0, live, duration)
         == ProgressPercentage(Mounted, live, duration)
  {
    DragGestureSeeksOnce(s, duration, x0, rect, xs);
  }

  /** Outside a drag (on mount, or after a release, which keeps the
      captured rectangle), a press without a truthy duration or on an
      unmounted bar changes nothing, and the moves and release that follow
      are not listened to. */
  lemma {:induction false} PressWithoutDurationIsIgnored(s: DragState, duration: Option<real>, x0: real,
                                                         measured: Option<Rect>, xs: seq<real>)
    requires !s.isDragging
    requires !HasDuration(duration) || measured.None?
    ensures Run(s, duration, [Down(x0, measured)] + Moves(xs) + [Up]) == (s, [])
  {
    var es := [Down(x0, measured)] + Moves(xs) + [Up];
    assert es[1..] == Moves(xs) + [Up];
    RunCons(s, duration, es);
    IdleIgnoresDocumentEvents(s, duration, es[1..]);
    var none: seq<Output> := [];
    assert none + none == none;
  }

  /** Outside a drag no document listener is registered: moves and
      releases change nothing and issue no seek. */
  lemma {:induction false} IdleIgnoresDocumentEvents(s: DragState, duration: Option<real>, events: seq<Event>)
    requires !s.isDragging
    requires forall i :: 0 <= i < |events| ==> !events[i].Down?
    ensures Run(s, duration, events) == (s, [])
    decreases |events|
  {
    if |events| > 0 {
      RunCons(s, duration, events);
      IdleIgnoresDocumentEvents(s, duration, events[1..]);
      var none: seq<Output> := [];
      assert none + none == none;
    }
  }

  /** During a drag on a track of positive length, the fill is the
      preview's fraction of the track, in percent, and lies in `[0, 100]`. */
  lemma FillDuringDrag(s: DragState, currentPosition: real, duration: Option<real>)
    requires Consistent(s, duration) && s.isDragging && duration.value > 0.0
    ensures var pct := ProgressPercentage(s, currentPosition, duration);
      && pct == s.dragPosition.value / duration.value * 100.0
      && 0.0 <= pct <= 100.0
  {
  }

  /** With no preview, the fill is the live position's share of a track of
      positive length, in percent, and lies in `[0, 100]` while the live
      position lies within the track. */
  lemma FillWithoutPreview(s: DragState, currentPosition: real, duration: Option<real>)
    requires s.dragPosition.None? && duration.Some? && duration.value > 0.0
    requires 0.0 <= currentPosition <= duration.value
    ensures var pct := ProgressPercentage(s, currentPosition, duration);
      && pct == currentPosition / duration.value * 100.0
      && 0.0 <= pct <= 100.0
  {
  }

  /** Dragging from the start to the middle of a 200-second track and
      releasing issues the single seek `seek(100)`. */
  lemma HalfwayDragExample()
    ensures var rect := BoundingRect(10.0, 400.0);
      Run(Mounted, Some(200.0), [Down(10.0, Some(rect)), Move(210.0), Up]).1 == [Seek(100.0)]
  {
    var rect: Rect := BoundingRect(10.0, 400.0);
    DragGestureSeeksOnce(Mounted, Some(200.0), 10.0, rect, [210.0]);
    assert [Down(10.0, Some(rect))] + Moves([210.0]) + [Up] == [Down(10.0, Some(rect)), Move(210.0), Up];
  }
}
