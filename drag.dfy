/**
 * The drag gesture on the modal's header as a state machine: mouse-down on the
 * header starts a gesture, every mouse-move while dragging places the panel at
 * the pointer's displacement from the start, clamped to the viewport, and
 * mouse-up ends the gesture. This is the specification the class in
 * ModalComponent is proved against.
 */
module DragMachine {
  import opened Css
  import opened Geometry

  datatype Cursor = Inherited | MoveCursor | DefaultCursor

  /** The viewport and panel sizes of one render. */
  datatype Sizes = Sizes(viewport: Size, panel: Size)

  /**
   * The part of the modal a gesture touches: the panel position recorded at
   * mouse-down (`anchor`), the pointer at mouse-down (`down`), whether the
   * move/up listeners are registered (`dragging`), the sizes those listeners
   * captured from the render that registered them (`captured`), and the
   * panel's inline left, top and cursor.
   */
  datatype DragState = DragState(anchor: Point, down: Point, dragging: bool, captured: Sizes, left: CssLength, top: CssLength, cursor: Cursor)

  /**
   * A pointer event. `rect` is the panel's measured position at mouse-down
   * (its bounding rectangle), which the DOM supplies.
   */
  datatype PointerEvent = MouseDown(pointer: Point, rect: Point) | MouseMove(pointer: Point) | MouseUp

  /** What the render handling a mouse-down supplies: the prop and its sizes. */
  datatype DragContext = DragContext(draggable: bool, sizes: Sizes)

  /** The requested position: the displacement of the mouse since mouse-down, added to the anchor. */
  function Unclamped(s: DragState, pointer: Point): Point {
    Point(pointer.x - s.down.x + s.anchor.x, pointer.y - s.down.y + s.anchor.y)
  }

  /**
   * The position a mouse-move gives the panel: the requested one, clamped on
   * each axis against the sizes the move listener captured.
   */
  function Target(s: DragState, pointer: Point): Point {
    var u := Unclamped(s, pointer);
    var sz := s.captured;
    Point(Clamp(u.x, MinLeft(sz.panel), MaxLeft(sz.viewport, sz.panel)),
          Clamp(u.y, MIN_TOP, MaxTop(sz.viewport)))
  }

  /**
   * The drag bounds: top at most the viewport height less the header, and not
   * negative when the viewport is at least that tall; left within half a panel
   * of either edge (the lower bound needs a viewport of non-negative width).
   */
  predicate InDragBounds(left: CssLength, top: CssLength, sz: Sizes) {
    && left.Px? && top.Px?
    && top.px <= MaxTop(sz.viewport)
    && (sz.viewport.height >= HEADER_ALLOWANCE ==> MIN_TOP <= top.px)
    && left.px <= MaxLeft(sz.viewport, sz.panel)
    && (sz.viewport.width >= 0.0 ==> MinLeft(sz.panel) <= left.px)
  }

  /**
   * One event. Mouse-down does nothing unless the modal is draggable, and
   * otherwise registers listeners that keep the sizes of the render handling
   * it; move and up reach the handlers only while those are registered.
   */
  function Step(s: DragState, ev: PointerEvent, ctx: DragContext): DragState {
    match ev
    case MouseDown(pointer, rect) =>
      if !ctx.draggable then s
      else s.(anchor := rect, down := pointer, dragging := true, captured := ctx.sizes, cursor := MoveCursor)
    case MouseMove(pointer) =>
      if !s.dragging then s
      else
        var t := Target(s, pointer);
        s.(left := Px(t.x), top := Px(t.y))
    case MouseUp =>
      if !s.dragging then s
      else s.(dragging := false, cursor := DefaultCursor)
  }

  /** A sequence of events, applied in order. */
  function Run(s: DragState, evs: seq<PointerEvent>, ctx: DragContext): DragState
    decreases |evs|
  {
    if evs == [] then s else Run(Step(s, evs[0], ctx), evs[1..], ctx)
  }

  /** Mouse-down on a modal that is not draggable changes nothing. */
  lemma DownIgnoredWhenNotDraggable(s: DragState, pointer: Point, rect: Point, ctx: DragContext)
    requires !ctx.draggable
    ensures Step(s, MouseDown(pointer, rect), ctx) == s
  {
  }

  /**
   * Mouse-down on a draggable modal records the panel position and the
   * pointer, registers the listeners and shows the move cursor; the panel
   * itself does not move.
   */
  lemma DownStartsGesture(s: DragState, pointer: Point, rect: Point, ctx: DragContext)
    requires ctx.draggable
    ensures var r := Step(s, MouseDown(pointer, rect), ctx);
      r.anchor == rect && r.down == pointer && r.dragging && r.cursor == MoveCursor
      && r.captured == ctx.sizes && r.left == s.left && r.top == s.top
  {
  }

  /** Mouse-up during a gesture returns to idle with the default cursor, keeping the position. */
  lemma UpEndsGesture(s: DragState, ctx: DragContext)
    requires s.dragging
    ensures var r := Step(s, MouseUp, ctx);
      !r.dragging && r.cursor == DefaultCursor && r.left == s.left && r.top == s.top
      && r.anchor == s.anchor && r.down == s.down
  {
  }

  /** After a mouse-move during a gesture the panel is within the drag bounds of the captured sizes. */
  lemma MoveStaysInBounds(s: DragState, pointer: Point, ctx: DragContext)
    requires s.dragging
    ensures var r := Step(s, MouseMove(pointer), ctx);
      InDragBounds(r.left, r.top, s.captured)
  {
  }

  /**
   * A move is clamped against the sizes captured at mouse-down, not those of
   * any later render: it does not depend on the current context at all.
   */
  lemma MoveIgnoresLaterRenders(s: DragState, pointer: Point, ctx1: DragContext, ctx2: DragContext)
    ensures Step(s, MouseMove(pointer), ctx1) == Step(s, MouseMove(pointer), ctx2)
    ensures Step(s, MouseMove(pointer), ctx1).captured == s.captured
  {
  }

  /** Inside the bounds clamping changes nothing: the panel goes exactly to the requested position. */
  lemma MoveExactInsideBounds(s: DragState, pointer: Point, ctx: DragContext)
    requires s.dragging
    requires MIN_TOP <= Unclamped(s, pointer).y <= MaxTop(s.captured.viewport)
    requires MinLeft(s.captured.panel) <= Unclamped(s, pointer).x <= MaxLeft(s.captured.viewport, s.captured.panel)
    ensures var r := Step(s, MouseMove(pointer), ctx);
      r.left == Px(Unclamped(s, pointer).x) && r.top == Px(Unclamped(s, pointer).y)
  {
  }

  /**
   * The lower bound on top is applied before the upper one, so a viewport
   * lower than the header puts the panel's top above the viewport.
   */
  lemma ShortViewportGivesNegativeTop(s: DragState, pointer: Point, ctx: DragContext)
    requires s.dragging && s.captured.viewport.height < HEADER_ALLOWANCE
    ensures var r := Step(s, MouseMove(pointer), ctx);
      r.top == Px(s.captured.viewport.height - HEADER_ALLOWANCE) && r.top.px < 0.0
  {
  }

  /** Running `a` then `b` is running `a + b`. */
  lemma {:induction false} RunConcat(s: DragState, a: seq<PointerEvent>, b: seq<PointerEvent>, ctx: DragContext)
    ensures Run(s, a + b, ctx) == Run(Run(s, a, ctx), b, ctx)
    decreases |a|
  {
    if a == [] {
      assert a + b == b;
    } else {
      assert (a + b)[1..] == a[1..] + b;
      RunConcat(Step(s, a[0], ctx), a[1..], b, ctx);
    }
  }

  /**
   * While the sizes do not change (no re-render), whatever events arrive, the
   * panel either keeps its position or ends within the drag bounds. An idle
   * modal may hold sizes left over from an earlier gesture: the next
   * mouse-down replaces them with the current ones.
   */
  lemma {:induction false} RunInBoundsOrUnmoved(s: DragState, evs: seq<PointerEvent>, ctx: DragContext)
    requires s.dragging ==> s.captured == ctx.sizes
    ensures var r := Run(s, evs, ctx);
      (r.left == s.left && r.top == s.top) || InDragBounds(r.left, r.top, ctx.sizes)
    decreases |evs|
  {
    if evs != [] {
      var s1 := Step(s, evs[0], ctx);
      assert s1.dragging ==> s1.captured == ctx.sizes;
      RunInBoundsOrUnmoved(s1, evs[1..], ctx);
      var r := Run(s1, evs[1..], ctx);
      if r.left == s1.left && r.top == s1.top && !(s1.left == s.left && s1.top == s.top) {
        assert evs[0].MouseMove? && s.dragging;
        MoveStaysInBounds(s, evs[0].pointer, ctx);
      }
    }
  }

  /** On a modal that is not draggable no sequence of events changes anything. */
  lemma {:induction false} RunInertWhenNotDraggable(s: DragState, evs: seq<PointerEvent>, ctx: DragContext)
    requires !ctx.draggable && !s.dragging
    ensures Run(s, evs, ctx) == s
    decreases |evs|
  {
    if evs != [] {
      assert Step(s, evs[0], ctx) == s;
      RunInertWhenNotDraggable(s, evs[1..], ctx);
    }
  }

  /**
   * During a gesture the position depends on the latest pointer only, not on
   * the path: a run of moves ends where its last move alone would put the panel.
   */
  lemma {:induction false} LatestPointerDecides(s: DragState, moves: seq<PointerEvent>, ctx: DragContext)
    requires s.dragging && |moves| > 0
    requires forall i :: 0 <= i < |moves| ==> moves[i].MouseMove?
    ensures Run(s, moves, ctx) == Step(s, moves[|moves| - 1], ctx)
    decreases |moves|
  {
    var s1 := Step(s, moves[0], ctx);
    if |moves| > 1 {
      var rest := moves[1..];
      assert forall i :: 0 <= i < |rest| ==> rest[i].MouseMove? by {
        forall i | 0 <= i < |rest| ensures rest[i].MouseMove? {
          assert rest[i] == moves[i + 1];
        }
      }
      LatestPointerDecides(s1, rest, ctx);
      assert rest[|rest| - 1] == moves[|moves| - 1];
    }
  }

  /**
   * A whole gesture on a draggable modal: mouse-down, at least one move, mouse-up.
   * It ends idle with the default cursor, and the panel at the clamped target
   * of the last pointer, measured from the mouse-down position against the
   * sizes of the render that handled the mouse-down.
   */
  lemma {:induction false} GestureEndsAtLastTarget(s: DragState, pointer: Point, rect: Point, moves: seq<PointerEvent>, ctx: DragContext)
    requires ctx.draggable && |moves| > 0
    requires forall i :: 0 <= i < |moves| ==> moves[i].MouseMove?
    ensures var r := Run(s, [MouseDown(pointer, rect)] + moves + [MouseUp], ctx);
      var t := Target(s.(anchor := rect, down := pointer, captured := ctx.sizes), moves[|moves| - 1].pointer);
      !r.dragging && r.cursor == DefaultCursor && r.anchor == rect && r.down == pointer
      && r.left == Px(t.x) && r.top == Px(t.y)
  {
    var s1 := Step(s, MouseDown(pointer, rect), ctx);
    RunConcat(s, [MouseDown(pointer, rect)], moves + [MouseUp], ctx);
    assert [MouseDown(pointer, rect)] + moves + [MouseUp] == [MouseDown(pointer, rect)] + (moves + [MouseUp]);
    assert Run(s, [MouseDown(pointer, rect)], ctx) == s1;
    RunConcat(s1, moves, [MouseUp], ctx);
    LatestPointerDecides(s1, moves, ctx);
  }
}
