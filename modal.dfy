/**
 * The mounted modal and the handlers that change it in place: the three
 * pointer handlers on the header, the close and confirm handlers, the effects
 * that run when `visible` or the viewport changes, and the re-render that
 * writes the style's left/top to the panel.
 *
 * DOM measurements (viewport size, the panel's bounding rectangle) arrive as
 * method parameters.
 */
module ModalComponent {
  import opened Css
  import opened Geometry
  import opened Config
  import opened Placement
  import opened Markup
  import opened DragMachine

  class Modal {
    /** The props of the latest render; only `visible` changes over time here. */
    var props: Props
    /** The viewport size held in component state. */
    var viewport: Size
    /** The panel's measured size held in component state (zero until first shown). */
    var element: Size
    /** The panel position recorded at mouse-down or after a visibility/viewport change. */
    var anchor: Point
    /** The pointer position at mouse-down. */
    var down: Point
    /** Whether the window mousemove/mouseup listeners are registered. */
    var dragging: bool
    /**
     * The viewport and panel sizes of the render whose mousemove listener was
     * registered last: the listener keeps them even if a later render changes them.
     */
    var captured: Sizes
    /** Whether the window resize listener is registered. */
    var resizeListening: bool
    /** The panel's inline style: left, top and cursor. */
    var left: CssLength
    var top: CssLength
    var cursor: Cursor
    /** The left/top entries of the last rendered style, which React compares against. */
    var styleLeft: Length
    var styleTop: Length
    /** The consumer's callbacks invoked so far, in order. */
    var calls: seq<Callback>

    /** The invariant apart from the rendered style, which a re-render brings up to date. */
    ghost predicate Consistent()
      reads this
    {
      && NonNegative(viewport) && NonNegative(element)
      && NonNegative(captured.viewport) && NonNegative(captured.panel)
      && (dragging ==> props.draggable)
      && resizeListening == props.visible
    }

    ghost predicate Valid()
      reads this
    {
      && Consistent()
      && styleLeft == StyleLeft(props.left, viewport, element)
      && styleTop == StyleTop(props.centered, props.top, viewport, element)
    }

    /** The gesture-related fields, as the drag state machine sees them. */
    ghost function Gesture(): DragState
      reads this
    {
      DragState(anchor, down, dragging, captured, left, top, cursor)
    }

    /** What the pointer handlers read besides the gesture fields. */
    function Context(): DragContext
      reads this
    {
      DragContext(props.draggable, Sizes(viewport, element))
    }

    /**
     * Mounting: the first render writes the style's left/top (panel size still
     * zero); then the effects record the panel position and, when visible,
     * measure the panel (which re-renders) and listen for resizes, or, when
     * hidden, reset the position.
     */
    constructor (p: Props, vp: Size, rect: Point, measured: Size)
      requires NonNegative(vp) && NonNegative(measured)
      ensures Valid()
      ensures props == p && viewport == vp && anchor == rect && down == Point(0.0, 0.0)
      ensures !dragging && cursor == Inherited && calls == []
      ensures element == (if p.visible then measured else Size(0.0, 0.0))
      ensures left == ToCss(styleLeft) && top == ToCss(styleTop)
    {
      props := p;
      viewport := vp;
      element := Size(0.0, 0.0);
      anchor := rect;
      down := Point(0.0, 0.0);
      dragging := false;
      captured := Sizes(vp, Size(0.0, 0.0));
      resizeListening := p.visible;
      styleLeft := StyleLeft(p.left, vp, Size(0.0, 0.0));
      styleTop := StyleTop(p.centered, p.top, vp, Size(0.0, 0.0));
      left := ToCss(StyleLeft(p.left, vp, Size(0.0, 0.0)));
      top := ToCss(StyleTop(p.centered, p.top, vp, Size(0.0, 0.0)));
      cursor := Inherited;
      calls := [];
      new;
      if p.visible {
        element := measured;
        Commit();
      } else {
        ResetMatchesRenderedStyle(props.left, props.top, props.centered, viewport, element);
        left := ResetLeft(props.left, viewport, element);
        top := ResetTop(props.centered, props.top, viewport, element);
      }
    }

    /**
     * A re-render: React writes a style entry to the panel only when it differs
     * from the previous render's, so a dragged position survives a render that
     * leaves the style unchanged.
     */
    method Commit()
      requires Consistent()
      modifies this`left, this`top, this`styleLeft, this`styleTop
      ensures Valid()
      ensures styleLeft == StyleLeft(props.left, viewport, element)
      ensures styleTop == StyleTop(props.centered, props.top, viewport, element)
      ensures left == (if styleLeft != old(styleLeft) then ToCss(styleLeft) else old(left))
      ensures top == (if styleTop != old(styleTop) then ToCss(styleTop) else old(top))
    {
      var nextLeft := StyleLeft(props.left, viewport, element);
      var nextTop := StyleTop(props.centered, props.top, viewport, element);
      if nextLeft != styleLeft {
        left := ToCss(nextLeft);
      }
      if nextTop != styleTop {
        top := ToCss(nextTop);
      }
      styleLeft, styleTop := nextLeft, nextTop;
    }

    /**
     * Mouse-down on the header: unless the modal is not draggable, record the
     * panel position and the pointer, register the move/up listeners (which
     * keep this render's sizes) and show the move cursor.
     */
    method OnMouseDown(pointer: Point, rect: Point)
      requires Valid()
      modifies this`anchor, this`down, this`dragging, this`captured, this`cursor
      ensures Valid()
      ensures Gesture() == Step(old(Gesture()), MouseDown(pointer, rect), Context())
      ensures !props.draggable ==> anchor == old(anchor) && down == old(down) && dragging == old(dragging) && captured == old(captured) && cursor == old(cursor)
      ensures props.draggable ==> anchor == rect && down == pointer && dragging && cursor == MoveCursor
      ensures props.draggable ==> captured == Sizes(viewport, element)
    {
      if !props.draggable {
        return;
      }
      anchor := rect;
      down := pointer;
      dragging := true;
      captured := Sizes(viewport, element);
      cursor := MoveCursor;
    }

    /**
     * Mouse-move while the listener is registered: place the panel at the
     * pointer's displacement from mouse-down, raised to the top edge, lowered to
     * keep the header visible, then kept within half a panel of the left and
     * right edges, all against the sizes the listener captured.
     */
    method OnMousemove(pointer: Point)
      requires Valid()
      modifies this`left, this`top
      ensures Valid()
      ensures Gesture() == Step(old(Gesture()), MouseMove(pointer), Context())
      ensures old(dragging) ==> InDragBounds(left, top, captured)
      ensures !old(dragging) ==> left == old(left) && top == old(top)
    {
      if !dragging {
        return;
      }
      var xPosition := pointer.x - down.x + anchor.x;
      var yPosition := pointer.y - down.y + anchor.y;
      var vp, panel := captured.viewport, captured.panel;
      if yPosition <= 0.0 {
        yPosition := 0.0;
      }
      if yPosition >= vp.height - HEADER_ALLOWANCE {
        yPosition := vp.height - HEADER_ALLOWANCE;
      }
      if xPosition <= -panel.width / 2.0 {
        xPosition := -panel.width / 2.0;
      }
      if xPosition >= vp.width - panel.width / 2.0 {
        xPosition := vp.width - panel.width / 2.0;
      }
      left := Px(xPosition);
      top := Px(yPosition);
    }

    /** Mouse-up while the listener is registered: unregister and restore the default cursor. */
    method OnMouseUp()
      requires Valid()
      modifies this`dragging, this`cursor
      ensures Valid()
      ensures Gesture() == Step(old(Gesture()), MouseUp, Context())
      ensures !dragging
      ensures old(dragging) ==> cursor == DefaultCursor
    {
      if !dragging {
        return;
      }
      dragging := false;
      cursor := DefaultCursor;
    }

    /**
     * The close handler (close icon and cancel button): invoke `onCancel` if
     * given, then put the panel back where the render places it.
     */
    method CloseModal()
      requires Valid()
      modifies this`calls, this`left, this`top
      ensures Valid()
      ensures calls == old(calls) + Fired(CloseHandler, props)
      ensures left == ResetLeft(props.left, viewport, element)
      ensures top == ResetTop(props.centered, props.top, viewport, element)
      ensures left == ToCss(styleLeft) && top == ToCss(styleTop)
    {
      if props.hasOnCancel {
        calls := calls + [OnCancel];
      }
      ResetMatchesRenderedStyle(props.left, props.top, props.centered, viewport, element);
      left := ResetLeft(props.left, viewport, element);
      top := ResetTop(props.centered, props.top, viewport, element);
    }

    /** The OK button's handler: invoke `onOk` if given. */
    method ConfirmBtnClick()
      requires Valid()
      modifies this`calls
      ensures Valid()
      ensures calls == old(calls) + Fired(ConfirmHandler, props)
    {
      if props.hasOnOk {
        calls := calls + [OnOk];
      }
    }

    /** A click on one of the rendered controls runs the handler it is wired to. */
    method Click(c: Control)
      requires Valid()
      requires c in Controls(Layout(props))
      modifies this`calls, this`left, this`top
      ensures Valid()
      ensures calls == old(calls) + Fired(HandlerOf(c), props)
      ensures c == OkButton ==> left == old(left) && top == old(top)
      ensures c != OkButton ==> left == ToCss(styleLeft) && top == ToCss(styleTop)
    {
      match HandlerOf(c)
      case CloseHandler => CloseModal();
      case ConfirmHandler => ConfirmBtnClick();
    }

    /**
     * The consumer changes `visible`. When it actually changes, the effects
     * run: record the panel position; on opening, measure the panel (a
     * re-render) and listen for resizes; on closing, reset the position and
     * stop listening.
     */
    method SetVisible(v: bool, rect: Point, measured: Size)
      requires Valid() && NonNegative(measured)
      modifies this`props, this`element, this`anchor, this`resizeListening, this`left, this`top, this`styleLeft, this`styleTop
      ensures Valid()
      ensures props == old(props).(visible := v) && resizeListening == v
      ensures v == old(props.visible) ==> element == old(element) && anchor == old(anchor) && left == old(left) && top == old(top)
      ensures v != old(props.visible) ==> anchor == rect
      ensures v && !old(props.visible) ==> element == measured
      ensures v && !old(props.visible) ==> left == (if styleLeft != old(styleLeft) then ToCss(styleLeft) else old(left))
      ensures v && !old(props.visible) ==> top == (if styleTop != old(styleTop) then ToCss(styleTop) else old(top))
      ensures !v && old(props.visible) ==> element == old(element)
      ensures !v && old(props.visible) ==> left == ResetLeft(props.left, viewport, element) && top == ResetTop(props.centered, props.top, viewport, element)
      ensures !v && old(props.visible) ==> left == ToCss(styleLeft) && top == ToCss(styleTop)
    {
      if v == props.visible {
        return;
      }
      props := props.(visible := v);
      anchor := rect;
      if v {
        element := measured;
        resizeListening := true;
        Commit();
      } else {
        ResetMatchesRenderedStyle(props.left, props.top, props.centered, viewport, element);
        left := ResetLeft(props.left, viewport, element);
        top := ResetTop(props.centered, props.top, viewport, element);
        resizeListening := false;
      }
    }

    /**
     * A window resize, delivered only while the resize listener is registered:
     * store the new viewport (a re-render), then record the panel position.
     */
    method Resize(vp: Size, rect: Point)
      requires Valid() && NonNegative(vp)
      modifies this`viewport, this`anchor, this`left, this`top, this`styleLeft, this`styleTop
      ensures Valid()
      ensures old(resizeListening) ==> viewport == vp && anchor == rect
      ensures old(resizeListening) ==> left == (if styleLeft != old(styleLeft) then ToCss(styleLeft) else old(left))
      ensures old(resizeListening) ==> top == (if styleTop != old(styleTop) then ToCss(styleTop) else old(top))
      ensures !old(resizeListening) ==> viewport == old(viewport) && anchor == old(anchor) && left == old(left) && top == old(top)
      ensures dragging == old(dragging) && captured == old(captured)
    {
      if !resizeListening {
        return;
      }
      viewport := vp;
      Commit();
      anchor := rect;
    }
  }
}
