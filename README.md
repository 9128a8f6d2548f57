# Modal panel: a Dafny model

This project models the logic of the modal dialog component of react-modal
(`src/Modal/Modal.tsx`): a panel that can be dragged by its header within
the viewport, that returns to its configured or centred position when it
closes, and whose render decides whether a mask appears, what the content
region holds, which footer is shown, and which of the consumer's callbacks
each control fires.

Modules:

- `Css`: the JavaScript values involved (`number | string` lengths, React
  nodes, JavaScript truthiness) and the CSS value React gives a style entry
  (a number is a length in px).
- `Geometry`: points, sizes, the 46-unit header allowance and `Clamp`,
  which raises to a lower bound and then lowers to an upper bound, in that
  order.
- `Config`: the props after React has applied the default props.
- `Placement`: the `left`/`top` entries of the rendered style and the
  `left`/`top` written back when the modal closes. Both close sites share
  one definition, and a lemma proves it equals what React renders.
- `Markup`: the render decisions (mask, close control, content region,
  footer), the controls they offer, the handler each control runs, and the
  callbacks each handler fires.
- `DragMachine`: the drag gesture as a pure state machine (idle/dragging)
  over mouse-down/move/up events. It also covers runs of events, with
  lemmas about bounds, path independence and whole gestures.
- `ModalComponent`: the class `Modal`, whose fields are the component's
  state, refs and the panel's inline style. Its methods are the handlers and
  effects. Each pointer handler is proved to perform one step of
  `DragMachine.Step` on its fields.

Coordinates are `real`: the source only adds, subtracts and halves them.
DOM measurements are method parameters: the viewport size, the panel's
bounding rectangle at mouse-down or after a visibility or viewport change,
and the panel's size when it is shown.

Two behaviours of the code worth knowing:

- Only `footer === null` suppresses the footer (src/Modal/Modal.tsx:249).
  `undefined`, `false`, `0` and `""` keep the default buttons.
- The upper bound on top is applied after the lower one, so a viewport
  shorter than the 46-unit header allowance gives a negative top after a
  drag (src/Modal/Modal.tsx:146-152).

The mousemove listener is a closure over the render that registered it at
mouse-down. It clamps against that render's viewport and panel size, even
if a resize re-renders the modal during the drag. The model records those
sizes at mouse-down (`captured`) and clamps against them.

## Model

| member | source | states |
|---|---|---|
| `Css.ToCss` | src/Modal/Modal.tsx:193-199 | a numeric style value becomes a px length of the same number, a string stays the CSS value it denotes |
| `Geometry.Clamp` | src/Modal/Modal.tsx:146-160 | the result never exceeds the upper bound; it is at least the lower bound when the range is non-empty; it is the input itself inside the range; an empty range yields the upper bound |
| `Placement.StyleLeft` | src/Modal/Modal.tsx:197 | rendered left is the truthy `left` prop, else an offset whose panel midpoint is the viewport midpoint |
| `Placement.StyleTop` | src/Modal/Modal.tsx:198 | rendered top is vertically centring when `centered`, else the `top` prop |
| `Placement.ResetLeft` | src/Modal/Modal.tsx:102 | on close, left is the truthy `left` as "<n>px" or verbatim, else the horizontally centring px offset |
| `Placement.ResetTop` | src/Modal/Modal.tsx:103 | on close, top is the vertically centring px offset when `centered`, else `top` as "<n>px" or verbatim |
| `Placement.ResetMatchesRenderedStyle` | src/Modal/Modal.tsx:102-103 | the reset left/top equal what React writes for the rendered style's left/top |
| `Placement.FalsyLeftCentres` | src/Modal/Modal.tsx:102 | `left` of 0 or "" behaves as an absent `left`: the panel is centred, in the style and on reset |
| `Placement.CenteredIgnoresTop` | src/Modal/Modal.tsx:103 | with `centered` the `top` prop has no effect on either placement |
| `Markup.ContentRegion` | src/Modal/Modal.tsx:238-246 | the content region is destroyed exactly when destroy-on-close is set and the modal is hidden; when mounted it holds `content` if truthy, else `children` |
| `Markup.ContentKeptWithoutDestroy` | src/Modal/Modal.tsx:239-245 | without destroy-on-close the content region is mounted and the same whether visible or not |
| `Markup.FooterOf` | src/Modal/Modal.tsx:249-264 | no footer exactly when `footer` is null; a custom footer exactly when it is truthy; the default cancel/OK buttons with the given texts for every other falsy value |
| `Markup.UndefinedFooterIsNotNull` | src/Modal/Modal.tsx:249-256 | an undefined footer keeps the default buttons while a null one removes the footer |
| `Markup.CloseControlOf` | src/Modal/Modal.tsx:219-235 | no close control exactly when not closable; the given icon exactly when closable and the icon is truthy, else the built-in icon |
| `Markup.VisibilityChangesOnlyMaskAndContent` | src/Modal/Modal.tsx:190-265 | toggling `visible` leaves the close control, the footer and the set of controls unchanged, and also the content without destroy-on-close; a rendered mask implies a visible panel with mounted content |
| `Markup.Controls` | src/Modal/Modal.tsx:216-264 | the close icon exists iff there is a close control; the cancel and OK buttons exist iff the footer is the default one |
| `Markup.HandlerOf` | src/Modal/Modal.tsx:220-260 | only the OK button runs the confirm handler; the close icon and the cancel button run the close handler |
| `Markup.Fired` | src/Modal/Modal.tsx:176-188 | a handler invokes at most one callback: `onCancel` iff it is the close handler and `onCancel` was given, `onOk` iff it is the confirm handler and `onOk` was given |
| `Markup.ClickFiresMatchingCallback` | src/Modal/Modal.tsx:176-188 | a click on the close icon or cancel button invokes `onCancel` exactly once (none if absent) and never `onOk`; the OK button invokes `onOk` exactly once (none if absent) and never `onCancel` |
| `Markup.ClosedDefaultModal` | src/Modal/Modal.tsx:337-352 | with the default props a hidden modal has no mask and no content but offers the close icon and both default buttons |
| `DragMachine.DownIgnoredWhenNotDraggable` | src/Modal/Modal.tsx:122-125 | mouse-down on a non-draggable modal changes nothing |
| `DragMachine.DownStartsGesture` | src/Modal/Modal.tsx:126-135 | mouse-down on a draggable modal records the panel position and the pointer, enters dragging with the move cursor, captures the current render's sizes for the listeners, and leaves left/top alone |
| `DragMachine.UpEndsGesture` | src/Modal/Modal.tsx:166-171 | mouse-up during a gesture returns to idle with the default cursor, position unchanged |
| `DragMachine.MoveStaysInBounds` | src/Modal/Modal.tsx:143-160 | after a move, with the sizes captured at mouse-down: top ≤ viewport height − 46 and ≥ 0 when the viewport is at least 46 tall; left lies within half a panel of both edges (lower bound for a non-negative viewport width) |
| `DragMachine.MoveIgnoresLaterRenders` | src/Modal/Modal.tsx:133-164 | a move does not depend on the current render: it clamps against the sizes its listener captured, which it leaves unchanged |
| `DragMachine.MoveExactInsideBounds` | src/Modal/Modal.tsx:143-163 | when anchor + (pointer − down-pointer) is already inside both ranges, the panel goes exactly there |
| `DragMachine.ShortViewportGivesNegativeTop` | src/Modal/Modal.tsx:146-152 | a viewport lower than 46 puts the top at viewport height − 46, which is negative |
| `DragMachine.RunInBoundsOrUnmoved` | src/Modal/Modal.tsx:122-171 | while no re-render changes the sizes (an idle modal may hold any earlier gesture's sizes; a dragging one holds the current render's), after any sequence of pointer events the panel keeps its position or lies within the drag bounds |
| `DragMachine.RunInertWhenNotDraggable` | src/Modal/Modal.tsx:122-125 | on a non-draggable, idle modal no sequence of pointer events changes anything |
| `DragMachine.LatestPointerDecides` | src/Modal/Modal.tsx:138-164 | during a gesture, a run of moves ends where its last move alone would put the panel: position depends on the latest pointer, not on the path |
| `DragMachine.GestureEndsAtLastTarget` | src/Modal/Modal.tsx:122-171 | down, one or more moves, up: idle with the default cursor, anchor and down-pointer from the mouse-down, panel at the clamped target of the last pointer |
| `ModalComponent.Modal.constructor` | src/Modal/Modal.tsx:67-109 | mounting records the panel position, measures the panel and listens for resizes when visible, and leaves the panel at the rendered style's left/top |
| `ModalComponent.Modal.Commit` | src/Modal/Modal.tsx:193-199 | a render writes left/top to the panel only where the style entry changed since the previous render |
| `ModalComponent.Modal.OnMouseDown` | src/Modal/Modal.tsx:122-136 | is one `MouseDown` step of the drag machine: a no-op unless draggable, else anchor := panel position, down := pointer, dragging, captured := current viewport and panel size, cursor `move` |
| `ModalComponent.Modal.OnMousemove` | src/Modal/Modal.tsx:138-164 | is one `MouseMove` step: while dragging, left/top become the target clamped against the captured sizes and lie within their drag bounds; otherwise nothing changes |
| `ModalComponent.Modal.OnMouseUp` | src/Modal/Modal.tsx:166-171 | is one `MouseUp` step: ends dragging; a gesture in progress ends with cursor `default` |
| `ModalComponent.Modal.CloseModal` | src/Modal/Modal.tsx:176-181 | appends `onCancel` to the callback log iff given, and resets left/top to the values the render prescribes |
| `ModalComponent.Modal.ConfirmBtnClick` | src/Modal/Modal.tsx:186-188 | appends `onOk` to the callback log iff given, nothing else changes |
| `ModalComponent.Modal.Click` | src/Modal/Modal.tsx:220-260 | a click on a rendered control fires exactly the callbacks of its handler; only the close controls reset the position |
| `ModalComponent.Modal.SetVisible` | src/Modal/Modal.tsx:85-109 | a change of `visible` records the panel position; opening measures the panel and re-renders; closing resets left/top to the rendered style's values; the resize listener is registered iff visible |
| `ModalComponent.Modal.Resize` | src/Modal/Modal.tsx:85-116 | while listening, stores the viewport, re-renders and records the panel position; otherwise nothing changes; a drag in progress keeps its listeners and captured sizes |

## Left out

- DOM measurement (`getBoundingClientRect`, `clientWidth`/`clientHeight`) is not modelled. The measured values are method parameters, and sizes are assumed non-negative.
- Event-listener registration is modelled only by the `dragging` and `resizeListening` flags.
- Listener identity is not modelled. A mouse-down in a later render registers new listener functions beside any earlier ones. Each mouse-up listener removes only its own pair. The model keeps one captured set of sizes, the most recent one. That set belongs to the listener that runs last, so its write is the one that stays.
- Only `visible` changes over the life of an instance. Changes to the other props, and the re-renders they cause, are not modelled.
- `preventDefault` on the close click is not modelled.
- Mounting into a portal versus inline (`getContainer`) is not modelled: it is a library call and both branches render the same markup.
- Class-name composition, title, width, z-index, mask opacity, the user `style`, the built-in close icon's SVG and the stylesheet are rendering data. They are not modelled.
- What the consumer's callbacks do is not modelled. Their invocations are recorded in order in `calls`.
- JavaScript number corner cases (NaN, infinities, −0) are not modelled.
- The text React writes into the style is not modelled: `Px(n)` and `Raw(s)` stand for CSS values, so equalities between them, such as the one `ResetMatchesRenderedStyle` proves, hold up to CSS parsing (React writes a numeric 0 as "0" and trims strings).
- Whether the panel is hidden when a pointer event arrives does not affect the model. The source does not check it either.
