/**
 * Where the panel sits when nobody drags it: the `left`/`top` entries of the
 * rendered style, and the values written back when the modal closes.
 */
module Placement {
  import opened Css
  import opened Geometry

  /**
   * The `left` entry of the rendered style: the `left` prop when it is truthy,
   * otherwise the offset that centres the panel horizontally.
   */
  function StyleLeft(left: Option<Length>, viewport: Size, panel: Size): (v: Length)
    ensures LengthTruthy(left) ==> v == left.value
    ensures !LengthTruthy(left) ==> v.Num? && CentredIn(v.n, panel.width, viewport.width)
  {
    if LengthTruthy(left) then left.value else Num(viewport.width / 2.0 - panel.width / 2.0)
  }

  /**
   * The `top` entry of the rendered style: the vertically centring offset when
   * `centered`, otherwise the `top` prop.
   */
  function StyleTop(centered: bool, top: Length, viewport: Size, panel: Size): (v: Length)
    ensures centered ==> v.Num? && CentredIn(v.n, panel.height, viewport.height)
    ensures !centered ==> v == top
  {
    if centered then Num(viewport.height / 2.0 - panel.height / 2.0) else top
  }

  /**
   * The `left` written to the panel when it closes: a truthy numeric `left`
   * becomes "<n>px", a truthy string is used verbatim, anything falsy centres.
   */
  function ResetLeft(left: Option<Length>, viewport: Size, panel: Size): (c: CssLength)
    ensures LengthTruthy(left) ==> c == ToCss(left.value)
    ensures !LengthTruthy(left) ==> c.Px? && CentredIn(c.px, panel.width, viewport.width)
  {
    if LengthTruthy(left) then
      match left.value
      case Num(n) => Px(n)
      case Str(s) => Raw(s)
    else
      Px(viewport.width / 2.0 - panel.width / 2.0)
  }

  /**
   * The `top` written to the panel when it closes: the centring offset when
   * `centered`, otherwise a string `top` verbatim or a numeric one as "<n>px".
   */
  function ResetTop(centered: bool, top: Length, viewport: Size, panel: Size): (c: CssLength)
    ensures centered ==> c.Px? && CentredIn(c.px, panel.height, viewport.height)
    ensures !centered ==> c == ToCss(top)
  {
    if centered then
      Px(viewport.height / 2.0 - panel.height / 2.0)
    else if top.Str? then
      Raw(top.s)
    else
      Px(top.n)
  }

  /**
   * Closing puts the panel exactly where the render places it: the reset
   * values are what React writes for the rendered style entries.
   */
  lemma ResetMatchesRenderedStyle(left: Option<Length>, top: Length, centered: bool, viewport: Size, panel: Size)
    ensures ResetLeft(left, viewport, panel) == ToCss(StyleLeft(left, viewport, panel))
    ensures ResetTop(centered, top, viewport, panel) == ToCss(StyleTop(centered, top, viewport, panel))
  {
  }

  /** A falsy `left` (absent, 0 or "") centres the panel, in the style and on reset alike. */
  lemma FalsyLeftCentres(viewport: Size, panel: Size)
    ensures ResetLeft(Some(Num(0.0)), viewport, panel) == ResetLeft(None, viewport, panel)
    ensures ResetLeft(Some(Str("")), viewport, panel) == ResetLeft(None, viewport, panel)
    ensures StyleLeft(Some(Num(0.0)), viewport, panel) == StyleLeft(None, viewport, panel)
    ensures StyleLeft(Some(Str("")), viewport, panel) == StyleLeft(None, viewport, panel)
  {
  }

  /** With `centered`, the `top` prop has no effect on either placement. */
  lemma CenteredIgnoresTop(top1: Length, top2: Length, viewport: Size, panel: Size)
    ensures ResetTop(true, top1, viewport, panel) == ResetTop(true, top2, viewport, panel)
    ensures StyleTop(true, top1, viewport, panel) == StyleTop(true, top2, viewport, panel)
  {
  }
}
