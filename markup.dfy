/**
 * The render decisions of the modal: whether the mask appears, what the
 * header's close control, the content region and the footer hold, which
 * controls exist, which handler each control runs and which of the
 * consumer's callbacks that handler fires.
 */
module Markup {
  import opened Css
  import opened Config

  /** The content region: unmounted, or mounted with a node (itself possibly falsy). */
  datatype Region = Destroyed | Mounted(node: Node)

  datatype Footer = NoFooter | CustomFooter(node: Node) | DefaultButtons(cancelText: string, okText: string)

  datatype CloseControl = NoClose | CustomIcon(icon: Node) | DefaultIcon

  /** The decisions one render makes. `hidden` is the hui-modal-hidden class. */
  datatype View = View(mask: bool, hidden: bool, close: CloseControl, content: Region, footer: Footer)

  /** The clickable controls of the panel. */
  datatype Control = CloseIcon | CancelButton | OkButton

  /** The two click handlers the controls are wired to. */
  datatype Handler = CloseHandler | ConfirmHandler

  /** The consumer's callbacks, as they are invoked. */
  datatype Callback = OnCancel | OnOk

  /**
   * The content region: destroyed exactly when the modal is closed and
   * destroy-on-close is set; otherwise `content` when truthy, else `children`.
   */
  function ContentRegion(destroyOnClose: bool, visible: bool, content: Node, children: Node): (r: Region)
    ensures r.Destroyed? <==> destroyOnClose && !visible
    ensures r.Mounted? && NodeTruthy(content) ==> r.node == content
    ensures r.Mounted? && !NodeTruthy(content) ==> r.node == children
  {
    if destroyOnClose then
      if visible then
        if NodeTruthy(content) then Mounted(content) else Mounted(children)
      else
        Destroyed
    else
      if NodeTruthy(content) then Mounted(content) else Mounted(children)
  }

  /** Without destroy-on-close, the content region does not depend on visibility. */
  lemma ContentKeptWithoutDestroy(content: Node, children: Node)
    ensures ContentRegion(false, true, content, children) == ContentRegion(false, false, content, children)
    ensures ContentRegion(false, true, content, children).Mounted?
  {
  }

  /**
   * The footer: none exactly when `footer` is `null`; a truthy `footer` replaces
   * the defaults; every other falsy value (undefined, false, 0, "") keeps the
   * default cancel and OK buttons.
   */
  function FooterOf(footer: Node, cancelText: string, okText: string): (f: Footer)
    ensures f.NoFooter? <==> footer == Null
    ensures f.CustomFooter? <==> NodeTruthy(footer)
    ensures f.CustomFooter? ==> f.node == footer
    ensures f.DefaultButtons? <==> footer != Null && !NodeTruthy(footer)
    ensures f.DefaultButtons? ==> f.cancelText == cancelText && f.okText == okText
  {
    if footer == Null then NoFooter
    else if NodeTruthy(footer) then CustomFooter(footer)
    else DefaultButtons(cancelText, okText)
  }

  /** An absent footer is not a suppressed one: undefined keeps the buttons, null removes them. */
  lemma UndefinedFooterIsNotNull(cancelText: string, okText: string)
    ensures FooterOf(Undefined, cancelText, okText) == DefaultButtons(cancelText, okText)
    ensures FooterOf(Null, cancelText, okText) == NoFooter
  {
  }

  /**
   * The close control in the header: none unless `closable`; then the given
   * icon when truthy, else the built-in cross.
   */
  function CloseControlOf(closable: bool, closeIcon: Node): (c: CloseControl)
    ensures c.NoClose? <==> !closable
    ensures c.CustomIcon? <==> closable && NodeTruthy(closeIcon)
    ensures c.CustomIcon? ==> c.icon == closeIcon
  {
    if closable then
      if NodeTruthy(closeIcon) then CustomIcon(closeIcon) else DefaultIcon
    else
      NoClose
  }

  /**
   * Everything one render decides. The inline and the portal branch render the
   * same markup, so one function stands for both.
   */
  function Layout(p: Props): (v: View)
    ensures v.mask <==> p.mask && p.visible
    ensures v.hidden <==> !p.visible
    ensures v.close == CloseControlOf(p.closable, p.closeIcon)
    ensures v.content == ContentRegion(p.destroyOnClose, p.visible, p.content, p.children)
    ensures v.footer == FooterOf(p.footer, p.cancelText, p.okText)
  {
    View(
      mask := p.mask && p.visible,
      hidden := !p.visible,
      close := CloseControlOf(p.closable, p.closeIcon),
      content := ContentRegion(p.destroyOnClose, p.visible, p.content, p.children),
      footer := FooterOf(p.footer, p.cancelText, p.okText))
  }

  /**
   * Showing or hiding the modal changes only the mask, the hidden class and
   * (with destroy-on-close) the content region: the close control and the
   * footer stay as they are, and a mask is never drawn over a hidden panel.
   */
  lemma VisibilityChangesOnlyMaskAndContent(p: Props, b: bool)
    ensures Layout(p.(visible := b)).close == Layout(p).close
    ensures Layout(p.(visible := b)).footer == Layout(p).footer
    ensures Controls(Layout(p.(visible := b))) == Controls(Layout(p))
    ensures !p.destroyOnClose ==> Layout(p.(visible := b)).content == Layout(p).content
    ensures Layout(p).mask ==> !Layout(p).hidden && Layout(p).content.Mounted?
  {
  }

  /**
   * The controls a view offers: the close icon with any close control, the
   * cancel and OK buttons only with the default footer.
   */
  function Controls(v: View): (cs: set<Control>)
    ensures CloseIcon in cs <==> !v.close.NoClose?
    ensures CancelButton in cs <==> v.footer.DefaultButtons?
    ensures OkButton in cs <==> v.footer.DefaultButtons?
  {
    (if v.close.NoClose? then {} else {CloseIcon})
    + (if v.footer.DefaultButtons? then {CancelButton, OkButton} else {})
  }

  /** The handler each control is wired to. */
  function HandlerOf(c: Control): (h: Handler)
    ensures h == ConfirmHandler <==> c == OkButton
  {
    match c
    case CloseIcon => CloseHandler
    case CancelButton => CloseHandler
    case OkButton => ConfirmHandler
  }

  /**
   * The callbacks one run of a handler invokes, in order: the close handler
   * invokes `onCancel` once if it was given, the confirm handler `onOk` once
   * if it was given, and neither invokes anything else.
   */
  function Fired(h: Handler, p: Props): (calls: seq<Callback>)
    ensures |calls| <= 1
    ensures OnCancel in calls <==> h == CloseHandler && p.hasOnCancel
    ensures OnOk in calls <==> h == ConfirmHandler && p.hasOnOk
  {
    match h
    case CloseHandler => if p.hasOnCancel then [OnCancel] else []
    case ConfirmHandler => if p.hasOnOk then [OnOk] else []
  }

  /**
   * One click on a control invokes the matching callback exactly once (or
   * nothing when it is absent) and never the other one.
   */
  lemma ClickFiresMatchingCallback(c: Control, p: Props)
    ensures c != OkButton ==> multiset(Fired(HandlerOf(c), p))[OnCancel] == (if p.hasOnCancel then 1 else 0)
    ensures c != OkButton ==> multiset(Fired(HandlerOf(c), p))[OnOk] == 0
    ensures c == OkButton ==> multiset(Fired(HandlerOf(c), p))[OnOk] == (if p.hasOnOk then 1 else 0)
    ensures c == OkButton ==> multiset(Fired(HandlerOf(c), p))[OnCancel] == 0
  {
  }

  /** With the default props, a closed modal shows no mask and no content, but keeps both buttons. */
  lemma ClosedDefaultModal()
    ensures !Layout(DefaultProps(false)).mask
    ensures Layout(DefaultProps(false)).content == Destroyed
    ensures Controls(Layout(DefaultProps(false))) == {CloseIcon, CancelButton, OkButton}
  {
  }
}
