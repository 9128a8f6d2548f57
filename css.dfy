/**
 * The JavaScript and CSS values the modal panel works with: optional values,
 * `number | string` lengths, the text written to an element's inline style,
 * React nodes, and JavaScript truthiness over them.
 */
module Css {

  datatype Option<+T> = None | Some(value: T)

  /** A `number | string` value, as the `left`/`top` props and style entries carry it. */
  datatype Length = Num(n: real) | Str(s: string)

  /**
   * The CSS value `element.style.left`/`top` holds: a pixel length, or the
   * value a string parses to. Equality here is equality of CSS values, not of
   * the text React writes (React writes a numeric 0 as "0" and trims strings).
   */
  datatype CssLength = Px(px: real) | Raw(text: string)

  /**
   * A React node as far as the render decisions look at it: JavaScript's falsy
   * scalars, strings, numbers, and any element (opaque here).
   */
  datatype Node = Undefined | Null | Bool(b: bool) | Number(n: real) | Text(s: string) | Element(tag: string)

  /** JavaScript truthiness of an optional `number | string` (NaN is not modelled). */
  predicate LengthTruthy(o: Option<Length>) {
    match o
    case None => false
    case Some(Num(n)) => n != 0.0
    case Some(Str(s)) => s != ""
  }

  /** JavaScript truthiness of a React node (every element is an object, hence truthy). */
  predicate NodeTruthy(node: Node) {
    match node
    case Undefined => false
    case Null => false
    case Bool(b) => b
    case Number(n) => n != 0.0
    case Text(s) => s != ""
    case Element(_) => true
  }

  /**
   * The CSS value React gives a style entry: a number is a length in px
   * (0 and 0px being the same value), a string is parsed as CSS.
   */
  function ToCss(v: Length): (c: CssLength)
    ensures c.Px? <==> v.Num?
    ensures v.Num? ==> c.px == v.n
    ensures v.Str? ==> c.text == v.s
  {
    match v
    case Num(n) => Px(n)
    case Str(s) => Raw(s)
  }
}
