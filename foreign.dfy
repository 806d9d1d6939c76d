/**
 * The UIKit and Foundation value types that a TextStyle only stores and
 * tests for nil. Their internals are not visible here, so they are opaque;
 * `CGFloat` and `Float` values are stored as `real` and never computed with.
 */
module Foreign {

  /** UIFont */
  type Font(==)

  /** UIColor */
  type Color(==)

  /** NSUnderlineStyle */
  type UnderlineStyle(==)

  /** NSTextAlignment; a new paragraph style holds some default of it. */
  type TextAlignment(==, 0)

  /** NSLineBreakMode */
  type LineBreakMode(==, 0)

  /** NSWritingDirection */
  type WritingDirection(==, 0)

  /** CGSize */
  datatype Size = Size(width: real, height: real)

  /** CGSize.zero */
  const ZeroSize := Size(0.0, 0.0)
}
