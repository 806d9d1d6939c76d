/**
 * The two composite descriptors a TextStyle keeps: the shadow (NSShadow)
 * and the paragraph style (NSMutableParagraphStyle), reduced to the
 * sub-fields a TextStyle reads or writes.
 */
module Descriptors {
  import opened Wrappers
  import opened Foreign

  /** NSShadow: offset, blur radius and colour (nil is UIKit's default colour). */
  datatype Shadow = Shadow(offset: Size, blurRadius: real, color: Option<Color>)

  /** What `NSShadow()` holds; UIKit decides it, so it is left abstract. */
  const NewShadow: Shadow

  /** NSMutableParagraphStyle: the thirteen sub-fields a TextStyle exposes. */
  datatype ParagraphStyle = ParagraphStyle(
    lineSpacing: real,
    alignment: TextAlignment,
    firstLineHeadIndent: real,
    headIndent: real,
    tailIndent: real,
    lineBreakMode: LineBreakMode,
    minimumLineHeight: real,
    maximumLineHeight: real,
    baseWritingDirection: WritingDirection,
    lineHeightMultiple: real,
    paragraphSpacing: real,
    paragraphSpacingBefore: real,
    hyphenationFactor: real)

  /** What `NSMutableParagraphStyle()` holds; UIKit decides it, so it is left abstract. */
  const NewParagraphStyle: ParagraphStyle

  /** Names one of the thirteen paragraph sub-fields. */
  datatype ParagraphField =
    | LineSpacing | Alignment | FirstLineHeadIndent | HeadIndent | TailIndent
    | LineBreakMode | MinimumLineHeight | MaximumLineHeight | BaseWritingDirection
    | LineHeightMultiple | ParagraphSpacing | ParagraphSpacingBefore | HyphenationFactor

  /** One paragraph sub-field together with a value of its type. */
  datatype ParagraphSetting =
    | LineSpacing(lineSpacing: real)
    | Alignment(alignment: TextAlignment)
    | FirstLineHeadIndent(firstLineHeadIndent: real)
    | HeadIndent(headIndent: real)
    | TailIndent(tailIndent: real)
    | LineBreakMode(lineBreakMode: Foreign.LineBreakMode)
    | MinimumLineHeight(minimumLineHeight: real)
    | MaximumLineHeight(maximumLineHeight: real)
    | BaseWritingDirection(baseWritingDirection: WritingDirection)
    | LineHeightMultiple(lineHeightMultiple: real)
    | ParagraphSpacing(paragraphSpacing: real)
    | ParagraphSpacingBefore(paragraphSpacingBefore: real)
    | HyphenationFactor(hyphenationFactor: real)
  {
    /** The sub-field this setting is about. */
    function Field(): ParagraphField {
      match this
      case LineSpacing(_) => ParagraphField.LineSpacing
      case Alignment(_) => ParagraphField.Alignment
      case FirstLineHeadIndent(_) => ParagraphField.FirstLineHeadIndent
      case HeadIndent(_) => ParagraphField.HeadIndent
      case TailIndent(_) => ParagraphField.TailIndent
      case LineBreakMode(_) => ParagraphField.LineBreakMode
      case MinimumLineHeight(_) => ParagraphField.MinimumLineHeight
      case MaximumLineHeight(_) => ParagraphField.MaximumLineHeight
      case BaseWritingDirection(_) => ParagraphField.BaseWritingDirection
      case LineHeightMultiple(_) => ParagraphField.LineHeightMultiple
      case ParagraphSpacing(_) => ParagraphField.ParagraphSpacing
      case ParagraphSpacingBefore(_) => ParagraphField.ParagraphSpacingBefore
      case HyphenationFactor(_) => ParagraphField.HyphenationFactor
    }
  }

  /** Reads sub-field `f` of `p`, as the paragraph style's property getter does. */
  function Read(p: ParagraphStyle, f: ParagraphField): (r: ParagraphSetting)
    ensures r.Field() == f
  {
    match f
    case LineSpacing => ParagraphSetting.LineSpacing(p.lineSpacing)
    case Alignment => ParagraphSetting.Alignment(p.alignment)
    case FirstLineHeadIndent => ParagraphSetting.FirstLineHeadIndent(p.firstLineHeadIndent)
    case HeadIndent => ParagraphSetting.HeadIndent(p.headIndent)
    case TailIndent => ParagraphSetting.TailIndent(p.tailIndent)
    case LineBreakMode => ParagraphSetting.LineBreakMode(p.lineBreakMode)
    case MinimumLineHeight => ParagraphSetting.MinimumLineHeight(p.minimumLineHeight)
    case MaximumLineHeight => ParagraphSetting.MaximumLineHeight(p.maximumLineHeight)
    case BaseWritingDirection => ParagraphSetting.BaseWritingDirection(p.baseWritingDirection)
    case LineHeightMultiple => ParagraphSetting.LineHeightMultiple(p.lineHeightMultiple)
    case ParagraphSpacing => ParagraphSetting.ParagraphSpacing(p.paragraphSpacing)
    case ParagraphSpacingBefore => ParagraphSetting.ParagraphSpacingBefore(p.paragraphSpacingBefore)
    case HyphenationFactor => ParagraphSetting.HyphenationFactor(p.hyphenationFactor)
  }

  /**
   * Writes one sub-field of `p`, as the paragraph style's property setter
   * does: reading it back gives the written setting, and every other
   * sub-field reads as before.
   */
  function Write(p: ParagraphStyle, x: ParagraphSetting): (r: ParagraphStyle)
    ensures Read(r, x.Field()) == x
    ensures forall f :: f != x.Field() ==> Read(r, f) == Read(p, f)
  {
    match x
    case LineSpacing(v) => p.(lineSpacing := v)
    case Alignment(v) => p.(alignment := v)
    case FirstLineHeadIndent(v) => p.(firstLineHeadIndent := v)
    case HeadIndent(v) => p.(headIndent := v)
    case TailIndent(v) => p.(tailIndent := v)
    case LineBreakMode(v) => p.(lineBreakMode := v)
    case MinimumLineHeight(v) => p.(minimumLineHeight := v)
    case MaximumLineHeight(v) => p.(maximumLineHeight := v)
    case BaseWritingDirection(v) => p.(baseWritingDirection := v)
    case LineHeightMultiple(v) => p.(lineHeightMultiple := v)
    case ParagraphSpacing(v) => p.(paragraphSpacing := v)
    case ParagraphSpacingBefore(v) => p.(paragraphSpacingBefore := v)
    case HyphenationFactor(v) => p.(hyphenationFactor := v)
  }

  /**
   * The thirteen getters see the whole descriptor: two paragraph styles
   * that read alike on every sub-field are the same.
   */
  lemma {:induction false} ReadDetermines(p: ParagraphStyle, q: ParagraphStyle)
    requires forall f :: Read(p, f) == Read(q, f)
    ensures p == q
  {
    assert Read(p, ParagraphField.LineSpacing) == Read(q, ParagraphField.LineSpacing);
    assert Read(p, ParagraphField.Alignment) == Read(q, ParagraphField.Alignment);
    assert Read(p, ParagraphField.FirstLineHeadIndent) == Read(q, ParagraphField.FirstLineHeadIndent);
    assert Read(p, ParagraphField.HeadIndent) == Read(q, ParagraphField.HeadIndent);
    assert Read(p, ParagraphField.TailIndent) == Read(q, ParagraphField.TailIndent);
    assert Read(p, ParagraphField.LineBreakMode) == Read(q, ParagraphField.LineBreakMode);
    assert Read(p, ParagraphField.MinimumLineHeight) == Read(q, ParagraphField.MinimumLineHeight);
    assert Read(p, ParagraphField.MaximumLineHeight) == Read(q, ParagraphField.MaximumLineHeight);
    assert Read(p, ParagraphField.BaseWritingDirection) == Read(q, ParagraphField.BaseWritingDirection);
    assert Read(p, ParagraphField.LineHeightMultiple) == Read(q, ParagraphField.LineHeightMultiple);
    assert Read(p, ParagraphField.ParagraphSpacing) == Read(q, ParagraphField.ParagraphSpacing);
    assert Read(p, ParagraphField.ParagraphSpacingBefore) == Read(q, ParagraphField.ParagraphSpacingBefore);
    assert Read(p, ParagraphField.HyphenationFactor) == Read(q, ParagraphField.HyphenationFactor);
  }

  /** Writing back the value just read leaves the paragraph style as it was. */
  lemma WriteWhatWasRead(p: ParagraphStyle, f: ParagraphField)
    ensures Write(p, Read(p, f)) == p
  {
    ReadDetermines(Write(p, Read(p, f)), p);
  }
}
