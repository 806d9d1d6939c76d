/**
 * The state of one TextStyle as a value, the writes a caller can make to
 * it, and the attribute dictionary derived from it.
 */
module StyleModel {
  import opened Wrappers
  import opened Foreign
  import opened Descriptors

  /**
   * Everything a TextStyle holds: its fifteen plain stored properties, the
   * three stored shadow properties (whose observers also update `shadow`),
   * and the private activation flag and paragraph descriptor.
   */
  datatype Style = Style(
    font: Option<Font>,
    foregroundColor: Option<Color>,
    backgroundColor: Option<Color>,
    strokeColor: Option<Color>,
    strokeWidth: Option<real>,
    strikethroughStyle: Option<int>,
    underlineColor: Option<Color>,
    underlineStyle: Option<UnderlineStyle>,
    shadow: Option<Shadow>,
    ligature: int,
    kerning: Option<real>,
    baselineOffset: Option<real>,
    obliqueness: Option<real>,
    expansion: Option<real>,
    paragraphBetween: Option<real>,
    shadowOffset: Option<Size>,
    shadowBlurRadius: Option<real>,
    shadowColor: Option<Color>,
    isParagraphStyleSet: bool,
    internalParagraphStyle: ParagraphStyle)

  /**
   * The state `init()` leaves: every optional nil, ligature 1, the flag
   * down and a new default paragraph descriptor.
   */
  const Fresh := Style(
    None, None, None, None, None, None, None, None, None, 1, None, None, None, None, None,
    None, None, None,
    false, NewParagraphStyle)

  /** One write to a settable property of a TextStyle. */
  datatype Op =
    | SetFont(font: Option<Font>)
    | SetForegroundColor(foregroundColor: Option<Color>)
    | SetBackgroundColor(backgroundColor: Option<Color>)
    | SetStrokeColor(strokeColor: Option<Color>)
    | SetStrokeWidth(strokeWidth: Option<real>)
    | SetStrikethroughStyle(strikethroughStyle: Option<int>)
    | SetUnderlineColor(underlineColor: Option<Color>)
    | SetUnderlineStyle(underlineStyle: Option<UnderlineStyle>)
    | SetShadow(shadow: Option<Shadow>)
    | SetLigature(ligature: int)
    | SetKerning(kerning: Option<real>)
    | SetBaselineOffset(baselineOffset: Option<real>)
    | SetObliqueness(obliqueness: Option<real>)
    | SetExpansion(expansion: Option<real>)
    | SetParagraphBetween(paragraphBetween: Option<real>)
    | SetShadowOffset(shadowOffset: Option<Size>)
    | SetShadowBlurRadius(shadowBlurRadius: Option<real>)
    | SetShadowColor(shadowColor: Option<Color>)
    | SetParagraphStyle(paragraphStyle: Option<ParagraphStyle>)
    | SetParagraphSetting(setting: ParagraphSetting)

  /** The shadow descriptor a shadow observer mutates: the existing one, or `NSShadow()`. */
  function ShadowOrNew(shadow: Option<Shadow>): Shadow {
    if shadow.Some? then shadow.value else NewShadow
  }

  /** The state after one write, observers and computed setters included. */
  function Step(s: Style, op: Op): Style {
    match op
    case SetFont(v) => s.(font := v)
    case SetForegroundColor(v) => s.(foregroundColor := v)
    case SetBackgroundColor(v) => s.(backgroundColor := v)
    case SetStrokeColor(v) => s.(strokeColor := v)
    case SetStrokeWidth(v) => s.(strokeWidth := v)
    case SetStrikethroughStyle(v) => s.(strikethroughStyle := v)
    case SetUnderlineColor(v) => s.(underlineColor := v)
    case SetUnderlineStyle(v) => s.(underlineStyle := v)
    case SetShadow(v) => s.(shadow := v)
    case SetLigature(v) => s.(ligature := v)
    case SetKerning(v) => s.(kerning := v)
    case SetBaselineOffset(v) => s.(baselineOffset := v)
    case SetObliqueness(v) => s.(obliqueness := v)
    case SetExpansion(v) => s.(expansion := v)
    case SetParagraphBetween(v) => s.(paragraphBetween := v)
    case SetShadowOffset(v) =>
      s.(shadowOffset := v, shadow := Some(ShadowOrNew(s.shadow).(offset := v.GetOr(ZeroSize))))
    case SetShadowBlurRadius(v) =>
      s.(shadowBlurRadius := v, shadow := Some(ShadowOrNew(s.shadow).(blurRadius := v.GetOr(0.0))))
    case SetShadowColor(v) =>
      s.(shadowColor := v, shadow := Some(ShadowOrNew(s.shadow).(color := v)))
    case SetParagraphStyle(v) =>
      if v.Some? then s.(internalParagraphStyle := v.value) else s.(isParagraphStyleSet := false)
    case SetParagraphSetting(x) =>
      s.(isParagraphStyleSet := true, internalParagraphStyle := Write(s.internalParagraphStyle, x))
  }

  /** NSAttributedString.Key: the keys `textAttributes` may fill. */
  datatype Key =
    | Font | ForegroundColor | BackgroundColor | StrokeColor | StrokeWidth
    | StrikethroughStyle | UnderlineColor | UnderlineStyle | Shadow | Ligature
    | Kern | BaselineOffset | Obliqueness | Expansion | ParagraphStyle

  const AllKeys: set<Key> := {
    Key.Font, Key.ForegroundColor, Key.BackgroundColor, Key.StrokeColor, Key.StrokeWidth,
    Key.StrikethroughStyle, Key.UnderlineColor, Key.UnderlineStyle, Key.Shadow, Key.Ligature,
    Key.Kern, Key.BaselineOffset, Key.Obliqueness, Key.Expansion, Key.ParagraphStyle }

  /** The values the attribute dictionary holds, in place of Swift's `Any`. */
  datatype Value =
    | FontValue(font: Font)
    | ColorValue(color: Color)
    | NumberValue(number: real)
    | IntValue(integer: int)
    | UnderlineStyleValue(underlineStyle: Foreign.UnderlineStyle)
    | ShadowValue(shadow: Descriptors.Shadow)
    | ParagraphStyleValue(paragraphStyle: Descriptors.ParagraphStyle)

  /**
   * The presence rule, key by key: what the dictionary holds under `k`.
   * A key is there exactly when its property is non-nil, except that
   * ligature is there when it is not 1 and the paragraph style when the
   * activation flag is up.
   */
  function Entry(s: Style, k: Key): Option<Value> {
    match k
    case Font => if s.font.Some? then Some(FontValue(s.font.value)) else None
    case ForegroundColor => if s.foregroundColor.Some? then Some(ColorValue(s.foregroundColor.value)) else None
    case BackgroundColor => if s.backgroundColor.Some? then Some(ColorValue(s.backgroundColor.value)) else None
    case StrokeColor => if s.strokeColor.Some? then Some(ColorValue(s.strokeColor.value)) else None
    case StrokeWidth => if s.strokeWidth.Some? then Some(NumberValue(s.strokeWidth.value)) else None
    case StrikethroughStyle =>
      if s.strikethroughStyle.Some? then Some(IntValue(s.strikethroughStyle.value)) else None
    case UnderlineColor => if s.underlineColor.Some? then Some(ColorValue(s.underlineColor.value)) else None
    case UnderlineStyle =>
      if s.underlineStyle.Some? then Some(UnderlineStyleValue(s.underlineStyle.value)) else None
    case Shadow => if s.shadow.Some? then Some(ShadowValue(s.shadow.value)) else None
    case Ligature => if s.ligature != 1 then Some(IntValue(s.ligature)) else None
    case Kern => if s.kerning.Some? then Some(NumberValue(s.kerning.value)) else None
    case BaselineOffset => if s.baselineOffset.Some? then Some(NumberValue(s.baselineOffset.value)) else None
    case Obliqueness => if s.obliqueness.Some? then Some(NumberValue(s.obliqueness.value)) else None
    case Expansion => if s.expansion.Some? then Some(NumberValue(s.expansion.value)) else None
    case ParagraphStyle =>
      if s.isParagraphStyleSet then Some(ParagraphStyleValue(s.internalParagraphStyle)) else None
  }

  /** The attribute dictionary of state `s`: every key whose entry is present. */
  function Attributes(s: Style): map<Key, Value> {
    map k | k in AllKeys && Entry(s, k).Some? :: Entry(s, k).value
  }

  /** The part of the attribute dictionary that lies on `keys`. */
  function AttributesOn(s: Style, keys: set<Key>): map<Key, Value> {
    map k | k in keys && Entry(s, k).Some? :: Entry(s, k).value
  }

  /** `if let v = value { m[k] = v }`: bind `k` only when a value is present. */
  function Put(m: map<Key, Value>, k: Key, value: Option<Value>): map<Key, Value> {
    if value.Some? then m[k := value.value] else m
  }

  lemma AttributesOnNone(s: Style)
    ensures AttributesOn(s, {}) == map[]
  {
  }

  /** Handling one more key puts its entry when present and changes nothing otherwise. */
  lemma AttributesOnInsert(s: Style, keys: set<Key>, k: Key, before: map<Key, Value>)
    requires before == AttributesOn(s, keys)
    ensures Put(before, k, Entry(s, k)) == AttributesOn(s, keys + {k})
  {
  }

  /**
   * Once the keys are handled in the order `textAttributes` handles them, the whole dictionary is there.
   * The `requires` spells out the union `TextAttributes` builds, insert by insert, rather than
   * `keys == AllKeys`, so that the method's proof needs no reasoning about set equality.
   */
  lemma AttributesOnAll(s: Style, keys: set<Key>)
    requires keys == {} + {Key.Font} + {Key.ForegroundColor} + {Key.BackgroundColor} + {Key.StrokeColor}
      + {Key.StrokeWidth} + {Key.StrikethroughStyle} + {Key.UnderlineColor} + {Key.UnderlineStyle}
      + {Key.Shadow} + {Key.Ligature} + {Key.Kern} + {Key.BaselineOffset} + {Key.Obliqueness}
      + {Key.Expansion} + {Key.ParagraphStyle}
    ensures AttributesOn(s, keys) == Attributes(s)
  {
    forall k ensures k in keys && k in AllKeys {
      match k
      case Font =>
      case ForegroundColor =>
      case BackgroundColor =>
      case StrokeColor =>
      case StrokeWidth =>
      case StrikethroughStyle =>
      case UnderlineColor =>
      case UnderlineStyle =>
      case Shadow =>
      case Ligature =>
      case Kern =>
      case BaselineOffset =>
      case Obliqueness =>
      case Expansion =>
      case ParagraphStyle =>
    }
  }
}
