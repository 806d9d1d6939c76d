/** What one write does to a TextStyle and to its attribute dictionary. */
module StyleProperties {
  import opened Wrappers
  import opened Foreign
  import opened Descriptors
  import opened StyleModel

  /** The presence rule for the font and the four colours: each is in the dictionary exactly when it is non-nil. */
  lemma PresenceRuleObjects(s: Style)
    ensures Key.Font in Attributes(s) <==> s.font.Some?
    ensures s.font.Some? ==> Attributes(s)[Key.Font] == FontValue(s.font.value)
    ensures Key.ForegroundColor in Attributes(s) <==> s.foregroundColor.Some?
    ensures s.foregroundColor.Some? ==> Attributes(s)[Key.ForegroundColor] == ColorValue(s.foregroundColor.value)
    ensures Key.BackgroundColor in Attributes(s) <==> s.backgroundColor.Some?
    ensures s.backgroundColor.Some? ==> Attributes(s)[Key.BackgroundColor] == ColorValue(s.backgroundColor.value)
    ensures Key.StrokeColor in Attributes(s) <==> s.strokeColor.Some?
    ensures s.strokeColor.Some? ==> Attributes(s)[Key.StrokeColor] == ColorValue(s.strokeColor.value)
    ensures Key.UnderlineColor in Attributes(s) <==> s.underlineColor.Some?
    ensures s.underlineColor.Some? ==> Attributes(s)[Key.UnderlineColor] == ColorValue(s.underlineColor.value)
  {
  }

  /** The presence rule for the five numbers: each is in the dictionary exactly when it is non-nil. */
  lemma PresenceRuleNumbers(s: Style)
    ensures Key.StrokeWidth in Attributes(s) <==> s.strokeWidth.Some?
    ensures s.strokeWidth.Some? ==> Attributes(s)[Key.StrokeWidth] == NumberValue(s.strokeWidth.value)
    ensures Key.Kern in Attributes(s) <==> s.kerning.Some?
    ensures s.kerning.Some? ==> Attributes(s)[Key.Kern] == NumberValue(s.kerning.value)
    ensures Key.BaselineOffset in Attributes(s) <==> s.baselineOffset.Some?
    ensures s.baselineOffset.Some? ==> Attributes(s)[Key.BaselineOffset] == NumberValue(s.baselineOffset.value)
    ensures Key.Obliqueness in Attributes(s) <==> s.obliqueness.Some?
    ensures s.obliqueness.Some? ==> Attributes(s)[Key.Obliqueness] == NumberValue(s.obliqueness.value)
    ensures Key.Expansion in Attributes(s) <==> s.expansion.Some?
    ensures s.expansion.Some? ==> Attributes(s)[Key.Expansion] == NumberValue(s.expansion.value)
  {
  }

  /**
   * The presence rule for the styles: strikethrough, underline and shadow
   * when non-nil, ligature when it is not 1, the paragraph style when the
   * activation flag is up.
   */
  lemma PresenceRuleStyles(s: Style)
    ensures Key.StrikethroughStyle in Attributes(s) <==> s.strikethroughStyle.Some?
    ensures s.strikethroughStyle.Some? ==>
      Attributes(s)[Key.StrikethroughStyle] == IntValue(s.strikethroughStyle.value)
    ensures Key.UnderlineStyle in Attributes(s) <==> s.underlineStyle.Some?
    ensures s.underlineStyle.Some? ==>
      Attributes(s)[Key.UnderlineStyle] == UnderlineStyleValue(s.underlineStyle.value)
    ensures Key.Shadow in Attributes(s) <==> s.shadow.Some?
    ensures s.shadow.Some? ==> Attributes(s)[Key.Shadow] == ShadowValue(s.shadow.value)
    ensures Key.Ligature in Attributes(s) <==> s.ligature != 1
    ensures s.ligature != 1 ==> Attributes(s)[Key.Ligature] == IntValue(s.ligature)
    ensures Key.ParagraphStyle in Attributes(s) <==> s.isParagraphStyleSet
    ensures s.isParagraphStyleSet ==>
      Attributes(s)[Key.ParagraphStyle] == ParagraphStyleValue(s.internalParagraphStyle)
  {
  }

  /** A new TextStyle yields an empty dictionary: every optional is nil, ligature is 1, the flag is down. */
  lemma FreshAttributesEmpty()
    ensures Attributes(Fresh) == map[]
  {
    forall k | k in AllKeys ensures Entry(Fresh, k).None? {
    }
  }

  /** The one key whose entry a write can decide; writing `paragraphBetween` decides none. */
  function KeyOf(op: Op): (k: Option<Key>)
    ensures k.None? <==> op.SetParagraphBetween?
  {
    match op
    case SetFont(_) => Some(Key.Font)
    case SetForegroundColor(_) => Some(Key.ForegroundColor)
    case SetBackgroundColor(_) => Some(Key.BackgroundColor)
    case SetStrokeColor(_) => Some(Key.StrokeColor)
    case SetStrokeWidth(_) => Some(Key.StrokeWidth)
    case SetStrikethroughStyle(_) => Some(Key.StrikethroughStyle)
    case SetUnderlineColor(_) => Some(Key.UnderlineColor)
    case SetUnderlineStyle(_) => Some(Key.UnderlineStyle)
    case SetShadow(_) => Some(Key.Shadow)
    case SetLigature(_) => Some(Key.Ligature)
    case SetKerning(_) => Some(Key.Kern)
    case SetBaselineOffset(_) => Some(Key.BaselineOffset)
    case SetObliqueness(_) => Some(Key.Obliqueness)
    case SetExpansion(_) => Some(Key.Expansion)
    case SetParagraphBetween(_) => None
    case SetShadowOffset(_) => Some(Key.Shadow)
    case SetShadowBlurRadius(_) => Some(Key.Shadow)
    case SetShadowColor(_) => Some(Key.Shadow)
    case SetParagraphStyle(_) => Some(Key.ParagraphStyle)
    case SetParagraphSetting(_) => Some(Key.ParagraphStyle)
  }

  /** A write leaves every property that feeds another key's entry as it was. */
  lemma StepFrame(s: Style, op: Op)
    ensures KeyOf(op) != Some(Key.Font) ==> Step(s, op).font == s.font
    ensures KeyOf(op) != Some(Key.ForegroundColor) ==> Step(s, op).foregroundColor == s.foregroundColor
    ensures KeyOf(op) != Some(Key.BackgroundColor) ==> Step(s, op).backgroundColor == s.backgroundColor
    ensures KeyOf(op) != Some(Key.StrokeColor) ==> Step(s, op).strokeColor == s.strokeColor
    ensures KeyOf(op) != Some(Key.StrokeWidth) ==> Step(s, op).strokeWidth == s.strokeWidth
    ensures KeyOf(op) != Some(Key.StrikethroughStyle) ==> Step(s, op).strikethroughStyle == s.strikethroughStyle
    ensures KeyOf(op) != Some(Key.UnderlineColor) ==> Step(s, op).underlineColor == s.underlineColor
    ensures KeyOf(op) != Some(Key.UnderlineStyle) ==> Step(s, op).underlineStyle == s.underlineStyle
    ensures KeyOf(op) != Some(Key.Shadow) ==> Step(s, op).shadow == s.shadow
    ensures KeyOf(op) != Some(Key.Ligature) ==> Step(s, op).ligature == s.ligature
    ensures KeyOf(op) != Some(Key.Kern) ==> Step(s, op).kerning == s.kerning
    ensures KeyOf(op) != Some(Key.BaselineOffset) ==> Step(s, op).baselineOffset == s.baselineOffset
    ensures KeyOf(op) != Some(Key.Obliqueness) ==> Step(s, op).obliqueness == s.obliqueness
    ensures KeyOf(op) != Some(Key.Expansion) ==> Step(s, op).expansion == s.expansion
    ensures KeyOf(op) != Some(Key.ParagraphStyle) ==>
      Step(s, op).isParagraphStyleSet == s.isParagraphStyleSet
      && Step(s, op).internalParagraphStyle == s.internalParagraphStyle
  {
  }

  /** A write leaves the entry of every key but its own as it was. */
  lemma EntryFrame(s: Style, op: Op, k: Key)
    requires KeyOf(op) != Some(k)
    ensures Entry(Step(s, op), k) == Entry(s, k)
  {
    StepFrame(s, op);
  }

  /**
   * A write changes the dictionary at most under its own key: the shadow
   * observers only under `.shadow`, the paragraph accessors only under
   * `.paragraphStyle`, and `paragraphBetween` nowhere.
   */
  lemma WriteChangesOnlyItsKey(s: Style, op: Op)
    ensures forall k :: KeyOf(op) != Some(k) ==> Entry(Step(s, op), k) == Entry(s, k)
    ensures KeyOf(op).None? ==> Attributes(Step(s, op)) == Attributes(s)
    ensures KeyOf(op).Some? ==>
      Attributes(Step(s, op)) - {KeyOf(op).value} == Attributes(s) - {KeyOf(op).value}
  {
    forall k | KeyOf(op) != Some(k) ensures Entry(Step(s, op), k) == Entry(s, k) {
      EntryFrame(s, op, k);
    }
  }

  /** `paragraphBetween` is stored but never reaches the dictionary. */
  lemma ParagraphBetweenIsInert(s: Style, v: Option<real>)
    ensures Attributes(Step(s, SetParagraphBetween(v))) == Attributes(s)
    ensures Step(s, SetParagraphBetween(v)).paragraphBetween == v
  {
    WriteChangesOnlyItsKey(s, SetParagraphBetween(v));
  }

  /**
   * Writing `shadowOffset`: the stored property takes the value, `shadow`
   * exists afterwards, its offset is the value or CGSize.zero for nil, and
   * its other two sub-fields are those of the old shadow, or of `NSShadow()`.
   */
  lemma ShadowOffsetWrite(s: Style, v: Option<Size>)
    ensures var t := Step(s, SetShadowOffset(v));
      && t.shadow.Some?
      && t.shadow.value.offset == (if v.Some? then v.value else ZeroSize)
      && (s.shadow.Some? ==> t.shadow.value.blurRadius == s.shadow.value.blurRadius)
      && (s.shadow.Some? ==> t.shadow.value.color == s.shadow.value.color)
      && (s.shadow.None? ==> t.shadow.value.blurRadius == NewShadow.blurRadius)
      && (s.shadow.None? ==> t.shadow.value.color == NewShadow.color)
      && t.shadowOffset == v
      && t.(shadow := s.shadow, shadowOffset := s.shadowOffset) == s
  {
  }

  /** Writing `shadowBlurRadius`: as for the offset, with 0 standing for nil. */
  lemma ShadowBlurRadiusWrite(s: Style, v: Option<real>)
    ensures var t := Step(s, SetShadowBlurRadius(v));
      && t.shadow.Some?
      && t.shadow.value.blurRadius == (if v.Some? then v.value else 0.0)
      && (s.shadow.Some? ==> t.shadow.value.offset == s.shadow.value.offset)
      && (s.shadow.Some? ==> t.shadow.value.color == s.shadow.value.color)
      && (s.shadow.None? ==> t.shadow.value.offset == NewShadow.offset)
      && (s.shadow.None? ==> t.shadow.value.color == NewShadow.color)
      && t.shadowBlurRadius == v
      && t.(shadow := s.shadow, shadowBlurRadius := s.shadowBlurRadius) == s
  {
  }

  /** Writing `shadowColor`: as for the offset, with the colour itself (nil too) copied across. */
  lemma ShadowColorWrite(s: Style, v: Option<Color>)
    ensures var t := Step(s, SetShadowColor(v));
      && t.shadow.Some?
      && t.shadow.value.color == v
      && (s.shadow.Some? ==> t.shadow.value.offset == s.shadow.value.offset)
      && (s.shadow.Some? ==> t.shadow.value.blurRadius == s.shadow.value.blurRadius)
      && (s.shadow.None? ==> t.shadow.value.offset == NewShadow.offset)
      && (s.shadow.None? ==> t.shadow.value.blurRadius == NewShadow.blurRadius)
      && t.shadowColor == v
      && t.(shadow := s.shadow, shadowColor := s.shadowColor) == s
  {
  }

  /**
   * Assigning `shadow` itself runs no observer: the three stored shadow
   * properties keep their values, so they can disagree with the descriptor.
   */
  lemma ShadowAssignment(s: Style, v: Option<Shadow>)
    ensures var t := Step(s, SetShadow(v));
      && t.shadow == v
      && t.shadowOffset == s.shadowOffset
      && t.shadowBlurRadius == s.shadowBlurRadius
      && t.shadowColor == s.shadowColor
  {
  }

  /** A concrete disagreement: the offset still reads as set although the dictionary has no shadow. */
  lemma StoredShadowOffsetOutlivesShadow(o: Size)
    ensures var t := Step(Step(Fresh, SetShadowOffset(Some(o))), SetShadow(None));
      && t.shadowOffset == Some(o)
      && Key.Shadow !in Attributes(t)
  {
    PresenceRuleStyles(Step(Step(Fresh, SetShadowOffset(Some(o))), SetShadow(None)));
  }

  /**
   * A paragraph accessor's setter raises the flag and changes that one
   * sub-field of the private descriptor; its getter then reads the value
   * written, and every other getter reads as before.
   */
  lemma ParagraphSettingWrite(s: Style, x: ParagraphSetting)
    ensures var t := Step(s, SetParagraphSetting(x));
      && t.isParagraphStyleSet
      && Read(t.internalParagraphStyle, x.Field()) == x
      && (forall f :: f != x.Field() ==> Read(t.internalParagraphStyle, f) == Read(s.internalParagraphStyle, f))
      && t.(isParagraphStyleSet := s.isParagraphStyleSet, internalParagraphStyle := s.internalParagraphStyle) == s
      && Key.ParagraphStyle in Attributes(t)
  {
  }

  /**
   * `paragraphStyle = nil` lowers the flag and keeps the descriptor: the
   * dictionary loses `.paragraphStyle` while every sub-field getter reads
   * as before.
   */
  lemma ParagraphStyleCleared(s: Style)
    ensures var t := Step(s, SetParagraphStyle(None));
      && !t.isParagraphStyleSet
      && t.internalParagraphStyle == s.internalParagraphStyle
      && t.(isParagraphStyleSet := s.isParagraphStyleSet) == s
      && Key.ParagraphStyle !in Attributes(t)
  {
  }

  /**
   * `paragraphStyle = p` replaces the descriptor and leaves the flag as it
   * was, so `.paragraphStyle` is in the dictionary afterwards exactly when
   * it was before; on a new TextStyle it stays absent.
   */
  lemma ParagraphStyleReplaced(s: Style, p: ParagraphStyle)
    ensures var t := Step(s, SetParagraphStyle(Some(p)));
      && t.internalParagraphStyle == p
      && t.isParagraphStyleSet == s.isParagraphStyleSet
      && t.(internalParagraphStyle := s.internalParagraphStyle) == s
      && (Key.ParagraphStyle in Attributes(t) <==> Key.ParagraphStyle in Attributes(s))
    ensures Key.ParagraphStyle !in Attributes(Step(Fresh, SetParagraphStyle(Some(p))))
  {
  }

  /**
   * On a new TextStyle, writing only `shadowBlurRadius` yields a dictionary
   * holding just a shadow: blur radius as written, offset and colour those
   * of `NSShadow()`.
   */
  lemma BlurRadiusOnFreshStyle(r: real)
    ensures Attributes(Step(Fresh, SetShadowBlurRadius(Some(r))))
         == map[Key.Shadow := ShadowValue(Descriptors.Shadow.Shadow(NewShadow.offset, r, NewShadow.color))]
  {
    var t := Step(Fresh, SetShadowBlurRadius(Some(r)));
    forall k | k in AllKeys && k != Key.Shadow ensures Entry(t, k).None? {
    }
  }

  /**
   * On a new TextStyle, writing only `lineSpacing` activates the paragraph
   * style: the dictionary holds just it, with that line spacing and every
   * other sub-field at its default. Assigning `paragraphStyle = nil` then
   * empties the dictionary while `lineSpacing` still reads the value.
   */
  lemma LineSpacingOnFreshStyle(v: real)
    ensures var t := Step(Fresh, SetParagraphSetting(ParagraphSetting.LineSpacing(v)));
      && Attributes(t) == map[Key.ParagraphStyle := ParagraphStyleValue(NewParagraphStyle.(lineSpacing := v))]
      && Attributes(Step(t, SetParagraphStyle(None))) == map[]
      && Read(Step(t, SetParagraphStyle(None)).internalParagraphStyle, ParagraphField.LineSpacing)
         == ParagraphSetting.LineSpacing(v)
  {
    var t := Step(Fresh, SetParagraphSetting(ParagraphSetting.LineSpacing(v)));
    FreshAttributesEmpty();
    WriteChangesOnlyItsKey(Fresh, SetParagraphSetting(ParagraphSetting.LineSpacing(v)));
    ParagraphSettingWrite(Fresh, ParagraphSetting.LineSpacing(v));
    assert Attributes(t)[Key.ParagraphStyle] == ParagraphStyleValue(t.internalParagraphStyle);
    WriteChangesOnlyItsKey(t, SetParagraphStyle(None));
    ParagraphStyleCleared(t);
  }
}
