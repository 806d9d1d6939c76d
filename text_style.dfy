/**
 * TextStyle: a mutable bag of optional text attributes with two lazily
 * maintained descriptors, and the attribute dictionary derived from it.
 */
module TextStyles {
  import opened Wrappers
  import opened Foreign
  import opened Descriptors
  import opened StyleModel
  import opened StyleProperties

  class TextStyle {
    // Stored properties without observers: callers assign them directly.
    var font: Option<Font>
    var foregroundColor: Option<Color>
    var backgroundColor: Option<Color>
    var strokeColor: Option<Color>
    var strokeWidth: Option<real>
    var strikethroughStyle: Option<int>
    var underlineColor: Option<Color>
    var underlineStyle: Option<UnderlineStyle>
    var shadow: Option<Shadow>
    var ligature: int
    var kerning: Option<real>
    var baselineOffset: Option<real>
    var obliqueness: Option<real>
    var expansion: Option<real>
    var paragraphBetween: Option<real>

    // Stored properties with an observer that updates `shadow`: callers read
    // them directly and write them through the Set methods below.
    var shadowOffset: Option<Size>
    var shadowBlurRadius: Option<real>
    var shadowColor: Option<Color>

    // Private state: written only by this class.
    var isParagraphStyleSet: bool
    var internalParagraphStyle: ParagraphStyle

    /** The object's whole state as a value. */
    function Model(): Style
      reads this
    {
      Style(font, foregroundColor, backgroundColor, strokeColor, strokeWidth, strikethroughStyle,
            underlineColor, underlineStyle, shadow, ligature, kerning, baselineOffset, obliqueness,
            expansion, paragraphBetween, shadowOffset, shadowBlurRadius, shadowColor,
            isParagraphStyleSet, internalParagraphStyle)
    }

    /** `init()`: every optional nil, ligature 1, flag down, a new default paragraph descriptor. */
    constructor ()
      ensures Model() == Fresh
    {
      font, foregroundColor, backgroundColor, strokeColor := None, None, None, None;
      strokeWidth, strikethroughStyle, underlineColor, underlineStyle := None, None, None, None;
      shadow, ligature := None, 1;
      kerning, baselineOffset, obliqueness, expansion, paragraphBetween := None, None, None, None, None;
      shadowOffset, shadowBlurRadius, shadowColor := None, None, None;
      isParagraphStyleSet := false;
      internalParagraphStyle := NewParagraphStyle;
    }

    /** `shadowOffset = v` and its observer: create `shadow` if nil, then set its offset (nil as CGSize.zero). */
    method SetShadowOffset(v: Option<Size>)
      modifies this
      ensures Model() == Step(old(Model()), Op.SetShadowOffset(v))
    {
      shadowOffset := v;
      if shadow.None? {
        shadow := Some(NewShadow);
      }
      shadow := Some(shadow.value.(offset := v.GetOr(ZeroSize)));
    }

    /** `shadowBlurRadius = v` and its observer: create `shadow` if nil, then set its blur radius (nil as 0). */
    method SetShadowBlurRadius(v: Option<real>)
      modifies this
      ensures Model() == Step(old(Model()), Op.SetShadowBlurRadius(v))
    {
      shadowBlurRadius := v;
      if shadow.None? {
        shadow := Some(NewShadow);
      }
      shadow := Some(shadow.value.(blurRadius := v.GetOr(0.0)));
    }

    /** `shadowColor = v` and its observer: create `shadow` if nil, then set its colour. */
    method SetShadowColor(v: Option<Color>)
      modifies this
      ensures Model() == Step(old(Model()), Op.SetShadowColor(v))
    {
      shadowColor := v;
      if shadow.None? {
        shadow := Some(NewShadow);
      }
      shadow := Some(shadow.value.(color := v));
    }

    /** The `paragraphStyle` getter: the private descriptor while the flag is up, nil otherwise. */
    function ActiveParagraphStyle(): (r: Option<ParagraphStyle>)
      reads this
      ensures r.None? <==> !isParagraphStyleSet
      ensures r.Some? ==> r.value == internalParagraphStyle
      ensures r.Some? <==> Key.ParagraphStyle in Attributes(Model())
      ensures r.Some? ==> Attributes(Model())[Key.ParagraphStyle] == ParagraphStyleValue(r.value)
    {
      PresenceRuleStyles(Model());
      if isParagraphStyleSet then Some(internalParagraphStyle) else None
    }

    /** The `paragraphStyle` setter: non-nil replaces the descriptor (the flag is left alone), nil lowers the flag. */
    method SetParagraphStyle(v: Option<ParagraphStyle>)
      modifies this
      ensures Model() == Step(old(Model()), Op.SetParagraphStyle(v))
    {
      if v.Some? {
        internalParagraphStyle := v.value;
      } else {
        isParagraphStyleSet := false;
      }
    }

    /** The getter of paragraph accessor `f` (`lineSpacing`, `alignment`, ...): reads the descriptor whatever the flag. */
    function ParagraphValue(f: ParagraphField): (r: ParagraphSetting)
      reads this
      ensures r.Field() == f
      ensures r == Read(Model().internalParagraphStyle, f)
    {
      Read(internalParagraphStyle, f)
    }

    /** The setter of paragraph accessor `x.Field()`: raise the flag, then write that sub-field. */
    method SetParagraphValue(x: ParagraphSetting)
      modifies this
      ensures Model() == Step(old(Model()), Op.SetParagraphSetting(x))
    {
      isParagraphStyleSet := true;
      internalParagraphStyle := Write(internalParagraphStyle, x);
    }

    /**
     * `textAttributes`: starting from an empty dictionary, the source's
     * fifteen `if let` inserts in its order. `Entry(s, k)` is the presence
     * test and the value of one insert: the property when it is non-nil,
     * ligature when it is not 1, the paragraph-style getter's result.
     */
    method TextAttributes() returns (attributes: map<Key, Value>)
      ensures attributes == Attributes(Model())
    {
      var s := Model();
      // `done` holds the keys handled so far; `attributes` is the dictionary on them.
      ghost var done: set<Key> := {};
      AttributesOnNone(s);
      attributes := map[];
      AttributesOnInsert(s, done, Key.Font, attributes);
      attributes := Put(attributes, Key.Font, Entry(s, Key.Font));
      done := done + {Key.Font};
      AttributesOnInsert(s, done, Key.ForegroundColor, attributes);
      attributes := Put(attributes, Key.ForegroundColor, Entry(s, Key.ForegroundColor));
      done := done + {Key.ForegroundColor};
      AttributesOnInsert(s, done, Key.BackgroundColor, attributes);
      attributes := Put(attributes, Key.BackgroundColor, Entry(s, Key.BackgroundColor));
      done := done + {Key.BackgroundColor};
      AttributesOnInsert(s, done, Key.StrokeColor, attributes);
      attributes := Put(attributes, Key.StrokeColor, Entry(s, Key.StrokeColor));
      done := done + {Key.StrokeColor};
      AttributesOnInsert(s, done, Key.StrokeWidth, attributes);
      attributes := Put(attributes, Key.StrokeWidth, Entry(s, Key.StrokeWidth));
      done := done + {Key.StrokeWidth};
      AttributesOnInsert(s, done, Key.StrikethroughStyle, attributes);
      attributes := Put(attributes, Key.StrikethroughStyle, Entry(s, Key.StrikethroughStyle));
      done := done + {Key.StrikethroughStyle};
      AttributesOnInsert(s, done, Key.UnderlineColor, attributes);
      attributes := Put(attributes, Key.UnderlineColor, Entry(s, Key.UnderlineColor));
      done := done + {Key.UnderlineColor};
      AttributesOnInsert(s, done, Key.UnderlineStyle, attributes);
      attributes := Put(attributes, Key.UnderlineStyle, Entry(s, Key.UnderlineStyle));
      done := done + {Key.UnderlineStyle};
      AttributesOnInsert(s, done, Key.Shadow, attributes);
      attributes := Put(attributes, Key.Shadow, Entry(s, Key.Shadow));
      done := done + {Key.Shadow};
      AttributesOnInsert(s, done, Key.Ligature, attributes);
      attributes := Put(attributes, Key.Ligature, Entry(s, Key.Ligature));
      done := done + {Key.Ligature};
      AttributesOnInsert(s, done, Key.Kern, attributes);
      attributes := Put(attributes, Key.Kern, Entry(s, Key.Kern));
      done := done + {Key.Kern};
      AttributesOnInsert(s, done, Key.BaselineOffset, attributes);
      attributes := Put(attributes, Key.BaselineOffset, Entry(s, Key.BaselineOffset));
      done := done + {Key.BaselineOffset};
      AttributesOnInsert(s, done, Key.Obliqueness, attributes);
      attributes := Put(attributes, Key.Obliqueness, Entry(s, Key.Obliqueness));
      done := done + {Key.Obliqueness};
      AttributesOnInsert(s, done, Key.Expansion, attributes);
      attributes := Put(attributes, Key.Expansion, Entry(s, Key.Expansion));
      done := done + {Key.Expansion};
      AttributesOnInsert(s, done, Key.ParagraphStyle, attributes);
      attributes := Put(attributes, Key.ParagraphStyle, Entry(s, Key.ParagraphStyle));
      done := done + {Key.ParagraphStyle};
      AttributesOnAll(s, done);
    }
  }
}
