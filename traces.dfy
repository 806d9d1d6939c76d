/**
 * Sequences of writes to one TextStyle over its lifetime, and what they
 * leave in the shadow descriptor, the activation flag and the paragraph
 * sub-fields.
 */
module Traces {
  import opened Wrappers
  import opened Descriptors
  import opened StyleModel
  import opened StyleProperties

  /** The state after the writes `ops`, made in order, starting from `s`. */
  function Run(s: Style, ops: seq<Op>): Style
    decreases |ops|
  {
    if ops == [] then s else Step(Run(s, ops[..|ops| - 1]), ops[|ops| - 1])
  }

  /** Writes that decide whether `shadow` is nil: assigning it, or one of the three shadow observers. */
  predicate TouchesShadow(op: Op) {
    op.SetShadow? || op.SetShadowOffset? || op.SetShadowBlurRadius? || op.SetShadowColor?
  }

  /** Writes that decide the activation flag: a paragraph accessor's setter, or `paragraphStyle = nil`. */
  predicate TouchesFlag(op: Op) {
    op.SetParagraphSetting? || (op.SetParagraphStyle? && op.paragraphStyle.None?)
  }

  /** Writes that decide paragraph sub-field `f`: its own setter, or replacing the whole descriptor. */
  predicate WritesField(op: Op, f: ParagraphField) {
    (op.SetParagraphSetting? && op.setting.Field() == f) || (op.SetParagraphStyle? && op.paragraphStyle.Some?)
  }

  /** What such a write leaves in sub-field `f`. */
  function Written(op: Op, f: ParagraphField): ParagraphSetting
    requires WritesField(op, f)
  {
    if op.SetParagraphSetting? then op.setting else Read(op.paragraphStyle.value, f)
  }

  /**
   * `shadow` is nil after a run exactly when the last write that touched it
   * was `shadow = nil`, or nothing touched it and it was nil before: the
   * observers create the descriptor and nothing else removes it.
   */
  lemma {:induction false} ShadowAfterRun(s: Style, ops: seq<Op>)
    ensures Run(s, ops).shadow.None? <==>
      || (s.shadow.None? && forall i | 0 <= i < |ops| :: !TouchesShadow(ops[i]))
      || (exists i | 0 <= i < |ops| :: ops[i] == SetShadow(None) &&
            forall j | i < j < |ops| :: !TouchesShadow(ops[j]))
  {
    if ops != [] {
      var n := |ops| - 1;
      var pre, last := ops[..n], ops[n];
      ShadowAfterRun(s, pre);
      if TouchesShadow(last) {
        if last == SetShadow(None) {
          assert Run(s, ops).shadow.None?;
        } else {
          assert Run(s, ops).shadow.Some?;
          forall i | 0 <= i < |ops| && ops[i] == SetShadow(None)
            ensures exists j | i < j < |ops| :: TouchesShadow(ops[j])
          {
            assert i < n && TouchesShadow(ops[n]);
          }
        }
      } else {
        StepFrame(Run(s, pre), last);
        assert Run(s, ops).shadow == Run(s, pre).shadow;
        assert forall i | 0 <= i < n :: pre[i] == ops[i];
      }
    }
  }

  /** Once `shadow` exists, only assigning `shadow = nil` can remove it. */
  lemma ShadowPersists(s: Style, ops: seq<Op>)
    requires s.shadow.Some?
    requires forall i | 0 <= i < |ops| :: ops[i] != SetShadow(None)
    ensures Run(s, ops).shadow.Some?
    ensures Key.Shadow in Attributes(Run(s, ops))
  {
    ShadowAfterRun(s, ops);
    PresenceRuleStyles(Run(s, ops));
  }

  /**
   * The activation flag is up after a run exactly when some paragraph
   * accessor's setter ran and no `paragraphStyle = nil` came after it, or
   * the flag was up and no write touched it. Assigning a non-nil paragraph
   * style never raises it.
   */
  lemma {:induction false} FlagAfterRun(s: Style, ops: seq<Op>)
    ensures Run(s, ops).isParagraphStyleSet <==>
      || (s.isParagraphStyleSet && forall i | 0 <= i < |ops| :: !TouchesFlag(ops[i]))
      || (exists i | 0 <= i < |ops| :: ops[i].SetParagraphSetting? &&
            forall j | i < j < |ops| :: !TouchesFlag(ops[j]))
  {
    if ops != [] {
      var n := |ops| - 1;
      var pre, last := ops[..n], ops[n];
      FlagAfterRun(s, pre);
      if TouchesFlag(last) {
        if last.SetParagraphSetting? {
          assert Run(s, ops).isParagraphStyleSet;
        } else {
          assert !Run(s, ops).isParagraphStyleSet;
          forall i | 0 <= i < |ops| && ops[i].SetParagraphSetting?
            ensures exists j | i < j < |ops| :: TouchesFlag(ops[j])
          {
            assert i < n && TouchesFlag(ops[n]);
          }
        }
      } else {
        assert Run(s, ops).isParagraphStyleSet == Run(s, pre).isParagraphStyleSet;
        assert forall i | 0 <= i < n :: pre[i] == ops[i];
      }
    }
  }

  /**
   * From a new TextStyle, `.paragraphStyle` is in the dictionary exactly
   * when some paragraph accessor's setter ran and no `paragraphStyle = nil`
   * came after it.
   */
  lemma ParagraphStyleEntryFromFresh(ops: seq<Op>)
    ensures Key.ParagraphStyle in Attributes(Run(Fresh, ops)) <==>
      exists i | 0 <= i < |ops| :: ops[i].SetParagraphSetting? &&
        forall j | i < j < |ops| :: !TouchesFlag(ops[j])
  {
    FlagAfterRun(Fresh, ops);
    PresenceRuleStyles(Run(Fresh, ops));
  }

  /** One write leaves sub-field `f` as it decides it, or as it was. */
  lemma StepSubField(t: Style, op: Op, f: ParagraphField)
    ensures Read(Step(t, op).internalParagraphStyle, f)
         == if WritesField(op, f) then Written(op, f) else Read(t.internalParagraphStyle, f)
  {
    if op.SetParagraphSetting? {
      assert Step(t, op).internalParagraphStyle == Write(t.internalParagraphStyle, op.setting);
    } else if op.SetParagraphStyle? {
    } else {
      assert Step(t, op).internalParagraphStyle == t.internalParagraphStyle;
    }
  }

  /**
   * A paragraph sub-field getter reads the value of the last write that
   * decided that sub-field, or its old value when none did, whatever the
   * flag did meanwhile.
   */
  lemma {:induction false} SubFieldAfterRun(s: Style, ops: seq<Op>, f: ParagraphField)
    ensures (forall i | 0 <= i < |ops| :: !WritesField(ops[i], f)) ==>
      Read(Run(s, ops).internalParagraphStyle, f) == Read(s.internalParagraphStyle, f)
    ensures forall i | 0 <= i < |ops| && WritesField(ops[i], f) &&
        (forall j | i < j < |ops| :: !WritesField(ops[j], f)) ::
      Read(Run(s, ops).internalParagraphStyle, f) == Written(ops[i], f)
  {
    if ops != [] {
      var n := |ops| - 1;
      var pre, last := ops[..n], ops[n];
      SubFieldAfterRun(s, pre, f);
      StepSubField(Run(s, pre), last, f);
      var now := Read(Run(s, ops).internalParagraphStyle, f);
      var before := Read(Run(s, pre).internalParagraphStyle, f);
      assert now == if WritesField(last, f) then Written(last, f) else before;
      forall i | 0 <= i < |ops| && WritesField(ops[i], f) && (forall j | i < j < |ops| :: !WritesField(ops[j], f))
        ensures now == Written(ops[i], f)
      {
        if i < n {
          assert !WritesField(last, f);
          assert pre[i] == ops[i];
          assert forall j | i < j < n :: pre[j] == ops[j];
        }
      }
      if forall i | 0 <= i < |ops| :: !WritesField(ops[i], f) {
        assert !WritesField(last, f);
        assert forall i | 0 <= i < n :: pre[i] == ops[i];
      }
    }
  }
}
