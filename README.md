# TextStyle, modelled in Dafny

`TextStyle` (GreatUtils/Classes/TextStyle.swift) is a mutable bag of text
attributes for UIKit. It holds:

- fourteen plain stored optionals (font, colours, stroke, underline, shadow, kerning, and so on) and a non-optional `ligature` that defaults to 1;
- three shadow properties whose `didSet` observers lazily create an `NSShadow` and update one of its sub-fields;
- a private paragraph descriptor, with an activation flag that thirteen sub-field setters raise and `paragraphStyle = nil` lowers;
- a computed `textAttributes` dictionary that holds one entry per property that passes its presence test.

The model has these modules:

- `Foreign` holds the UIKit value types. They are only stored and compared, so they are opaque types, apart from `CGSize` and its `.zero`.
- `Descriptors` models the two descriptors, `NSShadow` and `NSMutableParagraphStyle`, as values. The defaults of `NSShadow()` and `NSMutableParagraphStyle()` are abstract constants. A paragraph sub-field is named by a `ParagraphField`. A `ParagraphSetting` carries a value for one sub-field. `Read` and `Write` are the getter and setter of one sub-field.
- `StyleModel` holds the object's whole state as a value (`Style`), the state after `init()` (`Fresh`), and one `Op` per settable property. It also has `Step`, the state after one write with the observers included, and `Entry`, the presence rule of each dictionary key. `Attributes` is the dictionary those entries make.
- `TextStyles.TextStyle` is the class itself. It has the source's fields and one method per setter that does more than store, each proved to take the object from `Model()` to `Step(Model(), op)`. `TextAttributes` builds the dictionary by the source's fifteen conditional inserts, in the same order, and is proved to return `Attributes(Model())`.
- `StyleProperties` states what one write does to the state and to the dictionary.
- `Traces` states what any sequence of writes leaves in the shadow, the activation flag and each paragraph sub-field. The three `…AfterRun` lemmas are proved by induction on the sequence; the others follow from them or from one step.

In the model, the thirteen paragraph accessors are one getter and one setter that take the sub-field as an argument: `ParagraphValue(f)` and `SetParagraphValue(x)`. The fifteen plain stored properties have no setter code in the source. They are public fields of the class, assigned directly, and `Step` models the assignment.

`TextAttributes` declares no `modifies` clause, so it changes no field. Two consecutive reads therefore return the same dictionary, `Attributes(Model())`.

The following behaviour is as the code has it:

- Assigning a non-nil `paragraphStyle` replaces the private descriptor but does not raise the activation flag (lines 54-55). On a new `TextStyle`, `paragraphStyle` therefore still reads nil afterwards, and `.paragraphStyle` stays out of `textAttributes`.
- The getters of `shadowOffset`, `shadowBlurRadius` and `shadowColor` return the stored optionals, not the descriptor's sub-fields. After `shadow` is assigned directly, they can disagree with it.
- When an observer creates `NSShadow()`, the two sub-fields it does not write keep UIKit's defaults. The model leaves those defaults abstract and does not assume they are zero.

## Model

| member | source | states |
|---|---|---|
| `Descriptors.Read` | GreatUtils/Classes/TextStyle.swift:65-170 | A sub-field getter returns a setting for the sub-field it was asked for. |
| `Descriptors.Write` | GreatUtils/Classes/TextStyle.swift:65-170 | After a sub-field setter, that sub-field's getter returns the written value and every other sub-field's getter returns what it did before. |
| `Descriptors.ReadDetermines` | GreatUtils/Classes/TextStyle.swift:65-170 | The thirteen getters see the whole descriptor: two descriptors that read alike on every sub-field are equal. |
| `Descriptors.WriteWhatWasRead` | GreatUtils/Classes/TextStyle.swift:65-170 | Setting a sub-field to the value its getter returns leaves the descriptor unchanged. |
| `StyleProperties.PresenceRuleObjects` | GreatUtils/Classes/TextStyle.swift:175-181 | `.font`, `.foregroundColor`, `.backgroundColor`, `.strokeColor` and `.underlineColor` are in the dictionary exactly when the property is non-nil, and hold the stored value. |
| `StyleProperties.PresenceRuleNumbers` | GreatUtils/Classes/TextStyle.swift:179-188 | `.strokeWidth`, `.kern`, `.baselineOffset`, `.obliqueness` and `.expansion` are in the dictionary exactly when the property is non-nil, and hold the stored number. |
| `StyleProperties.PresenceRuleStyles` | GreatUtils/Classes/TextStyle.swift:180-189 | `.strikethroughStyle`, `.underlineStyle` and `.shadow` are present exactly when non-nil. `.ligature` is present exactly when it is not 1. `.paragraphStyle` is present exactly when the flag is up, and then holds the private descriptor. |
| `StyleProperties.FreshAttributesEmpty` | GreatUtils/Classes/TextStyle.swift:173-192 | A new `TextStyle` (optionals nil, ligature 1, flag down) yields an empty dictionary. |
| `StyleProperties.KeyOf` | GreatUtils/Classes/TextStyle.swift:173-192 | Of all the writes, only a `paragraphBetween` write has no dictionary key. |
| `StyleProperties.StepFrame` | GreatUtils/Classes/TextStyle.swift:15-170 | A write leaves unchanged every property that feeds another key's entry. The shadow observers touch only the shadow. The paragraph setters touch only the flag and the descriptor. |
| `StyleProperties.EntryFrame` | GreatUtils/Classes/TextStyle.swift:173-192 | A write leaves the dictionary entry of every key except its own unchanged. |
| `StyleProperties.WriteChangesOnlyItsKey` | GreatUtils/Classes/TextStyle.swift:173-192 | After a write, the dictionary differs from before only under the write's own key, and not at all after a `paragraphBetween` write. |
| `StyleProperties.ParagraphBetweenIsInert` | GreatUtils/Classes/TextStyle.swift:29 | `paragraphBetween` is stored but never changes the dictionary. |
| `StyleProperties.ShadowOffsetWrite` | GreatUtils/Classes/TextStyle.swift:31-36 | Writing `shadowOffset` leaves `shadow` non-nil with offset equal to the value, or `CGSize.zero` for nil. The shadow's other two sub-fields keep their old values, or `NSShadow()`'s. Nothing else changes. |
| `StyleProperties.ShadowBlurRadiusWrite` | GreatUtils/Classes/TextStyle.swift:38-43 | Writing `shadowBlurRadius` leaves `shadow` non-nil with blur radius equal to the value, or 0 for nil. The other two sub-fields are kept, and nothing else changes. |
| `StyleProperties.ShadowColorWrite` | GreatUtils/Classes/TextStyle.swift:45-50 | Writing `shadowColor` leaves `shadow` non-nil with the colour as written, nil included. The other two sub-fields are kept, and nothing else changes. |
| `StyleProperties.ShadowAssignment` | GreatUtils/Classes/TextStyle.swift:23 | Assigning `shadow` directly runs no observer: the three stored shadow properties keep their values. |
| `StyleProperties.StoredShadowOffsetOutlivesShadow` | GreatUtils/Classes/TextStyle.swift:23-36 | Set `shadowOffset` on a new style, then assign `shadow = nil`: `shadowOffset` still reads the offset, but the dictionary has no `.shadow`. |
| `StyleProperties.ParagraphSettingWrite` | GreatUtils/Classes/TextStyle.swift:65-170 | A sub-field setter raises the flag and changes only that sub-field, to the written value. Every other property and sub-field is kept, and `.paragraphStyle` is then in the dictionary. |
| `StyleProperties.ParagraphStyleCleared` | GreatUtils/Classes/TextStyle.swift:52-63 | `paragraphStyle = nil` lowers the flag and keeps the descriptor, and with it every sub-field getter's value. `.paragraphStyle` leaves the dictionary. |
| `StyleProperties.ParagraphStyleReplaced` | GreatUtils/Classes/TextStyle.swift:52-63 | A non-nil `paragraphStyle` replaces the descriptor and leaves the flag as it was. `.paragraphStyle` is present afterwards exactly when it was before, so on a new style it stays absent. |
| `StyleProperties.BlurRadiusOnFreshStyle` | GreatUtils/Classes/TextStyle.swift:38-43 | On a new style, writing only `shadowBlurRadius` yields exactly one entry: `.shadow`, with the written radius and `NSShadow()`'s offset and colour. |
| `StyleProperties.LineSpacingOnFreshStyle` | GreatUtils/Classes/TextStyle.swift:65-71 | On a new style, setting `lineSpacing` yields exactly one entry: `.paragraphStyle`, the default descriptor with that spacing. A following `paragraphStyle = nil` empties the dictionary, while `lineSpacing` still reads the value. |
| `Traces.ShadowAfterRun` | GreatUtils/Classes/TextStyle.swift:23-50 | After any sequence of writes, `shadow` is nil exactly when the last write that touched it was `shadow = nil`, or when nothing touched it and it was nil before. |
| `Traces.ShadowPersists` | GreatUtils/Classes/TextStyle.swift:23-50 | Once `shadow` exists, only `shadow = nil` removes it: until then `.shadow` stays in the dictionary. |
| `Traces.FlagAfterRun` | GreatUtils/Classes/TextStyle.swift:52-170 | After any sequence of writes, the flag is up exactly when a sub-field setter ran and no `paragraphStyle = nil` came after it, or when the flag was up and nothing touched it. A non-nil `paragraphStyle` never raises it. |
| `Traces.ParagraphStyleEntryFromFresh` | GreatUtils/Classes/TextStyle.swift:52-192 | From a new style, `.paragraphStyle` is in the dictionary exactly when some sub-field setter ran and no `paragraphStyle = nil` followed it. |
| `Traces.StepSubField` | GreatUtils/Classes/TextStyle.swift:52-170 | One write leaves a sub-field as that write decides it (its own setter, or a replaced descriptor) or as it was. |
| `Traces.SubFieldAfterRun` | GreatUtils/Classes/TextStyle.swift:52-170 | A sub-field getter returns the value of the last write that decided that sub-field, or its old value if none did, whatever the flag did meanwhile. |
| `TextStyles.TextStyle.constructor` | GreatUtils/Classes/TextStyle.swift:195-203 | `init()` leaves every optional nil, ligature 1, the flag down and a new default descriptor. |
| `TextStyles.TextStyle.SetShadowOffset` | GreatUtils/Classes/TextStyle.swift:31-36 | Storing `shadowOffset` and running its observer takes the object to the state `Step` gives for that write. |
| `TextStyles.TextStyle.SetShadowBlurRadius` | GreatUtils/Classes/TextStyle.swift:38-43 | Storing `shadowBlurRadius` and running its observer takes the object to the state `Step` gives for that write. |
| `TextStyles.TextStyle.SetShadowColor` | GreatUtils/Classes/TextStyle.swift:45-50 | Storing `shadowColor` and running its observer takes the object to the state `Step` gives for that write. |
| `TextStyles.TextStyle.ActiveParagraphStyle` | GreatUtils/Classes/TextStyle.swift:60-62 | The `paragraphStyle` getter returns nil exactly when the flag is down, and otherwise the private descriptor; it is non-nil exactly when `textAttributes` holds `.paragraphStyle`, and then that entry is its result. |
| `TextStyles.TextStyle.SetParagraphStyle` | GreatUtils/Classes/TextStyle.swift:53-59 | The `paragraphStyle` setter takes the object to the state `Step` gives: a non-nil value replaces the descriptor, and nil lowers the flag. |
| `TextStyles.TextStyle.ParagraphValue` | GreatUtils/Classes/TextStyle.swift:65-170 | A sub-field getter returns that sub-field of the private descriptor, whatever the flag. |
| `TextStyles.TextStyle.SetParagraphValue` | GreatUtils/Classes/TextStyle.swift:65-170 | A sub-field setter takes the object to the state `Step` gives: the flag raised and that one sub-field written. |
| `TextStyles.TextStyle.TextAttributes` | GreatUtils/Classes/TextStyle.swift:173-192 | The fifteen conditional inserts, made in the source's order, build exactly `Attributes(Model())`: each key is present exactly when its presence test holds. |

## Left out

- Reference semantics of `NSShadow` and `NSMutableParagraphStyle`: the descriptors are values here. The model does not capture a caller mutating the object it assigned to, or read from, `shadow` or `paragraphStyle`, nor later setters mutating an object the caller still holds.
- The defaults of `NSShadow()` and `NSMutableParagraphStyle()`: UIKit decides them, so they are abstract constants.
- `CGFloat` and `Float` are stored as `real`, and `Int` as `int`. The class only stores these values and compares `ligature` with 1, so no rounding or overflow is involved.
- The other properties of `NSMutableParagraphStyle`, which `TextStyle` never reads or writes.
- The dynamic `Any` of the dictionary: a closed `Value` datatype holds the payloads. The code that renders text from the dictionary is outside this class and is not modelled.
- Thread safety: the class has no locking, and the model is sequential.
- Observers on direct field writes: `shadowOffset`, `shadowBlurRadius` and `shadowColor` are public fields of the class, so Dafny code can assign them without running the observer that Swift's `didSet` always runs. Only writes through `SetShadowOffset`, `SetShadowBlurRadius` and `SetShadowColor` model the Swift assignment; the class does not enforce it.
