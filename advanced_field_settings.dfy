/** The advanced settings of src/components/builder/AdvancedFieldSettings.tsx:
    every input of its four tabs produces one `Partial<Field>` update. */
module AdvancedFieldSettings {
  import opened Wrappers
  import opened Text
  import opened FormTypes

  /** handleAppearanceChange: a copy of the appearance, or `{}`, with one key set,
      sent as an update holding only `appearance`. */
  function AppearanceChange(field: Field, key: string, value: Value): (p: FieldPatch)
    ensures KeyCount(p) == 1 && p.appearance.Some?
    ensures p.appearance.value.Keys == field.appearance.GetOr(map[]).Keys + {key}
    ensures p.appearance.value[key] == value
    ensures forall k :: k in field.appearance.GetOr(map[]) && k != key ==>
              p.appearance.value[k] == field.appearance.value[k]
  {
    EmptyPatch.(appearance := Some(SetKey(field.appearance.GetOr(map[]), key, value)))
  }

  /** handleValidationChange: the same for `validation`. */
  function ValidationChange(field: Field, key: string, value: Value): (p: FieldPatch)
    ensures KeyCount(p) == 1 && p.validation.Some?
    ensures p.validation.value.Keys == field.validation.GetOr(map[]).Keys + {key}
    ensures p.validation.value[key] == value
    ensures forall k :: k in field.validation.GetOr(map[]) && k != key ==>
              p.validation.value[k] == field.validation.value[k]
  {
    EmptyPatch.(validation := Some(SetKey(field.validation.GetOr(map[]), key, value)))
  }

  /** `parseInt(text) || ''`: the parsed number unless it is NaN or 0. */
  function LengthInput(text: string): (v: Value)
    ensures v.Num? <==> ParseInt(text).Some? && ParseInt(text).value != 0
    ensures v.Num? ==> ParseInt(text) == Some(v.n)
    ensures !v.Num? ==> v == Str("")
  {
    match ParseInt(text)
    case Some(n) => if n != 0 then Num(n) else Str("")
    case None => Str("")
  }

  /** A non-zero length typed as its decimal digits is stored as that number. */
  lemma LengthInputRoundTrip(n: int)
    requires n != 0
    ensures LengthInput(IntToString(n)) == Num(n)
  {
    ParseIntRoundTrip(n);
  }

  /** Typing zero clears the rule, however many zeros are typed, with or
      without a sign or leading white space. */
  lemma LengthInputZeroClears(zeros: string)
    requires zeros != [] && forall i :: 0 <= i < |zeros| ==> zeros[i] == '0'
    ensures LengthInput(zeros) == Str("")
    ensures LengthInput("-" + zeros) == Str("")
    ensures LengthInput("+" + zeros) == Str("")
    ensures LengthInput(" " + zeros) == Str("")
  {
    ZerosParse(zeros);
    SignedZerosParse(zeros);
  }

  /** Minimum and maximum length are offered for these types. */
  predicate LengthRulesOffered(t: string) {
    t == "short-answer" || t == "long-answer" || t == "email"
  }

  /** Minimum, maximum and step are offered for this type. */
  predicate NumberRulesOffered(t: string) {
    t == "number"
  }

  /** The inputs of the styling, validation and advanced tabs. The read-only
      field id input has no handler and so no event. */
  datatype Event =
    | AppearanceInput(key: string, text: string)
    | RequiredToggle(checked: bool)
    | MinLengthInput(text: string)
    | MaxLengthInput(text: string)
    | PatternInput(text: string)
    | CustomErrorInput(text: string)
    | ReadOnlyToggle(checked: bool)
    | HiddenToggle(checked: bool)
    | HelpTextInput(text: string)
    | DataBindingInput(text: string)

  /** The update each input sends. */
  function Handle(field: Field, e: Event): (p: FieldPatch)
    ensures KeyCount(p) == 1 && p.id.None?
    ensures e.RequiredToggle? ==> p.required == Some(e.checked)
    ensures e.ReadOnlyToggle? ==> p.isReadOnly == Some(e.checked)
    ensures e.HiddenToggle? ==> p.isHidden == Some(e.checked)
    ensures e.HelpTextInput? ==> p.helpText == Some(e.text)
    ensures e.DataBindingInput? ==> p.dataBindingKey == Some(e.text)
    ensures e.AppearanceInput? ==> p.appearance.Some? && e.key in p.appearance.value && p.appearance.value[e.key] == Str(e.text)
    ensures e.MinLengthInput? ==> p.validation.Some? && "minLength" in p.validation.value && p.validation.value["minLength"] == LengthInput(e.text)
    ensures e.MaxLengthInput? ==> p.validation.Some? && "maxLength" in p.validation.value && p.validation.value["maxLength"] == LengthInput(e.text)
    ensures e.PatternInput? ==> p.validation.Some? && "pattern" in p.validation.value && p.validation.value["pattern"] == Str(e.text)
    ensures e.CustomErrorInput? ==> p.validation.Some? && "customErrorMessage" in p.validation.value && p.validation.value["customErrorMessage"] == Str(e.text)
  {
    match e
    case AppearanceInput(key, text) => AppearanceChange(field, key, Str(text))
    case RequiredToggle(b) => EmptyPatch.(required := Some(b))
    case MinLengthInput(text) => ValidationChange(field, "minLength", LengthInput(text))
    case MaxLengthInput(text) => ValidationChange(field, "maxLength", LengthInput(text))
    case PatternInput(text) => ValidationChange(field, "pattern", Str(text))
    case CustomErrorInput(text) => ValidationChange(field, "customErrorMessage", Str(text))
    case ReadOnlyToggle(b) => EmptyPatch.(isReadOnly := Some(b))
    case HiddenToggle(b) => EmptyPatch.(isHidden := Some(b))
    case HelpTextInput(text) => EmptyPatch.(helpText := Some(text))
    case DataBindingInput(text) => EmptyPatch.(dataBindingKey := Some(text))
  }

  /** A validation input never disturbs the other rules already on the field,
      and a styling input never disturbs the other appearance keys. */
  lemma HandleKeepsOtherKeys(field: Field, e: Event, k: string)
    ensures e.MinLengthInput? && k != "minLength" && k in field.validation.GetOr(map[]) ==>
              Handle(field, e).validation.value[k] == field.validation.value[k]
    ensures e.MaxLengthInput? && k != "maxLength" && k in field.validation.GetOr(map[]) ==>
              Handle(field, e).validation.value[k] == field.validation.value[k]
    ensures e.PatternInput? && k != "pattern" && k in field.validation.GetOr(map[]) ==>
              Handle(field, e).validation.value[k] == field.validation.value[k]
    ensures e.CustomErrorInput? && k != "customErrorMessage" && k in field.validation.GetOr(map[]) ==>
              Handle(field, e).validation.value[k] == field.validation.value[k]
    ensures e.AppearanceInput? && k != e.key && k in field.appearance.GetOr(map[]) ==>
              Handle(field, e).appearance.value[k] == field.appearance.value[k]
  {
  }

  /** Length rules and number rules are never offered for the same type. */
  lemma RuleSetsDisjoint(t: string)
    ensures !(LengthRulesOffered(t) && NumberRulesOffered(t))
  {
  }
}
