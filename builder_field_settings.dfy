/** The settings panel of src/components/builder/FieldSettings.tsx. Its option
    handlers, its debounced appearance draft and its type gates are the same
    as those of the form-builder panel; each member here states the behaviour
    of this copy and is proved through the shared definitions. */
module BuilderFieldSettings {
  import opened Wrappers
  import opened Text
  import opened Seqs
  import opened FormTypes
  import Panel = FieldSettingsPanel
  import BasicSettings

  /** handleAddOption: nothing without an option list, else one option
      `"Option " + (n + 1)` appended after the unchanged previous options. */
  function HandleAddOption(field: Field, now: int): (r: Option<FieldPatch>)
    ensures field.options.None? ==> r.None?
    ensures field.options.Some? ==> r.Some? && KeyCount(r.value) == 1 && r.value.options.Some?
    ensures field.options.Some? ==>
              var os := field.options.value;
              var added := r.value.options.value;
              |added| == |os| + 1 && added[..|os|] == os
              && added[|os|] == FieldOption("option-" + IntToString(now), "Option " + NatToString(|os| + 1))
  {
    Panel.HandleAddOption(field, now)
  }

  /** handleRemoveOption: the options without the given id, every other option
      kept as often as it occurred, in their order. */
  function HandleRemoveOption(field: Field, optionId: string): (r: Option<FieldPatch>)
    ensures field.options.None? ==> r.None?
    ensures field.options.Some? ==> r.Some? && KeyCount(r.value) == 1 && r.value.options.Some?
    ensures field.options.Some? ==>
              var kept := r.value.options.value;
              && IsSubsequence(kept, field.options.value)
              && (forall i :: 0 <= i < |kept| ==> kept[i].id != optionId)
              && (forall i :: 0 <= i < |field.options.value| && field.options.value[i].id != optionId
                    ==> field.options.value[i] in kept)
              && (forall o :: multiset(kept)[o] == if o.id != optionId then multiset(field.options.value)[o] else 0)
  {
    if field.options.None? then None
    else
      Panel.RemoveOptionSpec(field.options.value, optionId);
      Panel.HandleRemoveOption(field, optionId)
  }

  /** handleOptionChange: only the value of the options with the id changes. */
  function HandleOptionChange(field: Field, optionId: string, value: string): (r: Option<FieldPatch>)
    ensures field.options.None? ==> r.None?
    ensures field.options.Some? ==> r.Some? && KeyCount(r.value) == 1 && r.value.options.Some?
    ensures field.options.Some? ==>
              var os := field.options.value;
              var rs := r.value.options.value;
              && |rs| == |os|
              && (forall i :: 0 <= i < |os| ==> rs[i].id == os[i].id)
              && (forall i :: 0 <= i < |os| && os[i].id == optionId ==> rs[i].value == value)
              && (forall i :: 0 <= i < |os| && os[i].id != optionId ==> rs[i] == os[i])
  {
    Panel.HandleOptionChange(field, optionId, value)
  }

  /** handleAppearanceChange on this panel's local draft. */
  method HandleAppearanceChange(draft: Panel.AppearanceDraft, property: string, value: Value)
    modifies draft
    ensures draft.localAppearance.Keys == old(draft.localAppearance).Keys + {property}
    ensures draft.localAppearance[property] == value
    ensures forall k :: k in old(draft.localAppearance) && k != property ==>
              draft.localAppearance[k] == old(draft.localAppearance)[k]
    ensures draft.pending == Some(Panel.AppearanceUpdate(draft.localAppearance))
  {
    draft.HandleAppearanceChange(property, value);
  }

  /** The options section is rendered for the three choice types, the same
      types for which the form-builder panel shows its option editor. */
  predicate OptionsSectionShown(t: string) {
    t == "multiple-choice" || t == "checkbox" || t == "dropdown"
  }

  /** The placeholder input is rendered for the six text-like types. */
  predicate PlaceholderShown(t: string) {
    t == "short-answer" || t == "long-answer" || t == "email"
    || t == "phone" || t == "number" || t == "website"
  }

  /** `canRemove`: an option row can be removed only while more than one exists. */
  function CanRemoveOption(field: Field): (b: bool)
    ensures b <==> field.options.Some? && |field.options.value| > 1
  {
    |field.options.GetOr([])| > 1
  }

  /** Both panels gate their inputs on the same field types. */
  lemma GatesAgreeWithBasicSettings(t: string)
    ensures OptionsSectionShown(t) <==> BasicSettings.SupportsOptions(t)
    ensures PlaceholderShown(t) <==> BasicSettings.SupportsPlaceholder(t)
    ensures !(OptionsSectionShown(t) && PlaceholderShown(t))
  {
    BasicSettings.GatesDisjoint(t);
  }
}
