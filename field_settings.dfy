/** The field settings panel of src/components/form-builder/fields/FieldSettings.tsx:
    handlers that turn an edit into a `Partial<Field>` update for the store,
    and the local appearance draft whose update is sent by a debounce timer.
    `None` for an update means that the handler returns without calling
    `onChange`. */
module FieldSettingsPanel {
  import opened Wrappers
  import opened Text
  import opened Seqs
  import opened FormTypes

  // ---------------------------------------------------------------------
  // Single-key basic handlers
  // ---------------------------------------------------------------------

  function LabelChange(value: string): (p: FieldPatch)
    ensures KeyCount(p) == 1 && p.labelText == Some(value)
  {
    EmptyPatch.(labelText := Some(value))
  }

  function DescriptionChange(value: string): (p: FieldPatch)
    ensures KeyCount(p) == 1 && p.description == Some(value)
  {
    EmptyPatch.(description := Some(value))
  }

  function PlaceholderChange(value: string): (p: FieldPatch)
    ensures KeyCount(p) == 1 && p.placeholder == Some(value)
  {
    EmptyPatch.(placeholder := Some(value))
  }

  function RequiredChange(checked: bool): (p: FieldPatch)
    ensures KeyCount(p) == 1 && p.required == Some(checked)
  {
    EmptyPatch.(required := Some(checked))
  }

  /** `{ options }` */
  function OptionsUpdate(os: seq<FieldOption>): (p: FieldPatch)
    ensures KeyCount(p) == 1 && p.options == Some(os)
  {
    EmptyPatch.(options := Some(os))
  }

  /** `{ appearance }` */
  function AppearanceUpdate(a: Record): (p: FieldPatch)
    ensures KeyCount(p) == 1 && p.appearance == Some(a)
  {
    EmptyPatch.(appearance := Some(a))
  }

  // ---------------------------------------------------------------------
  // Option list edits
  // ---------------------------------------------------------------------

  /** `[...options, { id: "option-" + Date.now(), value: "Option " + (n + 1) }]` */
  function AddOption(os: seq<FieldOption>, now: int): (r: seq<FieldOption>)
    ensures |r| == |os| + 1 && r[..|os|] == os
    ensures r[|os|] == FieldOption("option-" + IntToString(now), "Option " + NatToString(|os| + 1))
  {
    os + [FieldOption("option-" + IntToString(now), "Option " + NatToString(|os| + 1))]
  }

  predicate KeepsOption(optionId: string, o: FieldOption) { o.id != optionId }

  /** `options.filter(option => option.id !== optionId)` */
  function RemoveOption(os: seq<FieldOption>, optionId: string): (r: seq<FieldOption>)
    ensures forall o :: multiset(r)[o] == if o.id != optionId then multiset(os)[o] else 0
    ensures IsSubsequence(r, os)
  {
    FilterMultiset(os, o => KeepsOption(optionId, o));
    FilterIsSubsequence(os, o => KeepsOption(optionId, o));
    Filter(os, o => KeepsOption(optionId, o))
  }

  /** `options.map(option => option.id === optionId ? { ...option, value } : option)` */
  function ChangeOption(os: seq<FieldOption>, optionId: string, value: string): (r: seq<FieldOption>)
    ensures |r| == |os|
    ensures forall i :: 0 <= i < |os| ==> r[i].id == os[i].id
    ensures forall i :: 0 <= i < |os| && os[i].id == optionId ==> r[i].value == value
    ensures forall i :: 0 <= i < |os| && os[i].id != optionId ==> r[i] == os[i]
  {
    seq(|os|, i requires 0 <= i < |os| => if os[i].id == optionId then os[i].(value := value) else os[i])
  }

  /** Removal drops every option with the id, keeps every other option as often
      as it occurred and in order, and a
      second removal of the same id changes nothing. */
  lemma RemoveOptionSpec(os: seq<FieldOption>, optionId: string)
    ensures forall i :: 0 <= i < |RemoveOption(os, optionId)| ==> RemoveOption(os, optionId)[i].id != optionId
    ensures forall i :: 0 <= i < |os| && os[i].id != optionId ==> os[i] in RemoveOption(os, optionId)
    ensures forall o :: multiset(RemoveOption(os, optionId))[o] == if o.id != optionId then multiset(os)[o] else 0
    ensures IsSubsequence(RemoveOption(os, optionId), os)
    ensures RemoveOption(RemoveOption(os, optionId), optionId) == RemoveOption(os, optionId)
  {
    FilterMultiset(os, o => KeepsOption(optionId, o));
    FilterIsSubsequence(os, o => KeepsOption(optionId, o));
    FilterIdempotent(os, o => KeepsOption(optionId, o));
  }

  /** Adding an option whose id is new and then removing it restores the list. */
  lemma {:induction false} RemoveAddedOption(os: seq<FieldOption>, now: int)
    requires forall i :: 0 <= i < |os| ==> os[i].id != "option-" + IntToString(now)
    ensures RemoveOption(AddOption(os, now), "option-" + IntToString(now)) == os
  {
    var id := "option-" + IntToString(now);
    var added := AddOption(os, now);
    RemoveAppended(os, added[|os|], id);
    assert added == os + [added[|os|]];
  }

  lemma RemoveAppended(os: seq<FieldOption>, x: FieldOption, optionId: string)
    requires x.id == optionId
    requires forall i :: 0 <= i < |os| ==> os[i].id != optionId
    ensures RemoveOption(os + [x], optionId) == os
  {
    FilterDropsLast(os, x, o => KeepsOption(optionId, o));
  }

  /** Renaming twice keeps only the second value. */
  lemma ChangeOptionLastWins(os: seq<FieldOption>, optionId: string, v1: string, v2: string)
    ensures ChangeOption(ChangeOption(os, optionId, v1), optionId, v2) == ChangeOption(os, optionId, v2)
  {
  }

  // ---------------------------------------------------------------------
  // The handlers, which do nothing when the field has no option list
  // ---------------------------------------------------------------------

  function HandleAddOption(field: Field, now: int): (r: Option<FieldPatch>)
    ensures field.options.None? ==> r.None?
    ensures field.options.Some? ==> r.Some? && KeyCount(r.value) == 1
    ensures field.options.Some? ==> r.value.options == Some(AddOption(field.options.value, now))
  {
    if field.options.None? then None else Some(OptionsUpdate(AddOption(field.options.value, now)))
  }

  function HandleRemoveOption(field: Field, optionId: string): (r: Option<FieldPatch>)
    ensures field.options.None? ==> r.None?
    ensures field.options.Some? ==> r.Some? && KeyCount(r.value) == 1
    ensures field.options.Some? ==> r.value.options == Some(RemoveOption(field.options.value, optionId))
  {
    if field.options.None? then None else Some(OptionsUpdate(RemoveOption(field.options.value, optionId)))
  }

  function HandleOptionChange(field: Field, optionId: string, value: string): (r: Option<FieldPatch>)
    ensures field.options.None? ==> r.None?
    ensures field.options.Some? ==> r.Some? && KeyCount(r.value) == 1
    ensures field.options.Some? ==> r.value.options == Some(ChangeOption(field.options.value, optionId, value))
  {
    if field.options.None? then None else Some(OptionsUpdate(ChangeOption(field.options.value, optionId, value)))
  }

  // ---------------------------------------------------------------------
  // Local appearance draft and its debounced update
  // ---------------------------------------------------------------------

  /** `field.appearance || {}` */
  function AppearanceOrEmpty(field: Field): (a: Record)
    ensures field.appearance.Some? ==> a == field.appearance.value
    ensures field.appearance.None? ==> a == map[]
  {
    field.appearance.GetOr(map[])
  }

  /** The panel state: `localAppearance`, and in `pending` the update that the
      timer held by `timeoutRef` will send (the 300 ms delay is not modelled). */
  class AppearanceDraft {
    var localAppearance: Record
    var pending: Option<FieldPatch>

    constructor (field: Field)
      ensures localAppearance == AppearanceOrEmpty(field) && pending == None
    {
      localAppearance := AppearanceOrEmpty(field);
      pending := None;
    }

    /** The effect that runs when the field id or its appearance changes. */
    method Sync(field: Field)
      modifies this`localAppearance
      ensures localAppearance == AppearanceOrEmpty(field)
    {
      localAppearance := AppearanceOrEmpty(field);
    }

    /** handleAppearanceChange: set one key on the draft, cancel the pending
        timer and schedule the whole draft as the next update. */
    method HandleAppearanceChange(property: string, value: Value)
      modifies this
      ensures localAppearance.Keys == old(localAppearance).Keys + {property}
      ensures localAppearance[property] == value
      ensures forall k :: k in old(localAppearance) && k != property ==> localAppearance[k] == old(localAppearance)[k]
      ensures pending == Some(AppearanceUpdate(localAppearance))
    {
      var updated := SetKey(localAppearance, property, value);
      localAppearance := updated;
      pending := Some(AppearanceUpdate(updated));
    }

    /** The timer fires: the scheduled update, if any, is sent once. */
    method TimerFires() returns (sent: Option<FieldPatch>)
      modifies this`pending
      ensures sent == old(pending) && pending == None
    {
      sent := pending;
      pending := None;
    }
  }

  /** Two edits before the timer fires are sent as one update holding both keys. */
  method TwoEditsOneUpdate(field: Field, k1: string, v1: Value, k2: string, v2: Value)
      returns (sent: Option<FieldPatch>)
    requires k1 != k2
    ensures sent.Some? && sent.value.appearance.Some?
    ensures var a := sent.value.appearance.value;
            k1 in a && a[k1] == v1 && k2 in a && a[k2] == v2
  {
    var d := new AppearanceDraft(field);
    d.HandleAppearanceChange(k1, v1);
    d.HandleAppearanceChange(k2, v2);
    sent := d.TimerFires();
  }
}

/** The basic tab of the settings panel, src/components/form-builder/fields/BasicSettings.tsx:
    which inputs exist for a field and what they show. */
module BasicSettings {
  import opened Wrappers
  import opened FormTypes
  import FormBuilderHook

  /** The option editor is shown for these types. */
  predicate SupportsOptions(t: string)
    ensures SupportsOptions(t) <==> FormBuilderHook.IsChoiceType(t)
  {
    t == "multiple-choice" || t == "checkbox" || t == "dropdown"
  }

  /** The placeholder input is shown for these types. */
  predicate SupportsPlaceholder(t: string)
    ensures SupportsPlaceholder(t) <==> FormBuilderHook.DefaultPlaceholder(t) != ""
  {
    t == "short-answer" || t == "long-answer" || t == "email" || t == "phone" || t == "number" || t == "website"
  }

  /** One option row: its text and whether its remove button is enabled. */
  datatype OptionRow = OptionRow(option: FieldOption, removable: bool)

  /** What the basic tab renders for a field. */
  datatype BasicView = BasicView(
    labelValue: string,
    descriptionValue: string,
    placeholderInput: Option<string>,
    optionEditor: Option<seq<OptionRow>>,
    requiredChecked: bool)

  function Render(field: Field): (v: BasicView)
    ensures v.placeholderInput.Some? <==> SupportsPlaceholder(field.fieldType)
    ensures v.optionEditor.Some? <==> SupportsOptions(field.fieldType)
    ensures v.optionEditor.Some? ==> |v.optionEditor.value| == |field.options.GetOr([])|
    ensures v.optionEditor.Some? ==> forall i :: 0 <= i < |v.optionEditor.value| ==>
              v.optionEditor.value[i].option == field.options.value[i]
              && (v.optionEditor.value[i].removable <==> |field.options.value| > 1)
    ensures v.requiredChecked <==> field.required == Some(true)
    ensures v.labelValue == field.labelText
    ensures v.descriptionValue == field.description.GetOr("")
    ensures v.placeholderInput.Some? ==> v.placeholderInput.value == field.placeholder.GetOr("")
  {
    var os := field.options.GetOr([]);
    BasicView(
      field.labelText,
      field.description.GetOr(""),
      if SupportsPlaceholder(field.fieldType) then Some(field.placeholder.GetOr("")) else None,
      if SupportsOptions(field.fieldType)
        then Some(seq(|os|, i requires 0 <= i < |os| => OptionRow(os[i], |os| > 1)))
        else None,
      field.required.GetOr(false))
  }

  /** No field type has both an option editor and a placeholder input. */
  lemma GatesDisjoint(t: string)
    ensures !(SupportsOptions(t) && SupportsPlaceholder(t))
  {
  }

  /** A field created by the builder hook gets a default placeholder exactly when
      its settings show a placeholder input, and default options exactly when
      they show an option editor, with removal enabled. */
  lemma HookDefaultsFitSettings(raw: string, nano: string, ids: (string, string, string))
    ensures var f := FormBuilderHook.NewField(raw, nano, ids);
            && (FormBuilderHook.DefaultPlaceholder(f.fieldType) != "" <==> SupportsPlaceholder(f.fieldType))
            && (f.options.Some? <==> SupportsOptions(f.fieldType))
            && (f.options.Some? ==> |f.options.value| > 1)
  {
  }
}
