/** The field-list editor hook of src/hooks/useFormBuilder.tsx: a form draft
    (title, description, ordered fields) and the id of the active field,
    with add / update / remove / move operations. Random ids (nanoid) are
    parameters. */
module FormBuilderHook {
  import opened Wrappers
  import opened Text
  import opened Seqs
  import FormTypes

  /** The hook's own field record (`FormField`). */
  datatype FormField = FormField(
    id: string,
    fieldType: string,
    labelText: string,
    placeholder: Option<string>,
    required: bool,
    options: Option<seq<FormTypes.FieldOption>>,
    description: Option<string>)

  /** `Partial<FormField>` */
  datatype FormFieldPatch = FormFieldPatch(
    id: Option<string>,
    fieldType: Option<string>,
    labelText: Option<string>,
    placeholder: Option<string>,
    required: Option<bool>,
    options: Option<seq<FormTypes.FieldOption>>,
    description: Option<string>)

  datatype FormData = FormData(title: string, description: string, fields: seq<FormField>)

  // ---------------------------------------------------------------------
  // Type aliases and defaults
  // ---------------------------------------------------------------------

  /** The alias table from palette names to field types. */
  const FieldTypeMap: map<string, string> := map[
    "text" := "short-answer",
    "textarea" := "long-answer",
    "checkbox" := "checkbox",
    "select" := "dropdown",
    "date" := "date",
    "email" := "email",
    "number" := "number",
    "tel" := "phone",
    "file" := "file-upload",
    "name" := "name",
    "address" := "address",
    "time" := "time",
    "signature" := "signature",
    "rating" := "rating",
    "likert" := "likert",
    "website" := "website",
    "section" := "section-break",
    "multiple-choice" := "multiple-choice"
  ]

  /** `fieldTypeMap[fieldType] || fieldType` (every table entry is non-empty). */
  function MappedType(raw: string): (t: string)
    ensures raw in FieldTypeMap ==> t == FieldTypeMap[raw]
    ensures raw !in FieldTypeMap ==> t == raw
  {
    if raw in FieldTypeMap && FieldTypeMap[raw] != "" then FieldTypeMap[raw] else raw
  }

  /** The field types that come with a list of choices. */
  predicate IsChoiceType(t: string) {
    t == "checkbox" || t == "dropdown" || t == "multiple-choice"
  }

  /** The mapped types that `getDefaultLabel` has an entry for. */
  predicate HasTableLabel(t: string) {
    || t == "short-answer" || t == "long-answer" || t == "multiple-choice" || t == "checkbox"
    || t == "dropdown" || t == "date" || t == "email" || t == "phone" || t == "number" || t == "file-upload"
  }

  /** `getDefaultLabel` of addField: a table over the mapped type, otherwise
      the raw (unmapped) name capitalised, followed by " Question". */
  function DefaultLabel(raw: string): (l: string)
    ensures l != ""
    ensures !HasTableLabel(MappedType(raw)) ==> l == Capitalize(raw) + " Question"
  {
    var t := MappedType(raw);
    if t == "short-answer" then "Short Answer Question"
    else if t == "long-answer" then "Long Answer Question"
    else if t == "multiple-choice" then "Multiple Choice Question"
    else if t == "checkbox" then "Checkbox Question"
    else if t == "dropdown" then "Dropdown Question"
    else if t == "date" then "Date"
    else if t == "email" then "Email Address"
    else if t == "phone" then "Phone Number"
    else if t == "number" then "Number"
    else if t == "file-upload" then "File Upload"
    else Capitalize(raw) + " Question"
  }

  /** `getDefaultPlaceholder`: a hint for the six text-like types, '' otherwise. */
  function DefaultPlaceholder(t: string): (p: string)
    ensures p != "" <==>
              t == "short-answer" || t == "long-answer" || t == "email"
              || t == "phone" || t == "number" || t == "website"
  {
    if t == "short-answer" then "Type your answer here"
    else if t == "long-answer" then "Type your detailed answer here"
    else if t == "email" then "email@example.com"
    else if t == "phone" then "(123) 456-7890"
    else if t == "number" then "0"
    else if t == "website" then "https://example.com"
    else ""
  }

  /** `getDefaultOptions`, the three option ids being fresh nanoids. */
  function DefaultOptions(t: string, ids: (string, string, string)): (r: Option<seq<FormTypes.FieldOption>>)
    ensures IsChoiceType(t) <==> r.Some?
    ensures r.Some? ==> (|r.value| == 3
      && r.value[0].value == "Option 1" && r.value[1].value == "Option 2" && r.value[2].value == "Option 3")
  {
    if IsChoiceType(t) then
      Some([FormTypes.FieldOption(ids.0, "Option 1"),
            FormTypes.FieldOption(ids.1, "Option 2"),
            FormTypes.FieldOption(ids.2, "Option 3")])
    else None
  }

  /** The field that `addField(raw)` builds; `nano` is the nanoid of its id. */
  function NewField(raw: string, nano: string, optionIds: (string, string, string)): (f: FormField)
    ensures f.id == "field-" + nano
    ensures f.fieldType == MappedType(raw)
    ensures !f.required && f.description == Some("")
    ensures f.labelText == DefaultLabel(raw)
    ensures f.placeholder == Some(DefaultPlaceholder(f.fieldType))
    ensures f.options == DefaultOptions(f.fieldType, optionIds)
  {
    var t := MappedType(raw);
    FormField("field-" + nano, t, DefaultLabel(raw), Some(DefaultPlaceholder(t)), false,
              DefaultOptions(t, optionIds), Some(""))
  }

  // ---------------------------------------------------------------------
  // Pure list updates
  // ---------------------------------------------------------------------

  /** `{ ...field, ...fieldData }` */
  function ApplyPatch(f: FormField, p: FormFieldPatch): FormField {
    FormField(p.id.GetOr(f.id), p.fieldType.GetOr(f.fieldType), p.labelText.GetOr(f.labelText),
              if p.placeholder.Some? then p.placeholder else f.placeholder,
              p.required.GetOr(f.required),
              if p.options.Some? then p.options else f.options,
              if p.description.Some? then p.description else f.description)
  }

  /** `fields.map(field => field.id === fieldId ? { ...field, ...fieldData } : field)` */
  function UpdatedFields(fs: seq<FormField>, fieldId: string, p: FormFieldPatch): (r: seq<FormField>)
    ensures |r| == |fs|
    ensures forall i :: 0 <= i < |fs| && fs[i].id != fieldId ==> r[i] == fs[i]
    ensures forall i :: 0 <= i < |fs| && fs[i].id == fieldId ==> r[i] == ApplyPatch(fs[i], p)
  {
    seq(|fs|, i requires 0 <= i < |fs| => if fs[i].id == fieldId then ApplyPatch(fs[i], p) else fs[i])
  }

  /** Updating an id that no field carries leaves the list identical. */
  lemma UpdateUnknownIdIsIdentity(fs: seq<FormField>, fieldId: string, p: FormFieldPatch)
    requires forall i :: 0 <= i < |fs| ==> fs[i].id != fieldId
    ensures UpdatedFields(fs, fieldId, p) == fs
  {
  }

  predicate KeepsOtherIds(fieldId: string, f: FormField) { f.id != fieldId }

  /** `fields.filter(field => field.id !== fieldId)` */
  function RemovedFields(fs: seq<FormField>, fieldId: string): (r: seq<FormField>)
    ensures forall f :: multiset(r)[f] == if f.id != fieldId then multiset(fs)[f] else 0
    ensures IsSubsequence(r, fs)
  {
    FilterMultiset(fs, f => KeepsOtherIds(fieldId, f));
    FilterIsSubsequence(fs, f => KeepsOtherIds(fieldId, f));
    Filter(fs, f => KeepsOtherIds(fieldId, f))
  }

  /** removeField drops every field with the id and keeps every other field,
      each as often as it occurred, in order. */
  lemma RemovedFieldsSpec(fs: seq<FormField>, fieldId: string)
    ensures forall i :: 0 <= i < |RemovedFields(fs, fieldId)| ==> RemovedFields(fs, fieldId)[i].id != fieldId
    ensures forall i :: 0 <= i < |fs| && fs[i].id != fieldId ==> fs[i] in RemovedFields(fs, fieldId)
    ensures forall f :: multiset(RemovedFields(fs, fieldId))[f] == if f.id != fieldId then multiset(fs)[f] else 0
    ensures IsSubsequence(RemovedFields(fs, fieldId), fs)
    ensures RemovedFields(RemovedFields(fs, fieldId), fieldId) == RemovedFields(fs, fieldId)
  {
    FilterMultiset(fs, f => KeepsOtherIds(fieldId, f));
    FilterIsSubsequence(fs, f => KeepsOtherIds(fieldId, f));
    FilterIdempotent(fs, f => KeepsOtherIds(fieldId, f));
  }

  // ---------------------------------------------------------------------
  // moveField: splice(dragIndex, 1) then splice(hoverIndex, 0, dragged)
  // ---------------------------------------------------------------------

  /** The start index that Array.prototype.splice uses for `start` on a
      list of length `len`: negative counts from the end, clamped to [0, len]. */
  function SpliceStart(start: int, len: nat): (k: nat)
    ensures k <= len
    ensures 0 <= start <= len ==> k == start
  {
    if start < 0 then (if len + start < 0 then 0 else len + start)
    else if start > len then len
    else start
  }

  function RemoveAt<T>(s: seq<T>, i: nat): seq<T>
    requires i < |s|
  {
    s[..i] + s[i + 1..]
  }

  function InsertAt<T>(s: seq<T>, i: nat, x: T): seq<T>
    requires i <= |s|
  {
    s[..i] + [x] + s[i..]
  }

  /** The list after the dragged element at `from` is taken out and put back at `to`. */
  function Moved<T>(s: seq<T>, from: nat, to: nat): (r: seq<T>)
    requires from < |s| && to < |s|
    ensures |r| == |s| && r[to] == s[from]
    ensures multiset(r) == multiset(s)
  {
    var t := RemoveAt(s, from);
    var x := s[from];
    assert s == s[..from] + [x] + s[from + 1..];
    assert multiset(s) == multiset(t) + multiset([x]);
    assert t == t[..to] + t[to..];
    InsertAt(t, to, x)
  }

  /** Element-wise description of a move. */
  lemma MovedAt<T>(s: seq<T>, from: nat, to: nat, k: nat)
    requires from < |s| && to < |s| && k < |s|
    ensures |Moved(s, from, to)| == |s|
    ensures Moved(s, from, to)[k] ==
      if k == to then s[from]
      else if from <= k < to then s[k + 1]
      else if to < k <= from then s[k - 1]
      else s[k]
  {
  }

  /** A move is a permutation that puts the dragged element at `to` and keeps
      every other element in its relative order. */
  lemma MovedIsReorder<T>(s: seq<T>, from: nat, to: nat)
    requires from < |s| && to < |s|
    ensures |Moved(s, from, to)| == |s|
    ensures Moved(s, from, to)[to] == s[from]
    ensures RemoveAt(Moved(s, from, to), to) == RemoveAt(s, from)
    ensures multiset(Moved(s, from, to)) == multiset(s)
  {
    var t := RemoveAt(s, from);
    var x := s[from];
    assert RemoveAt(InsertAt(t, to, x), to) == t;
    assert Moved(s, from, to) == t[..to] + [x] + t[to..];
    assert t == t[..to] + t[to..];
    assert multiset(t[..to] + [x] + t[to..]) == multiset(t[..to]) + multiset([x]) + multiset(t[to..]);
    assert multiset(t) == multiset(t[..to]) + multiset(t[to..]);
    assert multiset(t) == multiset(s[..from]) + multiset(s[from + 1..]);
    assert s == s[..from] + [x] + s[from + 1..];
    assert multiset(s) == multiset(s[..from]) + multiset([x]) + multiset(s[from + 1..]);
    assert multiset(s) == multiset(t) + multiset([x]);
  }

  /** Moving back undoes a move. */
  lemma {:induction false} MoveBackRestores<T>(s: seq<T>, from: nat, to: nat)
    requires from < |s| && to < |s|
    ensures Moved(Moved(s, from, to), to, from) == s
  {
    var m := Moved(s, from, to);
    MovedIsReorder(s, from, to);
    var b := Moved(m, to, from);
    assert b == InsertAt(RemoveAt(s, from), from, s[from]);
    assert s == s[..from] + [s[from]] + s[from + 1..];
  }

  /** The in-place part of moveField: on a copy of the list, the element at
      `from` is removed and re-inserted at `to` by shifting the elements in
      between one place. */
  method SpliceMove<T>(a: array<T>, from: nat, to: nat)
    requires from < a.Length && to < a.Length
    modifies a
    ensures a[..] == Moved(old(a[..]), from, to)
  {
    ghost var s := a[..];
    var dragged := a[from];
    if from < to {
      var i := from;
      while i < to
        invariant from <= i <= to
        invariant forall k :: 0 <= k < from ==> a[k] == s[k]
        invariant forall k :: from <= k < i ==> a[k] == s[k + 1]
        invariant forall k :: i <= k < a.Length ==> a[k] == s[k]
      {
        a[i] := a[i + 1];
        i := i + 1;
      }
    } else {
      var i := from;
      while i > to
        invariant to <= i <= from
        invariant forall k :: 0 <= k <= i ==> a[k] == s[k]
        invariant forall k :: i < k <= from ==> a[k] == s[k - 1]
        invariant forall k :: from < k < a.Length ==> a[k] == s[k]
      {
        a[i] := a[i - 1];
        i := i - 1;
      }
    }
    a[to] := dragged;
    forall k | 0 <= k < a.Length
      ensures a[k] == Moved(s, from, to)[k]
    {
      MovedAt(s, from, to, k);
    }
    MovedAt(s, from, to, 0);
  }

  // ---------------------------------------------------------------------
  // The hook's state
  // ---------------------------------------------------------------------

  class FormBuilder {
    var formData: FormData
    var activeFieldId: Option<string>

    constructor ()
      ensures formData == FormData("", "", []) && activeFieldId == None
    {
      formData := FormData("", "", []);
      activeFieldId := None;
    }

    /** addField: append the new field at the end and make it active. */
    method AddField(raw: string, nano: string, optionIds: (string, string, string))
      modifies this
      ensures formData.title == old(formData.title) && formData.description == old(formData.description)
      ensures formData.fields == old(formData.fields) + [NewField(raw, nano, optionIds)]
      ensures activeFieldId == Some("field-" + nano)
    {
      var newField := NewField(raw, nano, optionIds);
      formData := formData.(fields := formData.fields + [newField]);
      activeFieldId := Some(newField.id);
    }

    /** updateField: shallow-overwrite the fields whose id matches. */
    method UpdateField(fieldId: string, p: FormFieldPatch)
      modifies this`formData
      ensures formData == old(formData).(fields := UpdatedFields(old(formData.fields), fieldId, p))
    {
      formData := formData.(fields := UpdatedFields(formData.fields, fieldId, p));
    }

    /** removeField: drop the fields with the id; clear the active id if it was that id. */
    method RemoveField(fieldId: string)
      modifies this
      ensures formData == old(formData).(fields := RemovedFields(old(formData.fields), fieldId))
      ensures activeFieldId == if old(activeFieldId) == Some(fieldId) then None else old(activeFieldId)
    {
      formData := formData.(fields := RemovedFields(formData.fields, fieldId));
      if activeFieldId == Some(fieldId) {
        activeFieldId := None;
      }
    }

    /** moveField: reading `newFields[dragIndex]` outside the list would insert
        `undefined`, so the dragged index must name a field; the hover index is
        normalised as splice does on the shortened list. */
    method MoveField(dragIndex: int, hoverIndex: int)
      requires 0 <= dragIndex < |formData.fields|
      modifies this`formData
      ensures formData == old(formData).(fields :=
        Moved(old(formData.fields), dragIndex, SpliceStart(hoverIndex, |old(formData.fields)| - 1)))
    {
      var fields := formData.fields;
      var newFields := new FormField[|fields|](i requires 0 <= i < |fields| => fields[i]);
      assert newFields[..] == fields;
      SpliceMove(newFields, dragIndex, SpliceStart(hoverIndex, |fields| - 1));
      formData := formData.(fields := newFields[..]);
    }
  }
}
