/** The form document entities of src/types/form.ts that the editors touch,
    and `Partial<Field>` / `Partial<Form>` update requests. A key that may be
    absent (`key?: T`) is an `Option`. */
module FormTypes {
  import opened Wrappers

  /** A choice of a multiple-choice, checkbox or dropdown field. */
  datatype FieldOption = FieldOption(id: string, value: string)

  /** An untyped value stored under a key of `appearance` or `validation`. */
  datatype Value = Str(s: string) | Num(n: int) | Bool(b: bool)

  /** A sub-record keyed by property name (FieldAppearance, FieldValidation). */
  type Record = map<string, Value>

  datatype Field = Field(
    id: string,
    fieldType: string,
    labelText: string,
    required: Option<bool>,
    description: Option<string>,
    placeholder: Option<string>,
    options: Option<seq<FieldOption>>,
    appearance: Option<Record>,
    validation: Option<Record>,
    isReadOnly: Option<bool>,
    isHidden: Option<bool>,
    helpText: Option<string>,
    dataBindingKey: Option<string>)

  /** `Partial<Field>`: the keys an editor asks the store to overwrite. */
  datatype FieldPatch = FieldPatch(
    id: Option<string>,
    fieldType: Option<string>,
    labelText: Option<string>,
    required: Option<bool>,
    description: Option<string>,
    placeholder: Option<string>,
    options: Option<seq<FieldOption>>,
    appearance: Option<Record>,
    validation: Option<Record>,
    isReadOnly: Option<bool>,
    isHidden: Option<bool>,
    helpText: Option<string>,
    dataBindingKey: Option<string>)

  /** `{}` */
  const EmptyPatch := FieldPatch(None, None, None, None, None, None, None, None, None, None, None, None, None)

  function Present<T>(o: Option<T>): nat { if o.Some? then 1 else 0 }

  /** Number of keys present in an update. */
  function KeyCount(p: FieldPatch): nat {
    Present(p.id) + Present(p.fieldType) + Present(p.labelText) + Present(p.required)
    + Present(p.description) + Present(p.placeholder) + Present(p.options)
    + Present(p.appearance) + Present(p.validation) + Present(p.isReadOnly)
    + Present(p.isHidden) + Present(p.helpText) + Present(p.dataBindingKey)
  }

  /** `Partial<Form>` restricted to the two keys the canvas edits. */
  datatype FormPatch = FormPatch(title: Option<string>, description: Option<string>)

  /** `record[key] = value` on a copy: one key set, every other key kept. */
  function SetKey(r: Record, key: string, v: Value): (m: Record)
    ensures m.Keys == r.Keys + {key}
    ensures m[key] == v
    ensures forall k :: k in r && k != key ==> m[k] == r[k]
  {
    r[key := v]
  }
}
