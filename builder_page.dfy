/** The drop handler of the form builder page, src/app/forms/builder/page.tsx:
    dropping a palette entry on the canvas asks the store to add a new field
    at the top. The clock reading used for option ids is a parameter. */
module BuilderPage {
  import opened Wrappers
  import opened Text
  import opened FormTypes
  import FormBuilderHook
  import BasicSettings

  /** The parts of a drag-and-drop result the handler reads. */
  datatype DropResult = DropResult(draggableId: string, sourceId: string, destinationId: Option<string>)

  /** The field built by the handler; the store assigns its id. */
  datatype NewField = NewField(
    fieldType: string,
    labelText: string,
    required: bool,
    description: string,
    options: Option<seq<FieldOption>>)

  /** The `addField(newField, addToTop)` request. */
  datatype AddRequest = AddRequest(field: NewField, addToTop: bool)

  const TypePrefix := "field-type-"

  /** getDefaultLabel: a table of twelve types, otherwise the type with its
      first character upper-cased followed by " Question". */
  function GetDefaultLabel(t: string): (r: string)
    ensures t !in {"short-answer", "long-answer", "multiple-choice", "checkbox", "dropdown", "date",
                   "email", "phone", "number", "website", "file-upload", "section-break"}
            ==> r == Capitalize(t) + " Question"
  {
    match t
    case "short-answer" => "Short Answer Question"
    case "long-answer" => "Long Answer Question"
    case "multiple-choice" => "Multiple Choice Question"
    case "checkbox" => "Checkbox Question"
    case "dropdown" => "Dropdown Question"
    case "date" => "Date"
    case "email" => "Email Address"
    case "phone" => "Phone Number"
    case "number" => "Number"
    case "website" => "Website URL"
    case "file-upload" => "File Upload"
    case "section-break" => "Section Heading"
    case _ => Capitalize(t) + " Question"
  }

  predicate IsChoiceType(t: string) {
    t == "multiple-choice" || t == "checkbox" || t == "dropdown"
  }

  /** The three default options. Each id reads the clock anew (`clock.0`,
      `clock.1`, `clock.2`), and the ids differ in their last character. */
  function DefaultOptions(clock: (int, int, int)): (os: seq<FieldOption>)
    ensures |os| == 3
    ensures os[0].value == "Option 1" && os[1].value == "Option 2" && os[2].value == "Option 3"
    ensures forall i, j :: 0 <= i < j < 3 ==> os[i].id != os[j].id
  {
    var os := [FieldOption("option-" + IntToString(clock.0) + "-1", "Option 1"),
               FieldOption("option-" + IntToString(clock.1) + "-2", "Option 2"),
               FieldOption("option-" + IntToString(clock.2) + "-3", "Option 3")];
    assert os[0].id[|os[0].id| - 1] == '1' && os[1].id[|os[1].id| - 1] == '2' && os[2].id[|os[2].id| - 1] == '3';
    os
  }

  /** handleDragEnd */
  method HandleDragEnd(result: DropResult, clock: (int, int, int)) returns (request: Option<AddRequest>)
    ensures result.destinationId.None? ==> request.None?
    ensures request.Some? <==> result.sourceId == "field-types" && result.destinationId == Some("form-canvas")
    ensures request.Some? ==>
              var f := request.value.field;
              && request.value.addToTop
              && f.fieldType == ReplaceFirst(result.draggableId, TypePrefix, "")
              && f.labelText == GetDefaultLabel(f.fieldType)
              && !f.required && f.description == ""
              && (f.options.Some? <==> IsChoiceType(f.fieldType))
              && (f.options.Some? ==> f.options.value == DefaultOptions(clock))
  {
    if result.destinationId.None? {
      return None;
    }
    if result.sourceId == "field-types" && result.destinationId == Some("form-canvas") {
      var fieldType := ReplaceFirst(result.draggableId, TypePrefix, "");
      var newField := NewField(fieldType, GetDefaultLabel(fieldType), false, "", None);
      if IsChoiceType(fieldType) {
        newField := newField.(options := Some(DefaultOptions(clock)));
      }
      request := Some(AddRequest(newField, true));
    } else {
      request := None;
    }
  }

  /** A palette entry `"field-type-" + t` yields the type `t`. */
  lemma StripTypePrefix(t: string)
    ensures ReplaceFirst(TypePrefix + t, TypePrefix, "") == t
  {
    var s := TypePrefix + t;
    assert OccursAt(s, TypePrefix, 0);
    assert IndexOf(s, TypePrefix) == Some(0);
    assert s[|TypePrefix|..] == t;
  }

  /** The types that get options on drop are those whose settings show an
      option editor. */
  lemma ChoiceTypesMatchSettings(t: string)
    ensures IsChoiceType(t) <==> BasicSettings.SupportsOptions(t)
    ensures IsChoiceType(t) <==> FormBuilderHook.IsChoiceType(t)
  {
  }

  /** For the ten types in the editor hook's label table, dropping a field of
      that type gives it the same label as the hook does. */
  lemma LabelsAgreeWithHook(raw: string)
    requires FormBuilderHook.MappedType(raw) in {"short-answer", "long-answer", "multiple-choice",
      "checkbox", "dropdown", "date", "email", "phone", "number", "file-upload"}
    ensures GetDefaultLabel(FormBuilderHook.MappedType(raw)) == FormBuilderHook.DefaultLabel(raw)
  {
  }

  /** The two label tables differ on websites and section breaks. */
  lemma LabelsDifferFromHook()
    ensures GetDefaultLabel("website") == "Website URL"
    ensures FormBuilderHook.DefaultLabel("website") == "Website Question"
    ensures GetDefaultLabel("section-break") == "Section Heading"
    ensures FormBuilderHook.DefaultLabel("section") == "Section Question"
  {
    assert FormBuilderHook.MappedType("website") == "website";
    assert FormBuilderHook.MappedType("section") == "section-break";
  }
}
