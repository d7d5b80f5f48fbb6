/** The form canvas of src/components/builder/FormCanvas.tsx: the up/down
    move buttons, the selection of the field whose settings are open, field
    removal and the title/description inputs. Calls into the form store are
    returned as requests. */
module BuilderCanvas {
  import opened Wrappers
  import opened FormTypes
  import FormBuilderHook

  datatype Direction = Up | Down

  /** The `reorderFields(from, to)` request. */
  datatype Reorder = Reorder(from: nat, to: nat)

  /** `fields.findIndex(f => f.id === fieldId)`, `None` for -1. */
  function FindIndex(fields: seq<Field>, fieldId: string): (r: Option<nat>)
    ensures r.Some? ==> r.value < |fields| && fields[r.value].id == fieldId
    ensures r.Some? ==> forall j :: 0 <= j < r.value ==> fields[j].id != fieldId
    ensures r.None? ==> forall j :: 0 <= j < |fields| ==> fields[j].id != fieldId
  {
    if fields == [] then None
    else if fields[0].id == fieldId then Some(0)
    else match FindIndex(fields[1..], fieldId)
      case None => None
      case Some(i) => Some(i + 1)
  }

  /** `Math.max(0, i - 1)` going up, `Math.min(len - 1, i + 1)` going down. */
  function TargetIndex(i: nat, len: nat, dir: Direction): (k: int)
    requires i < len
    ensures 0 <= k < len
    ensures dir == Up ==> k == (if i == 0 then 0 else i - 1)
    ensures dir == Down ==> k == (if i == len - 1 then i else i + 1)
  {
    if dir == Up then (if 0 > i - 1 then 0 else i - 1)
    else (if len - 1 < i + 1 then len - 1 else i + 1)
  }

  /** handleMoveField: no request for an unknown id or when the target index
      equals the current one, otherwise a reorder to the adjacent index. */
  function MoveRequest(fields: seq<Field>, fieldId: string, dir: Direction): (r: Option<Reorder>)
    ensures FindIndex(fields, fieldId).None? ==> r.None?
    ensures FindIndex(fields, fieldId).Some? ==>
              var i := FindIndex(fields, fieldId).value;
              (r.None? <==> (dir == Up && i == 0) || (dir == Down && i == |fields| - 1))
    ensures r.Some? ==> r.value.from == FindIndex(fields, fieldId).value && r.value.to < |fields|
    ensures r.Some? && dir == Up ==> r.value.to + 1 == r.value.from
    ensures r.Some? && dir == Down ==> r.value.to == r.value.from + 1
  {
    match FindIndex(fields, fieldId)
    case None => None
    case Some(i) =>
      var k := TargetIndex(i, |fields|, dir);
      if k == i then None else Some(Reorder(i, k))
  }

  /** Moving a field up and then, on the reordered list, down again requests
      the opposite reorder and restores the list, when the reorder is carried
      out as the editor hook's moveField does. */
  lemma MoveUpThenDown(fields: seq<Field>, fieldId: string)
    requires MoveRequest(fields, fieldId, Up).Some?
    ensures var r := MoveRequest(fields, fieldId, Up).value;
            var moved := FormBuilderHook.Moved(fields, r.from, r.to);
            && MoveRequest(moved, fieldId, Down) == Some(Reorder(r.to, r.from))
            && FormBuilderHook.Moved(moved, r.to, r.from) == fields
  {
    var r := MoveRequest(fields, fieldId, Up).value;
    var moved := FormBuilderHook.Moved(fields, r.from, r.to);
    forall k | 0 <= k <= r.to
      ensures moved[k] == fields[if k == r.to then r.from else k]
    {
      FormBuilderHook.MovedAt(fields, r.from, r.to, k);
    }
    FindsFirst(moved, fieldId, r.to);
    FormBuilderHook.MoveBackRestores(fields, r.from, r.to);
  }

  /** An index holding the id, with no earlier one, is what findIndex returns. */
  lemma {:induction false} FindsFirst(fields: seq<Field>, fieldId: string, i: nat)
    requires i < |fields| && fields[i].id == fieldId
    requires forall j :: 0 <= j < i ==> fields[j].id != fieldId
    ensures FindIndex(fields, fieldId) == Some(i)
  {
    if i > 0 {
      FindsFirst(fields[1..], fieldId, i - 1);
    }
  }

  /** `prevId === fieldId ? null : fieldId` */
  function Toggled(prev: Option<string>, fieldId: string): (r: Option<string>)
    ensures r == Some(fieldId) <==> prev != Some(fieldId)
    ensures r == None <==> prev == Some(fieldId)
  {
    if prev == Some(fieldId) then None else Some(fieldId)
  }

  /** Toggling the same field twice returns to the closed or open state it started from. */
  lemma ToggleTwice(prev: Option<string>, fieldId: string)
    requires prev == None || prev == Some(fieldId)
    ensures Toggled(Toggled(prev, fieldId), fieldId) == prev
  {
  }

  /** `updateForm({ title })` */
  function TitleChange(value: string): (p: FormPatch)
    ensures p.title == Some(value) && p.description.None?
  {
    FormPatch(Some(value), None)
  }

  /** `updateForm({ description })` */
  function DescriptionChange(value: string): (p: FormPatch)
    ensures p.description == Some(value) && p.title.None?
  {
    FormPatch(None, Some(value))
  }

  /** The canvas component state: the field whose settings are open. */
  class CanvasState {
    var activeFieldId: Option<string>

    constructor ()
      ensures activeFieldId == None
    {
      activeFieldId := None;
    }

    method ToggleFieldSettings(fieldId: string)
      modifies this
      ensures activeFieldId == Toggled(old(activeFieldId), fieldId)
    {
      activeFieldId := Toggled(activeFieldId, fieldId);
    }

    /** handleRemoveField: asks the store to remove the field and closes its
        settings if they were open; `removed` is the id sent to `removeField`. */
    method HandleRemoveField(fieldId: string) returns (removed: string)
      modifies this
      ensures removed == fieldId
      ensures old(activeFieldId) == Some(fieldId) ==> activeFieldId == None
      ensures old(activeFieldId) != Some(fieldId) ==> activeFieldId == old(activeFieldId)
    {
      removed := fieldId;
      if activeFieldId == Some(fieldId) {
        activeFieldId := None;
      }
    }
  }
}

/** The refactored canvas of src/components/form-builder/canvas/FormCanvas.tsx,
    whose handlers are those of the builder canvas. */
module FormBuilderCanvas {
  import opened Wrappers
  import opened FormTypes
  import Canvas = BuilderCanvas

  function MoveRequest(fields: seq<Field>, fieldId: string, dir: Canvas.Direction): (r: Option<Canvas.Reorder>)
    ensures Canvas.FindIndex(fields, fieldId).None? ==> r.None?
    ensures Canvas.FindIndex(fields, fieldId).Some? ==>
              var i := Canvas.FindIndex(fields, fieldId).value;
              (r.None? <==> (dir == Canvas.Up && i == 0) || (dir == Canvas.Down && i == |fields| - 1))
    ensures r.Some? ==> r.value.from == Canvas.FindIndex(fields, fieldId).value && r.value.to < |fields|
    ensures r.Some? && dir == Canvas.Up ==> r.value.to + 1 == r.value.from
    ensures r.Some? && dir == Canvas.Down ==> r.value.to == r.value.from + 1
  {
    Canvas.MoveRequest(fields, fieldId, dir)
  }

  function TitleChange(value: string): (p: FormPatch)
    ensures p.title == Some(value) && p.description.None?
  {
    Canvas.TitleChange(value)
  }

  function DescriptionChange(value: string): (p: FormPatch)
    ensures p.description == Some(value) && p.title.None?
  {
    Canvas.DescriptionChange(value)
  }

  method ToggleFieldSettings(state: Canvas.CanvasState, fieldId: string)
    modifies state
    ensures state.activeFieldId == Some(fieldId) <==> old(state.activeFieldId) != Some(fieldId)
    ensures state.activeFieldId == None <==> old(state.activeFieldId) == Some(fieldId)
  {
    state.ToggleFieldSettings(fieldId);
  }

  method HandleRemoveField(state: Canvas.CanvasState, fieldId: string) returns (removed: string)
    modifies state
    ensures removed == fieldId
    ensures old(state.activeFieldId) == Some(fieldId) ==> state.activeFieldId == None
    ensures old(state.activeFieldId) != Some(fieldId) ==> state.activeFieldId == old(state.activeFieldId)
  {
    removed := state.HandleRemoveField(fieldId);
  }
}
