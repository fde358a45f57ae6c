/**
 * The checkbox-with-memory editor for an optional ("nullable") evolving value, used
 * by both particle editors. Switching a field off remembers its value in a side table
 * keyed by an integer id; switching it back on takes the remembered value.
 */
module EvolvingEditors {
  import opened Wrappers
  import opened Engine

  /** What the combo box and the drag widget do to a value: each part may be changed. */
  datatype EvolveEdit = EvolveEdit(transform: Option<TransformFunction>, factor: Option<real>)

  const NoEdit: EvolveEdit := EvolveEdit(None, None)

  /** A frame's input to one nullable editor: whether its checkbox was clicked, and the edit. */
  datatype NullableInput = NullableInput(toggled: bool, edit: EvolveEdit)

  /** The combo and drag widgets rebuild the value from its (possibly edited) parts. */
  function ApplyEdit(v: EvolvingNatFloat, e: EvolveEdit): (r: EvolvingNatFloat)
    ensures e == NoEdit ==> r == v
    ensures r.transform == (if e.transform.Some? then e.transform.value else v.transform)
    ensures r.factor == (if e.factor.Some? then e.factor.value else v.factor)
  {
    EvolvingNatFloat(
      if e.transform.Some? then e.transform.value else v.transform,
      if e.factor.Some? then e.factor.value else v.factor)
  }

  /** The field's new value and the side table after one call. */
  datatype NullableResult = NullableResult(value: Option<EvolvingNatFloat>, slots: map<int, EvolvingNatFloat>)

  /** One call of EvolvingNatFloatEditorNullable. */
  function NullableStep(slots: map<int, EvolvingNatFloat>, id: int, value: Option<EvolvingNatFloat>,
                        input: NullableInput): (r: NullableResult)
    // the checkbox shows "enabled" exactly when the field is non-null; a click flips it
    ensures r.value.Some? <==> (value.Some? != input.toggled)
    // the side table is written only when a non-null value is switched off
    ensures r.slots == if value.Some? && input.toggled then slots[id := value.value] else slots
  {
    var enabled := value.Some? != input.toggled;
    if !enabled then
      NullableResult(None, if value.Some? then slots[id := value.value] else slots)
    else
      var current := if value.Some? then value.value else if id in slots then slots[id] else LinearZero;
      NullableResult(Some(ApplyEdit(current, input.edit)), slots)
  }

  /** Switching a field off stores its value under the id and yields null. */
  lemma DisableSaves(slots: map<int, EvolvingNatFloat>, id: int, v: EvolvingNatFloat, edit: EvolveEdit)
    ensures NullableStep(slots, id, Some(v), NullableInput(true, edit)) == NullableResult(None, slots[id := v])
  {
  }

  /**
   * Switching a null field on yields the value stored under the id, or (LINEAR, 0)
   * when there is none, as changed by the widgets; the stored entry stays in the table.
   */
  lemma EnableRestores(slots: map<int, EvolvingNatFloat>, id: int, edit: EvolveEdit)
    ensures NullableStep(slots, id, None, NullableInput(true, edit))
         == NullableResult(Some(ApplyEdit(if id in slots then slots[id] else LinearZero, edit)), slots)
  {
  }

  /** A call that leaves the slot alone: the field it edits is not a non-null value being switched off. */
  predicate KeepsSlot(call: (Option<EvolvingNatFloat>, NullableInput)) {
    !(call.0.Some? && call.1.toggled)
  }

  /** The side table after a series of calls under one id (each call: the field's value and the input). */
  function SlotsAfter(slots: map<int, EvolvingNatFloat>, id: int,
                      calls: seq<(Option<EvolvingNatFloat>, NullableInput)>): (r: map<int, EvolvingNatFloat>)
    decreases |calls|
  {
    if calls == [] then slots
    else SlotsAfter(NullableStep(slots, id, calls[0].0, calls[0].1).slots, id, calls[1..])
  }

  /** Calls that switch no non-null field off leave the remembered value in place. */
  lemma {:induction false} SlotSurvives(slots: map<int, EvolvingNatFloat>, id: int,
                                        calls: seq<(Option<EvolvingNatFloat>, NullableInput)>)
    requires forall k :: 0 <= k < |calls| ==> KeepsSlot(calls[k])
    ensures SlotsAfter(slots, id, calls) == slots
    decreases |calls|
  {
    if calls != [] {
      assert KeepsSlot(calls[0]);
      assert forall k :: 0 <= k < |calls[1..]| ==> KeepsSlot(calls[1..][k]) by {
        forall k | 0 <= k < |calls[1..]| ensures KeepsSlot(calls[1..][k]) {
          assert calls[1..][k] == calls[k + 1];
        }
      }
      SlotSurvives(slots, id, calls[1..]);
    }
  }

  /**
   * Toggle off, then on: a field switched off and, after any calls under the same id
   * that switch no other non-null field off, switched back on, gets exactly its old
   * value back (before this frame's widget edit).
   */
  lemma ToggleOffOnRestores(slots: map<int, EvolvingNatFloat>, id: int, v: EvolvingNatFloat,
                            offEdit: EvolveEdit, between: seq<(Option<EvolvingNatFloat>, NullableInput)>,
                            onEdit: EvolveEdit)
    requires forall k :: 0 <= k < |between| ==> KeepsSlot(between[k])
    ensures var off := NullableStep(slots, id, Some(v), NullableInput(true, offEdit));
            off.value == None &&
            NullableStep(SlotsAfter(off.slots, id, between), id, None, NullableInput(true, onEdit)).value
              == Some(ApplyEdit(v, onEdit))
  {
    var off := NullableStep(slots, id, Some(v), NullableInput(true, offEdit));
    SlotSurvives(off.slots, id, between);
  }

  /**
   * The slot is shared by every field edited under one id: switching Opacity off,
   * then Red off, then Opacity back on gives Opacity the value Red had.
   */
  lemma SharedSlotOverwrites(slots: map<int, EvolvingNatFloat>, id: int, opacity: EvolvingNatFloat,
                             red: EvolvingNatFloat)
    ensures var s1 := NullableStep(slots, id, Some(opacity), NullableInput(true, NoEdit)).slots;
            var s2 := NullableStep(s1, id, Some(red), NullableInput(true, NoEdit)).slots;
            NullableStep(s2, id, None, NullableInput(true, NoEdit)).value == Some(red)
  {
  }

  /** The static mPrevValues dictionary of the newer editor, shared by every editor. */
  class PrevValues {
    var slots: map<int, EvolvingNatFloat>

    constructor ()
      ensures slots == map[]
    {
      slots := map[];
    }

    /**
     * PrticlePropertiesEditors.EvolvingNatFloatEditorNullable. The field name only names
     * the widgets: the slot is chosen by `id` alone.
     */
    method EvolvingNatFloatEditorNullable(id: int, fieldName: string, value: Option<EvolvingNatFloat>,
                                          input: NullableInput)
      returns (value': Option<EvolvingNatFloat>)
      modifies this
      ensures NullableResult(value', slots) == NullableStep(old(slots), id, value, input)
    {
      var enabled := value.Some?;
      if input.toggled {
        enabled := !enabled;
      }
      if !enabled {
        if value.Some? {
          slots := slots[id := value.value];
        }
        return None;
      }
      var current: EvolvingNatFloat;
      if value.Some? {
        current := value.value;
      } else if id in slots {
        current := slots[id];
      } else {
        current := LinearZero;
      }
      value' := Some(ApplyEdit(current, input.edit));
    }
  }
}
