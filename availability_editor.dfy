/** The four handlers of the availability editor. Each builds a new map from a copy of
    the current value and hands it to `onChange`; `None` stands for a handler that does
    not call `onChange` at all. */
module AvailabilityEditor {
  import opened Builtins
  import opened Types

  /** Every listed day offers at least one slot: the editor never shows a ticked day
      without a slot row. */
  predicate NoEmptyDay(av: Availability)
  {
    forall d :: d in av ==> |av[d]| > 0
  }

  /** The two maps agree on `d`: both leave it out, or both give it the same slots. */
  predicate SameOn(a: Availability, b: Availability, d: Day)
  {
    (d in a <==> d in b) && (d in a ==> a[d] == b[d])
  }

  /** `handleDayToggle`: ticking adds the day with one empty slot unless it is already
      listed; unticking removes it. */
  function HandleDayToggle(value: Availability, day: Day, isChecked: bool): (r: Availability)
    ensures day in r <==> isChecked
    ensures isChecked && day in value ==> r[day] == value[day]
    ensures isChecked && day !in value ==> r[day] == [""]
    ensures forall d :: d != day ==> SameOn(r, value, d)
    ensures NoEmptyDay(value) ==> NoEmptyDay(r)
  {
    if isChecked then
      if day !in value then value[day := [""]] else value
    else
      value - {day}
  }

  /** `handleTimeSlotChange`. The slot index always comes from the day's own slot list. */
  function HandleTimeSlotChange(value: Availability, day: Day, index: int, slotValue: string): (r: Option<Availability>)
    requires day in value ==> 0 <= index < |value[day]|
    ensures r.Some? <==> day in value
    ensures r.Some? ==>
      && day in r.value
      && |r.value[day]| == |value[day]|
      && r.value[day][index] == slotValue
      && (forall j :: 0 <= j < |value[day]| && j != index ==> r.value[day][j] == value[day][j])
      && (forall d :: d != day ==> SameOn(r.value, value, d))
    ensures r.Some? && NoEmptyDay(value) ==> NoEmptyDay(r.value)
  {
    if day in value then Some(value[day := value[day][index := slotValue]]) else None
  }

  /** `handleAddTimeSlot`: an empty slot at the end of a listed day. */
  function HandleAddTimeSlot(value: Availability, day: Day): (r: Option<Availability>)
    ensures r.Some? <==> day in value
    ensures r.Some? ==>
      && day in r.value
      && |r.value[day]| == |value[day]| + 1
      && value[day] <= r.value[day]
      && r.value[day][|value[day]|] == ""
      && (forall d :: d != day ==> SameOn(r.value, value, d))
    ensures r.Some? && NoEmptyDay(value) ==> NoEmptyDay(r.value)
  {
    if day in value then Some(value[day := value[day] + [""]]) else None
  }

  /** `slots.filter((_, i) => i !== index)` */
  function RemoveAt(slots: seq<string>, index: int): (r: seq<string>)
    ensures 0 <= index < |slots| ==>
      && |r| == |slots| - 1
      && (forall j :: 0 <= j < index ==> r[j] == slots[j])
      && (forall j :: index <= j < |r| ==> r[j] == slots[j + 1])
    ensures !(0 <= index < |slots|) ==> r == slots
  {
    if 0 <= index < |slots| then slots[..index] + slots[index + 1..] else slots
  }

  /** `handleRemoveTimeSlot`: drops one slot and unticks the day when it was the last. */
  function HandleRemoveTimeSlot(value: Availability, day: Day, index: int): (r: Option<Availability>)
    ensures r.Some? <==> day in value
    ensures r.Some? ==>
      && (day in r.value <==> |RemoveAt(value[day], index)| > 0)
      && (day in r.value ==> r.value[day] == RemoveAt(value[day], index))
      && (forall d :: d != day ==> SameOn(r.value, value, d))
    ensures r.Some? && NoEmptyDay(value) ==> NoEmptyDay(r.value)
  {
    if day in value then
      var slots := RemoveAt(value[day], index);
      if |slots| == 0 then Some(value - {day}) else Some(value[day := slots])
    else None
  }

  /** Removing the only slot of a day unticks that day. */
  lemma RemovingLastSlotUnticks(value: Availability, day: Day, s: string)
    requires day in value && value[day] == [s]
    ensures HandleRemoveTimeSlot(value, day, 0) == Some(value - {day})
  {
    assert RemoveAt(value[day], 0) == [];
  }

  /** Ticking a day that is already ticked, or unticking one that is not, changes
      nothing. */
  lemma ToggleIsIdempotent(value: Availability, day: Day, isChecked: bool)
    ensures HandleDayToggle(HandleDayToggle(value, day, isChecked), day, isChecked) == HandleDayToggle(value, day, isChecked)
  {
  }
}
