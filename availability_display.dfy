/** What the availability panel of a tutor's profile shows: the days that offer slots, in
    week order, with each slot marked booked or free. */
module AvailabilityDisplay {
  import opened Builtins
  import opened Types

  const ORDERED_DAYS: seq<Day> := [Sunday, Monday, Tuesday, Wednesday, Thursday, Friday, Saturday]

  /** The position of a day in the week, Sunday first. */
  function DayIndex(d: Day): int
  {
    match d
    case Sunday => 0
    case Monday => 1
    case Tuesday => 2
    case Wednesday => 3
    case Thursday => 4
    case Friday => 5
    case Saturday => 6
  }

  function DayName(d: Day): string
  {
    match d
    case Sunday => "Sunday"
    case Monday => "Monday"
    case Tuesday => "Tuesday"
    case Wednesday => "Wednesday"
    case Thursday => "Thursday"
    case Friday => "Friday"
    case Saturday => "Saturday"
  }

  lemma DayListed(d: Day)
    ensures 0 <= DayIndex(d) < |ORDERED_DAYS| && ORDERED_DAYS[DayIndex(d)] == d
  {
  }

  lemma DayAt(n: nat)
    requires n < |ORDERED_DAYS|
    ensures DayIndex(ORDERED_DAYS[n]) == n
  {
    if n == 0 {} else if n == 1 {} else if n == 2 {} else if n == 3 {}
    else if n == 4 {} else if n == 5 {} else {}
  }

  /** The week is listed Sunday to Saturday. */
  lemma WeekIsOrdered()
    ensures Increasing(ORDERED_DAYS, DayIndex)
  {
    forall i, j | 0 <= i < j < |ORDERED_DAYS| ensures DayIndex(ORDERED_DAYS[i]) < DayIndex(ORDERED_DAYS[j]) {
      DayAt(i);
      DayAt(j);
    }
  }

  function HasSlots(av: Availability): Day -> bool
  {
    d => d in av && |av[d]| > 0
  }

  /** `availableDays`: the days with at least one slot, in week order. */
  function AvailableDays(av: Availability): (days: seq<Day>)
    ensures forall d :: d in days <==> d in av && |av[d]| > 0
    ensures forall i, j :: 0 <= i < j < |days| ==> DayIndex(days[i]) < DayIndex(days[j])
  {
    var days := Filter(ORDERED_DAYS, HasSlots(av));
    FilterKeepsPassing(ORDERED_DAYS, HasSlots(av));
    forall d | d in av && |av[d]| > 0 ensures d in days {
      DayListed(d);
      assert HasSlots(av)(ORDERED_DAYS[DayIndex(d)]);
    }
    WeekIsOrdered();
    FilterKeepsOrder(ORDERED_DAYS, HasSlots(av), DayIndex);
    days
  }

  /** The bookings the panel pretends to know of, keyed by `day|slot`. */
  const MOCK_BOOKED_SLOTS: set<string> := {
    "Tuesday|4:00 PM - 8:00 PM",
    "Saturday|10:00 AM - 4:00 PM",
    "Monday|6:00 PM - 10:00 PM"
  }

  function BookingKey(day: Day, slot: string): string
  {
    DayName(day) + "|" + slot
  }

  predicate IsBooked(day: Day, slot: string)
  {
    BookingKey(day, slot) in MOCK_BOOKED_SLOTS
  }

  lemma NoBarInDayName(d: Day)
    ensures '|' !in DayName(d)
  {
  }

  /** Where the first `|` of a string stands, or its length when there is none. */
  function FirstBar(s: string): (r: nat)
    ensures r <= |s|
  {
    if s == [] || s[0] == '|' then 0 else 1 + FirstBar(s[1..])
  }

  lemma {:induction false} BarEndsName(name: string, rest: string)
    requires '|' !in name
    ensures FirstBar(name + "|" + rest) == |name|
  {
    if name != [] {
      assert (name + "|" + rest)[1..] == name[1..] + "|" + rest;
      BarEndsName(name[1..], rest);
    }
  }

  /** Different days and slots give different keys: the first `|` of a key ends the day. */
  lemma BookingKeyInjective(d1: Day, s1: string, d2: Day, s2: string)
    requires BookingKey(d1, s1) == BookingKey(d2, s2)
    ensures d1 == d2 && s1 == s2
  {
    var n1, n2 := DayName(d1), DayName(d2);
    var k := BookingKey(d1, s1);
    NoBarInDayName(d1);
    NoBarInDayName(d2);
    BarEndsName(n1, s1);
    BarEndsName(n2, s2);
    assert n1 == k[..|n1|] == n2;
    assert s1 == k[|n1| + 1..] == s2;
  }

  /** The keys of the three bookings, spelled out. */
  lemma TuesdayKeySpelled()
    ensures BookingKey(Tuesday, "4:00 PM - 8:00 PM") == "Tuesday|4:00 PM - 8:00 PM"
  {
  }

  lemma SaturdayKeySpelled()
    ensures BookingKey(Saturday, "10:00 AM - 4:00 PM") == "Saturday|10:00 AM - 4:00 PM"
  {
  }

  lemma MondayKeySpelled()
    ensures BookingKey(Monday, "6:00 PM - 10:00 PM") == "Monday|6:00 PM - 10:00 PM"
  {
  }

  /** A booked slot is one of the three bookings listed. */
  lemma BookedIsListed(day: Day, slot: string)
    requires IsBooked(day, slot)
    ensures || (day == Tuesday && slot == "4:00 PM - 8:00 PM")
            || (day == Saturday && slot == "10:00 AM - 4:00 PM")
            || (day == Monday && slot == "6:00 PM - 10:00 PM")
  {
    TuesdayKeySpelled();
    SaturdayKeySpelled();
    MondayKeySpelled();
    var k := BookingKey(day, slot);
    if k == "Tuesday|4:00 PM - 8:00 PM" {
      BookingKeyInjective(day, slot, Tuesday, "4:00 PM - 8:00 PM");
    } else if k == "Saturday|10:00 AM - 4:00 PM" {
      BookingKeyInjective(day, slot, Saturday, "10:00 AM - 4:00 PM");
    } else {
      BookingKeyInjective(day, slot, Monday, "6:00 PM - 10:00 PM");
    }
  }

  /** A slot is shown as booked exactly for the three bookings listed. */
  lemma BookedSlotsAre(day: Day, slot: string)
    ensures IsBooked(day, slot) <==>
      || (day == Tuesday && slot == "4:00 PM - 8:00 PM")
      || (day == Saturday && slot == "10:00 AM - 4:00 PM")
      || (day == Monday && slot == "6:00 PM - 10:00 PM")
  {
    TuesdayKeySpelled();
    SaturdayKeySpelled();
    MondayKeySpelled();
    if IsBooked(day, slot) {
      BookedIsListed(day, slot);
    }
  }

  datatype SlotView = SlotView(slot: string, booked: bool)

  datatype DayRow = DayRow(day: Day, slots: seq<SlotView>)

  /** Either the "Not specified" notice or the table of days. */
  datatype Panel = NotSpecified | Table(rows: seq<DayRow>)

  /** One table row: every slot of the day, in list order, with its booked mark. */
  function RowFor(av: Availability, day: Day): (row: DayRow)
    requires day in av
    ensures row.day == day && |row.slots| == |av[day]|
    ensures forall j :: 0 <= j < |av[day]| ==> row.slots[j] == SlotView(av[day][j], IsBooked(day, av[day][j]))
  {
    DayRow(day, seq(|av[day]|, j requires 0 <= j < |av[day]| => SlotView(av[day][j], IsBooked(day, av[day][j]))))
  }

  /** No day is shown exactly when no listed day has a slot. */
  lemma NoDaysShown(av: Availability)
    ensures AvailableDays(av) == [] <==> forall d :: d in av ==> av[d] == []
  {
    var days := AvailableDays(av);
    if days != [] {
      assert days[0] in days;
    }
  }

  /** The rows of the table, one per day given. */
  function Rows(av: Availability, days: seq<Day>): (rows: seq<DayRow>)
    requires forall i :: 0 <= i < |days| ==> days[i] in av
    ensures |rows| == |days|
    ensures forall i :: 0 <= i < |days| ==> rows[i] == RowFor(av, days[i])
  {
    seq(|days|, i requires 0 <= i < |days| => RowFor(av, days[i]))
  }

  /** The panel: the notice when no day has a slot, otherwise one row per available day in
      week order. */
  function Render(av: Availability): (p: Panel)
    ensures p.NotSpecified? <==> forall d :: d in av ==> av[d] == []
    ensures p.Table? ==> |p.rows| == |AvailableDays(av)| > 0
    ensures p.Table? ==> forall i :: 0 <= i < |p.rows| ==>
      AvailableDays(av)[i] in av && p.rows[i] == RowFor(av, AvailableDays(av)[i])
  {
    var days := AvailableDays(av);
    NoDaysShown(av);
    if days == [] then NotSpecified
    else
      assert forall i :: 0 <= i < |days| ==> days[i] in av by {
        forall i | 0 <= i < |days| ensures days[i] in av {
          assert days[i] in days;
        }
      }
      Table(Rows(av, days))
  }
}
