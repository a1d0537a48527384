/** The blood-sugar report: readings in mg/dL classified against two
    thresholds, and a list filtered by three toggles, one per class. */
module Reports {
  import opened Lists

  datatype Reading = Reading(time: string, level: int)

  const BLOOD_SUGAR_DATA: seq<Reading> := [
    Reading("8:00 AM", 90),
    Reading("10:00 AM", 110),
    Reading("12:00 PM", 140),
    Reading("2:00 PM", 160),
    Reading("4:00 PM", 180),
    Reading("6:00 PM", 130),
    Reading("8:00 PM", 100)
  ]

  const HIGH_THRESHOLD: int := 150
  const LOW_THRESHOLD: int := 100

  datatype HealthStatus = High | Low | Normal

  /** Exactly one class per level: above 150 is high, below 100 low, and
      100 to 150 inclusive normal. */
  function GetHealthStatus(level: int): (r: HealthStatus)
    ensures r == High <==> level > HIGH_THRESHOLD
    ensures r == Low <==> level < LOW_THRESHOLD
    ensures r == Normal <==> LOW_THRESHOLD <= level <= HIGH_THRESHOLD
  {
    if level > HIGH_THRESHOLD then High
    else if level < LOW_THRESHOLD then Low
    else Normal
  }

  /** The filter callback as it is written: three guarded checks in turn. */
  predicate Shown(r: Reading, showHigh: bool, showLow: bool, showNormal: bool) {
    if showHigh && r.level > HIGH_THRESHOLD then true
    else if showLow && r.level < LOW_THRESHOLD then true
    else if showNormal && r.level >= LOW_THRESHOLD && r.level <= HIGH_THRESHOLD then true
    else false
  }

  /** The toggle that governs a class. */
  function FlagFor(status: HealthStatus, showHigh: bool, showLow: bool, showNormal: bool): bool {
    match status
    case High => showHigh
    case Low => showLow
    case Normal => showNormal
  }

  /** A reading is shown exactly when the toggle of its class is on. */
  lemma ShownIffFlagOn(r: Reading, showHigh: bool, showLow: bool, showNormal: bool)
    ensures Shown(r, showHigh, showLow, showNormal) <==> FlagFor(GetHealthStatus(r.level), showHigh, showLow, showNormal)
  {
  }

  /** The readings drawn: those whose class is toggled on, in order. */
  function FilteredData(data: seq<Reading>, showHigh: bool, showLow: bool, showNormal: bool): (r: seq<Reading>)
    ensures forall x :: x in r <==> x in data && FlagFor(GetHealthStatus(x.level), showHigh, showLow, showNormal)
    ensures forall x :: multiset(r)[x] == if FlagFor(GetHealthStatus(x.level), showHigh, showLow, showNormal) then multiset(data)[x] else 0
    ensures IsSubsequence(r, data)
  {
    var p := (x: Reading) => Shown(x, showHigh, showLow, showNormal);
    FilterIsSubsequence(p, data);
    FilterMembers(p, data);
    FilterCounts(p, data);
    Filter(p, data)
  }

  /** With every toggle on all readings are drawn; with every toggle off
      none is. */
  lemma AllOrNothing(data: seq<Reading>)
    ensures FilteredData(data, true, true, true) == data
    ensures FilteredData(data, false, false, false) == []
  {
    FilterAll((x: Reading) => Shown(x, true, true, true), data);
    FilterNone((x: Reading) => Shown(x, false, false, false), data);
  }

  /** All or nothing, for the toggles as they stand. */
  lemma ToggledAllOrNothing(data: seq<Reading>, showHigh: bool, showLow: bool, showNormal: bool)
    ensures showHigh && showLow && showNormal ==> FilteredData(data, showHigh, showLow, showNormal) == data
    ensures !showHigh && !showLow && !showNormal ==> FilteredData(data, showHigh, showLow, showNormal) == []
  {
    AllOrNothing(data);
  }

  /** The demo readings classify as low, four normal (100 is the lowest
      normal level) and two high. */
  lemma DemoStatuses()
    ensures seq(|BLOOD_SUGAR_DATA|, i requires 0 <= i < |BLOOD_SUGAR_DATA| => GetHealthStatus(BLOOD_SUGAR_DATA[i].level))
      == [Low, Normal, Normal, High, High, Normal, Normal]
  {
  }

  class ReportsScreen {
    var showHigh: bool
    var showLow: bool
    var showNormal: bool

    constructor ()
      ensures showHigh && showLow && showNormal
    {
      showHigh, showLow, showNormal := true, true, true;
    }

    /** "Show High" flips its own toggle only. */
    method ToggleHigh()
      modifies this
      ensures showHigh == !old(showHigh)
      ensures showLow == old(showLow) && showNormal == old(showNormal)
    {
      showHigh := !showHigh;
    }

    /** "Show Low" flips its own toggle only. */
    method ToggleLow()
      modifies this
      ensures showLow == !old(showLow)
      ensures showHigh == old(showHigh) && showNormal == old(showNormal)
    {
      showLow := !showLow;
    }

    /** "Show Normal" flips its own toggle only. */
    method ToggleNormal()
      modifies this
      ensures showNormal == !old(showNormal)
      ensures showHigh == old(showHigh) && showLow == old(showLow)
    {
      showNormal := !showNormal;
    }

    /** The readings the chart draws for the current toggles. */
    function Visible(): (r: seq<Reading>)
      reads this
      ensures r == FilteredData(BLOOD_SUGAR_DATA, showHigh, showLow, showNormal)
      ensures IsSubsequence(r, BLOOD_SUGAR_DATA)
      ensures showHigh && showLow && showNormal ==> r == BLOOD_SUGAR_DATA
      ensures !showHigh && !showLow && !showNormal ==> r == []
    {
      ToggledAllOrNothing(BLOOD_SUGAR_DATA, showHigh, showLow, showNormal);
      FilteredData(BLOOD_SUGAR_DATA, showHigh, showLow, showNormal)
    }
  }
}
