/** The medication list: a search box that filters the demo medications by
    name, ignoring case; the split of the result into active and inactive
    sections; and the seven day toggles of the "Add New Medication" form. */
module Medication {
  import opened Lists
  import opened JsString

  datatype Medication = Medication(
    id: string, name: string, dosage: string, schedule: string,
    time: string, instructions: string, remaining: nat, isActive: bool)

  const MEDICATIONS: seq<Medication> := [
    Medication("1", "Amlodipine", "5mg", "Once daily", "8:00 AM", "Take with water", 10, true),
    Medication("2", "Metformin", "1000mg", "Twice daily", "7:30 AM, 7:30 PM", "Take with meals", 18, true),
    Medication("3", "Insulin Glargine", "10 units", "Once daily", "9:00 PM", "Inject subcutaneously", 12, true),
    Medication("4", "Losartan", "50mg", "Once daily", "8:30 AM", "Take with or without food", 9, true)
  ]

  /** The search keeps a medication when its lower-cased name contains the
      lower-cased search text. */
  predicate MatchesSearch(m: Medication, searchText: string) {
    Includes(ToLower(m.name), ToLower(searchText))
  }

  /** The medications the search keeps, in their original order; an empty
      search keeps them all. */
  function FilteredMedications(meds: seq<Medication>, searchText: string): (r: seq<Medication>)
    ensures forall m :: m in r <==> m in meds && MatchesSearch(m, searchText)
    ensures forall m :: multiset(r)[m] == if MatchesSearch(m, searchText) then multiset(meds)[m] else 0
    ensures IsSubsequence(r, meds)
    ensures searchText == "" ==> r == meds
  {
    var p := (m: Medication) => MatchesSearch(m, searchText);
    FilterIsSubsequence(p, meds);
    FilterMembers(p, meds);
    FilterCounts(p, meds);
    if searchText == "" then
      assert forall i :: 0 <= i < |meds| ==> p(meds[i]) by {
        forall i | 0 <= i < |meds| ensures p(meds[i]) {
          assert OccursAt(ToLower(meds[i].name), ToLower(searchText), 0);
        }
      }
      FilterAll(p, meds);
      Filter(p, meds)
    else
      Filter(p, meds)
  }

  /** Upper or lower case in the search text makes no difference. */
  lemma SearchIgnoresCase(meds: seq<Medication>, searchText: string)
    ensures FilteredMedications(meds, ToLower(searchText)) == FilteredMedications(meds, searchText)
  {
    ToLowerIdempotent(searchText);
    FilterCongruent((m: Medication) => MatchesSearch(m, ToLower(searchText)),
                    (m: Medication) => MatchesSearch(m, searchText), meds);
  }

  /** The "Today's Medications" section. */
  function ActiveMedications(filtered: seq<Medication>): (r: seq<Medication>)
    ensures forall m :: m in r <==> m in filtered && m.isActive
    ensures forall m :: multiset(r)[m] == if m.isActive then multiset(filtered)[m] else 0
    ensures IsSubsequence(r, filtered)
  {
    FilterIsSubsequence((m: Medication) => m.isActive, filtered);
    FilterMembers((m: Medication) => m.isActive, filtered);
    FilterCounts((m: Medication) => m.isActive, filtered);
    Filter((m: Medication) => m.isActive, filtered)
  }

  /** The "Inactive Medications" section. */
  function InactiveMedications(filtered: seq<Medication>): (r: seq<Medication>)
    ensures forall m :: m in r <==> m in filtered && !m.isActive
    ensures forall m :: multiset(r)[m] == if !m.isActive then multiset(filtered)[m] else 0
    ensures IsSubsequence(r, filtered)
  {
    FilterIsSubsequence((m: Medication) => !m.isActive, filtered);
    FilterMembers((m: Medication) => !m.isActive, filtered);
    FilterCounts((m: Medication) => !m.isActive, filtered);
    Filter((m: Medication) => !m.isActive, filtered)
  }

  /** The two sections partition the filtered list: each medication of it is
      in exactly one of them, and together they hold it exactly. */
  lemma SectionsPartition(filtered: seq<Medication>)
    ensures forall m :: m in filtered ==> (m in ActiveMedications(filtered) <==> m !in InactiveMedications(filtered))
    ensures multiset(ActiveMedications(filtered)) + multiset(InactiveMedications(filtered)) == multiset(filtered)
    ensures |ActiveMedications(filtered)| + |InactiveMedications(filtered)| == |filtered|
  {
    FilterPartition((m: Medication) => m.isActive, (m: Medication) => !m.isActive, filtered);
  }

  /** Every demo medication is active, so whatever the search the inactive
      section is empty. */
  lemma NoInactiveDemoMedication(searchText: string)
    ensures InactiveMedications(FilteredMedications(MEDICATIONS, searchText)) == []
  {
    assert forall i :: 0 <= i < |MEDICATIONS| ==> MEDICATIONS[i].isActive;
    NoInactiveWhenAllActive(MEDICATIONS, searchText);
  }

  /** When every medication is active, no search leaves an inactive one. */
  lemma NoInactiveWhenAllActive(meds: seq<Medication>, searchText: string)
    requires forall i :: 0 <= i < |meds| ==> meds[i].isActive
    ensures InactiveMedications(FilteredMedications(meds, searchText)) == []
  {
    var f := FilteredMedications(meds, searchText);
    assert forall i :: 0 <= i < |f| ==> f[i] in meds;
    FilterNone((m: Medication) => !m.isActive, f);
  }

  datatype Day = Sun | Mon | Tue | Wed | Thu | Fri | Sat

  /** The form opens with every day selected. */
  const INITIAL_DAYS: map<Day, bool> :=
    map[Sun := true, Mon := true, Tue := true, Wed := true, Thu := true, Fri := true, Sat := true]

  /** Every day is a key of the initial map and is set there. */
  lemma InitialDaysComplete()
    ensures forall d: Day :: d in INITIAL_DAYS && INITIAL_DAYS[d]
  {
    forall d: Day ensures d in INITIAL_DAYS && INITIAL_DAYS[d] {
      match d
      case Sun => case Mon => case Tue => case Wed => case Thu => case Fri => case Sat =>
    }
  }

  /** `{...days, [d]: !days[d]}`; a day missing from the map reads as unset. */
  function DayToggled(days: map<Day, bool>, d: Day): (r: map<Day, bool>)
    ensures r.Keys == days.Keys + {d}
    ensures r[d] == !(d in days && days[d])
    ensures forall e :: e in days && e != d ==> r[e] == days[e]
  {
    days[d := !(d in days && days[d])]
  }

  /** Toggling a day twice restores the map. */
  lemma ToggleTwice(days: map<Day, bool>, d: Day)
    requires d in days
    ensures DayToggled(DayToggled(days, d), d) == days
  {
    var once := DayToggled(days, d);
    var twice := DayToggled(once, d);
    assert twice.Keys == days.Keys;
    assert forall e :: e in days ==> twice[e] == days[e];
  }

  class MedicationScreen {
    var searchText: string
    var isModalVisible: bool
    var activeDays: map<Day, bool>

    /** Every day has an entry. */
    ghost predicate Valid()
      reads this
    {
      forall d: Day :: d in activeDays
    }

    constructor ()
      ensures Valid()
      ensures searchText == "" && !isModalVisible && activeDays == INITIAL_DAYS
      ensures forall d: Day :: activeDays[d]
    {
      searchText := "";
      isModalVisible := false;
      activeDays := INITIAL_DAYS;
      InitialDaysComplete();
    }

    /** Typing in the search box. */
    method SetSearchText(text: string)
      requires Valid()
      modifies this
      ensures Valid()
      ensures searchText == text
      ensures isModalVisible == old(isModalVisible) && activeDays == old(activeDays)
    {
      searchText := text;
    }

    /** "Add New Medication" opens the form; its close and save buttons
        hide it. */
    method SetModalVisible(visible: bool)
      requires Valid()
      modifies this
      ensures Valid()
      ensures isModalVisible == visible
      ensures searchText == old(searchText) && activeDays == old(activeDays)
    {
      isModalVisible := visible;
    }

    /** Tapping a day button flips that day and no other. */
    method ToggleDay(d: Day)
      requires Valid()
      modifies this
      ensures Valid()
      ensures activeDays == DayToggled(old(activeDays), d)
      ensures activeDays[d] == !old(activeDays[d])
      ensures forall e: Day :: e != d ==> activeDays[e] == old(activeDays[e])
      ensures searchText == old(searchText) && isModalVisible == old(isModalVisible)
    {
      activeDays := activeDays[d := !activeDays[d]];
    }

    /** The switch on a medication card only logs the medication's id. */
    method ToggleMedicationStatus(id: string)
      ensures unchanged(this)
    {
    }

    /** The two sections shown for the current search. */
    function Sections(): (r: (seq<Medication>, seq<Medication>))
      reads this
      ensures r == (ActiveMedications(FilteredMedications(MEDICATIONS, searchText)),
                    InactiveMedications(FilteredMedications(MEDICATIONS, searchText)))
      ensures multiset(r.0) + multiset(r.1) == multiset(FilteredMedications(MEDICATIONS, searchText))
      ensures r.1 == []
    {
      var f := FilteredMedications(MEDICATIONS, searchText);
      SectionsPartition(f);
      NoInactiveDemoMedication(searchText);
      (ActiveMedications(f), InactiveMedications(f))
    }
  }
}
