/** The appointment booking wizard: three steps (specialty, doctor, date and
    time) over a fixed table of specialties, doctors and time slots, a
    confirmation dialog, and the reset that follows it three seconds later.
    The calendar date is the number of days after today. */
module Appointments {
  import opened Options
  import opened Lists

  datatype Specialty = Specialty(id: string, name: string, icon: string)

  /** `ratingTenths` is the star rating times ten (4.8 stars is 48). */
  datatype Doctor = Doctor(id: string, name: string, specialty: string, hospital: string, ratingTenths: nat)

  const SPECIALTIES: seq<Specialty> := [
    Specialty("1", "General Medicine", "medical"),
    Specialty("2", "Cardiology", "heart"),
    Specialty("3", "Pediatrics", "happy"),
    Specialty("4", "Orthopedics", "fitness"),
    Specialty("5", "Dermatology", "body"),
    Specialty("6", "Neurology", "pulse"),
    Specialty("7", "Ophthalmology", "eye"),
    Specialty("8", "ENT", "ear")
  ]

  const DOCTORS: seq<Doctor> := [
    Doctor("1", "Dr. Tan Wei Ming", "General Medicine", "Singapore General Hospital", 48),
    Doctor("2", "Dr. Sarah Wong", "Cardiology", "National Heart Centre", 49),
    Doctor("3", "Dr. James Lee", "Pediatrics", "KK Women's and Children's Hospital", 47),
    Doctor("4", "Dr. Priya Singh", "Orthopedics", "Changi General Hospital", 46)
  ]

  const TIME_SLOTS: seq<string> := ["09:00 AM", "10:00 AM", "11:00 AM", "02:00 PM", "03:00 PM", "04:00 PM"]

  /** The date strip offers today and the nine days after it. */
  const DATE_OFFSETS: nat := 10

  /** The doctors offered at step 2: those of the table whose specialty is
      the selected specialty's name, in the table's order. */
  function DoctorsFor(specialtyName: string): (r: seq<Doctor>)
    ensures forall d :: d in r <==> d in DOCTORS && d.specialty == specialtyName
    ensures IsSubsequence(r, DOCTORS)
  {
    FilterIsSubsequence((d: Doctor) => d.specialty == specialtyName, DOCTORS);
    FilterMembers((d: Doctor) => d.specialty == specialtyName, DOCTORS);
    Filter((d: Doctor) => d.specialty == specialtyName, DOCTORS)
  }

  /** Only the first four specialties have doctors; each has exactly one. */
  lemma DoctorsPerSpecialty()
    ensures forall i :: 0 <= i < 4 ==> DoctorsFor(SPECIALTIES[i].name) == [DOCTORS[i]]
    ensures forall i :: 4 <= i < |SPECIALTIES| ==> DoctorsFor(SPECIALTIES[i].name) == []
  {
    forall i | 0 <= i < |SPECIALTIES|
      ensures DoctorsFor(SPECIALTIES[i].name) == if i < 4 then [DOCTORS[i]] else []
    {
      DoctorsOf(i);
    }
  }

  lemma DoctorsOf(i: nat)
    requires i < |SPECIALTIES|
    ensures DoctorsFor(SPECIALTIES[i].name) == if i < 4 then [DOCTORS[i]] else []
  {
    FilterPeel(SPECIALTIES[i].name);
  }

  /** Filtering the doctor table, unfolded one entry at a time. */
  lemma FilterPeel(name: string)
    ensures DoctorsFor(name) ==
      (if DOCTORS[0].specialty == name then [DOCTORS[0]] else []) +
      ((if DOCTORS[1].specialty == name then [DOCTORS[1]] else []) +
      ((if DOCTORS[2].specialty == name then [DOCTORS[2]] else []) +
      (if DOCTORS[3].specialty == name then [DOCTORS[3]] else [])))
  {
    assert DOCTORS == [DOCTORS[0], DOCTORS[1], DOCTORS[2], DOCTORS[3]];
    FilterFour((d: Doctor) => d.specialty == name, DOCTORS[0], DOCTORS[1], DOCTORS[2], DOCTORS[3]);
  }

  /** Slot `index` can be booked unless its index is a multiple of three. */
  predicate SlotAvailable(index: nat) {
    index % 3 != 0
  }

  /** Of the six slots exactly the first and the fourth, 09:00 AM and
      02:00 PM, cannot be booked. */
  lemma UnavailableSlots()
    ensures forall i :: 0 <= i < |TIME_SLOTS| ==> (!SlotAvailable(i) <==> i == 0 || i == 3)
    ensures TIME_SLOTS[0] == "09:00 AM" && TIME_SLOTS[3] == "02:00 PM"
  {
  }

  /** A time the wizard can hold: the label of an available slot. */
  ghost predicate IsAvailableTime(t: string) {
    exists i :: 0 <= i < |TIME_SLOTS| && TIME_SLOTS[i] == t && SlotAvailable(i)
  }

  /** What the confirmation dialog shows; a missing selection shows "". */
  datatype ConfirmationCard = ConfirmationCard(doctor: string, specialty: string, dayOffset: nat, time: string, location: string)

  class BookingWizard {
    var step: int
    var selectedSpecialty: Option<Specialty>
    var selectedDoctor: Option<Doctor>
    var selectedDate: nat
    var selectedTime: Option<string>
    var successModal: bool

    /** The step is 1, 2 or 3; from step 2 on a specialty is chosen, and at
        step 3 a doctor of that specialty, which are what the step-2 and
        step-3 views display. Selections come from the tables. */
    ghost predicate Valid()
      reads this
    {
      1 <= step <= 3 &&
      (step >= 2 ==> selectedSpecialty.Some?) &&
      (step == 3 ==> selectedDoctor.Some? && selectedDoctor.value.specialty == selectedSpecialty.value.name) &&
      (selectedSpecialty.Some? ==> selectedSpecialty.value in SPECIALTIES) &&
      (selectedDoctor.Some? ==> selectedDoctor.value in DOCTORS) &&
      selectedDate < DATE_OFFSETS &&
      (selectedTime.Some? ==> IsAvailableTime(selectedTime.value))
    }

    /** The screen as it mounts: step 1, nothing chosen, today's date. */
    constructor ()
      ensures Valid()
      ensures step == 1 && selectedSpecialty == None && selectedDoctor == None
      ensures selectedDate == 0 && selectedTime == None && !successModal
    {
      step := 1;
      selectedSpecialty := None;
      selectedDoctor := None;
      selectedDate := 0;
      selectedTime := None;
      successModal := false;
    }

    /** Tapping a specialty card: it is stored and the wizard moves to step 2. */
    method SelectSpecialty(s: Specialty)
      requires Valid() && s in SPECIALTIES
      modifies this
      ensures Valid()
      ensures step == 2 && selectedSpecialty == Some(s)
      ensures selectedDoctor == old(selectedDoctor) && selectedDate == old(selectedDate)
      ensures selectedTime == old(selectedTime) && successModal == old(successModal)
    {
      selectedSpecialty := Some(s);
      step := 2;
    }

    /** Tapping a doctor card at step 2 (only the doctors of the selected
        specialty have cards): it is stored and the wizard moves to step 3. */
    method SelectDoctor(d: Doctor)
      requires Valid() && step == 2 && d in DoctorsFor(selectedSpecialty.value.name)
      modifies this
      ensures Valid()
      ensures step == 3 && selectedDoctor == Some(d)
      ensures selectedSpecialty == old(selectedSpecialty) && selectedDate == old(selectedDate)
      ensures selectedTime == old(selectedTime) && successModal == old(successModal)
    {
      selectedDoctor := Some(d);
      step := 3;
    }

    /** "Select Another Specialty", offered at step 2 only when the selected
        specialty has no doctors: back to step 1, selections kept. */
    method NoDoctorsGoBack()
      requires Valid() && step == 2 && DoctorsFor(selectedSpecialty.value.name) == []
      modifies this
      ensures Valid() && step == 1
      ensures selectedSpecialty == old(selectedSpecialty) && selectedDoctor == old(selectedDoctor)
      ensures selectedDate == old(selectedDate) && selectedTime == old(selectedTime)
      ensures successModal == old(successModal)
    {
      step := 1;
    }

    /** The header's back arrow: one step back, or, at step 1, leave the
        screen (`leave`) with the step unchanged. Selections are kept. */
    method Back() returns (leave: bool)
      requires Valid()
      modifies this
      ensures Valid()
      ensures leave <==> old(step) == 1
      ensures step == if old(step) > 1 then old(step) - 1 else old(step)
      ensures selectedSpecialty == old(selectedSpecialty) && selectedDoctor == old(selectedDoctor)
      ensures selectedDate == old(selectedDate) && selectedTime == old(selectedTime)
      ensures successModal == old(successModal)
    {
      if step > 1 {
        step := step - 1;
        leave := false;
      } else {
        leave := true;
      }
    }

    /** Tapping a day of the date strip (today plus `offset` days). */
    method SelectDate(offset: nat)
      requires Valid() && offset < DATE_OFFSETS
      modifies this
      ensures Valid()
      ensures selectedDate == offset
      ensures step == old(step) && selectedSpecialty == old(selectedSpecialty)
      ensures selectedDoctor == old(selectedDoctor) && selectedTime == old(selectedTime)
      ensures successModal == old(successModal)
    {
      selectedDate := offset;
    }

    /** Tapping slot `index`: an available slot becomes the selected time;
        an unavailable one is disabled and changes nothing. */
    method TapTimeSlot(index: nat)
      requires Valid() && index < |TIME_SLOTS|
      modifies this
      ensures Valid()
      ensures selectedTime == if SlotAvailable(index) then Some(TIME_SLOTS[index]) else old(selectedTime)
      ensures step == old(step) && selectedSpecialty == old(selectedSpecialty)
      ensures selectedDoctor == old(selectedDoctor) && selectedDate == old(selectedDate)
      ensures successModal == old(successModal)
    {
      if SlotAvailable(index) {
        selectedTime := Some(TIME_SLOTS[index]);
      }
    }

    /** "Confirm Booking" at step 3. The button is disabled while no time is
        selected; otherwise it shows the success dialog and nothing else
        changes. A booking always has a specialty, a doctor of that
        specialty, a date and an available time. */
    method TapConfirm() returns (booked: bool)
      requires Valid() && step == 3
      modifies this
      ensures Valid()
      ensures booked <==> old(selectedTime).Some?
      ensures successModal == (old(successModal) || booked)
      ensures booked ==> selectedSpecialty.Some? && selectedDoctor.Some? && selectedTime.Some?
      ensures booked ==> selectedDoctor.value.specialty == selectedSpecialty.value.name
      ensures booked ==> selectedDate < DATE_OFFSETS && IsAvailableTime(selectedTime.value)
      ensures step == old(step) && selectedSpecialty == old(selectedSpecialty)
      ensures selectedDoctor == old(selectedDoctor) && selectedDate == old(selectedDate)
      ensures selectedTime == old(selectedTime)
    {
      booked := selectedTime.Some?;
      if booked {
        successModal := true;
      }
    }

    /** The timer that fires three seconds after a booking: the dialog is
        hidden and the wizard is back where it started, dated today. */
    method ResetAfterBooking()
      modifies this
      ensures Valid()
      ensures step == 1 && selectedSpecialty == None && selectedDoctor == None
      ensures selectedDate == 0 && selectedTime == None && !successModal
    {
      successModal := false;
      step := 1;
      selectedSpecialty := None;
      selectedDoctor := None;
      selectedDate := 0;
      selectedTime := None;
    }

    /** The confirmation dialog's fields, each "" when nothing is selected. */
    function Confirmation(): (c: ConfirmationCard)
      reads this
      ensures selectedDoctor.Some? ==> c.doctor == selectedDoctor.value.name && c.location == selectedDoctor.value.hospital
      ensures selectedDoctor.None? ==> c.doctor == "" && c.location == ""
      ensures c.specialty == if selectedSpecialty.Some? then selectedSpecialty.value.name else ""
      ensures c.time == if selectedTime.Some? then selectedTime.value else ""
      ensures c.dayOffset == selectedDate
    {
      ConfirmationCard(
        if selectedDoctor.Some? then selectedDoctor.value.name else "",
        if selectedSpecialty.Some? then selectedSpecialty.value.name else "",
        selectedDate,
        if selectedTime.Some? then selectedTime.value else "",
        if selectedDoctor.Some? then selectedDoctor.value.hospital else "")
    }
  }

  /** Steps 1 to 3 of a booking: Cardiology, Dr. Sarah Wong, the day after
      tomorrow, a tap on the unavailable first slot (ignored) and then on the
      second available slot. */
  method ChooseCardiology() returns (w: BookingWizard)
    ensures fresh(w) && w.Valid() && w.step == 3
    ensures w.selectedSpecialty == Some(SPECIALTIES[1]) && w.selectedDoctor == Some(DOCTORS[1])
    ensures w.selectedDate == 2 && w.selectedTime == Some(TIME_SLOTS[2]) && !w.successModal
  {
    w := new BookingWizard();
    w.SelectSpecialty(SPECIALTIES[1]);
    assert DoctorsFor(SPECIALTIES[1].name) == [DOCTORS[1]] by {
      FilterPeel(SPECIALTIES[1].name);
    }
    w.SelectDoctor(DOCTORS[1]);
    w.SelectDate(2);
    w.TapTimeSlot(0);
    assert w.selectedTime == None;
    w.TapTimeSlot(2);
  }

  /** A whole booking as chosen above: the dialog names the doctor, the
      specialty, the day and the slot, and the timer then returns the wizard
      to step 1. */
  method BookCardiology() returns (card: ConfirmationCard, afterReset: int)
    ensures card == ConfirmationCard("Dr. Sarah Wong", "Cardiology", 2, "11:00 AM", "National Heart Centre")
    ensures afterReset == 1
  {
    var w := ChooseCardiology();
    var booked := w.TapConfirm();
    assert booked && w.successModal;
    card := w.Confirmation();
    w.ResetAfterBooking();
    afterReset := w.step;
  }
}
