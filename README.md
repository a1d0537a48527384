# SingHealth mobile screens: a Dafny model

This project models the logic inside four screens of a React Native health
app. The app has no logic layer of its own, so each piece of state is modelled
as a class and the derived values as functions:

- **Appointments**: the booking wizard. It has three steps: specialty, doctor,
  then date and time. It works over fixed tables of specialties, doctors and
  time slots. Booking shows a confirmation dialog, and a timer later resets the
  wizard.
- **Health**: the assistant chat. The message log starts with a welcome
  message, and sending only appends to it. Sending is guarded against blank
  input. One bot reply is appended per request. A restart cuts the log back
  to the welcome message alone. The screen also has two pure helpers: the Markdown profile block
  sent with each request, and the buttons offered for an assessment outcome.
- **Medication**: the medication list. It has a case-insensitive name search,
  a split into active and inactive sections, and the seven day toggles of the
  "Add New Medication" form.
- **Reports**: the blood-sugar report. It classifies readings against two
  thresholds and filters them with three toggles.

Three shared modules support the screens:

- `Options`: an optional value.
- `Lists`: JavaScript's `Array.prototype.filter` and its facts.
- `JsString`: `trim`, `toLowerCase`, `includes`, `toString`, `padStart`,
  `join` and `split`, on `seq<char>` strings.

The module `Clock` holds the chat screen's `mm:ss` recording clock and the
facts that read a clock back as seconds.

State that the screens change in place is a Dafny `class`:

- `BookingWizard`, `ChatSession`, `MedicationScreen`, `ReportsScreen`.
- Each state-changing handler is a `method` whose `modifies this` clause and
  `ensures` clauses state the new value of every field. The medication card's
  switch changes nothing, and its method ensures `unchanged(this)`.
- `BookingWizard`, `ChatSession` and `MedicationScreen` keep an invariant,
  their `Valid()` predicate. `ReportsScreen` has three independent flags and
  needs none.

The rest is datatypes, functions and lemmas.

Two facts about the chat screen shape its model:

- The chat screen has no keyword triage. `assessmentOutcome` is only ever
  `null` (app/health.tsx:75 and app/health.tsx:312), so `ChatSession.Valid()`
  records that no outcome is set. The map from an outcome to its buttons is
  still modelled, as `Health.OutcomeActions`.
- No option message is ever appended: nothing creates a message of type
  `MESSAGE_TYPES.OPTION`.

External inputs become parameters:

- The reply of the chat service is the parameter `reply: Reply`.
- The calendar date is a day offset from today, 0 to 9.
- The three-second timer after a booking is the explicit method
  `ResetAfterBooking`.

## Model

| member | source | states |
|---|---|---|
| Appointments.DoctorsFor | app/appointments.tsx:270 | The doctors offered are exactly the table entries whose specialty equals the selected specialty's name, kept in table order as a subsequence. |
| Appointments.DoctorsPerSpecialty | app/appointments.tsx:39-55 | Each of the first four specialties offers exactly the doctor in the same table position. Dermatology, Neurology, Ophthalmology and ENT offer none. |
| Appointments.DoctorsOf | app/appointments.tsx:270-288 | For specialty `i`: the single doctor `i` when `i < 4`, otherwise the empty list that leads to the "no doctors" view. |
| Appointments.FilterPeel | app/appointments.tsx:270 | The doctor filter, unfolded one table entry at a time and in order. |
| Appointments.SlotAvailable | app/appointments.tsx:340 | A slot can be booked iff its index is not a multiple of three. |
| Appointments.UnavailableSlots | app/appointments.tsx:57-59 | Of the six slots, a slot is unavailable iff it is index 0 or 3, which are "09:00 AM" and "02:00 PM". Availability follows the `index % 3 !== 0` rule of line 340. |
| Appointments.BookingWizard.constructor | app/appointments.tsx:63-68 | Mount state: step 1, no specialty, doctor or time, today's date, dialog hidden. The invariant holds. |
| Appointments.BookingWizard.SelectSpecialty | app/appointments.tsx:85-93 | The specialty is stored and the step becomes 2. All other fields are unchanged, and the invariant is kept. |
| Appointments.BookingWizard.SelectDoctor | app/appointments.tsx:95-103 | A doctor offered at step 2 is stored and the step becomes 3. The invariant then says the doctor belongs to the chosen specialty. Nothing else changes. |
| Appointments.BookingWizard.NoDoctorsGoBack | app/appointments.tsx:272-285 | With no doctors for the specialty, "Select Another Specialty" goes back to step 1 and keeps every selection. |
| Appointments.BookingWizard.Back | app/appointments.tsx:194 | From step s > 1 the step becomes s-1. At step 1 the screen is left (`leave`) with the step unchanged. Selections are untouched in both cases. |
| Appointments.BookingWizard.SelectDate | app/appointments.tsx:105-107 | Only the date changes, to an offset in 0..9 (the strip of line 180). The step is not touched. |
| Appointments.BookingWizard.TapTimeSlot | app/appointments.tsx:337-356 | An available slot becomes the selected time. An unavailable slot is disabled and changes nothing. The step is never touched. |
| Appointments.BookingWizard.TapConfirm | app/appointments.tsx:401-407 | Confirm books iff a time is selected (the disabled button, line 407). Four facts follow. Booking only shows the dialog (lines 113-119). A booking always has a specialty, a doctor of that specialty, a date and an available time. |
| Appointments.BookingWizard.ResetAfterBooking | app/appointments.tsx:121-129 | The timer hides the dialog, returns to step 1, clears specialty, doctor and time, and resets the date to today. |
| Appointments.BookingWizard.Confirmation | app/appointments.tsx:455-487 | The dialog shows the chosen doctor, specialty, date, time and the doctor's hospital. Each is "" when nothing is selected. |
| Appointments.ChooseCardiology | app/appointments.tsx:85-111 | Cardiology, Dr. Sarah Wong, a day offset of 2 and a tap on the unavailable first slot: the wizard ends at step 3 with the 11:00 AM slot. The ignored tap leaves the time unset. |
| Appointments.BookCardiology | app/appointments.tsx:113-130 | Confirming that booking shows Dr. Sarah Wong, Cardiology, day 2, 11:00 AM and National Heart Centre. The timer then puts the wizard back at step 1. |
| Health.ReplyMessage | app/health.tsx:218-237 | A reply becomes one bot bubble: the completion's text, or the apology text when the request failed. |
| Health.ChatSession.constructor | app/health.tsx:70-75 | The log is the welcome message alone, the input is empty and nothing is loading. |
| Health.ChatSession.SetInput | app/health.tsx:127-129 | Typing sets the input and nothing else. |
| Health.ChatSession.CanSend | app/health.tsx:582-588 | The send button is enabled iff the input has a non-whitespace character and no request is in flight. |
| Health.ChatSession.BeginSend | app/health.tsx:141-155 | Two cases. A blank input (per `trim`) changes nothing. Otherwise: one user bubble with the untrimmed text is appended after the untouched log, the input is cleared, and a request is in flight. |
| Health.ChatSession.ReceiveReply | app/health.tsx:216-237 | Exactly one bot bubble, success or error, is appended at the end of the log. |
| Health.ChatSession.FinishSend | app/health.tsx:171-173 | Whatever happened, the request is no longer in flight. The log and the input are kept. |
| Health.ChatSession.SendMessage | app/health.tsx:141-174 | A whole send changes something iff the input has a non-whitespace character. In that case the log grows by exactly the user bubble and then the reply bubble, its earlier messages untouched, and the input is cleared. |
| Health.ChatSession.ResetAssessment | app/health.tsx:309-313 | The log is exactly the welcome message. The assessment is not completed and its outcome is `null`. |
| Health.ChatSession.HandleOptionSelect | app/health.tsx:296-307 | "book" navigates to /appointments. "restart" resets the log to the welcome message. Any other option changes nothing. |
| Health.OutcomeActions | app/health.tsx:315-391 | No outcome renders nothing. Self-management offers only "Start New Assessment". A GP visit adds booking and an emergency adds the 995 call. Every outcome ends with "Start New Assessment". |
| Health.ActionOption | app/health.tsx:355-386 | The booking button sends "book", the restart button sends "restart", and the 995 button sends no option. |
| Health.Bullets | app/health.tsx:136-138 | One `* ` bullet per entry, in order: bullet `i` is `"* "` followed by entry `i`. |
| Health.FormatUserProfile | app/health.tsx:132-139 | The template: six lines joined by line breaks, namely the age, the gender, a heading, the allergy bullets, a heading and the history bullets. Its line structure is stated by ProfileLines. |
| Health.ProfileLines | app/health.tsx:132-139 | Split into lines, the profile block is as follows: the age line, the gender line, the allergy heading, one "* " bullet per allergy in order, the history heading, and one bullet per history entry in order. |
| Health.SixLines | app/health.tsx:132-139 | Six template lines whose four fixed lines hold no line break split into those lines and the pieces of the two bullet blocks. |
| Health.BulletBlock | app/health.tsx:136-138 | A bullet list joined by line breaks splits back into its bullet lines. |
| Clock.FormatTime | app/health.tsx:488-492 | `mm:ss` has at least five characters, with the colon third from the end and two digits below 60 after it. It has exactly five iff the minutes are below 100 (padStart never truncates), and from 100 minutes on it has no leading zero, as padding stops at two digits. It reads back as the seconds it was made from. |
| Clock.ClockFace | app/health.tsx:491 | The padded minutes and seconds joined by a colon read back as their total. From 100 minutes on there is no leading zero. |
| Clock.ClockOf | app/health.tsx:491 | A digit string, a colon and two digits: the layout, and the value it reads back as. |
| Clock.Pad2Digits | app/health.tsx:491 | `n.toString().padStart(2, '0')` is a digit string denoting `n`. It is at least two characters long, and exactly two iff `n < 100`. When longer, it starts with a non-zero digit. |
| Clock.PaddedValue | app/health.tsx:491 | Zero padding keeps the value of a digit string. |
| Clock.Pad2 | app/health.tsx:491 | `n.toString().padStart(2, '0')`. Its digits, value and length are stated by Pad2Digits. |
| Clock.ParseClock | app/health.tsx:488-492 | A reference reading of a clock: the digits before the colon are minutes and the two after it are seconds. The read-back partner of FormatTime. |
| JsString.Trim | app/health.tsx:142 | `trim` is `s[i..j]`, where `s[..i]` and `s[j..]` are all whitespace and the result neither starts nor ends with whitespace. So exactly the leading and trailing whitespace is removed. The result is empty iff the string is all whitespace. |
| JsString.LeadingSpace | app/health.tsx:142 | The length of the leading whitespace, which is followed by a non-whitespace character unless the whitespace reaches the end. |
| JsString.TrailingSpace | app/health.tsx:142 | The length of the trailing whitespace, which is preceded by a non-whitespace character unless the whitespace reaches the start. |
| JsString.ToLower | app/medication.tsx:74 | Same length, each character lower-cased. |
| JsString.LowerChar | app/medication.tsx:74 | An upper-case ASCII letter maps to its lower-case letter, and any other character to itself. No upper-case letter remains. |
| JsString.ToLowerIdempotent | app/medication.tsx:74 | Lower-casing twice is lower-casing once. |
| JsString.Includes | app/medication.tsx:74 | `includes` holds iff the needle occurs at some index of the haystack. |
| JsString.NatToString | app/health.tsx:491 | `n.toString()` for a non-negative integer below 10^21 has at least one character. Its digits and value are stated by NatToStringDigits. |
| JsString.PadStart | app/health.tsx:491 | `s.padStart(n, c)`: pad copies in front of `s` up to length `n`. Its shape is stated by PadStartShape. |
| JsString.Join | app/health.tsx:136-138 | `xs.join(sep)`: the pieces with the separator between consecutive ones. It is inverted by split, per SplitJoin and SplitJoinPieces. |
| JsString.Split | app/health.tsx:132-139 | `s.split(sep)` on a one-character separator has at least one piece. Its pieces are stated by SplitPieces, SplitWithout and SplitConcat. |
| JsString.NatToStringDigits | app/health.tsx:491 | `toString` of a non-negative integer below 10^21 is a digit string denoting it, with no leading zero. It is one digit below 10 and at most two below 100. |
| JsString.PadStartShape | app/health.tsx:491 | `padStart` gives max(n, \|s\|) characters: copies of the pad followed by `s` unchanged. |
| JsString.LeadingZeros | app/health.tsx:491 | Leading zeros do not change the value of a digit string. |
| JsString.SplitPieces | app/health.tsx:132-139 | No piece of a split holds the separator. |
| JsString.SplitWithout | app/health.tsx:132-139 | A string without the separator splits into itself alone. |
| JsString.SplitConcat | app/health.tsx:132-139 | Splitting at a separator splits the two sides independently. |
| JsString.SplitJoin | app/health.tsx:136-138 | Splitting a join on the same separator gives the pieces back, when no piece holds the separator. |
| JsString.SplitJoinPieces | app/health.tsx:132-139 | Splitting a join on its own separator splits each joined string in turn. |
| Lists.FilterMembers | app/medication.tsx:73-79 | `filter` keeps exactly the elements that satisfy the predicate and is never longer than its input. |
| Lists.Filter | app/medication.tsx:73-79 | `s.filter(p)`, defined by recursion on `s`. Its facts are FilterMembers, FilterCounts, FilterIsSubsequence, FilterPartition, FilterAll and FilterNone. |
| Lists.FilterCounts | app/medication.tsx:73-79 | `filter` keeps each element exactly as many times as it occurs when it passes, and never when it does not. |
| Lists.FilterIsSubsequence | app/medication.tsx:73-79 | `filter` keeps the elements in their original order. |
| Lists.FilterAll | app/reports.tsx:31-36 | A predicate true of every element keeps the whole sequence. |
| Lists.FilterNone | app/reports.tsx:31-36 | A predicate false of every element keeps nothing. |
| Lists.FilterPartition | app/medication.tsx:78-79 | Filtering by a predicate and by its negation divides the input between the two results, as multisets and in length. |
| Lists.FilterCongruent | app/medication.tsx:73-75 | Two predicates that agree on every element filter alike. |
| Medication.FilteredMedications | app/medication.tsx:73-75 | The search keeps exactly the medications whose lower-cased name contains the lower-cased search text. Each is kept as often as it occurs, in original order. An empty search keeps them all. |
| Medication.MatchesSearch | app/medication.tsx:74 | The search callback: the lower-cased name includes the lower-cased search text. |
| Medication.SearchIgnoresCase | app/medication.tsx:74 | Searching with the lower-cased text gives the same list as the text itself. |
| Medication.ActiveMedications | app/medication.tsx:78 | The active section is exactly the active medications of the filtered list, each as often as it occurs there, in order. |
| Medication.InactiveMedications | app/medication.tsx:79 | The inactive section is exactly the inactive medications of the filtered list, each as often as it occurs there, in order. |
| Medication.SectionsPartition | app/medication.tsx:77-79 | Each filtered medication is in exactly one section. Together the sections hold the filtered list, as a multiset and in length. |
| Medication.NoInactiveDemoMedication | app/medication.tsx:15-56 | Every demo medication is active, so for any search the inactive section is empty. |
| Medication.NoInactiveWhenAllActive | app/medication.tsx:77-79 | If every medication is active, no search leaves anything in the inactive section. |
| Medication.InitialDaysComplete | app/medication.tsx:10-12 | The form starts with all seven days present and selected. |
| Medication.DayToggled | app/medication.tsx:65-70 | `{...activeDays, [day]: !activeDays[day]}` flips day `d`, keeps every other day, and adds no other key. |
| Medication.ToggleTwice | app/medication.tsx:65-70 | Toggling the same day twice restores the map. |
| Medication.MedicationScreen.constructor | app/medication.tsx:8-12 | Mount state: empty search, form hidden and every day selected. |
| Medication.MedicationScreen.SetSearchText | app/medication.tsx:95-100 | Typing sets the search text and nothing else. |
| Medication.MedicationScreen.SetModalVisible | app/medication.tsx:207 | The add button opens the form (the close button at line 227 hides it), and nothing else changes. |
| Medication.MedicationScreen.ToggleDay | app/medication.tsx:65-70 | A day button flips that day and leaves the other six and the rest of the screen unchanged. |
| Medication.MedicationScreen.ToggleMedicationStatus | app/medication.tsx:59-62 | The card switch changes no state. |
| Medication.MedicationScreen.Sections | app/medication.tsx:72-79 | The two sections the screen shows are the active and the inactive sections of the current search, in order. Together they hold the search result, and the inactive one is empty. |
| Reports.GetHealthStatus | app/reports.tsx:44-52 | Exactly one class per level: High iff above 150, Low iff below 100, Normal iff 100 to 150 inclusive (the thresholds of lines 22-23). |
| Reports.ShownIffFlagOn | app/reports.tsx:31-36 | The three guarded checks keep a reading iff the toggle of its class is on. |
| Reports.Shown | app/reports.tsx:31-36 | The filter callback as written: three guarded checks in turn, then `false`. Its meaning is stated by ShownIffFlagOn. |
| Reports.ToggledAllOrNothing | app/reports.tsx:26-36 | For the toggles as they stand: all on keeps every reading, all off keeps none. |
| Reports.FilteredData | app/reports.tsx:31-36 | The drawn readings are exactly those whose class is toggled on. Each is kept as often as it occurs, as an order-preserving subsequence. |
| Reports.AllOrNothing | app/reports.tsx:26-36 | With every toggle on all readings are kept. With every toggle off none is. |
| Reports.DemoStatuses | app/reports.tsx:11-19 | The seven demo readings classify as Low, Normal, Normal, High, High, Normal, Normal. |
| Reports.ReportsScreen.constructor | app/reports.tsx:26-28 | All three toggles start on. |
| Reports.ReportsScreen.ToggleHigh | app/reports.tsx:72 | "Show High" flips its own toggle only. |
| Reports.ReportsScreen.ToggleLow | app/reports.tsx:78 | "Show Low" flips its own toggle only. |
| Reports.ReportsScreen.ToggleNormal | app/reports.tsx:84 | "Show Normal" flips its own toggle only. |
| Reports.ReportsScreen.Visible | app/reports.tsx:30-36 | The chart draws the filtered readings for the current toggles: a subsequence of the data, all of it with every toggle on and none with every toggle off. |

## Left out

- Message ids and timestamps: they come from `Date.now()` and `new Date()`, which are clock reads.
- The chat service request, its system prompt, the combined prompt and the API key (app/health.tsx:177-239): network I/O. The reply is the `Reply` parameter, either a completion's text or a failure.
- The outer `catch` of `sendMessage` (app/health.tsx:160-170), with its shorter apology text. The request helper catches every failure itself (app/health.tsx:227-237), so no failure reaches the outer `catch`.
- Voice recording, its `setInterval` clock and the mock transcription (app/health.tsx:108-125, 255-294): timers and a placeholder. Only the pure `formatTime` is modelled, as `Clock.FormatTime`, on a non-negative whole number of seconds.
- `Health.ChatSession.SendMessage`: the request is treated as one step, so a reset or a second send that lands while a reply is pending is not modelled.
- Symptom triage by keywords: the screens contain none, so no classifier is modelled.
- The outcome card's titles, descriptions, icons and colours.
- The Alert confirmation and the phone call behind the 995 button.
- Scroll-to-end and keyboard effects.
- Animations (`withTiming`, `withSequence`, entering transitions), style sheets and card sizing from `Dimensions`: presentation and floating point.
- The booking reference number from `Math.random()` (app/appointments.tsx:494): randomness with no stated guarantee.
- Calendar dates, with date-fns formatting and weekend/month labels: the date is modelled as a day offset from today, and the dialog shows that offset.
- Appointments.DoctorsFor: the doctors' photos and the rating's decimal point are dropped. The rating is kept in tenths of a star.
- Routing: `router.push` and `router.back()` are modelled as returned values (`route`, `leave`).
- The SVG path and axis coordinates of the report chart (app/reports.tsx:39-41, 92-177): floating-point screen geometry.
- app/index.tsx, app/profile.tsx, app/settings.tsx and app/_layout.tsx: presentational screens and tab configuration with no logic of their own.
- JsString.LowerChar: maps only the ASCII letters A-Z. JavaScript's full Unicode case mapping is not modelled.
- JsString.NatToString: covers non-negative whole numbers below 10^21 only. From 10^21 on, JavaScript switches to exponent notation ("1e+21"), and above 2^53 its numbers are not exact. The model prints every natural number as plain digits. The recording clock and the profile age never get near either bound.
- Clock.FormatTime: its digits and read-back hold for minute counts below 10^21 and second counts below 2^53, for the `toString` reason above. A recording never gets near either.
- Console output: `console.log` in `toggleMedicationStatus` (app/medication.tsx:61) and `console.error` (app/health.tsx:161, 228) are logging only.
- Reports.GetHealthStatus: takes the level as a whole number of mg/dL. A fractional JavaScript number between 99 and 100 or between 150 and 151 is not modelled; the demo readings are all whole.
- Health.ProfileLines: is proved for any profile whose gender and entries hold no line break. The demo profile's data (app/health.tsx:45-59) is not part of the model.
