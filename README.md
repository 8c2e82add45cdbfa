# Medication reminder: a Dafny model of its logic

The application is a React Native medication reminder.

- **The storage layer** (`utilis/storage.ts`) keeps two lists in a device key-value store: the medications and the dose history.
- **The reminder layer** (`utilis/notifications.ts`) manages the phone's notification permission and schedules daily notifications tagged with a medication id.
- **The dashboard** (`app/home.tsx`) shows today's active medications, a progress ring and one "Take"/"Taken" button per medication. When it opens and a push token is obtained, it schedules a reminder for every medication whose reminders are on.
- **The calendar screen** (`app/calendar/index.tsx`) draws the selected month as week rows and lists which medications were taken on the selected date.
- **The "New Medication" form** (`app/medications/add.tsx`) offers frequency and duration cards, checks four required fields, and edits the form state.

The model has eight modules:

- `Common`: `Option` and the order-preserving `Filter` (`Array.prototype.filter`), with its subsequence and multiplicity lemmas.
- `JsText`: the JavaScript string primitives the code relies on (`trim`, `split`, `parseInt`, `Number`), from sections 22.1.3.32, 22.1.3.23, 19.2.5 and 7.1.4.1.1 of ECMA-262.
- `JsDate`: the integer Gregorian calendar of section 21.4.1 of ECMA-262. It covers day numbers from 1970, `new Date(y, m, d)` with its overflow rule (day 0 is the last day of the month before), `getDay`, and the calendar day of a timestamp.
- `Storage`: the class `MedicationStore`, whose two keys are each absent or hold a list.
- `Notifications`: the class `NotificationCenter`, which stands for the device's permission status and its list of scheduled notifications, plus the module's functions as methods over it.
- `Home`, `Calendar` and `AddMedication`: each screen's rules as functions and lemmas, and its React state as a class whose methods are the event handlers.

Dates are integers: milliseconds since 1 January 1970 for timestamps, and day numbers for calendar days. Every device call that can fail (a storage read or write, a scheduling call, the push-token request) takes a boolean or optional parameter saying whether it fails or what it answers.

The model follows the code where it departs from the application's design intent:

- An "Ongoing" medication is meant to be active every day. In the code, the stored label "Ongoing" does not parse as a number, so such a medication is never active (`Home.OngoingNeverActive`, `AddMedication.DurationLabelsParse`).
- The scheduling loop returns after its first time, so only `times[0]` is scheduled (`Notifications.ScheduleMedicationReminder`).
- Opening the dashboard schedules reminders without cancelling earlier ones, so each time it opens, a medication whose reminders are on gains one more notification (`Home.SetupKeepsEarlier`, `Home.RemountDuplicatesReminder`).

## Model

| member | source | states |
|---|---|---|
| Common.Filter | utilis/storage.ts:65-67 | `filter` returns no more elements than it was given; each one satisfies the predicate and comes from the input; every satisfying input element is kept |
| Common.FilterIsSubsequence | app/home.tsx:152-168 | a filtered list is an order-preserving subsequence of the original |
| Common.FilterMultiplicity | utilis/storage.ts:65-67 | a filtered list holds each satisfying element exactly as often as the original, and no other element |
| JsText.TrimStartSpec | app/medications/add.tsx:161 | `trim` drops exactly the leading white space: what it drops is all blank, and what remains starts with a non-blank character |
| JsText.TrimEndSpec | app/medications/add.tsx:161 | `trim` drops exactly the trailing white space: what it drops is all blank, and what remains ends with a non-blank character |
| JsText.TrimEmptyIff | app/medications/add.tsx:161-172 | `!s.trim()` holds exactly when `s` is empty or all white space |
| JsText.Split | app/home.tsx:154 | `split` always returns at least one part |
| JsText.SplitJoin | utilis/notifications.ts:55 | joining the parts of a split with the separator gives back the original string, and no part holds the separator |
| JsText.SplitFirstPart | app/home.tsx:154 | `split(" ")[0]` is the longest prefix without a space |
| JsText.SplitNoSeparator | app/home.tsx:154 | a string without the separator splits into itself alone |
| JsText.SplitAtSeparator | app/home.tsx:154 | a separator-free prefix followed by the separator becomes the first part, and the rest is split on |
| JsText.DigitPrefix | app/home.tsx:154 | the digits `parseInt` reads are the longest run of digits at the start |
| JsText.ToDecimal | app/medications/add.tsx:141 | the numeral of a number is a non-empty string of decimal digits |
| JsText.DecimalValue | app/medications/add.tsx:141 | the digits of the numeral of `n` have the value `n` |
| JsText.ParseIntDecimal | app/home.tsx:154 | `parseInt` reads back the numeral of `n`, whatever non-numeric text follows |
| JsText.ParseIntNegative | app/home.tsx:154-157 | `parseInt` reads "-N" followed by non-numeric text as -N |
| JsText.ParseIntNaN | app/home.tsx:154 | `parseInt` is NaN when the first non-blank character is neither a sign nor a digit |
| JsText.ToNumberDecimal | utilis/notifications.ts:55 | `Number` reads back the numeral of `n` |
| JsText.ToNumberTwoDigits | utilis/notifications.ts:55 | `Number` of two digits such as "09" is their value, leading zero included |
| JsDate.DaysInYear | app/calendar/index.tsx:54 | a year has 366 days exactly when it is divisible by 4 and either not by 100 or by 400, else 365 |
| JsDate.DaysInMonth | app/calendar/index.tsx:54 | a month has 28 to 31 days, and February has 29 exactly in leap years |
| JsDate.WeekDay | app/calendar/index.tsx:55 | `getDay` is between 0 (Sunday) and 6 |
| JsDate.MakeDate | app/calendar/index.tsx:54 | `new Date(y, m, d)` is a valid date whose day number is MakeDay(y, m, d), for any month and day, out-of-range ones included |
| JsDate.Normalize | app/calendar/index.tsx:54 | carrying an out-of-range day into the neighbouring months keeps the day number and yields a valid date |
| JsDate.YearStep | app/calendar/index.tsx:54 | 1 January of the next year comes DaysInYear days after 1 January |
| JsDate.YearLength | app/calendar/index.tsx:54 | the twelve months add up to the year |
| JsDate.NextMonthStart | app/calendar/index.tsx:54 | the 1st of the following month, December to January included, comes DaysInMonth days after the 1st |
| JsDate.DayOfInjective | app/calendar/index.tsx:52-55 | two valid dates with the same day number are equal, so `getFullYear`, `getMonth` and `getDate` are determined |
| JsDate.MakeDateUnique | app/calendar/index.tsx:54 | `new Date(y, m, d)` is the only valid date with day number MakeDay(y, m, d) |
| JsDate.DayZero | app/calendar/index.tsx:54 | `new Date(y, m + 1, 0)` is the last day of month m |
| JsDate.MakeDateValid | app/calendar/index.tsx:55 | constructing a valid date returns that date |
| Storage.ReadList | utilis/storage.ts:31-39 | a read gives the stored list, or the empty list when the key is absent or the read throws |
| Storage.TodaysDosesSpec | utilis/storage.ts:61-72 | today's doses are an order-preserving subsequence of the history, holding every dose of today's calendar day as often as the history does, and no other dose |
| Storage.MedicationStore.constructor | utilis/storage.ts:31-39 | an empty device store has both keys absent |
| Storage.MedicationStore.GetMedications | utilis/storage.ts:31-39 | returns the stored medications, or the empty list when the key is absent or the read fails |
| Storage.MedicationStore.AddMedication | utilis/storage.ts:41-49 | on success the key holds the old list (empty if the read failed) followed by the new medication; a failed write is rethrown and changes nothing; the dose history is untouched |
| Storage.MedicationStore.GetDoseHistory | utilis/storage.ts:51-59 | returns the stored history, or the empty list when the key is absent or the read fails |
| Storage.MedicationStore.GetTodaysDoses | utilis/storage.ts:61-72 | returns the history filtered to the calendar day of now; every returned dose lies on that day |
| Storage.MedicationStore.RecordDose | utilis/storage.ts:74-93 | on success the history key holds the old history (empty if the read failed, so the write then replaces the whole history) followed by one record with the given medication id, taken flag, timestamp and id; a failed write is swallowed and changes nothing; the medications are untouched |
| Storage.MedicationStore.ClearAllData | utilis/storage.ts:95-102 | on success both keys are absent; a failure is rethrown and removes neither |
| Notifications.NotificationCenter.RequestPermissions | utilis/notifications.ts:21-22 | the user's answer becomes the permission status; the scheduled notifications are untouched |
| Notifications.NotificationCenter.Schedule | utilis/notifications.ts:63-74 | appends one notification under a fresh identifier and returns that identifier |
| Notifications.NotificationCenter.Cancel | utilis/notifications.ts:97-99 | removes the notifications with that identifier and nothing else |
| Notifications.WithoutIdentifierRemovesOne | utilis/notifications.ts:96-99 | cancelling an identifier that one entry alone carries removes that entry and keeps the others in order |
| Notifications.CancelKeepsDistinctIds | utilis/notifications.ts:97-99 | cancelling keeps the identifiers distinct |
| Notifications.PushRegistration | utilis/notifications.ts:13-47 | asks for permission exactly when the existing status is not granted; the final status is the answer when it asks, else the existing one; a token comes back exactly when the final status is granted and fetching it did not throw |
| Notifications.RegisterForPushNotifications | utilis/notifications.ts:13-47 | the device's status and request count change as the permission decision says; the returned token is the decision's; nothing is scheduled or cancelled |
| Notifications.ClockTimeTrigger | utilis/notifications.ts:55 | a zero-padded "HH:MM" time gives the trigger hour HH and minute MM |
| Notifications.NoColonNoMinute | utilis/notifications.ts:55 | a time without ":" gives an undefined minute |
| Notifications.ReminderTagged | utilis/notifications.ts:67 | a medication's reminder carries that medication's id and no other |
| Notifications.ScheduleMedicationReminder | utilis/notifications.ts:49-82 | with reminders off, no times, or a failing device call, nothing is scheduled and the result is undefined; otherwise exactly one daily notification, for `times[0]` and tagged with the medication id, is scheduled and its identifier returned |
| Notifications.CancelMedicationReminder | utilis/notifications.ts:84-105 | afterwards the scheduled list is the old one without the medication's notifications, or unchanged when listing failed |
| Notifications.CancelIfTagged | utilis/notifications.ts:91-101 | one iteration of the cancel loop extends the processed prefix by one entry, dropping it exactly when it is tagged with the medication |
| Notifications.WithoutMedicationStep | utilis/notifications.ts:91-101 | removing a medication's notifications from a prefix one entry longer drops that entry exactly when it is tagged |
| Notifications.CancelStepTagged | utilis/notifications.ts:96-99 | with distinct identifiers, cancelling a tagged entry by its identifier removes that entry and no other |
| Notifications.CancelStepUntagged | utilis/notifications.ts:96 | an entry of another medication is left in place |
| Notifications.UpdateMedicationReminders | utilis/notifications.ts:107-116 | afterwards the scheduled list is what remains after the cancel, followed by the medication's one new reminder when it is scheduled; one identifier is used exactly when a reminder is scheduled; the permission status and request count are unchanged |
| Notifications.CancelRemovesExactly | utilis/notifications.ts:84-105 | after a cancel no notification of the medication is left, every other medication keeps its notifications, and a second cancel changes nothing |
| Notifications.UpdateEffect | utilis/notifications.ts:107-116 | after an update the medication's notifications are exactly its new reminder or none, and every other medication's are as before |
| Notifications.ScheduleEach | utilis/notifications.ts:54-77 | scheduling a list of requests appends one notification per request, in order, under consecutive identifiers, and returns them; the permission status and request count are unchanged |
| Notifications.ReminderRequests | utilis/notifications.ts:54 | one request per configured time |
| Notifications.ScheduleAllReminders | utilis/notifications.ts:54-77 | the loop without its early return: with reminders on, one daily notification per time, in order, using one identifier per time; with reminders off, nothing; the permission status and request count are unchanged |
| Notifications.EarlyReturnDropsLaterTimes | utilis/notifications.ts:54-77 | with two or more times, the intended loop's requests give one notification per time, the first being the reminder the written loop schedules |
| Notifications.EarlyReturnContrast | utilis/notifications.ts:54-77 | run on fresh devices for a medication with reminders on and two or more times, the written `scheduleMedicationReminder` leaves exactly one notification, for `times[0]`, while the intended loop leaves one per time, the first of them that same notification |
| Home.ActiveMedicationsSpec | app/home.tsx:152-170 | today's list is an order-preserving subsequence of the medications, holding each active medication as often as it is stored, and nothing else |
| Home.DurationLabel | app/home.tsx:154 | a label "N ..." parses to N days |
| Home.ActiveWindow | app/home.tsx:156-163 | a medication labelled "N ..." is active exactly when now lies from its start to N days later, both ends included |
| Home.MinusOneAlwaysActive | app/home.tsx:157 | a medication labelled "-1 ..." is active at every time, including before its start |
| Home.OngoingNeverActive | app/home.tsx:154-167 | the label "Ongoing" parses to NaN, so such a medication is never active |
| Home.CompletedCountIndices | app/home.tsx:172 | the completed count is the number of today's dose records that are taken |
| Home.ProgressRatio | app/home.tsx:245-248 | the ring's value is completed / (2 · active) (the displayed total is 2 · active), 0 with no active medication, never negative, and not clamped |
| Home.ProgressAtMostOne | app/home.tsx:245-248 | the ring is at most full exactly when at most two doses per active medication were taken |
| Home.Round | app/home.tsx:99 | `Math.round` gives the integer within one half of x, halves going up |
| Home.Percent | app/home.tsx:99 | the intended label lies between 0 and 100 whenever the ring is not overfull |
| Home.PercentShownIsZeroOrOne | app/home.tsx:99 | the label as written shows only 0% or 1% while the ring is not overfull |
| Home.PercentShownHalfRing | app/home.tsx:99 | one dose of one medication is a half ring labelled 1%, where 50% is meant |
| Home.MarkerOnTakenHistory | app/home.tsx:239-243 | on a history of taken doses only, `isDoseTaken` is false for every medication, while the intended test is true exactly for those with a record |
| Home.RecordingTakenDose | app/home.tsx:239-243 | recording a taken dose leaves `isDoseTaken` as it was, and makes the intended test true |
| Home.TodaysDosesAllTaken | app/home.tsx:142-147 | when every stored record is taken, so is every dose of today's list |
| Home.TakeButtonInert | app/home.tsx:362-377 | only the "Taken" button has a handler, and it records taken doses only; on a history of taken doses (the empty one included) every card's button is the handler-less "Take", before and after recording one more taken dose, so the dashboard can never record a dose |
| Home.SetupReminders | app/home.tsx:190-194 | the reminders added by the setup loop carry consecutive identifiers, at most one per medication |
| Home.SetupOnePerMedication | app/home.tsx:180-198 | with distinct medication ids, the setup loop adds exactly one notification for each medication that has reminders on, a time and a successful device call, and none for any other |
| Home.SetupKeepsEarlier | app/home.tsx:180-198 | setup cancels nothing: each medication keeps the notifications it already had and gains one when it fires |
| Home.RemountDuplicatesReminder | app/home.tsx:180-202 | opening the dashboard twice on a fresh device with one medication whose reminders are on leaves two notifications tagged with that medication |
| Home.HomeScreen.constructor | app/home.tsx:131-135 | the screen starts with empty lists and no completed dose |
| Home.HomeScreen.LoadMedications | app/home.tsx:140-178 | after loading, the state holds what the store reads back, today's doses, the active filter of the medications and the taken count |
| Home.HomeScreen.HandleTakeDose | app/home.tsx:229-237 | records one taken dose stamped now, then reloads, so the state is consistent with the store |
| Home.HomeScreen.SetupNotifications | app/home.tsx:180-198 | the permission status and request count change as the permission decision says; without a token nothing is scheduled and no identifier is used; with one, the medications' reminders are appended in stored order as SetupReminders lists them, using one identifier each |
| Calendar.GetDaysInMonth | app/calendar/index.tsx:51-57 | `days` is the length of the month (28 to 31) and `firstDay` the weekday of its 1st |
| Calendar.FirstOfMonth | app/calendar/index.tsx:55 | `new Date(y, m, 1)` is the 1st of that month |
| Calendar.NextFirstDay | app/calendar/index.tsx:55 | the next month starts on the weekday after the last day of this one |
| Calendar.MonthGrid | app/calendar/index.tsx:65-95 | the cells of a month are `firstDay` blanks followed by one cell per day |
| Calendar.Rows | app/calendar/index.tsx:97-104 | week rows hold 1 to 7 cells, and every row but the last holds 7 |
| Calendar.RowsConcat | app/calendar/index.tsx:97-104 | grouping into rows loses and reorders no cell |
| Calendar.RowsAppend | app/calendar/index.tsx:97-104 | a row closed after whole weeks becomes the next row |
| Calendar.GridShape | app/calendar/index.tsx:62-107 | the calendar has firstDay + days cells, the first firstDay of them blank, in rows of 7 except the last |
| Calendar.GridStart | app/calendar/index.tsx:65-67 | the leading blanks form the open row before any row is closed |
| Calendar.GridStep | app/calendar/index.tsx:81-104 | pushing a cell and closing the row after a whole week or after the last day keeps the grouping invariant |
| Calendar.CalendarScreen.constructor | app/calendar/index.tsx:25-27 | the screen opens on today's date with nothing loaded |
| Calendar.CalendarScreen.LoadData | app/calendar/index.tsx:31-43 | loads the medications and the whole dose history; the selected date is unchanged |
| Calendar.CalendarScreen.RenderCalendar | app/calendar/index.tsx:61-108 | the calendar is the month's cells grouped into week rows, every day cell marked as the 1st of the month is |
| Calendar.CalendarScreen.LeadingBlanks | app/calendar/index.tsx:65-67 | the first week starts with exactly `firstDay` blanks |
| Calendar.CalendarScreen.DayCellFor | app/calendar/index.tsx:70-95 | a day's cell shows its number, with the today and dose markers of the 1st of the month |
| Calendar.CalendarScreen.GoToPreviousMonth | app/calendar/index.tsx:169-178 | the selected date becomes the 1st of the previous month |
| Calendar.CalendarScreen.GoToNextMonth | app/calendar/index.tsx:188-197 | the selected date becomes the 1st of the next month |
| Calendar.CalendarScreen.TakeFromList | app/calendar/index.tsx:134-138 | records one taken dose stamped with midnight of today, then reloads both the medications and the history from the store |
| Calendar.DateOfDay | app/calendar/index.tsx:25 | the date of a day number is valid and has that day number |
| Calendar.Midnight | app/calendar/index.tsx:136 | `toDateString()` of now reads back as the start of today |
| Calendar.MonthBefore | app/calendar/index.tsx:172-176 | the 1st of the previous month, January going back to December of the year before |
| Calendar.MonthAfter | app/calendar/index.tsx:191-195 | the 1st of the next month, December going on to January of the year after |
| Calendar.NavigationRoundTrip | app/calendar/index.tsx:169-197 | back then forward, or forward then back, lands on the 1st of the month started from |
| Calendar.TakenOnIff | app/calendar/index.tsx:111-119 | a medication is taken on a date exactly when the history holds a taken dose of it on that calendar day |
| Calendar.TakenFlags | app/calendar/index.tsx:116-119 | one taken flag per medication, in stored order |
| Calendar.CellDate | app/calendar/index.tsx:70-73 | the intended cell date is that day of the month |
| Calendar.IntendedGrid | app/calendar/index.tsx:69-79 | the intended grid: the blanks, then each day with the markers of its own date |
| Calendar.IntendedCell | app/calendar/index.tsx:70-79 | a day cell marked with its own date's today and dose markers |
| Calendar.TodayMarkerOnFifteenth | app/calendar/index.tsx:70-79 | on the 15th, the grid as written marks no cell as today, while the intended grid marks exactly the cell of the 15th |
| AddMedication.Frequencies | app/medications/add.tsx:18-43 | four cards with 1, 2, 3 and 4 times, each list starting at 09:00 and every list after the first ending at 21:00; ids and labels are distinct |
| AddMedication.Durations | app/medications/add.tsx:45-51 | four increasing positive lengths and an "Ongoing" card with a non-positive value; ids are distinct |
| AddMedication.DurationBadge | app/medications/add.tsx:141 | the badge is "∞" exactly for a non-positive value; otherwise it is the numeral of the value |
| AddMedication.DaysLabel | app/medications/add.tsx:46-49 | a label "N days" parses back, on the dashboard, as N |
| AddMedication.DurationCaptions | app/medications/add.tsx:46-49 | each fixed duration is labelled with its value followed by " days" |
| AddMedication.DurationLabelsParse | app/medications/add.tsx:45-51 | each offered label parses back as its own number of days, except "Ongoing", which is NaN |
| AddMedication.DaytimeHourScheduled | app/medications/add.tsx:23-41 | an "HH:00" time hands the scheduler hour HH and minute 0 |
| AddMedication.FrequencyTimesAreClockTimes | app/medications/add.tsx:18-43 | every listed time gives the scheduler a whole hour from 9 to 21 |
| AddMedication.ErrorIffBlank | app/medications/add.tsx:161-172 | a checked field gets its own message exactly when it is blank or all white space |
| AddMedication.CollectErrors | app/medications/add.tsx:160-172 | the dictionary built field by field is exactly the errors the form deserves |
| AddMedication.ValidIffFilled | app/medications/add.tsx:159-176 | a form passes exactly when name, dosage, frequency and duration each hold a non-blank character |
| AddMedication.InitialFormErrors | app/medications/add.tsx:56-68 | the opening form fails on all four checked fields |
| AddMedication.UnsetChoicesRejected | app/medications/add.tsx:167-172 | a form whose frequency and duration were never set always fails on both |
| AddMedication.ClearError | app/medications/add.tsx:208-212 | a showing message of the field is blanked; the keys and the other entries stay; without a showing message nothing changes |
| AddMedication.CardsShowTimes | app/medications/add.tsx:276 | any card label stored as the frequency would show the times list |
| AddMedication.UpdateFirstTime | app/medications/add.tsx:324-329 | the first time becomes the picked one; the length and the other entries stay |
| AddMedication.UpdateFirstTimeLastWins | app/medications/add.tsx:324-329 | picking twice keeps the second pick; picking the current first time changes nothing |
| AddMedication.AddMedicationScreen.constructor | app/medications/add.tsx:56-75 | the screen opens on the initial form, no errors, nothing selected and no picker shown; the times list is hidden |
| AddMedication.AddMedicationScreen.ValidateForm | app/medications/add.tsx:159-176 | the errors become those the form deserves; it returns true exactly when there are none, that is when the four fields are filled; while the choices are unset it returns false |
| AddMedication.AddMedicationScreen.ChangeName | app/medications/add.tsx:208-213 | the name is replaced and only the name's showing error is blanked |
| AddMedication.AddMedicationScreen.ChangeDosage | app/medications/add.tsx:225-230 | the dosage is replaced and only the dosage's showing error is blanked |
| AddMedication.AddMedicationScreen.SelectFrequency | app/medications/add.tsx:90 | a card press sets the highlighted frequency only; the form's frequency stays unset |
| AddMedication.AddMedicationScreen.OpenDatePicker | app/medications/add.tsx:255 | opens the date picker and changes nothing else |
| AddMedication.AddMedicationScreen.PickDate | app/medications/add.tsx:269-272 | the picker closes; a picked date becomes the start date |
| AddMedication.AddMedicationScreen.OpenTimePicker | app/medications/add.tsx:283 | opens the time picker and changes nothing else |
| AddMedication.AddMedicationScreen.PickTime | app/medications/add.tsx:316-330 | the picker closes; a picked time replaces the first entry of the times list only |
| AddMedication.AddMedicationScreen.ToggleReminders | app/medications/add.tsx:356-358 | the switch sets the reminder flag only |
| AddMedication.AddMedicationScreen.ChangeNotes | app/medications/add.tsx:375 | the notes are replaced and nothing else changes |

## Left out

- Persistence: AsyncStorage and JSON (de)serialisation are not modelled. Each key is absent or holds a list, and a stored empty string reads as absent.
- Concurrency: the `Promise.all` reads and concurrent read-modify-write calls are not modelled. Every call is atomic and sequential.
- Time zones: local time is taken to be UTC. `toDateString` equality is equality of `CalendarDay`, and `toLocaleString`, `toLocaleDateString` and `toLocaleTimeString` formatting is not modelled. The picked clock time reaches `PickTime` already formatted.
- Random ids: the `Math.random` id of `recordDose` is a parameter. Nothing is claimed about its uniqueness.
- expo-notifications internals are not modelled: the notification handler, push-token issuance, the Android channel, and delivery. A failed token fetch is `tokenResponse == None`.
- The `today` date that `scheduleMedicationReminder` computes is left out, because it never reaches the trigger.
- Notifications.RegisterForPushNotifications: `getPermissionsAsync` or `requestPermissionsAsync` throwing (outside the `try`) is not modelled.
- Notifications.CancelMedicationReminder: a cancel call failing part-way through the loop is not modelled. Only a failed listing is, which cancels nothing.
- Notifications.ScheduleMedicationReminder: identifiers are numbers handed out by the device counter, not strings.
- Notifications.Trigger: the trigger keeps the time string. The hour and minute the device receives are `HourAndMinute` of it, and `repeats: true` is implicit.
- The time picker's initial value (`form.times[0]` split into a `Date`, at app/medications/add.tsx:308-315) is left out, because it only seeds the picker's display.
- All rendering is left out: JSX, styles, the quick actions, the notification modal, animation, and the SVG geometry of the progress ring, which is floating point.
- The splash and authentication screens (app/index.tsx, app/auth.tsx) are not part of this model: they hold timers, navigation and a biometric call.
- `isSubmitting` and the Save button: the button has no `onPress` and `isSubmitting` is never set, so `validateForm` is never called and nothing is saved. `ValidateForm` is modelled as a method nobody calls.
- Routing, focus and AppState events are not modelled. `LoadMedications` and `LoadData` are the handlers they call.
- The duration cards have no `onPress`, so `selectedDuration` is never set, and no handler sets `form.frequency` or `form.duration`. `ChoicesUnset` records this, and as a result `OpenTimePicker` can never be called in the running application.
- `renderMedicationsForDate` (`Calendar.TakenFlags`) is defined in the source but never rendered.
- The Home "Take" button has no handler (`Home.DoseButtonOf`).
- Home.Percent: only the bound 0..100 is stated, not the exact percentage.
- JsDate.MakeDate: the Date constructor's mapping of years 0 to 99 to 1900 to 1999 is not modelled (`new Date(0, 2, 0)` is in 1900). The model treats such years as themselves, and the screens only reach them after thousands of month steps.
- Calendar.GetDaysInMonth: inherits the MakeDate gap for years 0 to 99. For example, February of year 0 has 29 days in the model and 28 in the source, which means 1900.
- Home.IsActive: TimeClip is not modelled. An end date beyond 8.64e15 ms is an Invalid Date in the source, so the medication is inactive there but active in the model. Only durations over about 100 million days, never offered by the form, reach it.
- Home.ActiveWindow: states the window without TimeClip, as IsActive does.
- JsText.ToNumber: only blank strings and signed decimal digit strings are given their value. Every other numeral is reported as not an integer: exponents ("1e1"), fractions ("9.0"), hexadecimal ("0x10") and Infinity. This is exact for the zero-padded "HH:MM" times the form produces.

## Findings

| source | as written | input that shows it | evidently intended | confidence | as-written member | corrected member |
|---|---|---|---|---|---|---|
| app/home.tsx:239-243 | `isDoseTaken` tests `!dose.taken`, so the card shows "Taken" only for a dose recorded as not taken | any history the dashboard writes: it records only taken doses, so after taking a dose the card still shows "Take" | a medication counts as taken when one of today's records of it is taken | high (not executed) | Home.MarkerOnTakenHistory | Home.RecordingTakenDose |
| app/home.tsx:99 | the label shows `Math.round(progress)`% of a ratio between 0 and 1 | 1 dose of 1 active medication: ring half full, label "1%" | `Math.round(progress * 100)`% | high (not executed) | Home.PercentShownHalfRing | Home.Percent |
| app/calendar/index.tsx:70-79 | each cell's date is `new Date(year, month)`, the 1st of the month, whatever its day | now on the 15th: no cell is marked today, and a dose on the 1st puts a dot on every day | each cell's date is `new Date(year, month, day)` | high (not executed) | Calendar.TodayMarkerOnFifteenth | Calendar.IntendedGrid |
| utilis/notifications.ts:54-77 | the loop returns from its first iteration, so only `times[0]` is scheduled | a "Twice daily" medication with times 09:00 and 21:00: no 21:00 reminder | one daily reminder per configured time | medium (not executed) | Notifications.EarlyReturnContrast | Notifications.ScheduleAllReminders |
