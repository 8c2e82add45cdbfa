/**
 * The dashboard (app/home.tsx): which medications are active today, how many
 * doses were taken, the daily progress ring, the per-medication "taken"
 * marker and its button, recording a dose, and scheduling the reminder of
 * every medication whose reminders are on when the screen opens.
 */
module Home {
  import opened Common
  import opened JsText
  import opened JsDate
  import opened Storage
  import opened Notifications

  /** The number of days of a regimen: `parseInt` of the duration label up to its first space; `None` is NaN. */
  function DurationDays(duration: string): Option<int>
  {
    ParseInt(Split(duration, ' ')[0])
  }

  /**
   * The filter of `loadMedications`: a medication is shown today when its
   * duration parses to -1, or when `now` lies between its start and `days`
   * whole days later, both ends included. A NaN duration makes the end date
   * invalid, and every comparison with it false.
   */
  predicate IsActive(medication: Medication, now: int)
  {
    match DurationDays(medication.duration)
    case None => false
    case Some(days) =>
      days == -1 || (medication.startDate <= now <= medication.startDate + days * MS_PER_DAY)
  }

  function ActiveMedications(medications: seq<Medication>, now: int): seq<Medication>
  {
    Filter(medications, (m: Medication) => IsActive(m, now))
  }

  /** The active list keeps the stored order, and holds every active medication as often as it is stored, and nothing else. */
  lemma ActiveMedicationsSpec(medications: seq<Medication>, now: int)
    ensures IsSubsequence(ActiveMedications(medications, now), medications)
    ensures forall m ::
              multiset(ActiveMedications(medications, now))[m] ==
              if IsActive(m, now) then multiset(medications)[m] else 0
  {
    var p := (m: Medication) => IsActive(m, now);
    FilterIsSubsequence(medications, p);
    forall m
      ensures multiset(ActiveMedications(medications, now))[m] ==
        if IsActive(m, now) then multiset(medications)[m] else 0
    {
      FilterMultiplicity(medications, p, m);
    }
  }

  /** A label such as "30 days" parses to its leading number. */
  lemma DurationLabel(n: nat, rest: string)
    ensures DurationDays(ToDecimal(n) + " " + rest) == Some(n)
  {
    var d := ToDecimal(n);
    assert ' ' !in d by {
      forall i | 0 <= i < |d| ensures d[i] != ' ' {
        assert IsDigit(d[i], 10);
      }
    }
    SplitAtSeparator(d, rest, ' ');
    assert d + [] == d;
    ParseIntDecimal(n, []);
  }

  /** A medication whose label is "N ..." is active exactly from its start to N days later. */
  lemma ActiveWindow(medication: Medication, now: int, n: nat, rest: string)
    requires medication.duration == ToDecimal(n) + " " + rest
    ensures IsActive(medication, now) <==>
      medication.startDate <= now <= medication.startDate + n * MS_PER_DAY
  {
    DurationLabel(n, rest);
  }

  /** A label "-1 ..." makes the medication active on every day, before its start included. */
  lemma MinusOneAlwaysActive(medication: Medication, now: int, rest: string)
    requires medication.duration == "-1 " + rest
    ensures IsActive(medication, now)
  {
    var s := medication.duration;
    assert s == "-1" + [' '] + rest;
    SplitAtSeparator("-1", rest, ' ');
    assert "-1" == "-" + ToDecimal(1) + [];
    ParseIntNegative(1, []);
  }

  /**
   * The "Ongoing" label does not parse as a number, so an ongoing medication
   * is never shown on the dashboard.
   */
  lemma OngoingNeverActive(medication: Medication, now: int)
    requires medication.duration == "Ongoing"
    ensures DurationDays(medication.duration) == None
    ensures !IsActive(medication, now)
  {
    SplitNoSeparator("Ongoing", ' ');
    assert !IsWhiteSpace('O');
    assert TrimStart("Ongoing") == "Ongoing";
    ParseIntNaN("Ongoing");
  }

  /** `todaysDoses.filter(dose => dose.taken).length`. */
  function CompletedCount(doses: seq<DoseRecord>): nat
  {
    |Filter(doses, (d: DoseRecord) => d.taken)|
  }

  /** The positions of `doses` that hold a taken dose. */
  function TakenPositions(doses: seq<DoseRecord>): set<int>
  {
    set i | 0 <= i < |doses| && doses[i].taken
  }

  /** Appending a dose adds its position exactly when it was taken. */
  lemma TakenPositionsAppend(front: seq<DoseRecord>, last: DoseRecord)
    ensures TakenPositions(front + [last]) == TakenPositions(front) + (if last.taken then {|front|} else {})
    ensures |front| !in TakenPositions(front)
  {
    var doses := front + [last];
    forall i | 0 <= i < |front| ensures doses[i] == front[i] { }
    assert doses[|front|] == last;
  }

  /** The completed count is the number of positions that hold a taken dose. */
  lemma {:induction false} CompletedCountIndices(doses: seq<DoseRecord>)
    ensures CompletedCount(doses) == |TakenPositions(doses)|
    decreases |doses|
  {
    if doses == [] {
      assert TakenPositions(doses) == {};
    } else {
      var front, last := doses[..|doses| - 1], doses[|doses| - 1];
      CompletedCountIndices(front);
      assert doses == front + [last];
      FilterAppend(front, [last], (d: DoseRecord) => d.taken);
      TakenPositionsAppend(front, last);
    }
  }

  /**
   * The value of the progress ring: completed doses over twice the number of
   * active medications (two doses a day are assumed), 0 when none is active.
   * It is not clamped.
   */
  function ProgressRatio(completed: nat, active: nat): (r: real)
    ensures r >= 0.0
    ensures active == 0 ==> r == 0.0
    ensures active > 0 ==> r * (2 * active) as real == completed as real
  {
    if active > 0 then completed as real / (2 * active) as real else 0.0
  }

  /** The ring is full or less exactly when at most two doses per active medication were taken. */
  lemma ProgressAtMostOne(completed: nat, active: nat)
    requires active > 0
    ensures ProgressRatio(completed, active) <= 1.0 <==> completed <= 2 * active
  {
    var r := ProgressRatio(completed, active);
    var t := (2 * active) as real;
    if r <= 1.0 {
      assert r * t <= 1.0 * t;
    } else {
      assert r * t > 1.0 * t;
    }
  }

  /** `Math.round`: the nearest integer, halves rounded up. */
  function Round(x: real): (n: int)
    ensures n as real - 0.5 <= x < n as real + 0.5
  {
    (x + 0.5).Floor
  }

  /** The label of the ring as written: `Math.round(progress)` followed by "%". */
  function PercentShown(completed: nat, active: nat): int
  {
    Round(ProgressRatio(completed, active))
  }

  /** The label as intended: the ratio as a percentage. */
  function Percent(completed: nat, active: nat): (n: int)
    ensures 0 <= n
    ensures completed <= 2 * active ==> n <= 100
  {
    ProgressAtMostOneIf(completed, active);
    Round(ProgressRatio(completed, active) * 100.0)
  }

  lemma ProgressAtMostOneIf(completed: nat, active: nat)
    ensures completed <= 2 * active ==> ProgressRatio(completed, active) <= 1.0
  {
    if active > 0 {
      ProgressAtMostOne(completed, active);
    }
  }

  /** As written, the label shows only 0% or 1% while the ring is not overfull. */
  lemma PercentShownIsZeroOrOne(completed: nat, active: nat)
    requires completed <= 2 * active
    ensures PercentShown(completed, active) == 0 || PercentShown(completed, active) == 1
  {
    ProgressAtMostOneIf(completed, active);
  }

  /** One dose of one medication: a half-full ring, labelled "1%" where "50%" is meant. */
  lemma PercentShownHalfRing()
    ensures ProgressRatio(1, 1) == 0.5
    ensures PercentShown(1, 1) == 1 && Percent(1, 1) == 50
  {
    assert ProgressRatio(1, 1) == 0.5;
    assert (0.5 + 0.5).Floor == 1;
    assert (0.5 * 100.0 + 0.5).Floor == 50;
  }

  /** `isDoseTaken` as written: some dose of the medication today was recorded as NOT taken. */
  predicate IsDoseTaken(doses: seq<DoseRecord>, medicationId: string)
  {
    exists i | 0 <= i < |doses| :: doses[i].medicationId == medicationId && !doses[i].taken
  }

  /** What the marker evidently means: some dose of the medication today was recorded as taken. */
  predicate HasTakenDose(doses: seq<DoseRecord>, medicationId: string)
  {
    exists i | 0 <= i < |doses| :: doses[i].medicationId == medicationId && doses[i].taken
  }

  /**
   * The dashboard only ever records taken doses. On such a history the
   * written marker is false for every medication, so the button wired to
   * `handleTakeDose` is never shown; the intended marker is true exactly for
   * the medications with a recorded dose.
   */
  lemma MarkerOnTakenHistory(doses: seq<DoseRecord>, medicationId: string)
    requires forall i :: 0 <= i < |doses| ==> doses[i].taken
    ensures !IsDoseTaken(doses, medicationId)
    ensures HasTakenDose(doses, medicationId) <==> exists i :: 0 <= i < |doses| && doses[i].medicationId == medicationId
  {
  }

  /** Recording a taken dose turns the intended marker on and leaves the written one as it was. */
  lemma RecordingTakenDose(doses: seq<DoseRecord>, dose: DoseRecord)
    requires dose.taken
    ensures IsDoseTaken(doses + [dose], dose.medicationId) == IsDoseTaken(doses, dose.medicationId)
    ensures HasTakenDose(doses + [dose], dose.medicationId)
  {
    var s := doses + [dose];
    assert s[|doses|] == dose;
    if IsDoseTaken(s, dose.medicationId) {
      var i :| 0 <= i < |s| && s[i].medicationId == dose.medicationId && !s[i].taken;
      assert i < |doses| && doses[i] == s[i];
    }
    if IsDoseTaken(doses, dose.medicationId) {
      var i :| 0 <= i < |doses| && doses[i].medicationId == dose.medicationId && !doses[i].taken;
      assert s[i] == doses[i];
    }
  }

  /** The dose button of a card: its label, and whether pressing it does anything. */
  datatype DoseButton = DoseButton(caption: string, pressable: bool)

  /** A marked card shows "Taken" and records a dose when pressed; an unmarked card shows "Take" and has no handler. */
  function DoseButtonOf(doses: seq<DoseRecord>, medicationId: string): DoseButton
  {
    if IsDoseTaken(doses, medicationId) then DoseButton("Taken", true) else DoseButton("Take", false)
  }

  /** Every dose of today's list comes from the history, so a history of taken doses gives a list of taken doses. */
  lemma TodaysDosesAllTaken(history: seq<DoseRecord>, now: int)
    requires forall i :: 0 <= i < |history| ==> history[i].taken
    ensures forall i :: 0 <= i < |TodaysDoses(history, now)| ==> TodaysDoses(history, now)[i].taken
  {
    var today := TodaysDoses(history, now);
    forall i | 0 <= i < |today| ensures today[i].taken {
      assert today[i] in history;
      var j :| 0 <= j < |history| && history[j] == today[i];
    }
  }

  /**
   * The only button with a handler is the "Taken" one, and its handler
   * records taken doses only. On a stored history of taken doses (the empty
   * one included) every card shows "Take" without a handler, and recording
   * one more taken dose keeps it so: the dashboard can never record a dose.
   */
  lemma TakeButtonInert(history: seq<DoseRecord>, dose: DoseRecord, now: int, medicationId: string)
    requires forall i :: 0 <= i < |history| ==> history[i].taken
    requires dose.taken
    ensures DoseButtonOf(TodaysDoses(history, now), medicationId) == DoseButton("Take", false)
    ensures DoseButtonOf(TodaysDoses(history + [dose], now), medicationId) == DoseButton("Take", false)
  {
    var after := history + [dose];
    assert forall i :: 0 <= i < |after| ==> after[i].taken by {
      forall i | 0 <= i < |after| ensures after[i].taken {
        if i < |history| { assert after[i] == history[i]; }
      }
    }
    TodaysDosesAllTaken(history, now);
    TodaysDosesAllTaken(after, now);
    MarkerOnTakenHistory(TodaysDoses(history, now), medicationId);
    MarkerOnTakenHistory(TodaysDoses(after, now), medicationId);
  }

  /** Whether `setupNotifications` schedules the medication at position `k`. */
  predicate Fires(medications: seq<Medication>, scheduleFails: int -> bool, k: int)
    requires 0 <= k < |medications|
  {
    medications[k].reminderEnable && medications[k].times != [] && !scheduleFails(k)
  }

  /**
   * The notifications the first `n` iterations of the loop of
   * `setupNotifications` add: one reminder per firing medication, in order,
   * under consecutive identifiers from `firstId`.
   */
  function SetupReminders(medications: seq<Medication>, scheduleFails: int -> bool, n: nat, firstId: nat): (r: seq<ScheduledNotification>)
    requires n <= |medications|
    ensures |r| <= n
    ensures forall j :: 0 <= j < |r| ==> r[j].identifier == firstId + j
  {
    if n == 0 then []
    else
      var previous := SetupReminders(medications, scheduleFails, n - 1, firstId);
      if Fires(medications, scheduleFails, n - 1)
      then previous + [Reminder(medications[n - 1], firstId + |previous|)]
      else previous
  }

  /**
   * With distinct medication ids, the setup loop adds exactly one
   * notification for every medication whose reminder is enabled, has a time
   * and was scheduled without failure, and none for any other. What was
   * scheduled before is kept (see `SetupKeepsEarlier`).
   */
  lemma {:induction false} SetupOnePerMedication(medications: seq<Medication>, scheduleFails: int -> bool, n: nat, firstId: nat, k: nat)
    requires n <= |medications| && k < |medications|
    requires forall i, j :: 0 <= i < j < |medications| ==> medications[i].id != medications[j].id
    ensures |ScheduledFor(SetupReminders(medications, scheduleFails, n, firstId), medications[k].id)| ==
      if k < n && Fires(medications, scheduleFails, k) then 1 else 0
    decreases n
  {
    if n > 0 {
      var previous := SetupReminders(medications, scheduleFails, n - 1, firstId);
      SetupOnePerMedication(medications, scheduleFails, n - 1, firstId, k);
      if Fires(medications, scheduleFails, n - 1) {
        var added := Reminder(medications[n - 1], firstId + |previous|);
        ScheduledForAppend(previous, [added], medications[k].id);
        ReminderTagged(medications[n - 1], firstId + |previous|, medications[k].id);
        if k < n - 1 {
          assert medications[k].id != medications[n - 1].id;
        } else if k > n - 1 {
          assert medications[n - 1].id != medications[k].id;
        }
      }
    }
  }

  /**
   * Setup never cancels: each medication keeps the notifications it had
   * before and gains one more when it fires.
   */
  lemma SetupKeepsEarlier(prior: seq<ScheduledNotification>, medications: seq<Medication>, scheduleFails: int -> bool,
                          firstId: nat, k: nat)
    requires k < |medications|
    requires forall i, j :: 0 <= i < j < |medications| ==> medications[i].id != medications[j].id
    ensures |ScheduledFor(prior + SetupReminders(medications, scheduleFails, |medications|, firstId), medications[k].id)| ==
      |ScheduledFor(prior, medications[k].id)| + if Fires(medications, scheduleFails, k) then 1 else 0
  {
    ScheduledForAppend(prior, SetupReminders(medications, scheduleFails, |medications|, firstId), medications[k].id);
    SetupOnePerMedication(medications, scheduleFails, |medications|, firstId, k);
  }

  /** The dashboard's own state. */
  class HomeScreen {
    var medications: seq<Medication>
    var todaysMedications: seq<Medication>
    /** Today's dose records (`doseHistory` in the source). */
    var doseHistory: seq<DoseRecord>
    var completedDoses: nat

    /** The screen before its first load. */
    constructor ()
      ensures medications == [] && todaysMedications == [] && doseHistory == [] && completedDoses == 0
    {
      medications, todaysMedications, doseHistory, completedDoses := [], [], [], 0;
    }

    /** Consistency of the state with what was loaded. */
    ghost predicate Valid(now: int)
      reads this
    {
      todaysMedications == ActiveMedications(medications, now) &&
      completedDoses == CompletedCount(doseHistory)
    }

    /** The value of the progress ring for the current state. */
    function Progress(): real
      reads this
    {
      ProgressRatio(completedDoses, |todaysMedications|)
    }

    /**
     * `loadMedications`: read the medications and today's doses (neither read
     * throws), then derive the active list and the completed count.
     */
    method LoadMedications(store: MedicationStore, medicationsReadFails: bool, historyReadFails: bool, now: int)
      modifies this
      ensures Valid(now)
      ensures medications == ReadList(store.medicationsKey, medicationsReadFails)
      ensures doseHistory == TodaysDoses(ReadList(store.doseHistoryKey, historyReadFails), now)
      ensures forall i :: 0 <= i < |todaysMedications| ==> IsActive(todaysMedications[i], now)
      ensures completedDoses <= |doseHistory|
    {
      var allMedications := store.GetMedications(medicationsReadFails);
      var todaysDoses := store.GetTodaysDoses(historyReadFails, now);
      doseHistory := todaysDoses;
      medications := allMedications;
      todaysMedications := Filter(allMedications, (m: Medication) => IsActive(m, now));
      completedDoses := |Filter(todaysDoses, (d: DoseRecord) => d.taken)|;
    }

    /**
     * `handleTakeDose`: record a taken dose at `now`, then reload. `recordDose`
     * swallows its own errors, so the alert of the source is never reached.
     */
    method HandleTakeDose(store: MedicationStore, medication: Medication, now: int, doseId: string,
                          recordReadFails: bool, recordWriteFails: bool,
                          medicationsReadFails: bool, historyReadFails: bool)
      modifies this, store
      ensures Valid(now)
      ensures store.medicationsKey == old(store.medicationsKey)
      ensures recordWriteFails ==> store.doseHistoryKey == old(store.doseHistoryKey)
      ensures !recordWriteFails ==>
                store.doseHistoryKey == Some(ReadList(old(store.doseHistoryKey), recordReadFails) + [DoseRecord(doseId, medication.id, now, true)])
      ensures medications == ReadList(store.medicationsKey, medicationsReadFails)
      ensures doseHistory == TodaysDoses(ReadList(store.doseHistoryKey, historyReadFails), now)
    {
      store.RecordDose(medication.id, true, now, doseId, recordReadFails, recordWriteFails);
      LoadMedications(store, medicationsReadFails, historyReadFails, now);
    }

    /**
     * `setupNotifications`: obtain a push token; without one (none, or the
     * empty string) stop. Otherwise read the medications and schedule a
     * reminder for each one whose reminder is enabled. Each scheduling call
     * catches its own failure (`scheduleFails(k)` for position `k`), so one
     * failure does not stop the loop.
     */
    method SetupNotifications(store: MedicationStore, center: NotificationCenter, answer: PermissionStatus,
                              tokenResponse: Option<string>, readFails: bool, scheduleFails: int -> bool)
      requires center.Valid()
      modifies center
      ensures center.Valid()
      ensures var token := PushRegistration(old(center.permission), answer, tokenResponse).token;
        var medications := ReadList(store.medicationsKey, readFails);
        center.scheduled == old(center.scheduled) +
          if token == None || token.value == "" then []
          else SetupReminders(medications, scheduleFails, |medications|, old(center.nextId))
      ensures var r := PushRegistration(old(center.permission), answer, tokenResponse);
        center.permission == r.finalStatus &&
        center.permissionRequests == old(center.permissionRequests) + (if r.requested then 1 else 0)
      ensures var token := PushRegistration(old(center.permission), answer, tokenResponse).token;
        var medications := ReadList(store.medicationsKey, readFails);
        center.nextId == old(center.nextId) +
          if token == None || token.value == "" then 0
          else |SetupReminders(medications, scheduleFails, |medications|, old(center.nextId))|
    {
      var token := RegisterForPushNotifications(center, answer, tokenResponse);
      if token == None || token.value == "" {
        return;
      }
      var medications := store.GetMedications(readFails);
      var prior, firstId := center.scheduled, center.nextId;
      ghost var permission, requests := center.permission, center.permissionRequests;
      for i := 0 to |medications|
        invariant center.Valid()
        invariant center.scheduled == prior + SetupReminders(medications, scheduleFails, i, firstId)
        invariant center.nextId == firstId + |SetupReminders(medications, scheduleFails, i, firstId)|
        invariant center.permission == permission && center.permissionRequests == requests
      {
        if medications[i].reminderEnable {
          var _ := ScheduleMedicationReminder(center, medications[i], scheduleFails(i));
        }
      }
    }
  }

  /**
   * Opening the dashboard twice on one device, with a single medication
   * whose reminders are on, leaves that medication with two daily
   * notifications: the second setup adds to the first and cancels nothing.
   */
  method RemountDuplicatesReminder(medication: Medication) returns (reminders: seq<ScheduledNotification>)
    requires medication.reminderEnable && medication.times != []
    ensures |reminders| == 2
    ensures forall i :: 0 <= i < |reminders| ==> reminders[i].content.medicationId == Some(medication.id)
  {
    var store := new MedicationStore();
    var _ := store.AddMedication(medication, false, false);
    var center := new NotificationCenter(Granted);
    var screen := new HomeScreen();
    var noFailure := (k: int) => false;
    ghost var before := center.scheduled;
    screen.SetupNotifications(store, center, Granted, Some("token"), false, noFailure);
    ghost var afterFirst := center.scheduled;
    screen.SetupNotifications(store, center, Granted, Some("token"), false, noFailure);
    reminders := ScheduledFor(center.scheduled, medication.id);
    assert Fires([medication], noFailure, 0);
    SetupKeepsEarlier(before, [medication], noFailure, 0, 0);
    SetupKeepsEarlier(afterFirst, [medication], noFailure, 1, 0);
  }
}
