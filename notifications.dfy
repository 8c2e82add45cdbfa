/**
 * The reminder scheduler (utilis/notifications.ts): a thin layer over the
 * device's notification service. The device keeps the set of scheduled
 * notifications and the permission status; the module's functions list,
 * schedule and cancel entries of that set. Failures of device calls are
 * parameters.
 */
module Notifications {
  import opened Common
  import opened JsText
  import opened Storage

  datatype PermissionStatus = Granted | Denied | Undetermined

  /** The notification payload; `medicationId` is the `data.medicationId` tag (absent on foreign notifications). */
  datatype Content = Content(title: string, body: string, medicationId: Option<string>)

  /**
   * A trigger that repeats daily at the clock time `time` ("HH:MM"). The
   * device is handed the hour and minute that `HourAndMinute` reads from it;
   * every trigger the application builds repeats.
   */
  datatype Trigger = DailyAt(time: string)

  datatype ScheduledNotification = ScheduledNotification(identifier: nat, content: Content, trigger: Trigger)

  /** The device's notification service: its permission status and its scheduled notifications. */
  class NotificationCenter {
    var permission: PermissionStatus
    /** How many times the user was asked for permission. */
    var permissionRequests: nat
    var scheduled: seq<ScheduledNotification>
    /** The identifier the device hands out next; identifiers are never reused. */
    var nextId: nat

    ghost predicate Valid()
      reads this
    {
      (forall i :: 0 <= i < |scheduled| ==> scheduled[i].identifier < nextId) &&
      (forall i, j :: 0 <= i < j < |scheduled| ==> scheduled[i].identifier != scheduled[j].identifier)
    }

    constructor (permission: PermissionStatus)
      ensures Valid()
      ensures this.permission == permission && permissionRequests == 0 && scheduled == [] && nextId == 0
    {
      this.permission := permission;
      permissionRequests := 0;
      scheduled := [];
      nextId := 0;
    }

    /** `requestPermissionsAsync`: the user's answer becomes the status. */
    method RequestPermissions(answer: PermissionStatus)
      requires Valid()
      modifies this
      ensures Valid()
      ensures permission == answer && permissionRequests == old(permissionRequests) + 1
      ensures scheduled == old(scheduled) && nextId == old(nextId)
    {
      permission := answer;
      permissionRequests := permissionRequests + 1;
    }

    /** `scheduleNotificationAsync`: add one notification under a fresh identifier. */
    method Schedule(content: Content, trigger: Trigger) returns (identifier: nat)
      requires Valid()
      modifies this
      ensures Valid()
      ensures identifier == old(nextId) && nextId == old(nextId) + 1
      ensures scheduled == old(scheduled) + [ScheduledNotification(identifier, content, trigger)]
      ensures permission == old(permission) && permissionRequests == old(permissionRequests)
    {
      identifier := nextId;
      scheduled := scheduled + [ScheduledNotification(identifier, content, trigger)];
      nextId := nextId + 1;
    }

    /** `cancelScheduledNotificationAsync`: remove the notification with that identifier. */
    method Cancel(identifier: nat)
      requires Valid()
      modifies this
      ensures Valid()
      ensures scheduled == WithoutIdentifier(old(scheduled), identifier)
      ensures nextId == old(nextId) && permission == old(permission) && permissionRequests == old(permissionRequests)
    {
      scheduled := WithoutIdentifier(scheduled, identifier);
      forall i, j | 0 <= i < j < |scheduled|
        ensures scheduled[i].identifier != scheduled[j].identifier
      {
        CancelKeepsDistinctIds(old(scheduled), identifier);
      }
    }
  }

  predicate DistinctIds(s: seq<ScheduledNotification>)
  {
    forall i, j :: 0 <= i < j < |s| ==> s[i].identifier != s[j].identifier
  }

  /** Whether a notification has an identifier other than `identifier`. */
  function OtherIdentifier(identifier: nat): ScheduledNotification -> bool
  {
    (n: ScheduledNotification) => n.identifier != identifier
  }

  /** The notifications left after cancelling `identifier`. */
  function WithoutIdentifier(s: seq<ScheduledNotification>, identifier: nat): seq<ScheduledNotification>
  {
    Filter(s, OtherIdentifier(identifier))
  }

  /** Cancelling the identifier of one entry that no other entry shares removes that entry alone. */
  lemma WithoutIdentifierRemovesOne(a: seq<ScheduledNotification>, x: ScheduledNotification, b: seq<ScheduledNotification>)
    requires forall k :: 0 <= k < |a| ==> a[k].identifier != x.identifier
    requires forall k :: 0 <= k < |b| ==> b[k].identifier != x.identifier
    ensures WithoutIdentifier(a + [x] + b, x.identifier) == a + b
  {
    FilterRemoveOne(a, x, b, OtherIdentifier(x.identifier));
  }

  lemma {:induction false} CancelKeepsDistinctIds(s: seq<ScheduledNotification>, x: nat)
    requires DistinctIds(s)
    ensures DistinctIds(WithoutIdentifier(s, x))
    decreases |s|
  {
    if s != [] {
      CancelKeepsDistinctIds(s[1..], x);
      var r := WithoutIdentifier(s[1..], x);
      forall i | 0 <= i < |r| ensures r[i].identifier != s[0].identifier {
        assert r[i] in s[1..];
      }
    }
  }

  /** What `registerForPushNotificationsAsync` decides. */
  datatype Registration = Registration(requested: bool, finalStatus: PermissionStatus, token: Option<string>)

  /**
   * The permission decision: ask only when the existing status is not granted;
   * no token unless the final status is granted. `tokenResponse` is `None`
   * when fetching the token or setting up the Android channel throws.
   */
  function PushRegistration(existing: PermissionStatus, answer: PermissionStatus, tokenResponse: Option<string>): (r: Registration)
    ensures r.requested <==> existing != Granted
    ensures r.finalStatus == if existing == Granted then Granted else answer
    ensures r.token != None <==> r.finalStatus == Granted && tokenResponse != None
    ensures r.token != None ==> r.token == tokenResponse
  {
    var requested := existing != Granted;
    var finalStatus := if requested then answer else existing;
    Registration(requested, finalStatus, if finalStatus != Granted then None else tokenResponse)
  }

  /** `registerForPushNotificationsAsync` against the device. */
  method RegisterForPushNotifications(center: NotificationCenter, answer: PermissionStatus, tokenResponse: Option<string>)
    returns (token: Option<string>)
    requires center.Valid()
    modifies center
    ensures center.Valid()
    ensures var r := PushRegistration(old(center.permission), answer, tokenResponse);
      token == r.token && center.permission == r.finalStatus &&
      center.permissionRequests == old(center.permissionRequests) + (if r.requested then 1 else 0)
    ensures center.scheduled == old(center.scheduled) && center.nextId == old(center.nextId)
  {
    var existingStatus := center.permission;
    if existingStatus != Granted {
      center.RequestPermissions(answer);
    }
    if center.permission != Granted {
      return None;
    }
    return tokenResponse;
  }

  /** The hour and minute handed to the device: `time.split(":").map(Number)`; a missing part is undefined. */
  function HourAndMinute(trigger: Trigger): (NumberValue, NumberValue)
  {
    var parts := Split(trigger.time, ':');
    (ToNumber(parts[0]), if |parts| >= 2 then ToNumber(parts[1]) else Undefined)
  }

  /** A zero-padded "HH:MM" time gives the device that hour and minute. */
  lemma ClockTimeTrigger(h1: char, h2: char, m1: char, m2: char)
    requires IsDigit(h1, 10) && IsDigit(h2, 10) && IsDigit(m1, 10) && IsDigit(m2, 10)
    ensures HourAndMinute(DailyAt([h1, h2, ':', m1, m2])) ==
      (Integer(10 * DigitValue(h1) + DigitValue(h2)), Integer(10 * DigitValue(m1) + DigitValue(m2)))
  {
    assert [h1, h2, ':', m1, m2] == [h1, h2] + [':'] + [m1, m2];
    SplitAtSeparator([h1, h2], [m1, m2], ':');
    SplitNoSeparator([m1, m2], ':');
    ToNumberTwoDigits(h1, h2);
    ToNumberTwoDigits(m1, m2);
  }

  /** A time without a colon leaves the minute undefined. */
  lemma NoColonNoMinute(time: string)
    requires ':' !in time
    ensures HourAndMinute(DailyAt(time)).1 == Undefined
  {
    SplitNoSeparator(time, ':');
  }

  function ReminderContent(medication: Medication): Content
  {
    Content("Medication reminder", "Time to take " + medication.name + " (" + medication.dosage + ")", Some(medication.id))
  }

  /** The notification `scheduleMedicationReminder` asks for: the first time of the medication, repeating daily. */
  function Reminder(medication: Medication, identifier: nat): ScheduledNotification
    requires |medication.times| > 0
  {
    ScheduledNotification(identifier, ReminderContent(medication), DailyAt(medication.times[0]))
  }

  /** The scheduled notifications tagged with `medicationId`. */
  function ScheduledFor(s: seq<ScheduledNotification>, medicationId: string): seq<ScheduledNotification>
  {
    Filter(s, (n: ScheduledNotification) => n.content.medicationId == Some(medicationId))
  }

  /** Selecting by medication distributes over concatenation. */
  lemma ScheduledForAppend(a: seq<ScheduledNotification>, b: seq<ScheduledNotification>, medicationId: string)
    ensures ScheduledFor(a + b, medicationId) == ScheduledFor(a, medicationId) + ScheduledFor(b, medicationId)
  {
    FilterAppend(a, b, (n: ScheduledNotification) => n.content.medicationId == Some(medicationId));
  }

  /** A medication's reminder is selected for that medication and for no other. */
  lemma ReminderTagged(medication: Medication, identifier: nat, medicationId: string)
    requires |medication.times| > 0
    ensures |ScheduledFor([Reminder(medication, identifier)], medicationId)| ==
      if medication.id == medicationId then 1 else 0
  {
    var r := Reminder(medication, identifier);
    assert r.content.medicationId == Some(medication.id);
    assert [r][1..] == [];
  }

  /** The scheduled notifications not tagged with `medicationId`. */
  function WithoutMedication(s: seq<ScheduledNotification>, medicationId: string): seq<ScheduledNotification>
  {
    Filter(s, (n: ScheduledNotification) => n.content.medicationId != Some(medicationId))
  }

  /**
   * `scheduleMedicationReminder`. The loop over `times` returns from its first
   * iteration, so at most one notification is scheduled, for `times[0]`.
   * `scheduleFails` is the device call throwing (caught: undefined is returned).
   */
  method ScheduleMedicationReminder(center: NotificationCenter, medication: Medication, scheduleFails: bool)
    returns (identifier: Option<nat>)
    requires center.Valid()
    modifies center
    ensures center.Valid()
    ensures center.permission == old(center.permission) && center.permissionRequests == old(center.permissionRequests)
    ensures !medication.reminderEnable || medication.times == [] || scheduleFails ==>
      identifier == None && center.scheduled == old(center.scheduled) && center.nextId == old(center.nextId)
    ensures medication.reminderEnable && medication.times != [] && !scheduleFails ==>
      identifier == Some(old(center.nextId)) && center.nextId == old(center.nextId) + 1 &&
      center.scheduled == old(center.scheduled) + [Reminder(medication, old(center.nextId))]
  {
    if !medication.reminderEnable {
      return None;
    }
    for i := 0 to |medication.times|
      invariant i == 0
    {
      var trigger := DailyAt(medication.times[i]);
      if scheduleFails {
        return None;
      }
      var id := center.Schedule(ReminderContent(medication), trigger);
      return Some(id);
    }
    return None;
  }

  /**
   * `cancelMedicationReminder`: list the scheduled notifications, then cancel,
   * one by one, those tagged with `medicationId`. A failed listing is caught and
   * cancels nothing.
   */
  method CancelMedicationReminder(center: NotificationCenter, medicationId: string, listFails: bool)
    requires center.Valid()
    modifies center
    ensures center.Valid()
    ensures center.scheduled == if listFails then old(center.scheduled) else WithoutMedication(old(center.scheduled), medicationId)
    ensures center.nextId == old(center.nextId) && center.permission == old(center.permission)
    ensures center.permissionRequests == old(center.permissionRequests)
  {
    if listFails {
      return;
    }
    var snapshot := center.scheduled;
    assert DistinctIds(snapshot);
    var i := 0;
    while i < |snapshot|
      invariant 0 <= i <= |snapshot|
      invariant center.Valid()
      invariant center.scheduled == WithoutMedication(snapshot[..i], medicationId) + snapshot[i..]
      invariant center.nextId == old(center.nextId) && center.permission == old(center.permission)
      invariant center.permissionRequests == old(center.permissionRequests)
    {
      CancelIfTagged(center, snapshot, i, medicationId);
      i := i + 1;
    }
    assert snapshot[..i] == snapshot;
  }

  /** The body of the cancel loop: cancel entry `i` of the listing when it is tagged with `medicationId`. */
  method CancelIfTagged(center: NotificationCenter, snapshot: seq<ScheduledNotification>, i: nat, medicationId: string)
    requires center.Valid() && i < |snapshot| && DistinctIds(snapshot)
    requires center.scheduled == WithoutMedication(snapshot[..i], medicationId) + snapshot[i..]
    modifies center
    ensures center.Valid()
    ensures center.scheduled == WithoutMedication(snapshot[..i + 1], medicationId) + snapshot[i + 1..]
    ensures center.nextId == old(center.nextId) && center.permission == old(center.permission)
    ensures center.permissionRequests == old(center.permissionRequests)
  {
    var notification := snapshot[i];
    if notification.content.medicationId == Some(medicationId) {
      CancelStepTagged(snapshot, i, medicationId);
      center.Cancel(notification.identifier);
    } else {
      CancelStepUntagged(snapshot, i, medicationId);
    }
  }

  /** Extending the cancelled prefix by one entry drops that entry exactly when it is the medication's. */
  lemma WithoutMedicationStep(snapshot: seq<ScheduledNotification>, i: nat, medicationId: string)
    requires i < |snapshot|
    ensures WithoutMedication(snapshot[..i + 1], medicationId) ==
      WithoutMedication(snapshot[..i], medicationId) +
      (if snapshot[i].content.medicationId == Some(medicationId) then [] else [snapshot[i]])
  {
    assert snapshot[..i + 1] == snapshot[..i] + [snapshot[i]];
    FilterAppend(snapshot[..i], [snapshot[i]], (n: ScheduledNotification) => n.content.medicationId != Some(medicationId));
  }

  /**
   * One step of the cancel loop at an entry of the medication: with distinct
   * identifiers, cancelling it by its identifier removes that entry and no other.
   */
  lemma CancelStepTagged(snapshot: seq<ScheduledNotification>, i: nat, medicationId: string)
    requires i < |snapshot| && DistinctIds(snapshot)
    requires snapshot[i].content.medicationId == Some(medicationId)
    ensures WithoutIdentifier(WithoutMedication(snapshot[..i], medicationId) + snapshot[i..], snapshot[i].identifier) ==
            WithoutMedication(snapshot[..i + 1], medicationId) + snapshot[i + 1..]
  {
    var n := snapshot[i];
    var kept := WithoutMedication(snapshot[..i], medicationId);
    var rest := snapshot[i + 1..];
    WithoutMedicationStep(snapshot, i, medicationId);
    assert kept + snapshot[i..] == kept + [n] + rest;
    OtherIdentifiers(snapshot, i, medicationId);
    forall k | 0 <= k < |rest| ensures rest[k].identifier != n.identifier {
      assert rest[k] == snapshot[i + 1 + k];
    }
    WithoutIdentifierRemovesOne(kept, n, rest);
  }

  /** One step of the cancel loop at an entry of another medication: nothing changes. */
  lemma CancelStepUntagged(snapshot: seq<ScheduledNotification>, i: nat, medicationId: string)
    requires i < |snapshot|
    requires snapshot[i].content.medicationId != Some(medicationId)
    ensures WithoutMedication(snapshot[..i], medicationId) + snapshot[i..] ==
            WithoutMedication(snapshot[..i + 1], medicationId) + snapshot[i + 1..]
  {
    var kept := WithoutMedication(snapshot[..i], medicationId);
    WithoutMedicationStep(snapshot, i, medicationId);
    assert snapshot[i..] == [snapshot[i]] + snapshot[i + 1..];
    assert kept + snapshot[i..] == (kept + [snapshot[i]]) + snapshot[i + 1..];
  }

  /** Under distinct identifiers, no entry kept before `i` and none after it shares the identifier of entry `i`. */
  lemma OtherIdentifiers(snapshot: seq<ScheduledNotification>, i: nat, medicationId: string)
    requires i < |snapshot| && DistinctIds(snapshot)
    ensures var kept := WithoutMedication(snapshot[..i], medicationId);
      forall k :: 0 <= k < |kept| ==> kept[k].identifier != snapshot[i].identifier
  {
    var kept := WithoutMedication(snapshot[..i], medicationId);
    forall k | 0 <= k < |kept| ensures kept[k].identifier != snapshot[i].identifier {
      assert kept[k] in snapshot[..i];
      var j :| 0 <= j < i && snapshot[..i][j] == kept[k];
      assert snapshot[j] == kept[k];
    }
  }

  /**
   * `updateMedicationReminders`: cancel, then schedule again. The two steps are
   * not atomic: their failures are independent.
   */
  method UpdateMedicationReminders(center: NotificationCenter, medication: Medication, listFails: bool, scheduleFails: bool)
    requires center.Valid()
    modifies center
    ensures center.Valid()
    ensures var kept := if listFails then old(center.scheduled) else WithoutMedication(old(center.scheduled), medication.id);
      center.scheduled ==
        if medication.reminderEnable && medication.times != [] && !scheduleFails
        then kept + [Reminder(medication, old(center.nextId))]
        else kept
    ensures center.nextId == old(center.nextId) + if medication.reminderEnable && medication.times != [] && !scheduleFails then 1 else 0
    ensures center.permission == old(center.permission) && center.permissionRequests == old(center.permissionRequests)
  {
    CancelMedicationReminder(center, medication.id, listFails);
    var _ := ScheduleMedicationReminder(center, medication, scheduleFails);
  }

  /** After cancelling a medication's notifications none of them is left; a second cancel changes nothing. */
  lemma CancelRemovesExactly(s: seq<ScheduledNotification>, medicationId: string)
    ensures ScheduledFor(WithoutMedication(s, medicationId), medicationId) == []
    ensures WithoutMedication(WithoutMedication(s, medicationId), medicationId) == WithoutMedication(s, medicationId)
    ensures forall other :: other != medicationId ==>
      ScheduledFor(WithoutMedication(s, medicationId), other) == ScheduledFor(s, other)
  {
    var w := WithoutMedication(s, medicationId);
    FilterNone(w, (n: ScheduledNotification) => n.content.medicationId == Some(medicationId));
    FilterAll(w, (n: ScheduledNotification) => n.content.medicationId != Some(medicationId));
    forall other | other != medicationId
      ensures ScheduledFor(w, other) == ScheduledFor(s, other)
    {
      FilterCommuteOther(s, medicationId, other);
    }
  }

  lemma {:induction false} FilterCommuteOther(s: seq<ScheduledNotification>, medicationId: string, other: string)
    requires other != medicationId
    ensures ScheduledFor(WithoutMedication(s, medicationId), other) == ScheduledFor(s, other)
    decreases |s|
  {
    if s != [] {
      FilterCommuteOther(s[1..], medicationId, other);
    }
  }

  /**
   * After an update, the medication's own notifications are exactly the new
   * reminder (when reminders are enabled, there is a time and the device call
   * succeeds) or none; every other medication's notifications are as before.
   */
  lemma UpdateEffect(s: seq<ScheduledNotification>, medication: Medication, identifier: nat, scheduled: bool)
    requires scheduled ==> medication.times != []
    ensures var after := WithoutMedication(s, medication.id) + (if scheduled then [Reminder(medication, identifier)] else []);
      ScheduledFor(after, medication.id) == (if scheduled then [Reminder(medication, identifier)] else []) &&
      forall other :: other != medication.id ==> ScheduledFor(after, other) == ScheduledFor(s, other)
  {
    var w := WithoutMedication(s, medication.id);
    var extra := if scheduled then [Reminder(medication, identifier)] else [];
    CancelRemovesExactly(s, medication.id);
    FilterAppend(w, extra, (n: ScheduledNotification) => n.content.medicationId == Some(medication.id));
    forall other | other != medication.id
      ensures ScheduledFor(w + extra, other) == ScheduledFor(s, other)
    {
      FilterAppend(w, extra, (n: ScheduledNotification) => n.content.medicationId == Some(other));
    }
  }

  /** A notification to be scheduled: its payload and its trigger. */
  datatype Request = Request(content: Content, trigger: Trigger)

  /** The notifications that scheduling `requests` in order creates, identifiers counting up from `firstId`. */
  function Numbered(requests: seq<Request>, firstId: nat): (r: seq<ScheduledNotification>)
    ensures |r| == |requests|
  {
    seq(|requests|, k requires 0 <= k < |requests| =>
      ScheduledNotification(firstId + k, requests[k].content, requests[k].trigger))
  }

  /** Schedule `requests` one after the other. */
  method ScheduleEach(center: NotificationCenter, requests: seq<Request>) returns (identifiers: seq<nat>)
    requires center.Valid()
    modifies center
    ensures center.Valid()
    ensures center.scheduled == old(center.scheduled) + Numbered(requests, old(center.nextId))
    ensures center.nextId == old(center.nextId) + |requests|
    ensures |identifiers| == |requests| && forall k :: 0 <= k < |identifiers| ==> identifiers[k] == old(center.nextId) + k
    ensures center.permission == old(center.permission) && center.permissionRequests == old(center.permissionRequests)
  {
    identifiers := [];
    var prior, firstId := center.scheduled, center.nextId;
    ghost var all := Numbered(requests, firstId);
    for i := 0 to |requests|
      invariant center.Valid()
      invariant center.nextId == firstId + i
      invariant center.scheduled == prior + all[..i]
      invariant |identifiers| == i && forall k :: 0 <= k < i ==> identifiers[k] == firstId + k
      invariant center.permission == old(center.permission) && center.permissionRequests == old(center.permissionRequests)
    {
      var id := center.Schedule(requests[i].content, requests[i].trigger);
      assert all[..i + 1] == all[..i] + [all[i]];
      identifiers := identifiers + [id];
    }
    assert all[..|requests|] == all;
  }

  /** One request per configured time of the medication, in order. */
  function ReminderRequests(medication: Medication): (r: seq<Request>)
    ensures |r| == |medication.times|
  {
    seq(|medication.times|, k requires 0 <= k < |medication.times| =>
      Request(ReminderContent(medication), DailyAt(medication.times[k])))
  }

  /**
   * The loop of `scheduleMedicationReminder` without its early return: one
   * daily notification for every configured time, in order.
   */
  method ScheduleAllReminders(center: NotificationCenter, medication: Medication) returns (identifiers: seq<nat>)
    requires center.Valid()
    modifies center
    ensures center.Valid()
    ensures !medication.reminderEnable ==> identifiers == [] && center.scheduled == old(center.scheduled)
    ensures medication.reminderEnable ==>
      center.scheduled == old(center.scheduled) + Numbered(ReminderRequests(medication), old(center.nextId)) &&
      |identifiers| == |medication.times| &&
      forall k :: 0 <= k < |identifiers| ==> identifiers[k] == old(center.nextId) + k
    ensures center.nextId == old(center.nextId) + if medication.reminderEnable then |medication.times| else 0
    ensures center.permission == old(center.permission) && center.permissionRequests == old(center.permissionRequests)
  {
    identifiers := [];
    if medication.reminderEnable {
      identifiers := ScheduleEach(center, ReminderRequests(medication));
    }
  }

  /**
   * What the early return loses: the intended loop schedules one reminder per
   * time, while the written one schedules only the first of them.
   */
  lemma EarlyReturnDropsLaterTimes(medication: Medication, firstId: nat)
    requires |medication.times| >= 2
    ensures var all := Numbered(ReminderRequests(medication), firstId);
      |all| == |medication.times| > 1 && all[0] == Reminder(medication, firstId)
  {
  }

  /**
   * The written loop and the intended one, each run on a fresh device for a
   * medication with two or more times: the written one leaves only the
   * reminder for the first time, the first of the intended one's reminders.
   */
  method EarlyReturnContrast(medication: Medication) returns (written: seq<ScheduledNotification>, intended: seq<ScheduledNotification>)
    requires medication.reminderEnable && |medication.times| >= 2
    ensures |written| == 1 && |intended| == |medication.times| > 1
    ensures written == intended[..1] && written[0].trigger == DailyAt(medication.times[0])
  {
    var device := new NotificationCenter(Granted);
    var _ := ScheduleMedicationReminder(device, medication, false);
    var corrected := new NotificationCenter(Granted);
    var _ := ScheduleAllReminders(corrected, medication);
    written, intended := device.scheduled, corrected.scheduled;
    EarlyReturnDropsLaterTimes(medication, 0);
  }
}
