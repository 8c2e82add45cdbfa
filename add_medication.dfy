/**
 * The "New Medication" form: the frequency and duration tables it offers,
 * the form state it starts from, the validator that fills an error
 * dictionary field by field, and the handlers that edit the form.
 */
module AddMedication {
  import opened Common
  import opened JsText
  import opened Notifications
  import opened Home

  /** One card of the "How often ?" grid. */
  datatype FrequencyOption = FrequencyOption(id: string, caption: string, icon: string, times: seq<string>)

  /** One card of the "For how long ?" grid; a non-positive value means no end. */
  datatype DurationOption = DurationOption(id: string, caption: string, value: int)

  /** The frequency cards, in display order: one to four daily times, each list starting at nine. */
  function Frequencies(): (r: seq<FrequencyOption>)
    ensures |r| == 4
    ensures forall i :: 0 <= i < |r| ==> |r[i].times| == i + 1 && r[i].times[0] == "09:00"
    ensures forall i :: 1 <= i < |r| ==> r[i].times[i] == "21:00"
    ensures forall i, j :: 0 <= i < j < |r| ==> r[i].id != r[j].id && r[i].caption != r[j].caption
  {
    [ FrequencyOption("1", "Once daily", "sunny-outline", ["09:00"]),
      FrequencyOption("2", "Twice daily", "time-outline", ["09:00", "21:00"]),
      FrequencyOption("3", "Three times daily", "sunny-outline", ["09:00", "15:00", "21:00"]),
      FrequencyOption("4", "Four times daily", "repeat-outline", ["09:00", "13:00", "17:00", "21:00"]) ]
  }

  /** The duration cards, in display order: four fixed lengths and an open-ended one. */
  function Durations(): (r: seq<DurationOption>)
    ensures |r| == 5
    ensures forall i :: 0 <= i < 4 ==> r[i].value > 0
    ensures r[4].caption == "Ongoing" && r[4].value <= 0
    ensures forall i, j :: 0 <= i < j < |r| ==> r[i].id != r[j].id
    ensures forall i, j :: 0 <= i < j < 4 ==> r[i].value < r[j].value
  {
    [ DurationOption("1", "7 days", 7),
      DurationOption("2", "14 days", 14),
      DurationOption("3", "30 days", 30),
      DurationOption("4", "90 days", 90),
      DurationOption("5", "Ongoing", -1) ]
  }

  /** The large text on a duration card: its number of days, or "∞" when it has no end. */
  function DurationBadge(option: DurationOption): (s: string)
    ensures s == "\U{221E}" <==> option.value <= 0
    ensures option.value > 0 ==> s == ToDecimal(option.value) && ParseInt(s) == Some(option.value)
  {
    if option.value > 0 then
      var d := ToDecimal(option.value);
      assert d[0] != '\U{221E}' by { assert IsDigit(d[0], 10); }
      assert d + [] == d;
      ParseIntDecimal(option.value, []);
      d
    else "\U{221E}"
  }

  /** A label "N days" reads back as N through the dashboard's parse of the stored duration. */
  lemma DaysLabel(n: nat)
    ensures DurationDays(ToDecimal(n) + " days") == Some(n)
  {
    assert ToDecimal(n) + " days" == ToDecimal(n) + " " + "days";
    DurationLabel(n, "days");
  }

  /** The numeral of a one- or two-digit count, digit by digit. */
  lemma SmallDecimal(n: nat)
    requires n < 100
    ensures n < 10 ==> ToDecimal(n) == ['0' + n as char]
    ensures n >= 10 ==> ToDecimal(n) == ['0' + (n / 10) as char, '0' + (n % 10) as char]
  {
  }

  /** The four fixed durations are labelled with their numeral followed by " days". */
  lemma DurationCaptions()
    ensures forall i :: 0 <= i < 4 ==> Durations()[i].caption == ToDecimal(Durations()[i].value) + " days"
  {
    var r := Durations();
    forall i | 0 <= i < 4
      ensures r[i].caption == ToDecimal(r[i].value) + " days"
    {
      SmallDecimal(r[i].value);
    }
  }

  /**
   * Every duration label the form offers reads back, through the dashboard's
   * parse of the stored duration, as its own number of days, except
   * "Ongoing", which does not parse, so a medication saved with it would
   * never be shown as active.
   */
  lemma DurationLabelsParse()
    ensures forall i :: 0 <= i < 4 ==> DurationDays(Durations()[i].caption) == Some(Durations()[i].value)
    ensures DurationDays(Durations()[4].caption) == None
  {
    var r := Durations();
    DurationCaptions();
    forall i | 0 <= i < 4
      ensures DurationDays(r[i].caption) == Some(r[i].value)
    {
      DaysLabel(r[i].value);
    }
    SplitNoSeparator("Ongoing", ' ');
    assert !IsWhiteSpace('O');
    assert TrimStart("Ongoing") == "Ongoing";
    ParseIntNaN("Ongoing");
  }

  /** The scheduler, handed `t`, fires on a whole hour between nine and nine in the evening. */
  predicate WholeDaytimeHour(t: string)
  {
    var (hour, minute) := HourAndMinute(DailyAt(t));
    hour.Integer? && 9 <= hour.n <= 21 && minute == Integer(0)
  }

  /** `t` reads "HH:00" for an hour HH from nine to twenty-one. */
  predicate DaytimeHourText(t: string)
  {
    |t| == 5 && IsDigit(t[0], 10) && IsDigit(t[1], 10) && t[2] == ':' && t[3] == '0' && t[4] == '0' &&
    9 <= 10 * DigitValue(t[0]) + DigitValue(t[1]) <= 21
  }

  /** A time "HH:00" hands the scheduler the hour HH and minute zero. */
  lemma DaytimeHourScheduled(t: string)
    requires DaytimeHourText(t)
    ensures WholeDaytimeHour(t)
  {
    assert t == [t[0], t[1], ':', '0', '0'];
    ClockTimeTrigger(t[0], t[1], '0', '0');
  }

  /** Every time the frequency table lists is a whole daytime hour once split on ":". */
  lemma FrequencyTimesAreClockTimes()
    ensures forall i, j :: 0 <= i < |Frequencies()| && 0 <= j < |Frequencies()[i].times| ==>
      WholeDaytimeHour(Frequencies()[i].times[j])
  {
    var r := Frequencies();
    forall i, j | 0 <= i < |r| && 0 <= j < |r[i].times|
      ensures WholeDaytimeHour(r[i].times[j])
    {
      DaytimeHourScheduled(r[i].times[j]);
    }
  }

  /** The form state; dates are milliseconds since the epoch. */
  datatype Form = Form(
    name: string,
    dosage: string,
    frequency: string,
    duration: string,
    startDate: int,
    times: seq<string>,
    notes: string,
    reminderEnable: bool,
    refillReminder: bool,
    currentSupply: string,
    refillAt: string)

  /** The form the screen opens with, started at `now`. */
  function InitialForm(now: int): Form
  {
    Form("", "", "", "", now, ["09:00"], "", true, false, "", "")
  }

  /** The four fields the validator checks, named by their keys in the error dictionary. */
  datatype FieldKey = NameKey | DosageKey | FrequencyKey | DurationKey

  /** The value of a checked field. */
  function Field(form: Form, key: FieldKey): string
  {
    match key
    case NameKey => form.name
    case DosageKey => form.dosage
    case FrequencyKey => form.frequency
    case DurationKey => form.duration
  }

  /** The message shown under a checked field left blank. */
  function Message(key: FieldKey): string
  {
    match key
    case NameKey => "Medication name is required"
    case DosageKey => "Medication dosage is required"
    case FrequencyKey => "Medication frequency is required"
    case DurationKey => "Medication duration is required"
  }

  /** The errors a form deserves: one message for each checked field whose trimmed value is empty. */
  function FormErrors(form: Form): map<FieldKey, string>
  {
    map key: FieldKey | Trim(Field(form, key)) == "" :: Message(key)
  }

  /** A field is reported exactly when it holds nothing but white space, and then with its own message. */
  lemma ErrorIffBlank(form: Form, key: FieldKey)
    ensures key in FormErrors(form) <==> AllWhiteSpace(Field(form, key))
    ensures key in FormErrors(form) ==> FormErrors(form)[key] == Message(key)
  {
    TrimEmptyIff(Field(form, key));
  }

  /**
   * The validator's dictionary, built as the screen builds it: start empty,
   * then add an entry for each checked field whose trimmed value is empty.
   */
  method CollectErrors(form: Form) returns (newErrors: map<FieldKey, string>)
    ensures newErrors == FormErrors(form)
  {
    newErrors := map[];
    if Trim(form.name) == "" {
      newErrors := newErrors[NameKey := Message(NameKey)];
    }
    if Trim(form.dosage) == "" {
      newErrors := newErrors[DosageKey := Message(DosageKey)];
    }
    if Trim(form.frequency) == "" {
      newErrors := newErrors[FrequencyKey := Message(FrequencyKey)];
    }
    if Trim(form.duration) == "" {
      newErrors := newErrors[DurationKey := Message(DurationKey)];
    }
    var expected := FormErrors(form);
    forall key
      ensures key in newErrors <==> key in expected
      ensures key in newErrors ==> newErrors[key] == expected[key]
    {
      FormErrorsEntry(form, key);
      match key
      case NameKey =>
      case DosageKey =>
      case FrequencyKey =>
      case DurationKey =>
    }
    SameEntries(newErrors, expected);
  }

  /** The entry of the expected errors under one key. */
  lemma FormErrorsEntry(form: Form, key: FieldKey)
    ensures key in FormErrors(form) <==> Trim(Field(form, key)) == ""
    ensures key in FormErrors(form) ==> FormErrors(form)[key] == Message(key)
  {
  }

  /** Two dictionaries with the same keys and the same value under each key are equal. */
  lemma SameEntries<K, V>(a: map<K, V>, b: map<K, V>)
    requires forall k :: k in a <==> k in b
    requires forall k :: k in a ==> a[k] == b[k]
    ensures a == b
  {
  }

  /** A form passes validation exactly when each checked field holds a character other than white space. */
  lemma ValidIffFilled(form: Form)
    ensures FormErrors(form) == map[] <==>
      !AllWhiteSpace(form.name) && !AllWhiteSpace(form.dosage) &&
      !AllWhiteSpace(form.frequency) && !AllWhiteSpace(form.duration)
  {
    ErrorIffBlank(form, NameKey);
    ErrorIffBlank(form, DosageKey);
    ErrorIffBlank(form, FrequencyKey);
    ErrorIffBlank(form, DurationKey);
    if FormErrors(form) != map[] {
      var key :| key in FormErrors(form);
    }
  }

  /** The opening form fails on all four checked fields. */
  lemma InitialFormErrors(now: int)
    ensures forall key :: key in FormErrors(InitialForm(now))
  {
    var form := InitialForm(now);
    forall key
      ensures key in FormErrors(form)
    {
      assert Field(form, key) == "";
    }
  }

  /** A form whose frequency and duration were never chosen always fails on both. */
  lemma UnsetChoicesRejected(form: Form)
    requires form.frequency == "" && form.duration == ""
    ensures FrequencyKey in FormErrors(form) && DurationKey in FormErrors(form)
    ensures FormErrors(form) != map[]
  {
    ErrorIffBlank(form, FrequencyKey);
    ErrorIffBlank(form, DurationKey);
  }

  /** An error line is rendered only for a non-empty message. */
  predicate ErrorShown(errors: map<FieldKey, string>, key: FieldKey)
  {
    key in errors && errors[key] != ""
  }

  /**
   * The error clearing of a text field's change handler: a message that is
   * showing is blanked, and nothing else in the dictionary changes.
   */
  function ClearError(errors: map<FieldKey, string>, key: FieldKey): (r: map<FieldKey, string>)
    ensures !ErrorShown(r, key)
    ensures r.Keys == errors.Keys
    ensures forall k :: k in errors && k != key ==> r[k] == errors[k]
    ensures !ErrorShown(errors, key) ==> r == errors
  {
    if ErrorShown(errors, key) then errors[key := ""] else errors
  }

  /** Whether the "Medication times" list is rendered. */
  predicate ShowTimes(form: Form)
  {
    form.frequency != "" && form.frequency != "As needed"
  }

  /** Were a card's caption ever stored as the frequency, the times list would appear. */
  lemma CardsShowTimes(form: Form, i: int)
    requires 0 <= i < |Frequencies()|
    ensures ShowTimes(form.(frequency := Frequencies()[i].caption))
  {
  }

  /** The times list after the time picker returns `t`: the first entry becomes `t`, the rest stay. */
  function UpdateFirstTime(times: seq<string>, t: string): (r: seq<string>)
    ensures |r| == |times|
    ensures |times| > 0 ==> r[0] == t && r[1..] == times[1..]
  {
    seq(|times|, i requires 0 <= i < |times| => if i == 0 then t else times[i])
  }

  /** Picking twice keeps only the second choice, and an entry already equal to `t` is left as it is. */
  lemma UpdateFirstTimeLastWins(times: seq<string>, a: string, b: string)
    ensures UpdateFirstTime(UpdateFirstTime(times, a), b) == UpdateFirstTime(times, b)
    ensures |times| > 0 && times[0] == a ==> UpdateFirstTime(times, a) == times
  {
    var once := UpdateFirstTime(times, a);
    var twice := UpdateFirstTime(once, b);
    if |times| > 0 {
      assert twice == [b] + times[1..];
      assert UpdateFirstTime(times, b) == [b] + times[1..];
      if times[0] == a {
        assert once == [a] + times[1..];
        assert times == [times[0]] + times[1..];
      }
    }
  }

  /** The screen's state. */
  class AddMedicationScreen {
    var form: Form
    var errors: map<FieldKey, string>
    var selectedFrequency: string
    var selectedDuration: string
    var showTimePicker: bool
    var showDatePicker: bool

    /** Frequency and duration are still unset; no handler of the screen ever sets them. */
    ghost predicate ChoicesUnset()
      reads this
    {
      form.frequency == "" && form.duration == ""
    }

    constructor(now: int)
      ensures form == InitialForm(now) && errors == map[]
      ensures selectedFrequency == "" && selectedDuration == ""
      ensures !showTimePicker && !showDatePicker
      ensures ChoicesUnset() && !ShowTimes(form)
    {
      form := InitialForm(now);
      errors := map[];
      selectedFrequency := "";
      selectedDuration := "";
      showTimePicker := false;
      showDatePicker := false;
    }

    /** Replaces the errors with those the form deserves and reports whether there are none. */
    method ValidateForm() returns (ok: bool)
      modifies this
      ensures errors == FormErrors(form)
      ensures ok <==> errors == map[]
      ensures ok <==> !AllWhiteSpace(form.name) && !AllWhiteSpace(form.dosage) &&
                      !AllWhiteSpace(form.frequency) && !AllWhiteSpace(form.duration)
      ensures old(ChoicesUnset()) ==> !ok && FrequencyKey in errors && DurationKey in errors
      ensures form == old(form) && selectedFrequency == old(selectedFrequency)
      ensures selectedDuration == old(selectedDuration)
      ensures showTimePicker == old(showTimePicker) && showDatePicker == old(showDatePicker)
    {
      var current := form;
      var newErrors := CollectErrors(current);
      ValidIffFilled(current);
      if current.frequency == "" && current.duration == "" {
        UnsetChoicesRejected(current);
      }
      errors := newErrors;
      ok := |newErrors| == 0;
    }

    /** Typing in the name field. */
    method ChangeName(value: string)
      modifies this
      ensures form == old(form).(name := value)
      ensures errors == ClearError(old(errors), NameKey)
      ensures selectedFrequency == old(selectedFrequency) && selectedDuration == old(selectedDuration)
      ensures showTimePicker == old(showTimePicker) && showDatePicker == old(showDatePicker)
      ensures ChoicesUnset() == old(ChoicesUnset())
    {
      form := form.(name := value);
      if ErrorShown(errors, NameKey) {
        errors := errors[NameKey := ""];
      }
    }

    /** Typing in the dosage field. */
    method ChangeDosage(value: string)
      modifies this
      ensures form == old(form).(dosage := value)
      ensures errors == ClearError(old(errors), DosageKey)
      ensures selectedFrequency == old(selectedFrequency) && selectedDuration == old(selectedDuration)
      ensures showTimePicker == old(showTimePicker) && showDatePicker == old(showDatePicker)
      ensures ChoicesUnset() == old(ChoicesUnset())
    {
      form := form.(dosage := value);
      if ErrorShown(errors, DosageKey) {
        errors := errors[DosageKey := ""];
      }
    }

    /** Pressing a frequency card highlights it; the form's frequency is not touched. */
    method SelectFrequency(option: FrequencyOption)
      modifies this
      ensures selectedFrequency == option.caption
      ensures form == old(form) && errors == old(errors) && selectedDuration == old(selectedDuration)
      ensures showTimePicker == old(showTimePicker) && showDatePicker == old(showDatePicker)
      ensures ChoicesUnset() == old(ChoicesUnset())
    {
      selectedFrequency := option.caption;
    }

    /** Pressing the start-date button opens the date picker. */
    method OpenDatePicker()
      modifies this
      ensures showDatePicker
      ensures form == old(form) && errors == old(errors)
      ensures selectedFrequency == old(selectedFrequency) && selectedDuration == old(selectedDuration)
      ensures showTimePicker == old(showTimePicker)
    {
      showDatePicker := true;
    }

    /** The date picker closes; a picked date becomes the start date. */
    method PickDate(date: Option<int>)
      modifies this
      ensures !showDatePicker
      ensures form == if date.Some? then old(form).(startDate := date.value) else old(form)
      ensures errors == old(errors)
      ensures selectedFrequency == old(selectedFrequency) && selectedDuration == old(selectedDuration)
      ensures showTimePicker == old(showTimePicker)
      ensures ChoicesUnset() == old(ChoicesUnset())
    {
      showDatePicker := false;
      if date.Some? {
        form := form.(startDate := date.value);
      }
    }

    /** Pressing an entry of the times list opens the time picker; the list is only rendered when `ShowTimes`. */
    method OpenTimePicker()
      requires ShowTimes(form)
      modifies this
      ensures showTimePicker
      ensures form == old(form) && errors == old(errors)
      ensures selectedFrequency == old(selectedFrequency) && selectedDuration == old(selectedDuration)
      ensures showDatePicker == old(showDatePicker)
    {
      showTimePicker := true;
    }

    /**
     * The time picker closes; a picked time, already formatted as the
     * device's two-digit "HH:MM", replaces the first entry of the times list.
     */
    method PickTime(newTime: Option<string>)
      modifies this
      ensures !showTimePicker
      ensures form == if newTime.Some? then old(form).(times := UpdateFirstTime(old(form.times), newTime.value))
                      else old(form)
      ensures |form.times| == |old(form.times)|
      ensures errors == old(errors)
      ensures selectedFrequency == old(selectedFrequency) && selectedDuration == old(selectedDuration)
      ensures showDatePicker == old(showDatePicker)
      ensures ChoicesUnset() == old(ChoicesUnset())
    {
      showTimePicker := false;
      if newTime.Some? {
        form := form.(times := UpdateFirstTime(form.times, newTime.value));
      }
    }

    /** The reminders switch. */
    method ToggleReminders(value: bool)
      modifies this
      ensures form == old(form).(reminderEnable := value)
      ensures errors == old(errors)
      ensures selectedFrequency == old(selectedFrequency) && selectedDuration == old(selectedDuration)
      ensures showTimePicker == old(showTimePicker) && showDatePicker == old(showDatePicker)
      ensures ChoicesUnset() == old(ChoicesUnset())
    {
      form := form.(reminderEnable := value);
    }

    /** Typing in the notes field. */
    method ChangeNotes(value: string)
      modifies this
      ensures form == old(form).(notes := value)
      ensures errors == old(errors)
      ensures selectedFrequency == old(selectedFrequency) && selectedDuration == old(selectedDuration)
      ensures showTimePicker == old(showTimePicker) && showDatePicker == old(showDatePicker)
      ensures ChoicesUnset() == old(ChoicesUnset())
    {
      form := form.(notes := value);
    }
  }
}
