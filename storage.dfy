/**
 * The persistence layer (utilis/storage.ts): two lists kept under the keys
 * `@medications` and `@dose_history` of a device key-value store, each read
 * whole, extended and written back whole. A key is either absent or holds a
 * list. A failing read or write of the device store is a parameter.
 */
module Storage {
  import opened Common
  import opened JsDate

  /** A medication regimen as the add-medication flow stores it; dates are milliseconds since 1970. */
  datatype Medication = Medication(
    id: string,
    name: string,
    dosage: string,
    frequency: string,
    duration: string,
    startDate: int,
    times: seq<string>,
    notes: string,
    reminderEnable: bool,
    refillReminder: bool,
    currentSupply: int,
    totalSupply: int,
    refillAt: int,
    color: string,
    lastRefillDate: Option<int>)

  /** One "dose taken / not taken" event (`DosageHistory` in the source). */
  datatype DoseRecord = DoseRecord(id: string, medicationId: string, timestamp: int, taken: bool)

  /**
   * Reading a key: the stored list, or the empty list when the key is absent
   * or the read (or the parse of what was read) throws.
   */
  function ReadList<T>(slot: Option<seq<T>>, readFails: bool): (r: seq<T>)
    ensures slot == None || readFails ==> r == []
    ensures slot != None && !readFails ==> r == slot.value
  {
    if readFails then []
    else match slot
      case None => []
      case Some(list) => list
  }

  predicate SameDay(dose: DoseRecord, now: int)
  {
    CalendarDay(dose.timestamp) == CalendarDay(now)
  }

  /** The filter of `getTodaysDoses`: the doses whose timestamp falls on the calendar day of `now`. */
  function TodaysDoses(history: seq<DoseRecord>, now: int): seq<DoseRecord>
  {
    Filter(history, dose => SameDay(dose, now))
  }

  /**
   * Today's doses are an order-preserving subsequence of the history, holding
   * every dose of today's calendar day as often as the history does, and nothing else.
   */
  lemma TodaysDosesSpec(history: seq<DoseRecord>, now: int)
    ensures IsSubsequence(TodaysDoses(history, now), history)
    ensures forall d ::
              multiset(TodaysDoses(history, now))[d] ==
              if CalendarDay(d.timestamp) == CalendarDay(now) then multiset(history)[d] else 0
  {
    var p := (dose: DoseRecord) => SameDay(dose, now);
    FilterIsSubsequence(history, p);
    forall d
      ensures multiset(TodaysDoses(history, now))[d] ==
        if CalendarDay(d.timestamp) == CalendarDay(now) then multiset(history)[d] else 0
    {
      FilterMultiplicity(history, p, d);
    }
  }

  /** The device key-value store, reduced to the two keys the application uses. */
  class MedicationStore {
    var medicationsKey: Option<seq<Medication>>
    var doseHistoryKey: Option<seq<DoseRecord>>

    /** A store on which nothing was saved yet. */
    constructor ()
      ensures medicationsKey == None && doseHistoryKey == None
    {
      medicationsKey := None;
      doseHistoryKey := None;
    }

    /** `getMedications`: never throws; an absent key or a failed read gives the empty list. */
    method GetMedications(readFails: bool) returns (medications: seq<Medication>)
      ensures medications == ReadList(medicationsKey, readFails)
      ensures medicationsKey == None || readFails ==> medications == []
    {
      if readFails || medicationsKey == None {
        return [];
      }
      return medicationsKey.value;
    }

    /**
     * `addMedication`: read the list, push, write the whole list back. A failed
     * write is rethrown. A failed read is not: it yields the empty list, so the
     * write then replaces the stored list with `[medication]`.
     */
    method AddMedication(medication: Medication, readFails: bool, writeFails: bool) returns (outcome: Outcome)
      modifies this
      ensures outcome == if writeFails then Fail else Pass
      ensures doseHistoryKey == old(doseHistoryKey)
      ensures writeFails ==> medicationsKey == old(medicationsKey)
      ensures !writeFails ==> medicationsKey == Some(ReadList(old(medicationsKey), readFails) + [medication])
    {
      var medications := GetMedications(readFails);
      medications := medications + [medication];
      if writeFails {
        return Fail;
      }
      medicationsKey := Some(medications);
      return Pass;
    }

    /** `getDoseHistory`: never throws; an absent key or a failed read gives the empty list. */
    method GetDoseHistory(readFails: bool) returns (history: seq<DoseRecord>)
      ensures history == ReadList(doseHistoryKey, readFails)
      ensures doseHistoryKey == None || readFails ==> history == []
    {
      if readFails || doseHistoryKey == None {
        return [];
      }
      return doseHistoryKey.value;
    }

    /** `getTodaysDoses`: the stored history filtered to the calendar day of `now`. */
    method GetTodaysDoses(readFails: bool, now: int) returns (doses: seq<DoseRecord>)
      ensures doses == TodaysDoses(ReadList(doseHistoryKey, readFails), now)
      ensures forall i :: 0 <= i < |doses| ==> CalendarDay(doses[i].timestamp) == CalendarDay(now)
    {
      var history := GetDoseHistory(readFails);
      doses := TodaysDoses(history, now);
    }

    /**
     * `recordDose`: append one record with a fresh `id` (random in the source,
     * a parameter here). Errors are logged and swallowed: a failed write leaves
     * the history as it was; a failed read makes the write replace it.
     */
    method RecordDose(medicationId: string, taken: bool, timestamp: int, id: string, readFails: bool, writeFails: bool)
      modifies this
      ensures medicationsKey == old(medicationsKey)
      ensures writeFails ==> doseHistoryKey == old(doseHistoryKey)
      ensures !writeFails ==>
                doseHistoryKey == Some(ReadList(old(doseHistoryKey), readFails) + [DoseRecord(id, medicationId, timestamp, taken)])
    {
      var history := GetDoseHistory(readFails);
      var newDose := DoseRecord(id, medicationId, timestamp, taken);
      history := history + [newDose];
      if !writeFails {
        doseHistoryKey := Some(history);
      }
    }

    /** `clearAllData`: remove both keys together; a failure is rethrown and (atomically) removes nothing. */
    method ClearAllData(fails: bool) returns (outcome: Outcome)
      modifies this
      ensures outcome == if fails then Fail else Pass
      ensures fails ==> medicationsKey == old(medicationsKey) && doseHistoryKey == old(doseHistoryKey)
      ensures !fails ==> medicationsKey == None && doseHistoryKey == None
    {
      if fails {
        return Fail;
      }
      medicationsKey, doseHistoryKey := None, None;
      return Pass;
    }
  }

  /** A client run: what `addMedication` and `recordDose` promise is what the getters read back. */
  method StoreRoundTrip(m: Medication, now: int)
  {
    var store := new MedicationStore();
    var outcome := store.AddMedication(m, false, false);
    var medications := store.GetMedications(false);
    assert outcome == Pass && medications == [m];
    store.RecordDose(m.id, true, now, "a1", false, false);
    var today := store.GetTodaysDoses(false, now);
    assert today == [DoseRecord("a1", m.id, now, true)];
    outcome := store.ClearAllData(false);
    medications := store.GetMedications(false);
    var history := store.GetDoseHistory(false);
    assert medications == [] && history == [];
  }
}
