/**
 * The health view-model (src/ViewModels/HealthViewModel.swift): today's
 * health entry found or created, the Apple Health sync that respects the
 * manual-edit locks, manual edits, and the weekly averages.
 *
 * The Apple Health query itself is outside the model: its outcome, the
 * `(steps, calories, sleep, water)` tuple or an error description, is a
 * parameter of the sync.
 */
module HealthViewModel {
  import opened Basics
  import opened Models
  import opened Persistence

  /** What `fetchAllHealthData(for:)` delivers for one day. */
  datatype HealthSnapshot = HealthSnapshot(steps: int, calories: real, sleep: real, water: real)

  /** Outcome of the Apple Health fetch: the data, or the error's localized description. */
  datatype Fetched = Fetched(data: HealthSnapshot) | FetchFailed(description: string)

  // ---------------------------------------------------------------------------
  // The sync merge on values

  /** One metric of the merge: written automatically unless its lock is set. */
  function SyncSlot<T>(s: Slot<T>, fetched: T): (r: Slot<T>)
    ensures r.manual == s.manual
    ensures s.manual ==> r == s
    ensures !s.manual ==> r.value == Some(fetched)
  {
    if s.manual then s else Written(s, fetched, false)
  }

  /**
   * The merge of lines 90-102: each metric takes the fetched value exactly
   * when its lock is open; no lock changes, nor does the date.
   */
  function Merge(r: HealthRecord, f: HealthSnapshot): (m: HealthRecord)
    ensures m.date == r.date
    ensures m.steps.manual == r.steps.manual && m.calories.manual == r.calories.manual
    ensures m.sleep.manual == r.sleep.manual && m.water.manual == r.water.manual
    ensures m.steps.value == (if r.steps.manual then r.steps.value else Some(f.steps))
    ensures m.calories.value == (if r.calories.manual then r.calories.value else Some(f.calories))
    ensures m.sleep.value == (if r.sleep.manual then r.sleep.value else Some(f.sleep))
    ensures m.water.value == (if r.water.manual then r.water.value else Some(f.water))
  {
    r.(steps := SyncSlot(r.steps, f.steps),
       calories := SyncSlot(r.calories, f.calories),
       sleep := SyncSlot(r.sleep, f.sleep),
       water := SyncSlot(r.water, f.water))
  }

  /** Manual edits and syncs, the only ways the application changes a health entry. */
  datatype Edit =
    | ManualSteps(steps: int)
    | ManualCalories(calories: real)
    | ManualSleep(hours: real)
    | ManualWater(liters: real)
    | Sync(fetched: HealthSnapshot)

  function Apply(r: HealthRecord, e: Edit): HealthRecord
  {
    match e
    case ManualSteps(v) => r.(steps := Written(r.steps, v, true))
    case ManualCalories(v) => r.(calories := Written(r.calories, v, true))
    case ManualSleep(v) => r.(sleep := Written(r.sleep, v, true))
    case ManualWater(v) => r.(water := Written(r.water, v, true))
    case Sync(f) => Merge(r, f)
  }

  function ApplyAll(r: HealthRecord, es: seq<Edit>): HealthRecord
    decreases |es|
  {
    if es == [] then r else ApplyAll(Apply(r, es[0]), es[1..])
  }

  /** Every lock set in `a` is still set in `b`. */
  ghost predicate LocksKept(a: HealthRecord, b: HealthRecord)
  {
    && (a.steps.manual ==> b.steps.manual)
    && (a.calories.manual ==> b.calories.manual)
    && (a.sleep.manual ==> b.sleep.manual)
    && (a.water.manual ==> b.water.manual)
  }

  /** No sequence of edits and syncs ever clears a lock. */
  lemma {:induction false} LocksNeverCleared(r: HealthRecord, es: seq<Edit>)
    ensures LocksKept(r, ApplyAll(r, es))
    decreases |es|
  {
    if es != [] {
      LocksNeverCleared(Apply(r, es[0]), es[1..]);
    }
  }

  /**
   * A locked metric keeps its value through any sequence of syncs and of
   * manual edits of the other metrics: only a manual edit of that metric
   * changes it.
   */
  lemma {:induction false} LockedValuesSurviveSync(r: HealthRecord, es: seq<Edit>)
    ensures r.steps.manual && (forall i :: 0 <= i < |es| ==> !es[i].ManualSteps?) ==>
      ApplyAll(r, es).steps == r.steps
    ensures r.calories.manual && (forall i :: 0 <= i < |es| ==> !es[i].ManualCalories?) ==>
      ApplyAll(r, es).calories == r.calories
    ensures r.sleep.manual && (forall i :: 0 <= i < |es| ==> !es[i].ManualSleep?) ==>
      ApplyAll(r, es).sleep == r.sleep
    ensures r.water.manual && (forall i :: 0 <= i < |es| ==> !es[i].ManualWater?) ==>
      ApplyAll(r, es).water == r.water
    decreases |es|
  {
    if es != [] {
      var r' := Apply(r, es[0]);
      LockedValuesSurviveSync(r', es[1..]);
      assert forall i :: 0 <= i < |es[1..]| ==> es[1..][i] == es[i + 1];
    }
  }

  /** A manually entered 500 steps survives a sync that reports 9000. */
  lemma ManualStepsSurviveSync(r: HealthRecord, f: HealthSnapshot)
    requires r.steps == Slot(Some(500), true) && f.steps == 9000
    ensures Merge(r, f).steps.value == Some(500)
    ensures !r.(steps := Slot(Some(500), false)).steps.manual ==>
      Merge(r.(steps := Slot(Some(500), false)), f).steps.value == Some(9000)
  {
  }

  // ---------------------------------------------------------------------------
  // Weekly averages on values

  /** `compactMap`: the values of metric `k` that are present, in order. */
  function Present(rs: seq<HealthRecord>, k: MetricKind): (vs: seq<real>)
    ensures |vs| <= |rs|
    ensures (forall i :: 0 <= i < |rs| ==> MetricValue(rs[i], k).Some?) ==> |vs| == |rs|
    ensures (forall i :: 0 <= i < |rs| ==> MetricValue(rs[i], k).None?) ==> vs == []
  {
    if rs == [] then []
    else
      match MetricValue(rs[0], k)
      case Some(v) => [v] + Present(rs[1..], k)
      case None => Present(rs[1..], k)
  }

  /** Every present value of metric `k` is the value of one of the entries. */
  lemma {:induction false} PresentFromEntries(rs: seq<HealthRecord>, k: MetricKind)
    ensures forall i :: 0 <= i < |Present(rs, k)| ==>
      exists j :: 0 <= j < |rs| && MetricValue(rs[j], k) == Some(Present(rs, k)[i])
  {
    if rs != [] {
      PresentFromEntries(rs[1..], k);
      var vs := Present(rs, k);
      var tail := Present(rs[1..], k);
      assert vs == (if MetricValue(rs[0], k).Some? then [MetricValue(rs[0], k).value] + tail else tail);
      forall i | 0 <= i < |vs|
        ensures exists j :: 0 <= j < |rs| && MetricValue(rs[j], k) == Some(vs[i])
      {
        if MetricValue(rs[0], k).Some? && i == 0 {
          assert MetricValue(rs[0], k) == Some(vs[0]);
        } else {
          var t := if MetricValue(rs[0], k).Some? then i - 1 else i;
          assert 0 <= t < |tail| && vs[i] == tail[t];
          var j :| 0 <= j < |rs[1..]| && MetricValue(rs[1..][j], k) == Some(tail[t]);
          assert rs[1..][j] == rs[j + 1];
          assert 0 <= j + 1 < |rs| && MetricValue(rs[j + 1], k) == Some(vs[i]);
        }
      }
    } else {
      assert Present(rs, k) == [];
    }
  }

  /** When every entry has metric `k`, its present values are the entries' values, in order. */
  lemma {:induction false} PresentWhenComplete(rs: seq<HealthRecord>, k: MetricKind)
    requires forall i :: 0 <= i < |rs| ==> MetricValue(rs[i], k).Some?
    ensures |Present(rs, k)| == |rs|
    ensures forall i :: 0 <= i < |rs| ==> Present(rs, k)[i] == MetricValue(rs[i], k).value
  {
    if rs != [] {
      assert forall i :: 0 <= i < |rs[1..]| ==> rs[1..][i] == rs[i + 1];
      PresentWhenComplete(rs[1..], k);
    }
  }

  /**
   * Average of metric `k` as `calculateWeeklyAverages` computes it: zero for no
   * entries, otherwise the sum of the present values divided by the number of
   * ALL entries, so that an entry without the metric counts as zero.
   */
  function WeeklyAverage(rs: seq<HealthRecord>, k: MetricKind): (a: real)
    ensures rs == [] ==> a == 0.0
    ensures rs != [] ==> a * |rs| as real == Sum(Present(rs, k))
  {
    if rs == [] then 0.0 else Sum(Present(rs, k)) / |rs| as real
  }

  /**
   * When every entry has metric `k`, the weekly average is the plain mean of
   * the values; otherwise entries without it pull the average towards zero.
   */
  lemma WeeklyAverageIsMeanWhenComplete(rs: seq<HealthRecord>, k: MetricKind)
    requires rs != []
    requires forall i :: 0 <= i < |rs| ==> MetricValue(rs[i], k).Some?
    ensures Present(rs, k) != []
    ensures WeeklyAverage(rs, k) == Mean(Present(rs, k))
  {
    assert |Present(rs, k)| == |rs|;
  }

  /** `[{steps: nil}, {steps: 1000}]` averages to 500 steps, not 1000. */
  lemma WeeklyAverageCountsMissingAsZero(d1: int, d2: int)
    ensures WeeklyAverage([NewHealthRecord(d1), NewHealthRecord(d2).(steps := Slot(Some(1000), false))], Steps) == 500.0
    ensures WeeklyAverage([NewHealthRecord(d1)], Steps) == 0.0
  {
    var rs := [NewHealthRecord(d1), NewHealthRecord(d2).(steps := Slot(Some(1000), false))];
    assert rs[1..][1..] == [];
    assert Present(rs, Steps) == [1000.0];
    assert Sum([1000.0]) == 1000.0 + Sum([]);
    assert [NewHealthRecord(d1)][1..] == [];
  }

  // ---------------------------------------------------------------------------
  // The view-model

  class HealthViewModel {
    var todayHealthData: HealthDataEntry?
    var isLoadingHealthData: bool
    var isSyncingWithHealthKit: bool
    var errorMessage: Option<string>
    var modelContext: ModelContext?
    var currentUser: User?

    constructor (context: ModelContext?, user: User?)
      ensures modelContext == context && currentUser == user
      ensures todayHealthData == null && errorMessage == None
      ensures !isLoadingHealthData && !isSyncingWithHealthKit
    {
      modelContext, currentUser := context, user;
      todayHealthData := null;
      isLoadingHealthData, isSyncingWithHealthKit := false, false;
      errorMessage := None;
    }

    /**
     * `loadTodayHealthData`: adopt the first stored entry dated today, or create
     * one dated at the start of today, insert it and link it to the user. A
     * failing save keeps the insertion but reports the error instead of
     * adopting the new entry. Without a store or a user nothing happens.
     */
    method LoadTodayHealthData(now: int, newId: int, saveError: Option<string>)
      modifies this`todayHealthData, this`errorMessage, {modelContext}`healthEntries, {currentUser}`healthEntries
      ensures modelContext == null || currentUser == null ==>
        todayHealthData == old(todayHealthData) && errorMessage == old(errorMessage)
        && (modelContext != null ==> unchanged(modelContext))
        && (currentUser != null ==> unchanged(currentUser))
      ensures modelContext != null && currentUser != null && old(HealthOnDay(modelContext.healthEntries, StartOfDay(now))) != [] ==>
        todayHealthData == old(HealthOnDay(modelContext.healthEntries, StartOfDay(now)))[0]
        && errorMessage == old(errorMessage)
        && unchanged(modelContext) && unchanged(currentUser)
      ensures modelContext != null && currentUser != null && old(HealthOnDay(modelContext.healthEntries, StartOfDay(now))) == [] ==>
        |modelContext.healthEntries| == |old(modelContext.healthEntries)| + 1
        && var e := modelContext.healthEntries[|modelContext.healthEntries| - 1];
           fresh(e) && e.id == newId && e.Record() == NewHealthRecord(StartOfDay(now))
           && modelContext.healthEntries == old(modelContext.healthEntries) + [e]
           && currentUser.healthEntries == old(currentUser.healthEntries) + [e]
           && (saveError.None? ==> todayHealthData == e && errorMessage == old(errorMessage))
           && (saveError.Some? ==>
                 todayHealthData == old(todayHealthData)
                 && errorMessage == Some("Fehler beim Laden der Daten: " + saveError.value))
      // after a call with a store and a user, an entry for today exists, so a
      // second call adopts it instead of creating a duplicate
      ensures modelContext != null && currentUser != null ==>
        HealthOnDay(modelContext.healthEntries, StartOfDay(now)) != []
    {
      var today := StartOfDay(now);
      if modelContext == null || currentUser == null {
        return;
      }
      var context, user := modelContext, currentUser;
      var entries := HealthOnDay(context.healthEntries, today);
      if entries != [] {
        todayHealthData := entries[0];
      } else {
        var newEntry := new HealthDataEntry(newId, today);
        context.InsertHealth(newEntry);
        user.healthEntries := user.healthEntries + [newEntry];
        assert newEntry == context.healthEntries[|context.healthEntries| - 1];
        assert newEntry in HealthOnDay(context.healthEntries, today);
        if saveError.Some? {
          errorMessage := Some("Fehler beim Laden der Daten: " + saveError.value);
          return;
        }
        todayHealthData := newEntry;
      }
    }

    /** Overwrite each metric of `entry` the user has not edited by hand with the fetched value. */
    static method SyncEntry(entry: HealthDataEntry, data: HealthSnapshot)
      modifies entry
      ensures entry.Record() == Merge(old(entry.Record()), data)
    {
      if !entry.stepsManuallyEdited {
        entry.UpdateSteps(data.steps, false);
      }
      if !entry.caloriesManuallyEdited {
        entry.UpdateCalories(data.calories, false);
      }
      if !entry.sleepManuallyEdited {
        entry.UpdateSleep(data.sleep, false);
      }
      if !entry.waterManuallyEdited {
        entry.UpdateWater(data.water, false);
      }
    }

    /**
     * `syncWithHealthKit`: when Apple Health is unavailable only the error is
     * set. Otherwise, with fetched data, today's entry is merged as `Merge`
     * says; a failed fetch leaves every entry as it was. The syncing flag is
     * off again on return.
     */
    method SyncWithHealthKit(available: bool, fetched: Fetched, saveError: Option<string>)
      modifies this`errorMessage, this`isSyncingWithHealthKit, todayHealthData
      ensures !available ==>
        errorMessage == Some("HealthKit ist nicht verfügbar")
        && isSyncingWithHealthKit == old(isSyncingWithHealthKit)
        && (todayHealthData != null ==> unchanged(todayHealthData))
      ensures available ==> !isSyncingWithHealthKit
      ensures available && fetched.FetchFailed? ==>
        errorMessage == Some("Fehler beim Synchronisieren: " + fetched.description)
        && (todayHealthData != null ==> unchanged(todayHealthData))
      ensures available && fetched.Fetched? && todayHealthData == null ==>
        errorMessage == None
      ensures available && fetched.Fetched? && todayHealthData != null ==>
        todayHealthData.Record() == Merge(old(todayHealthData.Record()), fetched.data)
        && errorMessage == (if modelContext != null && saveError.Some?
                            then Some("Fehler beim Synchronisieren: " + saveError.value)
                            else None)
    {
      if !available {
        errorMessage := Some("HealthKit ist nicht verfügbar");
        return;
      }
      isSyncingWithHealthKit := true;
      errorMessage := None;
      match fetched {
        case FetchFailed(description) =>
          errorMessage := Some("Fehler beim Synchronisieren: " + description);
        case Fetched(data) =>
          var entry := todayHealthData;
          if entry != null {
            SyncEntry(entry, data);
            if modelContext != null && saveError.Some? {
              errorMessage := Some("Fehler beim Synchronisieren: " + saveError.value);
            }
          }
      }
      isSyncingWithHealthKit := false;
    }

    /** Reports a failed save of the store, if there is a store (`try modelContext?.save()`). */
    method ReportSaveError(saveError: Option<string>)
      modifies this`errorMessage
      ensures errorMessage == (if modelContext != null && saveError.Some?
                               then Some("Fehler beim Speichern: " + saveError.value)
                               else old(errorMessage))
    {
      if modelContext != null && saveError.Some? {
        errorMessage := Some("Fehler beim Speichern: " + saveError.value);
      }
    }

    // The four manual edits: without a today entry nothing happens; otherwise
    // the value is stored and its lock set, the other metrics untouched.

    method UpdateSteps(steps: int, saveError: Option<string>)
      modifies this`errorMessage, todayHealthData
      ensures todayHealthData == null ==> errorMessage == old(errorMessage)
      ensures todayHealthData != null ==>
        todayHealthData.Record() == Apply(old(todayHealthData.Record()), ManualSteps(steps))
        && errorMessage == (if modelContext != null && saveError.Some?
                            then Some("Fehler beim Speichern: " + saveError.value)
                            else old(errorMessage))
    {
      var entry := todayHealthData;
      if entry == null {
        return;
      }
      entry.UpdateSteps(steps, true);
      ReportSaveError(saveError);
    }

    method UpdateCalories(calories: real, saveError: Option<string>)
      modifies this`errorMessage, todayHealthData
      ensures todayHealthData == null ==> errorMessage == old(errorMessage)
      ensures todayHealthData != null ==>
        todayHealthData.Record() == Apply(old(todayHealthData.Record()), ManualCalories(calories))
        && errorMessage == (if modelContext != null && saveError.Some?
                            then Some("Fehler beim Speichern: " + saveError.value)
                            else old(errorMessage))
    {
      var entry := todayHealthData;
      if entry == null {
        return;
      }
      entry.UpdateCalories(calories, true);
      ReportSaveError(saveError);
    }

    method UpdateSleep(hours: real, saveError: Option<string>)
      modifies this`errorMessage, todayHealthData
      ensures todayHealthData == null ==> errorMessage == old(errorMessage)
      ensures todayHealthData != null ==>
        todayHealthData.Record() == Apply(old(todayHealthData.Record()), ManualSleep(hours))
        && errorMessage == (if modelContext != null && saveError.Some?
                            then Some("Fehler beim Speichern: " + saveError.value)
                            else old(errorMessage))
    {
      var entry := todayHealthData;
      if entry == null {
        return;
      }
      entry.UpdateSleep(hours, true);
      ReportSaveError(saveError);
    }

    method UpdateWater(liters: real, saveError: Option<string>)
      modifies this`errorMessage, todayHealthData
      ensures todayHealthData == null ==> errorMessage == old(errorMessage)
      ensures todayHealthData != null ==>
        todayHealthData.Record() == Apply(old(todayHealthData.Record()), ManualWater(liters))
        && errorMessage == (if modelContext != null && saveError.Some?
                            then Some("Fehler beim Speichern: " + saveError.value)
                            else old(errorMessage))
    {
      var entry := todayHealthData;
      if entry == null {
        return;
      }
      entry.UpdateWater(liters, true);
      ReportSaveError(saveError);
    }

    /** `loadHealthDataForRange`: the stored entries dated in [startDate, endDate], oldest first. */
    method LoadHealthDataForRange(startDate: int, endDate: int) returns (entries: seq<HealthDataEntry>)
      ensures modelContext == null ==> entries == []
      ensures modelContext != null ==>
        entries == HealthBetween(modelContext.healthEntries, startDate, endDate)
        && SortedBy(entries, HealthDate)
        && (forall i :: 0 <= i < |entries| ==>
              entries[i] in modelContext.healthEntries && startDate <= entries[i].date <= endDate)
        && (forall i :: 0 <= i < |modelContext.healthEntries|
              && startDate <= modelContext.healthEntries[i].date <= endDate
              ==> modelContext.healthEntries[i] in entries)
    {
      if modelContext == null {
        return [];
      }
      entries := HealthBetween(modelContext.healthEntries, startDate, endDate);
      forall i | 0 <= i < |modelContext.healthEntries| && startDate <= modelContext.healthEntries[i].date <= endDate
        ensures modelContext.healthEntries[i] in entries
      {
        var e := modelContext.healthEntries[i];
        assert e in Filter(modelContext.healthEntries, (x: HealthDataEntry) => startDate <= x.date <= endDate);
        assert e in multiset(entries);
      }
    }

    /**
     * `calculateWeeklyAverages`: averages of the entries of the last seven days
     * as `WeeklyAverage` defines them; (0, 0, 0, 0) when there is none.
     */
    method CalculateWeeklyAverages(now: int) returns (steps: real, calories: real, sleep: real, water: real)
      ensures var rs := if modelContext == null then []
                        else HealthRecords(HealthBetween(modelContext.healthEntries, WindowStart(now, 7), now));
        && steps == WeeklyAverage(rs, Steps) && calories == WeeklyAverage(rs, Calories)
        && sleep == WeeklyAverage(rs, Sleep) && water == WeeklyAverage(rs, Water)
      ensures modelContext == null ==> steps == 0.0 && calories == 0.0 && sleep == 0.0 && water == 0.0
    {
      var entries := LoadHealthDataForRange(WindowStart(now, 7), now);
      if entries == [] {
        return 0.0, 0.0, 0.0, 0.0;
      }
      var rs := HealthRecords(entries);
      var count := |entries| as real;
      steps := Sum(Present(rs, Steps)) / count;
      calories := Sum(Present(rs, Calories)) / count;
      sleep := Sum(Present(rs, Sleep)) / count;
      water := Sum(Present(rs, Water)) / count;
    }
  }
}
