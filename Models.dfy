/**
 * Domain records of the tracker (src/Models/Models.swift): the mood table,
 * mood entries with clamped intensity, health entries with per-metric
 * "manually edited" locks, users and app settings.
 *
 * Entities that the application updates in place are classes. Their
 * identifiers (UUIDs) and creation dates are supplied by the caller and are
 * `const`, because no operation of the application reassigns them. Each
 * entry class offers a value snapshot (`Record()`) that the pure parts of the
 * model compute on.
 */
module Models {
  import opened Basics

  // ---------------------------------------------------------------------------
  // Moods

  datatype MoodType =
    | VeryHappy | Happy | Neutral | Sad | VerySad
    | Anxious | Stressed | Calm | Energetic | Tired

  /** Every mood, in declaration order (Swift's `CaseIterable.allCases`). */
  const AllMoods: seq<MoodType> :=
    [VeryHappy, Happy, Neutral, Sad, VerySad, Anxious, Stressed, Calm, Energetic, Tired]

  /** Position of a mood in `AllMoods`: every mood is listed, and exactly once. */
  function MoodIndex(m: MoodType): (i: nat)
    ensures i < |AllMoods| && AllMoods[i] == m
    ensures forall j :: 0 <= j < |AllMoods| && AllMoods[j] == m ==> j == i
  {
    match m
    case VeryHappy => 0
    case Happy => 1
    case Neutral => 2
    case Sad => 3
    case VerySad => 4
    case Anxious => 5
    case Stressed => 6
    case Calm => 7
    case Energetic => 8
    case Tired => 9
  }

  /** The raw value shown to the user. */
  function Label(m: MoodType): (s: string)
    ensures |s| > 0
  {
    match m
    case VeryHappy => "Sehr glücklich"
    case Happy => "Glücklich"
    case Neutral => "Neutral"
    case Sad => "Traurig"
    case VerySad => "Sehr traurig"
    case Anxious => "Ängstlich"
    case Stressed => "Gestresst"
    case Calm => "Ruhig"
    case Energetic => "Energiegeladen"
    case Tired => "Müde"
  }

  /** The fixed score of a mood used for charts and averages. */
  function NumericValue(m: MoodType): (v: real)
    ensures v in {1.0, 3.0, 4.0, 5.0, 7.0, 9.0}
    ensures 1.0 <= v <= 9.0
    ensures v == 9.0 <==> m == VeryHappy || m == Energetic
    ensures v == 7.0 <==> m == Happy || m == Calm
    ensures v == 5.0 <==> m == Neutral
  {
    match m
    case VeryHappy | Energetic => 9.0
    case Happy | Calm => 7.0
    case Neutral => 5.0
    case Tired => 4.0
    case Sad | Anxious => 3.0
    case VerySad | Stressed => 1.0
  }

  /** `min(max(intensity, 1), 10)`: the intensity a new mood entry stores. */
  function ClampIntensity(intensity: int): (r: int)
    ensures 1 <= r <= 10
    ensures 1 <= intensity <= 10 ==> r == intensity
    ensures intensity > 10 ==> r == 10
    ensures intensity < 1 ==> r == 1
  {
    var atLeastOne := if intensity < 1 then 1 else intensity;
    if atLeastOne > 10 then 10 else atLeastOne
  }

  /** The notes a mood entry stores for the text typed in: none for empty text. */
  function NotesOrNil(text: string): (r: Option<string>)
    ensures r.None? <==> text == ""
    ensures r.Some? ==> r.value == text
  {
    if text == "" then None else Some(text)
  }

  /** Value snapshot of a mood entry. */
  datatype MoodRecord = MoodRecord(id: int, date: int, mood: MoodType, notes: Option<string>, intensity: int)

  class MoodEntry {
    const id: int
    const date: int
    var moodType: MoodType
    var notes: Option<string>
    var intensity: int
    var triggers: Option<seq<string>>
    var activities: Option<seq<string>>

    /** `MoodEntry(moodType:notes:intensity:)` created at time `now`. */
    constructor (id: int, now: int, moodType: MoodType, notes: Option<string>, intensity: int)
      ensures this.id == id && date == now
      ensures this.moodType == moodType && this.notes == notes
      ensures this.intensity == ClampIntensity(intensity)
      ensures triggers == None && activities == None
    {
      this.id := id;
      this.date := now;
      this.moodType := moodType;
      this.notes := notes;
      this.intensity := ClampIntensity(intensity);
      this.triggers := None;
      this.activities := None;
    }

    function Record(): MoodRecord
      reads this
    {
      MoodRecord(id, date, moodType, notes, intensity)
    }
  }

  /** Snapshots of a sequence of mood entries, in the same order. */
  function MoodRecords(es: seq<MoodEntry>): (rs: seq<MoodRecord>)
    reads es
    ensures |rs| == |es|
    ensures forall i :: 0 <= i < |es| ==> rs[i] == es[i].Record()
  {
    if es == [] then [] else [es[0].Record()] + MoodRecords(es[1..])
  }

  // ---------------------------------------------------------------------------
  // Health data

  /** One metric of a health entry: its value, if any, and its "manually edited" lock. */
  datatype Slot<T> = Slot(value: Option<T>, manual: bool)

  /**
   * `updateX(value, manual:)` on one metric: the value is stored; a manual write
   * sets the lock, an automatic one leaves it as it was, so no write ever clears it.
   */
  function Written<T>(s: Slot<T>, value: T, manual: bool): (r: Slot<T>)
    ensures r.value == Some(value)
    ensures s.manual ==> r.manual
    ensures manual ==> r.manual
    ensures !manual ==> r.manual == s.manual
  {
    Slot(Some(value), s.manual || manual)
  }

  /** Value snapshot of a health entry. */
  datatype HealthRecord = HealthRecord(
    date: int,
    steps: Slot<int>,
    calories: Slot<real>,
    sleep: Slot<real>,
    water: Slot<real>)

  const EmptySlot: Slot<real> := Slot(None, false)

  /** What `HealthDataEntry(date:)` holds: no metric and no lock. */
  function NewHealthRecord(date: int): (r: HealthRecord)
    ensures r.date == date
    ensures r.steps.value.None? && r.calories.value.None? && r.sleep.value.None? && r.water.value.None?
    ensures !r.steps.manual && !r.calories.manual && !r.sleep.manual && !r.water.manual
  {
    HealthRecord(date, Slot(None, false), EmptySlot, EmptySlot, EmptySlot)
  }

  /** The four metrics, for code that treats them alike. */
  datatype MetricKind = Steps | Calories | Sleep | Water

  /** A metric's value as a real number (steps are converted with `Double(_)`). */
  function MetricValue(r: HealthRecord, k: MetricKind): (v: Option<real>)
    ensures k == Steps ==> (v.Some? <==> r.steps.value.Some?)
    ensures k == Steps && v.Some? ==> v.value == r.steps.value.value as real
    ensures k == Calories ==> v == r.calories.value
    ensures k == Sleep ==> v == r.sleep.value
    ensures k == Water ==> v == r.water.value
  {
    match k
    case Steps => (match r.steps.value case Some(n) => Some(n as real) case None => None)
    case Calories => r.calories.value
    case Sleep => r.sleep.value
    case Water => r.water.value
  }

  class HealthDataEntry {
    const id: int
    const date: int
    var steps: Option<int>
    var calories: Option<real>
    var sleepHours: Option<real>
    var waterIntake: Option<real>
    var stepsManuallyEdited: bool
    var caloriesManuallyEdited: bool
    var sleepManuallyEdited: bool
    var waterManuallyEdited: bool

    /** `HealthDataEntry(date:)`: every metric absent, every lock open. */
    constructor (id: int, date: int)
      ensures this.id == id
      ensures Record() == NewHealthRecord(date)
    {
      this.id := id;
      this.date := date;
      steps, calories, sleepHours, waterIntake := None, None, None, None;
      stepsManuallyEdited, caloriesManuallyEdited := false, false;
      sleepManuallyEdited, waterManuallyEdited := false, false;
    }

    function Record(): HealthRecord
      reads this
    {
      HealthRecord(date,
        Slot(steps, stepsManuallyEdited),
        Slot(calories, caloriesManuallyEdited),
        Slot(sleepHours, sleepManuallyEdited),
        Slot(waterIntake, waterManuallyEdited))
    }

    // Each update writes its own metric as `Written` says and leaves the other
    // three metrics and locks exactly as they were.

    method UpdateSteps(value: int, manual: bool)
      modifies this
      ensures Record() == old(Record()).(steps := Written(old(Record()).steps, value, manual))
    {
      steps := Some(value);
      if manual {
        stepsManuallyEdited := true;
      }
    }

    method UpdateCalories(value: real, manual: bool)
      modifies this
      ensures Record() == old(Record()).(calories := Written(old(Record()).calories, value, manual))
    {
      calories := Some(value);
      if manual {
        caloriesManuallyEdited := true;
      }
    }

    method UpdateSleep(hours: real, manual: bool)
      modifies this
      ensures Record() == old(Record()).(sleep := Written(old(Record()).sleep, hours, manual))
    {
      sleepHours := Some(hours);
      if manual {
        sleepManuallyEdited := true;
      }
    }

    method UpdateWater(liters: real, manual: bool)
      modifies this
      ensures Record() == old(Record()).(water := Written(old(Record()).water, liters, manual))
    {
      waterIntake := Some(liters);
      if manual {
        waterManuallyEdited := true;
      }
    }
  }

  /** Snapshots of a sequence of health entries, in the same order. */
  function HealthRecords(es: seq<HealthDataEntry>): (rs: seq<HealthRecord>)
    reads es
    ensures |rs| == |es|
    ensures forall i :: 0 <= i < |es| ==> rs[i] == es[i].Record()
  {
    if es == [] then [] else [es[0].Record()] + HealthRecords(es[1..])
  }

  // ---------------------------------------------------------------------------
  // Users and settings

  class User {
    const id: int
    var email: string
    var name: string
    var age: Option<int>
    var weight: Option<real>
    var height: Option<real>
    var gender: Option<string>
    const createdAt: int
    var updatedAt: int
    var moodEntries: seq<MoodEntry>
    var healthEntries: seq<HealthDataEntry>

    /** `User(email:name:)` created at time `now`: no profile data and no entries yet. */
    constructor (id: int, email: string, name: string, now: int)
      ensures this.id == id && this.email == email && this.name == name
      ensures age == None && weight == None && height == None && gender == None
      ensures createdAt == now && updatedAt == now
      ensures moodEntries == [] && healthEntries == []
    {
      this.id := id;
      this.email := email;
      this.name := name;
      age, weight, height, gender := None, None, None, None;
      createdAt := now;
      updatedAt := now;
      moodEntries := [];
      healthEntries := [];
    }

    method UpdateTimestamp(now: int)
      modifies this`updatedAt
      ensures updatedAt == now
    {
      updatedAt := now;
    }
  }

  datatype TimeOfDay = TimeOfDay(hour: int, minute: int)

  class AppSettings {
    const id: int
    var notificationsEnabled: bool
    var dailyReminderTime: Option<TimeOfDay>
    var preferredLanguage: string
    var autoSyncHealthData: bool
    var lastHealthSync: Option<int>

    /** `AppSettings()`: notifications and auto-sync on, German, daily reminder at 20:00. */
    constructor (id: int)
      ensures this.id == id
      ensures notificationsEnabled && autoSyncHealthData
      ensures preferredLanguage == "de"
      ensures dailyReminderTime == Some(TimeOfDay(20, 0))
      ensures lastHealthSync == None
    {
      this.id := id;
      notificationsEnabled := true;
      preferredLanguage := "de";
      autoSyncHealthData := true;
      dailyReminderTime := Some(TimeOfDay(20, 0));
      lastHealthSync := None;
    }
  }
}
