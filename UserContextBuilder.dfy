/**
 * The context summariser (src/Utilities/UserContextBuilder.swift): the
 * profile of a user and the trends of the mood and health entries of the last
 * `daysBack` days, which the chat assistant receives as its context.
 *
 * The prompt text is modelled by its variable parts: the profile values, the
 * last-mood line and the five averages, each either a number or the
 * placeholder the text shows in its place. The fixed lines of the template
 * and the decimal rendering of numbers are not part of this model.
 */
module UserContextBuilder {
  import opened Basics
  import opened Models
  import opened Persistence
  import HV = HealthViewModel
  import MV = MoodViewModel

  // ---------------------------------------------------------------------------
  // Averages

  /** `avg`: none for no values, otherwise their sum divided by their count. */
  function Avg(values: seq<real>): (r: Option<real>)
    ensures r.None? <==> values == []
    ensures r.Some? ==> r.value * |values| as real == Sum(values)
  {
    if values == [] then None
    else
      MeanTimesCount(values);
      Some(Mean(values))
  }

  /** An average of values within [lo, hi] lies within [lo, hi]. */
  lemma AvgWithin(values: seq<real>, lo: real, hi: real)
    requires forall i :: 0 <= i < |values| ==> lo <= values[i] <= hi
    ensures Avg(values).Some? ==> lo <= Avg(values).value <= hi
  {
    if values != [] {
      MeanWithin(values, lo, hi);
    }
  }

  /** The mood average: none without moods, otherwise the mean score, on the scale [1, 9]. */
  function MoodAverage(moods: seq<MoodRecord>): (r: Option<real>)
    ensures r.None? <==> moods == []
    ensures r.Some? ==> r.value * |moods| as real == Sum(MV.Scores(moods))
    ensures r.Some? ==> 1.0 <= r.value <= 9.0
  {
    AvgWithin(MV.Scores(moods), 1.0, 9.0);
    Avg(MV.Scores(moods))
  }

  /** `Double(steps ?? 0)` of every entry, keeping the positive values only. */
  function StepsValues(rs: seq<HealthRecord>): (vs: seq<real>)
    ensures |vs| <= |rs|
    ensures forall i :: 0 <= i < |vs| ==> vs[i] > 0.0
  {
    if rs == [] then []
    else
      var v := OrElse(rs[0].steps.value, 0) as real;
      if v > 0.0 then [v] + StepsValues(rs[1..]) else StepsValues(rs[1..])
  }

  lemma {:induction false} StepsValuesSnoc(rs: seq<HealthRecord>, r: HealthRecord)
    ensures OrElse(r.steps.value, 0) <= 0 ==> StepsValues(rs + [r]) == StepsValues(rs)
    ensures OrElse(r.steps.value, 0) > 0 ==>
      StepsValues(rs + [r]) == StepsValues(rs) + [OrElse(r.steps.value, 0) as real]
  {
    if rs == [] {
      assert [r][1..] == [];
      assert rs + [r] == [r];
    } else {
      assert (rs + [r])[1..] == rs[1..] + [r];
      StepsValuesSnoc(rs[1..], r);
    }
  }

  /** An entry without steps, or with zero steps, leaves the steps average as it was. */
  lemma StepsIgnoreMissing(rs: seq<HealthRecord>, r: HealthRecord)
    requires r.steps.value.None? || r.steps.value == Some(0)
    ensures Avg(StepsValues(rs + [r])) == Avg(StepsValues(rs))
  {
    StepsValuesSnoc(rs, r);
  }

  lemma {:induction false} PresentSnoc(rs: seq<HealthRecord>, r: HealthRecord, k: MetricKind)
    ensures MetricValue(r, k).None? ==> HV.Present(rs + [r], k) == HV.Present(rs, k)
    ensures MetricValue(r, k).Some? ==> HV.Present(rs + [r], k) == HV.Present(rs, k) + [MetricValue(r, k).value]
  {
    if rs == [] {
      assert [r][1..] == [];
      assert rs + [r] == [r];
    } else {
      assert (rs + [r])[1..] == rs[1..] + [r];
      PresentSnoc(rs[1..], r, k);
    }
  }

  /**
   * The sleep, calorie and water averages divide by the number of present
   * values: an entry without the metric changes nothing.
   */
  lemma AveragesSkipMissing(rs: seq<HealthRecord>, r: HealthRecord, k: MetricKind)
    requires MetricValue(r, k).None?
    ensures Avg(HV.Present(rs + [r], k)) == Avg(HV.Present(rs, k))
  {
    PresentSnoc(rs, r, k);
  }

  /**
   * Unlike the weekly average of the health view-model, an entry without a
   * value does not dilute this average: one entry without calories and one
   * with 1000 average to 1000.
   */
  lemma CaloriesAverageOfOneMissing(a: HealthRecord, b: HealthRecord)
    requires a.calories.value.None? && b.calories.value == Some(1000.0)
    ensures Avg(HV.Present([a, b], Calories)) == Some(1000.0)
    ensures HV.WeeklyAverage([a, b], Calories) == 500.0
  {
    assert [a, b][1..] == [b];
    assert [b][1..] == [];
    assert HV.Present([a, b], Calories) == [1000.0];
    assert Sum([1000.0]) == 1000.0 + Sum([]);
  }

  // ---------------------------------------------------------------------------
  // Rendering

  /** Decimal digits of a natural number, most significant first. */
  function Digits(n: nat): (s: string)
    ensures |s| > 0
    ensures forall i :: 0 <= i < |s| ==> '0' <= s[i] <= '9'
  {
    var d := [(48 + n % 10) as char];
    if n < 10 then d else Digits(n / 10) + d
  }

  /** The number a string of decimal digits denotes. */
  function DigitsValue(s: string): nat
    requires forall i :: 0 <= i < |s| ==> '0' <= s[i] <= '9'
  {
    if s == [] then 0 else 10 * DigitsValue(s[..|s| - 1]) + (s[|s| - 1] as int - 48)
  }

  /** `Digits` is read back as the number it was written from. */
  lemma {:induction false} DigitsRoundTrip(n: nat)
    ensures DigitsValue(Digits(n)) == n
  {
    var s := Digits(n);
    if n >= 10 {
      assert s[..|s| - 1] == Digits(n / 10);
      DigitsRoundTrip(n / 10);
    }
  }

  /** String interpolation of an `Int`: its decimal digits, after '-' when negative. */
  function IntToString(n: int): (s: string)
    ensures |s| > 0
    ensures n >= 0 ==> (forall i :: 0 <= i < |s| ==> '0' <= s[i] <= '9') && DigitsValue(s) == n
    ensures n < 0 ==>
      && s[0] == '-'
      && (forall i :: 1 <= i < |s| ==> '0' <= s[i] <= '9')
      && DigitsValue(s[1..]) == -n
  {
    DigitsRoundTrip(if n < 0 then -n else n);
    if n < 0 then "-" + Digits(-n) else Digits(n)
  }

  const NoMoodText: string := "Keine Stimmungseinträge."
  const NotAvailable: string := "n/a"
  const Unknown: string := "unbekannt"

  /** The last-mood line: the mood, then "(Intensität <i>/10)", or the placeholder. */
  function LastMoodText(last: Option<MoodRecord>): (s: string)
    ensures last.None? <==> s == NoMoodText
    ensures last.Some? ==> s == Label(last.value.mood) + " (Intensität " + IntToString(last.value.intensity) + "/10)"
  {
    match last
    case None => NoMoodText
    case Some(m) =>
      assert (Label(m.mood) + " (Intensität " + IntToString(m.intensity) + "/10)") != NoMoodText by {
        var t := Label(m.mood) + " (Intensität " + IntToString(m.intensity) + "/10)";
        assert t[|t| - 1] == ')';
      }
      Label(m.mood) + " (Intensität " + IntToString(m.intensity) + "/10)"
  }

  /** A value of the context: a number, or the text shown in its place. */
  datatype Shown = Number(value: real) | Text(text: string)

  function ShowOr(o: Option<real>, placeholder: string): (s: Shown)
    ensures o.Some? <==> s.Number?
    ensures o.Some? ==> s.value == o.value
    ensures o.None? ==> s == Text(placeholder)
  {
    match o
    case Some(v) => Number(v)
    case None => Text(placeholder)
  }

  /** The variable parts of the context text, in the order it shows them. */
  datatype UserContext = UserContext(
    name: string,
    age: Shown,
    weight: Shown,
    height: Shown,
    lastMood: string,
    daysBack: int,
    mood: Shown,
    steps: Shown,
    calories: Shown,
    sleep: Shown,
    water: Shown)

  /** The fields of a context that show a number or a placeholder. */
  function ShownFields(c: UserContext): seq<Shown>
  {
    [c.age, c.weight, c.height, c.mood, c.steps, c.calories, c.sleep, c.water]
  }

  /** A field is blank when it shows an empty text. */
  predicate Blank(s: Shown)
  {
    s.Text? && s.text == ""
  }

  // ---------------------------------------------------------------------------
  // The summary

  /**
   * The context for a user's profile and the mood and health entries of the
   * window, each oldest first: the last mood is the latest windowed entry, the
   * averages are those described above.
   */
  function Summarize(name: string, age: Option<int>, weight: Option<real>, height: Option<real>,
                     moods: seq<MoodRecord>, health: seq<HealthRecord>, daysBack: int): (c: UserContext)
    ensures c.name == name && c.daysBack == daysBack
    ensures age.None? <==> c.age == Text(Unknown)
    ensures age.Some? ==> c.age == Number(age.value as real)
    ensures c.weight == ShowOr(weight, Unknown) && c.height == ShowOr(height, Unknown)
    ensures c.mood == ShowOr(MoodAverage(moods), NotAvailable)
    ensures c.steps == ShowOr(Avg(StepsValues(health)), NotAvailable)
    ensures c.calories == ShowOr(Avg(HV.Present(health, Calories)), NotAvailable)
    ensures c.sleep == ShowOr(Avg(HV.Present(health, Sleep)), NotAvailable)
    ensures c.water == ShowOr(Avg(HV.Present(health, Water)), NotAvailable)
    ensures c.lastMood == NoMoodText <==> moods == []
    ensures moods != [] ==> c.lastMood == LastMoodText(Some(moods[|moods| - 1]))
  {
    var ageValue := match age case Some(a) => Some(a as real) case None => None;
    UserContext(
      name,
      ShowOr(ageValue, Unknown),
      ShowOr(weight, Unknown),
      ShowOr(height, Unknown),
      LastMoodText(if moods == [] then None else Some(moods[|moods| - 1])),
      daysBack,
      ShowOr(MoodAverage(moods), NotAvailable),
      ShowOr(Avg(StepsValues(health)), NotAvailable),
      ShowOr(Avg(HV.Present(health, Calories)), NotAvailable),
      ShowOr(Avg(HV.Present(health, Sleep)), NotAvailable),
      ShowOr(Avg(HV.Present(health, Water)), NotAvailable))
  }

  /**
   * What the summary shows is readable: the mood average is shown exactly when
   * there are moods and lies on the scale [1, 9], a shown steps average is
   * positive, no field is blank and the last mood is never empty.
   */
  lemma SummaryIsReadable(name: string, age: Option<int>, weight: Option<real>, height: Option<real>,
                          moods: seq<MoodRecord>, health: seq<HealthRecord>, daysBack: int)
    ensures var c := Summarize(name, age, weight, height, moods, health, daysBack);
      && (c.mood.Number? <==> moods != [])
      && (c.mood.Number? ==> 1.0 <= c.mood.value <= 9.0)
      && (c.steps.Number? ==> c.steps.value > 0.0)
      && (forall i :: 0 <= i < |ShownFields(c)| ==> !Blank(ShownFields(c)[i]))
      && c.lastMood != ""
  {
    var c := Summarize(name, age, weight, height, moods, health, daysBack);
    PositiveAverage(StepsValues(health));
    ShownNotBlank(c.age, Unknown);
    ShownNotBlank(c.weight, Unknown);
    ShownNotBlank(c.height, Unknown);
    ShownNotBlank(c.mood, NotAvailable);
    ShownNotBlank(c.steps, NotAvailable);
    ShownNotBlank(c.calories, NotAvailable);
    ShownNotBlank(c.sleep, NotAvailable);
    ShownNotBlank(c.water, NotAvailable);
    assert ShownFields(c) == [c.age, c.weight, c.height, c.mood, c.steps, c.calories, c.sleep, c.water];
  }

  /** A field showing a number, or a non-empty placeholder, is not blank. */
  lemma ShownNotBlank(s: Shown, placeholder: string)
    requires s.Number? || s == Text(placeholder)
    requires placeholder != ""
    ensures !Blank(s)
  {
  }

  /**
   * `buildContext`: reads the user and the entries of the store dated in
   * [end - daysBack days, end], oldest first, and changes nothing.
   */
  function BuildContext(store: ModelContext, user: User, end: int, daysBack: int): (c: UserContext)
    reads store, user, store.moodEntries, store.healthEntries
    ensures c.name == user.name && c.daysBack == daysBack
    ensures c.weight == ShowOr(user.weight, Unknown) && c.height == ShowOr(user.height, Unknown)
    ensures user.age.None? <==> c.age == Text(Unknown)
  {
    var start := WindowStart(end, daysBack);
    var moods := MoodBetween(store.moodEntries, start, end);
    var health := HealthBetween(store.healthEntries, start, end);
    Summarize(user.name, user.age, user.weight, user.height, MoodRecords(moods), HealthRecords(health), daysBack)
  }

  /**
   * The context carries the user's name and the window length, and every
   * field of the template shows a number or a non-empty text.
   */
  lemma ContextIsComplete(store: ModelContext, user: User, end: int, daysBack: int)
    ensures var c := BuildContext(store, user, end, daysBack);
      && c.name == user.name && c.daysBack == daysBack
      && c.lastMood != ""
      && forall i :: 0 <= i < |ShownFields(c)| ==> !Blank(ShownFields(c)[i])
  {
    var start := WindowStart(end, daysBack);
    var records := MoodRecords(MoodBetween(store.moodEntries, start, end));
    var health := HealthRecords(HealthBetween(store.healthEntries, start, end));
    assert BuildContext(store, user, end, daysBack)
      == Summarize(user.name, user.age, user.weight, user.height, records, health, daysBack);
    SummaryIsReadable(user.name, user.age, user.weight, user.height, records, health, daysBack);
  }

  /**
   * The last mood shown is the placeholder exactly when no stored mood entry
   * is dated in the window; otherwise it describes a windowed entry that no
   * windowed entry is newer than.
   */
  lemma LastMoodOfContext(store: ModelContext, user: User, end: int, daysBack: int)
    ensures var c := BuildContext(store, user, end, daysBack);
            var moods := MoodBetween(store.moodEntries, WindowStart(end, daysBack), end);
      && (c.lastMood == NoMoodText <==>
            forall i :: 0 <= i < |store.moodEntries| ==>
              !(WindowStart(end, daysBack) <= store.moodEntries[i].date <= end))
      && (moods != [] ==>
            var last := moods[|moods| - 1];
            && last in store.moodEntries
            && WindowStart(end, daysBack) <= last.date <= end
            && c.lastMood == LastMoodText(Some(last.Record()))
            && forall e :: e in moods ==> e.date <= last.date)
  {
    var start := WindowStart(end, daysBack);
    var moods := MoodBetween(store.moodEntries, start, end);
    var records := MoodRecords(moods);
    var c := BuildContext(store, user, end, daysBack);
    ShownLastMood(store, user, end, daysBack);
    WindowedMoods(store.moodEntries, start, end);
    if moods == [] {
      assert c.lastMood == NoMoodText;
    } else {
      assert c.lastMood == LastMoodText(Some(moods[|moods| - 1].Record()));
    }
  }

  /** The context's last-mood text is that of the last windowed entry, if any. */
  lemma ShownLastMood(store: ModelContext, user: User, end: int, daysBack: int)
    ensures var records := MoodRecords(MoodBetween(store.moodEntries, WindowStart(end, daysBack), end));
      BuildContext(store, user, end, daysBack).lastMood
        == LastMoodText(if records == [] then None else Some(records[|records| - 1]))
  {
    var start := WindowStart(end, daysBack);
    var records := MoodRecords(MoodBetween(store.moodEntries, start, end));
    var health := HealthRecords(HealthBetween(store.healthEntries, start, end));
    assert BuildContext(store, user, end, daysBack)
      == Summarize(user.name, user.age, user.weight, user.height, records, health, daysBack);
  }

  /**
   * The averages shown are those of the window's entries: the mood average of
   * its mood entries, shown exactly when there is one and on the scale
   * [1, 9]; the steps average of the positive step counts; and the calorie,
   * sleep and water averages of the entries that have the metric.
   */
  lemma AveragesOfContext(store: ModelContext, user: User, end: int, daysBack: int)
    ensures var c := BuildContext(store, user, end, daysBack);
            var moods := MoodRecords(MoodBetween(store.moodEntries, WindowStart(end, daysBack), end));
            var health := HealthRecords(HealthBetween(store.healthEntries, WindowStart(end, daysBack), end));
      && c.mood == ShowOr(MoodAverage(moods), NotAvailable)
      && (c.mood.Number? <==> MoodBetween(store.moodEntries, WindowStart(end, daysBack), end) != [])
      && (c.mood.Number? ==> 1.0 <= c.mood.value <= 9.0)
      && c.steps == ShowOr(Avg(StepsValues(health)), NotAvailable)
      && (c.steps.Number? ==> c.steps.value > 0.0)
      && c.calories == ShowOr(Avg(HV.Present(health, Calories)), NotAvailable)
      && c.sleep == ShowOr(Avg(HV.Present(health, Sleep)), NotAvailable)
      && c.water == ShowOr(Avg(HV.Present(health, Water)), NotAvailable)
  {
    var start := WindowStart(end, daysBack);
    var records := MoodRecords(MoodBetween(store.moodEntries, start, end));
    var health := HealthRecords(HealthBetween(store.healthEntries, start, end));
    assert BuildContext(store, user, end, daysBack)
      == Summarize(user.name, user.age, user.weight, user.height, records, health, daysBack);
    SummaryIsReadable(user.name, user.age, user.weight, user.height, records, health, daysBack);
  }

  /** What the mood fetch of the window yields: its records, and its last entry. */
  lemma WindowedMoods(es: seq<MoodEntry>, start: int, end: int)
    ensures var moods := MoodBetween(es, start, end);
      && (MoodRecords(moods) == [] <==> forall i :: 0 <= i < |es| ==> !(start <= es[i].date <= end))
      && (moods != [] ==>
            var last := moods[|moods| - 1];
            && last in es
            && start <= last.date <= end
            && MoodRecords(moods)[|moods| - 1] == last.Record()
            && forall e :: e in moods ==> e.date <= last.date)
  {
    LastIsNewest(MoodBetween(es, start, end));
    MoodBetweenEmpty(es, start, end);
  }

  /** The last of the entries sorted oldest first is dated no earlier than any of them. */
  lemma LastIsNewest(moods: seq<MoodEntry>)
    requires SortedBy(moods, MoodDate)
    ensures moods != [] ==> forall e :: e in moods ==> e.date <= moods[|moods| - 1].date
  {
    forall e | e in moods ensures e.date <= moods[|moods| - 1].date {
      LastIsLatest(moods, MoodDate, e);
    }
  }

  /** An average of positive values is positive. */
  lemma PositiveAverage(values: seq<real>)
    requires forall i :: 0 <= i < |values| ==> values[i] > 0.0
    ensures Avg(values).Some? ==> Avg(values).value > 0.0
  {
    if values != [] {
      PositiveSum(values);
      var n := |values| as real;
      assert Avg(values).value * n == Sum(values);
    }
  }

  lemma {:induction false} PositiveSum(values: seq<real>)
    requires values != []
    requires forall i :: 0 <= i < |values| ==> values[i] > 0.0
    ensures Sum(values) > 0.0
  {
    if |values| > 1 {
      PositiveSum(values[1..]);
    }
  }
}
