/**
 * The logic of the home screen (src/Views/Home/HomeView.swift): the greeting
 * chosen by the hour of the day, today's health metrics with absent values
 * shown as zero, and the recent-activity list capped at five entries.
 */
module HomeView {
  import opened Basics
  import opened Models
  import HV = HealthViewModel
  import MV = MoodViewModel
  import Persistence

  const Morning: string := "Guten Morgen"
  const Afternoon: string := "Guten Tag"
  const Evening: string := "Guten Abend"

  /** `GreetingSection.greeting`: morning before 12, day before 18, evening otherwise. */
  function Greeting(hour: int): (g: string)
    ensures g == Morning <==> 0 <= hour < 12
    ensures g == Afternoon <==> 12 <= hour < 18
    ensures g == Evening <==> hour < 0 || hour >= 18
    ensures g in {Morning, Afternoon, Evening}
  {
    if 0 <= hour < 12 then Morning
    else if 12 <= hour < 18 then Afternoon
    else Evening
  }

  /** The four values the health grid shows. */
  datatype Metrics = Metrics(steps: int, calories: real, sleep: real, water: real)

  /** The health grid of today's entry: each metric's value, or 0 when it is absent (`?? 0`). */
  function ShownMetrics(r: HealthRecord): (m: Metrics)
    ensures r.steps.value.None? ==> m.steps == 0
    ensures r.steps.value.Some? ==> m.steps == r.steps.value.value
    ensures m.calories == OrElse(r.calories.value, 0.0)
    ensures m.sleep == OrElse(r.sleep.value, 0.0)
    ensures m.water == OrElse(r.water.value, 0.0)
  {
    Metrics(OrElse(r.steps.value, 0), OrElse(r.calories.value, 0.0),
            OrElse(r.sleep.value, 0.0), OrElse(r.water.value, 0.0))
  }

  /**
   * After a manual edit the grid shows the edited value, and a later sync
   * does not change what it shows for that metric.
   */
  lemma GridShowsManualValue(r: HealthRecord, steps: int, fetched: HV.HealthSnapshot)
    ensures ShownMetrics(HV.Apply(r, HV.ManualSteps(steps))).steps == steps
    ensures ShownMetrics(HV.ApplyAll(r, [HV.ManualSteps(steps), HV.Sync(fetched)])).steps == steps
  {
    var edits := [HV.ManualSteps(steps), HV.Sync(fetched)];
    var edited := HV.Apply(r, HV.ManualSteps(steps));
    assert edits[1..] == [HV.Sync(fetched)] && edits[1..][1..] == [];
    assert HV.ApplyAll(r, edits) == HV.ApplyAll(edited, edits[1..]);
    assert HV.ApplyAll(edited, edits[1..]) == HV.Merge(edited, fetched);
  }

  const NoEntriesText: string := "Noch keine Einträge vorhanden"

  /** The recent-activity section: a placeholder text, or rows for the leading entries. */
  datatype RecentActivity = Placeholder | Rows(entries: seq<MoodRecord>)

  /** `RecentActivitySection`: the placeholder for no entries, else the first five (`prefix(5)`). */
  function RecentActivityOf(recent: seq<MoodRecord>): (v: RecentActivity)
    ensures v.Placeholder? <==> recent == []
    ensures v.Rows? ==> 1 <= |v.entries| <= 5 && v.entries <= recent
    ensures v.Rows? && |recent| >= 5 ==> |v.entries| == 5
    ensures v.Rows? && |recent| < 5 ==> v.entries == recent
  {
    if recent == [] then Placeholder else Rows(Take(recent, 5))
  }

  lemma {:induction false} TakeOfTake<T>(s: seq<T>, n: nat, m: nat)
    requires m <= n
    ensures Take(Take(s, n), m) == Take(s, m)
  {
  }

  lemma {:induction false} RecordsOfPrefix(es: seq<MoodEntry>, n: nat)
    ensures MoodRecords(Take(es, n)) == Take(MoodRecords(es), n)
  {
    var l := MoodRecords(Take(es, n));
    var r := Take(MoodRecords(es), n);
    assert |l| == |r|;
    forall i | 0 <= i < |l| ensures l[i] == r[i] {
      assert Take(es, n)[i] == es[i];
    }
  }

  /**
   * Once the mood view-model has loaded its 30 most recent entries, the home
   * screen lists the five newest stored entries, or the placeholder when the
   * store has none.
   */
  lemma HomeListsFiveNewest(es: seq<MoodEntry>)
    ensures es == [] ==> RecentActivityOf(MoodRecords(MV.RecentFirst(es, 30))) == Placeholder
    ensures es != [] ==>
      RecentActivityOf(MoodRecords(MV.RecentFirst(es, 30))) == Rows(MoodRecords(MV.RecentFirst(es, 5)))
  {
    var sorted := Persistence.NewestMoodsFirst(es);
    assert |sorted| == |es| by {
      assert |multiset(sorted)| == |multiset(es)|;
    }
    TakeOfTake(sorted, 30, 5);
    RecordsOfPrefix(MV.RecentFirst(es, 30), 5);
  }
}
