/**
 * The mood view-model (src/ViewModels/MoodViewModel.swift): today's mood
 * entry loaded, saved (updated in place or created) and deleted, the recent
 * entries newest first, and the statistics and insights computed over the
 * recent entries.
 *
 * The statistics are functions of the snapshots of `recentMoodEntries` and of
 * the start of their window (`now` minus a number of days).
 */
module MoodViewModel {
  import opened Basics
  import opened Models
  import opened Persistence

  // ---------------------------------------------------------------------------
  // Statistics on values

  /** The entries dated at or after `start`, in order (`filter { $0.date >= startDate }`). */
  function InWindow(rs: seq<MoodRecord>, start: int): (w: seq<MoodRecord>)
    ensures |w| <= |rs|
    ensures forall i :: 0 <= i < |w| ==> w[i] in rs && w[i].date >= start
    ensures forall i :: 0 <= i < |rs| && rs[i].date >= start ==> rs[i] in w
  {
    Filter(rs, (r: MoodRecord) => r.date >= start)
  }

  function Scores(rs: seq<MoodRecord>): (vs: seq<real>)
    ensures |vs| == |rs|
    ensures forall i :: 0 <= i < |rs| ==> vs[i] == NumericValue(rs[i].mood)
  {
    if rs == [] then [] else [NumericValue(rs[0].mood)] + Scores(rs[1..])
  }

  /**
   * `getAverageMoodValue`: 5.0 for an empty window, otherwise the mean score
   * of the window, which lies on the scale [1, 9].
   */
  function AverageMoodValue(rs: seq<MoodRecord>, start: int): (a: real)
    ensures InWindow(rs, start) == [] ==> a == 5.0
    ensures InWindow(rs, start) != [] ==> a == Mean(Scores(InWindow(rs, start)))
    ensures 1.0 <= a <= 9.0
  {
    MeanOr(Scores(InWindow(rs, start)), 5.0, 1.0, 9.0)
  }

  /** The average of a non-empty window, times the window's size, is its total score. */
  lemma {:induction false} AverageTimesCount(rs: seq<MoodRecord>, start: int)
    requires InWindow(rs, start) != []
    ensures Times(AverageMoodValue(rs, start), |InWindow(rs, start)|) == Sum(Scores(InWindow(rs, start)))
  {
    MeanTimesLength(Scores(InWindow(rs, start)), AverageMoodValue(rs, start), |InWindow(rs, start)|);
  }

  /** A window whose entries all have the same mood averages to that mood's score. */
  lemma AverageOfUniformWindow(rs: seq<MoodRecord>, start: int, m: MoodType)
    requires InWindow(rs, start) != []
    requires forall i :: 0 <= i < |InWindow(rs, start)| ==> InWindow(rs, start)[i].mood == m
    ensures AverageMoodValue(rs, start) == NumericValue(m)
  {
    var w := InWindow(rs, start);
    MeanConstant(Scores(w), NumericValue(m));
  }

  /** A happy and a calm entry average to 7.0. */
  lemma HappyAndCalmAverageSeven(a: MoodRecord, b: MoodRecord, start: int)
    requires a.mood == Happy && b.mood == Calm && a.date >= start && b.date >= start
    ensures AverageMoodValue([a, b], start) == 7.0
  {
    var w := InWindow([a, b], start);
    assert a in w;
    forall i | 0 <= i < |w|
      ensures Scores(w)[i] == 7.0
    {
      assert w[i] == a || w[i] == b;
    }
    MeanConstant(Scores(w), 7.0);
  }

  /** How many of the entries have mood `m` (the size of its `Dictionary(grouping:)` group). */
  function MoodCount(rs: seq<MoodRecord>, m: MoodType): (n: nat)
    ensures n <= |rs|
  {
    if rs == [] then 0 else (if rs[0].mood == m then 1 else 0) + MoodCount(rs[1..], m)
  }

  lemma {:induction false} MoodCountPresent(rs: seq<MoodRecord>, i: nat)
    requires i < |rs|
    ensures MoodCount(rs, rs[i].mood) >= 1
  {
    if i > 0 {
      assert rs[1..][i - 1] == rs[i];
      MoodCountPresent(rs[1..], i - 1);
    }
  }

  lemma {:induction false} MoodCountSnoc(rs: seq<MoodRecord>, r: MoodRecord, m: MoodType)
    ensures MoodCount(rs + [r], m) == MoodCount(rs, m) + (if r.mood == m then 1 else 0)
  {
    if rs == [] {
      assert rs + [r] == [r];
      assert [r][1..] == [];
    } else {
      assert (rs + [r])[1..] == rs[1..] + [r];
      MoodCountSnoc(rs[1..], r, m);
    }
  }

  /** The first of `ms` whose count is largest. */
  function MostCommon(ms: seq<MoodType>, rs: seq<MoodRecord>): (m: MoodType)
    requires ms != []
    ensures m in ms
    ensures forall x :: x in ms ==> MoodCount(rs, x) <= MoodCount(rs, m)
  {
    if |ms| == 1 then ms[0]
    else
      var best := MostCommon(ms[1..], rs);
      assert ms == [ms[0]] + ms[1..];
      if MoodCount(rs, ms[0]) >= MoodCount(rs, best) then ms[0] else best
  }

  /**
   * `getMostFrequentMoodLastWeek`: none exactly when the window is empty,
   * otherwise a mood of the window that no other mood outnumbers. Among tied
   * moods the first in declaration order is chosen.
   */
  function MostFrequentMood(rs: seq<MoodRecord>, start: int): (o: Option<MoodType>)
    ensures o.None? <==> InWindow(rs, start) == []
    ensures o.Some? ==> MoodCount(InWindow(rs, start), o.value) >= 1
    ensures o.Some? ==> forall m :: MoodCount(InWindow(rs, start), m) <= MoodCount(InWindow(rs, start), o.value)
  {
    var w := InWindow(rs, start);
    if w == [] then None
    else
      var m := MostCommon(AllMoods, w);
      assert forall x :: MoodCount(w, x) <= MoodCount(w, m) by {
        forall x ensures MoodCount(w, x) <= MoodCount(w, m) {
          assert AllMoods[MoodIndex(x)] == x;
          assert x in AllMoods;
        }
      }
      MoodCountPresent(w, 0);
      Some(m)
  }

  datatype ChartPoint = ChartPoint(date: int, value: real)

  function ChartDate(p: ChartPoint): int { p.date }

  function ToPoints(rs: seq<MoodRecord>): (ps: seq<ChartPoint>)
    ensures |ps| == |rs|
    ensures forall i :: 0 <= i < |rs| ==> ps[i] == ChartPoint(rs[i].date, NumericValue(rs[i].mood))
  {
    if rs == [] then [] else [ChartPoint(rs[0].date, NumericValue(rs[0].mood))] + ToPoints(rs[1..])
  }

  /**
   * `getMoodDataForChart`: one point per entry of the window, holding its date
   * and score, oldest first.
   */
  function MoodChartData(rs: seq<MoodRecord>, start: int): (ps: seq<ChartPoint>)
    ensures SortedBy(ps, ChartDate)
    ensures multiset(ps) == multiset(ToPoints(InWindow(rs, start)))
    ensures forall i :: 0 <= i < |ps| ==> ps[i].date >= start && 1.0 <= ps[i].value <= 9.0
  {
    var points := ToPoints(InWindow(rs, start));
    var ps := SortBy(points, ChartDate);
    ChartPointsInRange(rs, start);
    PermutationMembers(ps, points);
    ps
  }

  /** Every point of the window lies in the window and on the scale [1, 9]. */
  lemma ChartPointsInRange(rs: seq<MoodRecord>, start: int)
    ensures forall p :: p in ToPoints(InWindow(rs, start)) ==> p.date >= start && 1.0 <= p.value <= 9.0
  {
    var ws := InWindow(rs, start);
    var points := ToPoints(ws);
    forall p | p in points
      ensures p.date >= start && 1.0 <= p.value <= 9.0
    {
      var i :| 0 <= i < |points| && points[i] == p;
      assert p == ChartPoint(ws[i].date, NumericValue(ws[i].mood));
    }
  }

  /** Sum of the counts of the moods `ms`. */
  function CountOver(ms: seq<MoodType>, rs: seq<MoodRecord>): nat
  {
    if ms == [] then 0 else MoodCount(rs, ms[0]) + CountOver(ms[1..], rs)
  }

  /** Sum of the values a distribution holds for the moods `ms`. */
  function TotalOver(ms: seq<MoodType>, d: map<MoodType, int>): int
  {
    if ms == [] then 0 else (if ms[0] in d then d[ms[0]] else 0) + TotalOver(ms[1..], d)
  }

  function Occurrences(ms: seq<MoodType>, m: MoodType): nat
  {
    if ms == [] then 0 else (if ms[0] == m then 1 else 0) + Occurrences(ms[1..], m)
  }

  lemma {:induction false} OccursNot(ms: seq<MoodType>, m: MoodType)
    requires m !in ms
    ensures Occurrences(ms, m) == 0
  {
    if ms != [] {
      OccursNot(ms[1..], m);
    }
  }

  lemma {:induction false} OccursOnceIn(ms: seq<MoodType>, i: nat)
    requires i < |ms|
    requires forall j :: 0 <= j < |ms| && ms[j] == ms[i] ==> j == i
    ensures Occurrences(ms, ms[i]) == 1
  {
    if i == 0 {
      assert forall j :: 0 <= j < |ms[1..]| ==> ms[1..][j] != ms[0] by {
        forall j | 0 <= j < |ms[1..]| ensures ms[1..][j] != ms[0] {
          assert ms[1..][j] == ms[j + 1];
        }
      }
      OccursNot(ms[1..], ms[0]);
    } else {
      assert ms[0] != ms[i];
      assert ms[1..][i - 1] == ms[i];
      forall j | 0 <= j < |ms[1..]| && ms[1..][j] == ms[i] ensures j == i - 1 {
        assert ms[j + 1] == ms[i];
      }
      OccursOnceIn(ms[1..], i - 1);
    }
  }

  /** Each mood occurs exactly once in `AllMoods`. */
  lemma OccursOnce(m: MoodType)
    ensures Occurrences(AllMoods, m) == 1
  {
    OccursOnceIn(AllMoods, MoodIndex(m));
  }

  lemma {:induction false} CountOverEmpty(ms: seq<MoodType>)
    ensures CountOver(ms, []) == 0
  {
    if ms != [] {
      CountOverEmpty(ms[1..]);
    }
  }

  lemma {:induction false} CountOverCons(ms: seq<MoodType>, r: MoodRecord, rs: seq<MoodRecord>)
    ensures CountOver(ms, [r] + rs) == Occurrences(ms, r.mood) + CountOver(ms, rs)
  {
    assert ([r] + rs)[1..] == rs;
    if ms != [] {
      CountOverCons(ms[1..], r, rs);
    }
  }

  /** Every entry has exactly one mood, so the counts of all moods add up to the number of entries. */
  lemma {:induction false} CountsAddUp(rs: seq<MoodRecord>)
    ensures CountOver(AllMoods, rs) == |rs|
  {
    if rs == [] {
      CountOverEmpty(AllMoods);
    } else {
      assert rs == [rs[0]] + rs[1..];
      CountOverCons(AllMoods, rs[0], rs[1..]);
      OccursOnce(rs[0].mood);
      CountsAddUp(rs[1..]);
    }
  }

  /** A distribution that holds each mood's count (or nothing for count zero) totals the counts. */
  lemma {:induction false} TotalOfCounts(ms: seq<MoodType>, d: map<MoodType, int>, rs: seq<MoodRecord>)
    requires forall m :: m in d ==> d[m] == MoodCount(rs, m)
    requires forall m :: m !in d ==> MoodCount(rs, m) == 0
    ensures TotalOver(ms, d) == CountOver(ms, rs)
  {
    if ms != [] {
      TotalOfCounts(ms[1..], d, rs);
    }
  }

  /** `d` holds, for each mood that occurs in `rs`, its number of entries, and no other key. */
  ghost predicate IsDistribution(d: map<MoodType, int>, rs: seq<MoodRecord>)
  {
    && (forall m :: m in d <==> MoodCount(rs, m) > 0)
    && (forall m :: m in d ==> d[m] == MoodCount(rs, m))
  }

  /** Counting one more entry keeps a distribution exact. */
  lemma DistributionStep(d: map<MoodType, int>, rs: seq<MoodRecord>, r: MoodRecord)
    requires IsDistribution(d, rs)
    ensures IsDistribution(d[r.mood := (if r.mood in d then d[r.mood] else 0) + 1], rs + [r])
  {
    var e := d[r.mood := (if r.mood in d then d[r.mood] else 0) + 1];
    forall m
      ensures m in e <==> MoodCount(rs + [r], m) > 0
      ensures m in e ==> e[m] == MoodCount(rs + [r], m)
    {
      MoodCountSnoc(rs, r, m);
      if m != r.mood {
        assert m in e <==> m in d;
      }
    }
  }

  /** An exact distribution has positive counts that add up to the number of entries. */
  lemma DistributionTotal(d: map<MoodType, int>, rs: seq<MoodRecord>)
    requires IsDistribution(d, rs)
    ensures forall m :: m in d ==> d[m] >= 1
    ensures TotalOver(AllMoods, d) == |rs|
  {
    TotalOfCounts(AllMoods, d, rs);
    CountsAddUp(rs);
  }

  // ---------------------------------------------------------------------------
  // Insights

  const PositiveInsight: string := "Deine Stimmung war in der letzten Woche überwiegend positiv!"
  const SupportiveInsight: string :=
    "Du hattest eine herausfordernde Woche. Denke daran, dir Zeit für dich selbst zu nehmen."
  const ConsistencyInsight: string := "Gut gemacht! Du hast regelmäßig deine Stimmung erfasst."
  const MostFrequentPrefix: string := "Am häufigsten fühltest du dich: "

  function MostFrequentInsight(m: MoodType): string
  {
    MostFrequentPrefix + Label(m)
  }

  /** Position of a message's rule in the fixed evaluation order. */
  function RuleOf(s: string): nat
  {
    if s == PositiveInsight || s == SupportiveInsight then 0
    else if s == ConsistencyInsight then 2
    else 1
  }

  lemma InsightsDistinct(m: MoodType)
    ensures MostFrequentInsight(m) != PositiveInsight
    ensures MostFrequentInsight(m) != SupportiveInsight
    ensures MostFrequentInsight(m) != ConsistencyInsight
    ensures RuleOf(MostFrequentInsight(m)) == 1
  {
    assert MostFrequentInsight(m)[0] == 'A';
  }

  /**
   * The messages of `generateInsights` for the week's average score, the
   * week's most frequent mood and whether the first seven recent entries are
   * at least five, in rule order: the positive message when the average is at
   * least 7, else the supportive one when it is at most 4; the most frequent
   * mood when there is one; praise for regular tracking.
   */
  function Insights(avg: real, top: Option<MoodType>, regular: bool): (r: seq<string>)
    ensures PositiveInsight in r <==> avg >= 7.0
    ensures SupportiveInsight in r <==> avg <= 4.0
    ensures !(PositiveInsight in r && SupportiveInsight in r)
    ensures top.Some? ==> MostFrequentInsight(top.value) in r
    ensures top.None? ==> forall i :: 0 <= i < |r| ==> RuleOf(r[i]) != 1
    ensures ConsistencyInsight in r <==> regular
    ensures |r| == (if avg >= 7.0 || avg <= 4.0 then 1 else 0)
                   + (if top.Some? then 1 else 0) + (if regular then 1 else 0)
    ensures |r| <= 3
    ensures forall i, j :: 0 <= i < j < |r| ==> RuleOf(r[i]) < RuleOf(r[j])
  {
    var mood: seq<string> := if avg >= 7.0 then [PositiveInsight]
      else if avg <= 4.0 then [SupportiveInsight]
      else [];
    var frequent: seq<string> := match top
      case Some(m) => (InsightsDistinct(m); [MostFrequentInsight(m)])
      case None => [];
    var praise: seq<string> := if regular then [ConsistencyInsight] else [];
    mood + frequent + praise
  }

  /**
   * The praise rule looks at the first seven recent entries whatever their
   * dates: five entries all older than the week earn the praise and nothing
   * else.
   */
  lemma OldEntriesOnlyEarnPraise(rs: seq<MoodRecord>, start: int)
    requires |rs| >= 5
    requires forall i :: 0 <= i < |rs| ==> rs[i].date < start
    ensures Insights(AverageMoodValue(rs, start), MostFrequentMood(rs, start), |Take(rs, 7)| >= 5)
            == [ConsistencyInsight]
  {
  }

  // ---------------------------------------------------------------------------
  // The view-model

  /** The entries the list shows: `limit` of all stored entries, newest first. */
  function RecentFirst(es: seq<MoodEntry>, limit: nat): (r: seq<MoodEntry>)
    ensures |r| <= limit
    ensures |r| == if |es| < limit then |es| else limit
    ensures r <= NewestMoodsFirst(es)
    ensures forall i, j :: 0 <= i < j < |r| ==> r[i].date >= r[j].date
    ensures forall i :: 0 <= i < |r| ==> r[i] in es
    // every stored entry left out is no newer than every entry listed
    ensures forall i, j :: 0 <= i < |r| <= j < |es| ==> NewestMoodsFirst(es)[j].date <= r[i].date
  {
    var all := NewestMoodsFirst(es);
    var r := Take(all, limit);
    PermutationMembers(all, es);
    r
  }

  /** An entry deleted from the store is not among the recent entries listed afterwards. */
  lemma DeletedNotListed(es: seq<MoodEntry>, entry: MoodEntry, limit: nat)
    ensures entry !in RecentFirst(Without(es, entry), limit)
  {
    var r := RecentFirst(Without(es, entry), limit);
    assert forall i :: 0 <= i < |r| ==> r[i] in Without(es, entry);
  }

  class MoodViewModel {
    var todayMoodEntry: MoodEntry?
    var recentMoodEntries: seq<MoodEntry>
    var isLoading: bool
    var errorMessage: Option<string>
    var selectedMood: MoodType
    var moodIntensity: int
    var moodNotes: string
    var modelContext: ModelContext?
    var currentUser: User?

    constructor (context: ModelContext?, user: User?)
      ensures modelContext == context && currentUser == user
      ensures todayMoodEntry == null && recentMoodEntries == []
      ensures !isLoading && errorMessage == None
      ensures selectedMood == Neutral && moodIntensity == 5 && moodNotes == ""
    {
      modelContext, currentUser := context, user;
      todayMoodEntry := null;
      recentMoodEntries := [];
      isLoading := false;
      errorMessage := None;
      selectedMood, moodIntensity, moodNotes := Neutral, 5, "";
    }

    /**
     * `loadTodayMoodEntry`: the first stored entry dated today becomes today's
     * entry and fills the input fields; with none, today's entry is cleared and
     * the input kept.
     */
    method LoadTodayMoodEntry(now: int)
      modifies this`todayMoodEntry, this`selectedMood, this`moodIntensity, this`moodNotes
      ensures modelContext == null ==>
        todayMoodEntry == old(todayMoodEntry) && selectedMood == old(selectedMood)
        && moodIntensity == old(moodIntensity) && moodNotes == old(moodNotes)
      ensures modelContext != null && MoodOnDay(modelContext.moodEntries, StartOfDay(now)) == [] ==>
        todayMoodEntry == null && selectedMood == old(selectedMood)
        && moodIntensity == old(moodIntensity) && moodNotes == old(moodNotes)
      ensures modelContext != null && MoodOnDay(modelContext.moodEntries, StartOfDay(now)) != [] ==>
        todayMoodEntry == MoodOnDay(modelContext.moodEntries, StartOfDay(now))[0]
        && selectedMood == todayMoodEntry.moodType
        && moodIntensity == todayMoodEntry.intensity
        && moodNotes == OrElse(todayMoodEntry.notes, "")
    {
      var today := StartOfDay(now);
      if modelContext == null {
        return;
      }
      var entries := MoodOnDay(modelContext.moodEntries, today);
      todayMoodEntry := if entries == [] then null else entries[0];
      if entries != [] {
        var entry := entries[0];
        selectedMood := entry.moodType;
        moodIntensity := entry.intensity;
        moodNotes := OrElse(entry.notes, "");
      }
    }

    /** `loadRecentMoodEntries(limit:)`: at most `limit` stored entries, newest first. */
    method LoadRecentMoodEntries(limit: nat)
      modifies this`recentMoodEntries
      ensures modelContext == null ==> recentMoodEntries == old(recentMoodEntries)
      ensures modelContext != null ==> recentMoodEntries == RecentFirst(modelContext.moodEntries, limit)
    {
      if modelContext == null {
        return;
      }
      recentMoodEntries := RecentFirst(modelContext.moodEntries, limit);
    }

    /**
     * `saveMoodEntry`: with today's entry present it is updated in place from
     * the input (the intensity unclamped); otherwise a new entry with clamped
     * intensity is inserted, linked to the user and becomes today's entry.
     * Empty notes are stored as none. A successful save reloads the 30 most
     * recent entries; a failed one reports the error.
     */
    method SaveMoodEntry(now: int, newId: int, saveError: Option<string>)
      modifies this`todayMoodEntry, this`recentMoodEntries, this`isLoading, this`errorMessage
      modifies {todayMoodEntry}`moodType, {todayMoodEntry}`intensity, {todayMoodEntry}`notes
      modifies {modelContext}`moodEntries, {currentUser}`moodEntries
      ensures modelContext == null || currentUser == null ==>
        unchanged(this)
        && (todayMoodEntry != null ==> unchanged(todayMoodEntry))
        && (modelContext != null ==> unchanged(modelContext))
        && (currentUser != null ==> unchanged(currentUser))
      ensures modelContext != null && currentUser != null ==>
        !isLoading
        && todayMoodEntry != null
        && todayMoodEntry.moodType == selectedMood
        && todayMoodEntry.notes == NotesOrNil(moodNotes)
        && (saveError.None? ==>
              errorMessage == None
              && recentMoodEntries == RecentFirst(modelContext.moodEntries, 30))
        && (saveError.Some? ==>
              errorMessage == Some("Fehler beim Speichern: " + saveError.value)
              && recentMoodEntries == old(recentMoodEntries))
      ensures modelContext != null && currentUser != null && old(todayMoodEntry) != null ==>
        todayMoodEntry == old(todayMoodEntry)
        && todayMoodEntry.intensity == moodIntensity
        && modelContext.moodEntries == old(modelContext.moodEntries)
        && currentUser.moodEntries == old(currentUser.moodEntries)
      ensures modelContext != null && currentUser != null && old(todayMoodEntry) == null ==>
        fresh(todayMoodEntry)
        && todayMoodEntry.id == newId && todayMoodEntry.date == now
        && todayMoodEntry.intensity == ClampIntensity(moodIntensity)
        && modelContext.moodEntries == old(modelContext.moodEntries) + [todayMoodEntry]
        && currentUser.moodEntries == old(currentUser.moodEntries) + [todayMoodEntry]
    {
      if modelContext == null || currentUser == null {
        return;
      }
      var context, user := modelContext, currentUser;
      isLoading := true;
      errorMessage := None;
      WriteToday(context, user, now, newId);
      if saveError.Some? {
        errorMessage := Some("Fehler beim Speichern: " + saveError.value);
      } else {
        LoadRecentMoodEntries(30);
      }
      isLoading := false;
    }

    /** Revise today's entry from the input, or create, insert and link a new one. */
    method WriteToday(context: ModelContext, user: User, now: int, newId: int)
      modifies this`todayMoodEntry, context`moodEntries, user`moodEntries
      modifies {todayMoodEntry}`moodType, {todayMoodEntry}`intensity, {todayMoodEntry}`notes
      ensures todayMoodEntry != null
      ensures todayMoodEntry.moodType == selectedMood && todayMoodEntry.notes == NotesOrNil(moodNotes)
      ensures old(todayMoodEntry) != null ==>
        todayMoodEntry == old(todayMoodEntry)
        && todayMoodEntry.intensity == moodIntensity
        && context.moodEntries == old(context.moodEntries)
        && user.moodEntries == old(user.moodEntries)
      ensures old(todayMoodEntry) == null ==>
        fresh(todayMoodEntry)
        && todayMoodEntry.id == newId && todayMoodEntry.date == now
        && todayMoodEntry.intensity == ClampIntensity(moodIntensity)
        && context.moodEntries == old(context.moodEntries) + [todayMoodEntry]
        && user.moodEntries == old(user.moodEntries) + [todayMoodEntry]
    {
      var existing := todayMoodEntry;
      if existing != null {
        Revise(existing);
      } else {
        CreateToday(context, user, now, newId);
      }
    }

    /** Overwrite `entry` with the selected mood, intensity and notes. */
    method Revise(entry: MoodEntry)
      modifies entry`moodType, entry`intensity, entry`notes
      ensures entry.moodType == selectedMood && entry.intensity == moodIntensity
      ensures entry.notes == NotesOrNil(moodNotes)
    {
      entry.moodType := selectedMood;
      entry.intensity := moodIntensity;
      entry.notes := NotesOrNil(moodNotes);
    }

    /** Create today's entry from the input, insert it and link it to `user`. */
    method CreateToday(context: ModelContext, user: User, now: int, newId: int)
      modifies this`todayMoodEntry, context`moodEntries, user`moodEntries
      ensures fresh(todayMoodEntry)
      ensures todayMoodEntry.id == newId && todayMoodEntry.date == now
      ensures todayMoodEntry.moodType == selectedMood && todayMoodEntry.notes == NotesOrNil(moodNotes)
      ensures todayMoodEntry.intensity == ClampIntensity(moodIntensity)
      ensures context.moodEntries == old(context.moodEntries) + [todayMoodEntry]
      ensures user.moodEntries == old(user.moodEntries) + [todayMoodEntry]
    {
      var newEntry := new MoodEntry(newId, now, selectedMood, NotesOrNil(moodNotes), moodIntensity);
      context.InsertMood(newEntry);
      user.moodEntries := user.moodEntries + [newEntry];
      todayMoodEntry := newEntry;
    }

    /** `resetInput`: neutral mood, intensity 5, no notes. */
    method ResetInput()
      modifies this`selectedMood, this`moodIntensity, this`moodNotes
      ensures selectedMood == Neutral && moodIntensity == 5 && moodNotes == ""
    {
      selectedMood := Neutral;
      moodIntensity := 5;
      moodNotes := "";
    }

    /**
     * `deleteMoodEntry`: the entry leaves the store. After a successful save the
     * recent list is reloaded and, if the entry had today's entry's id, today's
     * entry is cleared and the input reset. A failed save only reports.
     */
    method DeleteMoodEntry(entry: MoodEntry, saveError: Option<string>)
      modifies this`recentMoodEntries, this`errorMessage, this`todayMoodEntry
      modifies this`selectedMood, this`moodIntensity, this`moodNotes, {modelContext}`moodEntries
      ensures modelContext == null ==> unchanged(this)
      ensures modelContext != null ==>
        modelContext.moodEntries == Without(old(modelContext.moodEntries), entry)
      ensures modelContext != null && saveError.Some? ==>
        errorMessage == Some("Fehler beim Löschen: " + saveError.value)
        && recentMoodEntries == old(recentMoodEntries)
        && todayMoodEntry == old(todayMoodEntry)
        && selectedMood == old(selectedMood) && moodIntensity == old(moodIntensity)
        && moodNotes == old(moodNotes)
      ensures modelContext != null && saveError.None? ==>
        errorMessage == old(errorMessage)
        && recentMoodEntries == RecentFirst(modelContext.moodEntries, 30)
        && entry !in recentMoodEntries
      ensures modelContext != null && saveError.None? && old(todayMoodEntry) != null
              && entry.id == old(todayMoodEntry).id ==>
        todayMoodEntry == null
        && selectedMood == Neutral && moodIntensity == 5 && moodNotes == ""
      ensures modelContext != null && saveError.None?
              && (old(todayMoodEntry) == null || entry.id != old(todayMoodEntry).id) ==>
        todayMoodEntry == old(todayMoodEntry)
        && selectedMood == old(selectedMood) && moodIntensity == old(moodIntensity)
        && moodNotes == old(moodNotes)
    {
      if modelContext == null {
        return;
      }
      var context := modelContext;
      context.DeleteMood(entry);
      if saveError.Some? {
        errorMessage := Some("Fehler beim Löschen: " + saveError.value);
        return;
      }
      recentMoodEntries := RecentFirst(context.moodEntries, 30);
      DeletedNotListed(old(context.moodEntries), entry, 30);
      ForgetToday(entry.id);
    }

    /** Clear today's entry and reset the input when today's entry has the id `id`. */
    method ForgetToday(id: int)
      modifies this`todayMoodEntry, this`selectedMood, this`moodIntensity, this`moodNotes
      ensures old(todayMoodEntry) != null && id == old(todayMoodEntry).id ==>
        todayMoodEntry == null
        && selectedMood == Neutral && moodIntensity == 5 && moodNotes == ""
      ensures old(todayMoodEntry) == null || id != old(todayMoodEntry).id ==>
        todayMoodEntry == old(todayMoodEntry)
        && selectedMood == old(selectedMood) && moodIntensity == old(moodIntensity)
        && moodNotes == old(moodNotes)
    {
      if todayMoodEntry != null && id == todayMoodEntry.id {
        todayMoodEntry := null;
        ResetInput();
      }
    }

    /**
     * `getMostFrequentMoodLastWeek`, on the loaded recent entries: none exactly
     * when none of them is from the last seven days, otherwise a mood of that
     * week that no other mood outnumbers.
     */
    function MostFrequentMoodLastWeek(now: int): (o: Option<MoodType>)
      reads this, recentMoodEntries
      ensures var w := InWindow(MoodRecords(recentMoodEntries), WindowStart(now, 7));
        && (o.None? <==> w == [])
        && (o.Some? ==> MoodCount(w, o.value) >= 1)
        && (o.Some? ==> forall m :: MoodCount(w, m) <= MoodCount(w, o.value))
    {
      MostFrequentMood(MoodRecords(recentMoodEntries), WindowStart(now, 7))
    }

    /**
     * `getAverageMoodValue(days:)`, on the loaded recent entries: 5.0 when
     * none is from the last `days` days, otherwise their mean score.
     */
    function GetAverageMoodValue(days: int, now: int): (a: real)
      reads this, recentMoodEntries
      ensures InWindow(MoodRecords(recentMoodEntries), WindowStart(now, days)) == [] ==> a == 5.0
      ensures InWindow(MoodRecords(recentMoodEntries), WindowStart(now, days)) != [] ==>
        a == Mean(Scores(InWindow(MoodRecords(recentMoodEntries), WindowStart(now, days))))
      ensures 1.0 <= a <= 9.0
    {
      AverageMoodValue(MoodRecords(recentMoodEntries), WindowStart(now, days))
    }

    /**
     * `getMoodDistribution(days:)`: for every mood of the window its number of
     * entries; moods absent from the window have no key, so every count is at
     * least one, and the counts add up to the size of the window.
     */
    method GetMoodDistribution(days: int, now: int) returns (distribution: map<MoodType, int>)
      ensures IsDistribution(distribution, InWindow(MoodRecords(recentMoodEntries), WindowStart(now, days)))
      ensures forall m :: m in distribution ==> distribution[m] >= 1
      ensures TotalOver(AllMoods, distribution)
              == |InWindow(MoodRecords(recentMoodEntries), WindowStart(now, days))|
    {
      var entries := InWindow(MoodRecords(recentMoodEntries), WindowStart(now, days));
      distribution := map[];
      for i := 0 to |entries|
        invariant IsDistribution(distribution, entries[..i])
      {
        assert entries[..i + 1] == entries[..i] + [entries[i]];
        var mood := entries[i].mood;
        DistributionStep(distribution, entries[..i], entries[i]);
        distribution := distribution[mood := (if mood in distribution then distribution[mood] else 0) + 1];
      }
      assert entries[..|entries|] == entries;
      DistributionTotal(distribution, entries);
    }

    /**
     * `generateInsights`: the messages for the average score and most frequent
     * mood of the last seven days and for the number of the first seven recent
     * entries.
     */
    method GenerateInsights(now: int) returns (insights: seq<string>)
      ensures insights == Insights(GetAverageMoodValue(7, now), MostFrequentMoodLastWeek(now),
                                   |Take(recentMoodEntries, 7)| >= 5)
      ensures recentMoodEntries == [] ==> insights == []
    {
      var avgMood := GetAverageMoodValue(7, now);
      var mostFrequent := MostFrequentMoodLastWeek(now);
      var entries := Take(recentMoodEntries, 7);
      insights := [];
      if avgMood >= 7.0 {
        insights := [PositiveInsight];
      } else if avgMood <= 4.0 {
        insights := [SupportiveInsight];
      }
      if mostFrequent.Some? {
        insights := insights + [MostFrequentInsight(mostFrequent.value)];
      }
      if |entries| >= 5 {
        insights := insights + [ConsistencyInsight];
      }
    }
  }
}
