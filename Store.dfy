/**
 * The SwiftData model context, abstracted as in-memory collections of the
 * four record kinds. Fetches are queries over these collections; a fetch is
 * not restricted to one user, just as the application's fetch descriptors
 * are not. `save()` is not a separate state: inserted and deleted records are
 * visible at once, and a save failure is an input of the operations that save.
 */
module Persistence {
  import opened Basics
  import opened Models

  /** Start of the calendar day that contains `now` (days are SecondsPerDay long). */
  function StartOfDay(now: int): (d: int)
    ensures d <= now < d + SecondsPerDay
    ensures d % SecondsPerDay == 0
  {
    now - now % SecondsPerDay
  }

  /** The start of a window of `days` days that ends at `end`. */
  function WindowStart(end: int, days: int): int
  {
    end - days * SecondsPerDay
  }

  function MoodDate(e: MoodEntry): int { e.date }
  function NewestFirst(e: MoodEntry): int { -e.date }
  function HealthDate(e: HealthDataEntry): int { e.date }

  /** Entries dated within the day that starts at `today`: `date >= today && date < tomorrow`. */
  function HealthOnDay(es: seq<HealthDataEntry>, today: int): (r: seq<HealthDataEntry>)
    ensures forall i :: 0 <= i < |r| ==> r[i] in es && today <= r[i].date < today + SecondsPerDay
    ensures forall i :: 0 <= i < |es| && today <= es[i].date < today + SecondsPerDay ==> es[i] in r
  {
    Filter(es, (e: HealthDataEntry) => today <= e.date < today + SecondsPerDay)
  }

  function MoodOnDay(es: seq<MoodEntry>, today: int): (r: seq<MoodEntry>)
    ensures forall i :: 0 <= i < |r| ==> r[i] in es && today <= r[i].date < today + SecondsPerDay
    ensures forall i :: 0 <= i < |es| && today <= es[i].date < today + SecondsPerDay ==> es[i] in r
  {
    Filter(es, (e: MoodEntry) => today <= e.date < today + SecondsPerDay)
  }

  /** Entries dated in [start, end], oldest first (`sortBy: date, .forward`). */
  function HealthBetween(es: seq<HealthDataEntry>, start: int, end: int): (r: seq<HealthDataEntry>)
    ensures SortedBy(r, HealthDate)
    ensures forall i :: 0 <= i < |r| ==> r[i] in es && start <= r[i].date <= end
    ensures multiset(r) == multiset(Filter(es, (e: HealthDataEntry) => start <= e.date <= end))
  {
    var inRange := Filter(es, (e: HealthDataEntry) => start <= e.date <= end);
    var r := SortBy(inRange, HealthDate);
    PermutationMembers(r, inRange);
    r
  }

  function MoodBetween(es: seq<MoodEntry>, start: int, end: int): (r: seq<MoodEntry>)
    ensures SortedBy(r, MoodDate)
    ensures forall i :: 0 <= i < |r| ==> r[i] in es && start <= r[i].date <= end
    ensures multiset(r) == multiset(Filter(es, (e: MoodEntry) => start <= e.date <= end))
  {
    var inRange := Filter(es, (e: MoodEntry) => start <= e.date <= end);
    var r := SortBy(inRange, MoodDate);
    PermutationMembers(r, inRange);
    r
  }

  /** The window holds no entry exactly when no stored entry is dated in it. */
  lemma MoodBetweenEmpty(es: seq<MoodEntry>, start: int, end: int)
    ensures MoodBetween(es, start, end) == [] <==> forall i :: 0 <= i < |es| ==> !(start <= es[i].date <= end)
  {
    var p := (e: MoodEntry) => start <= e.date <= end;
    FilterEmpty(es, p);
    assert |MoodBetween(es, start, end)| == |multiset(Filter(es, p))|;
  }

  /** All mood entries, newest first (`sortBy: date, .reverse`). */
  function NewestMoodsFirst(es: seq<MoodEntry>): (r: seq<MoodEntry>)
    ensures multiset(r) == multiset(es)
    ensures forall i, j :: 0 <= i < j < |r| ==> r[i].date >= r[j].date
  {
    var r := SortBy(es, NewestFirst);
    assert forall i, j :: 0 <= i < j < |r| ==> NewestFirst(r[i]) <= NewestFirst(r[j]);
    r
  }

  /** The users whose email is `email`, in store order. */
  function UsersWithEmail(us: seq<User>, email: string): (r: seq<User>)
    reads us
    ensures forall i :: 0 <= i < |r| ==> r[i] in us && r[i].email == email
    ensures forall i :: 0 <= i < |us| && us[i].email == email ==> us[i] in r
  {
    if us == [] then []
    else if us[0].email == email then [us[0]] + UsersWithEmail(us[1..], email)
    else UsersWithEmail(us[1..], email)
  }

  /** No two users share an email: the login key is unique. */
  ghost predicate EmailsUnique(us: seq<User>)
    reads us
  {
    forall i, j :: 0 <= i < j < |us| ==> us[i].email != us[j].email
  }

  /** The store without `x`: what `context.delete(x)` leaves. */
  function Without<T(==)>(s: seq<T>, x: T): (r: seq<T>)
    ensures x !in r
    ensures forall i :: 0 <= i < |s| && s[i] != x ==> s[i] in r
    ensures forall i :: 0 <= i < |r| ==> r[i] in s
  {
    Filter(s, (y: T) => y != x)
  }

  class ModelContext {
    var users: seq<User>
    var moodEntries: seq<MoodEntry>
    var healthEntries: seq<HealthDataEntry>
    var settings: seq<AppSettings>

    constructor ()
      ensures users == [] && moodEntries == [] && healthEntries == [] && settings == []
    {
      users, moodEntries, healthEntries, settings := [], [], [], [];
    }

    method InsertUser(u: User)
      modifies this`users
      ensures users == old(users) + [u]
    {
      users := users + [u];
    }

    method InsertSettings(s: AppSettings)
      modifies this`settings
      ensures settings == old(settings) + [s]
    {
      settings := settings + [s];
    }

    method InsertMood(e: MoodEntry)
      modifies this`moodEntries
      ensures moodEntries == old(moodEntries) + [e]
    {
      moodEntries := moodEntries + [e];
    }

    method InsertHealth(e: HealthDataEntry)
      modifies this`healthEntries
      ensures healthEntries == old(healthEntries) + [e]
    {
      healthEntries := healthEntries + [e];
    }

    method DeleteMood(e: MoodEntry)
      modifies this`moodEntries
      ensures moodEntries == Without(old(moodEntries), e)
    {
      moodEntries := Without(moodEntries, e);
    }
  }
}
