/** Activity aggregation and streak statistics of the streak calendar
    (src/components/gamification/StreakCalendar.tsx). The clock reading
    `new Date()` is the parameter `today`; dates are day numbers, so the
    date-fns steps `subDays`/`addDays` are `- 1`/`+ 1`. */
module StreakCalendar {
  import opened Types
  import opened Reducer

  datatype DayActivity = DayActivity(
    date: Day,
    count: int,
    expenses: int,
    workouts: int,
    meditations: int,
    journals: int,
    water: int)

  /** The record `ensureDate` creates, and the one the calendar shows for a day without entry. */
  function ZeroActivity(d: Day): DayActivity
  {
    DayActivity(d, 0, 0, 0, 0, 0, 0)
  }

  // ---------------------------------------------------------------------------
  // Reference definition of one date's summary, by counting records

  function ExpensesOn(es: seq<Expense>, d: Day): nat
  {
    if es == [] then 0 else ExpensesOn(es[..|es| - 1], d) + (if es[|es| - 1].date == d then 1 else 0)
  }

  function WorkoutsOn(ws: seq<Workout>, d: Day): nat
  {
    if ws == [] then 0 else WorkoutsOn(ws[..|ws| - 1], d) + (if ws[|ws| - 1].date == d then 1 else 0)
  }

  function MeditationsOn(ms: seq<MeditationSession>, d: Day): nat
  {
    if ms == [] then 0 else MeditationsOn(ms[..|ms| - 1], d) + (if ms[|ms| - 1].date == d then 1 else 0)
  }

  function JournalsOn(js: seq<JournalEntry>, d: Day): nat
  {
    if js == [] then 0 else JournalsOn(js[..|js| - 1], d) + (if js[|js| - 1].date == d then 1 else 0)
  }

  /** Water logs of date d with at least one glass. */
  function WetLogsOn(wl: seq<WaterLog>, d: Day): nat
  {
    if wl == [] then 0 else WetLogsOn(wl[..|wl| - 1], d) + (if wl[|wl| - 1].date == d && wl[|wl| - 1].glasses > 0 then 1 else 0)
  }

  /** The glasses of the last water log of date d (each log overwrites `water`), 0 if none. */
  function LastGlassesOn(wl: seq<WaterLog>, d: Day): int
  {
    if wl == [] then 0
    else if wl[|wl| - 1].date == d then wl[|wl| - 1].glasses
    else LastGlassesOn(wl[..|wl| - 1], d)
  }

  /** The dates that receive an entry: those of expenses, workouts, water logs,
      meditations and journals. Gratitude logs, moods and meals are not read. */
  function ActiveDates(es: seq<Expense>, ws: seq<Workout>, wl: seq<WaterLog>, ms: seq<MeditationSession>, js: seq<JournalEntry>): set<Day>
  {
    (set e | e in es :: e.date) + (set w | w in ws :: w.date) + (set l | l in wl :: l.date)
    + (set m | m in ms :: m.date) + (set j | j in js :: j.date)
  }

  function Summary(d: Day, es: seq<Expense>, ws: seq<Workout>, wl: seq<WaterLog>, ms: seq<MeditationSession>, js: seq<JournalEntry>): DayActivity
  {
    var e, w, m, j := ExpensesOn(es, d), WorkoutsOn(ws, d), MeditationsOn(ms, d), JournalsOn(js, d);
    DayActivity(d, e + w + WetLogsOn(wl, d) + m + j, e, w, m, j, LastGlassesOn(wl, d))
  }

  // ---------------------------------------------------------------------------
  // activityByDate

  /** `acts` is the summary of the given collections: one entry per date
      that occurs in them, holding that date's counts; other dates read as zero. */
  ghost predicate Tallied(acts: map<Day, DayActivity>, es: seq<Expense>, ws: seq<Workout>, wl: seq<WaterLog>,
                          ms: seq<MeditationSession>, js: seq<JournalEntry>)
  {
    && acts.Keys == ActiveDates(es, ws, wl, ms, js)
    && forall d :: DayOrZero(acts, d) == Summary(d, es, ws, wl, ms, js)
  }

  // One record more: how each pass changes one date's summary.

  lemma SummaryAddExpense(d: Day, es: seq<Expense>, e: Expense)
    ensures var a := Summary(d, es, [], [], [], []);
      Summary(d, es + [e], [], [], [], []) ==
        if e.date == d then a.(expenses := a.expenses + 1, count := a.count + 1) else a
  {
    assert (es + [e])[..|es|] == es;
  }

  lemma SummaryAddWorkout(d: Day, es: seq<Expense>, ws: seq<Workout>, w: Workout)
    ensures var a := Summary(d, es, ws, [], [], []);
      Summary(d, es, ws + [w], [], [], []) ==
        if w.date == d then a.(workouts := a.workouts + 1, count := a.count + 1) else a
  {
    assert (ws + [w])[..|ws|] == ws;
  }

  lemma SummaryAddWater(d: Day, es: seq<Expense>, ws: seq<Workout>, wl: seq<WaterLog>, l: WaterLog)
    ensures var a := Summary(d, es, ws, wl, [], []);
      Summary(d, es, ws, wl + [l], [], []) ==
        if l.date == d then a.(water := l.glasses, count := a.count + (if l.glasses > 0 then 1 else 0)) else a
  {
    assert (wl + [l])[..|wl|] == wl;
  }

  lemma SummaryAddMeditation(d: Day, es: seq<Expense>, ws: seq<Workout>, wl: seq<WaterLog>,
                             ms: seq<MeditationSession>, m: MeditationSession)
    ensures var a := Summary(d, es, ws, wl, ms, []);
      Summary(d, es, ws, wl, ms + [m], []) ==
        if m.date == d then a.(meditations := a.meditations + 1, count := a.count + 1) else a
  {
    assert (ms + [m])[..|ms|] == ms;
  }

  lemma SummaryAddJournal(d: Day, es: seq<Expense>, ws: seq<Workout>, wl: seq<WaterLog>,
                          ms: seq<MeditationSession>, js: seq<JournalEntry>, j: JournalEntry)
    ensures var a := Summary(d, es, ws, wl, ms, js);
      Summary(d, es, ws, wl, ms, js + [j]) ==
        if j.date == d then a.(journals := a.journals + 1, count := a.count + 1) else a
  {
    assert (js + [j])[..|js|] == js;
  }

  // One record more: the dates that receive an entry gain that record's date.

  lemma ActiveDatesAddExpense(es: seq<Expense>, e: Expense)
    ensures ActiveDates(es + [e], [], [], [], []) == ActiveDates(es, [], [], [], []) + {e.date}
  {
    assert forall x :: x in es + [e] <==> x in es || x == e;
  }

  lemma ActiveDatesAddWorkout(es: seq<Expense>, ws: seq<Workout>, w: Workout)
    ensures ActiveDates(es, ws + [w], [], [], []) == ActiveDates(es, ws, [], [], []) + {w.date}
  {
    assert forall x :: x in ws + [w] <==> x in ws || x == w;
  }

  lemma ActiveDatesAddWater(es: seq<Expense>, ws: seq<Workout>, wl: seq<WaterLog>, l: WaterLog)
    ensures ActiveDates(es, ws, wl + [l], [], []) == ActiveDates(es, ws, wl, [], []) + {l.date}
  {
    assert forall x :: x in wl + [l] <==> x in wl || x == l;
  }

  lemma ActiveDatesAddMeditation(es: seq<Expense>, ws: seq<Workout>, wl: seq<WaterLog>,
                                 ms: seq<MeditationSession>, m: MeditationSession)
    ensures ActiveDates(es, ws, wl, ms + [m], []) == ActiveDates(es, ws, wl, ms, []) + {m.date}
  {
    assert forall x :: x in ms + [m] <==> x in ms || x == m;
  }

  lemma ActiveDatesAddJournal(es: seq<Expense>, ws: seq<Workout>, wl: seq<WaterLog>,
                              ms: seq<MeditationSession>, js: seq<JournalEntry>, j: JournalEntry)
    ensures ActiveDates(es, ws, wl, ms, js + [j]) == ActiveDates(es, ws, wl, ms, js) + {j.date}
  {
    assert forall x :: x in js + [j] <==> x in js || x == j;
  }

  // One loop step of each pass, on the whole map: the entry of the record's
  // date is created if missing and updated, and the result is the summary
  // of the collections with that record added.

  lemma TallyExpenseStep(prev: map<Day, DayActivity>, acts: map<Day, DayActivity>, es: seq<Expense>, e: Expense)
    requires Tallied(prev, es, [], [], [], [])
    requires acts == prev[e.date := DayOrZero(prev, e.date).(expenses := DayOrZero(prev, e.date).expenses + 1,
                                                                count := DayOrZero(prev, e.date).count + 1)]
    ensures Tallied(acts, es + [e], [], [], [], [])
  {
    ActiveDatesAddExpense(es, e);
    forall x ensures DayOrZero(acts, x) == Summary(x, es + [e], [], [], [], []) {
      SummaryAddExpense(x, es, e);
    }
  }

  lemma TallyWorkoutStep(prev: map<Day, DayActivity>, acts: map<Day, DayActivity>, es: seq<Expense>, ws: seq<Workout>, w: Workout)
    requires Tallied(prev, es, ws, [], [], [])
    requires acts == prev[w.date := DayOrZero(prev, w.date).(workouts := DayOrZero(prev, w.date).workouts + 1,
                                                                count := DayOrZero(prev, w.date).count + 1)]
    ensures Tallied(acts, es, ws + [w], [], [], [])
  {
    ActiveDatesAddWorkout(es, ws, w);
    forall x ensures DayOrZero(acts, x) == Summary(x, es, ws + [w], [], [], []) {
      SummaryAddWorkout(x, es, ws, w);
    }
  }

  lemma TallyWaterStep(prev: map<Day, DayActivity>, acts: map<Day, DayActivity>, es: seq<Expense>, ws: seq<Workout>,
                       wl: seq<WaterLog>, l: WaterLog)
    requires Tallied(prev, es, ws, wl, [], [])
    requires acts == prev[l.date := DayOrZero(prev, l.date).(water := l.glasses,
                                      count := DayOrZero(prev, l.date).count + (if l.glasses > 0 then 1 else 0))]
    ensures Tallied(acts, es, ws, wl + [l], [], [])
  {
    ActiveDatesAddWater(es, ws, wl, l);
    forall x ensures DayOrZero(acts, x) == Summary(x, es, ws, wl + [l], [], []) {
      SummaryAddWater(x, es, ws, wl, l);
    }
  }

  lemma TallyMeditationStep(prev: map<Day, DayActivity>, acts: map<Day, DayActivity>, es: seq<Expense>, ws: seq<Workout>,
                            wl: seq<WaterLog>, ms: seq<MeditationSession>, m: MeditationSession)
    requires Tallied(prev, es, ws, wl, ms, [])
    requires acts == prev[m.date := DayOrZero(prev, m.date).(meditations := DayOrZero(prev, m.date).meditations + 1,
                                                                count := DayOrZero(prev, m.date).count + 1)]
    ensures Tallied(acts, es, ws, wl, ms + [m], [])
  {
    ActiveDatesAddMeditation(es, ws, wl, ms, m);
    forall x ensures DayOrZero(acts, x) == Summary(x, es, ws, wl, ms + [m], []) {
      SummaryAddMeditation(x, es, ws, wl, ms, m);
    }
  }

  lemma TallyJournalStep(prev: map<Day, DayActivity>, acts: map<Day, DayActivity>, es: seq<Expense>, ws: seq<Workout>,
                         wl: seq<WaterLog>, ms: seq<MeditationSession>, js: seq<JournalEntry>, j: JournalEntry)
    requires Tallied(prev, es, ws, wl, ms, js)
    requires acts == prev[j.date := DayOrZero(prev, j.date).(journals := DayOrZero(prev, j.date).journals + 1,
                                                                count := DayOrZero(prev, j.date).count + 1)]
    ensures Tallied(acts, es, ws, wl, ms, js + [j])
  {
    ActiveDatesAddJournal(es, ws, wl, ms, js, j);
    forall x ensures DayOrZero(acts, x) == Summary(x, es, ws, wl, ms, js + [j]) {
      SummaryAddJournal(x, es, ws, wl, ms, js, j);
    }
  }

  /** One record of a pass, as `ensureDate` followed by the counter updates:
      the summary gains that record. */
  method CountExpense(acts0: map<Day, DayActivity>, es: seq<Expense>, x: Expense) returns (acts: map<Day, DayActivity>)
    requires Tallied(acts0, es, [], [], [], [])
    ensures Tallied(acts, es + [x], [], [], [], [])
  {
    acts := acts0;
    var d := x.date;
    if d !in acts {
      acts := acts[d := ZeroActivity(d)];
    }
    acts := acts[d := acts[d].(expenses := acts[d].expenses + 1, count := acts[d].count + 1)];
    TallyExpenseStep(acts0, acts, es, x);
  }

  method CountWorkout(acts0: map<Day, DayActivity>, es: seq<Expense>, ws: seq<Workout>, x: Workout) returns (acts: map<Day, DayActivity>)
    requires Tallied(acts0, es, ws, [], [], [])
    ensures Tallied(acts, es, ws + [x], [], [], [])
  {
    acts := acts0;
    var d := x.date;
    if d !in acts {
      acts := acts[d := ZeroActivity(d)];
    }
    acts := acts[d := acts[d].(workouts := acts[d].workouts + 1, count := acts[d].count + 1)];
    TallyWorkoutStep(acts0, acts, es, ws, x);
  }

  method CountWater(acts0: map<Day, DayActivity>, es: seq<Expense>, ws: seq<Workout>, wl: seq<WaterLog>, x: WaterLog) returns (acts: map<Day, DayActivity>)
    requires Tallied(acts0, es, ws, wl, [], [])
    ensures Tallied(acts, es, ws, wl + [x], [], [])
  {
    acts := acts0;
    var d := x.date;
    if d !in acts {
      acts := acts[d := ZeroActivity(d)];
    }
    acts := acts[d := acts[d].(water := x.glasses)];
    if x.glasses > 0 {
      acts := acts[d := acts[d].(count := acts[d].count + 1)];
    }
    TallyWaterStep(acts0, acts, es, ws, wl, x);
  }

  method CountMeditation(acts0: map<Day, DayActivity>, es: seq<Expense>, ws: seq<Workout>, wl: seq<WaterLog>, ms: seq<MeditationSession>, x: MeditationSession) returns (acts: map<Day, DayActivity>)
    requires Tallied(acts0, es, ws, wl, ms, [])
    ensures Tallied(acts, es, ws, wl, ms + [x], [])
  {
    acts := acts0;
    var d := x.date;
    if d !in acts {
      acts := acts[d := ZeroActivity(d)];
    }
    acts := acts[d := acts[d].(meditations := acts[d].meditations + 1, count := acts[d].count + 1)];
    TallyMeditationStep(acts0, acts, es, ws, wl, ms, x);
  }

  method CountJournal(acts0: map<Day, DayActivity>, es: seq<Expense>, ws: seq<Workout>, wl: seq<WaterLog>, ms: seq<MeditationSession>, js: seq<JournalEntry>, x: JournalEntry) returns (acts: map<Day, DayActivity>)
    requires Tallied(acts0, es, ws, wl, ms, js)
    ensures Tallied(acts, es, ws, wl, ms, js + [x])
  {
    acts := acts0;
    var d := x.date;
    if d !in acts {
      acts := acts[d := ZeroActivity(d)];
    }
    acts := acts[d := acts[d].(journals := acts[d].journals + 1, count := acts[d].count + 1)];
    TallyJournalStep(acts0, acts, es, ws, wl, ms, js, x);
  }

  /** activityByDate: the per-date summary, built in place one record at a
      time by five passes, over expenses, workouts, water logs, meditations
      and journals in that order. */
  method ActivityByDate(s: AppState) returns (acts: map<Day, DayActivity>)
    ensures acts.Keys == ActiveDates(s.financial.expenses, s.health.workouts, s.health.waterLogs,
                                     s.mindfulness.meditations, s.mindfulness.journals)
    ensures forall d :: DayOrZero(acts, d) == Summary(d, s.financial.expenses, s.health.workouts,
                                                       s.health.waterLogs, s.mindfulness.meditations,
                                                       s.mindfulness.journals)
  {
    var es, ws, wl := s.financial.expenses, s.health.workouts, s.health.waterLogs;
    var ms, js := s.mindfulness.meditations, s.mindfulness.journals;
    acts := TallyExpenses(map[], es);
    acts := TallyWorkouts(acts, es, ws);
    acts := TallyWater(acts, es, ws, wl);
    acts := TallyMeditations(acts, es, ws, wl, ms);
    acts := TallyJournals(acts, es, ws, wl, ms, js);
  }

  /** The expenses pass: one more expense, and one more activity, per expense on its date. */
  method TallyExpenses(acts0: map<Day, DayActivity>, es: seq<Expense>) returns (acts: map<Day, DayActivity>)
    requires acts0 == map[]
    ensures Tallied(acts, es, [], [], [], [])
  {
    acts := acts0;
    var i := 0;
    while i < |es|
      invariant 0 <= i <= |es|
      invariant Tallied(acts, es[..i], [], [], [], [])
    {
      acts := CountExpense(acts, es[..i], es[i]);
      assert es[..i + 1] == es[..i] + [es[i]];
      i := i + 1;
    }
    assert es[..|es|] == es;
  }

  /** The workouts pass. */
  method TallyWorkouts(acts0: map<Day, DayActivity>, es: seq<Expense>, ws: seq<Workout>) returns (acts: map<Day, DayActivity>)
    requires Tallied(acts0, es, [], [], [], [])
    ensures Tallied(acts, es, ws, [], [], [])
  {
    acts := acts0;
    var i := 0;
    while i < |ws|
      invariant 0 <= i <= |ws|
      invariant Tallied(acts, es, ws[..i], [], [], [])
    {
      acts := CountWorkout(acts, es, ws[..i], ws[i]);
      assert ws[..i + 1] == ws[..i] + [ws[i]];
      i := i + 1;
    }
    assert ws[..|ws|] == ws;
  }

  /** The water pass: `water` is overwritten with the log's glasses, and the
      activity count grows only for a log with at least one glass. */
  method TallyWater(acts0: map<Day, DayActivity>, es: seq<Expense>, ws: seq<Workout>, wl: seq<WaterLog>)
    returns (acts: map<Day, DayActivity>)
    requires Tallied(acts0, es, ws, [], [], [])
    ensures Tallied(acts, es, ws, wl, [], [])
  {
    acts := acts0;
    var i := 0;
    while i < |wl|
      invariant 0 <= i <= |wl|
      invariant Tallied(acts, es, ws, wl[..i], [], [])
    {
      acts := CountWater(acts, es, ws, wl[..i], wl[i]);
      assert wl[..i + 1] == wl[..i] + [wl[i]];
      i := i + 1;
    }
    assert wl[..|wl|] == wl;
  }

  /** The meditations pass. */
  method TallyMeditations(acts0: map<Day, DayActivity>, es: seq<Expense>, ws: seq<Workout>, wl: seq<WaterLog>,
                          ms: seq<MeditationSession>) returns (acts: map<Day, DayActivity>)
    requires Tallied(acts0, es, ws, wl, [], [])
    ensures Tallied(acts, es, ws, wl, ms, [])
  {
    acts := acts0;
    var i := 0;
    while i < |ms|
      invariant 0 <= i <= |ms|
      invariant Tallied(acts, es, ws, wl, ms[..i], [])
    {
      acts := CountMeditation(acts, es, ws, wl, ms[..i], ms[i]);
      assert ms[..i + 1] == ms[..i] + [ms[i]];
      i := i + 1;
    }
    assert ms[..|ms|] == ms;
  }

  /** The journals pass. */
  method TallyJournals(acts0: map<Day, DayActivity>, es: seq<Expense>, ws: seq<Workout>, wl: seq<WaterLog>,
                       ms: seq<MeditationSession>, js: seq<JournalEntry>) returns (acts: map<Day, DayActivity>)
    requires Tallied(acts0, es, ws, wl, ms, [])
    ensures Tallied(acts, es, ws, wl, ms, js)
  {
    acts := acts0;
    var i := 0;
    while i < |js|
      invariant 0 <= i <= |js|
      invariant Tallied(acts, es, ws, wl, ms, js[..i])
    {
      acts := CountJournal(acts, es, ws, wl, ms, js[..i], js[i]);
      assert js[..i + 1] == js[..i] + [js[i]];
      i := i + 1;
    }
    assert js[..|js|] == js;
  }

  /** With at most one water log per date, water contributes exactly one to a
      date's count when that date's glasses are positive, and nothing otherwise. */
  lemma {:induction false} WaterContribution(wl: seq<WaterLog>, d: Day)
    requires UniqueWaterDates(wl)
    ensures WetLogsOn(wl, d) == if LastGlassesOn(wl, d) > 0 then 1 else 0
  {
    if wl != [] {
      var n := |wl| - 1;
      assert UniqueWaterDates(wl[..n]);
      WaterContribution(wl[..n], d);
      if wl[n].date == d {
        NoLaterLogOfDate(wl[..n], d);
      }
    }
  }

  lemma {:induction false} NoLaterLogOfDate(wl: seq<WaterLog>, d: Day)
    requires forall k :: 0 <= k < |wl| ==> wl[k].date != d
    ensures WetLogsOn(wl, d) == 0 && LastGlassesOn(wl, d) == 0
  {
    if wl != [] {
      NoLaterLogOfDate(wl[..|wl| - 1], d);
    }
  }

  /** A date's count is its expenses, workouts, meditations and journals plus
      one when its water glasses are positive (one water log per date). */
  lemma CountDecomposition(d: Day, es: seq<Expense>, ws: seq<Workout>, wl: seq<WaterLog>,
                           ms: seq<MeditationSession>, js: seq<JournalEntry>)
    requires UniqueWaterDates(wl)
    ensures var a := Summary(d, es, ws, wl, ms, js);
      a.count == a.expenses + a.workouts + a.meditations + a.journals + (if a.water > 0 then 1 else 0)
  {
    WaterContribution(wl, d);
  }

  /** A water log of zero glasses creates an entry, and so an active day in
      `totalActiveDays`, whose count is 0. */
  lemma ZeroGlassesDay(id: string, d: Day)
    ensures d in ActiveDates([], [], [WaterLog(id, 0, d)], [], [])
    ensures Summary(d, [], [], [WaterLog(id, 0, d)], [], []).count == 0
  {
    var wl := [WaterLog(id, 0, d)];
    assert wl[..0] == [];
    assert WetLogsOn(wl, d) == 0;
  }

  // ---------------------------------------------------------------------------
  // streakStats

  /** A day counts toward a streak when it has an entry with count > 0. */
  predicate Active(acts: map<Day, DayActivity>, d: Day)
  {
    d in acts && acts[d].count > 0
  }

  /** Every day of the half-open range [lo, hi) is active. */
  ghost predicate ActiveBetween(acts: map<Day, DayActivity>, lo: Day, hi: Day)
  {
    forall d :: lo <= d < hi ==> Active(acts, d)
  }

  const MaxDaysToCheck: int := 365

  datatype StreakStats = StreakStats(currentStreak: nat, longestStreak: nat, totalActiveDays: nat)

  /** Some element of a non-empty set. */
  method AnyElement<W>(s: set<W>) returns (x: W)
    requires s != {}
    ensures x in s
  {
    x :| x in s;
  }

  /** The first and last of the sorted keys: their minimum and maximum. */
  method KeyRange(keys: set<Day>) returns (first: Day, last: Day)
    requires keys != {}
    ensures first in keys && last in keys
    ensures forall d :: d in keys ==> first <= d <= last
  {
    var d := AnyElement(keys);
    first, last := d, d;
    var rest := keys - {d};
    while rest != {}
      invariant rest <= keys && first in keys && last in keys
      invariant forall x :: x in keys && x !in rest ==> first <= x <= last
      decreases rest
    {
      var x := AnyElement(rest);
      if x < first { first := x; }
      if x > last { last := x; }
      rest := rest - {x};
    }
  }

  /** The current streak: scanning back from today, today is skipped when it
      is not active, and the scan stops at the first other inactive day or
      after 365 days checked. The streak is the run of active days that ends
      at today (or yesterday, when today is inactive). */
  method CurrentStreak(acts: map<Day, DayActivity>, today: Day) returns (current: nat)
    ensures var skip := if Active(acts, today) then 0 else 1;
      && current + skip <= MaxDaysToCheck
      && ActiveBetween(acts, today - skip - current + 1, today - skip + 1)
      && (current + skip < MaxDaysToCheck ==> !Active(acts, today - skip - current))
  {
    ghost var skip := if Active(acts, today) then 0 else 1;
    current := 0;
    var checkDate := today;
    var daysChecked := 0;
    while daysChecked < MaxDaysToCheck
      invariant 0 <= daysChecked <= MaxDaysToCheck
      invariant checkDate == today - daysChecked
      invariant current == if daysChecked == 0 then 0 else daysChecked - skip
      invariant ActiveBetween(acts, today - skip - current + 1, today - skip + 1)
    {
      if Active(acts, checkDate) {
        current := current + 1;
        checkDate := checkDate - 1;
        daysChecked := daysChecked + 1;
      } else if checkDate == today {
        checkDate := checkDate - 1;
        daysChecked := daysChecked + 1;
      } else {
        break;
      }
    }
  }

  /** The bookkeeping of the longest-streak loop: with `temp` the run counted
      up to day `d`, an active run [lo, d + 1) is no longer than `temp`. */
  lemma RunEndingAtBound(acts: map<Day, DayActivity>, first: Day, d: Day, temp: nat, lo: Day)
    requires first <= lo <= d
    requires ActiveBetween(acts, d + 1 - temp, d + 1)
    requires temp < d - first + 1 ==> !Active(acts, d - temp)
    requires ActiveBetween(acts, lo, d + 1)
    ensures d + 1 - lo <= temp
  {
    if temp < d - first + 1 {
      assert !Active(acts, d - temp);
    }
  }

  /** A non-empty active run starts and ends on dates with an entry. */
  lemma RunWithinKeys(acts: map<Day, DayActivity>, lo: Day, hi: Day)
    ensures ActiveBetween(acts, lo, hi) && lo < hi ==> lo in acts && hi - 1 in acts
  {
    if ActiveBetween(acts, lo, hi) && lo < hi {
      assert Active(acts, lo);
      assert Active(acts, hi - 1);
    }
  }

  /** The longest streak: the longest run of consecutive active days between
      the first and last key, scanned forward; 0 without keys. */
  method LongestStreak(acts: map<Day, DayActivity>) returns (longest: nat)
    ensures forall lo, hi :: ActiveBetween(acts, lo, hi) ==> hi - lo <= longest
    ensures exists lo, hi :: hi - lo == longest && ActiveBetween(acts, lo, hi)
    ensures acts == map[] ==> longest == 0
  {
    longest := 0;
    ghost var runStart: Day := 0;
    if |acts| > 0 {
      var first, last := KeyRange(acts.Keys);
      runStart := first;
      var totalDays := last - first + 1;
      var tempStreak: nat := 0;
      var checkDate := first;
      var i := 0;
      while i < totalDays
        invariant 0 <= i <= totalDays
        invariant checkDate == first + i
        invariant tempStreak <= i && tempStreak <= longest
        invariant ActiveBetween(acts, checkDate - tempStreak, checkDate)
        invariant tempStreak < i ==> !Active(acts, checkDate - 1 - tempStreak)
        invariant ActiveBetween(acts, runStart, runStart + longest)
        invariant forall lo, hi :: first <= lo < hi <= checkDate && ActiveBetween(acts, lo, hi) ==> hi - lo <= longest
      {
        if Active(acts, checkDate) {
          tempStreak := tempStreak + 1;
          if tempStreak > longest {
            longest := tempStreak;
            runStart := checkDate + 1 - tempStreak;
          }
        } else {
          tempStreak := 0;
        }
        forall lo, hi | first <= lo < hi <= checkDate + 1 && ActiveBetween(acts, lo, hi)
          ensures hi - lo <= longest
        {
          if hi == checkDate + 1 {
            RunEndingAtBound(acts, first, checkDate, tempStreak, lo);
          }
        }
        checkDate := checkDate + 1;
        i := i + 1;
      }
    }
    forall lo, hi ensures ActiveBetween(acts, lo, hi) && lo < hi ==> lo in acts && hi - 1 in acts {
      RunWithinKeys(acts, lo, hi);
    }
    assert ActiveBetween(acts, runStart, runStart + longest);
  }

  /** streakStats: current and longest streak, and the number of dates with an entry. */
  method ComputeStreakStats(acts: map<Day, DayActivity>, today: Day) returns (stats: StreakStats)
    ensures var skip := if Active(acts, today) then 0 else 1;
      && stats.currentStreak + skip <= MaxDaysToCheck
      && ActiveBetween(acts, today - skip - stats.currentStreak + 1, today - skip + 1)
      && (stats.currentStreak + skip < MaxDaysToCheck ==> !Active(acts, today - skip - stats.currentStreak))
    ensures forall lo, hi :: ActiveBetween(acts, lo, hi) ==> hi - lo <= stats.longestStreak
    ensures exists lo, hi :: hi - lo == stats.longestStreak && ActiveBetween(acts, lo, hi)
    ensures stats.totalActiveDays == |acts|
  {
    var current := CurrentStreak(acts, today);
    var longest := LongestStreak(acts);
    stats := StreakStats(current, longest, |acts|);
  }

  // ---------------------------------------------------------------------------
  // calendarData

  /** Day of the week, 0 = Sunday; day 0 (1970-01-01) is a Thursday. */
  function Weekday(d: Day): int
  {
    (d + 4) % 7
  }

  /** `startOfWeek` with weeks starting on Sunday. */
  function StartOfWeek(d: Day): (r: Day)
    ensures Weekday(r) == 0 && r <= d < r + 7
  {
    d - Weekday(d)
  }

  /** The entry of a day, or an all-zero record for it. */
  function DayOrZero(acts: map<Day, DayActivity>, d: Day): DayActivity
  {
    if d in acts then acts[d] else ZeroActivity(d)
  }

  /** The week rows from `firstDay` on: `weeks` rows of 7 consecutive days,
      each pushed when its seventh day arrives. */
  method BuildWeeks(acts: map<Day, DayActivity>, firstDay: Day, weeks: int) returns (rows: seq<seq<DayActivity>>)
    ensures |rows| == if weeks > 0 then weeks else 0
    ensures forall w :: 0 <= w < |rows| ==> |rows[w]| == 7
    ensures forall w, k :: 0 <= w < |rows| && 0 <= k < 7 ==> rows[w][k] == DayOrZero(acts, firstDay + 7 * w + k)
  {
    rows := [];
    var currentWeek: seq<DayActivity> := [];
    var i := 0;
    while i < weeks * 7
      invariant weeks > 0 ==> 0 <= i <= weeks * 7
      invariant weeks <= 0 ==> i == 0
      invariant i == 7 * |rows| + |currentWeek| && |currentWeek| < 7
      invariant forall w :: 0 <= w < |rows| ==> |rows[w]| == 7
      invariant forall w, k :: 0 <= w < |rows| && 0 <= k < 7 ==> rows[w][k] == DayOrZero(acts, firstDay + 7 * w + k)
      invariant forall k :: 0 <= k < |currentWeek| ==> currentWeek[k] == DayOrZero(acts, firstDay + 7 * |rows| + k)
    {
      var date := firstDay + i;
      currentWeek := currentWeek + [DayOrZero(acts, date)];
      if |currentWeek| == 7 {
        rows := rows + [currentWeek];
        currentWeek := [];
      }
      i := i + 1;
    }
  }

  /** The first day of the grid as the source computes it: the Sunday on or
      before today - (7 * weeks - 1). */
  function GridStart(today: Day, weeks: int): Day
  {
    StartOfWeek(today - (weeks * 7 - 1))
  }

  /** calendarData as written: `weeks` rows of seven consecutive days from
      GridStart(today, weeks), days without entry shown as all-zero. */
  method CalendarData(acts: map<Day, DayActivity>, today: Day, weeks: int) returns (rows: seq<seq<DayActivity>>)
    ensures |rows| == if weeks > 0 then weeks else 0
    ensures forall w :: 0 <= w < |rows| ==> |rows[w]| == 7
    ensures forall w, k :: 0 <= w < |rows| && 0 <= k < 7 ==>
      rows[w][k] == DayOrZero(acts, GridStart(today, weeks) + 7 * w + k)
  {
    var endDate := today;
    var startDate := endDate - (weeks * 7 - 1);
    var firstDay := StartOfWeek(startDate);
    rows := BuildWeeks(acts, firstDay, weeks);
  }

  /** The grid as written ends on today - Weekday(today + 1): it reaches today
      only when today is a Saturday. */
  lemma GridMissesToday(today: Day, weeks: int)
    requires weeks > 0
    ensures GridStart(today, weeks) + 7 * weeks - 1 == today - Weekday(today + 1)
    ensures GridStart(today, weeks) + 7 * weeks - 1 == today <==> Weekday(today) == 6
  {
    var start := today - (weeks * 7 - 1);
    assert Weekday(start) == Weekday(today + 1) by {
      assert start + 4 == (today + 1 + 4) - 7 * weeks;
    }
  }

  /** A concrete case: on Thursday 1970-01-01 a one-week grid shows
      Sunday 1969-12-21 .. Saturday 1969-12-27 and not today. */
  lemma GridMissesTodayExample()
    ensures GridStart(0, 1) == -11
    ensures GridStart(0, 1) + 6 == -5
  {
  }

  /** The intended grid: the last row is the week that contains today. */
  function GridStartThroughToday(today: Day, weeks: int): Day
  {
    StartOfWeek(today) - 7 * (weeks - 1)
  }

  /** calendarData with the grid ending in the current week. */
  method CalendarDataThroughToday(acts: map<Day, DayActivity>, today: Day, weeks: int) returns (rows: seq<seq<DayActivity>>)
    ensures |rows| == if weeks > 0 then weeks else 0
    ensures forall w :: 0 <= w < |rows| ==> |rows[w]| == 7
    ensures forall w, k :: 0 <= w < |rows| && 0 <= k < 7 ==>
      rows[w][k] == DayOrZero(acts, GridStartThroughToday(today, weeks) + 7 * w + k)
    ensures weeks > 0 ==> rows[weeks - 1][Weekday(today)] == DayOrZero(acts, today)
  {
    rows := BuildWeeks(acts, GridStartThroughToday(today, weeks), weeks);
    if weeks > 0 {
      assert GridStartThroughToday(today, weeks) + 7 * (weeks - 1) + Weekday(today) == today;
    }
  }

  /** The corrected grid starts on a Sunday and its last row holds today. */
  lemma GridThroughTodayShape(today: Day, weeks: int)
    requires weeks > 0
    ensures Weekday(GridStartThroughToday(today, weeks)) == 0
    ensures var last := GridStartThroughToday(today, weeks) + 7 * (weeks - 1);
      last <= today < last + 7
  {
    var s := StartOfWeek(today);
    assert (s - 7 * (weeks - 1) + 4) % 7 == (s + 4) % 7 by {
      assert s - 7 * (weeks - 1) + 4 == (s + 4) - 7 * (weeks - 1);
    }
  }

  /** The grid as written starts on a Sunday, on or before today - (7 * weeks - 1). */
  lemma GridStartShape(today: Day, weeks: int)
    ensures Weekday(GridStart(today, weeks)) == 0
    ensures GridStart(today, weeks) <= today - (7 * weeks - 1) < GridStart(today, weeks) + 7
  {
  }

  // ---------------------------------------------------------------------------
  // getIntensityColor

  /** The five colours: surface, then the streak colour at 30%, 60%, 90% and full. */
  datatype Intensity = Surface | Streak30 | Streak60 | Streak90 | StreakFull

  function IntensityColor(count: int): Intensity
  {
    if count == 0 then Surface
    else if count <= 2 then Streak30
    else if count <= 5 then Streak60
    else if count <= 10 then Streak90
    else StreakFull
  }

  function IntensityRank(i: Intensity): nat
  {
    match i
    case Surface => 0
    case Streak30 => 1
    case Streak60 => 2
    case Streak90 => 3
    case StreakFull => 4
  }

  /** The colour changes between adjacent counts exactly after 0, 2, 5 and
      10; no activity is the surface colour and more than ten is the full
      colour. With IntensityMonotone this fixes the five buckets 0, 1-2,
      3-5, 6-10 and above 10. */
  lemma IntensityBuckets(count: nat)
    ensures IntensityColor(count) != IntensityColor(count + 1)
        <==> count == 0 || count == 2 || count == 5 || count == 10
    ensures IntensityColor(0) == Surface && IntensityColor(11) == StreakFull
    ensures count > 10 ==> IntensityColor(count) == StreakFull
  {
  }

  /** More activity never gives a lighter colour. */
  lemma IntensityMonotone(a: nat, b: nat)
    requires a <= b
    ensures IntensityRank(IntensityColor(a)) <= IntensityRank(IntensityColor(b))
  {
  }
}
