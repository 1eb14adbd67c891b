/** The month calendar of a member's learning progress against the task list of a single day. */
module CalendarProgress {
  import CanonicalText
  import opened DoublePercents
  import opened Percents
  import opened Wrappers

  // ---------- data; days are numbered ----------

  datatype TaskType =
    | DailyDevotion | DailyScripture | DailyVerse
    | WeeklyBook | WeeklyVideo | WeeklyVerse | WeeklyOutline | WeeklyCheckin
    | OtherType(code: nat)

  datatype Week = Week(id: nat, start: nat, end: nat, book: bool, video: bool, verse: bool, outline: bool)

  /* The pages a reading task or record names; none when it names none. */
  datatype Pages = NoPages | Pages(first: nat, last: nat)

  /* `pages` are those of the title or the content. */
  datatype Task = Task(id: nat, taskType: TaskType, title: string, enabled: bool, assets: set<nat>, pages: Pages)

  /* A completed check-in of the member. `assets` are those of the record's task, `asset` the one reported (zero for none). */
  datatype Record = Record(taskType: TaskType, date: nat, taskId: Option<nat>, weekId: Option<nat>, part: string, detail: string,
                           asset: nat, assets: set<nat>, partPages: Pages, detailPages: Pages)

  datatype Repository = Repository(weeks: seq<Week>, tasks: map<nat, seq<Task>>, records: seq<Record>)

  /* A memory-verse plan. A plan that is recited day by day has a task only on some of its days. */
  datatype VersePlan = VersePlan(from: nat, to: nat, weekly: bool, days: set<nat>, ref: string)

  datatype Settings = Settings(devotion: set<nat>, scripture: set<nat>, plans: seq<VersePlan>)

  datatype Progress = Progress(completed: nat, total: nat, percent: nat)

  /* A task of the day; task and week zero mean none. */
  datatype TodayTask = TodayTask(taskType: TaskType, taskId: nat, weekId: nat, part: string, detail: string,
                                 assets: set<nat>, pages: Pages, period: Option<(nat, nat)>)

  function TasksOf(repo: Repository, week: nat): seq<Task> { if week in repo.tasks then repo.tasks[week] else [] }

  // ---------- the records of a period ----------

  /* A video that was watched in another week counts for the week of this period if one of its tasks shows it. */
  predicate Carried(weeks: seq<Week>, tasks: map<nat, seq<Task>>, r: Record, from: nat, to: nat) {
    && r.taskType == WeeklyVideo
    && exists w, t | w in weeks && w.id in tasks && t in tasks[w.id] ::
         w.start == from && w.end == to && t.taskType == WeeklyVideo && t.enabled && t.assets * r.assets != {}
  }

  predicate InPeriod(repo: Repository, r: Record, from: nat, to: nat) {
    from <= r.date <= to || Carried(repo.weeks, repo.tasks, r, from, to)
  }

  function Query(repo: Repository, records: seq<Record>, from: nat, to: nat): seq<Record> {
    if records == [] then []
    else
      Query(repo, records[..|records| - 1], from, to) +
      if InPeriod(repo, records[|records| - 1], from, to) then [records[|records| - 1]] else []
  }

  function OnlyVerses(records: seq<Record>): seq<Record> {
    if records == [] then []
    else
      OnlyVerses(records[..|records| - 1]) +
      if records[|records| - 1].taskType == DailyVerse then [records[|records| - 1]] else []
  }

  function UpTo(records: seq<Record>, day: nat): seq<Record> {
    if records == [] then []
    else UpTo(records[..|records| - 1], day) + if records[|records| - 1].date <= day then [records[|records| - 1]] else []
  }

  function FirstPlan(plans: seq<VersePlan>, day: nat): Option<VersePlan> {
    if plans == [] then None
    else if plans[0].from <= day <= plans[0].to then
      if plans[0].weekly || day in plans[0].days then Some(plans[0]) else None
    else FirstPlan(plans[1..], day)
  }

  /* A plan for a whole week widens the period to all its days. */
  function VerseRange(settings: Settings, day: nat, from: nat, to: nat): (nat, nat) {
    match FirstPlan(settings.plans, day)
    case None => (from, to)
    case Some(plan) =>
      if plan.weekly then (if plan.from < from then plan.from else from, if plan.to > to then plan.to else to) else (from, to)
  }

  /* What the cache stores under a key. */
  datatype Period = Period(from: nat, to: nat, verseFrom: nat, verseTo: nat)

  function Fetched(repo: Repository, p: Period): seq<Record> {
    Query(repo, repo.records, p.from, p.to) +
    if p.verseFrom == p.from && p.verseTo == p.to then [] else OnlyVerses(Query(repo, repo.records, p.verseFrom, p.verseTo))
  }

  function PeriodOf(settings: Settings, day: nat, from: nat, to: nat): Period {
    var verse := VerseRange(settings, day, from, to);
    Period(from, to, verse.0, verse.1)
  }

  // ---------- the tasks of a day ----------

  function DailyTasks(settings: Settings, day: nat): seq<TodayTask> {
    (if day in settings.devotion then [TodayTask(DailyDevotion, 0, 0, [], [], {}, NoPages, None)] else []) +
    (if day in settings.scripture then [TodayTask(DailyScripture, 0, 0, [], [], {}, NoPages, None)] else []) +
    (match FirstPlan(settings.plans, day)
     case None => []
     case Some(plan) =>
       [TodayTask(DailyVerse, 0, 0, [], plan.ref, {}, NoPages, if plan.weekly then Some((plan.from, plan.to)) else None)])
  }

  predicate Shown(week: Week, t: Task) {
    t.enabled &&
    match t.taskType
    case WeeklyBook => week.book
    case WeeklyVideo => week.video
    case WeeklyVerse => week.verse
    case DailyVerse => week.verse
    case WeeklyOutline => week.outline
    case _ => false
  }

  function FallbackTitle(t: TaskType): string {
    match t
    case WeeklyBook => "周读物"
    case WeeklyVideo => "本周视频"
    case DailyVerse => "每日背经"
    case WeeklyVerse => "本周背经"
    case WeeklyOutline => "提纲背诵"
    case _ => "学习任务"
  }

  function TitleOf(t: Task): string {
    var title := CanonicalText.TrimSpace(t.title);
    if title != [] then title else FallbackTitle(t.taskType)
  }

  function WeekTask(week: Week, t: Task): TodayTask {
    TodayTask(t.taskType, t.id, week.id, if t.taskType == WeeklyBook then TitleOf(t) else [], TitleOf(t), t.assets, t.pages, None)
  }

  function WeekTasks(week: Week, raw: seq<Task>): seq<TodayTask> {
    if raw == [] then []
    else
      WeekTasks(week, raw[..|raw| - 1]) + if Shown(week, raw[|raw| - 1]) then [WeekTask(week, raw[|raw| - 1])] else []
  }

  function TodayTasks(repo: Repository, settings: Settings, day: nat, week: Option<Week>): seq<TodayTask> {
    DailyTasks(settings, day) + if week.Some? then WeekTasks(week.value, TasksOf(repo, week.value.id)) else []
  }

  // ---------- completion ----------

  predicate Covers(done: Pages, target: Pages) {
    done.Pages? && target.Pages? && done.first <= target.first && done.last >= target.last
  }

  predicate SameTask(t: TodayTask, r: Record) { t.taskId > 0 && r.taskId == Some(t.taskId) }

  predicate SameWeek(t: TodayTask, r: Record) { t.weekId > 0 && r.weekId == Some(t.weekId) }

  predicate BookRead(t: TodayTask, r: Record) {
    var title := if t.part != [] then t.part else t.detail;
    || SameTask(t, r)
    || (title != [] && (r.part == title || r.detail == title))
    || (SameWeek(t, r) && r.asset > 0 && r.asset in t.assets && (Covers(r.partPages, t.pages) || Covers(r.detailPages, t.pages)))
  }

  /* The record completes the task. */
  predicate Matches(t: TodayTask, r: Record, day: nat) {
    t.taskType == r.taskType &&
    match t.taskType
    case WeeklyBook => BookRead(t, r)
    case WeeklyVideo => SameTask(t, r) || (r.asset > 0 && r.asset in t.assets) || (t.assets == {} && SameWeek(t, r))
    case DailyVerse =>
      && r.weekId.None? && r.taskId.None?
      && (match t.period
          case None => r.date == day
          case Some(period) => period.0 <= r.date <= period.1 && r.detail == t.detail)
    case WeeklyVerse => SameTask(t, r) || SameWeek(t, r)
    case WeeklyOutline => SameTask(t, r) || SameWeek(t, r)
    case WeeklyCheckin => SameTask(t, r) || SameWeek(t, r)
    case _ => r.date == day && (SameTask(t, r) || if t.part != [] then r.part == t.part || r.detail == t.detail else r.part == [])
  }

  predicate Done(t: TodayTask, records: seq<Record>, day: nat) { exists r :: r in records && Matches(t, r, day) }

  function CountDone(tasks: seq<TodayTask>, records: seq<Record>, day: nat): (n: nat)
    ensures n <= |tasks|
  {
    if tasks == [] then 0
    else CountDone(tasks[..|tasks| - 1], records, day) + if Done(tasks[|tasks| - 1], records, day) then 1 else 0
  }

  /* The percentage that the day's list shows. */
  function DayPercent(completed: nat, total: nat): int
    requires completed <= total <= MANY
  {
    if total == 0 then 0 else DoublePercent(completed, total)
  }

  /* The day's list as the program shows it for a single day. */
  function DayCompleted(repo: Repository, settings: Settings, day: nat, week: Option<Week>): nat {
    var p := if week.Some? then PeriodOf(settings, day, week.value.start, week.value.end) else PeriodOf(settings, day, day, day);
    CountDone(TodayTasks(repo, settings, day, week), Fetched(repo, p), day)
  }

  /* The calendar's own period of the day: that of the week, or the month. */
  function CalendarPeriod(settings: Settings, day: nat, week: Option<Week>, start: nat, end: nat): Period {
    if week.Some? then PeriodOf(settings, day, week.value.start, week.value.end) else PeriodOf(settings, day, start, end)
  }

  // ---------- the two computations agree ----------

  /* The repository as it was on that day. */
  function AsOf(repo: Repository, day: nat): Repository { repo.(records := UpTo(repo.records, day)) }

  lemma {:induction false} UpToConcat(a: seq<Record>, b: seq<Record>, day: nat)
    ensures UpTo(a + b, day) == UpTo(a, day) + UpTo(b, day)
  {
    if b == [] {
      assert a + b == a;
    } else {
      assert (a + b)[..|a + b| - 1] == a + b[..|b| - 1];
      UpToConcat(a, b[..|b| - 1], day);
    }
  }

  lemma {:induction false} QueryConcat(repo: Repository, a: seq<Record>, b: seq<Record>, from: nat, to: nat)
    ensures Query(repo, a + b, from, to) == Query(repo, a, from, to) + Query(repo, b, from, to)
  {
    if b == [] {
      assert a + b == a;
    } else {
      assert (a + b)[..|a + b| - 1] == a + b[..|b| - 1];
      QueryConcat(repo, a, b[..|b| - 1], from, to);
    }
  }

  /* Cutting off the later records commutes with the query, ... */
  lemma {:induction false} UpToQuery(repo: Repository, records: seq<Record>, from: nat, to: nat, day: nat)
    ensures UpTo(Query(repo, records, from, to), day) == Query(AsOf(repo, day), UpTo(records, day), from, to)
  {
    if records != [] {
      var init, last := records[..|records| - 1], records[|records| - 1];
      UpToQuery(repo, init, from, to, day);
      var more := if InPeriod(repo, last, from, to) then [last] else [];
      UpToConcat(Query(repo, init, from, to), more, day);
      QueryConcat(AsOf(repo, day), UpTo(init, day), if last.date <= day then [last] else [], from, to);
      assert [last][..0] == [];
    }
  }

  lemma {:induction false} OnlyVersesConcat(a: seq<Record>, b: seq<Record>)
    ensures OnlyVerses(a + b) == OnlyVerses(a) + OnlyVerses(b)
  {
    if b == [] {
      assert a + b == a;
    } else {
      assert (a + b)[..|a + b| - 1] == a + b[..|b| - 1];
      OnlyVersesConcat(a, b[..|b| - 1]);
    }
  }

  /* ... and with keeping only the verses. */
  lemma {:induction false} UpToVerses(records: seq<Record>, day: nat)
    ensures UpTo(OnlyVerses(records), day) == OnlyVerses(UpTo(records, day))
  {
    if records != [] {
      var init, last := records[..|records| - 1], records[|records| - 1];
      UpToVerses(init, day);
      UpToConcat(OnlyVerses(init), if last.taskType == DailyVerse then [last] else [], day);
      OnlyVersesConcat(UpTo(init, day), if last.date <= day then [last] else []);
      assert [last][..0] == [];
    }
  }

  lemma FetchedAsOf(repo: Repository, p: Period, day: nat)
    ensures UpTo(Fetched(repo, p), day) == Fetched(AsOf(repo, day), p)
  {
    UpToQuery(repo, repo.records, p.from, p.to, day);
    var wide := Query(repo, repo.records, p.verseFrom, p.verseTo);
    UpToQuery(repo, repo.records, p.verseFrom, p.verseTo, day);
    UpToVerses(wide, day);
    UpToConcat(Query(repo, repo.records, p.from, p.to),
               if p.verseFrom == p.from && p.verseTo == p.to then [] else OnlyVerses(wide), day);
  }

  lemma {:induction false} InQuery(repo: Repository, records: seq<Record>, from: nat, to: nat, r: Record)
    ensures r in Query(repo, records, from, to) <==> r in records && InPeriod(repo, r, from, to)
  {
    if records != [] {
      InQuery(repo, records[..|records| - 1], from, to, r);
      assert records == records[..|records| - 1] + [records[|records| - 1]];
    }
  }

  lemma {:induction false} InOnlyVerses(records: seq<Record>, r: Record)
    ensures r in OnlyVerses(records) <==> r in records && r.taskType == DailyVerse
  {
    if records != [] {
      InOnlyVerses(records[..|records| - 1], r);
      assert records == records[..|records| - 1] + [records[|records| - 1]];
    }
  }

  lemma InFetched(repo: Repository, p: Period, r: Record)
    ensures r in Fetched(repo, p) <==>
            r in repo.records && (InPeriod(repo, r, p.from, p.to) ||
              (!(p.verseFrom == p.from && p.verseTo == p.to) && InPeriod(repo, r, p.verseFrom, p.verseTo) && r.taskType == DailyVerse))
  {
    InQuery(repo, repo.records, p.from, p.to, r);
    InQuery(repo, repo.records, p.verseFrom, p.verseTo, r);
    InOnlyVerses(Query(repo, repo.records, p.verseFrom, p.verseTo), r);
  }

  lemma {:induction false} FirstPlanCovers(plans: seq<VersePlan>, day: nat)
    ensures FirstPlan(plans, day).Some? ==> FirstPlan(plans, day).value.from <= day <= FirstPlan(plans, day).value.to
  {
    if plans != [] { FirstPlanCovers(plans[1..], day); }
  }

  /* Without a week the month's records and the day's records complete the same tasks. */
  lemma NoWeekSameMatches(repo: Repository, settings: Settings, day: nat, start: nat, end: nat, t: TodayTask, r: Record)
    requires start <= day <= end && t in DailyTasks(settings, day) && Matches(t, r, day)
    ensures r in Fetched(repo, PeriodOf(settings, day, start, end)) <==> r in Fetched(repo, PeriodOf(settings, day, day, day))
  {
    InFetched(repo, PeriodOf(settings, day, start, end), r);
    InFetched(repo, PeriodOf(settings, day, day, day), r);
    FirstPlanCovers(settings.plans, day);
  }

  lemma {:induction false} SameDoneSameCount(tasks: seq<TodayTask>, a: seq<Record>, b: seq<Record>, day: nat)
    requires forall t | t in tasks :: Done(t, a, day) <==> Done(t, b, day)
    ensures CountDone(tasks, a, day) == CountDone(tasks, b, day)
  {
    if tasks != [] {
      SameDoneSameCount(tasks[..|tasks| - 1], a, b, day);
      assert tasks[|tasks| - 1] in tasks;
    }
  }

  lemma NoWeekSameCount(repo: Repository, settings: Settings, day: nat, start: nat, end: nat)
    requires start <= day <= end
    ensures var tasks := TodayTasks(repo, settings, day, None);
            CountDone(tasks, Fetched(repo, PeriodOf(settings, day, start, end)), day) ==
            CountDone(tasks, Fetched(repo, PeriodOf(settings, day, day, day)), day)
  {
    var tasks := TodayTasks(repo, settings, day, None);
    var a, b := Fetched(repo, PeriodOf(settings, day, start, end)), Fetched(repo, PeriodOf(settings, day, day, day));
    forall t | t in tasks ensures Done(t, a, day) <==> Done(t, b, day) {
      if Done(t, a, day) {
        var r :| r in a && Matches(t, r, day);
        NoWeekSameMatches(repo, settings, day, start, end, t, r);
      }
      if Done(t, b, day) {
        var r :| r in b && Matches(t, r, day);
        NoWeekSameMatches(repo, settings, day, start, end, t, r);
      }
    }
    SameDoneSameCount(tasks, a, b, day);
  }

  /* Main result: the records that the calendar has in its cache, cut off at the day, give the count of the day's own list
     computed on what had been recorded by then. */
  lemma CachedCountIsDayCount(repo: Repository, settings: Settings, day: nat, week: Option<Week>, start: nat, end: nat)
    requires start <= day <= end
    ensures CountDone(TodayTasks(repo, settings, day, week),
                      UpTo(Fetched(repo, CalendarPeriod(settings, day, week, start, end)), day), day)
            == DayCompleted(AsOf(repo, day), settings, day, week)
  {
    FetchedAsOf(repo, CalendarPeriod(settings, day, week, start, end), day);
    if week.None? { NoWeekSameCount(AsOf(repo, day), settings, day, start, end); }
  }

  // ---------- what is counted ----------

  /* The tasks that one of these records completes. */
  ghost function Completed(tasks: seq<TodayTask>, records: set<Record>, day: nat): set<nat> {
    set i: nat | i < |tasks| && exists r :: r in records && Matches(tasks[i], r, day)
  }

  /* Counting one by one is the size of that set. */
  lemma {:induction false} CountIsSize(tasks: seq<TodayTask>, records: seq<Record>, day: nat)
    ensures CountDone(tasks, records, day) == |Completed(tasks, (set r | r in records), day)|
  {
    var all := set r | r in records;
    if tasks != [] {
      var init, n := tasks[..|tasks| - 1], |tasks| - 1;
      CountIsSize(init, records, day);
      var before, now := Completed(init, all, day), Completed(tasks, all, day);
      assert forall i: nat | i < n :: init[i] == tasks[i];
      assert Done(tasks[n], records, day) <==> n in now;
      assert now == if n in now then before + {n} else before;
    }
  }

  lemma {:induction false} InUpTo(records: seq<Record>, day: nat, r: Record)
    ensures r in UpTo(records, day) <==> r in records && r.date <= day
  {
    if records != [] {
      InUpTo(records[..|records| - 1], day, r);
      assert records == records[..|records| - 1] + [records[|records| - 1]];
    }
  }

  /* The days whose records the day's list looks at: the week's, or the day itself. */
  function ListDays(day: nat, week: Option<Week>): (nat, nat) {
    if week.Some? then (week.value.start, week.value.end) else (day, day)
  }

  /* The check-ins of the member that count for the day's list: made by then and within the week, or the day if there is
     no week; carried over from another week; or recitations within a plan that reaches further. */
  ghost function Counted(repo: Repository, settings: Settings, day: nat, week: Option<Week>): set<Record> {
    var days := ListDays(day, week);
    var verses := VerseRange(settings, day, days.0, days.1);
    set r | r in repo.records && r.date <= day &&
            (InPeriod(repo, r, days.0, days.1) || (r.taskType == DailyVerse && InPeriod(repo, r, verses.0, verses.1)))
  }

  lemma CountedAreFetched(repo: Repository, settings: Settings, day: nat, week: Option<Week>)
    ensures var days := ListDays(day, week);
            Counted(repo, settings, day, week) == set r | r in Fetched(AsOf(repo, day), PeriodOf(settings, day, days.0, days.1))
  {
    var days := ListDays(day, week);
    forall r ensures r in Counted(repo, settings, day, week) <==>
                     r in Fetched(AsOf(repo, day), PeriodOf(settings, day, days.0, days.1)) {
      InFetched(AsOf(repo, day), PeriodOf(settings, day, days.0, days.1), r);
      InUpTo(repo.records, day, r);
    }
  }

  /* Main result: the day's list counts the tasks that some check-in made by then completes. */
  lemma DayCountIsSize(repo: Repository, settings: Settings, day: nat, week: Option<Week>)
    ensures DayCompleted(AsOf(repo, day), settings, day, week) ==
            |Completed(TodayTasks(repo, settings, day, week), Counted(repo, settings, day, week), day)|
  {
    var days := ListDays(day, week);
    CountedAreFetched(repo, settings, day, week);
    CountIsSize(TodayTasks(repo, settings, day, week), Fetched(AsOf(repo, day), PeriodOf(settings, day, days.0, days.1)), day);
  }

  // ---------- the calendar ----------

  /* A week that covers the day and starts latest. */
  predicate IsCurrent(weeks: seq<Week>, day: nat, w: Week) {
    && w in weeks && w.start <= day <= w.end
    && forall v | v in weeks && v.start <= day <= v.end :: v.start <= w.start
  }

  predicate CurrentIs(weeks: seq<Week>, day: nat, current: Option<Week>) {
    match current
    case Some(w) => IsCurrent(weeks, day, w)
    case None => forall v | v in weeks :: !(v.start <= day <= v.end)
  }

  method CurrentWeek(weeks: seq<Week>, day: nat) returns (current: Option<Week>)
    ensures CurrentIs(weeks, day, current)
  {
    current := None;
    for i := 0 to |weeks|
      invariant CurrentIs(weeks[..i], day, current)
    {
      var week := weeks[i];
      assert weeks[..i + 1] == weeks[..i] + [week];
      if week.start <= day <= week.end && (current.None? || week.start > current.value.start) { current := Some(week); }
    }
    assert weeks[..|weeks|] == weeks;
  }

  method TaskProgress(tasks: seq<TodayTask>, records: seq<Record>, day: nat) returns (p: Progress)
    ensures p.completed == CountDone(tasks, records, day) && p.total == |tasks|
    ensures p.completed == |Completed(tasks, (set r | r in records), day)|
    ensures p.percent == if p.total == 0 then 0 else IntegerPercent(p.completed, p.total)
  {
    var completed := 0;
    for i := 0 to |tasks|
      invariant completed == CountDone(tasks[..i], records, day)
    {
      assert tasks[..i + 1][..i] == tasks[..i];
      if Done(tasks[i], records, day) { completed := completed + 1; }
    }
    assert tasks[..|tasks|] == tasks;
    CountIsSize(tasks, records, day);
    var percent := 0;
    if |tasks| > 0 { percent := IntegerPercent(completed, |tasks|); }
    p := Progress(completed, |tasks|, percent);
  }

  method Visible(records: seq<Record>, day: nat) returns (visible: seq<Record>)
    ensures visible == UpTo(records, day)
    ensures forall r :: r in visible <==> r in records && r.date <= day
  {
    visible := [];
    for i := 0 to |records|
      invariant visible == UpTo(records[..i], day)
    {
      assert records[..i + 1][..i] == records[..i];
      if records[i].date <= day { visible := visible + [records[i]]; }
    }
    assert records[..|records|] == records;
    forall r ensures r in visible <==> r in records && r.date <= day { InUpTo(records, day, r); }
  }

  /* The weeks of the group that overlap the month. */
  method WeeksOfMonth(repo: Repository, start: nat, end: nat) returns (ids: set<nat>)
    ensures forall w | w in repo.weeks && w.start <= end && w.end >= start :: w.id in ids
  {
    ids := {};
    for i := 0 to |repo.weeks|
      invariant forall w | w in repo.weeks[..i] && w.start <= end && w.end >= start :: w.id in ids
    {
      assert repo.weeks[..i + 1] == repo.weeks[..i] + [repo.weeks[i]];
      if repo.weeks[i].start <= end && repo.weeks[i].end >= start { ids := ids + {repo.weeks[i].id}; }
    }
    assert repo.weeks[..|repo.weeks|] == repo.weeks;
  }

  /* The percentage is that of the day's list, but for the inputs on which the list loses one percent. */
  predicate PercentOfDay(entry: Progress) {
    entry.completed <= entry.total <= MANY ==>
      entry.percent == DayPercent(entry.completed, entry.total) +
                       if entry.total > 0 && Misrounded(entry.completed, entry.total) then 1 else 0
  }

  /* The day's entry is what the day's own list says about the records up to that day, in a week that is current then. */
  ghost predicate IsDayEntry(repo: Repository, settings: Settings, day: nat, entry: Progress) {
    exists week: Option<Week> ::
      && CurrentIs(repo.weeks, day, week)
      && entry.completed == DayCompleted(AsOf(repo, day), settings, day, week)
      && entry.completed == |Completed(TodayTasks(repo, settings, day, week), Counted(repo, settings, day, week), day)|
      && entry.total == |TodayTasks(repo, settings, day, week)|
      && PercentOfDay(entry)
  }

  method DayEntry(repo: Repository, settings: Settings, day: nat, current: Option<Week>, raw: seq<Task>, records: seq<Record>,
                  start: nat, end: nat) returns (entry: Progress)
    requires start <= day <= end && CurrentIs(repo.weeks, day, current)
    requires current.Some? ==> raw == TasksOf(repo, current.value.id)
    requires records == Fetched(repo, CalendarPeriod(settings, day, current, start, end))
    ensures IsDayEntry(repo, settings, day, entry)
  {
    var visible := Visible(records, day);
    var tasks := DailyTasks(settings, day);
    if current.Some? { tasks := tasks + WeekTasks(current.value, raw); }
    assert tasks == TodayTasks(repo, settings, day, current);
    entry := TaskProgress(tasks, visible, day);
    if 0 < entry.total <= MANY { PercentsAgreeIff(entry.completed, entry.total); }
    CachedCountIsDayCount(repo, settings, day, current, start, end);
    DayCountIsSize(repo, settings, day, current);
  }

  /* Main result: every entry of the calendar counts as that day's list does, and its percentage is the list's, or one more
     on exactly the inputs on which the list's doubles fall below a half. */
  method Calendar(repo: Repository, settings: Settings, start: nat, end: nat) returns (progress: map<nat, Progress>)
    requires start <= end
    ensures forall day :: day in progress <==> start <= day <= end
    ensures forall day | start <= day <= end :: IsDayEntry(repo, settings, day, progress[day])
  {
    hide Fetched, IsDayEntry, CalendarPeriod;
    var ids := WeeksOfMonth(repo, start, end);
    var byWeek := map id | id in ids :: TasksOf(repo, id);
    var cache: map<Period, seq<Record>> := map[];
    progress := map[];
    for day := start to end + 1
      invariant forall d :: d in progress <==> start <= d < day
      invariant forall d | start <= d < day :: IsDayEntry(repo, settings, d, progress[d])
      invariant forall p | p in cache :: cache[p] == Fetched(repo, p)
    {
      var current := CurrentWeek(repo.weeks, day);
      var period := CalendarPeriod(settings, day, current, start, end);
      if period !in cache { cache := cache[period := Fetched(repo, period)]; }
      var raw := if current.Some? then byWeek[current.value.id] else [];
      var entry := DayEntry(repo, settings, day, current, raw, cache[period], start, end);
      progress := progress[day := entry];
    }
  }
}
