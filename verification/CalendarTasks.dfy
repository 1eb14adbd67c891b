/** Which check-ins complete the tasks of a day, told by the check-ins alone. */
module CalendarTasks {
  import CanonicalText
  import opened CalendarProgress
  import opened Wrappers

  /* The week, if there is one, contains the day. */
  predicate InWeek(day: nat, week: Option<Week>) { week.Some? ==> week.value.start <= day <= week.value.end }

  /* The check-in is not tied to a week or a task. */
  predicate Free(r: Record) { r.weekId.None? && r.taskId.None? }

  // ---------- the daily tasks ----------

  /* The first plan that covers the day decides; a plan that is recited day by day has a task on its own days only. */
  lemma {:induction false} FirstPlanMeaning(plans: seq<VersePlan>, day: nat)
    ensures match FirstPlan(plans, day)
            case Some(plan) =>
              exists i :: 0 <= i < |plans| && plans[i] == plan && plan.from <= day <= plan.to && (plan.weekly || day in plan.days)
                          && forall j | 0 <= j < i :: !(plans[j].from <= day <= plans[j].to)
            case None =>
              forall i | 0 <= i < |plans| && plans[i].from <= day <= plans[i].to && (plans[i].weekly || day in plans[i].days) ::
                exists j :: 0 <= j < i && plans[j].from <= day <= plans[j].to
  {
    if plans != [] && !(plans[0].from <= day <= plans[0].to) {
      var rest := plans[1..];
      FirstPlanMeaning(rest, day);
      assert forall i | 0 <= i < |rest| :: rest[i] == plans[i + 1];
      match FirstPlan(rest, day) {
        case Some(plan) =>
          var i :| 0 <= i < |rest| && rest[i] == plan && plan.from <= day <= plan.to && (plan.weekly || day in plan.days)
                   && forall j | 0 <= j < i :: !(rest[j].from <= day <= rest[j].to);
          assert plans[i + 1] == plan;
          forall j | 0 <= j < i + 1 ensures !(plans[j].from <= day <= plans[j].to) {
            if j > 0 { assert plans[j] == rest[j - 1]; }
          }
        case None =>
          forall i | 0 <= i < |plans| && plans[i].from <= day <= plans[i].to && (plans[i].weekly || day in plans[i].days)
            ensures exists j :: 0 <= j < i && plans[j].from <= day <= plans[j].to
          {
            assert i > 0 && rest[i - 1] == plans[i];
            var j :| 0 <= j < i - 1 && rest[j].from <= day <= rest[j].to;
            assert plans[j + 1] == rest[j];
          }
      }
    }
  }

  /* What a check-in has to be to complete a daily task. */
  predicate CompletesDaily(settings: Settings, day: nat, taskType: TaskType, r: Record) {
    && r.taskType == taskType
    && match taskType
       case DailyVerse =>
         var plan := FirstPlan(settings.plans, day);
         plan.Some? && Free(r) &&
         if plan.value.weekly then plan.value.from <= r.date <= day && r.detail == plan.value.ref else r.date == day
       case _ => r.date == day && r.part == []
  }

  lemma DailyMatches(settings: Settings, day: nat, t: TodayTask, r: Record)
    requires t in DailyTasks(settings, day) && r.date <= day
    ensures Matches(t, r, day) <==> CompletesDaily(settings, day, t.taskType, r)
  {
    FirstPlanCovers(settings.plans, day);
  }

  lemma DailyAreCounted(repo: Repository, settings: Settings, day: nat, week: Option<Week>, taskType: TaskType, r: Record)
    requires InWeek(day, week) && r in repo.records && CompletesDaily(settings, day, taskType, r)
    ensures r in Counted(repo, settings, day, week)
  {
    FirstPlanCovers(settings.plans, day);
  }

  /* Main result: a daily task is completed exactly by a check-in of its type on that very day, and one of a plan for a
     whole week by a recitation of its passage between the plan's first day and this one. */
  lemma DailyTaskCompletedIff(repo: Repository, settings: Settings, day: nat, week: Option<Week>, i: nat)
    requires InWeek(day, week) && i < |DailyTasks(settings, day)|
    ensures var tasks := TodayTasks(repo, settings, day, week);
            i in Completed(tasks, Counted(repo, settings, day, week), day) <==>
            exists r :: r in repo.records && CompletesDaily(settings, day, tasks[i].taskType, r)
  {
    hide Matches, Counted, CompletesDaily;
    var tasks, counted := TodayTasks(repo, settings, day, week), Counted(repo, settings, day, week);
    var t := DailyTasks(settings, day)[i];
    assert tasks[i] == t && t in DailyTasks(settings, day);
    if i in Completed(tasks, counted, day) {
      var r :| r in counted && Matches(t, r, day);
      CountedRecord(repo, settings, day, week, r);
      DailyMatches(settings, day, t, r);
    }
    if r :| r in repo.records && CompletesDaily(settings, day, t.taskType, r) {
      DailyAreCounted(repo, settings, day, week, t.taskType, r);
      CountedRecord(repo, settings, day, week, r);
      DailyMatches(settings, day, t, r);
    }
  }

  lemma CountedRecord(repo: Repository, settings: Settings, day: nat, week: Option<Week>, r: Record)
    requires r in Counted(repo, settings, day, week)
    ensures r in repo.records && r.date <= day
  {
  }

  // ---------- the list ----------

  predicate DailyType(t: TaskType) { t.DailyDevotion? || t.DailyScripture? || t.DailyVerse? }

  /* Whether the week's settings show a task. */
  predicate Listed(week: Week, t: Task) {
    && t.enabled
    && ((t.taskType == WeeklyBook && week.book) || (t.taskType == WeeklyVideo && week.video)
        || ((t.taskType == WeeklyVerse || t.taskType == DailyVerse) && week.verse) || (t.taskType == WeeklyOutline && week.outline))
  }

  /* The list starts with the day's devotion, scripture and verse, each exactly if it is set for the day, ... */
  lemma DailyListedIff(settings: Settings, day: nat)
    ensures var tasks := DailyTasks(settings, day);
            && ((exists i :: 0 <= i < |tasks| && tasks[i].taskType == DailyDevotion) <==> day in settings.devotion)
            && ((exists i :: 0 <= i < |tasks| && tasks[i].taskType == DailyScripture) <==> day in settings.scripture)
            && ((exists i :: 0 <= i < |tasks| && tasks[i].taskType == DailyVerse) <==> FirstPlan(settings.plans, day).Some?)
            && (forall i | 0 <= i < |tasks| :: DailyType(tasks[i].taskType))
            && (forall i, j | 0 <= i < j < |tasks| :: tasks[i].taskType != tasks[j].taskType)
  {
    var tasks := DailyTasks(settings, day);
    if day in settings.devotion { assert tasks[0].taskType == DailyDevotion; }
    if day in settings.scripture { assert tasks[if day in settings.devotion then 1 else 0].taskType == DailyScripture; }
    if FirstPlan(settings.plans, day).Some? { assert tasks[|tasks| - 1].taskType == DailyVerse; }
  }

  /* The task of the list that shows a task of the week. */
  predicate ShowsTask(week: Week, t: TodayTask, raw: Task) {
    && t.taskType == raw.taskType && t.taskId == raw.id && t.weekId == week.id && t.assets == raw.assets && t.pages == raw.pages
    && IsTitle(t.detail, raw) && t.part == (if raw.taskType == WeeklyBook then t.detail else "")
  }

  /* The task's own title without the white space around it, or that of its kind. */
  predicate IsTitle(title: string, raw: Task) {
    title != "" &&
    if CanonicalText.TrimSpace(raw.title) != "" then title == CanonicalText.TrimSpace(raw.title)
    else
      && (raw.taskType == WeeklyBook ==> title == "周读物") && (raw.taskType == WeeklyVideo ==> title == "本周视频")
      && (raw.taskType == DailyVerse ==> title == "每日背经") && (raw.taskType == WeeklyVerse ==> title == "本周背经")
      && (raw.taskType == WeeklyOutline ==> title == "提纲背诵")
  }

  lemma ListedIsShown(week: Week, t: Task)
    ensures Listed(week, t) <==> Shown(week, t)
    ensures ShowsTask(week, WeekTask(week, t), t)
  {
  }

  /* The list shows the tasks at these places, in order. */
  predicate Picks(week: Week, raw: seq<Task>, tasks: seq<TodayTask>, places: seq<nat>) {
    && |places| == |tasks|
    && (forall k | 0 <= k < |places| :: PicksAt(week, raw, tasks[k], places[k]))
    && (forall k, l | 0 <= k < l < |places| :: places[k] < places[l])
  }

  predicate PicksAt(week: Week, raw: seq<Task>, t: TodayTask, place: nat) {
    place < |raw| && Listed(week, raw[place]) && ShowsTask(week, t, raw[place])
  }

  lemma PicksLonger(week: Week, raw: seq<Task>, x: Task, tasks: seq<TodayTask>, places: seq<nat>)
    requires Picks(week, raw, tasks, places)
    ensures Picks(week, raw + [x], tasks, places)
  {
    hide Listed, ShowsTask;
    forall k | 0 <= k < |places| ensures PicksAt(week, raw + [x], tasks[k], places[k]) {
      assert PicksAt(week, raw, tasks[k], places[k]);
    }
  }

  lemma PicksLast(week: Week, raw: seq<Task>, tasks: seq<TodayTask>, places: seq<nat>, x: Task, t: TodayTask)
    requires Picks(week, raw, tasks, places) && Listed(week, x) && ShowsTask(week, t, x)
    ensures Picks(week, raw + [x], tasks + [t], places + [|raw|])
  {
    hide Listed, ShowsTask;
    PicksLonger(week, raw, x, tasks, places);
    var more, places' := tasks + [t], places + [|raw|];
    forall k | 0 <= k < |places'| ensures PicksAt(week, raw + [x], more[k], places'[k]) {
      if k < |places| { assert PicksAt(week, raw + [x], tasks[k], places[k]); }
    }
    forall k, l | 0 <= k < l < |places'| ensures places'[k] < places'[l] {
      assert PicksAt(week, raw, tasks[k], places[k]);
    }
  }

  /* ... and goes on with the week's tasks that are shown, in their order. */
  lemma {:induction false} WeekListed(week: Week, raw: seq<Task>) returns (places: seq<nat>)
    ensures Picks(week, raw, WeekTasks(week, raw), places)
    ensures forall n | 0 <= n < |raw| && Listed(week, raw[n]) :: n in places
  {
    hide Listed, Shown, ShowsTask, WeekTask, Picks;
    if raw == [] {
      places := [];
      NothingPicked(week);
    } else {
      var init, n, x := raw[..|raw| - 1], |raw| - 1, raw[|raw| - 1];
      var before := WeekListed(week, init);
      assert raw == init + [x];
      ListedIsShown(week, x);
      if Listed(week, x) {
        PicksLast(week, init, WeekTasks(week, init), before, x, WeekTask(week, x));
        places := before + [n];
      } else {
        PicksLonger(week, init, x, WeekTasks(week, init), before);
        assert WeekTasks(week, raw) == WeekTasks(week, init);
        places := before;
      }
      forall m | 0 <= m < |raw| && Listed(week, raw[m]) ensures m in places {
        if m < n { assert init[m] == raw[m] && m in before; }
      }
    }
  }

  lemma NothingPicked(week: Week)
    ensures Picks(week, [], [], [])
  {
  }

  // ---------- the week's tasks ----------

  /* A video check-in, made at any time, one of whose videos an enabled task of the group's week shows. */
  predicate ShowsItsVideo(repo: Repository, week: Week, r: Record) {
    r.taskType == WeeklyVideo &&
    exists w, t | w in repo.weeks && t in TasksOf(repo, w.id) ::
      w.start == week.start && w.end == week.end && t.taskType == WeeklyVideo && t.enabled && exists a :: a in t.assets && a in r.assets
  }

  lemma CarriedIff(repo: Repository, week: Week, r: Record)
    ensures Carried(repo.weeks, repo.tasks, r, week.start, week.end) <==> ShowsItsVideo(repo, week, r)
  {
    if Carried(repo.weeks, repo.tasks, r, week.start, week.end) {
      var w, t :| w in repo.weeks && w.id in repo.tasks && t in repo.tasks[w.id] &&
                  w.start == week.start && w.end == week.end && t.taskType == WeeklyVideo && t.enabled && t.assets * r.assets != {};
      var a :| a in t.assets * r.assets;
      assert t in TasksOf(repo, w.id) && a in t.assets && a in r.assets;
    }
    if ShowsItsVideo(repo, week, r) {
      var w, t :| w in repo.weeks && t in TasksOf(repo, w.id) && w.start == week.start && w.end == week.end
                  && t.taskType == WeeklyVideo && t.enabled && exists a :: a in t.assets && a in r.assets;
      var a :| a in t.assets && a in r.assets;
      assert a in t.assets * r.assets && w.id in repo.tasks && t in repo.tasks[w.id];
    }
  }

  /* Made during the week and by this day, or a video of another week that one of this week's tasks shows. */
  predicate OfWeek(repo: Repository, week: Week, day: nat, r: Record) {
    r.date <= day && (r.date >= week.start || ShowsItsVideo(repo, week, r))
  }

  lemma CountedOfWeek(repo: Repository, settings: Settings, day: nat, week: Week, r: Record)
    requires week.start <= day <= week.end && r.taskType != DailyVerse
    ensures r in Counted(repo, settings, day, Some(week)) <==> r in repo.records && OfWeek(repo, week, day, r)
  {
    hide Carried, ShowsItsVideo;
    CarriedIff(repo, week, r);
  }

  /* The task of the list at a place after the daily ones. */
  lemma WeekTaskAt(repo: Repository, settings: Settings, day: nat, week: Week, i: nat) returns (raw: Task)
    requires |DailyTasks(settings, day)| <= i < |TodayTasks(repo, settings, day, Some(week))|
    ensures ShowsTask(week, TodayTasks(repo, settings, day, Some(week))[i], raw)
  {
    hide ShowsTask, Listed;
    var places := WeekListed(week, TasksOf(repo, week.id));
    var k := i - |DailyTasks(settings, day)|;
    assert TodayTasks(repo, settings, day, Some(week))[i] == WeekTasks(week, TasksOf(repo, week.id))[k];
    assert PicksAt(week, TasksOf(repo, week.id), WeekTasks(week, TasksOf(repo, week.id))[k], places[k]);
    raw := TasksOf(repo, week.id)[places[k]];
  }

  /* Main result: a week's video task is completed exactly by a video check-in of the week that names the task or one of its
     videos, or just the week if the task has no videos; outlines and verses by one that names the task or the week. */
  lemma WeekTaskCompletedIff(repo: Repository, settings: Settings, day: nat, week: Week, i: nat)
    requires week.start <= day <= week.end && week.id > 0
    requires |DailyTasks(settings, day)| <= i < |TodayTasks(repo, settings, day, Some(week))|
    ensures var tasks := TodayTasks(repo, settings, day, Some(week));
            var t := tasks[i];
            t.taskType == WeeklyVideo || t.taskType == WeeklyOutline || t.taskType == WeeklyVerse ==>
              (i in Completed(tasks, Counted(repo, settings, day, Some(week)), day) <==>
               exists r :: r in repo.records && r.taskType == t.taskType && OfWeek(repo, week, day, r) &&
                 ((t.taskId > 0 && r.taskId == Some(t.taskId))
                  || (t.taskType == WeeklyVideo && r.asset > 0 && r.asset in t.assets)
                  || ((t.taskType != WeeklyVideo || t.assets == {}) && r.weekId == Some(week.id))))
  {
    hide Counted, OfWeek;
    var t := TodayTasks(repo, settings, day, Some(week))[i];
    var raw := WeekTaskAt(repo, settings, day, week, i);
    forall r: Record | r.taskType == t.taskType && t.taskType != DailyVerse { CountedOfWeek(repo, settings, day, week, r); }
  }

  /* The pages that were read contain those of the task. */
  predicate Spans(read: Pages, wanted: Pages) {
    read.Pages? && wanted.Pages? && read.first <= wanted.first && wanted.last <= read.last
  }

  /* The check-in reads the book of the task: it names the task or its title, or it is one of the week for one of the task's
     books with at least the task's pages. */
  predicate Reads(t: TodayTask, week: Week, r: Record) {
    || (t.taskId > 0 && r.taskId == Some(t.taskId))
    || r.part == t.detail || r.detail == t.detail
    || (r.weekId == Some(week.id) && r.asset > 0 && r.asset in t.assets
        && (Spans(r.partPages, t.pages) || Spans(r.detailPages, t.pages)))
  }

  /* Main result: a week's reading is completed exactly by a check-in of the week, made by the day, that reads its book. */
  lemma BookCompletedIff(repo: Repository, settings: Settings, day: nat, week: Week, i: nat)
    requires week.start <= day <= week.end && week.id > 0
    requires |DailyTasks(settings, day)| <= i < |TodayTasks(repo, settings, day, Some(week))|
    requires TodayTasks(repo, settings, day, Some(week))[i].taskType == WeeklyBook
    ensures var tasks := TodayTasks(repo, settings, day, Some(week));
            i in Completed(tasks, Counted(repo, settings, day, Some(week)), day) <==>
            exists r :: r in repo.records && r.taskType == WeeklyBook && week.start <= r.date <= day && Reads(tasks[i], week, r)
  {
    hide Counted;
    var t := TodayTasks(repo, settings, day, Some(week))[i];
    var raw := WeekTaskAt(repo, settings, day, week, i);
    forall r: Record | r.taskType == WeeklyBook { CountedOfWeek(repo, settings, day, week, r); }
    forall r: Record | r.taskType == WeeklyBook ensures Matches(t, r, day) <==> Reads(t, week, r) {}
  }
}
