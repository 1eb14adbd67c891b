/** Where the records of a run come from. */
module ZkSyncOrigins {
  import opened ZkSync
  import opened ZkSyncRepeated
  import opened Wrappers

  // ---------- what a record of the snapshot asks for ----------

  /* The slot is filled, and this is its task type. */
  predicate Fills(r: Record, slot: Slot, own: TaskType) {
    match slot
    case DailySlot => r.daily && own == DailyDevotion
    case BookSlot => r.book && own == WeeklyBook
    case VideoSlot => r.video && own == WeeklyVideo
    case VerseSlot => r.verse && own == WeeklyVerse
    case ReflectionSlot => r.kind == ReflectionKind && own == Reflection
    case ReciteSlot => r.kind == ReciteKind && own == ReciteExam
  }

  /* The name belongs to one member. */
  predicate Names(ctx: Context, r: Record, user: nat) { r.name in ctx.members && ctx.members[r.name] == {user} }

  /* A date that parses and has come, and a time that parses. */
  predicate Dated(ctx: Context, r: Record, day: nat) { r.date == Some(day) && day <= ctx.today && r.time.Some? }

  /* The tasks of the first listed week that contains the day; none if no week does. */
  predicate IsFirstWeek(weeks: seq<Week>, day: nat, i: nat) {
    i < |weeks| && weeks[i].start <= day <= weeks[i].end && forall j | 0 <= j < i :: !(weeks[j].start <= day <= weeks[j].end)
  }

  predicate TasksOfDay(ctx: Context, day: nat, tasks: seq<Task>) {
    if exists i :: 0 <= i < |ctx.weeks| && IsFirstWeek(ctx.weeks, day, i) then
      exists i :: 0 <= i < |ctx.weeks| && IsFirstWeek(ctx.weeks, day, i) &&
                  tasks == if ctx.weeks[i].id in ctx.tasks then ctx.tasks[ctx.weeks[i].id] else []
    else tasks == []
  }

  predicate OnlyOfType(tasks: seq<Task>, t: TaskType, i: nat) {
    i < |tasks| && tasks[i].taskType == t && forall j | 0 <= j < |tasks| && tasks[j].taskType == t :: j == i
  }

  predicate OnlyTitled(tasks: seq<Task>, t: TaskType, title: string, i: nat) {
    && i < |tasks| && tasks[i].taskType == t && tasks[i].title == title
    && forall j | 0 <= j < |tasks| && tasks[j].taskType == t && tasks[j].title == title :: j == i
  }

  predicate HasOnly(tasks: seq<Task>, t: TaskType) { exists i :: 0 <= i < |tasks| && OnlyOfType(tasks, t, i) }

  predicate HasOnlyTitled(tasks: seq<Task>, t: TaskType, title: string) {
    exists i :: 0 <= i < |tasks| && OnlyTitled(tasks, t, title, i)
  }

  /* A book counts for the week's check-in task if there is exactly one; any other weekly record for the only task of its
     type with its title, else for the only one of its type; everything else for no task. */
  predicate CountsFor(tasks: seq<Task>, r: Record, own: TaskType, t: TaskType, task: nat) {
    var title := if r.part != [] then r.part else r.detail;
    if own == WeeklyBook && HasOnly(tasks, WeeklyCheckin) then
      t == WeeklyCheckin && exists i :: 0 <= i < |tasks| && OnlyOfType(tasks, WeeklyCheckin, i) && tasks[i].id == task
    else
      && t == own
      && if own in {WeeklyBook, WeeklyVideo, WeeklyVerse} && HasOnlyTitled(tasks, own, title) then
           exists i :: 0 <= i < |tasks| && OnlyTitled(tasks, own, title, i) && tasks[i].id == task
         else if own in {WeeklyBook, WeeklyVideo, WeeklyVerse} && HasOnly(tasks, own) then
           exists i :: 0 <= i < |tasks| && OnlyOfType(tasks, own, i) && tasks[i].id == task
         else task == 0
  }

  predicate PartFor(r: Record, t: TaskType, part: string) {
    if t == WeeklyCheckin then part == ""
    else part <= r.part && |part| == if |r.part| <= 64 then |r.part| else 64
  }

  ghost predicate AsksFor(ctx: Context, r: Record, slot: Slot, user: nat, day: nat, t: TaskType, task: nat, part: string) {
    && Names(ctx, r, user) && Dated(ctx, r, day) && PartFor(r, t, part)
    && exists own, tasks :: Fills(r, slot, own) && TasksOfDay(ctx, day, tasks) && CountsFor(tasks, r, own, t, task)
  }

  /* The record of the snapshot is usable: it names one member, a date that has come, and a time. */
  ghost predicate Usable(ctx: Context, r: Record) {
    (exists user :: Names(ctx, r, user)) && (exists day :: Dated(ctx, r, day))
  }

  // ---------- the program asks for that ----------

  lemma {:induction false} WeekOfMeaning(weeks: seq<Week>, day: nat)
    ensures match WeekOf(weeks, day)
            case Some(w) => exists i :: 0 <= i < |weeks| && IsFirstWeek(weeks, day, i) && weeks[i] == w
            case None => forall i | 0 <= i < |weeks| :: !(weeks[i].start <= day <= weeks[i].end)
  {
    if weeks != [] && !(weeks[0].start <= day <= weeks[0].end) {
      var rest := weeks[1..];
      WeekOfMeaning(rest, day);
      assert forall i | 0 <= i < |rest| :: rest[i] == weeks[i + 1];
      if WeekOf(rest, day).Some? {
        var i :| 0 <= i < |rest| && IsFirstWeek(rest, day, i) && rest[i] == WeekOf(rest, day).value;
        forall j | 0 <= j < i + 1 ensures !(weeks[j].start <= day <= weeks[j].end) {
          if j > 0 { assert weeks[j] == rest[j - 1]; }
        }
        assert IsFirstWeek(weeks, day, i + 1);
      }
    } else if weeks != [] {
      assert IsFirstWeek(weeks, day, 0);
    }
  }

  function Candidates(ctx: Context, day: nat): seq<Task> {
    var week := WeekOf(ctx.weeks, day);
    if week.Some? && week.value.id in ctx.tasks then ctx.tasks[week.value.id] else []
  }

  lemma CandidatesAreOfDay(ctx: Context, day: nat)
    ensures TasksOfDay(ctx, day, Candidates(ctx, day))
  {
    WeekOfMeaning(ctx.weeks, day);
  }

  function Where(tasks: seq<Task>, p: Task -> bool): seq<Task> {
    if tasks == [] then [] else (if p(tasks[0]) then [tasks[0]] else []) + Where(tasks[1..], p)
  }

  predicate Only(tasks: seq<Task>, p: Task -> bool, i: nat) {
    i < |tasks| && p(tasks[i]) && forall j | 0 <= j < |tasks| && p(tasks[j]) :: j == i
  }

  lemma {:induction false} NoneWhere(tasks: seq<Task>, p: Task -> bool)
    ensures Where(tasks, p) == [] <==> forall i | 0 <= i < |tasks| :: !p(tasks[i])
  {
    if tasks != [] {
      NoneWhere(tasks[1..], p);
      assert forall i | 0 < i < |tasks| :: tasks[i] == tasks[1..][i - 1];
    }
  }

  lemma {:induction false} OneWhere(tasks: seq<Task>, p: Task -> bool)
    ensures |Where(tasks, p)| == 1 ==> exists i :: 0 <= i < |tasks| && Only(tasks, p, i) && Where(tasks, p)[0] == tasks[i]
    ensures (exists i :: 0 <= i < |tasks| && Only(tasks, p, i)) ==> |Where(tasks, p)| == 1
  {
    if tasks != [] {
      var rest := tasks[1..];
      OneWhere(rest, p);
      NoneWhere(rest, p);
      assert forall i | 0 <= i < |rest| :: rest[i] == tasks[i + 1];
      if |Where(tasks, p)| == 1 {
        if p(tasks[0]) {
          assert Only(tasks, p, 0);
        } else {
          var i :| 0 <= i < |rest| && Only(rest, p, i) && Where(rest, p)[0] == rest[i];
          assert Only(tasks, p, i + 1);
        }
      }
      if i :| 0 <= i < |tasks| && Only(tasks, p, i) {
        if i > 0 {
          assert !p(tasks[0]);
          assert Only(rest, p, i - 1);
        }
      }
    }
  }

  lemma {:induction false} OfTypeWhere(tasks: seq<Task>, t: TaskType, p: Task -> bool)
    requires forall x :: p(x) <==> x.taskType == t
    ensures OfType(tasks, t) == Where(tasks, p)
  {
    if tasks != [] { OfTypeWhere(tasks[1..], t, p); }
  }

  lemma {:induction false} TitledConcat(a: seq<Task>, b: seq<Task>, title: string)
    ensures Titled(a + b, title) == Titled(a, title) + Titled(b, title)
  {
    if a == [] {
      assert a + b == b;
    } else {
      assert (a + b)[1..] == a[1..] + b && (a + b)[0] == a[0];
      TitledConcat(a[1..], b, title);
      var first := if a[0].title == title then [a[0]] else [];
      assert first + (Titled(a[1..], title) + Titled(b, title)) == first + Titled(a[1..], title) + Titled(b, title);
    }
  }

  lemma {:induction false} TitledWhere(tasks: seq<Task>, t: TaskType, title: string, p: Task -> bool)
    requires forall x :: p(x) <==> x.taskType == t && x.title == title
    ensures Titled(OfType(tasks, t), title) == Where(tasks, p)
  {
    if tasks != [] {
      TitledWhere(tasks[1..], t, title, p);
      TitledConcat(if tasks[0].taskType == t then [tasks[0]] else [], OfType(tasks[1..], t), title);
      assert [tasks[0]][1..] == [];
    }
  }

  lemma OneOfType(tasks: seq<Task>, t: TaskType)
    ensures |OfType(tasks, t)| == 1 <==> HasOnly(tasks, t)
    ensures |OfType(tasks, t)| == 1 ==> exists i :: 0 <= i < |tasks| && OnlyOfType(tasks, t, i) && OfType(tasks, t)[0] == tasks[i]
  {
    var p := (x: Task) => x.taskType == t;
    OfTypeWhere(tasks, t, p);
    OneWhere(tasks, p);
    forall i | 0 <= i < |tasks| ensures Only(tasks, p, i) <==> OnlyOfType(tasks, t, i) {}
    if HasOnly(tasks, t) {
      var i :| 0 <= i < |tasks| && OnlyOfType(tasks, t, i);
      assert Only(tasks, p, i);
    }
  }

  lemma OneTitled(tasks: seq<Task>, t: TaskType, title: string)
    ensures |Titled(OfType(tasks, t), title)| == 1 <==> HasOnlyTitled(tasks, t, title)
    ensures |Titled(OfType(tasks, t), title)| == 1 ==>
              exists i :: 0 <= i < |tasks| && OnlyTitled(tasks, t, title, i) && Titled(OfType(tasks, t), title)[0] == tasks[i]
  {
    var p := (x: Task) => x.taskType == t && x.title == title;
    TitledWhere(tasks, t, title, p);
    OneWhere(tasks, p);
    forall i | 0 <= i < |tasks| ensures Only(tasks, p, i) <==> OnlyTitled(tasks, t, title, i) {}
    if HasOnlyTitled(tasks, t, title) {
      var i :| 0 <= i < |tasks| && OnlyTitled(tasks, t, title, i);
      assert Only(tasks, p, i);
    }
  }

  lemma ResolvesTo(ctx: Context, r: Record, slot: Slot, own: TaskType, day: nat)
    requires Fills(r, slot, own)
    ensures var resolved := ResolveWeekly(ctx, own, r, day);
            CountsFor(Candidates(ctx, day), r, own, resolved.0, resolved.1)
  {
    hide OfType, Titled, OnlyOfType, OnlyTitled, HasOnly, HasOnlyTitled;
    var tasks := Candidates(ctx, day);
    OneOfType(tasks, WeeklyCheckin);
    OneOfType(tasks, own);
    OneTitled(tasks, own, if r.part != [] then r.part else r.detail);
    if tasks == [] {
      NoTasks(WeeklyCheckin, []);
      NoTasks(own, if r.part != [] then r.part else r.detail);
    }
  }

  lemma NoTasks(t: TaskType, title: string)
    ensures OfType([], t) == [] && Titled(OfType([], t), title) == []
  {
  }

  lemma {:induction false} ItemIsSlotOf(records: seq<Record>, i: nat)
    requires i < |Items(records)|
    ensures var item := Items(records)[i];
            item.record in records && item.record.id == Whole(item.key.id) && item.key.id > 0
            && Fills(item.record, item.key.slot, item.taskType)
  {
    hide SlotList, Fills;
    var init, last := records[..|records| - 1], records[|records| - 1];
    if i < |Items(init)| {
      ItemIsSlotOf(init, i);
    } else {
      SlotsFill(last, i - |Items(init)|);
    }
  }

  lemma SlotsFill(r: Record, i: nat)
    requires i < |ItemsOf(r)|
    ensures Fills(r, ItemsOf(r)[i].key.slot, ItemsOf(r)[i].taskType)
  {
    assert SlotList(r)[i] in SlotList(r);
  }

  lemma AcceptableIsUsable(ctx: Context, item: Item)
    ensures Acceptable(ctx, item) <==> Usable(ctx, item.record)
    ensures Acceptable(ctx, item) ==>
              && Dated(ctx, item.record, item.record.date.value)
              && Names(ctx, item.record, TheMember(MembersNamed(ctx, item.record.name)))
  {
    var r := item.record;
    if Acceptable(ctx, item) {
      var users := MembersNamed(ctx, r.name);
      SingletonMember(users);
      assert users == {TheMember(users)};
      assert Names(ctx, r, TheMember(users)) && Dated(ctx, r, r.date.value);
    }
    if Usable(ctx, r) {
      var user :| Names(ctx, r, user);
      assert |{user}| == 1;
    }
  }

  lemma ProbeAsks(ctx: Context, item: Item, id: nat)
    requires Acceptable(ctx, item) && Fills(item.record, item.key.slot, item.taskType)
    ensures var p := Probe(ctx, item, id);
            && AsksFor(ctx, item.record, item.key.slot, p.user, p.date, p.taskType, p.task, p.part)
            && p.id == id && p.source == FromZkSync && p.extra == 0
  {
    hide ResolveWeekly, CountsFor, TasksOfDay;
    var day := item.record.date.value;
    AcceptableIsUsable(ctx, item);
    CandidatesAreOfDay(ctx, day);
    ResolvesTo(ctx, item.record, item.key.slot, item.taskType, day);
  }

  // ---------- one slot ----------

  /* A record the synchronisation has inserted for this slot. */
  ghost predicate InsertedFor(ctx: Context, r: Record, slot: Slot, row: Row) {
    && AsksFor(ctx, r, slot, row.user, row.date, row.taskType, row.task, row.part)
    && row.source == FromZkSync && row.extra == 0
  }

  /* A record that stands for this slot: of the same member and type, and for the same task of a week, or else of the same
     date and part. */
  ghost predicate StandsFor(ctx: Context, r: Record, slot: Slot, row: Row) {
    exists day: nat, task: nat, part: string ::
      && AsksFor(ctx, r, slot, row.user, day, row.taskType, task, part)
      && ((task != 0 && row.task == task) || (row.date == day && row.part == part))
  }

  ghost predicate Booking(ctx: Context, s: State, s': State, item: Item) {
    && item.key in s'.table && s'.table[item.key].target in s'.rows
    && StandsFor(ctx, item.record, item.key.slot, s'.rows[s'.table[item.key].target])
    && s'.table[item.key].hash == Fingerprint(item.record, item.key.slot)
    && (forall id | id in s.rows && id in s'.rows :: s'.rows[id] == s.rows[id])
    && (forall id | id in s'.rows && id !in s.rows :: InsertedFor(ctx, item.record, item.key.slot, s'.rows[id]))
  }

  lemma ExistingStands(ctx: Context, s: State, item: Item, probe: Row)
    requires InStep(s) && UniqueIndexed(s.active, s.byUnique) && TaskIndexed(s.active, s.byTask) && RowIds(s.rows)
    requires AsksFor(ctx, item.record, item.key.slot, probe.user, probe.date, probe.taskType, probe.task, probe.part)
    requires Existing(s, probe).Some?
    ensures Existing(s, probe).value.id in s.rows && s.rows[Existing(s, probe).value.id] == Existing(s, probe).value
    ensures StandsFor(ctx, item.record, item.key.slot, Existing(s, probe).value)
  {
    hide AsksFor;
  }

  lemma InsertedStands(ctx: Context, item: Item, row: Row)
    requires InsertedFor(ctx, item.record, item.key.slot, row)
    ensures StandsFor(ctx, item.record, item.key.slot, row)
  {
    hide AsksFor;
  }

  lemma BookedIsOwn(ctx: Context, s: State, item: Item)
    requires InStep(s) && UniqueIndexed(s.active, s.byUnique) && TaskIndexed(s.active, s.byTask) && RowIds(s.rows)
    requires s.nextId !in s.rows
    requires Acceptable(ctx, item) && Fills(item.record, item.key.slot, item.taskType)
    ensures Booking(ctx, s, Booked(ctx, s, item), item)
  {
    hide AsksFor, Probe, StandsFor, Acceptable, Fills, Existing;
    var probe := Probe(ctx, item, s.nextId);
    ProbeAsks(ctx, item, s.nextId);
    if Existing(s, probe).Some? {
      ExistingStands(ctx, s, item, probe);
    } else {
      InsertedStands(ctx, item, probe);
    }
  }

  lemma UnmappedKeepsRows(s: State, present: set<Key>, key: Key)
    requires InStep(s) && UniqueIndexed(s.active, s.byUnique) && TaskIndexed(s.active, s.byTask) && RowIds(s.rows)
    requires key in s.mappings && s.nextId !in s.rows
    ensures var s' := Unmapped(s, present, key);
            && s'.mappings == s'.table == s.table - {key} && s'.nextId == s.nextId
            && (forall id | id in s'.rows :: id in s.rows && s'.rows[id] == s.rows[id])
            && (forall id | id in s.rows && id !in s'.rows :: id in s'.dropped) && s.dropped <= s'.dropped
  {
  }

  lemma BookedKeepsRows(ctx: Context, s: State, item: Item)
    requires Acceptable(ctx, item) && RowIds(s.rows)
    ensures var s' := Booked(ctx, s, item);
            s.rows.Keys <= s'.rows.Keys && s'.rows.Keys <= s.rows.Keys + {s.nextId} && s'.dropped == s.dropped
            && s'.nextId >= s.nextId
  {
    hide Probe;
    ProbeIs(ctx, item, s.nextId);
  }

  /* What one slot does to the records and to its mapping. */
  ghost predicate StepIsOwn(ctx: Context, s: State, s': State, item: Item) {
    && (forall id | id in s.rows && id in s'.rows :: s'.rows[id] == s.rows[id])
    && (forall id | id in s'.rows && id !in s.rows :: id >= s.nextId && InsertedFor(ctx, item.record, item.key.slot, s'.rows[id]))
    && (forall id | id in s.rows && id !in s'.rows :: id in s'.dropped)
    && s.dropped <= s'.dropped && s'.nextId >= s.nextId
    && (item.key !in s.seen && Usable(ctx, item.record) && !Recorded(s.table, item) ==> MappedOwn(ctx, s', item))
  }

  ghost predicate MappedOwn(ctx: Context, s: State, item: Item) {
    && item.key in s.table && s.table[item.key].target in s.rows
    && s.table[item.key].hash == Fingerprint(item.record, item.key.slot)
    && StandsFor(ctx, item.record, item.key.slot, s.rows[s.table[item.key].target])
  }

  lemma ItemStepIsOwn(ctx: Context, present: set<Key>, before: map<nat, Row>, s: State, item: Item)
    requires RunInv(s, present, before) && item.key in present && Fills(item.record, item.key.slot, item.taskType)
    ensures StepIsOwn(ctx, s, ItemStep(ctx, present, s, item), item)
  {
    hide Booked, Unmapped, Acceptable, Usable, StandsFor, InsertedFor, Fills;
    var s1 := s.(seen := s.seen + {item.key});
    AcceptableIsUsable(ctx, item);
    if item.key !in s.seen && Acceptable(ctx, item) && !Unchanged(s1, item) {
      if item.key in s1.mappings {
        UnmappedKeeps(s1, present, before, item.key);
        UnmappedKeepsRows(s1, present, item.key);
        var s2 := Unmapped(s1, present, item.key);
        BookedIsOwn(ctx, s2, item);
        BookedKeepsRows(ctx, s2, item);
      } else {
        BookedIsOwn(ctx, s1, item);
        BookedKeepsRows(ctx, s1, item);
      }
    }
  }

  // ---------- a whole run ----------

  /* Every record is one of before, as it was, or inserted for one of the items. */
  ghost predicate RowsAreOwn(ctx: Context, start: State, items: seq<Item>, rows: map<nat, Row>) {
    forall id | id in rows ::
      || (id in start.rows && rows[id] == start.rows[id])
      || (id !in start.rows && exists i :: 0 <= i < |items| && InsertedFor(ctx, items[i].record, items[i].key.slot, rows[id]))
  }

  /* The slots that the run has to book: the first of their key, usable, and not synchronised with this content before. */
  ghost predicate ToBook(ctx: Context, start: State, items: seq<Item>, i: nat)
    requires i < |items|
  {
    FirstOfItsKey(items, i) && Usable(ctx, items[i].record) && !Recorded(start.table, items[i])
  }

  ghost predicate MappingsAreOwn(ctx: Context, start: State, items: seq<Item>, s: State) {
    forall i | 0 <= i < |items| && ToBook(ctx, start, items, i) :: MappedOwn(ctx, s, items[i])
  }

  predicate ItemsFill(items: seq<Item>) { forall i | 0 <= i < |items| :: Fills(items[i].record, items[i].key.slot, items[i].taskType) }

  lemma RowsGrow(ctx: Context, start: State, items: seq<Item>, s: State, s': State, item: Item)
    requires RowsAreOwn(ctx, start, items, s.rows) && StepIsOwn(ctx, s, s', item) && s.nextId >= start.nextId
    requires forall id | id in start.rows :: id < start.nextId
    ensures RowsAreOwn(ctx, start, items + [item], s'.rows)
  {
    hide InsertedFor, MappedOwn;
    var more := items + [item];
    forall id | id in s'.rows && id !in start.rows
      ensures exists i :: 0 <= i < |more| && InsertedFor(ctx, more[i].record, more[i].key.slot, s'.rows[id])
    {
      if id in s.rows {
        var i :| 0 <= i < |items| && InsertedFor(ctx, items[i].record, items[i].key.slot, s.rows[id]);
        assert more[i] == items[i];
      } else {
        assert more[|items|] == item;
      }
    }
  }

  /* A slot that is booked stays booked while other slots are worked on. */
  lemma MappedOwnStays(ctx: Context, s: State, s': State, present: set<Key>, item: Item)
    requires MappedOwn(ctx, s, item) && item.key in present && NoneDropped(s'.table, s'.dropped, present)
    requires item.key in s'.table && s'.table[item.key] == s.table[item.key]
    requires forall id | id in s.rows && id in s'.rows :: s'.rows[id] == s.rows[id]
    requires forall id | id in s.rows && id !in s'.rows :: id in s'.dropped
    ensures MappedOwn(ctx, s', item)
  {
    hide StandsFor;
  }

  lemma MappingsGrow(ctx: Context, start: State, items: seq<Item>, present: set<Key>, s: State, s': State, item: Item)
    requires MappingsAreOwn(ctx, start, items, s) && StepIsOwn(ctx, s, s', item) && NoneDropped(s'.table, s'.dropped, present)
    requires KeysIn(items, present) && s.seen == KeysOf(items)
    requires AgreeOutside(s.table, s'.table, {item.key}) && AgreeOutside(start.table, s.table, KeysOf(items))
    requires item.key in s.seen ==> s' == s
    ensures MappingsAreOwn(ctx, start, items + [item], s')
  {
    hide MappedOwn, Usable, InsertedFor;
    var more := items + [item];
    forall i | 0 <= i < |more| && ToBook(ctx, start, more, i) ensures MappedOwn(ctx, s', more[i]) {
      if i < |items| {
        assert more[i] == items[i] && ToBook(ctx, start, items, i) by {
          assert forall j | 0 <= j < i :: more[j] == items[j];
        }
        assert items[i].key in KeysOf(items);
        if item.key !in s.seen {
          StillMapped(ctx, s, items[i]);
          MappedOwnStays(ctx, s, s', present, items[i]);
        }
      } else {
        assert item.key !in KeysOf(items) by {
          forall j | 0 <= j < |items| ensures items[j].key != item.key { assert more[j] == items[j]; }
        }
      }
    }
  }

  lemma StillMapped(ctx: Context, s: State, item: Item)
    requires MappedOwn(ctx, s, item)
    ensures item.key in s.table
  {
  }

  lemma SeenDoesNothing(ctx: Context, present: set<Key>, s: State, item: Item)
    requires item.key in s.seen
    ensures ItemStep(ctx, present, s, item) == s
  {
  }

  lemma {:induction false} ItemStepsAreOwn(ctx: Context, start: State, present: set<Key>, items: seq<Item>)
    requires RunInv(start, present, start.rows) && KeysIn(items, present) && ItemsFill(items) && start.seen == {}
    ensures var s := ItemSteps(ctx, present, start, items);
            RowsAreOwn(ctx, start, items, s.rows) && MappingsAreOwn(ctx, start, items, s) && s.nextId >= start.nextId
  {
    hide ItemStep, RowsAreOwn, MappingsAreOwn, StepIsOwn, UniqueIndexed, TaskIndexed, AgreeOutside, Fills;
    if items == [] {
      NoItemsAreOwn(ctx, start);
    } else {
      var init, last := items[..|items| - 1], items[|items| - 1];
      assert items == init + [last];
      var s := ItemSteps(ctx, present, start, init);
      ItemStepsAreOwn(ctx, start, present, init);
      ItemStepsKeep(ctx, start, present, start.rows, init);
      ItemStepKeeps(ctx, s, present, start.rows, last);
      ItemStepIsOwn(ctx, present, start.rows, s, last);
      ItemStepsTouch(ctx, present, start, init);
      ItemStepTouches(ctx, present, s, last);
      if last.key in s.seen { SeenDoesNothing(ctx, present, s, last); }
      RowsGrow(ctx, start, init, s, ItemStep(ctx, present, s, last), last);
      MappingsGrow(ctx, start, init, present, s, ItemStep(ctx, present, s, last), last);
      NumbersGrow(ctx, s, ItemStep(ctx, present, s, last), last);
    }
  }

  lemma NumbersGrow(ctx: Context, s: State, s': State, item: Item)
    requires StepIsOwn(ctx, s, s', item)
    ensures s'.nextId >= s.nextId
  {
  }

  lemma NoItemsAreOwn(ctx: Context, start: State)
    ensures RowsAreOwn(ctx, start, [], start.rows) && MappingsAreOwn(ctx, start, [], start)
  {
  }

  lemma InSlotList(r: Record, slot: Slot, own: TaskType)
    requires Fills(r, slot, own)
    ensures (slot, own) in SlotList(r)
  {
  }

  lemma SlotOfRecord(r: Record, slot: Slot, own: TaskType) returns (i: nat)
    requires Fills(r, slot, own) && UsableId(r.id)
    ensures i < |ItemsOf(r)| && ItemsOf(r)[i] == Item(Key(r.id.n, slot), r, own)
    ensures forall j | 0 <= j < i :: ItemsOf(r)[j].key != ItemsOf(r)[i].key
  {
    InSlotList(r, slot, own);
    i :| 0 <= i < |SlotList(r)| && SlotList(r)[i] == (slot, own);
  }

  /* The first record that fills the slot under its ID. */
  ghost predicate FirstFor(records: seq<Record>, i: nat, slot: Slot)
    requires i < |records|
  {
    forall j, own | 0 <= j < i && Fills(records[j], slot, own) :: records[j].id != records[i].id
  }

  lemma ItemsOfAre(r: Record, j: nat)
    requires j < |ItemsOf(r)|
    ensures UsableId(r.id) && ItemsOf(r)[j].key == Key(r.id.n, ItemsOf(r)[j].key.slot)
    ensures Fills(r, ItemsOf(r)[j].key.slot, ItemsOf(r)[j].taskType)
  {
    SlotsFill(r, j);
  }

  lemma {:induction false} EarlierItemsDiffer(records: seq<Record>, key: Key, j: nat)
    requires j < |Items(records)|
    requires forall m, own | 0 <= m < |records| && Fills(records[m], key.slot, own) :: records[m].id != Whole(key.id)
    ensures Items(records)[j].key != key
  {
    var init, last := records[..|records| - 1], records[|records| - 1];
    if j < |Items(init)| {
      assert forall m | 0 <= m < |init| :: init[m] == records[m];
      EarlierItemsDiffer(init, key, j);
    } else {
      ItemsOfAre(last, j - |Items(init)|);
    }
  }

  lemma FirstInPrefix(records: seq<Record>, i: nat, slot: Slot)
    requires i < |records| - 1 && FirstFor(records, i, slot)
    ensures FirstFor(records[..|records| - 1], i, slot)
  {
    var init := records[..|records| - 1];
    assert forall m | 0 <= m < |init| :: init[m] == records[m];
  }

  lemma FirstIsNew(records: seq<Record>, slot: Slot)
    requires records != [] && UsableId(records[|records| - 1].id) && FirstFor(records, |records| - 1, slot)
    ensures var init, n := records[..|records| - 1], records[|records| - 1].id.n;
            forall m, own | 0 <= m < |init| && Fills(init[m], slot, own) :: init[m].id != Whole(n)
  {
    var init := records[..|records| - 1];
    assert forall m | 0 <= m < |init| :: init[m] == records[m];
  }

  lemma ItemOfLast(records: seq<Record>, slot: Slot, own: TaskType) returns (k: nat)
    requires records != [] && UsableId(records[|records| - 1].id) && Fills(records[|records| - 1], slot, own)
    requires FirstFor(records, |records| - 1, slot)
    ensures k < |Items(records)| && Items(records)[k] == Item(Key(records[|records| - 1].id.n, slot), records[|records| - 1], own)
    ensures FirstOfItsKey(Items(records), k)
  {
    hide Fills, FirstFor, ItemsOf;
    var init, last := records[..|records| - 1], records[|records| - 1];
    var n := SlotOfRecord(last, slot, own);
    k := |Items(init)| + n;
    FirstIsNew(records, slot);
    forall j | 0 <= j < k ensures Items(records)[j].key != Items(records)[k].key {
      if j < |Items(init)| { EarlierItemsDiffer(init, Key(last.id.n, slot), j); }
    }
  }

  lemma {:induction false} ItemOfSlot(records: seq<Record>, i: nat, slot: Slot, own: TaskType) returns (k: nat)
    requires i < |records| && Fills(records[i], slot, own) && UsableId(records[i].id) && FirstFor(records, i, slot)
    ensures k < |Items(records)| && Items(records)[k] == Item(Key(records[i].id.n, slot), records[i], own)
    ensures FirstOfItsKey(Items(records), k)
  {
    hide Fills, FirstFor, ItemsOf;
    if i < |records| - 1 {
      FirstInPrefix(records, i, slot);
      k := ItemOfSlot(records[..|records| - 1], i, slot, own);
    } else {
      k := ItemOfLast(records, slot, own);
    }
  }

  lemma AllItemsFill(records: seq<Record>)
    ensures ItemsFill(Items(records))
  {
    forall i | 0 <= i < |Items(records)|
      ensures Fills(Items(records)[i].record, Items(records)[i].key.slot, Items(records)[i].taskType)
    {
      ItemIsSlotOf(records, i);
    }
  }

  lemma FinishedOnlyRemoves(s: State, records: seq<Record>)
    ensures var s' := Finished(s, records);
            && (forall id | id in s'.rows :: id in s.rows && s'.rows[id] == s.rows[id])
            && (forall id | id in s.rows && id !in s'.rows :: id in s'.dropped)
            && (forall k | k in s.table && k in s.seen :: k in s'.table && s'.table[k] == s.table[k])
  {
    assert Missing(s) !! s.seen;
  }

  /* Main result: whatever a run adds to the database was asked for by a record of the snapshot: it is booked on the
     record's own date, for the only member of the record's name, under the type of one of its slots and with its part. What
     was there before and stays is as it was. */
  lemma NewRowsComeFromRecords(ctx: Context, s: State, records: seq<Record>, id: nat)
    requires Opened(s) && Sound(s.rows, s.table, s.nextId) && id in SyncRun(ctx, s, records).rows
    ensures var row := SyncRun(ctx, s, records).rows[id];
            if id in s.rows then row == s.rows[id]
            else exists r, slot :: r in records && InsertedFor(ctx, r, slot, row)
  {
    hide InsertedFor, Opened, Sound, Finished, ItemStep;
    var items := Items(records);
    var s1 := ItemSteps(ctx, Present(records), s, items);
    RunIsOwn(ctx, s, records);
    FinishedOnlyRemoves(s1, records);
    if id !in s.rows {
      var i :| 0 <= i < |items| && InsertedFor(ctx, items[i].record, items[i].key.slot, s1.rows[id]);
      ItemIsSlotOf(records, i);
    }
  }

  lemma RunIsOwn(ctx: Context, s: State, records: seq<Record>)
    requires Opened(s) && Sound(s.rows, s.table, s.nextId)
    ensures var s1 := ItemSteps(ctx, Present(records), s, Items(records));
            && RowsAreOwn(ctx, s, Items(records), s1.rows) && MappingsAreOwn(ctx, s, Items(records), s1)
            && s1.seen == KeysOf(Items(records))
  {
    OpenedStarts(s, Present(records));
    ItemsPresent(records, records);
    AllItemsFill(records);
    ItemStepsAreOwn(ctx, s, Present(records), Items(records));
    ItemStepsTouch(ctx, Present(records), s, Items(records));
  }

  /* Main result: after a run every usable slot of the snapshot whose content is new is mapped to an active record that
     stands for it: of its member and type, and for its task or of its date and part. */
  lemma UsableSlotsAreBooked(ctx: Context, s: State, records: seq<Record>, i: nat, slot: Slot, own: TaskType)
    requires Opened(s) && Sound(s.rows, s.table, s.nextId)
    requires i < |records| && Fills(records[i], slot, own) && UsableId(records[i].id) && Usable(ctx, records[i])
    requires FirstFor(records, i, slot)
    requires var key := Key(records[i].id.n, slot); !(key in s.table && s.table[key].hash == Fingerprint(records[i], slot))
    ensures var s', key := SyncRun(ctx, s, records), Key(records[i].id.n, slot);
            && key in s'.table && s'.table[key].hash == Fingerprint(records[i], slot)
            && s'.table[key].target in s'.rows && StandsFor(ctx, records[i], slot, s'.rows[s'.table[key].target])
  {
    hide StandsFor, Opened, Sound, Finished, ItemStep, Fills, Usable, FirstFor, FirstOfItsKey;
    var items, present := Items(records), Present(records);
    var s1 := ItemSteps(ctx, present, s, items);
    var k := ItemOfSlot(records, i, slot, own);
    RunIsOwn(ctx, s, records);
    assert ToBook(ctx, s, items, k);
    assert MappedOwn(ctx, s1, items[k]);
    FinishedOnlyRemoves(s1, records);
    SyncKeepsMappings(ctx, s, records);
    ItemsPresent(records, records);
    assert items[k].key in present && items[k].key in KeysOf(items);
  }
}
