/** The one-way synchronisation of a check-in snapshot into the check-in records of one group. */
module ZkSync {
  import opened Wrappers

  // ---------- snapshot and context ----------

  datatype Slot = DailySlot | BookSlot | VideoSlot | VerseSlot | ReflectionSlot | ReciteSlot

  datatype TaskType =
    | DailyDevotion | WeeklyBook | WeeklyVideo | WeeklyVerse | WeeklyCheckin | Reflection | ReciteExam
    | OtherTask(weekly: bool, code: nat)

  predicate IsWeekly(t: TaskType) {
    t.WeeklyBook? || t.WeeklyVideo? || t.WeeklyVerse? || t.WeeklyCheckin? || (t.OtherTask? && t.weekly)
  }

  /* The ID of a snapshot record. A float equals, and hashes like, the integer of the same value, but is not one. */
  datatype RecordId = Whole(n: int) | WholeFloat(n: int) | NotANumber

  datatype Kind = NoKind | ReflectionKind | ReciteKind

  /* `date` and `time` are the parsed fields, none when they do not parse. */
  datatype Record = Record(id: RecordId, name: string, daily: bool, book: bool, video: bool, verse: bool, kind: Kind,
                           date: Option<nat>, time: Option<nat>, part: string, detail: string, note: string, isRetro: bool)

  datatype Week = Week(id: nat, start: nat, end: nat)
  datatype Task = Task(id: nat, taskType: TaskType, title: string)

  datatype Context = Context(today: nat, members: map<string, set<nat>>, weeks: seq<Week>, tasks: map<nat, seq<Task>>)

  // ---------- records and mappings ----------

  datatype Source = FromZkSync | FromMigration | FromOther

  predicate SourceOwned(s: Source) { s == FromZkSync || s == FromMigration }

  /* A check-in record; task zero means none. The program neither reads nor writes the extra key, with which the table
     tells several weekly readings of a day apart. */
  datatype Row = Row(id: nat, user: nat, task: nat, date: nat, taskType: TaskType, part: string, source: Source, extra: nat)

  datatype TargetKey = TargetKey(user: nat, taskType: TaskType, date: nat, part: string)
  datatype TaskKey = TaskKey(user: nat, taskType: TaskType, task: nat)

  function TargetKeyOf(r: Row): TargetKey { TargetKey(r.user, r.taskType, r.date, r.part) }

  predicate HasTaskKey(r: Row) { r.task != 0 && IsWeekly(r.taskType) }

  function TaskKeyOf(r: Row): TaskKey { TaskKey(r.user, r.taskType, r.task) }

  datatype Key = Key(id: int, slot: Slot)

  /* The content hash of a record's slot: equal exactly for equal contents. */
  datatype Fingerprint = Fingerprint(content: Record, slot: Slot)

  datatype Mapping = Mapping(target: nat, hash: Fingerprint, owned: bool)

  /* One slot of one record with a usable ID. */
  datatype Item = Item(key: Key, record: Record, taskType: TaskType)

  function SlotList(r: Record): seq<(Slot, TaskType)> {
    (if r.daily then [(DailySlot, DailyDevotion)] else []) +
    (if r.book then [(BookSlot, WeeklyBook)] else []) +
    (if r.video then [(VideoSlot, WeeklyVideo)] else []) +
    (if r.verse then [(VerseSlot, WeeklyVerse)] else []) +
    (match r.kind
     case NoKind => []
     case ReflectionKind => [(ReflectionSlot, Reflection)]
     case ReciteKind => [(ReciteSlot, ReciteExam)])
  }

  predicate UsableId(id: RecordId) { id.Whole? && id.n > 0 }

  function ItemsOf(r: Record): seq<Item> {
    if !UsableId(r.id) then []
    else
      var slots := SlotList(r);
      seq(|slots|, i requires 0 <= i < |slots| => Item(Key(r.id.n, slots[i].0), r, slots[i].1))
  }

  function Items(records: seq<Record>): seq<Item> {
    if records == [] then [] else Items(records[..|records| - 1]) + ItemsOf(records[|records| - 1])
  }

  /* The keys of the snapshot, before IDs are checked. */
  function Present(records: seq<Record>): set<Key> {
    set r, s | r in records && !r.id.NotANumber? && s in SlotList(r) :: Key(r.id.n, s.0)
  }

  function LogicalDate(ctx: Context, r: Record): Option<nat> {
    if r.date.Some? && r.date.value <= ctx.today then r.date else None
  }

  function MembersNamed(ctx: Context, name: string): set<nat> {
    if name in ctx.members then ctx.members[name] else {}
  }

  /* The checks an item has to pass; the report of skipped items is not modelled. */
  predicate Acceptable(ctx: Context, item: Item) {
    && LogicalDate(ctx, item.record).Some?
    && |MembersNamed(ctx, item.record.name)| == 1
    && item.record.time.Some?
  }

  // ---------- weekly tasks ----------

  function WeekOf(weeks: seq<Week>, day: nat): Option<Week> {
    if weeks == [] then None
    else if weeks[0].start <= day <= weeks[0].end then Some(weeks[0])
    else WeekOf(weeks[1..], day)
  }

  function OfType(tasks: seq<Task>, t: TaskType): seq<Task> {
    if tasks == [] then []
    else (if tasks[0].taskType == t then [tasks[0]] else []) + OfType(tasks[1..], t)
  }

  function Titled(tasks: seq<Task>, title: string): seq<Task> {
    if tasks == [] then []
    else (if tasks[0].title == title then [tasks[0]] else []) + Titled(tasks[1..], title)
  }

  /* The task type and task an item is booked under. A record without an unambiguous task keeps task zero. */
  function ResolveWeekly(ctx: Context, t: TaskType, r: Record, day: nat): (TaskType, nat) {
    if !IsWeekly(t) then (t, 0)
    else
      var week := WeekOf(ctx.weeks, day);
      if week.None? then (t, 0)
      else
        var candidates := if week.value.id in ctx.tasks then ctx.tasks[week.value.id] else [];
        var aggregate := OfType(candidates, WeeklyCheckin);
        if t == WeeklyBook && |aggregate| == 1 then (WeeklyCheckin, aggregate[0].id)
        else
          var matching := OfType(candidates, t);
          var titled := Titled(matching, if r.part != [] then r.part else r.detail);
          if |titled| == 1 then (t, titled[0].id)
          else if |matching| == 1 then (t, matching[0].id)
          else (t, 0)
  }

  function TheMember(users: set<nat>): nat
    requires |users| == 1
  {
    SingletonMember(users);
    var u :| u in users;
    u
  }

  lemma SingletonMember(users: set<nat>)
    requires |users| == 1
    ensures exists u :: u in users
    ensures forall u, v :: u in users && v in users ==> u == v
  {
    var u :| u in users;
    assert |users - {u}| == 0;
  }

  /* The record as it would be inserted under the given ID. */
  function Probe(ctx: Context, item: Item, id: nat): Row
    requires Acceptable(ctx, item)
  {
    var day := item.record.date.value;
    var resolved := ResolveWeekly(ctx, item.taskType, item.record, day);
    var part := if resolved.0 == WeeklyCheckin then []
      else if |item.record.part| > 64 then item.record.part[..64] else item.record.part;
    Row(id, TheMember(MembersNamed(ctx, item.record.name)), resolved.1, day, resolved.0, part, FromZkSync, 0)
  }

  // ---------- the state of a run ----------

  /* `rows` and `table` are the active records and the mappings in the database; the other maps are the program's.
     `writes` counts database changes and `dropped` the deactivated records; neither is part of the program's state. */
  datatype State = State(
    rows: map<nat, Row>, table: map<Key, Mapping>, nextId: nat,
    active: map<nat, Row>, byUnique: map<TargetKey, Row>, byTask: map<TaskKey, Row>, mappings: map<Key, Mapping>,
    seen: set<Key>, writes: nat, dropped: set<nat>)

  function Deactivated(s: State, row: Row): State {
    s.(rows := if row.id in s.rows && SourceOwned(s.rows[row.id].source) then s.rows - {row.id} else s.rows,
       active := s.active - {row.id},
       byUnique := if TargetKeyOf(row) in s.byUnique && s.byUnique[TargetKeyOf(row)].id == row.id
                   then s.byUnique - {TargetKeyOf(row)} else s.byUnique,
       byTask := if HasTaskKey(row) && TaskKeyOf(row) in s.byTask && s.byTask[TaskKeyOf(row)].id == row.id
                 then s.byTask - {TaskKeyOf(row)} else s.byTask,
       writes := s.writes + 1, dropped := s.dropped + {row.id})
  }

  /* Another key of the snapshot is mapped to the same record. */
  predicate OtherRefs(s: State, present: set<Key>, key: Key, target: nat) {
    exists other :: other in s.mappings && other != key && other in present && s.mappings[other].target == target
  }

  /* The mapping of a changed slot is given up, and its record with it when nobody else needs it. */
  function Unmapped(s: State, present: set<Key>, key: Key): State
    requires key in s.mappings
  {
    var mapping := s.mappings[key];
    var s' := if mapping.owned && mapping.target in s.active && !OtherRefs(s, present, key, mapping.target)
              then Deactivated(s, s.active[mapping.target]) else s;
    s'.(table := s'.table - {key}, mappings := s'.mappings - {key}, writes := s'.writes + 1)
  }

  function Existing(s: State, probe: Row): Option<Row> {
    if HasTaskKey(probe) && TaskKeyOf(probe) in s.byTask then Some(s.byTask[TaskKeyOf(probe)])
    else if TargetKeyOf(probe) in s.byUnique then Some(s.byUnique[TargetKeyOf(probe)])
    else None
  }

  function Inserted(s: State, row: Row): State {
    s.(rows := s.rows[row.id := row], active := s.active[row.id := row],
       byUnique := s.byUnique[TargetKeyOf(row) := row],
       byTask := if HasTaskKey(row) then s.byTask[TaskKeyOf(row) := row] else s.byTask,
       nextId := s.nextId + 1, writes := s.writes + 1)
  }

  function Mapped(s: State, key: Key, mapping: Mapping): State {
    s.(table := s.table[key := mapping], mappings := s.mappings[key := mapping], writes := s.writes + 1)
  }

  /* A record for the item is adopted or inserted, and mapped. */
  function Booked(ctx: Context, s: State, item: Item): State
    requires Acceptable(ctx, item)
  {
    var probe := Probe(ctx, item, s.nextId);
    var hash := Fingerprint(item.record, item.key.slot);
    var existing := Existing(s, probe);
    if existing.Some? then Mapped(s, item.key, Mapping(existing.value.id, hash, SourceOwned(existing.value.source)))
    else Mapped(Inserted(s, probe), item.key, Mapping(probe.id, hash, true))
  }

  predicate Unchanged(s: State, item: Item) {
    item.key in s.mappings && s.mappings[item.key].hash == Fingerprint(item.record, item.key.slot)
  }

  function ItemStep(ctx: Context, present: set<Key>, s: State, item: Item): State {
    if item.key in s.seen then s
    else
      var s1 := s.(seen := s.seen + {item.key});
      if !Acceptable(ctx, item) || Unchanged(s1, item) then s1
      else Booked(ctx, if item.key in s1.mappings then Unmapped(s1, present, item.key) else s1, item)
  }

  function ItemSteps(ctx: Context, present: set<Key>, s: State, items: seq<Item>): State {
    if items == [] then s
    else ItemStep(ctx, present, ItemSteps(ctx, present, s, items[..|items| - 1]), items[|items| - 1])
  }

  function Missing(s: State): set<Key> { s.mappings.Keys - s.seen }

  /* Absent keys are not acted upon when the snapshot looks truncated. */
  predicate Held(s: State, records: seq<Record>) {
    (s.mappings != map[] && records == []) || (|Missing(s)| > 50 && |Missing(s)| > |s.mappings| / 10)
  }

  function LiveTargets(s: State): set<nat> {
    set key | key in s.mappings && key in s.seen :: s.mappings[key].target
  }

  /* The records that lose their last mapping with these absent keys. */
  function OrphansOf(s: State, keys: set<Key>): set<nat>
    requires keys <= s.mappings.Keys
  {
    set key | key in keys && s.mappings[key].owned && s.mappings[key].target in s.active
              && s.mappings[key].target !in LiveTargets(s) :: s.mappings[key].target
  }

  function Orphans(s: State): set<nat> { OrphansOf(s, Missing(s)) }

  /* The statement that deactivates a record names the owned sources, so no other record is touched. */
  function Removed(s: State): set<nat> {
    set id | id in Orphans(s) && id in s.rows && SourceOwned(s.rows[id].source)
  }

  /* The last phase: the mappings of absent keys go, with the records only they kept. */
  function Cleared(s: State): State {
    s.(rows := s.rows - Removed(s), active := s.active - Orphans(s), table := s.table - Missing(s),
       writes := s.writes + |Missing(s)| + |Orphans(s)|, dropped := s.dropped + Orphans(s))
  }

  function Finished(s: State, records: seq<Record>): State {
    if Held(s, records) then s else Cleared(s)
  }

  function SyncRun(ctx: Context, s: State, records: seq<Record>): State {
    Finished(ItemSteps(ctx, Present(records), s, Items(records)), records)
  }

  // ---------- what the database keeps ----------

  predicate RowIds(rows: map<nat, Row>) { forall id | id in rows :: rows[id].id == id }

  /* IDs come from a counter. */
  predicate Allotted(rows: map<nat, Row>, table: map<Key, Mapping>, nextId: nat) {
    && (forall id | id in rows :: id < nextId)
    && (forall k | k in table :: table[k].target < nextId)
  }

  /* A mapping knows whether its record belongs to the synchronisation. */
  predicate OwnersKnown(rows: map<nat, Row>, table: map<Key, Mapping>) {
    forall k | k in table && table[k].target in rows :: table[k].owned <==> SourceOwned(rows[table[k].target].source)
  }

  predicate IsTarget(table: map<Key, Mapping>, id: nat) { exists k :: k in table && table[k].target == id }

  /* Every active record that the synchronisation made is the target of a mapping. */
  predicate AllMapped(rows: map<nat, Row>, table: map<Key, Mapping>) {
    forall id | id in rows && rows[id].source == FromZkSync :: IsTarget(table, id)
  }

  predicate Sound(rows: map<nat, Row>, table: map<Key, Mapping>, nextId: nat) {
    RowIds(rows) && Allotted(rows, table, nextId) && OwnersKnown(rows, table) && AllMapped(rows, table)
  }

  /* Before the first synchronisation there are no mappings and no records of it. */
  lemma StartsSound(rows: map<nat, Row>, nextId: nat)
    requires RowIds(rows) && forall id | id in rows :: id < nextId && rows[id].source != FromZkSync
    ensures Sound(rows, map[], nextId)
  {
  }

  // ---------- what a run keeps ----------

  predicate UniqueIndexed(active: map<nat, Row>, byUnique: map<TargetKey, Row>) {
    forall k | k in byUnique ::
      byUnique[k].id in active && active[byUnique[k].id] == byUnique[k] && TargetKeyOf(byUnique[k]) == k
  }

  predicate TaskIndexed(active: map<nat, Row>, byTask: map<TaskKey, Row>) {
    forall k | k in byTask ::
      byTask[k].id in active && active[byTask[k].id] == byTask[k] && HasTaskKey(byTask[k]) && TaskKeyOf(byTask[k]) == k
  }

  predicate InStep(s: State) { s.active == s.rows && s.mappings == s.table }

  /* Deactivated records are gone, and no key of the snapshot is mapped to one. */
  predicate DroppedUnused(rows: map<nat, Row>, table: map<Key, Mapping>, nextId: nat, dropped: set<nat>, present: set<Key>) {
    && (forall id | id in dropped :: id !in rows && id < nextId)
    && (forall k | k in table && k in present :: table[k].target !in dropped)
  }

  /* Records of other sources stay as they are. */
  predicate Spared(before: map<nat, Row>, rows: map<nat, Row>) {
    forall id | id in before && !SourceOwned(before[id].source) :: id in rows && rows[id] == before[id]
  }

  predicate RunInv(s: State, present: set<Key>, before: map<nat, Row>) {
    && InStep(s) && Sound(s.rows, s.table, s.nextId)
    && UniqueIndexed(s.active, s.byUnique) && TaskIndexed(s.active, s.byTask)
    && DroppedUnused(s.rows, s.table, s.nextId, s.dropped, present) && Spared(before, s.rows)
  }

  lemma DeactivatedKeeps(s: State, present: set<Key>, before: map<nat, Row>, id: nat)
    requires RunInv(s, present, before) && id in s.rows && SourceOwned(s.rows[id].source)
    ensures var s' := Deactivated(s, s.active[id]);
            && InStep(s') && RowIds(s'.rows) && Allotted(s'.rows, s'.table, s'.nextId) && OwnersKnown(s'.rows, s'.table)
            && AllMapped(s'.rows, s'.table) && UniqueIndexed(s'.active, s'.byUnique) && TaskIndexed(s'.active, s'.byTask)
            && Spared(before, s'.rows) && s'.rows == s.rows - {id} && s'.table == s.table
  {
  }

  lemma UnmappedKeeps(s: State, present: set<Key>, before: map<nat, Row>, key: Key)
    requires RunInv(s, present, before) && key in s.mappings && key in present
    ensures RunInv(Unmapped(s, present, key), present, before)
  {
    var target := s.mappings[key].target;
    var s' := Unmapped(s, present, key);
    if s.mappings[key].owned && target in s.active && !OtherRefs(s, present, key, target) {
      DeactivatedKeeps(s, present, before, target);
    }
    forall id | id in s'.rows && s'.rows[id].source == FromZkSync ensures IsTarget(s'.table, id) {
      var k :| k in s.table && s.table[k].target == id;
      if k == key {
        var other :| other in s.mappings && other != key && other in present && s.mappings[other].target == target;
        assert other in s'.table;
      } else {
        assert k in s'.table;
      }
    }
  }

  lemma MappedKeeps(s: State, present: set<Key>, before: map<nat, Row>, key: Key, mapping: Mapping)
    requires RunInv(s, present, before) && key !in s.table
    requires mapping.target in s.rows && (mapping.owned <==> SourceOwned(s.rows[mapping.target].source))
    ensures RunInv(Mapped(s, key, mapping), present, before)
  {
    var s' := Mapped(s, key, mapping);
    forall id | id in s'.rows && s'.rows[id].source == FromZkSync ensures IsTarget(s'.table, id) {
      var k :| k in s.table && s.table[k].target == id;
      assert k in s'.table;
    }
  }

  lemma InsertedKeeps(s: State, present: set<Key>, before: map<nat, Row>, row: Row)
    requires RunInv(s, present, before) && row.id == s.nextId && row.source == FromZkSync
    ensures var s' := Inserted(s, row);
            && InStep(s') && RowIds(s'.rows) && Allotted(s'.rows, s'.table, s'.nextId) && OwnersKnown(s'.rows, s'.table)
            && UniqueIndexed(s'.active, s'.byUnique) && TaskIndexed(s'.active, s'.byTask)
            && DroppedUnused(s'.rows, s'.table, s'.nextId, s'.dropped, present) && Spared(before, s'.rows)
  {
  }

  lemma NewRowMappedKeeps(s: State, present: set<Key>, before: map<nat, Row>, key: Key, row: Row, hash: Fingerprint)
    requires RunInv(s, present, before) && key !in s.table && row.id == s.nextId && row.source == FromZkSync
    ensures RunInv(Mapped(Inserted(s, row), key, Mapping(row.id, hash, true)), present, before)
  {
    InsertedKeeps(s, present, before, row);
    var s1 := Inserted(s, row);
    var s' := Mapped(s1, key, Mapping(row.id, hash, true));
    forall id | id in s'.rows && s'.rows[id].source == FromZkSync ensures IsTarget(s'.table, id) {
      if id == row.id {
        assert key in s'.table;
      } else {
        var k :| k in s.table && s.table[k].target == id;
        assert k in s'.table;
      }
    }
  }

  lemma BookedKeeps(ctx: Context, s: State, present: set<Key>, before: map<nat, Row>, item: Item)
    requires RunInv(s, present, before) && item.key !in s.table && Acceptable(ctx, item)
    ensures RunInv(Booked(ctx, s, item), present, before)
  {
    var probe := Probe(ctx, item, s.nextId);
    var hash := Fingerprint(item.record, item.key.slot);
    var existing := Existing(s, probe);
    if existing.Some? {
      MappedKeeps(s, present, before, item.key, Mapping(existing.value.id, hash, SourceOwned(existing.value.source)));
    } else {
      NewRowMappedKeeps(s, present, before, item.key, probe, hash);
    }
  }

  lemma ItemStepKeeps(ctx: Context, s: State, present: set<Key>, before: map<nat, Row>, item: Item)
    requires RunInv(s, present, before) && item.key in present
    ensures RunInv(ItemStep(ctx, present, s, item), present, before)
  {
    var s1 := s.(seen := s.seen + {item.key});
    if item.key !in s.seen && Acceptable(ctx, item) && !Unchanged(s1, item) {
      if item.key in s1.mappings {
        UnmappedKeeps(s1, present, before, item.key);
        BookedKeeps(ctx, Unmapped(s1, present, item.key), present, before, item);
      } else {
        BookedKeeps(ctx, s1, present, before, item);
      }
    }
  }

  predicate KeysIn(items: seq<Item>, keys: set<Key>) { forall i | 0 <= i < |items| :: items[i].key in keys }

  lemma {:induction false} ItemStepsKeep(ctx: Context, s: State, present: set<Key>, before: map<nat, Row>, items: seq<Item>)
    requires RunInv(s, present, before) && KeysIn(items, present)
    ensures RunInv(ItemSteps(ctx, present, s, items), present, before)
  {
    if items != [] {
      ItemStepsKeep(ctx, s, present, before, items[..|items| - 1]);
      ItemStepKeeps(ctx, ItemSteps(ctx, present, s, items[..|items| - 1]), present, before, items[|items| - 1]);
    }
  }

  lemma {:induction false} ItemsPresent(records: seq<Record>, all: seq<Record>)
    requires forall r | r in records :: r in all
    ensures KeysIn(Items(records), Present(all))
  {
    if records != [] {
      var last := records[|records| - 1];
      ItemsPresent(records[..|records| - 1], all);
      forall i | 0 <= i < |ItemsOf(last)| ensures ItemsOf(last)[i].key in Present(all) {
        assert SlotList(last)[i] in SlotList(last);
      }
    }
  }

  lemma OrphanIsOwned(s: State, id: nat)
    requires InStep(s) && OwnersKnown(s.rows, s.table) && id in Orphans(s)
    ensures id in Removed(s) && SourceOwned(s.rows[id].source) && id !in LiveTargets(s)
  {
  }

  lemma RemovedAreOrphans(s: State)
    requires InStep(s) && OwnersKnown(s.rows, s.table)
    ensures Removed(s) == Orphans(s)
  {
    forall id | id in Orphans(s) ensures id in Removed(s) { OrphanIsOwned(s, id); }
  }

  lemma MissingKeepsAllMapped(s: State)
    requires InStep(s) && OwnersKnown(s.rows, s.table) && AllMapped(s.rows, s.table)
    ensures AllMapped(s.rows - Orphans(s), s.table - Missing(s))
  {
    forall id | id in s.rows - Orphans(s) && s.rows[id].source == FromZkSync ensures IsTarget(s.table - Missing(s), id) {
      var k :| k in s.table && s.table[k].target == id;
      if k in Missing(s) {
        assert id in LiveTargets(s);
        var live :| live in s.mappings && live in s.seen && s.mappings[live].target == id;
        assert live in s.table - Missing(s);
      } else {
        assert k in s.table - Missing(s);
      }
    }
  }

  lemma MissingKeepsTheRest(rows: map<nat, Row>, table: map<Key, Mapping>, nextId: nat, gone: set<nat>, keys: set<Key>)
    requires RowIds(rows) && Allotted(rows, table, nextId) && OwnersKnown(rows, table)
    ensures RowIds(rows - gone) && Allotted(rows - gone, table - keys, nextId) && OwnersKnown(rows - gone, table - keys)
  {
  }

  lemma OrphansSpare(s: State, before: map<nat, Row>)
    requires InStep(s) && OwnersKnown(s.rows, s.table) && Spared(before, s.rows)
    ensures Spared(before, s.rows - Orphans(s))
  {
    forall id | id in before && !SourceOwned(before[id].source) ensures id !in Orphans(s) {
      if id in Orphans(s) { OrphanIsOwned(s, id); }
    }
  }

  predicate NoneDropped(table: map<Key, Mapping>, dropped: set<nat>, present: set<Key>) {
    forall k | k in table && k in present :: table[k].target !in dropped
  }

  lemma OrphansUnused(s: State, present: set<Key>)
    requires InStep(s) && NoneDropped(s.table, s.dropped, present)
    ensures NoneDropped(s.table - Missing(s), s.dropped + Orphans(s), present)
  {
    forall k | k in s.table - Missing(s) && k in present ensures s.table[k].target !in Orphans(s) {
      assert s.table[k].target in LiveTargets(s);
    }
  }

  lemma FinishedKeeps(s: State, present: set<Key>, before: map<nat, Row>, records: seq<Record>)
    requires RunInv(s, present, before)
    ensures var s' := Finished(s, records);
            Sound(s'.rows, s'.table, s'.nextId) && Spared(before, s'.rows) && NoneDropped(s'.table, s'.dropped, present)
  {
    if !Held(s, records) {
      RemovedAreOrphans(s);
      MissingKeepsAllMapped(s);
      MissingKeepsTheRest(s.rows, s.table, s.nextId, Orphans(s), Missing(s));
      OrphansSpare(s, before);
      OrphansUnused(s, present);
    }
  }

  // ---------- a run from the database's contents ----------

  /* What the program has read before it looks at the first record. With several records under one index key, any of
     them may be the one that is indexed. */
  predicate Opened(s: State) {
    && InStep(s) && s.seen == {} && s.dropped == {}
    && UniqueIndexed(s.active, s.byUnique) && TaskIndexed(s.active, s.byTask)
    && UniqueComplete(s.active, s.byUnique) && TaskComplete(s.active, s.byTask)
  }

  predicate UniqueComplete(active: map<nat, Row>, byUnique: map<TargetKey, Row>) {
    forall id | id in active :: TargetKeyOf(active[id]) in byUnique
  }

  predicate TaskComplete(active: map<nat, Row>, byTask: map<TaskKey, Row>) {
    forall id | id in active && HasTaskKey(active[id]) :: TaskKeyOf(active[id]) in byTask
  }

  lemma OpenedStarts(s: State, present: set<Key>)
    requires Opened(s) && Sound(s.rows, s.table, s.nextId)
    ensures RunInv(s, present, s.rows)
  {
  }

  /* Main result: a run keeps the database sound. In particular every active record of the synchronisation is still the
     target of a mapping, records of other sources are untouched, and no record that a key of the snapshot is mapped to
     was deactivated. */
  lemma SyncKeepsMappings(ctx: Context, s: State, records: seq<Record>)
    requires Opened(s) && Sound(s.rows, s.table, s.nextId)
    ensures var s' := SyncRun(ctx, s, records);
            && Sound(s'.rows, s'.table, s'.nextId)
            && Spared(s.rows, s'.rows)
            && NoneDropped(s'.table, s'.dropped, Present(records))
  {
    var present := Present(records);
    OpenedStarts(s, present);
    ItemsPresent(records, records);
    ItemStepsKeep(ctx, s, present, s.rows, Items(records));
    FinishedKeeps(ItemSteps(ctx, present, s, Items(records)), present, s.rows, records);
  }

  // ---------- what one item leaves alone ----------

  function KeysOf(items: seq<Item>): set<Key> { set i | 0 <= i < |items| :: items[i].key }

  lemma KeysOfInit(items: seq<Item>)
    requires items != []
    ensures KeysOf(items) == KeysOf(items[..|items| - 1]) + {items[|items| - 1].key}
  {
    var init := items[..|items| - 1];
    forall k | k in KeysOf(items) ensures k in KeysOf(init) + {items[|items| - 1].key} {
      var i :| 0 <= i < |items| && items[i].key == k;
      if i < |items| - 1 { assert init[i].key == k; }
    }
    forall k | k in KeysOf(init) + {items[|items| - 1].key} ensures k in KeysOf(items) {
      if k in KeysOf(init) {
        var i :| 0 <= i < |init| && init[i].key == k;
        assert items[i].key == k;
      }
    }
  }

  /* The two mappings agree on every key outside the set. */
  ghost predicate AgreeOutside(a: map<Key, Mapping>, b: map<Key, Mapping>, keys: set<Key>) {
    forall k | k !in keys :: (k in a <==> k in b) && (k in a ==> a[k] == b[k])
  }

  lemma UnmappedTouches(s: State, present: set<Key>, key: Key)
    requires key in s.mappings
    ensures var s' := Unmapped(s, present, key);
            s'.seen == s.seen && s'.mappings == s.mappings - {key}
  {
  }

  lemma BookedTouches(ctx: Context, s: State, item: Item)
    requires Acceptable(ctx, item)
    ensures var s' := Booked(ctx, s, item);
            s'.seen == s.seen && item.key in s'.mappings && s'.mappings == s.mappings[item.key := s'.mappings[item.key]]
            && s'.mappings[item.key].hash == Fingerprint(item.record, item.key.slot)
  {
  }

  lemma ItemStepTouches(ctx: Context, present: set<Key>, s: State, item: Item)
    ensures var s' := ItemStep(ctx, present, s, item);
            s'.seen == s.seen + {item.key} && AgreeOutside(s.mappings, s'.mappings, {item.key})
  {
    var s1 := s.(seen := s.seen + {item.key});
    if item.key !in s.seen && Acceptable(ctx, item) && !Unchanged(s1, item) {
      if item.key in s1.mappings {
        UnmappedTouches(s1, present, item.key);
        BookedTouches(ctx, Unmapped(s1, present, item.key), item);
      } else {
        BookedTouches(ctx, s1, item);
      }
    }
  }

  lemma {:induction false} ItemStepsTouch(ctx: Context, present: set<Key>, s: State, items: seq<Item>)
    ensures var s' := ItemSteps(ctx, present, s, items);
            s'.seen == s.seen + KeysOf(items) && AgreeOutside(s.mappings, s'.mappings, KeysOf(items))
  {
    if items != [] {
      var init, last := items[..|items| - 1], items[|items| - 1];
      ItemStepsTouch(ctx, present, s, init);
      ItemStepTouches(ctx, present, ItemSteps(ctx, present, s, init), last);
      KeysOfInit(items);
    }
  }

  // ---------- items one by one ----------

  lemma PresentNext(records: seq<Record>, r: Record)
    ensures Present(records + [r]) == Present(records) +
            if r.id.NotANumber? then {} else set k | 0 <= k < |SlotList(r)| :: Key(r.id.n, SlotList(r)[k].0)
  {
    var more := if r.id.NotANumber? then {} else set k | 0 <= k < |SlotList(r)| :: Key(r.id.n, SlotList(r)[k].0);
    forall key | key in Present(records + [r]) ensures key in Present(records) + more {
      var q, s :| q in records + [r] && !q.id.NotANumber? && s in SlotList(q) && key == Key(q.id.n, s.0);
      if q !in records { var k :| 0 <= k < |SlotList(r)| && SlotList(r)[k] == s; }
    }
    forall key | key in more ensures key in Present(records + [r]) {
      var k :| 0 <= k < |SlotList(r)| && key == Key(r.id.n, SlotList(r)[k].0);
      assert r in records + [r] && SlotList(r)[k] in SlotList(r);
    }
  }

  lemma ItemStepsNext(ctx: Context, present: set<Key>, s: State, items: seq<Item>, j: nat)
    requires j < |items|
    ensures ItemSteps(ctx, present, s, items[..j + 1]) == ItemStep(ctx, present, ItemSteps(ctx, present, s, items[..j]), items[j])
  {
    assert items[..j + 1][..j] == items[..j];
  }

  lemma ItemStepsAppend(ctx: Context, present: set<Key>, s: State, items: seq<Item>, item: Item)
    ensures ItemSteps(ctx, present, s, items + [item]) == ItemStep(ctx, present, ItemSteps(ctx, present, s, items), item)
  {
    assert (items + [item])[..|items|] == items;
  }

  lemma {:induction false} ItemStepsConcat(ctx: Context, present: set<Key>, s: State, a: seq<Item>, b: seq<Item>)
    ensures ItemSteps(ctx, present, s, a + b) == ItemSteps(ctx, present, ItemSteps(ctx, present, s, a), b)
  {
    if b == [] {
      assert a + b == a;
    } else {
      ItemStepsConcat(ctx, present, s, a, b[..|b| - 1]);
      ItemStepsAppend(ctx, present, s, a + b[..|b| - 1], b[|b| - 1]);
      assert (a + b[..|b| - 1]) + [b[|b| - 1]] == a + b;
    }
  }
}
