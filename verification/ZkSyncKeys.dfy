/** When a synchronisation meets the unique key of the check-in table. */
module ZkSyncKeys {
  import opened ZkSync
  import opened ZkSyncRepeated
  import opened Wrappers

  // ---------- distinct keys ----------

  predicate DistinctTargets(rows: map<nat, Row>) {
    forall a, b | a in rows && b in rows && TargetKeyOf(rows[a]) == TargetKeyOf(rows[b]) :: a == b
  }

  predicate DistinctTasks(rows: map<nat, Row>) {
    forall a, b | a in rows && b in rows && HasTaskKey(rows[a]) && HasTaskKey(rows[b])
                  && TaskKeyOf(rows[a]) == TaskKeyOf(rows[b]) :: a == b
  }

  predicate TargetsExact(active: map<nat, Row>, byUnique: map<TargetKey, Row>) {
    RowIds(active) && DistinctTargets(active) && UniqueIndexed(active, byUnique) && UniqueComplete(active, byUnique)
  }

  predicate TasksExact(active: map<nat, Row>, byTask: map<TaskKey, Row>) {
    RowIds(active) && DistinctTasks(active) && TaskIndexed(active, byTask) && TaskComplete(active, byTask)
  }

  // ---------- the unique key of the table ----------

  /* Two active records may share a target key only if their extra keys differ. */
  predicate UniqueKey(rows: map<nat, Row>) {
    forall a, b | a in rows && b in rows && TargetKeyOf(rows[a]) == TargetKeyOf(rows[b]) && rows[a].extra == rows[b].extra ::
      a == b
  }

  /* No record that the synchronisation may remove shares its target key with another record of extra key zero. */
  predicate NoOwnedTwin(rows: map<nat, Row>) {
    forall a, b | a in rows && b in rows && a != b && TargetKeyOf(rows[a]) == TargetKeyOf(rows[b]) && rows[b].extra == 0 ::
      !SourceOwned(rows[a].source)
  }

  /* An active record with extra key zero has this target key. */
  predicate Taken(rows: map<nat, Row>, key: TargetKey) {
    exists id :: id in rows && rows[id].extra == 0 && TargetKeyOf(rows[id]) == key
  }

  /* A run that starts with these mappings can remove this record, through the changed content of one of them. */
  predicate Removable(start: map<Key, Mapping>, id: nat) {
    exists key :: key in start && key.id > 0 && start[key].owned && start[key].target == id
  }

  /* A snapshot can ask for a record with this target key. */
  predicate Producible(key: TargetKey) {
    && |key.part| <= 64 && !key.taskType.OtherTask?
    && (key.taskType == WeeklyCheckin ==> key.part == [])
  }

  /* The index leads from a target key that a record with extra key zero shares to a record that can be removed. */
  predicate ExposedAt(rows: map<nat, Row>, start: map<Key, Mapping>, byUnique: map<TargetKey, Row>, a: nat, b: nat) {
    && a in rows && b in rows && a != b && rows[b].extra == 0 && TargetKeyOf(rows[a]) == TargetKeyOf(rows[b])
    && Producible(TargetKeyOf(rows[a])) && Removable(start, a)
    && TargetKeyOf(rows[a]) in byUnique && byUnique[TargetKeyOf(rows[a])].id == a
  }

  predicate Exposed(s: State) { exists a, b | a in s.rows && b in s.rows :: ExposedAt(s.rows, s.mappings, s.byUnique, a, b) }

  /* The index still leads from the target key of a record with extra key zero to it, or to one that is never removed. */
  predicate Guarded(active: map<nat, Row>, byUnique: map<TargetKey, Row>, start: map<Key, Mapping>) {
    forall id | id in active && active[id].extra == 0 && Producible(TargetKeyOf(active[id])) ::
      var key := TargetKeyOf(active[id]);
      key in byUnique && (byUnique[key].id == id || !Removable(start, byUnique[key].id))
  }

  /* What a run keeps of the keys; each part needs no other. */
  predicate TargetsKept(s: State) { TargetsExact(s.active, s.byUnique) }

  predicate TasksKept(s: State) { TasksExact(s.active, s.byTask) }

  predicate KeyKept(s: State, start: map<Key, Mapping>) {
    UniqueKey(s.rows) && Guarded(s.active, s.byUnique, start)
  }

  lemma DeactivatedStaysExact(s: State, id: nat)
    requires id in s.active && RowIds(s.active)
    ensures var s' := Deactivated(s, s.active[id]);
            && (TargetsKept(s) ==> TargetsKept(s')) && (TasksKept(s) ==> TasksKept(s'))
  {
  }

  lemma DeactivatedKeepsKey(s: State, start: map<Key, Mapping>, id: nat)
    requires id in s.active && RowIds(s.active) && Removable(start, id) && InStep(s) && KeyKept(s, start)
    requires UniqueIndexed(s.active, s.byUnique)
    ensures KeyKept(Deactivated(s, s.active[id]), start)
  {
  }

  lemma NewTargetStaysExact(active: map<nat, Row>, byUnique: map<TargetKey, Row>, row: Row)
    requires TargetsExact(active, byUnique) && row.id !in active && TargetKeyOf(row) !in byUnique
    ensures TargetsExact(active[row.id := row], byUnique[TargetKeyOf(row) := row])
  {
  }

  lemma NewTaskStaysExact(active: map<nat, Row>, byTask: map<TaskKey, Row>, row: Row)
    requires TasksExact(active, byTask) && row.id !in active && (HasTaskKey(row) ==> TaskKeyOf(row) !in byTask)
    ensures TasksExact(active[row.id := row], if HasTaskKey(row) then byTask[TaskKeyOf(row) := row] else byTask)
  {
  }

  lemma NewRowKeepsKey(s: State, start: map<Key, Mapping>, row: Row)
    requires InStep(s) && KeyKept(s, start) && row.extra == 0 && row.id !in s.rows && TargetKeyOf(row) !in s.byUnique
    requires Producible(TargetKeyOf(row))
    ensures KeyKept(Inserted(s, row), start)
  {
  }

  /* An insert of the program, whose extra key is zero, meets the unique key exactly when its target key is taken. */
  lemma InsertMeetsKeyIff(rows: map<nat, Row>, row: Row)
    requires UniqueKey(rows) && row.id !in rows && row.extra == 0
    ensures !UniqueKey(rows[row.id := row]) <==> Taken(rows, TargetKeyOf(row))
  {
    var rows' := rows[row.id := row];
    if Taken(rows, TargetKeyOf(row)) {
      var id :| id in rows && rows[id].extra == 0 && TargetKeyOf(rows[id]) == TargetKeyOf(row);
      assert rows'[id] == rows[id] && rows'[row.id] == row;
    }
  }

  /* What the item's own mapping leaves of the state before a record is looked up. */
  function BeforeBooking(present: set<Key>, s: State, item: Item): State {
    var s1 := s.(seen := s.seen + {item.key});
    if item.key in s1.mappings then Unmapped(s1, present, item.key) else s1
  }

  predicate Books(ctx: Context, s: State, item: Item) {
    item.key !in s.seen && Acceptable(ctx, item) && !Unchanged(s, item)
  }

  /* The item inserts a record whose target key has left the index while a record with extra key zero still has it. */
  predicate MeetsKey(ctx: Context, present: set<Key>, s: State, item: Item) {
    Books(ctx, s, item) &&
    var s2 := BeforeBooking(present, s, item);
    var probe := Probe(ctx, item, s2.nextId);
    Existing(s2, probe).None? && Taken(s2.rows, TargetKeyOf(probe))
  }

  lemma ItemStepParts(ctx: Context, present: set<Key>, s: State, item: Item)
    ensures ItemStep(ctx, present, s, item) ==
            if Books(ctx, s, item) then Booked(ctx, BeforeBooking(present, s, item), item) else s.(seen := s.seen + {item.key})
  {
    if item.key in s.seen { assert s.seen + {item.key} == s.seen; }
  }

  lemma ProbeIsNew(ctx: Context, item: Item, id: nat)
    requires Acceptable(ctx, item)
    ensures var row := Probe(ctx, item, id); row.id == id && row.extra == 0
  {
  }

  lemma BookedParts(ctx: Context, s: State, item: Item)
    requires Acceptable(ctx, item)
    ensures var s', probe := Booked(ctx, s, item), Probe(ctx, item, s.nextId);
            var s1 := if Existing(s, probe).None? then Inserted(s, probe) else s;
            s'.rows == s1.rows && s'.active == s1.active && s'.byUnique == s1.byUnique && s'.byTask == s1.byTask
  {
  }

  lemma BeforeBookingKeeps(present: set<Key>, before: map<nat, Row>, s: State, item: Item)
    requires RunInv(s, present, before) && item.key in present
    ensures var s2 := BeforeBooking(present, s, item);
            && RunInv(s2, present, before)
            && (TargetsKept(s) ==> TargetsKept(s2)) && (TasksKept(s) ==> TasksKept(s2))
            && (forall id | id in s2.rows :: id in s.rows && s2.rows[id] == s.rows[id])
  {
    var s1 := s.(seen := s.seen + {item.key});
    if item.key in s1.mappings {
      UnmappedKeeps(s1, present, before, item.key);
      var target := s1.mappings[item.key].target;
      if target in s1.active {
        DeactivatedStaysExact(s1, target);
      }
    }
  }

  /* Main result: a step of the run makes the table refuse its insert in exactly these states. */
  lemma StepMeetsKeyIff(ctx: Context, present: set<Key>, before: map<nat, Row>, s: State, item: Item)
    requires RunInv(s, present, before) && item.key in present && UniqueKey(s.rows)
    ensures !UniqueKey(ItemStep(ctx, present, s, item).rows) <==> MeetsKey(ctx, present, s, item)
  {
    hide ItemStep, Booked, BeforeBooking, Probe, Acceptable, TargetsKept, TasksKept;
    BeforeBookingKeeps(present, before, s, item);
    ItemStepParts(ctx, present, s, item);
    if Books(ctx, s, item) {
      var s2 := BeforeBooking(present, s, item);
      ProbeIsNew(ctx, item, s2.nextId);
      BookedParts(ctx, s2, item);
      InsertMeetsKeyIff(s2.rows, Probe(ctx, item, s2.nextId));
    }
  }

  lemma NewRowStaysExact(s: State, row: Row)
    requires InStep(s) && RowIds(s.rows) && row.id !in s.rows && Existing(s, row).None?
    ensures var s' := Inserted(s, row);
            (TargetsKept(s) ==> TargetsKept(s')) && (TasksKept(s) ==> TasksKept(s'))
  {
    if TargetsKept(s) { NewTargetStaysExact(s.active, s.byUnique, row); }
    if TasksKept(s) { NewTaskStaysExact(s.active, s.byTask, row); }
  }

  lemma ItemStepStaysExact(ctx: Context, present: set<Key>, before: map<nat, Row>, s: State, item: Item)
    requires RunInv(s, present, before) && item.key in present
    ensures var s' := ItemStep(ctx, present, s, item);
            (TargetsKept(s) ==> TargetsKept(s')) && (TasksKept(s) ==> TasksKept(s'))
  {
    hide ItemStep, Booked, BeforeBooking, Probe, Acceptable, TargetsExact, TasksExact, Existing, Inserted;
    BeforeBookingKeeps(present, before, s, item);
    ItemStepParts(ctx, present, s, item);
    if Books(ctx, s, item) {
      var s2 := BeforeBooking(present, s, item);
      var probe := Probe(ctx, item, s2.nextId);
      ProbeIsNew(ctx, item, s2.nextId);
      BookedParts(ctx, s2, item);
      if Existing(s2, probe).None? { NewRowStaysExact(s2, probe); }
    }
  }

  lemma {:induction false} ItemStepsStayExact(ctx: Context, present: set<Key>, s: State, items: seq<Item>)
    requires RunInv(s, present, s.rows) && KeysIn(items, present)
    ensures var s' := ItemSteps(ctx, present, s, items);
            (TargetsKept(s) ==> TargetsKept(s')) && (TasksKept(s) ==> TasksKept(s'))
  {
    hide TargetsKept, TasksKept;
    if items != [] {
      ItemStepsStayExact(ctx, present, s, items[..|items| - 1]);
      ItemStepsKeep(ctx, s, present, s.rows, items[..|items| - 1]);
      ItemStepStaysExact(ctx, present, s.rows, ItemSteps(ctx, present, s, items[..|items| - 1]), items[|items| - 1]);
    }
  }

  /* The state after the first items. */
  function After(ctx: Context, s: State, records: seq<Record>, i: nat): State
    requires i <= |Items(records)|
  {
    ItemSteps(ctx, Present(records), s, Items(records)[..i])
  }

  lemma AfterStaysExact(ctx: Context, s: State, records: seq<Record>, i: nat)
    requires Opened(s) && Sound(s.rows, s.table, s.nextId) && i <= |Items(records)|
    ensures var s' := After(ctx, s, records, i);
            (TargetsKept(s) ==> TargetsKept(s')) && (TasksKept(s) ==> TasksKept(s')) && s'.rows == s'.active
  {
    hide TargetsKept, TasksKept;
    OpenedStarts(s, Present(records));
    ItemsPresent(records, records);
    ItemStepsStayExact(ctx, Present(records), s, Items(records)[..i]);
    ItemStepsKeep(ctx, s, Present(records), s.rows, Items(records)[..i]);
  }

  lemma AfterAll(ctx: Context, s: State, records: seq<Record>)
    ensures SyncRun(ctx, s, records) == Finished(After(ctx, s, records, |Items(records)|), records)
  {
    assert Items(records)[..|Items(records)|] == Items(records);
  }

  /* Records with distinct target keys keep them. */
  lemma SyncKeepsKeysDistinct(ctx: Context, s: State, records: seq<Record>)
    requires Opened(s) && Sound(s.rows, s.table, s.nextId) && DistinctTargets(s.rows)
    ensures forall i | 0 <= i <= |Items(records)| :: DistinctTargets(After(ctx, s, records, i).rows)
    ensures DistinctTargets(SyncRun(ctx, s, records).rows)
  {
    hide After;
    assert TargetsKept(s);
    forall i | 0 <= i <= |Items(records)| ensures DistinctTargets(After(ctx, s, records, i).rows) {
      AfterStaysExact(ctx, s, records, i);
    }
    AfterAll(ctx, s, records);
  }

  /* Records with distinct tasks keep them, whatever their target keys. */
  lemma SyncKeepsTasksDistinct(ctx: Context, s: State, records: seq<Record>)
    requires Opened(s) && Sound(s.rows, s.table, s.nextId) && DistinctTasks(s.rows)
    ensures forall i | 0 <= i <= |Items(records)| :: DistinctTasks(After(ctx, s, records, i).rows)
    ensures DistinctTasks(SyncRun(ctx, s, records).rows)
  {
    hide After;
    assert TasksKept(s);
    forall i | 0 <= i <= |Items(records)| ensures DistinctTasks(After(ctx, s, records, i).rows) {
      AfterStaysExact(ctx, s, records, i);
    }
    AfterAll(ctx, s, records);
  }

  // ---------- exactly when a run can meet the unique key ----------

  /* What the loops over records and slots produce. */
  predicate Proper(items: seq<Item>) {
    forall i | 0 <= i < |items| :: items[i].key.id > 0 && (items[i].key.slot, items[i].taskType) in SlotList(items[i].record)
  }

  lemma {:induction false} ItemsProper(records: seq<Record>)
    ensures Proper(Items(records))
  {
    if records != [] { ItemsProper(records[..|records| - 1]); }
  }

  lemma ProbeIsProducible(ctx: Context, item: Item, id: nat)
    requires Acceptable(ctx, item) && (item.key.slot, item.taskType) in SlotList(item.record)
    ensures Producible(TargetKeyOf(Probe(ctx, item, id)))
  {
  }

  lemma BeforeBookingKeepsKey(present: set<Key>, before: map<nat, Row>, start: map<Key, Mapping>, s: State, item: Item)
    requires RunInv(s, present, before) && item.key in present && item.key.id > 0 && item.key !in s.seen
    requires KeyKept(s, start) && AgreeOutside(start, s.mappings, s.seen)
    ensures KeyKept(BeforeBooking(present, s, item), start)
  {
    hide UniqueKey;
    var s1 := s.(seen := s.seen + {item.key});
    if item.key in s1.mappings {
      var mapping := s1.mappings[item.key];
      assert item.key in start && start[item.key] == mapping;
      if mapping.owned && mapping.target in s1.active { DeactivatedKeepsKey(s1, start, mapping.target); }
    }
  }

  lemma ItemStepKeepsKey(ctx: Context, present: set<Key>, before: map<nat, Row>, start: map<Key, Mapping>, s: State, item: Item)
    requires RunInv(s, present, before) && item.key in present
    requires item.key.id > 0 && (item.key.slot, item.taskType) in SlotList(item.record)
    requires KeyKept(s, start) && AgreeOutside(start, s.mappings, s.seen)
    ensures var s' := ItemStep(ctx, present, s, item); KeyKept(s', start) && AgreeOutside(start, s'.mappings, s'.seen)
  {
    hide ItemStep, Booked, BeforeBooking, Probe, Acceptable, UniqueKey, Guarded, RunInv, SlotList, Producible;
    ItemStepTouches(ctx, present, s, item);
    ItemStepParts(ctx, present, s, item);
    if Books(ctx, s, item) {
      var s2 := BeforeBooking(present, s, item);
      var probe := Probe(ctx, item, s2.nextId);
      BeforeBookingKeeps(present, before, s, item);
      BeforeBookingKeepsKey(present, before, start, s, item);
      ProbeIsNew(ctx, item, s2.nextId);
      ProbeIsProducible(ctx, item, s2.nextId);
      BookedParts(ctx, s2, item);
      RunInvParts(s2, present, before);
      if Existing(s2, probe).None? { NewRowKeepsKey(s2, start, probe); }
    }
  }

  lemma RunInvParts(s: State, present: set<Key>, before: map<nat, Row>)
    requires RunInv(s, present, before)
    ensures InStep(s) && RowIds(s.rows) && s.nextId !in s.rows
  {
  }

  lemma {:induction false} ItemStepsKeepKey(ctx: Context, present: set<Key>, s: State, items: seq<Item>)
    requires RunInv(s, present, s.rows) && KeysIn(items, present) && Proper(items) && KeyKept(s, s.mappings) && s.seen == {}
    ensures var s' := ItemSteps(ctx, present, s, items); KeyKept(s', s.mappings) && AgreeOutside(s.mappings, s'.mappings, s'.seen)
  {
    hide KeyKept, RunInv, ItemStep, AgreeOutside;
    if items == [] {
      AgreeWithItself(s.mappings, s.seen);
    } else {
      ItemStepsKeepKey(ctx, present, s, items[..|items| - 1]);
      ItemStepsKeep(ctx, s, present, s.rows, items[..|items| - 1]);
      ItemStepKeepsKey(ctx, present, s.rows, s.mappings, ItemSteps(ctx, present, s, items[..|items| - 1]), items[|items| - 1]);
    }
  }

  lemma AgreeWithItself(m: map<Key, Mapping>, keys: set<Key>)
    ensures AgreeOutside(m, m, keys)
  {
  }

  /* When nothing is exposed, no insert of any run is refused. */
  lemma UnexposedKeepsKey(ctx: Context, s: State, records: seq<Record>, i: nat)
    requires Opened(s) && Sound(s.rows, s.table, s.nextId) && UniqueKey(s.rows) && !Exposed(s) && i <= |Items(records)|
    ensures UniqueKey(After(ctx, s, records, i).rows)
  {
    forall id | id in s.active && s.active[id].extra == 0 && Producible(TargetKeyOf(s.active[id]))
      ensures var key := TargetKeyOf(s.active[id]);
              key in s.byUnique && (s.byUnique[key].id == id || !Removable(s.mappings, s.byUnique[key].id))
    {
      assert !ExposedAt(s.rows, s.mappings, s.byUnique, s.byUnique[TargetKeyOf(s.active[id])].id, id);
    }
    assert KeyKept(s, s.mappings);
    OpenedStarts(s, Present(records));
    ItemsPresent(records, records);
    ItemsProper(records);
    ItemStepsKeepKey(ctx, Present(records), s, Items(records)[..i]);
  }
}
