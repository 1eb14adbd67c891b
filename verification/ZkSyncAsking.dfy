/** Snapshots that make the table refuse an insert. One or two records ask for the target key that the index leads to a
    removable record: the changed content of the first removes that record, and with it the key from the index; the first
    record itself, if its slot is of the key's type, or else a second one under a new source ID then asks for a record
    under the key, which another record still has. */
module ZkSyncAsking {
  import opened ZkSync
  import opened ZkSyncRepeated
  import opened ZkSyncKeys
  import opened Wrappers

  function SlotFor(t: TaskType): Slot {
    match t
    case DailyDevotion => DailySlot
    case WeeklyVideo => VideoSlot
    case WeeklyVerse => VerseSlot
    case Reflection => ReflectionSlot
    case ReciteExam => ReciteSlot
    case _ => BookSlot
  }

  function TypeFor(slot: Slot): TaskType {
    match slot
    case DailySlot => DailyDevotion
    case BookSlot => WeeklyBook
    case VideoSlot => WeeklyVideo
    case VerseSlot => WeeklyVerse
    case ReflectionSlot => Reflection
    case ReciteSlot => ReciteExam
  }

  /* A record with one slot that asks for the date and part of a target key. */
  function Asking(key: Key, target: TargetKey, note: string): Record {
    var kind := if key.slot == ReflectionSlot then ReflectionKind else if key.slot == ReciteSlot then ReciteKind else NoKind;
    Record(Whole(key.id), "N", key.slot == DailySlot, key.slot == BookSlot, key.slot == VideoSlot, key.slot == VerseSlot, kind,
           Some(target.date), Some(0), target.part, [], note, false)
  }

  function AskingItem(key: Key, target: TargetKey, note: string): Item {
    Item(key, Asking(key, target, note), TypeFor(key.slot))
  }

  /* Its member is the only one, and a weekly check-in is what readings are booked under. */
  function AskingContext(target: TargetKey, task: nat): Context {
    if target.taskType == WeeklyCheckin then
      Context(target.date, map["N" := {target.user}], [Week(0, target.date, target.date)], map[0 := [Task(task, WeeklyCheckin, [])]])
    else Context(target.date, map["N" := {target.user}], [], map[])
  }

  lemma AskingHasOneSlot(key: Key, target: TargetKey, note: string)
    ensures SlotList(Asking(key, target, note)) == [(key.slot, TypeFor(key.slot))]
  {
  }

  /* The record asks for the target key if its slot is that of the key's type, and then names no task but the given one;
     else it asks for another target key, without a task. */
  lemma AskingProbe(key: Key, target: TargetKey, note: string, task: nat, id: nat)
    requires Producible(target)
    ensures var ctx, item := AskingContext(target, task), AskingItem(key, target, note);
            Acceptable(ctx, item) &&
            var probe := Probe(ctx, item, id);
            if key.slot == SlotFor(target.taskType)
            then TargetKeyOf(probe) == target && (HasTaskKey(probe) ==> TaskKeyOf(probe) == TaskKey(target.user, WeeklyCheckin, task))
            else TargetKeyOf(probe) != target && !HasTaskKey(probe)
  {
    var ctx, item := AskingContext(target, task), AskingItem(key, target, note);
    assert MembersNamed(ctx, "N") == {target.user};
    SingletonMember({target.user});
    assert OfType([Task(task, WeeklyCheckin, [])], WeeklyCheckin) == [Task(task, WeeklyCheckin, [])];
    assert forall t: TaskType :: t != WeeklyCheckin ==> OfType([Task(task, WeeklyCheckin, [])], t) == [];
  }

  lemma {:induction false} Fresh(used: set<nat>) returns (n: nat)
    ensures n > 0 && forall k | k in used :: k < n
    decreases |used|
  {
    if used == {} {
      n := 1;
    } else {
      var k :| k in used;
      var m := Fresh(used - {k});
      n := if k < m then m else k + 1;
      assert used == (used - {k}) + {k};
    }
  }

  /* The mapping through which the exposed record can be removed. */
  predicate Exposing(s: State, a: nat, b: nat, key: Key) {
    && ExposedAt(s.rows, s.mappings, s.byUnique, a, b)
    && key in s.mappings && key.id > 0 && s.mappings[key].owned && s.mappings[key].target == a
  }

  /* The first record's changed content removes the exposed record, and its target key leaves the index. */
  lemma ExposedLeavesIndex(present: set<Key>, s: State, item: Item, a: nat, b: nat)
    requires InStep(s) && RowIds(s.rows) && UniqueIndexed(s.active, s.byUnique) && OwnersKnown(s.rows, s.table)
    requires Exposing(s, a, b, item.key)
    requires forall key | key in present && key in s.mappings :: key == item.key
    ensures var s2, target := BeforeBooking(present, s, item), TargetKeyOf(s.rows[a]);
            && target !in s2.byUnique && Taken(s2.rows, target) && s2.nextId == s.nextId
            && s2.byTask.Keys <= s.byTask.Keys && s2.mappings == s.mappings - {item.key} && s2.seen == s.seen + {item.key}
            && (forall id | id in s2.rows :: id in s.rows && s2.rows[id] == s.rows[id])
  {
    var s1 := s.(seen := s.seen + {item.key});
    var s2 := BeforeBooking(present, s, item);
    assert !OtherRefs(s1, present, item.key, a);
    assert s2.rows == s.rows - {a};
    assert b in s2.rows;
  }

  /* When the first record asks for the exposed target key, its insert is refused. */
  lemma SameSlotMeetsKey(ctx: Context, present: set<Key>, s: State, item: Item, a: nat, b: nat)
    requires InStep(s) && RowIds(s.rows) && UniqueIndexed(s.active, s.byUnique) && OwnersKnown(s.rows, s.table)
    requires Exposing(s, a, b, item.key)
    requires forall key | key in present && key in s.mappings :: key == item.key
    requires Books(ctx, s, item)
    requires var probe := Probe(ctx, item, s.nextId);
             TargetKeyOf(probe) == TargetKeyOf(s.rows[a]) && (HasTaskKey(probe) ==> TaskKeyOf(probe) !in s.byTask)
    ensures MeetsKey(ctx, present, s, item)
  {
    hide Probe, Acceptable, BeforeBooking, Unchanged;
    ExposedLeavesIndex(present, s, item, a, b);
  }

  /* Otherwise it leaves the target key out of the index for the second one. */
  lemma OtherSlotLeavesKey(ctx: Context, present: set<Key>, s: State, item: Item, a: nat, b: nat)
    requires InStep(s) && RowIds(s.rows) && UniqueIndexed(s.active, s.byUnique) && OwnersKnown(s.rows, s.table)
    requires Exposing(s, a, b, item.key) && s.nextId !in s.rows
    requires forall key | key in present && key in s.mappings :: key == item.key
    requires Books(ctx, s, item)
    requires var probe := Probe(ctx, item, s.nextId); TargetKeyOf(probe) != TargetKeyOf(s.rows[a]) && !HasTaskKey(probe)
    ensures var s', target := ItemStep(ctx, present, s, item), TargetKeyOf(s.rows[a]);
            && target !in s'.byUnique && Taken(s'.rows, target)
            && s'.byTask.Keys <= s.byTask.Keys && s'.mappings.Keys <= s.mappings.Keys && s'.seen == s.seen + {item.key}
  {
    hide Probe, Acceptable, BeforeBooking, ItemStep, Booked;
    ExposedLeavesIndex(present, s, item, a, b);
    var s2, target := BeforeBooking(present, s, item), TargetKeyOf(s.rows[a]);
    ProbeIsNew(ctx, item, s2.nextId);
    BookedParts(ctx, s2, item);
    BookedTouches(ctx, s2, item);
    ItemStepParts(ctx, present, s, item);
    var id :| id in s2.rows && s2.rows[id].extra == 0 && TargetKeyOf(s2.rows[id]) == target;
    assert id in Booked(ctx, s2, item).rows;
  }

  /* A new source ID that asks for a target key which has left the index is refused while the key is taken. */
  lemma NewAskingMeetsKey(ctx: Context, present: set<Key>, s: State, item: Item)
    requires Acceptable(ctx, item) && item.key !in s.seen && item.key !in s.mappings
    requires var probe := Probe(ctx, item, s.nextId);
             && TargetKeyOf(probe) !in s.byUnique && Taken(s.rows, TargetKeyOf(probe))
             && (HasTaskKey(probe) ==> TaskKeyOf(probe) !in s.byTask)
    ensures MeetsKey(ctx, present, s, item)
  {
    hide Probe, Acceptable;
  }

  /* The items of one record that asks, ... */
  lemma AskingAlone(key: Key, target: TargetKey, note: string)
    requires key.id > 0
    ensures ItemsOf(Asking(key, target, note)) == [AskingItem(key, target, note)]
    ensures Items([Asking(key, target, note)]) == [AskingItem(key, target, note)]
    ensures Present([Asking(key, target, note)]) == {key}
  {
    hide SlotList;
    var r := Asking(key, target, note);
    AskingHasOneSlot(key, target, note);
    assert [r][..0] == [] && [] + [r] == [r];
    PresentNext([], r);
  }

  /* ... and of two. */
  lemma AskingTogether(first: Key, second: Key, target: TargetKey, note: string)
    requires first.id > 0 && second.id > 0
    ensures Items([Asking(first, target, note), Asking(second, target, note)]) ==
            [AskingItem(first, target, note), AskingItem(second, target, note)]
    ensures Present([Asking(first, target, note), Asking(second, target, note)]) == {first, second}
  {
    hide SlotList;
    var r1, r2 := Asking(first, target, note), Asking(second, target, note);
    AskingAlone(first, target, note);
    AskingAlone(second, target, note);
    AskingHasOneSlot(second, target, note);
    assert [r1, r2][..1] == [r1] && [r1] + [r2] == [r1, r2];
    PresentNext([r1], r2);
  }

  /* Some snapshot, in some context, makes the table refuse an insert. */
  ghost predicate CanMeetKey(s: State) {
    exists ctx, records, i: nat :: i <= |Items(records)| && !UniqueKey(After(ctx, s, records, i).rows)
  }

  lemma OneItemMeetsKey(ctx: Context, s: State, records: seq<Record>, item: Item)
    requires Opened(s) && Sound(s.rows, s.table, s.nextId) && UniqueKey(s.rows)
    requires Items(records) == [item] && Present(records) == {item.key} && MeetsKey(ctx, Present(records), s, item)
    ensures CanMeetKey(s)
  {
    hide MeetsKey, UniqueKey, RunInv, ItemStep;
    OpenedStarts(s, Present(records));
    StepMeetsKeyIff(ctx, Present(records), s.rows, s, item);
    ItemStepsAppend(ctx, Present(records), s, [], item);
    assert [] + [item] == [item] && [item][..1] == [item];
    assert !UniqueKey(After(ctx, s, records, 1).rows);
  }

  lemma TwoItemsMeetKey(ctx: Context, s: State, records: seq<Record>, first: Item, second: Item)
    requires Opened(s) && Sound(s.rows, s.table, s.nextId) && UniqueKey(s.rows)
    requires Items(records) == [first, second] && Present(records) == {first.key, second.key}
    requires MeetsKey(ctx, Present(records), ItemStep(ctx, Present(records), s, first), second)
    ensures CanMeetKey(s)
  {
    hide MeetsKey, UniqueKey, RunInv, ItemStep;
    var present := Present(records);
    var s1 := ItemStep(ctx, present, s, first);
    OpenedStarts(s, present);
    ItemStepKeeps(ctx, s, present, s.rows, first);
    ItemStepsAppend(ctx, present, s, [], first);
    ItemStepsAppend(ctx, present, s, [first], second);
    assert [] + [first] == [first] && [first] + [second] == [first, second];
    assert Items(records)[..1] == [first] && Items(records)[..2] == [first, second];
    if UniqueKey(s1.rows) {
      StepMeetsKeyIff(ctx, present, s.rows, s1, second);
      assert !UniqueKey(After(ctx, s, records, 2).rows);
    } else {
      assert !UniqueKey(After(ctx, s, records, 1).rows);
    }
  }

  /* Asking for the shared target key under this source key with new content, and with a task that is not indexed. */
  predicate Asks(s: State, a: nat, b: nat, key: Key, note: string, task: nat) {
    && Exposing(s, a, b, key) && note != s.mappings[key].hash.content.note
    && TaskKey(TargetKeyOf(s.rows[a]).user, WeeklyCheckin, task) !in s.byTask
  }

  lemma AskingBooks(s: State, a: nat, b: nat, key: Key, note: string, task: nat)
    requires s.seen == {} && Asks(s, a, b, key, note, task)
    ensures Books(AskingContext(TargetKeyOf(s.rows[a]), task), s, AskingItem(key, TargetKeyOf(s.rows[a]), note))
  {
    AskingProbe(key, TargetKeyOf(s.rows[a]), note, task, s.nextId);
  }

  lemma SameSlotCanMeetKey(s: State, a: nat, b: nat, key: Key, note: string, task: nat)
    requires Opened(s) && Sound(s.rows, s.table, s.nextId) && UniqueKey(s.rows)
    requires Asks(s, a, b, key, note, task) && key.slot == SlotFor(TargetKeyOf(s.rows[a]).taskType)
    ensures CanMeetKey(s)
  {
    hide MeetsKey, Sound, CanMeetKey, Probe, Acceptable, Producible, Asking, AskingContext, UniqueKey, Taken, Books, Removable;
    SoundParts(s);
    var target := TargetKeyOf(s.rows[a]);
    var ctx, item := AskingContext(target, task), AskingItem(key, target, note);
    AskingBooks(s, a, b, key, note, task);
    AskingProbe(key, target, note, task, s.nextId);
    AskingAlone(key, target, note);
    SameSlotMeetsKey(ctx, {key}, s, item, a, b);
    OneItemMeetsKey(ctx, s, [Asking(key, target, note)], item);
  }

  /* After the first record the second one asks for the target key, which is taken and not indexed. */
  lemma SecondMeetsKey(s: State, a: nat, b: nat, key: Key, note: string, task: nat, other: Key)
    requires Opened(s) && Sound(s.rows, s.table, s.nextId)
    requires Asks(s, a, b, key, note, task) && key.slot != SlotFor(TargetKeyOf(s.rows[a]).taskType)
    requires other.id > 0 && other !in s.mappings && other.slot == SlotFor(TargetKeyOf(s.rows[a]).taskType)
    ensures var target := TargetKeyOf(s.rows[a]);
            var ctx, first, second := AskingContext(target, task), AskingItem(key, target, note), AskingItem(other, target, note);
            MeetsKey(ctx, {key, other}, ItemStep(ctx, {key, other}, s, first), second)
  {
    hide MeetsKey, Sound, Probe, Acceptable, Producible, Asking, AskingContext, ItemStep, Taken, Books, Removable;
    SoundParts(s);
    var target := TargetKeyOf(s.rows[a]);
    var ctx, first, second := AskingContext(target, task), AskingItem(key, target, note), AskingItem(other, target, note);
    AskingBooks(s, a, b, key, note, task);
    AskingProbe(key, target, note, task, s.nextId);
    OtherSlotLeavesKey(ctx, {key, other}, s, first, a, b);
    var s1 := ItemStep(ctx, {key, other}, s, first);
    AskingProbe(other, target, note, task, s1.nextId);
    NewAskingMeetsKey(ctx, {key, other}, s1, second);
  }

  lemma OtherSlotCanMeetKey(s: State, a: nat, b: nat, key: Key, note: string, task: nat, other: Key)
    requires Opened(s) && Sound(s.rows, s.table, s.nextId) && UniqueKey(s.rows)
    requires Asks(s, a, b, key, note, task) && key.slot != SlotFor(TargetKeyOf(s.rows[a]).taskType)
    requires other.id > 0 && other !in s.mappings && other.slot == SlotFor(TargetKeyOf(s.rows[a]).taskType)
    ensures CanMeetKey(s)
  {
    hide MeetsKey, Sound, CanMeetKey, Asking, AskingContext, UniqueKey, ItemStep, Opened;
    var target := TargetKeyOf(s.rows[a]);
    AskingTogether(key, other, target, note);
    SecondMeetsKey(s, a, b, key, note, task, other);
    TwoItemsMeetKey(AskingContext(target, task), s, [Asking(key, target, note), Asking(other, target, note)],
                    AskingItem(key, target, note), AskingItem(other, target, note));
  }

  lemma FreshTask(byTask: map<TaskKey, Row>) returns (task: nat)
    ensures task > 0 && forall k | k in byTask :: k.task != task
  {
    var tasks: set<nat> := set k | k in byTask :: k.task;
    task := Fresh(tasks);
    assert forall k | k in byTask :: k.task in tasks;
  }

  lemma FreshSource(mappings: map<Key, Mapping>) returns (source: nat)
    ensures source > 0 && forall k | k in mappings :: k.id != source
  {
    var sources: set<nat> := set k | k in mappings && k.id > 0 :: k.id;
    source := Fresh(sources);
    assert forall k | k in mappings && k.id > 0 :: k.id in sources;
  }

  lemma ExposedMeetsKey(s: State, a: nat, b: nat, key: Key)
    requires Opened(s) && Sound(s.rows, s.table, s.nextId) && UniqueKey(s.rows) && Exposing(s, a, b, key)
    ensures CanMeetKey(s)
  {
    hide Opened, Sound, CanMeetKey, UniqueKey, Removable, Producible;
    var task := FreshTask(s.byTask);
    var source := FreshSource(s.mappings);
    var note := if s.mappings[key].hash.content.note == "" then "x" else "";
    var slot := SlotFor(TargetKeyOf(s.rows[a]).taskType);
    assert Asks(s, a, b, key, note, task);
    if key.slot == slot {
      SameSlotCanMeetKey(s, a, b, key, note, task);
    } else {
      OtherSlotCanMeetKey(s, a, b, key, note, task, Key(source, slot));
    }
  }

  lemma SoundParts(s: State)
    requires Sound(s.rows, s.table, s.nextId)
    ensures RowIds(s.rows) && OwnersKnown(s.rows, s.table) && s.nextId !in s.rows
  {
  }
}
