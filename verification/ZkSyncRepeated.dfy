/** A second run on a snapshot, and absent keys. */
module ZkSyncRepeated {
  import opened ZkSync
  import opened Wrappers

  // ---------- idempotence ----------

  predicate FirstOfItsKey(items: seq<Item>, i: nat)
    requires i < |items|
  {
    forall j | 0 <= j < i :: items[j].key != items[i].key
  }

  predicate Recorded(mappings: map<Key, Mapping>, item: Item) {
    item.key in mappings && mappings[item.key].hash == Fingerprint(item.record, item.key.slot)
  }

  /* The first acceptable item of each key is mapped with its own content. */
  predicate Settled(ctx: Context, mappings: map<Key, Mapping>, items: seq<Item>) {
    forall i | 0 <= i < |items| && FirstOfItsKey(items, i) && Acceptable(ctx, items[i]) :: Recorded(mappings, items[i])
  }

  lemma ItemStepRecords(ctx: Context, present: set<Key>, s: State, item: Item)
    requires item.key !in s.seen && Acceptable(ctx, item)
    ensures Recorded(ItemStep(ctx, present, s, item).mappings, item)
  {
  }

  lemma {:induction false} ItemStepsSettle(ctx: Context, present: set<Key>, s: State, items: seq<Item>)
    requires s.seen == {}
    ensures Settled(ctx, ItemSteps(ctx, present, s, items).mappings, items)
  {
    if items != [] {
      var init, last := items[..|items| - 1], items[|items| - 1];
      var s1 := ItemSteps(ctx, present, s, init);
      ItemStepsSettle(ctx, present, s, init);
      ItemStepsTouch(ctx, present, s, init);
      ItemStepTouches(ctx, present, s1, last);
      var s' := ItemStep(ctx, present, s1, last);
      forall i | 0 <= i < |items| && FirstOfItsKey(items, i) && Acceptable(ctx, items[i])
        ensures Recorded(s'.mappings, items[i])
      {
        if i == |items| - 1 {
          assert last.key !in s1.seen;
          ItemStepRecords(ctx, present, s1, last);
        } else {
          assert init[i] == items[i] && FirstOfItsKey(init, i);
          if items[i].key == last.key {
            assert last.key in s1.seen;
          }
        }
      }
    }
  }

  lemma FirstInLonger(items: seq<Item>, init: seq<Item>, i: nat)
    requires i < |init| && init <= items && FirstOfItsKey(init, i)
    ensures FirstOfItsKey(items, i)
  {
  }

  lemma SettledInit(ctx: Context, mappings: map<Key, Mapping>, items: seq<Item>)
    requires items != [] && Settled(ctx, mappings, items)
    ensures Settled(ctx, mappings, items[..|items| - 1])
  {
    hide Acceptable, Recorded, FirstOfItsKey;
    var init := items[..|items| - 1];
    forall i | 0 <= i < |init| && FirstOfItsKey(init, i) && Acceptable(ctx, init[i]) ensures Recorded(mappings, init[i]) {
      FirstInLonger(items, init, i);
      assert items[i] == init[i];
    }
  }

  lemma SettledLast(ctx: Context, mappings: map<Key, Mapping>, items: seq<Item>)
    requires items != [] && Settled(ctx, mappings, items)
    ensures var last := items[|items| - 1];
            last.key in KeysOf(items[..|items| - 1]) || !Acceptable(ctx, last) || Recorded(mappings, last)
  {
    var init, last := items[..|items| - 1], items[|items| - 1];
    if last.key !in KeysOf(init) {
      forall j | 0 <= j < |items| - 1 ensures items[j].key != last.key { assert init[j].key in KeysOf(init); }
      assert FirstOfItsKey(items, |items| - 1);
    }
  }

  lemma ItemDoesNothing(ctx: Context, present: set<Key>, s: State, item: Item)
    requires item.key in s.seen || !Acceptable(ctx, item) || Recorded(s.mappings, item)
    ensures ItemStep(ctx, present, s, item) == s.(seen := s.seen + {item.key})
  {
    if item.key in s.seen { assert s.seen + {item.key} == s.seen; }
  }

  /* Nothing is left to do for settled items. */
  lemma {:induction false} SettledItemsDoNothing(ctx: Context, present: set<Key>, s: State, items: seq<Item>)
    requires s.seen == {} && Settled(ctx, s.mappings, items)
    ensures ItemSteps(ctx, present, s, items) == s.(seen := KeysOf(items))
  {
    if items == [] {
      assert KeysOf(items) == {};
    } else {
      var init, last := items[..|items| - 1], items[|items| - 1];
      SettledInit(ctx, s.mappings, items);
      SettledItemsDoNothing(ctx, present, s, init);
      SettledLast(ctx, s.mappings, items);
      ItemDoesNothing(ctx, present, s.(seen := KeysOf(init)), last);
      KeysOfInit(items);
    }
  }

  lemma SettledWithin(ctx: Context, mappings: map<Key, Mapping>, items: seq<Item>, gone: set<Key>)
    requires Settled(ctx, mappings, items) && gone !! KeysOf(items)
    ensures Settled(ctx, mappings - gone, items)
  {
    forall i | 0 <= i < |items| && FirstOfItsKey(items, i) && Acceptable(ctx, items[i])
      ensures Recorded(mappings - gone, items[i])
    {
      assert items[i].key in KeysOf(items);
    }
  }

  lemma NoOrphans(s: State)
    requires Missing(s) == {}
    ensures Orphans(s) == {} && Removed(s) == {}
  {
  }

  lemma NothingMissing(s: State)
    requires Missing(s) == {}
    ensures Cleared(s).rows == s.rows && Cleared(s).table == s.table && Cleared(s).writes == s.writes
  {
    NoOrphans(s);
    MinusNothing(s.rows);
    MinusNothing(s.table);
  }

  lemma MinusNothing<K, V>(m: map<K, V>)
    ensures m - {} == m
  {
  }

  /* The second run is held exactly as the first was, or finds no absent key. */
  lemma SecondMissing(s: State, again: State, records: seq<Record>)
    requires s.mappings == s.table && again.mappings == again.table && again.seen == s.seen
    requires again.table == Finished(s, records).table
    ensures if Held(s, records) then Held(again, records) else Missing(again) == {}
  {
    if Held(s, records) {
      assert Missing(again) == Missing(s);
    }
  }

  lemma SettledAfterFinish(ctx: Context, s: State, items: seq<Item>, records: seq<Record>)
    requires s.mappings == s.table && s.seen == KeysOf(items) && Settled(ctx, s.mappings, items)
    ensures Settled(ctx, Finished(s, records).table, items)
  {
    if !Held(s, records) { SettledWithin(ctx, s.mappings, items, Missing(s)); }
  }

  /* Main result: a second run on the same snapshot and context, whatever it reads its indexes as, changes nothing. */
  lemma SyncIsIdempotent(ctx: Context, s: State, again: State, records: seq<Record>)
    requires Opened(s) && Sound(s.rows, s.table, s.nextId)
    requires Opened(again)
    requires again.rows == SyncRun(ctx, s, records).rows && again.table == SyncRun(ctx, s, records).table
    ensures var s' := SyncRun(ctx, again, records);
            s'.rows == again.rows && s'.table == again.table && s'.writes == again.writes
  {
    var present, items := Present(records), Items(records);
    var s1 := ItemSteps(ctx, present, s, items);
    ItemStepsTouch(ctx, present, s, items);
    ItemStepsSettle(ctx, present, s, items);
    InStepAfterItems(ctx, s, records);
    SettledAfterFinish(ctx, s1, items, records);
    SettledItemsDoNothing(ctx, present, again, items);
    SecondFinish(s1, again.(seen := KeysOf(items)), records);
  }

  lemma SecondFinish(s: State, again: State, records: seq<Record>)
    requires s.mappings == s.table && again.mappings == again.table && again.seen == s.seen
    requires again.table == Finished(s, records).table
    ensures var s' := Finished(again, records);
            s'.rows == again.rows && s'.table == again.table && s'.writes == again.writes
  {
    SecondMissing(s, again, records);
    if !Held(s, records) { NothingMissing(again); }
  }

  lemma InStepAfterItems(ctx: Context, s: State, records: seq<Record>)
    requires Opened(s) && Sound(s.rows, s.table, s.nextId)
    ensures InStep(ItemSteps(ctx, Present(records), s, Items(records)))
  {
    OpenedStarts(s, Present(records));
    ItemsPresent(records, records);
    ItemStepsKeep(ctx, s, Present(records), s.rows, Items(records));
  }

  // ---------- absent keys ----------

  /* A key of the snapshot was mapped to this record under another content. */
  predicate Replaced(table: map<Key, Mapping>, items: seq<Item>, id: nat) {
    exists i :: 0 <= i < |items| && items[i].key in table && table[items[i].key].target == id
                && !Recorded(table, items[i])
  }

  lemma ItemStepRemoves(ctx: Context, present: set<Key>, s: State, item: Item)
    requires InStep(s) && RowIds(s.rows)
    ensures var s' := ItemStep(ctx, present, s, item);
            forall id | id in s.rows && id !in s'.rows ::
              item.key !in s.seen && item.key in s.mappings && s.mappings[item.key].target == id && !Recorded(s.mappings, item)
  {
  }

  lemma {:induction false} ItemStepsRemoveReplaced(ctx: Context, present: set<Key>, s: State, items: seq<Item>, id: nat)
    requires RunInv(s, present, s.rows) && KeysIn(items, present) && s.seen == {}
    requires id in s.rows && id !in ItemSteps(ctx, present, s, items).rows
    ensures Replaced(s.table, items, id)
  {
    if items != [] {
      var init, last := items[..|items| - 1], items[|items| - 1];
      var s1 := ItemSteps(ctx, present, s, init);
      if id !in s1.rows {
        ItemStepsRemoveReplaced(ctx, present, s, init, id);
        var i :| 0 <= i < |init| && init[i].key in s.table && s.table[init[i].key].target == id && !Recorded(s.table, init[i]);
        assert items[i] == init[i];
      } else {
        ItemStepsKeep(ctx, s, present, s.rows, init);
        ItemStepRemoves(ctx, present, s1, last);
        ItemStepsTouch(ctx, present, s, init);
        assert items[|items| - 1] == last;
      }
    }
  }

  lemma AbsentKeys(ctx: Context, s: State, records: seq<Record>)
    requires Opened(s) && Sound(s.rows, s.table, s.nextId)
    ensures var s1 := ItemSteps(ctx, Present(records), s, Items(records));
            && Missing(s1) == s.table.Keys - KeysOf(Items(records))
            && (forall k | k in Missing(s1) :: k in s1.table && s1.table[k] == s.table[k])
  {
    InStepAfterItems(ctx, s, records);
    ItemStepsTouch(ctx, Present(records), s, Items(records));
  }

  /* Absent keys are left alone when the snapshot is empty, or when more than fifty of them and more than a tenth of all keys
     that are known after the snapshot are absent. */
  predicate TooManyAbsent(records: seq<Record>, absent: set<Key>, known: set<Key>) {
    (records == [] && known != {}) || (|absent| > 50 && |absent| > |known| / 10)
  }

  lemma HeldIff(ctx: Context, s: State, records: seq<Record>)
    requires Opened(s) && Sound(s.rows, s.table, s.nextId)
    ensures var absent, s' := s.table.Keys - KeysOf(Items(records)), SyncRun(ctx, s, records);
            Held(ItemSteps(ctx, Present(records), s, Items(records)), records) <==>
            TooManyAbsent(records, absent, s'.table.Keys + absent)
  {
    hide ItemSteps, Held, Finished, TooManyAbsent, Opened, Sound;
    AbsentKeys(ctx, s, records);
    InStepAfterItems(ctx, s, records);
    HeldAfterItems(ItemSteps(ctx, Present(records), s, Items(records)), records);
  }

  lemma HeldAfterItems(s: State, records: seq<Record>)
    requires InStep(s)
    ensures Held(s, records) <==> TooManyAbsent(records, Missing(s), Finished(s, records).table.Keys + Missing(s))
  {
    assert Finished(s, records).table.Keys + Missing(s) == s.mappings.Keys;
    assert s.mappings != map[] <==> s.mappings.Keys != {};
    assert |s.mappings| == |s.mappings.Keys|;
  }

  /* Main result: the fate of what the snapshot does not mention. When too much is absent, an absent key keeps its mapping,
     and a record goes only because a key of the snapshot has changed; otherwise exactly the absent keys lose theirs, and
     with them go the records of the synchronisation that nothing is mapped to any more. */
  lemma AbsenceRemovesOnlyUnlessHeld(ctx: Context, s: State, records: seq<Record>)
    requires Opened(s) && Sound(s.rows, s.table, s.nextId)
    ensures var items, s' := Items(records), SyncRun(ctx, s, records);
            var absent := s.table.Keys - KeysOf(items);
            var held := TooManyAbsent(records, absent, s'.table.Keys + absent);
            && (forall k | k in absent :: if held then k in s'.table && s'.table[k] == s.table[k] else k !in s'.table)
            && (held ==> forall id | id in s.rows && id !in s'.rows :: Replaced(s.table, items, id))
            && (!held ==> forall k | k in absent && s.table[k].owned && !IsTarget(s'.table, s.table[k].target) ::
                  s.table[k].target !in s'.rows)
  {
    var items := Items(records);
    var s1 := ItemSteps(ctx, Present(records), s, items);
    HeldIff(ctx, s, records);
    AbsentKeys(ctx, s, records);
    OpenedStarts(s, Present(records));
    ItemsPresent(records, records);
    forall id | Held(s1, records) && id in s.rows && id !in s1.rows ensures Replaced(s.table, items, id) {
      ItemStepsRemoveReplaced(ctx, Present(records), s, items, id);
    }
    if !Held(s1, records) {
      InStepAfterItems(ctx, s, records);
      ItemStepsKeep(ctx, s, Present(records), s.rows, items);
      forall k | k in s.table.Keys - KeysOf(items) && s.table[k].owned && !IsTarget(SyncRun(ctx, s, records).table, s.table[k].target)
        ensures s.table[k].target !in SyncRun(ctx, s, records).rows
      {
        OrphanGoes(s1, records, k);
      }
    }
  }

  lemma OrphanGoes(s: State, records: seq<Record>, k: Key)
    requires InStep(s) && OwnersKnown(s.rows, s.table) && !Held(s, records)
    requires k in Missing(s) && s.table[k].owned && !IsTarget(Finished(s, records).table, s.table[k].target)
    ensures s.table[k].target !in Finished(s, records).rows
  {
    var id := s.table[k].target;
    if id in s.rows {
      forall live | live in s.mappings && live in s.seen ensures s.mappings[live].target != id {
        assert live in Finished(s, records).table && Finished(s, records).table[live] == s.mappings[live];
      }
      assert id in Orphans(s);
    }
  }

  /* A changed slot gives up its record exactly when the synchronisation made it and no other key of the snapshot has it. */
  lemma StepReplacesIff(ctx: Context, present: set<Key>, s: State, item: Item, id: nat)
    requires InStep(s) && RowIds(s.rows) && OwnersKnown(s.rows, s.table) && id in s.rows && s.nextId !in s.rows
    ensures id !in ItemStep(ctx, present, s, item).rows <==>
            && item.key !in s.seen && Acceptable(ctx, item)
            && item.key in s.table && s.table[item.key].target == id && s.table[item.key].owned
            && s.table[item.key].hash != Fingerprint(item.record, item.key.slot)
            && forall k | k in s.table && k in present && s.table[k].target == id :: k == item.key
  {
    hide Acceptable;
    if Acceptable(ctx, item) { ProbeIs(ctx, item, s.nextId); }
  }

  lemma ProbeIs(ctx: Context, item: Item, id: nat)
    requires Acceptable(ctx, item)
    ensures Probe(ctx, item, id).id == id
  {
  }

  /* An empty snapshot changes nothing. */
  lemma EmptySnapshotChangesNothing(ctx: Context, s: State)
    requires Opened(s)
    ensures var s' := SyncRun(ctx, s, []); s'.rows == s.rows && s'.table == s.table && s'.writes == s.writes
  {
    assert ItemSteps(ctx, Present([]), s, Items([])) == s;
    if s.mappings == map[] { NothingMissing(s); }
  }
}
