/** The synchroniser as it runs, proved equal to the specified run, loop by loop: its indexes and mappings are fields, and the
    database is the tables it writes to. */
module ZkSyncProgram {
  import opened ZkSync
  import opened ZkSyncRepeated
  import opened ZkSyncHistory
  import opened Wrappers

  // ---------- the program ----------

  /* The database and the variables of one run. */
  class Synchronizer {
    var rows: map<nat, Row>
    var table: map<Key, Mapping>
    var nextId: nat
    var active: map<nat, Row>
    var byUnique: map<TargetKey, Row>
    var byTask: map<TaskKey, Row>
    var mappings: map<Key, Mapping>
    var seen: set<Key>
    ghost var writes: nat
    ghost var dropped: set<nat>

    ghost function Now(): State
      reads this
    {
      State(rows, table, nextId, active, byUnique, byTask, mappings, seen, writes, dropped)
    }

    constructor (rows: map<nat, Row>, table: map<Key, Mapping>, nextId: nat)
      ensures Now() == State(rows, table, nextId, map[], map[], map[], map[], {}, 0, {})
    {
      this.rows, this.table, this.nextId := rows, table, nextId;
      active, byUnique, byTask, mappings, seen := map[], map[], map[], map[], {};
      writes, dropped := 0, {};
    }

    method Load()
      requires RowIds(rows)
      modifies this
      ensures Opened(Now()) && rows == old(rows) && table == old(table) && nextId == old(nextId) && writes == old(writes)
    {
      mappings, active, seen, dropped := table, rows, {}, {};
      byUnique, byTask := map[], map[];
      var left := active.Keys;
      while left != {}
        invariant left <= active.Keys
        invariant active == rows == old(rows) && mappings == table == old(table) && seen == {} && dropped == {}
        invariant nextId == old(nextId) && writes == old(writes)
        invariant UniqueIndexed(active, byUnique) && TaskIndexed(active, byTask)
        invariant forall id | id in active && id !in left ::
                    TargetKeyOf(active[id]) in byUnique && (HasTaskKey(active[id]) ==> TaskKeyOf(active[id]) in byTask)
        decreases |left|
      {
        var id :| id in left;
        left := left - {id};
        var row := active[id];
        byUnique := byUnique[TargetKeyOf(row) := row];
        if HasTaskKey(row) { byTask := byTask[TaskKeyOf(row) := row]; }
      }
    }

    method Deactivate(row: Row)
      modifies this
      ensures Now() == Deactivated(old(Now()), row)
    {
      if row.id in rows && SourceOwned(rows[row.id].source) { rows := rows - {row.id}; }
      writes, dropped := writes + 1, dropped + {row.id};
      active := active - {row.id};
      var key := TargetKeyOf(row);
      if key in byUnique && byUnique[key].id == row.id { byUnique := byUnique - {key}; }
      if HasTaskKey(row) {
        var taskKey := TaskKeyOf(row);
        if taskKey in byTask && byTask[taskKey].id == row.id { byTask := byTask - {taskKey}; }
      }
    }

    method CountOtherRefs(present: set<Key>, key: Key, target: nat) returns (n: nat)
      ensures n > 0 <==> OtherRefs(Now(), present, key, target)
    {
      n := 0;
      var left := mappings.Keys;
      while left != {}
        invariant left <= mappings.Keys
        invariant n > 0 <==> exists other :: other in mappings && other !in left && other != key && other in present
                                             && mappings[other].target == target
        decreases |left|
      {
        var other :| other in left;
        left := left - {other};
        if other in present && mappings[other].target == target && other != key { n := n + 1; }
      }
    }

    method Unmap(present: set<Key>, key: Key)
      requires key in mappings
      modifies this
      ensures Now() == Unmapped(old(Now()), present, key)
    {
      var mapping := mappings[key];
      var refs := CountOtherRefs(present, key, mapping.target);
      if mapping.owned && mapping.target in active && refs == 0 { Deactivate(active[mapping.target]); }
      table := table - {key};
      writes := writes + 1;
      mappings := mappings - {key};
    }

    method Find(probe: Row) returns (existing: Option<Row>)
      ensures existing == Existing(Now(), probe)
    {
      if HasTaskKey(probe) && TaskKeyOf(probe) in byTask { return Some(byTask[TaskKeyOf(probe)]); }
      if TargetKeyOf(probe) in byUnique { return Some(byUnique[TargetKeyOf(probe)]); }
      existing := None;
    }

    method Insert(row: Row)
      modifies this
      ensures Now() == Inserted(old(Now()), row)
    {
      rows, nextId, writes := rows[row.id := row], nextId + 1, writes + 1;
      active := active[row.id := row];
      byUnique := byUnique[TargetKeyOf(row) := row];
      if HasTaskKey(row) { byTask := byTask[TaskKeyOf(row) := row]; }
    }

    method Book(ctx: Context, item: Item)
      requires Acceptable(ctx, item)
      modifies this
      ensures Now() == Booked(ctx, old(Now()), item)
    {
      var probe := Probe(ctx, item, nextId);
      var hash := Fingerprint(item.record, item.key.slot);
      var existing := Find(probe);
      var mapping := Mapping(probe.id, hash, true);
      if existing.Some? {
        mapping := Mapping(existing.value.id, hash, SourceOwned(existing.value.source));
      } else {
        Insert(probe);
      }
      table := table[item.key := mapping];
      writes := writes + 1;
      mappings := mappings[item.key := mapping];
    }

    method ProcessItem(ctx: Context, present: set<Key>, item: Item)
      modifies this
      ensures Now() == ItemStep(ctx, present, old(Now()), item)
    {
      if item.key in seen { return; }
      seen := seen + {item.key};
      if !Acceptable(ctx, item) { return; }
      if item.key in mappings {
        if mappings[item.key].hash == Fingerprint(item.record, item.key.slot) { return; }
        Unmap(present, item.key);
      }
      Book(ctx, item);
    }

    method ProcessRecord(ctx: Context, present: set<Key>, record: Record)
      modifies this
      ensures Now() == ItemSteps(ctx, present, old(Now()), ItemsOf(record))
    {
      ghost var start := Now();
      var items := ItemsOf(record);
      for j := 0 to |items|
        invariant Now() == ItemSteps(ctx, present, start, items[..j])
      {
        ProcessItem(ctx, present, items[j]);
        ItemStepsNext(ctx, present, start, items, j);
      }
      assert items[..|items|] == items;
    }

    method ProcessRecords(ctx: Context, present: set<Key>, records: seq<Record>)
      modifies this
      ensures Now() == ItemSteps(ctx, present, old(Now()), Items(records))
    {
      ghost var start := Now();
      for i := 0 to |records|
        invariant Now() == ItemSteps(ctx, present, start, Items(records[..i]))
      {
        ProcessRecord(ctx, present, records[i]);
        ItemStepsConcat(ctx, present, start, Items(records[..i]), ItemsOf(records[i]));
        assert records[..i + 1][..i] == records[..i];
      }
      assert records[..|records|] == records;
    }

    method ClearKey(live: set<nat>, key: Key)
      requires key in mappings
      modifies this
      ensures Now() == KeyCleared(old(Now()), live, key)
    {
      var mapping := mappings[key];
      if mapping.owned && mapping.target in active && mapping.target !in live { Deactivate(active[mapping.target]); }
      table := table - {key};
      writes := writes + 1;
    }

    method Clear()
      requires InStep(Now()) && OwnersKnown(rows, table) && RowIds(rows)
      modifies this
      ensures Now() == Cleared(old(Now())).(byUnique := byUnique, byTask := byTask)
    {
      ghost var start := Now();
      var live := set key | key in mappings && key in seen :: mappings[key].target;
      var missing := mappings.Keys - seen;
      assert live == LiveTargets(start) && missing == Missing(start);
      var left := missing;
      ClearingStarts(start);
      assert missing - left == {};
      while left != {}
        invariant left <= missing && mappings == start.mappings
        invariant Clearing(start, Now(), missing - left)
        decreases |left|
      {
        var key :| key in left;
        ClearingNext(start, Now(), left, key);
        left := left - {key};
        ClearKey(live, key);
      }
      assert missing - left == Missing(start);
      ClearingEnds(start, Now());
    }

    method Finish(records: seq<Record>)
      requires InStep(Now()) && OwnersKnown(rows, table) && RowIds(rows)
      modifies this
      ensures Now() == Finished(old(Now()), records).(byUnique := byUnique, byTask := byTask)
    {
      var missing := mappings.Keys - seen;
      if mappings != map[] && records == [] {
      } else if |missing| > 50 && |missing| > |mappings| / 10 {
      } else {
        Clear();
      }
    }

    /* One synchronisation: the database afterwards is that of the specification's run from what was loaded. */
    method Sync(ctx: Context, records: seq<Record>) returns (ghost loaded: State)
      requires Sound(rows, table, nextId)
      modifies this
      ensures Opened(loaded) && loaded.rows == old(rows) && loaded.table == old(table) && loaded.nextId == old(nextId)
      ensures var s' := SyncRun(ctx, loaded, records); rows == s'.rows && table == s'.table && nextId == s'.nextId
      ensures Synced(Database(old(rows), old(table), old(nextId)), Database(rows, table, nextId))
    {
      Load();
      loaded := Now();
      var present := PresentKeys(records);
      ProcessRecords(ctx, present, records);
      OpenedStarts(loaded, present);
      ItemsPresent(records, records);
      ItemStepsKeep(ctx, loaded, present, loaded.rows, Items(records));
      Finish(records);
    }
  }

  method PresentKeys(records: seq<Record>) returns (keys: set<Key>)
    ensures keys == Present(records)
  {
    hide SlotList;
    keys := {};
    for i := 0 to |records|
      invariant keys == Present(records[..i])
    {
      assert records[..i + 1] == records[..i] + [records[i]];
      var slots := SlotList(records[i]);
      if !records[i].id.NotANumber? {
        for j := 0 to |slots|
          invariant keys == Present(records[..i]) + set k | 0 <= k < j :: Key(records[i].id.n, slots[k].0)
        {
          keys := keys + {Key(records[i].id.n, slots[j].0)};
        }
      }
      PresentNext(records[..i], records[i]);
    }
    assert records[..|records|] == records;
  }

  // ---------- the last phase key by key ----------

  function KeyCleared(s: State, live: set<nat>, key: Key): State
    requires key in s.mappings
  {
    var mapping := s.mappings[key];
    var s' := if mapping.owned && mapping.target in s.active && mapping.target !in live
              then Deactivated(s, s.active[mapping.target]) else s;
    s'.(table := s'.table - {key}, writes := s'.writes + 1)
  }

  lemma OrphansOfNext(s: State, keys: set<Key>, key: Key)
    requires keys <= s.mappings.Keys && key in s.mappings
    ensures OrphansOf(s, keys + {key}) == OrphansOf(s, keys) +
            (if s.mappings[key].owned && s.mappings[key].target in s.active && s.mappings[key].target !in LiveTargets(s)
             then {s.mappings[key].target} else {})
  {
  }

  /* From `start`, these keys have been cleared. */
  predicate Clearing(start: State, s: State, done: set<Key>) {
    && done <= start.mappings.Keys
    && s.mappings == start.mappings && s.seen == start.seen && s.nextId == start.nextId
    && s.rows == s.active == start.active - OrphansOf(start, done)
    && s.table == start.table - done
    && s.dropped == start.dropped + OrphansOf(start, done)
    && s.writes == start.writes + |done| + |OrphansOf(start, done)|
  }

  lemma ClearingStarts(s: State)
    requires InStep(s)
    ensures Clearing(s, s, {})
  {
    assert OrphansOf(s, {}) == {};
    MinusNothing(s.active);
    MinusNothing(s.table);
  }

  lemma OrphanCleared(start: State, s: State, done: set<Key>, key: Key, orphans: set<nat>)
    requires OwnersKnown(start.rows, start.table) && InStep(start) && RowIds(start.rows)
    requires Clearing(start, s, done) && key in start.mappings && key !in done && orphans == OrphansOf(start, done)
    requires start.mappings[key].owned && start.mappings[key].target in s.active
    requires OrphansOf(start, done + {key}) == orphans + {start.mappings[key].target}
    ensures Clearing(start, KeyCleared(s, {}, key), done + {key})
  {
    var target := start.mappings[key].target;
    MinusOneMore(start.active, orphans, target);
    MinusOneMore(start.table, done, key);
  }

  lemma MinusOneMore<K, V>(m: map<K, V>, gone: set<K>, k: K)
    ensures (m - gone) - {k} == m - (gone + {k})
  {
  }

  lemma OnlyMappingCleared(start: State, s: State, done: set<Key>, key: Key)
    requires Clearing(start, s, done) && key in start.mappings && key !in done
    requires OrphansOf(start, done + {key}) == OrphansOf(start, done)
    ensures Clearing(start, s.(table := s.table - {key}, writes := s.writes + 1), done + {key})
  {
    MinusOneMore(start.table, done, key);
  }

  lemma ClearingStep(start: State, s: State, done: set<Key>, key: Key)
    requires InStep(start) && OwnersKnown(start.rows, start.table) && RowIds(start.rows)
    requires Clearing(start, s, done) && key in Missing(start) && key !in done
    ensures Clearing(start, KeyCleared(s, LiveTargets(start), key), done + {key})
  {
    OrphansOfNext(start, done, key);
    var mapping := start.mappings[key];
    if mapping.owned && mapping.target in s.active && mapping.target !in LiveTargets(start) {
      OrphanCleared(start, s, done, key, OrphansOf(start, done));
    } else {
      if mapping.owned && mapping.target in start.active && mapping.target !in LiveTargets(start) {
        assert mapping.target in OrphansOf(start, done);
        assert OrphansOf(start, done) + {mapping.target} == OrphansOf(start, done);
      }
      OnlyMappingCleared(start, s, done, key);
    }
  }

  lemma ClearingNext(start: State, s: State, left: set<Key>, key: Key)
    requires InStep(start) && OwnersKnown(start.rows, start.table) && RowIds(start.rows)
    requires left <= Missing(start) && key in left && Clearing(start, s, Missing(start) - left)
    ensures Clearing(start, KeyCleared(s, LiveTargets(start), key), Missing(start) - (left - {key}))
  {
    ClearingStep(start, s, Missing(start) - left, key);
    assert Missing(start) - (left - {key}) == (Missing(start) - left) + {key};
  }

  lemma ClearingEnds(start: State, s: State)
    requires InStep(start) && OwnersKnown(start.rows, start.table) && Clearing(start, s, Missing(start))
    ensures s == Cleared(start).(byUnique := s.byUnique, byTask := s.byTask)
  {
    hide OwnersKnown, OrphansOf;
    RemovedAreOrphans(start);
  }
}
