/** Synchronisations and the edits of everybody else, over any history: what every run keeps is kept whatever others do to the
    records in between. */
module ZkSyncHistory {
  import opened ZkSync
  import opened ZkSyncKeys
  import opened Wrappers

  // ---------- many runs ----------

  datatype Database = Database(rows: map<nat, Row>, table: map<Key, Mapping>, nextId: nat)

  /* One run of the program on the database. */
  ghost predicate Synced(db: Database, db': Database) {
    exists ctx, s, records ::
      && Opened(s) && s.rows == db.rows && s.table == db.table && s.nextId == db.nextId
      && var s' := SyncRun(ctx, s, records); db' == Database(s'.rows, s'.table, s'.nextId)
  }

  /* What everybody else may do: remove and change records, and add records of other sources. */
  predicate Edited(db: Database, db': Database) {
    && db'.table == db.table && db.nextId <= db'.nextId && RowIds(db'.rows)
    && forall id | id in db'.rows ::
         if id in db.rows then db'.rows[id].source == db.rows[id].source
         else db.nextId <= id < db'.nextId && db'.rows[id].source != FromZkSync
  }

  ghost predicate History(dbs: seq<Database>) {
    forall i | 0 < i < |dbs| :: Synced(dbs[i - 1], dbs[i]) || Edited(dbs[i - 1], dbs[i])
  }

  predicate SoundDatabase(db: Database) { Sound(db.rows, db.table, db.nextId) }

  lemma EditedKeepsSound(db: Database, db': Database)
    requires Edited(db, db') && SoundDatabase(db)
    ensures SoundDatabase(db')
  {
  }

  /* Main result: over every history of runs and foreign edits, each active record that the synchronisation made is the
     target of a mapping. */
  lemma {:induction false} HistoryKeepsSound(dbs: seq<Database>)
    requires dbs != [] && SoundDatabase(dbs[0]) && History(dbs)
    ensures forall i | 0 <= i < |dbs| :: SoundDatabase(dbs[i])
  {
    if |dbs| > 1 {
      var init := dbs[..|dbs| - 1];
      HistoryKeepsSound(init);
      var db, db' := dbs[|dbs| - 2], dbs[|dbs| - 1];
      assert SoundDatabase(init[|dbs| - 2]);
      if Edited(db, db') {
        EditedKeepsSound(db, db');
      } else {
        var ctx, s, records :|
          && Opened(s) && s.rows == db.rows && s.table == db.table && s.nextId == db.nextId
          && var s' := SyncRun(ctx, s, records); db' == Database(s'.rows, s'.table, s'.nextId);
        SyncKeepsMappings(ctx, s, records);
      }
      forall i | 0 <= i < |dbs| ensures SoundDatabase(dbs[i]) {
        if i < |dbs| - 1 { assert init[i] == dbs[i]; }
      }
    }
  }

  // ---------- the unique key over many runs ----------

  /* Records that may be removed have extra key zero: none is a migrated weekly reading with a task. */
  predicate PlainOwned(rows: map<nat, Row>) { forall id | id in rows && SourceOwned(rows[id].source) :: rows[id].extra == 0 }

  lemma PlainHasNoOwnedTwin(rows: map<nat, Row>)
    requires UniqueKey(rows) && PlainOwned(rows)
    ensures NoOwnedTwin(rows)
  {
  }

  lemma ItemStepStaysPlain(ctx: Context, present: set<Key>, s: State, item: Item)
    requires PlainOwned(s.rows)
    ensures PlainOwned(ItemStep(ctx, present, s, item).rows)
  {
    hide ItemStep, Booked, Probe, Acceptable;
    ItemStepParts(ctx, present, s, item);
    if Books(ctx, s, item) {
      var s2 := BeforeBooking(present, s, item);
      assert PlainOwned(s2.rows);
      ProbeIsNew(ctx, item, s2.nextId);
      BookedParts(ctx, s2, item);
    }
  }

  lemma {:induction false} ItemStepsStayPlain(ctx: Context, present: set<Key>, s: State, items: seq<Item>)
    requires PlainOwned(s.rows)
    ensures PlainOwned(ItemSteps(ctx, present, s, items).rows)
  {
    hide PlainOwned, ItemStep;
    if items != [] {
      ItemStepsStayPlain(ctx, present, s, items[..|items| - 1]);
      ItemStepStaysPlain(ctx, present, ItemSteps(ctx, present, s, items[..|items| - 1]), items[|items| - 1]);
    }
  }

  /* The table accepts it, and everybody else adds no migrated reading with a task. */
  predicate EditedPlainly(db: Database, db': Database) {
    Edited(db, db') && UniqueKey(db'.rows) && PlainOwned(db'.rows)
  }

  ghost predicate PlainHistory(dbs: seq<Database>) {
    forall i | 0 < i < |dbs| :: Synced(dbs[i - 1], dbs[i]) || EditedPlainly(dbs[i - 1], dbs[i])
  }

  predicate KeyedDatabase(db: Database) { SoundDatabase(db) && UniqueKey(db.rows) && PlainOwned(db.rows) }

  lemma SyncedKeepsKeyed(db: Database, db': Database)
    requires Synced(db, db') && KeyedDatabase(db)
    ensures KeyedDatabase(db')
  {
    var ctx, s, records :|
      && Opened(s) && s.rows == db.rows && s.table == db.table && s.nextId == db.nextId
      && var s' := SyncRun(ctx, s, records); db' == Database(s'.rows, s'.table, s'.nextId);
    SyncKeepsMappings(ctx, s, records);
    PlainHasNoOwnedTwin(s.rows);
    AfterAll(ctx, s, records);
    UnexposedKeepsKey(ctx, s, records, |Items(records)|);
    ItemStepsStayPlain(ctx, Present(records), s, Items(records));
  }

  /* Main result: over every history of runs and foreign edits in which no migrated reading with a task is left, the
     unique key holds, and by NoOwnedTwinKeepsKey no insert of any of its runs is refused. */
  lemma {:induction false} HistoryKeepsUniqueKey(dbs: seq<Database>)
    requires dbs != [] && KeyedDatabase(dbs[0]) && PlainHistory(dbs)
    ensures forall i | 0 <= i < |dbs| :: KeyedDatabase(dbs[i]) && NoOwnedTwin(dbs[i].rows)
  {
    hide KeyedDatabase, Synced;
    if |dbs| > 1 {
      var init := dbs[..|dbs| - 1];
      HistoryKeepsUniqueKey(init);
      var db, db' := dbs[|dbs| - 2], dbs[|dbs| - 1];
      assert KeyedDatabase(init[|dbs| - 2]);
      KeyedAfter(db, db');
      forall i | 0 <= i < |dbs| ensures KeyedDatabase(dbs[i]) && NoOwnedTwin(dbs[i].rows) {
        if i < |dbs| - 1 { assert init[i] == dbs[i]; }
      }
    } else {
      KeyedHasNoOwnedTwin(dbs[0]);
    }
  }

  lemma KeyedHasNoOwnedTwin(db: Database)
    requires KeyedDatabase(db)
    ensures NoOwnedTwin(db.rows)
  {
    PlainHasNoOwnedTwin(db.rows);
  }

  lemma KeyedAfter(db: Database, db': Database)
    requires KeyedDatabase(db) && (Synced(db, db') || EditedPlainly(db, db'))
    ensures KeyedDatabase(db') && NoOwnedTwin(db'.rows)
  {
    if EditedPlainly(db, db') { EditedKeepsSound(db, db'); } else { SyncedKeepsKeyed(db, db'); }
    KeyedHasNoOwnedTwin(db');
  }
}
