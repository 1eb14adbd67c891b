/** Exactly when a synchronisation can meet the unique key of the check-in table, over all snapshots, members, weeks, tasks and
    days that it may be given. */
module ZkSyncTwins {
  import opened ZkSync
  import opened ZkSyncRepeated
  import opened ZkSyncKeys
  import opened ZkSyncAsking
  import opened Wrappers

  /* Main result: some snapshot, together with some members, weeks, tasks and day, makes a run meet the unique key exactly
     when the index leads from a shared target key to a record that can be removed. Where it does not, no snapshot does
     with any members, weeks, tasks and day. */
  lemma CanMeetKeyIff(s: State)
    requires Opened(s) && Sound(s.rows, s.table, s.nextId) && UniqueKey(s.rows)
    ensures CanMeetKey(s) <==> Exposed(s)
  {
    if Exposed(s) {
      var a, b :| a in s.rows && b in s.rows && ExposedAt(s.rows, s.mappings, s.byUnique, a, b);
      var key :| key in s.mappings && key.id > 0 && s.mappings[key].owned && s.mappings[key].target == a;
      ExposedMeetsKey(s, a, b, key);
    } else {
      forall ctx, records, i: nat | i <= |Items(records)| ensures UniqueKey(After(ctx, s, records, i).rows) {
        UnexposedKeepsKey(ctx, s, records, i);
      }
    }
  }

  /* So no insert is refused when no record that may be removed has a twin. */
  lemma NoOwnedTwinKeepsKey(s: State)
    requires Opened(s) && Sound(s.rows, s.table, s.nextId) && UniqueKey(s.rows) && NoOwnedTwin(s.rows)
    ensures !CanMeetKey(s)
  {
    CanMeetKeyIff(s);
  }

  // ---------- a record that meets the key ----------

  /* A migrated reading with a task beside the member's own record of the same reading, as the table admits them. */
  const MIGRATED := Row(2, 7, 5, 10, WeeklyBook, "A", FromMigration, 0x8000_0000_0000_0005)
  const OWN := Row(1, 7, 0, 10, WeeklyBook, "A", FromOther, 0)

  /* The snapshot's record of that reading, and what was synchronised of it before. */
  const READING := Record(Whole(3), "N", false, true, false, false, NoKind, Some(10), Some(0), "A", "", "new", false)
  const MAPPED := Mapping(2, Fingerprint(READING.(note := "old"), BookSlot), true)
  const READ := Item(Key(3, BookSlot), READING, WeeklyBook)
  const MEMBERS := Context(10, map["N" := {7}], [], map[])

  const TWINS := State(
    map[1 := OWN, 2 := MIGRATED], map[Key(3, BookSlot) := MAPPED], 3,
    map[1 := OWN, 2 := MIGRATED], map[TargetKeyOf(OWN) := MIGRATED], map[TaskKeyOf(MIGRATED) := MIGRATED],
    map[Key(3, BookSlot) := MAPPED], {}, 0, {})

  lemma TwinsAreOpened()
    ensures Opened(TWINS)
  {
  }

  lemma TwinsAreSound()
    ensures Sound(TWINS.rows, TWINS.table, TWINS.nextId)
  {
    assert Key(3, BookSlot) in TWINS.table;
  }

  lemma TwinsAreProper()
    ensures Opened(TWINS) && Sound(TWINS.rows, TWINS.table, TWINS.nextId) && UniqueKey(TWINS.rows) && !NoOwnedTwin(TWINS.rows)
  {
    hide Opened, Sound;
    TwinsAreOpened();
    TwinsAreSound();
    assert 1 in TWINS.rows && 2 in TWINS.rows;
  }

  lemma ReadingIsOneItem()
    ensures Items([READING]) == [READ]
  {
    assert SlotList(READING) == [(BookSlot, WeeklyBook)];
    assert [READING][..0] == [];
  }

  lemma ReadingIsProbed(id: nat)
    ensures Acceptable(MEMBERS, READ) && Probe(MEMBERS, READ, id) == Row(id, 7, 0, 10, WeeklyBook, "A", FromZkSync, 0)
  {
    assert MembersNamed(MEMBERS, "N") == {7};
    SingletonMember({7});
  }

  lemma ChangedReadingRemovesMigrated(present: set<Key>)
    ensures var s2 := BeforeBooking(present, TWINS, READ);
            s2.rows == map[1 := OWN] && s2.byUnique == map[] && s2.nextId == 3
  {
    var s1 := TWINS.(seen := TWINS.seen + {READ.key});
    assert !OtherRefs(s1, present, READ.key, 2);
    assert Unmapped(s1, present, READ.key).rows == Deactivated(s1, MIGRATED).rows;
    assert map[1 := OWN, 2 := MIGRATED] - {2} == map[1 := OWN];
  }

  lemma ChangedReadingBooks(present: set<Key>)
    ensures MeetsKey(MEMBERS, present, TWINS, READ)
  {
    ChangedReadingRemovesMigrated(present);
    ReadingIsProbed(3);
    assert READING.note != MAPPED.hash.content.note;
    assert 1 in map[1 := OWN];
  }

  /* The note of the reading changed: the migrated record goes, the index with it, and the insert meets the member's. */
  lemma ChangedReadingMeetsKey()
    ensures UniqueKey(TWINS.rows) && !UniqueKey(After(MEMBERS, TWINS, [READING], 1).rows)
  {
    hide MeetsKey, UniqueKey, RunInv, ItemStep;
    var present := Present([READING]);
    TwinsAreProper();
    ReadingIsOneItem();
    ItemsPresent([READING], [READING]);
    assert READ == Items([READING])[0];
    assert Items([READING])[..1] == [READ];
    ItemStepsAppend(MEMBERS, present, TWINS, [], READ);
    assert [] + [READ] == [READ];
    OpenedStarts(TWINS, present);
    ChangedReadingBooks(present);
    StepMeetsKeyIff(MEMBERS, present, TWINS.rows, TWINS, READ);
  }
}
