/** Over every run of the study memory the view shows what is pending, and no edit is lost: each one is pending, or was
    executed and acknowledged, or a newer one of its key was. */
module StudyHistory {
  import opened StudyMemory
  import opened Wrappers

  // ---------- the view agrees with every pending operation ----------

  /* The view shows every pending operation, and the order lists exactly these. */
  predicate Agrees(d: Data) {
    && (forall k | k in d.pending :: Lookup(d.view, k) == d.pending[k].value && k in d.order)
    && forall k | k in d.order :: k in d.pending
  }

  predicate AllAgree(store: map<AccountId, Data>) {
    (0 in store ==> store[0].pending == map[]) && forall a | a in store :: Agrees(store[a])
  }

  lemma {:induction false} WithoutOnly(order: seq<OpKey>, k: OpKey, j: OpKey)
    ensures j in Without(order, k) <==> j in order && j != k
    ensures |Without(order, k)| <= |order| && (k in order ==> |Without(order, k)| < |order|)
  {
    if order != [] {
      WithoutOnly(order[1..], k, j);
      assert order == [order[0]] + order[1..];
    }
  }

  lemma DroppedAgrees(d: Data, k: OpKey)
    requires Agrees(d)
    ensures Agrees(Dropped(d, k))
  {
    forall j: OpKey ensures j in Without(d.order, k) <==> j in d.order && j != k { WithoutOnly(d.order, k, j); }
  }

  lemma EditedAgrees(d: Data, a: AccountId, k: OpKey, v: Option<Value>, version: nat)
    requires Agrees(d) && (a == 0 ==> d.pending == map[])
    ensures Agrees(Edited(d, a, k, v, version))
  {
  }

  lemma OverlaidAgrees(remote: Table, d: Data)
    requires Agrees(d)
    ensures Agrees(d.(view := Overlaid(remote, d.pending)))
  {
  }

  lemma StoreStaysAgreeing(store: map<AccountId, Data>, a: AccountId, d: Data)
    requires AllAgree(store) && Agrees(d) && (a == 0 ==> d.pending == map[])
    ensures AllAgree(store[a := d])
  {
  }

  lemma HereAgrees(store: map<AccountId, Data>, a: AccountId)
    requires AllAgree(store)
    ensures Agrees(DataOf(store, a)) && (a == 0 ==> DataOf(store, a).pending == map[])
  {
  }

  lemma EditKeepsAgreement(store: map<AccountId, Data>, a: AccountId, k: OpKey, v: Option<Value>, version: nat)
    requires AllAgree(store)
    ensures AllAgree(store[a := Edited(DataOf(store, a), a, k, v, version)])
  {
    HereAgrees(store, a);
    EditedAgrees(DataOf(store, a), a, k, v, version);
    StoreStaysAgreeing(store, a, Edited(DataOf(store, a), a, k, v, version));
  }

  lemma DropKeepsAgreement(store: map<AccountId, Data>, a: AccountId, k: OpKey)
    requires AllAgree(store)
    ensures AllAgree(store[a := Dropped(DataOf(store, a), k)])
  {
    HereAgrees(store, a);
    DroppedAgrees(DataOf(store, a), k);
    StoreStaysAgreeing(store, a, Dropped(DataOf(store, a), k));
  }

  lemma AnswerKeepsAgreement(store: map<AccountId, Data>, a: AccountId, remote: Table)
    requires AllAgree(store)
    ensures AllAgree(store[a := DataOf(store, a).(view := Overlaid(remote, DataOf(store, a).pending))])
  {
    HereAgrees(store, a);
    OverlaidAgrees(remote, DataOf(store, a));
    StoreStaysAgreeing(store, a, DataOf(store, a).(view := Overlaid(remote, DataOf(store, a).pending)));
  }

  lemma DoKeepsAgreement(s: State, step: Step)
    requires AllAgree(s.store) && Enabled(s, step)
    ensures AllAgree(Effect(s, step).store)
  {
    hide AllAgree, Agrees, Edited, Dropped, Overlaid, Uploading, Oldest, AppliedTo, Unapplied, LogEdit;
    match step
    case Save(key, value) => EditKeepsAgreement(s.store, Account(s), OpKey(Progress, key), Some(value), s.net.next);
    case Toggle(key, item) =>
      var k := OpKey(Favorites, key);
      EditKeepsAgreement(s.store, Account(s), k, Toggled(Here(s), k, item), s.net.next);
    case FrameEdit(a, k, v) => EditKeepsAgreement(s.store, a, k, v, s.net.next);
    case ReadReturns(id) => AnswerKeepsAgreement(s.store, Account(s), s.net.gets[id].answer.value);
    case PutReturns(id) => DropKeepsAgreement(s.store, Account(s), s.net.puts[id].key);
    case _ =>
  }

  /* Main result: in every run, what the user sees shows every operation that is still to be uploaded. */
  lemma {:induction false} ViewAgrees(s: State, steps: seq<Step>)
    requires Initial(s)
    ensures AllAgree(Run(s, steps).store)
  {
    if steps != [] {
      var s1 := Run(s, steps[..|steps| - 1]);
      ViewAgrees(s, steps[..|steps| - 1]);
      if Enabled(s1, steps[|steps| - 1]) { DoKeepsAgreement(s1, steps[|steps| - 1]); }
    }
  }

  // ---------- every edit is uploaded, or still to be uploaded ----------

  function PendingVersion(store: map<AccountId, Data>, p: Place): Option<nat> {
    if p.account in store && p.key in store[p.account].pending then Some(store[p.account].pending[p.key].version) else None
  }

  /* This or a newer edit of the same place has been acknowledged. */
  predicate AckedSince(made: map<nat, Place>, acked: set<nat>, v: nat, p: Place) {
    exists w :: w in acked && w >= v && w in made && made[w] == p
  }

  predicate PendingSince(store: map<AccountId, Data>, v: nat, p: Place) {
    PendingVersion(store, p).Some? && PendingVersion(store, p).value >= v
  }

  predicate AllKept(store: map<AccountId, Data>, made: map<nat, Place>, acked: set<nat>) {
    forall v | v in made :: PendingSince(store, v, made[v]) || AckedSince(made, acked, v, made[v])
  }

  /* Versions are fresh, and every pending operation and every upload carries the version of an edit of its place. */
  ghost predicate VersionsKnown(store: map<AccountId, Data>, made: map<nat, Place>, next: nat) {
    && (forall v | v in made :: v < next)
    && forall p | PendingVersion(store, p).Some? :: PendingVersion(store, p).value in made && made[PendingVersion(store, p).value] == p
  }

  predicate PutsKnown(puts: map<nat, Put>, made: map<nat, Place>) {
    forall id | id in puts :: puts[id].op.version in made && made[puts[id].op.version] == Place(puts[id].owner.account, puts[id].key)
  }

  /* The server acknowledges only what it has executed. */
  predicate AcksTrue(puts: map<nat, Put>, executed: set<nat>, acked: set<nat>) {
    acked <= executed && forall id | id in puts && puts[id].applied :: puts[id].op.version in executed
  }

  ghost predicate SameExcept(store: map<AccountId, Data>, store': map<AccountId, Data>, p: Place) {
    forall q: Place :: q != p ==> PendingVersion(store', q) == PendingVersion(store, q)
  }

  lemma EditPending(store: map<AccountId, Data>, a: AccountId, k: OpKey, v: Option<Value>, version: nat)
    ensures var store' := store[a := Edited(DataOf(store, a), a, k, v, version)];
            && SameExcept(store, store', Place(a, k))
            && PendingVersion(store', Place(a, k)) == if a == 0 then PendingVersion(store, Place(a, k)) else Some(version)
  {
  }

  lemma FreshEditKept(store: map<AccountId, Data>, store': map<AccountId, Data>, made: map<nat, Place>, acked: set<nat>,
                      next: nat, p: Place)
    requires AllKept(store, made, acked) && VersionsKnown(store, made, next)
    requires SameExcept(store, store', p) && PendingVersion(store', p) == Some(next)
    ensures AllKept(store', made[next := p], acked) && VersionsKnown(store', made[next := p], next + 1)
  {
    var made' := made[next := p];
    forall v | v in made' ensures PendingSince(store', v, made'[v]) || AckedSince(made', acked, v, made'[v]) {
      if v != next && !PendingSince(store, v, made[v]) {
        var w :| w in acked && w >= v && w in made && made[w] == made[v];
        assert made'[w] == made'[v];
      }
    }
  }

  lemma AnyEditKept(store: map<AccountId, Data>, log: Log, next: nat, a: AccountId, k: OpKey, v: Option<Value>)
    requires AllKept(store, log.made, log.acked) && VersionsKnown(store, log.made, next)
    ensures var store' := store[a := Edited(DataOf(store, a), a, k, v, next)];
            var log' := LogEdit(log, next, a, k);
            AllKept(store', log'.made, log'.acked) && VersionsKnown(store', log'.made, next + 1)
  {
    var store' := store[a := Edited(DataOf(store, a), a, k, v, next)];
    EditPending(store, a, k, v, next);
    if a != 0 {
      FreshEditKept(store, store', log.made, log.acked, next, Place(a, k));
    } else {
      SamePendingKept(store, store', log.made, log.acked, next, next + 1);
    }
  }

  lemma SamePendingKept(store: map<AccountId, Data>, store': map<AccountId, Data>, made: map<nat, Place>, acked: set<nat>,
                        next: nat, next': nat)
    requires AllKept(store, made, acked) && VersionsKnown(store, made, next) && next <= next'
    requires forall q: Place :: PendingVersion(store', q) == PendingVersion(store, q)
    ensures AllKept(store', made, acked) && VersionsKnown(store', made, next')
  {
  }

  lemma MoreAcksKept(store: map<AccountId, Data>, made: map<nat, Place>, acked: set<nat>, w: nat)
    requires AllKept(store, made, acked)
    ensures AllKept(store, made, acked + {w})
  {
    forall v | v in made ensures PendingSince(store, v, made[v]) || AckedSince(made, acked + {w}, v, made[v]) {
      if !PendingSince(store, v, made[v]) {
        var u :| u in acked && u >= v && u in made && made[u] == made[v];
        assert u in acked + {w};
      }
    }
  }

  lemma DropPending(store: map<AccountId, Data>, a: AccountId, key: OpKey)
    ensures var store' := store[a := Dropped(DataOf(store, a), key)];
            SameExcept(store, store', Place(a, key)) && PendingVersion(store', Place(a, key)).None?
  {
  }

  lemma DropKept(store: map<AccountId, Data>, store': map<AccountId, Data>, made: map<nat, Place>, acked: set<nat>,
                 next: nat, p: Place, w: nat)
    requires AllKept(store, made, acked) && VersionsKnown(store, made, next)
    requires SameExcept(store, store', p) && PendingVersion(store', p).None?
    requires PendingVersion(store, p) == Some(w) && w in acked
    ensures AllKept(store', made, acked) && VersionsKnown(store', made, next)
  {
    forall v | v in made ensures PendingSince(store', v, made[v]) || AckedSince(made, acked, v, made[v]) {
      if made[v] == p && PendingSince(store, v, p) {
        assert w in acked && w >= v && w in made && made[w] == p;
      }
    }
  }

  ghost predicate StoreInv(store: map<AccountId, Data>, log: Log, next: nat) {
    AllKept(store, log.made, log.acked) && VersionsKnown(store, log.made, next)
  }

  predicate NetInv(puts: map<nat, Put>, log: Log) {
    PutsKnown(puts, log.made) && AcksTrue(puts, log.executed, log.acked)
  }

  ghost predicate HistoryInv(s: State) { StoreInv(s.store, s.log, s.net.next) && NetInv(s.net.puts, s.log) }

  lemma LaterStillInv(store: map<AccountId, Data>, log: Log, next: nat, next': nat)
    requires StoreInv(store, log, next) && next <= next'
    ensures StoreInv(store, log, next')
  {
  }

  lemma SentKeepsNet(puts: map<nat, Put>, log: Log, id: nat, put: Put)
    requires NetInv(puts, log) && !put.applied
    requires put.op.version in log.made && log.made[put.op.version] == Place(put.owner.account, put.key)
    ensures NetInv(puts[id := put], log)
  {
  }

  lemma PendingIsKnown(store: map<AccountId, Data>, log: Log, next: nat, a: AccountId, k: OpKey)
    requires StoreInv(store, log, next) && k in DataOf(store, a).pending
    ensures var v := DataOf(store, a).pending[k].version; v in log.made && log.made[v] == Place(a, k)
  {
    assert PendingVersion(store, Place(a, k)) == Some(DataOf(store, a).pending[k].version);
  }

  lemma UploadingKeepsNet(s: State, id: nat)
    requires HistoryInv(s)
    ensures NetInv(Uploading(s, id).puts, s.log)
  {
    match Oldest(Here(s))
    case Some(k) =>
      PendingIsKnown(s.store, s.log, s.net.next, Account(s), k);
      SentKeepsNet(s.net.puts, s.log, id, Put(s.page.owner, k, Here(s).pending[k], false));
    case None =>
  }

  lemma FlushedKeepsHistory(s: State)
    requires HistoryInv(s)
    ensures HistoryInv(Flushed(s))
  {
    if Flushes(s.page) {
      LaterStillInv(s.store, s.log, s.net.next, s.net.next + 1);
      UploadingKeepsNet(s, s.net.next);
    }
  }

  lemma EditKeepsNet(puts: map<nat, Put>, log: Log, next: nat, a: AccountId, k: OpKey)
    requires NetInv(puts, log) && forall v | v in log.made :: v < next
    ensures NetInv(puts, LogEdit(log, next, a, k))
  {
  }

  lemma ChangedKeepsHistory(s: State, k: OpKey, v: Option<Value>)
    requires HistoryInv(s)
    ensures HistoryInv(Changed(s, k, v))
  {
    AnyEditKept(s.store, s.log, s.net.next, Account(s), k, v);
    EditKeepsNet(s.net.puts, s.log, s.net.next, Account(s), k);
    FlushedKeepsHistory(Stored(s, k, v));
  }

  lemma FrameEditKeepsHistory(s: State, a: AccountId, k: OpKey, v: Option<Value>)
    requires HistoryInv(s)
    ensures HistoryInv(FrameEdited(s, a, k, v))
  {
    AnyEditKept(s.store, s.log, s.net.next, a, k, v);
    EditKeepsNet(s.net.puts, s.log, s.net.next, a, k);
  }

  lemma ShownKeepsHistory(s: State, id: nat)
    requires HistoryInv(s) && id in s.net.gets && s.net.gets[id].answer.Some?
    ensures HistoryInv(Shown(s, id))
  {
    SamePendingKept(s.store, Shown(s, id).store, s.log.made, s.log.acked, s.net.next, s.net.next);
  }

  lemma ReadKeepsHistory(s: State, id: nat)
    requires HistoryInv(s) && id in s.net.gets
    ensures s.net.gets[id].answer.Some? ==> HistoryInv(ReadDone(s, id))
    ensures HistoryInv(ReadFailed(s, id))
  {
    if s.net.gets[id].answer.Some? {
      ShownKeepsHistory(s, id);
      FlushedKeepsHistory(Opened(Shown(s, id)));
    }
    FlushedKeepsHistory(Opened(WithoutRead(s, id)));
  }

  lemma AckKeepsNet(puts: map<nat, Put>, log: Log, id: nat)
    requires NetInv(puts, log) && id in puts && puts[id].applied
    ensures NetInv(puts - {id}, log.(acked := log.acked + {puts[id].op.version}))
  {
  }

  lemma AfterAckKeepsHistory(s: State, id: nat)
    requires HistoryInv(s) && id in s.net.puts && s.net.puts[id].applied
    ensures HistoryInv(AfterAck(s, id))
  {
    var put := s.net.puts[id];
    MoreAcksKept(s.store, s.log.made, s.log.acked, put.op.version);
    AckKeepsNet(s.net.puts, s.log, id);
    if Drops(s, put) {
      DropPending(s.store, Account(s), put.key);
      DropKept(s.store, AfterAck(s, id).store, s.log.made, s.log.acked + {put.op.version}, s.net.next,
               Place(Account(s), put.key), put.op.version);
    }
  }

  lemma AcknowledgedKeepsHistory(s: State, id: nat)
    requires HistoryInv(s) && id in s.net.puts && s.net.puts[id].applied
    ensures HistoryInv(Acknowledged(s, id))
  {
    AfterAckKeepsHistory(s, id);
    UploadingKeepsNet(AfterAck(s, id), id);
  }

  lemma ExecutedKeepsNet(puts: map<nat, Put>, log: Log, v: nat)
    requires NetInv(puts, log)
    ensures NetInv(puts, log.(executed := log.executed + {v}))
  {
  }

  lemma PutExecutedKeepsNet(puts: map<nat, Put>, log: Log, id: nat)
    requires NetInv(puts, log) && id in puts
    ensures NetInv(puts[id := puts[id].(applied := true)], log.(executed := log.executed + {puts[id].op.version}))
  {
  }

  lemma UploadsKeepHistory(s: State, id: nat)
    requires HistoryInv(s)
    ensures id in s.net.puts ==> HistoryInv(PutExecuted(s, id)) && HistoryInv(PutFailed(s, id))
    ensures id in s.net.late ==> HistoryInv(LateExecuted(s, id))
  {
    if id in s.net.puts { PutExecutedKeepsNet(s.net.puts, s.log, id); }
    if id in s.net.late { ExecutedKeepsNet(s.net.puts, s.log, s.net.late[id].op.version); }
  }

  lemma BoundKeepsHistory(s: State, owner: Owner)
    requires HistoryInv(s)
    ensures HistoryInv(Bound(s, owner)) && HistoryInv(ReadStarted(s)) && HistoryInv(Reloaded(s))
  {
    LaterStillInv(s.store, s.log, s.net.next, s.net.next + 1);
  }

  lemma SyncKeepsHistory(s: State)
    requires HistoryInv(s)
    ensures HistoryInv(SyncStarted(s))
  {
    FlushedKeepsHistory(s);
    BoundKeepsHistory(s, s.page.owner);
    LaterStillInv(s.store, s.log, Flushed(s).net.next, Flushed(s).net.next + 1);
  }

  lemma DoKeepsHistory(s: State, step: Step)
    requires HistoryInv(s) && Enabled(s, step)
    ensures HistoryInv(Effect(s, step))
  {
    match step
    case Save(key, value) => ChangedKeepsHistory(s, OpKey(Progress, key), Some(value));
    case Toggle(key, item) =>
      ChangedKeepsHistory(s, OpKey(Favorites, key), Toggled(Here(s), OpKey(Favorites, key), item));
    case FrameEdit(a, k, v) => FrameEditKeepsHistory(s, a, k, v);
    case FrameMessage(a) => FlushedKeepsHistory(s.(page := s.page.(revision := s.page.revision + 1)));
    case Flush => FlushedKeepsHistory(s);
    case ReadReturns(id) => ReadKeepsHistory(s, id);
    case ReadFails(id) => ReadKeepsHistory(s, id);
    case PutReturns(id) => AcknowledgedKeepsHistory(s, id);
    case Apply(id) => UploadsKeepHistory(s, id);
    case PutFails(id) => UploadsKeepHistory(s, id);
    case ApplyLate(id) => UploadsKeepHistory(s, id);
    case Bind(owner) => BoundKeepsHistory(s, owner);
    case Sync => SyncKeepsHistory(s);
    case GoOn(id) => BoundKeepsHistory(s.(net := s.net.(waits := s.net.waits - {id})), s.page.owner);
    case Reload => BoundKeepsHistory(s, s.page.owner);
    case _ =>
  }

  lemma {:induction false} RunKeepsHistory(s: State, steps: seq<Step>)
    requires Initial(s)
    ensures HistoryInv(Run(s, steps))
  {
    if steps == [] {
      assert forall p: Place :: PendingVersion(s.store, p).None?;
    } else {
      var s1 := Run(s, steps[..|steps| - 1]);
      RunKeepsHistory(s, steps[..|steps| - 1]);
      if Enabled(s1, steps[|steps| - 1]) { DoKeepsHistory(s1, steps[|steps| - 1]); }
    }
  }

  /* Main result: over every run, with changing accounts, failing uploads and reloads, each edit that was made, or a newer
     edit of the same place, is still pending or was executed and acknowledged by the server. */
  lemma NoEditIsLost(s: State, steps: seq<Step>, v: nat)
    requires Initial(s) && v in Run(s, steps).log.made
    ensures var s' := Run(s, steps);
            || PendingSince(s'.store, v, s'.log.made[v])
            || exists w :: w in s'.log.acked && w >= v && w in s'.log.made && s'.log.made[w] == s'.log.made[v] && w in s'.log.executed
  {
    RunKeepsHistory(s, steps);
    var s' := Run(s, steps);
    if !PendingSince(s'.store, v, s'.log.made[v]) {
      var w :| w in s'.log.acked && w >= v && w in s'.log.made && s'.log.made[w] == s'.log.made[v];
      assert w in s'.log.executed;
    }
  }

  lemma ChangedPending(s: State, k: OpKey, v: Option<Value>)
    ensures var p := Place(Account(s), k);
            && SameExcept(s.store, Changed(s, k, v).store, p)
            && PendingVersion(Changed(s, k, v).store, p) == if p.account == 0 then PendingVersion(s.store, p) else Some(s.net.next)
  {
    EditPending(s.store, Account(s), k, v, s.net.next);
  }

  lemma AcknowledgedPending(s: State, id: nat, p: Place)
    requires id in s.net.puts && PendingVersion(s.store, p).Some?
    ensures var put, after := s.net.puts[id], PendingVersion(Acknowledged(s, id).store, p);
            || after == PendingVersion(s.store, p)
            || (after.None? && put.op.version == PendingVersion(s.store, p).value && Place(put.owner.account, put.key) == p)
  {
    DropPending(s.store, Account(s), s.net.puts[id].key);
  }

  lemma ReadKeepsPending(s: State, id: nat, p: Place)
    requires id in s.net.gets && s.net.gets[id].answer.Some?
    ensures PendingVersion(ReadDone(s, id).store, p) == PendingVersion(s.store, p)
  {
    hide Uploading, Overlaid;
  }

  lemma OtherStepsKeepPending(s: State, step: Step, p: Place)
    requires Enabled(s, step) && !step.Save? && !step.Toggle? && !step.FrameEdit? && !step.PutReturns?
    ensures PendingVersion(Effect(s, step).store, p) == PendingVersion(s.store, p)
  {
    hide PendingVersion, Uploading, Overlaid, AppliedTo, Unapplied, LogEdit, ReadDone;
    if step.ReadReturns? { ReadKeepsPending(s, step.id, p); }
  }

  /* A pending operation goes away, rather than giving way to a newer one, only by the acknowledgement of its version. */
  lemma DroppedOnlyWhenAcknowledged(s: State, step: Step, p: Place)
    requires HistoryInv(s) && PendingVersion(s.store, p).Some?
    ensures var before, after := PendingVersion(s.store, p), PendingVersion(Do(s, step).store, p);
            || after == before
            || (after.Some? && after.value > before.value)
            || (after.None? && step.PutReturns? && step.id in s.net.puts && s.net.puts[step.id].applied
                && s.net.puts[step.id].op.version == before.value
                && Place(s.net.puts[step.id].owner.account, s.net.puts[step.id].key) == p)
  {
    hide Overlaid, Flushed, AppliedTo, Unapplied, LogEdit, AllKept, NetInv, Edited, Dropped, Acknowledged, Changed;
    hide SyncStarted, ReadDone;
    if Enabled(s, step) {
      match step
      case Save(key, value) => ChangedPending(s, OpKey(Progress, key), Some(value));
      case Toggle(key, item) =>
        ChangedPending(s, OpKey(Favorites, key), Toggled(Here(s), OpKey(Favorites, key), item));
      case FrameEdit(a, k, v) => EditPending(s.store, a, k, v, s.net.next);
      case PutReturns(id) => AcknowledgedPending(s, id, p);
      case _ => OtherStepsKeepPending(s, step, p);
    }
  }
}
