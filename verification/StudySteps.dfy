/** What every step keeps while one client works for one binding of an account: every upload of the account belongs to the
    worker of the binding and to a pending operation, what the worker's upload has written is still on the server, and the
    latest edit of every key is pending, or else shown, stored on the server and in every answer that may still be applied.
    Beside it stands what holds in every state at all: numbers are used once, and failed uploads are not sent again. */
module StudySteps {
  import opened StudyMemory
  import opened StudyHistory
  import opened Wrappers

  predicate IsEdit(step: Step) { step.Save? || step.Toggle? || step.FrameEdit? }

  /* The edits of one account, by the page or by the frame. */
  function EditsOf(s: State, step: Step, a: AccountId): Option<(OpKey, Option<Value>)> {
    match step
    case Save(key, value) => if Account(s) == a then Some((OpKey(Progress, key), Some(value))) else None
    case Toggle(key, item) =>
      if Account(s) == a then Some((OpKey(Favorites, key), Toggled(Here(s), OpKey(Favorites, key), item))) else None
    case FrameEdit(fa, k, v) => if fa == a then Some((k, v)) else None
    case _ => None
  }

  type Edits = map<OpKey, Option<Value>>

  function AddEdit(latest: Edits, edit: Option<(OpKey, Option<Value>)>): Edits {
    match edit
    case None => latest
    case Some(e) => latest[e.0 := e.1]
  }

  /* The latest edit of every key that was edited during the run. */
  function Latest(s: State, steps: seq<Step>, a: AccountId): Edits {
    if steps == [] then map[]
    else
      var s1, last := Run(s, steps[..|steps| - 1]), steps[|steps| - 1];
      AddEdit(Latest(s, steps[..|steps| - 1], a), if Enabled(s1, last) then EditsOf(s1, last, a) else None)
  }

  /* No other binding and no other client. */
  predicate OneClient(o: Owner, step: Step) {
    match step
    case Bind(owner) => owner == o
    case ApplyLate(_) => false
    case Elsewhere(a, _, _) => a != o.account
    case Reload => false
    case _ => true
  }

  /* Every upload of the account belongs to the binding's worker and to a pending operation; those of an earlier binding
     have been executed and will be ignored. */
  predicate UploadsOwned(page: Page, d: Data, puts: map<nat, Put>) {
    forall id | id in puts && puts[id].owner.account == page.owner.account ::
      if puts[id].owner == page.owner
      then page.worker == Some(id) && puts[id].key in d.pending
           && (d.pending[puts[id].key].version == puts[id].op.version ==> d.pending[puts[id].key] == puts[id].op)
      else puts[id].applied
  }

  /* What the worker's upload has written is still there. */
  predicate UploadsStand(owner: Owner, puts: map<nat, Put>, server: Table) {
    forall id | id in puts && puts[id].owner == owner && puts[id].applied :: Lookup(server, puts[id].key) == puts[id].op.value
  }

  predicate LatestPending(d: Data, latest: Edits) {
    forall k | k in latest && k in d.pending :: d.pending[k].value == latest[k]
  }

  predicate LatestIn(t: Table, pending: map<OpKey, Op>, latest: Edits) {
    forall k | k in latest && k !in pending :: Lookup(t, k) == latest[k]
  }

  /* A read that may still be applied shows the latest edits. */
  predicate ReadsCurrent(page: Page, gets: map<nat, Get>, pending: map<OpKey, Op>, latest: Edits) {
    forall id | id in gets && gets[id].before == page.revision && gets[id].owner == page.owner && gets[id].answer.Some? ::
      LatestIn(gets[id].answer.value, pending, latest)
  }

  predicate ReadsNumbered(page: Page, net: Net) {
    && (forall id | id in net.gets :: net.gets[id].before <= page.revision)
    && (forall id | id in net.puts :: id < net.next && net.puts[id].op.version < net.next)
  }

  predicate VersionsBelow(pending: map<OpKey, Op>, next: nat) { forall k | k in pending :: pending[k].version < next }

  predicate BindingInv(s: State, o: Owner, latest: Edits) {
    var d, server := Here(s), TableOf(s.servers, o.account);
    && s.page.owner == o && o.account != 0 && Agrees(d)
    && UploadsOwned(s.page, d, s.net.puts) && UploadsStand(o, s.net.puts, server)
    && LatestPending(d, latest) && LatestIn(server, d.pending, latest) && LatestIn(d.view, d.pending, latest)
    && ReadsCurrent(s.page, s.net.gets, d.pending, latest)
    && ReadsNumbered(s.page, s.net) && VersionsBelow(d.pending, s.net.next)
  }

  /* The worker sends a pending operation. */
  lemma UploadingKeepsBinding(s: State, o: Owner, latest: Edits, id: nat)
    requires BindingInv(s, o, latest) && s.page.worker == Some(id) && id < s.net.next
    ensures BindingInv(s.(net := Uploading(s, id)), o, latest)
  {
    hide Agrees, LatestPending, LatestIn, Lookup;
  }

  lemma FlushedKeepsBinding(s: State, o: Owner, latest: Edits)
    requires BindingInv(s, o, latest)
    ensures BindingInv(Flushed(s), o, latest)
  {
    hide Agrees, LatestPending, LatestIn, Lookup;
    if Flushes(s.page) {
      var s1 := s.(page := s.page.(worker := Some(s.net.next)), net := Counted(s.net));
      assert BindingInv(s1, o, latest);
      UploadingKeepsBinding(s1, o, latest, s.net.next);
    }
  }

  /* A newer edit of a key is pending; tables need not show it. */
  lemma EditKeepsLatest(t: Table, d: Data, a: AccountId, k: OpKey, v: Option<Value>, version: nat, latest: Edits)
    requires a != 0
    ensures var d' := Edited(d, a, k, v, version);
            && (LatestIn(t, d.pending, latest) ==> LatestIn(t, d'.pending, latest[k := v]))
            && (LatestPending(d, latest) ==> LatestPending(d', latest[k := v]))
            && (LatestIn(d.view, d.pending, latest) ==> LatestIn(d'.view, d'.pending, latest[k := v]))
  {
  }

  lemma StoredKeepsBinding(s: State, o: Owner, latest: Edits, k: OpKey, v: Option<Value>)
    requires BindingInv(s, o, latest)
    ensures BindingInv(Stored(s, k, v), o, latest[k := v])
  {
    hide Agrees, LatestIn, LatestPending, Queued, Updated, Lookup;
    EditedAgrees(Here(s), o.account, k, v, s.net.next);
    EditKeepsLatest(TableOf(s.servers, o.account), Here(s), o.account, k, v, s.net.next, latest);
  }

  lemma OwnFrameEditKeepsBinding(s: State, o: Owner, latest: Edits, k: OpKey, v: Option<Value>)
    requires BindingInv(s, o, latest)
    ensures BindingInv(FrameEdited(s, o.account, k, v), o, latest[k := v])
  {
    hide Agrees, LatestIn, LatestPending, Queued, Updated, Lookup;
    EditedAgrees(Here(s), o.account, k, v, s.net.next);
    EditKeepsLatest(TableOf(s.servers, o.account), Here(s), o.account, k, v, s.net.next, latest);
    forall id | id in s.net.gets && s.net.gets[id].answer.Some? {
      EditKeepsLatest(s.net.gets[id].answer.value, Here(s), o.account, k, v, s.net.next, latest);
    }
  }

  lemma OtherFrameEditKeepsBinding(s: State, o: Owner, latest: Edits, a: AccountId, k: OpKey, v: Option<Value>)
    requires BindingInv(s, o, latest) && a != o.account
    ensures BindingInv(FrameEdited(s, a, k, v), o, latest)
  {
    assert Here(FrameEdited(s, a, k, v)) == Here(s);
  }

  lemma OverlaidShowsLatest(remote: Table, pending: map<OpKey, Op>, latest: Edits)
    requires LatestIn(remote, pending, latest)
    ensures LatestIn(Overlaid(remote, pending), pending, latest)
  {
  }

  lemma OverlaidPends(remote: Table, d: Data, latest: Edits)
    requires LatestPending(d, latest)
    ensures LatestPending(d.(view := Overlaid(remote, d.pending)), latest)
  {
  }

  lemma ShownKeepsBinding(s: State, o: Owner, latest: Edits, id: nat)
    requires BindingInv(s, o, latest) && id in s.net.gets && s.net.gets[id].answer.Some?
    ensures BindingInv(Shown(s, id), o, latest)
  {
    hide Agrees, LatestIn, LatestPending, Overlaid;
    OverlaidAgrees(s.net.gets[id].answer.value, Here(s));
    if Applies(s, id) { OverlaidShowsLatest(s.net.gets[id].answer.value, Here(s).pending, latest); }
    OverlaidPends(s.net.gets[id].answer.value, Here(s), latest);
  }

  /* An operation may be dropped when the tables show it. */
  lemma DropKeepsLatest(t: Table, d: Data, k: OpKey, latest: Edits)
    requires LatestPending(d, latest) && k in d.pending && LatestIn(t, d.pending, latest)
    requires Lookup(t, k) == d.pending[k].value
    ensures LatestIn(t, d.pending - {k}, latest) && LatestPending(Dropped(d, k), latest)
  {
  }

  lemma DropsWhatServerHas(s: State, o: Owner, latest: Edits, id: nat)
    requires BindingInv(s, o, latest) && id in s.net.puts && s.net.puts[id].applied && Drops(s, s.net.puts[id])
    ensures var k := s.net.puts[id].key;
            && Lookup(TableOf(s.servers, o.account), k) == Here(s).pending[k].value
            && Lookup(Here(s).view, k) == Here(s).pending[k].value
  {
    hide LatestIn, LatestPending, ReadsCurrent, ReadsNumbered, Lookup, VersionsBelow;
  }

  lemma AfterAckKeepsBinding(s: State, o: Owner, latest: Edits, id: nat)
    requires BindingInv(s, o, latest) && id in s.net.puts && s.net.puts[id].applied
    ensures BindingInv(AfterAck(s, id), o, latest)
  {
    hide Agrees, LatestIn, LatestPending, Without, Lookup;
    DroppedAgrees(Here(s), s.net.puts[id].key);
    if Drops(s, s.net.puts[id]) {
      DropsWhatServerHas(s, o, latest, id);
      DropKeepsLatest(TableOf(s.servers, o.account), Here(s), s.net.puts[id].key, latest);
      DropKeepsLatest(Here(s).view, Here(s), s.net.puts[id].key, latest);
    }
  }

  lemma AfterAckKeepsPage(s: State, id: nat)
    requires id in s.net.puts
    ensures AfterAck(s, id).page.(revision := 0) == s.page.(revision := 0) && AfterAck(s, id).net.next == s.net.next
  {
  }

  lemma AcknowledgedKeepsBinding(s: State, o: Owner, latest: Edits, id: nat)
    requires BindingInv(s, o, latest) && id in s.net.puts && s.net.puts[id].applied
    ensures BindingInv(Acknowledged(s, id), o, latest)
  {
    hide Uploading, AfterAck, Agrees, LatestIn, LatestPending, Lookup, UploadsStand, ReadsCurrent, VersionsBelow;
    AfterAckKeepsBinding(s, o, latest, id);
    AfterAckKeepsPage(s, id);
    if Active(s, s.net.puts[id].owner) { UploadingKeepsBinding(AfterAck(s, id), o, latest, id); }
  }

  lemma PutExecutedKeepsBinding(s: State, o: Owner, latest: Edits, id: nat)
    requires BindingInv(s, o, latest) && id in s.net.puts && !s.net.puts[id].applied
    ensures BindingInv(PutExecuted(s, id), o, latest)
  {
  }

  lemma AnsweredKeepsBinding(s: State, o: Owner, latest: Edits, id: nat)
    requires BindingInv(s, o, latest) && id in s.net.gets
    ensures BindingInv(Answered(s, id), o, latest)
  {
  }

  lemma OpenedKeepsBinding(s: State, o: Owner, latest: Edits)
    requires BindingInv(s, o, latest)
    ensures BindingInv(Flushed(Opened(s)), o, latest)
  {
    FlushedKeepsBinding(Opened(s), o, latest);
  }

  lemma WithoutReadKeepsBinding(s: State, o: Owner, latest: Edits, id: nat)
    requires BindingInv(s, o, latest)
    ensures BindingInv(WithoutRead(s, id), o, latest)
  {
  }

  lemma ReadDoneKeepsBinding(s: State, o: Owner, latest: Edits, id: nat)
    requires BindingInv(s, o, latest) && id in s.net.gets && s.net.gets[id].answer.Some?
    ensures BindingInv(ReadDone(s, id), o, latest)
  {
    ShownKeepsBinding(s, o, latest, id);
    OpenedKeepsBinding(Shown(s, id), o, latest);
  }

  lemma ReadFailedKeepsBinding(s: State, o: Owner, latest: Edits, id: nat)
    requires BindingInv(s, o, latest) && id in s.net.gets
    ensures BindingInv(ReadFailed(s, id), o, latest)
  {
    WithoutReadKeepsBinding(s, o, latest, id);
    OpenedKeepsBinding(WithoutRead(s, id), o, latest);
  }

  lemma SyncKeepsBinding(s: State, o: Owner, latest: Edits)
    requires BindingInv(s, o, latest)
    ensures BindingInv(SyncStarted(s), o, latest)
  {
    hide Agrees, LatestIn, LatestPending, Lookup, Flushed;
    FlushedKeepsBinding(s, o, latest);
  }

  lemma FailuresKeepBinding(s: State, o: Owner, latest: Edits, id: nat)
    requires BindingInv(s, o, latest)
    ensures id in s.net.puts ==> BindingInv(PutFailed(s, id), o, latest)
    ensures s.page.worker.Some? && s.page.worker.value !in s.net.puts ==>
              BindingInv(s.(page := s.page.(worker := None)), o, latest)
  {
    hide Agrees, LatestIn, LatestPending, Lookup;
  }

  lemma ReadStartedKeepsBinding(s: State, o: Owner, latest: Edits)
    requires BindingInv(s, o, latest)
    ensures BindingInv(ReadStarted(s), o, latest)
  {
  }

  lemma WaitEndedKeepsBinding(s: State, o: Owner, latest: Edits, id: nat)
    requires BindingInv(s, o, latest) && id in s.net.waits
    ensures BindingInv(WaitEnded(s, id), o, latest)
  {
    hide ReadStarted;
    var s1 := s.(net := s.net.(waits := s.net.waits - {id}));
    assert BindingInv(s1, o, latest);
    if Active(s, s.net.waits[id].owner) { ReadStartedKeepsBinding(s1, o, latest); }
  }

  lemma ElsewhereKeepsBinding(s: State, o: Owner, latest: Edits, a: AccountId, t: Table)
    requires BindingInv(s, o, latest) && a != o.account
    ensures BindingInv(s.(servers := s.servers[a := t]), o, latest)
  {
    assert TableOf(s.servers[a := t], o.account) == TableOf(s.servers, o.account);
  }

  lemma EditStepsKeepBinding(s: State, o: Owner, latest: Edits, step: Step)
    requires BindingInv(s, o, latest) && Enabled(s, step) && IsEdit(step)
    ensures BindingInv(Effect(s, step), o, AddEdit(latest, EditsOf(s, step, o.account)))
  {
    match step
    case Save(key, value) =>
      var k := OpKey(Progress, key);
      StoredKeepsBinding(s, o, latest, k, Some(value));
      FlushedKeepsBinding(Stored(s, k, Some(value)), o, latest[k := Some(value)]);
    case Toggle(key, item) =>
      var k, v := OpKey(Favorites, key), Toggled(Here(s), OpKey(Favorites, key), item);
      StoredKeepsBinding(s, o, latest, k, v);
      FlushedKeepsBinding(Stored(s, k, v), o, latest[k := v]);
    case FrameEdit(a, k, v) =>
      if a == o.account { OwnFrameEditKeepsBinding(s, o, latest, k, v); } else { OtherFrameEditKeepsBinding(s, o, latest, a, k, v); }
  }

  lemma MessageKeepsBinding(s: State, o: Owner, latest: Edits)
    requires BindingInv(s, o, latest)
    ensures BindingInv(Flushed(s.(page := s.page.(revision := s.page.revision + 1))), o, latest)
  {
    hide Agrees, LatestIn, LatestPending, Lookup, Flushed;
    FlushedKeepsBinding(s.(page := s.page.(revision := s.page.revision + 1)), o, latest);
  }

  lemma OwnerOfBinding(s: State, o: Owner, latest: Edits)
    requires BindingInv(s, o, latest)
    ensures s.page.owner == o
  {
  }

  lemma DoKeepsBinding(s: State, o: Owner, latest: Edits, step: Step)
    requires BindingInv(s, o, latest) && Enabled(s, step) && OneClient(o, step)
    ensures BindingInv(Effect(s, step), o, AddEdit(latest, EditsOf(s, step, o.account)))
  {
    hide BindingInv, Flushed, AfterAck, Uploading, Shown, Stored, FrameEdited, AppliedTo;
    match step
    case FrameMessage(a) => MessageKeepsBinding(s, o, latest);
    case Flush => FlushedKeepsBinding(s, o, latest);
    case ReadReturns(id) => ReadDoneKeepsBinding(s, o, latest, id);
    case ReadFails(id) => ReadFailedKeepsBinding(s, o, latest, id);
    case PutReturns(id) => AcknowledgedKeepsBinding(s, o, latest, id);
    case Apply(id) => PutExecutedKeepsBinding(s, o, latest, id);
    case Answer(id) => AnsweredKeepsBinding(s, o, latest, id);
    case Sync => SyncKeepsBinding(s, o, latest);
    case GoOn(id) => WaitEndedKeepsBinding(s, o, latest, id);
    case PutFails(id) => FailuresKeepBinding(s, o, latest, id);
    case ForgetWorker => FailuresKeepBinding(s, o, latest, 0);
    case Elsewhere(a, k, v) => ElsewhereKeepsBinding(s, o, latest, a, Updated(TableOf(s.servers, a), k, v));
    case Bind(owner) => OwnerOfBinding(s, o, latest);
    case _ => EditStepsKeepBinding(s, o, latest, step);
  }

  /* These uploads are not the account's, and none of them is sent again. */
  predicate Distant(net: Net, late: set<nat>, a: AccountId) {
    forall id | id in late :: id < net.next && id !in net.puts && (id in net.late ==> net.late[id].owner.account != a)
  }

  lemma FlushedKeepsDistant(s: State, late: set<nat>, a: AccountId)
    requires Distant(s.net, late, a)
    ensures Distant(Flushed(s).net, late, a)
  {
  }

  lemma AcknowledgedKeepsDistant(s: State, id: nat, late: set<nat>, a: AccountId)
    requires Distant(s.net, late, a) && id in s.net.puts
    ensures Distant(Acknowledged(s, id).net, late, a)
  {
    assert Distant(AfterAck(s, id).net, late, a);
  }

  lemma DoKeepsDistant(s: State, step: Step, late: set<nat>, a: AccountId)
    requires Distant(s.net, late, a) && Enabled(s, step) && !step.Reload?
    ensures Distant(Effect(s, step).net, late, a)
  {
    hide Flushed, Uploading, Edited, Dropped, Overlaid, AppliedTo, LogEdit, Updated;
    match step
    case Save(key, value) => FlushedKeepsDistant(Stored(s, OpKey(Progress, key), Some(value)), late, a);
    case Toggle(key, item) =>
      var k := OpKey(Favorites, key);
      FlushedKeepsDistant(Stored(s, k, Toggled(Here(s), k, item)), late, a);
    case FrameMessage(_) => FlushedKeepsDistant(s.(page := s.page.(revision := s.page.revision + 1)), late, a);
    case Flush => FlushedKeepsDistant(s, late, a);
    case ReadReturns(id) =>
      assert Distant(Opened(Shown(s, id)).net, late, a);
      FlushedKeepsDistant(Opened(Shown(s, id)), late, a);
    case ReadFails(id) => FlushedKeepsDistant(Opened(WithoutRead(s, id)), late, a);
    case PutReturns(id) => AcknowledgedKeepsDistant(s, id, late, a);
    case Sync => FlushedKeepsDistant(s, late, a);
    case _ =>
  }

  lemma LateKeepsBinding(s: State, o: Owner, latest: Edits, id: nat)
    requires BindingInv(s, o, latest) && id in s.net.late && s.net.late[id].owner.account != o.account
    ensures BindingInv(LateExecuted(s, id), o, latest)
  {
  }

  lemma StepKeepsBinding(s: State, o: Owner, late: set<nat>, latest: Edits, step: Step)
    requires BindingInv(s, o, latest) && Distant(s.net, late, o.account) && Enabled(s, step)
    requires OneClient(o, step) || (step.ApplyLate? && step.id in late)
    ensures BindingInv(Effect(s, step), o, AddEdit(latest, EditsOf(s, step, o.account)))
    ensures Distant(Effect(s, step).net, late, o.account)
  {
    hide BindingInv;
    DoKeepsDistant(s, step, late, o.account);
    if step.ApplyLate? { LateKeepsBinding(s, o, latest, step.id); } else { DoKeepsBinding(s, o, latest, step); }
  }

  /* What holds in every state of a run. */
  predicate Plausible(s: State) {
    AllAgree(s.store) && ReadsNumbered(s.page, s.net) && AllBelow(s.store, s.net.next) && LateApart(s.net)
  }

  predicate LateApart(net: Net) { forall id | id in net.late :: id < net.next && id !in net.puts }

  predicate AllBelow(store: map<AccountId, Data>, next: nat) { forall a | a in store :: VersionsBelow(store[a].pending, next) }

  lemma StaysBelow(store: map<AccountId, Data>, a: AccountId, d: Data, next: nat, next': nat)
    requires AllBelow(store, next) && VersionsBelow(d.pending, next') && next <= next'
    ensures AllBelow(store[a := d], next')
  {
  }

  lemma FlushedStaysPlausible(s: State)
    requires Plausible(s)
    ensures Plausible(Flushed(s)) && Flushed(s).store == s.store
  {
    hide AllAgree;
  }

  lemma HereIsPlausible(s: State, a: AccountId)
    requires Plausible(s)
    ensures Agrees(DataOf(s.store, a)) && VersionsBelow(DataOf(s.store, a).pending, s.net.next)
    ensures a == 0 ==> DataOf(s.store, a).pending == map[]
  {
  }

  lemma StoredStaysPlausible(s: State, k: OpKey, v: Option<Value>)
    requires Plausible(s)
    ensures Plausible(Stored(s, k, v))
  {
    hide AllAgree, AllBelow, Agrees, Queued, Updated;
    HereIsPlausible(s, Account(s));
    var d := Edited(Here(s), Account(s), k, v, s.net.next);
    EditedAgrees(Here(s), Account(s), k, v, s.net.next);
    StoreStaysAgreeing(s.store, Account(s), d);
    StaysBelow(s.store, Account(s), d, s.net.next, s.net.next + 1);
  }

  lemma ShownStaysPlausible(s: State, id: nat)
    requires Plausible(s) && id in s.net.gets && s.net.gets[id].answer.Some?
    ensures Plausible(Shown(s, id)) && Plausible(WithoutRead(s, id))
  {
    hide AllAgree, AllBelow, Agrees, Overlaid;
    HereIsPlausible(s, Account(s));
    var d := Here(s).(view := Overlaid(s.net.gets[id].answer.value, Here(s).pending));
    OverlaidAgrees(s.net.gets[id].answer.value, Here(s));
    StoreStaysAgreeing(s.store, Account(s), d);
    StaysBelow(s.store, Account(s), d, s.net.next, s.net.next);
  }

  lemma AfterAckStaysPlausible(s: State, id: nat)
    requires Plausible(s) && id in s.net.puts
    ensures Plausible(AfterAck(s, id)) && id < s.net.next && AfterAck(s, id).net.next == s.net.next
  {
    hide AllAgree, AllBelow, Agrees, Without;
    HereIsPlausible(s, Account(s));
    var d := Dropped(Here(s), s.net.puts[id].key);
    DroppedAgrees(Here(s), s.net.puts[id].key);
    StoreStaysAgreeing(s.store, Account(s), d);
    StaysBelow(s.store, Account(s), d, s.net.next, s.net.next);
  }

  lemma AcknowledgedStaysPlausible(s: State, id: nat)
    requires Plausible(s) && id in s.net.puts
    ensures Plausible(Acknowledged(s, id))
  {
    AfterAckStaysPlausible(s, id);
  }

  lemma FrameEditedStaysPlausible(s: State, a: AccountId, k: OpKey, v: Option<Value>)
    requires Plausible(s)
    ensures Plausible(FrameEdited(s, a, k, v))
  {
    hide AllAgree, AllBelow, Agrees, Queued, Updated;
    HereIsPlausible(s, a);
    var d := Edited(DataOf(s.store, a), a, k, v, s.net.next);
    EditedAgrees(DataOf(s.store, a), a, k, v, s.net.next);
    StoreStaysAgreeing(s.store, a, d);
    StaysBelow(s.store, a, d, s.net.next, s.net.next + 1);
  }

  lemma ReadDoneStaysPlausible(s: State, id: nat)
    requires Plausible(s) && id in s.net.gets && s.net.gets[id].answer.Some?
    ensures Plausible(ReadDone(s, id))
  {
    hide AllAgree, AllBelow, Flushed, Shown;
    ShownStaysPlausible(s, id);
    FlushedStaysPlausible(Opened(Shown(s, id)));
  }

  lemma BelowLater(store: map<AccountId, Data>, next: nat, next': nat)
    requires AllBelow(store, next) && next <= next'
    ensures AllBelow(store, next')
  {
  }

  lemma SyncStaysPlausible(s: State)
    requires Plausible(s)
    ensures Plausible(SyncStarted(s)) && Plausible(ReadStarted(s))
  {
    hide AllAgree, AllBelow, Flushed;
    FlushedStaysPlausible(s);
    BelowLater(s.store, Flushed(s).net.next, Flushed(s).net.next + 1);
    BelowLater(s.store, s.net.next, s.net.next + 1);
  }

  lemma BoundStaysPlausible(s: State, o: Owner)
    requires Plausible(s)
    ensures Plausible(Bound(s, o))
  {
    hide AllAgree, AllBelow;
    BelowLater(s.store, s.net.next, s.net.next + 1);
  }

  lemma ReloadedStaysPlausible(s: State)
    requires Plausible(s)
    ensures Plausible(Reloaded(s))
  {
    hide AllAgree, AllBelow;
  }

  lemma UploadsStayPlausible(s: State, id: nat)
    requires Plausible(s)
    ensures id in s.net.puts ==> Plausible(PutExecuted(s, id)) && Plausible(PutFailed(s, id))
    ensures id in s.net.late ==> Plausible(LateExecuted(s, id))
    ensures id in s.net.gets ==> Plausible(Answered(s, id)) && Plausible(WithoutRead(s, id))
  {
    hide AllAgree, AllBelow, AppliedTo;
  }

  lemma PageStaysPlausible(s: State, page: Page, waits: map<nat, Wait>)
    requires Plausible(s) && page.revision >= s.page.revision
    ensures Plausible(s.(page := page, net := s.net.(waits := waits)))
  {
    hide AllAgree, AllBelow;
  }

  lemma ServersStayPlausible(s: State, servers: map<AccountId, Table>)
    requires Plausible(s)
    ensures Plausible(s.(servers := servers))
  {
  }

  lemma SmallStepsStayPlausible(s: State, step: Step)
    requires Plausible(s) && Enabled(s, step)
    requires !IsEdit(step) && !step.ReadReturns? && !step.PutReturns? && !step.Flush?
    ensures Plausible(Effect(s, step))
  {
    hide Plausible, Flushed, PutExecuted, PutFailed, LateExecuted, Answered, Bound, Reloaded, SyncStarted, ReadStarted, Updated;
    match step
    case FrameMessage(a) =>
      PageStaysPlausible(s, s.page.(revision := s.page.revision + 1), s.net.waits);
      FlushedStaysPlausible(s.(page := s.page.(revision := s.page.revision + 1)));
    case ReadFails(id) =>
      UploadsStayPlausible(s, id);
      var s1 := WithoutRead(s, id);
      PageStaysPlausible(s1, s1.page.(ready := true), s1.net.waits);
      FlushedStaysPlausible(Opened(s1));
    case Sync => SyncStaysPlausible(s);
    case GoOn(id) =>
      PageStaysPlausible(s, s.page, s.net.waits - {id});
      SyncStaysPlausible(s.(net := s.net.(waits := s.net.waits - {id})));
    case Bind(owner) => BoundStaysPlausible(s, owner);
    case Reload => ReloadedStaysPlausible(s);
    case Answer(id) => UploadsStayPlausible(s, id);
    case Apply(id) => UploadsStayPlausible(s, id);
    case PutFails(id) => UploadsStayPlausible(s, id);
    case ApplyLate(id) => UploadsStayPlausible(s, id);
    case ForgetWorker => PageStaysPlausible(s, s.page.(worker := None), s.net.waits);
    case Elsewhere(a, k, v) => ServersStayPlausible(s, s.servers[a := Updated(TableOf(s.servers, a), k, v)]);
  }

  lemma DoStaysPlausible(s: State, step: Step)
    requires Plausible(s) && Enabled(s, step)
    ensures Plausible(Effect(s, step))
  {
    hide Plausible, Flushed, AfterAck, Uploading, Shown, Stored, FrameEdited;
    match step
    case Save(key, value) =>
      StoredStaysPlausible(s, OpKey(Progress, key), Some(value));
      FlushedStaysPlausible(Stored(s, OpKey(Progress, key), Some(value)));
    case Toggle(key, item) =>
      var k, v := OpKey(Favorites, key), Toggled(Here(s), OpKey(Favorites, key), item);
      StoredStaysPlausible(s, k, v);
      FlushedStaysPlausible(Stored(s, k, v));
    case FrameEdit(a, k, v) => FrameEditedStaysPlausible(s, a, k, v);
    case ReadReturns(id) => ReadDoneStaysPlausible(s, id);
    case PutReturns(id) => AcknowledgedStaysPlausible(s, id);
    case Flush => FlushedStaysPlausible(s);
    case _ => SmallStepsStayPlausible(s, step);
  }
}
