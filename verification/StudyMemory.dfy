/** The offline-first study memory, as a machine whose steps are the pieces of code between two awaits: local edits, the
    operations still to be uploaded, the upload worker and reads. */
module StudyMemory {
  import opened Wrappers

  // ---------- data ----------

  /* Zero is the guest, whose edits stay on the device. */
  type AccountId = nat

  datatype Kind = Progress | Favorites
  datatype OpKey = OpKey(kind: Kind, key: string)

  datatype Value = Position(time: real, duration: real, completed: bool, updatedAt: nat) | Item(title: string, savedAt: nat)

  /* The upload of one edit; no value is a removed favourite. */
  datatype Op = Op(value: Option<Value>, version: nat)

  /* The two tables of an account, keyed by kind and key. */
  type Table = map<OpKey, Value>

  /* What the device stores of an account. `order` lists the keys of the pending operations, the oldest first. */
  datatype Data = Data(view: Table, pending: map<OpKey, Op>, order: seq<OpKey>)

  function Lookup(t: Table, k: OpKey): Option<Value> { if k in t then Some(t[k]) else None }

  function Updated(t: Table, k: OpKey, v: Option<Value>): Table {
    match v
    case Some(value) => t[k := value]
    case None => t - {k}
  }

  function DataOf(store: map<AccountId, Data>, a: AccountId): Data { if a in store then store[a] else Data(map[], map[], []) }

  function TableOf(servers: map<AccountId, Table>, a: AccountId): Table { if a in servers then servers[a] else map[] }

  function Without(order: seq<OpKey>, k: OpKey): seq<OpKey> {
    if order == [] then [] else (if order[0] == k then [] else [order[0]]) + Without(order[1..], k)
  }

  /* A newer edit of a key takes the place of the pending one. */
  function Queued(order: seq<OpKey>, k: OpKey): seq<OpKey> { if k in order then order else order + [k] }

  /* A local edit; only the edits of an account are uploaded. */
  function Edited(d: Data, a: AccountId, k: OpKey, v: Option<Value>, version: nat): Data {
    if a == 0 then d.(view := Updated(d.view, k, v))
    else Data(Updated(d.view, k, v), d.pending[k := Op(v, version)], Queued(d.order, k))
  }

  function Dropped(d: Data, k: OpKey): Data { d.(pending := d.pending - {k}, order := Without(d.order, k)) }

  /* The operation to upload next. */
  function Oldest(d: Data): Option<OpKey> { if d.order != [] && d.order[0] in d.pending then Some(d.order[0]) else None }

  /* The remote tables with the operations still pending on top. */
  function Overlaid(remote: Table, pending: map<OpKey, Op>): Table {
    map k | k in remote.Keys + pending.Keys && (k in pending ==> pending[k].value.Some?) ::
      if k in pending then pending[k].value.value else remote[k]
  }

  // ---------- state ----------

  /* Whom an asynchronous function works for: it compares both parts again after every await. */
  datatype Owner = Owner(account: AccountId, sender: nat)

  /* An upload on its way, sent by the worker of the same number. */
  datatype Put = Put(owner: Owner, key: OpKey, op: Op, applied: bool)

  /* A read on its way; the server answers at some moment in between. */
  datatype Get = Get(owner: Owner, before: nat, answer: Option<Table>)

  /* A synchronisation that waits for this worker to end before it reads. */
  datatype Wait = Wait(owner: Owner, worker: nat)

  datatype Place = Place(account: AccountId, key: OpKey)

  /* The variables of the page. The worker variable may still name a worker that has ended. */
  datatype Page = Page(owner: Owner, ready: bool, worker: Option<nat>, revision: nat)

  /* What is on its way. `late` holds the uploads that were reported as failed but may yet reach the server. Workers,
     reads, waits and versions are numbered by one counter. */
  datatype Net = Net(puts: map<nat, Put>, gets: map<nat, Get>, waits: map<nat, Wait>, late: map<nat, Put>, next: nat)

  /* The history: the versions of all edits to upload and where they were made, those the server has executed, and those
     it has acknowledged to the page. */
  datatype Log = Log(made: map<nat, Place>, executed: set<nat>, acked: set<nat>)

  datatype State = State(page: Page, net: Net, log: Log, store: map<AccountId, Data>, servers: map<AccountId, Table>)

  predicate Active(s: State, owner: Owner) { s.page.owner == owner }

  function Account(s: State): AccountId { s.page.owner.account }

  function Here(s: State): Data { DataOf(s.store, Account(s)) }

  /* Storing the data of the current account. */
  function Written(s: State, d: Data): State {
    s.(store := s.store[Account(s) := d], page := s.page.(revision := s.page.revision + 1))
  }

  function Sent(net: Net, id: nat, put: Put): Net { net.(puts := net.puts[id := put]) }

  function Counted(net: Net): Net { net.(next := net.next + 1) }

  predicate Flushes(page: Page) { page.owner.account != 0 && page.ready && page.worker.None? }

  /* The worker of this number uploads the oldest pending operation; it ends when there is none. */
  function Uploading(s: State, id: nat): Net {
    match Oldest(Here(s))
    case Some(k) => Sent(s.net, id, Put(s.page.owner, k, Here(s).pending[k], false))
    case None => s.net
  }

  /* Starting a worker, unless there is one. */
  function Flushed(s: State): State {
    if !Flushes(s.page) then s
    else s.(page := s.page.(worker := Some(s.net.next)), net := Uploading(s.(net := Counted(s.net)), s.net.next))
  }

  function LogEdit(log: Log, version: nat, a: AccountId, k: OpKey): Log {
    if a == 0 then log else log.(made := log.made[version := Place(a, k)])
  }

  function Stored(s: State, k: OpKey, v: Option<Value>): State {
    Written(s.(net := Counted(s.net), log := LogEdit(s.log, s.net.next, Account(s), k)),
            Edited(Here(s), Account(s), k, v, s.net.next))
  }

  function Changed(s: State, k: OpKey, v: Option<Value>): State { Flushed(Stored(s, k, v)) }

  function ReadStarted(s: State): State {
    s.(net := Counted(s.net).(gets := s.net.gets[s.net.next := Get(s.page.owner, s.page.revision, None)]))
  }

  /* Synchronising reads at once unless the page is ready; then it starts a worker and waits for the one there is. */
  function SyncStarted(s: State): State {
    if !s.page.ready then ReadStarted(s)
    else
      var s1 := Flushed(s);
      if s1.page.worker.None? then s1
      else s1.(net := Counted(s1.net).(waits := s1.net.waits[s1.net.next := Wait(s.page.owner, s1.page.worker.value)]))
  }

  function WaitEnded(s: State, id: nat): State
    requires id in s.net.waits
  {
    var s1 := s.(net := s.net.(waits := s.net.waits - {id}));
    if Active(s, s.net.waits[id].owner) then ReadStarted(s1) else s1
  }

  function Rebound(s: State, owner: Owner): State {
    s.(page := Page(owner, owner.account == 0, None, s.page.revision + 1))
  }

  function Bound(s: State, owner: Owner): State {
    if owner == s.page.owner then s
    else if owner.account == 0 then Rebound(s, owner) else ReadStarted(Rebound(s, owner))
  }

  /* The value a favourite gets when it is toggled. */
  function Toggled(d: Data, k: OpKey, item: Value): Option<Value> { if k in d.view then None else Some(item) }

  /* The operation that was sent is still the pending one of its place. */
  predicate Drops(s: State, put: Put) {
    Active(s, put.owner) && put.key in Here(s).pending && Here(s).pending[put.key].version == put.op.version
  }

  function AfterAck(s: State, id: nat): State
    requires id in s.net.puts
  {
    var put := s.net.puts[id];
    var s1 := s.(net := s.net.(puts := s.net.puts - {id}), log := s.log.(acked := s.log.acked + {put.op.version}));
    if Drops(s, put) then Written(s1, Dropped(Here(s), put.key)) else s1
  }

  /* The worker after the server's answer: the operation is dropped, and the next one is sent. */
  function Acknowledged(s: State, id: nat): State
    requires id in s.net.puts
  {
    var s1 := AfterAck(s, id);
    if Active(s, s.net.puts[id].owner) then s1.(net := Uploading(s1, id)) else s1
  }

  function WithoutRead(s: State, id: nat): State { s.(net := s.net.(gets := s.net.gets - {id})) }

  predicate Applies(s: State, id: nat) {
    && id in s.net.gets && s.net.gets[id].answer.Some?
    && Active(s, s.net.gets[id].owner) && s.net.gets[id].before == s.page.revision
  }

  /* The answer of a read is shown unless the revision has moved on. */
  function Shown(s: State, id: nat): State
    requires id in s.net.gets && s.net.gets[id].answer.Some?
  {
    var s1 := WithoutRead(s, id);
    if Applies(s, id) then Written(s1, Here(s).(view := Overlaid(s.net.gets[id].answer.value, Here(s).pending))) else s1
  }

  function Opened(s: State): State { s.(page := s.page.(ready := true)) }

  function ReadDone(s: State, id: nat): State
    requires id in s.net.gets && s.net.gets[id].answer.Some?
  {
    if Active(s, s.net.gets[id].owner) then Flushed(Opened(Shown(s, id))) else Shown(s, id)
  }

  function ReadFailed(s: State, id: nat): State
    requires id in s.net.gets
  {
    if Active(s, s.net.gets[id].owner) then Flushed(Opened(WithoutRead(s, id))) else WithoutRead(s, id)
  }

  function FrameEdited(s: State, a: AccountId, k: OpKey, v: Option<Value>): State {
    s.(store := s.store[a := Edited(DataOf(s.store, a), a, k, v, s.net.next)], net := Counted(s.net),
       log := LogEdit(s.log, s.net.next, a, k))
  }

  function Answered(s: State, id: nat): State
    requires id in s.net.gets
  {
    var get := s.net.gets[id];
    s.(net := s.net.(gets := s.net.gets[id := get.(answer := Some(TableOf(s.servers, get.owner.account)))]))
  }

  function AppliedTo(servers: map<AccountId, Table>, put: Put): map<AccountId, Table> {
    servers[put.owner.account := Updated(TableOf(servers, put.owner.account), put.key, put.op.value)]
  }

  function Executed(s: State, put: Put, net: Net): State {
    s.(servers := AppliedTo(s.servers, put), net := net, log := s.log.(executed := s.log.executed + {put.op.version}))
  }

  function PutExecuted(s: State, id: nat): State
    requires id in s.net.puts
  {
    Executed(s, s.net.puts[id], Sent(s.net, id, s.net.puts[id].(applied := true)))
  }

  function PutFailed(s: State, id: nat): State
    requires id in s.net.puts
  {
    var put := s.net.puts[id];
    s.(net := s.net.(puts := s.net.puts - {id}, late := if put.applied then s.net.late else s.net.late[id := put]))
  }

  function LateExecuted(s: State, id: nat): State
    requires id in s.net.late
  {
    Executed(s, s.net.late[id], s.net.(late := s.net.late - {id}))
  }

  /* The uploads that may still arrive after their sender is gone. */
  function Unapplied(puts: map<nat, Put>): map<nat, Put> { map id | id in puts && !puts[id].applied :: puts[id] }

  function Reloaded(s: State): State {
    s.(page := Page(Owner(0, 0), true, None, 0), net := Net(map[], map[], map[], s.net.late + Unapplied(s.net.puts), s.net.next))
  }

  // ---------- steps ----------

  datatype Step =
    | Bind(owner: Owner)                                           // the account or the sender changes
    | Save(key: string, value: Value)                              // a playing position is stored
    | Toggle(key: string, value: Value)                            // a favourite is set or removed
    | FrameEdit(account: AccountId, k: OpKey, v: Option<Value>)    // the player frame stores an edit
    | FrameMessage(account: AccountId)                             // ... and its message arrives
    | Flush
    | Sync                                                         // the page regains focus, or its timer fires
    | GoOn(id: nat)                                                // ... and the worker it waits for has ended
    | Answer(id: nat)                                              // the server answers a read
    | ReadReturns(id: nat)
    | ReadFails(id: nat)
    | Apply(id: nat)                                               // the server executes an upload
    | PutReturns(id: nat)
    | PutFails(id: nat)
    | ApplyLate(id: nat)                                           // ... or one that was reported as failed
    | ForgetWorker                                                 // an ended worker is forgotten
    | Elsewhere(account: AccountId, k: OpKey, v: Option<Value>)    // another device changes the server
    | Reload                                                       // the page is loaded anew

  predicate Enabled(s: State, step: Step) {
    match step
    case Save(_, _) => s.page.ready
    case Toggle(_, _) => s.page.ready
    case FrameMessage(a) => a == Account(s) && a != 0
    case Sync => Account(s) != 0
    case GoOn(id) => id in s.net.waits && s.net.waits[id].worker !in s.net.puts
    case Answer(id) => id in s.net.gets && s.net.gets[id].answer.None?
    case ReadReturns(id) => id in s.net.gets && s.net.gets[id].answer.Some?
    case ReadFails(id) => id in s.net.gets
    case Apply(id) => id in s.net.puts && !s.net.puts[id].applied
    case PutReturns(id) => id in s.net.puts && s.net.puts[id].applied
    case PutFails(id) => id in s.net.puts
    case ApplyLate(id) => id in s.net.late
    case ForgetWorker => s.page.worker.Some? && s.page.worker.value !in s.net.puts
    case _ => true
  }

  function Effect(s: State, step: Step): State
    requires Enabled(s, step)
  {
    match step
    case Bind(owner) => Bound(s, owner)
    case Save(key, value) => Changed(s, OpKey(Progress, key), Some(value))
    case Toggle(key, item) => Changed(s, OpKey(Favorites, key), Toggled(Here(s), OpKey(Favorites, key), item))
    case FrameEdit(a, k, v) => FrameEdited(s, a, k, v)
    case FrameMessage(a) => Flushed(s.(page := s.page.(revision := s.page.revision + 1)))
    case Flush => Flushed(s)
    case Sync => SyncStarted(s)
    case GoOn(id) => WaitEnded(s, id)
    case Answer(id) => Answered(s, id)
    case ReadReturns(id) => ReadDone(s, id)
    case ReadFails(id) => ReadFailed(s, id)
    case Apply(id) => PutExecuted(s, id)
    case PutReturns(id) => Acknowledged(s, id)
    case PutFails(id) => PutFailed(s, id)
    case ApplyLate(id) => LateExecuted(s, id)
    case ForgetWorker => s.(page := s.page.(worker := None))
    case Elsewhere(a, k, v) => s.(servers := s.servers[a := Updated(TableOf(s.servers, a), k, v)])
    case Reload => Reloaded(s)
  }

  /* What a step does; a step that cannot happen changes nothing. */
  function Do(s: State, step: Step): State { if Enabled(s, step) then Effect(s, step) else s }

  function Run(s: State, steps: seq<Step>): State {
    if steps == [] then s else Do(Run(s, steps[..|steps| - 1]), steps[|steps| - 1])
  }

  /* A device that has stored nothing yet. */
  predicate Initial(s: State) {
    Account(s) == 0 && s.page.worker.None? && s.store == map[] && s.net.puts == map[] && s.net.gets == map[]
    && s.net.waits == map[] && s.net.late == map[] && s.log == Log(map[], {}, {})
  }

  // ---------- the program ----------

  lemma OverlaidNext(remote: Table, pending: map<OpKey, Op>, left: set<OpKey>, k: OpKey)
    requires k in pending && k in left
    ensures Overlaid(remote, pending - (left - {k})) == Updated(Overlaid(remote, pending - left), k, pending[k].value)
  {
    var view, view' := Overlaid(remote, pending - left), Overlaid(remote, pending - (left - {k}));
    forall j: OpKey | j != k ensures (j in view' <==> j in view) && (j in view' ==> view'[j] == view[j]) {
      assert j in pending - (left - {k}) <==> j in pending - left;
    }
  }

  lemma OverlaidMeaning(remote: Table, pending: map<OpKey, Op>)
    ensures forall k :: Lookup(Overlaid(remote, pending), k) == if k in pending then pending[k].value else Lookup(remote, k)
  {
  }

  /* The view after an edit. */
  lemma ChangedShows(s: State, k: OpKey, v: Option<Value>)
    ensures Account(Changed(s, k, v)) == Account(s)
    ensures forall j :: Lookup(Here(Changed(s, k, v)).view, j) == if j == k then v else Lookup(Here(s).view, j)
  {
    hide Uploading;
  }

  method Overlay(remote: Table, pending: map<OpKey, Op>) returns (view: Table)
    ensures view == Overlaid(remote, pending)
    ensures forall k :: Lookup(view, k) == if k in pending then pending[k].value else Lookup(remote, k)
  {
    view := remote;
    assert Overlaid(remote, pending - pending.Keys) == remote;
    hide Overlaid, Lookup;
    var left := pending.Keys;
    while left != {}
      invariant left <= pending.Keys
      invariant view == Overlaid(remote, pending - left)
      decreases |left|
    {
      var k :| k in left;
      OverlaidNext(remote, pending, left, k);
      match pending[k].value {
        case Some(value) => view := view[k := value];
        case None => view := view - {k};
      }
      left := left - {k};
    }
    assert pending - left == pending;
    OverlaidMeaning(remote, pending);
  }

  /* The variables of the page, the device's storage, and what is on its way. */
  class Memory {
    var owner: Owner
    var ready: bool
    var worker: Option<nat>
    var revision: nat
    var store: map<AccountId, Data>
    var servers: map<AccountId, Table>
    var net: Net
    ghost var log: Log

    ghost function Now(): State
      reads this
    {
      State(Page(owner, ready, worker, revision), net, log, store, servers)
    }

    function Current(): Data
      reads this
    {
      DataOf(store, owner.account)
    }

    constructor (servers: map<AccountId, Table>)
      ensures Initial(Now()) && this.servers == servers
    {
      owner, ready, worker, revision := Owner(0, 0), true, None, 0;
      store, this.servers := map[], servers;
      net := Net(map[], map[], map[], map[], 0);
      log := Log(map[], {}, {});
    }

    method Write(data: Data)
      modifies this
      ensures Now() == Written(old(Now()), data)
    {
      store := store[owner.account := data];
      revision := revision + 1;
    }

    method Flush()
      modifies this
      ensures Now() == Flushed(old(Now()))
    {
      if owner.account == 0 || !ready || worker.Some? { return; }
      var id := net.next;
      net := Counted(net);
      worker := Some(id);
      SendOldest(id);
    }

    /* The worker's loop up to the next upload: the first entry of the pending operations, or the end of the loop. */
    method SendOldest(id: nat)
      modifies this`net
      ensures Now() == old(Now()).(net := Uploading(old(Now()), id))
    {
      match Oldest(Current()) {
        case Some(k) => net := Sent(net, id, Put(owner, k, Current().pending[k], false));
        case None =>
      }
    }

    method Change(k: OpKey, v: Option<Value>)
      modifies this
      ensures Now() == Changed(old(Now()), k, v)
    {
      var data, version := Current(), net.next;
      var view := match v case Some(value) => data.view[k := value] case None => data.view - {k};
      net := Counted(net);
      log := LogEdit(log, version, owner.account, k);
      if owner.account == 0 {
        Write(data.(view := view));
      } else {
        Write(Data(view, data.pending[k := Op(v, version)], if k in data.order then data.order else data.order + [k]));
      }
      Flush();
    }

    /* `scope` is the account the player was opened for. */
    method SavePosition(key: string, value: Value, scope: AccountId) returns (ok: bool)
      requires value.Position?
      modifies this
      ensures ok <==> scope == old(owner).account && old(ready) && key != [] && value.time >= 0.0
      ensures Now() == if ok then Do(old(Now()), Step.Save(key, value)) else old(Now())
      ensures ok ==> forall j :: Lookup(Current().view, j) ==
                       if j == OpKey(Progress, key) then Some(value) else Lookup(old(Current()).view, j)
    {
      if scope != owner.account || !ready || key == [] || value.time < 0.0 { return false; }
      ChangedShows(Now(), OpKey(Progress, key), Some(value));
      Change(OpKey(Progress, key), Some(value));
      ok := true;
    }

    method ToggleFavorite(key: string, item: Value) returns (ok: bool)
      modifies this
      ensures ok <==> old(ready) && key != []
      ensures Now() == if ok then Do(old(Now()), Step.Toggle(key, item)) else old(Now())
      ensures ok ==> forall j :: Lookup(Current().view, j) ==
                       if j != OpKey(Favorites, key) then Lookup(old(Current()).view, j)
                       else if Lookup(old(Current()).view, j).Some? then None else Some(item)
    {
      if !ready || key == [] { return false; }
      var k := OpKey(Favorites, key);
      ChangedShows(Now(), k, if k in Current().view then None else Some(item));
      Change(k, if k in Current().view then None else Some(item));
      ok := true;
    }

    method FrameChanged(a: AccountId)
      modifies this
      ensures Now() == Do(old(Now()), FrameMessage(a))
      ensures a != old(owner).account || a == 0 ==> Now() == old(Now())
    {
      if a != owner.account || owner.account == 0 { return; }
      revision := revision + 1;
      Flush();
    }

    /* The worker's loop body after the answer, and the next upload. */
    method Acknowledge(id: nat)
      requires id in net.puts
      modifies this
      ensures Now() == Acknowledged(old(Now()), id)
    {
      var put := net.puts[id];
      net := net.(puts := net.puts - {id});
      log := log.(acked := log.acked + {put.op.version});
      if put.owner != owner { return; }
      var data := Current();
      if put.key in data.pending && data.pending[put.key].version == put.op.version {
        Write(Dropped(data, put.key));
      }
      SendOldest(id);
    }

    method FinishRead(id: nat)
      requires id in net.gets && net.gets[id].answer.Some?
      modifies this
      ensures Now() == ReadDone(old(Now()), id)
      ensures var get := old(net).gets[id];
              get.owner == old(owner) ==>
                && ready
                && forall k :: Lookup(Current().view, k) ==
                     if get.before != old(revision) then Lookup(old(Current()).view, k)
                     else if k in old(Current()).pending then old(Current()).pending[k].value else Lookup(get.answer.value, k)
    {
      var get := net.gets[id];
      net := net.(gets := net.gets - {id});
      if get.owner != owner { return; }
      if get.before == revision {
        var data := Current();
        var view := Overlay(get.answer.value, data.pending);
        Write(data.(view := view));
      }
      ready := true;
      Flush();
    }

    /* Synchronising up to its first await, */
    method StartSync()
      modifies this
      ensures Now() == Do(old(Now()), Sync)
    {
      if owner.account == 0 { return; }
      if ready {
        Flush();
        net := Counted(net).(waits := net.waits[net.next := Wait(owner, worker.value)]);
      } else {
        StartRead();
      }
    }

    method StartRead()
      modifies this`net
      ensures Now() == ReadStarted(old(Now()))
    {
      net := Counted(net).(gets := net.gets[net.next := Get(owner, revision, None)]);
    }

    /* ... and on from there when the worker has ended. */
    method ContinueSync(id: nat)
      requires id in net.waits && net.waits[id].worker !in net.puts
      modifies this`net
      ensures Now() == Do(old(Now()), GoOn(id))
    {
      var wait := net.waits[id];
      net := net.(waits := net.waits - {id});
      if wait.owner == owner { StartRead(); }
    }

    method BindAccount(next: Owner)
      modifies this
      ensures Now() == Bound(old(Now()), next)
      ensures owner == next && store == old(store) && (next != old(owner) ==> (ready <==> next.account == 0))
    {
      if next == owner { return; }
      owner, worker, ready, revision := next, None, next.account == 0, revision + 1;
      if next.account == 0 { return; }
      StartSync();
    }
  }
}
