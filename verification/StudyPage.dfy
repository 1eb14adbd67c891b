/** The page of the study memory. */
module StudyPage {
  import opened StudyMemory
  import opened StudyHistory
  import opened Wrappers

  // ---------- readiness ----------

  predicate EndsRead(s: State, id: nat) { id in s.net.gets && s.net.gets[id].owner == s.page.owner }

  /* The page is not ready from the binding of an account until a read for it has ended, with or without an answer. */
  lemma ReadyAfterIff(s: State, step: Step)
    ensures Do(s, step).page.ready <==>
            match step
            case Bind(owner) => if owner == s.page.owner then s.page.ready else owner.account == 0
            case ReadReturns(id) => s.page.ready || (EndsRead(s, id) && s.net.gets[id].answer.Some?)
            case ReadFails(id) => s.page.ready || EndsRead(s, id)
            case Reload => true
            case _ => s.page.ready
  {
    hide Uploading, Overlaid, Edited, Dropped;
  }

  predicate WorkerInv(s: State) {
    (Account(s) == 0 ==> s.page.ready) && (s.page.worker.Some? ==> s.page.ready && Account(s) != 0)
  }

  lemma DoKeepsWorker(s: State, step: Step)
    requires WorkerInv(s)
    ensures WorkerInv(Do(s, step))
  {
    hide Uploading, Overlaid, Edited;
  }

  /* Main result: over every run, a worker is at work only for an account whose page is ready; a guest's page always is. */
  lemma {:induction false} WorkerNeedsReady(s: State, steps: seq<Step>)
    requires Initial(s) && s.page.ready
    ensures WorkerInv(Run(s, steps))
  {
    hide Do;
    if steps != [] {
      WorkerNeedsReady(s, steps[..|steps| - 1]);
      DoKeepsWorker(Run(s, steps[..|steps| - 1]), steps[|steps| - 1]);
    }
  }

  // ---------- uploads ----------

  /* After these steps the program looks for something to upload. */
  predicate Looks(s: State, step: Step) {
    match step
    case Save(_, _) => true
    case Toggle(_, _) => true
    case FrameMessage(_) => true
    case Flush => true
    case Sync => true
    case ReadReturns(id) => EndsRead(s, id)
    case ReadFails(id) => EndsRead(s, id)
    case _ => false
  }

  /* The worker's upload is that of the oldest pending operation. */
  predicate UploadsFirst(s: State, id: nat) {
    var d := Here(s);
    d.order != [] && d.order[0] in d.pending ==>
      id in s.net.puts && s.net.puts[id] == Put(s.page.owner, d.order[0], d.pending[d.order[0]], false)
  }

  lemma FlushedPage(s: State)
    ensures Flushed(s).page == s.page.(worker := Flushed(s).page.worker)
  {
  }

  lemma FlushedUploads(s: State)
    requires Account(s) != 0 && s.page.ready
    ensures var s' := Flushed(s);
            && s'.page == s.page.(worker := s'.page.worker) && s'.page.worker.Some? && s'.store == s.store
            && (s.page.worker.None? ==> UploadsFirst(s', s'.page.worker.value))
            && (s.page.worker.Some? ==> s' == s)
  {
  }

  /* Main result: after an edit of a ready page, a message of its frame, its timer or the end of its read there is a worker;
     a new one uploads the oldest pending operation at once. */
  lemma EditIsTakenUp(s: State, step: Step)
    requires Enabled(s, step) && Looks(s, step) && Account(s) != 0 && Do(s, step).page.ready
    ensures var s' := Do(s, step);
            s'.page.worker.Some? && (s.page.worker.None? ==> UploadsFirst(s', s'.page.worker.value))
  {
    hide Flushed, UploadsFirst, Edited, Overlaid;
    match step
    case Save(key, value) => FlushedUploads(Stored(s, OpKey(Progress, key), Some(value)));
    case Toggle(key, item) =>
      var k := OpKey(Favorites, key);
      FlushedUploads(Stored(s, k, Toggled(Here(s), k, item)));
    case FrameMessage(a) =>
      FlushedPage(s.(page := s.page.(revision := s.page.revision + 1)));
      FlushedUploads(s.(page := s.page.(revision := s.page.revision + 1)));
    case Flush =>
      FlushedPage(s);
      FlushedUploads(s);
    case Sync => SyncUploads(s);
    case ReadReturns(id) =>
      ShownKeepsPage(s, id);
      FlushedUploads(Opened(Shown(s, id)));
    case ReadFails(id) => FlushedUploads(Opened(WithoutRead(s, id)));
    case _ =>
  }

  lemma ShownKeepsPage(s: State, id: nat)
    requires id in s.net.gets && s.net.gets[id].answer.Some?
    ensures Shown(s, id).page == s.page.(revision := Shown(s, id).page.revision)
  {
  }

  lemma SyncUploads(s: State)
    requires Account(s) != 0 && s.page.ready
    ensures var s' := SyncStarted(s);
            && s'.page.worker.Some? && (s.page.worker.None? ==> UploadsFirst(s', s'.page.worker.value))
  {
    hide Flushed;
    FlushedUploads(s);
  }

  // ---------- what the user sees ----------

  /* What is shown of a key in the current account. */
  function Seen(s: State, k: OpKey): Option<Value> { Lookup(Here(s).view, k) }

  ghost predicate OtherDataSame(s: State, s': State) { forall a | a != Account(s) :: DataOf(s'.store, a) == DataOf(s.store, a) }

  /* What is still to be uploaded of a key, by the account's own data. */
  function PendingOf(s: State, k: OpKey): Option<Op> { if k in Here(s).pending then Some(Here(s).pending[k]) else None }

  /* An edit changes what is shown of its key, and of an account what is to be uploaded of it, and nothing else of the data. */
  ghost predicate EditSeen(s: State, s': State, k: OpKey, v: Option<Value>) {
    && Account(s') == Account(s) && OtherDataSame(s, s') && s'.servers == s.servers
    && forall j :: Seen(s', j) == (if j == k then v else Seen(s, j))
                   && PendingOf(s', j) == if j == k && Account(s) != 0 then Some(Op(v, s.net.next)) else PendingOf(s, j)
  }

  lemma ChangeIsSeen(s: State, k: OpKey, v: Option<Value>)
    ensures EditSeen(s, Changed(s, k, v), k, v)
  {
    hide Uploading;
  }

  /* Main result: a stored position is shown from then on, a favourite that was shown is gone and one that was not is there;
     all other keys and accounts stay as they are. */
  lemma EditIsSeen(s: State, key: string, value: Value)
    requires s.page.ready
    ensures EditSeen(s, Do(s, Step.Save(key, value)), OpKey(Progress, key), Some(value))
    ensures var k := OpKey(Favorites, key);
            EditSeen(s, Do(s, Step.Toggle(key, value)), k, if Seen(s, k).Some? then None else Some(value))
  {
    hide Changed, EditSeen;
    ChangeIsSeen(s, OpKey(Progress, key), Some(value));
    ChangeIsSeen(s, OpKey(Favorites, key), if Seen(s, OpKey(Favorites, key)).Some? then None else Some(value));
  }

  predicate IsApplied(s: State, step: Step) {
    && step.ReadReturns? && step.id in s.net.gets && s.net.gets[step.id].answer.Some?
    && s.net.gets[step.id].owner == s.page.owner && s.net.gets[step.id].before == s.page.revision
  }

  /* The data of an account after a step of its page's edits and answers, ... */
  lemma DataAfterAnswer(s: State, step: Step, a: AccountId)
    requires step.PutReturns? || step.ReadReturns?
    ensures var d, d' := DataOf(s.store, a), DataOf(Do(s, step).store, a);
            d' == match step
                  case PutReturns(id) =>
                    if Enabled(s, step) && a == Account(s) && Drops(s, s.net.puts[id]) then Dropped(d, s.net.puts[id].key) else d
                  case ReadReturns(id) =>
                    if IsApplied(s, step) && a == Account(s)
                    then d.(view := Overlaid(s.net.gets[id].answer.value, d.pending)) else d
  {
    hide Uploading, Edited, Overlaid, Dropped, Toggled;
  }

  /* ... and after any other one. */
  lemma DataAfter(s: State, step: Step, a: AccountId)
    requires !step.PutReturns? && !step.ReadReturns?
    ensures var d, d' := DataOf(s.store, a), DataOf(Do(s, step).store, a);
            d' == match step
                  case Save(key, value) =>
                    if s.page.ready && a == Account(s) then Edited(d, a, OpKey(Progress, key), Some(value), s.net.next) else d
                  case Toggle(key, item) =>
                    var k := OpKey(Favorites, key);
                    if s.page.ready && a == Account(s) then Edited(d, a, k, Toggled(d, k, item), s.net.next) else d
                  case FrameEdit(b, k, v) => if a == b then Edited(d, a, k, v, s.net.next) else d
                  case _ => d
  {
    hide Uploading, Edited, Overlaid, Dropped, Toggled;
  }

  lemma EditedView(d: Data, a: AccountId, k: OpKey, v: Option<Value>, version: nat, j: OpKey)
    ensures Lookup(Edited(d, a, k, v, version).view, j) == if j == k then v else Lookup(d.view, j)
    ensures Edited(d, a, k, v, version).order == d.order || Edited(d, a, k, v, version).order == Queued(d.order, k)
  {
  }

  /* Main result: what is shown of an account changes only by its own edits and by an answer that is applied, which shows
     the server's values and on top of them what is pending. */
  lemma ShownChangesOnly(s: State, step: Step, a: AccountId, k: OpKey)
    ensures var before, after := DataOf(s.store, a), DataOf(Do(s, step).store, a);
            if IsApplied(s, step) && a == Account(s) then
              Lookup(after.view, k) ==
              if k in before.pending then before.pending[k].value else Lookup(s.net.gets[step.id].answer.value, k)
            else
              Lookup(after.view, k) != Lookup(before.view, k) ==>
                (step.Save? && a == Account(s) && k == OpKey(Progress, step.key))
                || (step.Toggle? && a == Account(s) && k == OpKey(Favorites, step.key))
                || (step.FrameEdit? && a == step.account && k == step.k)
  {
    hide Do, Edited, Overlaid, Drops;
    var d := DataOf(s.store, a);
    if step.PutReturns? || step.ReadReturns? { DataAfterAnswer(s, step, a); } else { DataAfter(s, step, a); }
    match step
    case Save(key, value) => EditedView(d, a, OpKey(Progress, key), Some(value), s.net.next, k);
    case Toggle(key, item) =>
      var x := OpKey(Favorites, key);
      EditedView(d, a, x, Toggled(d, x, item), s.net.next, k);
    case FrameEdit(b, x, v) => EditedView(d, a, x, v, s.net.next, k);
    case ReadReturns(id) => if IsApplied(s, step) { OverlaidMeaning(s.net.gets[id].answer.value, d.pending); }
    case _ =>
  }

  // ---------- the order of uploads ----------

  /* The first key comes before every place of the second one. */
  predicate Precedes(order: seq<OpKey>, j: OpKey, k: OpKey) {
    exists i :: 0 <= i < |order| && order[i] == j && k !in order[..i + 1]
  }

  lemma QueuedPrecedes(order: seq<OpKey>, j: OpKey, k: OpKey, x: OpKey)
    requires Precedes(order, j, k)
    ensures Precedes(Queued(order, x), j, k)
  {
    var i :| 0 <= i < |order| && order[i] == j && k !in order[..i + 1];
    assert Queued(order, x)[..i + 1] == order[..i + 1] && Queued(order, x)[i] == j;
  }

  lemma PrecedesRest(order: seq<OpKey>, j: OpKey, k: OpKey)
    requires Precedes(order, j, k)
    ensures order != [] && (order[0] != j ==> order[0] != k && Precedes(order[1..], j, k))
  {
    var i :| 0 <= i < |order| && order[i] == j && k !in order[..i + 1];
    if i > 0 {
      assert order[..i + 1] == [order[0]] + order[1..][..i];
      assert order[1..][i - 1] == j;
    }
  }

  lemma FirstPrecedes(j: OpKey, rest: seq<OpKey>, k: OpKey)
    requires j != k
    ensures Precedes([j] + rest, j, k)
  {
    assert ([j] + rest)[..1] == [j] && ([j] + rest)[0] == j;
  }

  lemma PrependPrecedes(first: OpKey, rest: seq<OpKey>, j: OpKey, k: OpKey)
    requires Precedes(rest, j, k) && first != k
    ensures Precedes([first] + rest, j, k)
  {
    var i :| 0 <= i < |rest| && rest[i] == j && k !in rest[..i + 1];
    assert ([first] + rest)[..i + 2] == [first] + rest[..i + 1] && ([first] + rest)[i + 1] == j;
  }

  lemma {:induction false} WithoutPrecedes(order: seq<OpKey>, j: OpKey, k: OpKey, x: OpKey)
    requires Precedes(order, j, k) && x != j && j != k
    ensures Precedes(Without(order, x), j, k)
  {
    hide Precedes;
    PrecedesRest(order, j, k);
    if order[0] == j {
      assert Without(order, x) == [j] + Without(order[1..], x);
      FirstPrecedes(j, Without(order[1..], x), k);
    } else {
      WithoutPrecedes(order[1..], j, k, x);
      PrependPrecedes(order[0], Without(order[1..], x), j, k);
      if order[0] == x { assert Without(order, x) == Without(order[1..], x); }
    }
  }

  lemma StartsPreceding(order: seq<OpKey>, j: OpKey, k: OpKey)
    requires j in order && k !in order
    ensures Precedes(order, j, k)
  {
    var i :| 0 <= i < |order| && order[i] == j;
    assert k !in order[..i + 1];
  }

  function OrderOf(s: State, a: AccountId): seq<OpKey> { DataOf(s.store, a).order }

  /* A step queues one key, drops one, or leaves the order. */
  lemma OrderAfter(s: State, step: Step, a: AccountId) returns (k: OpKey)
    ensures var order, order' := OrderOf(s, a), OrderOf(Do(s, step), a);
            order' == order || order' == Queued(order, k) || (order' == Without(order, k) && step.PutReturns?)
  {
    hide Do, Edited, Drops, Queued, Without;
    var d, n := DataOf(s.store, a), s.net.next;
    if step.PutReturns? || step.ReadReturns? { DataAfterAnswer(s, step, a); } else { DataAfter(s, step, a); }
    k := OpKey(Progress, "");
    match step {
      case Save(key, value) =>
        k := OpKey(Progress, key);
        EditedView(d, a, k, Some(value), n, k);
      case Toggle(key, item) =>
        k := OpKey(Favorites, key);
        EditedView(d, a, k, Toggled(d, k, item), n, k);
      case FrameEdit(_, x, v) =>
        k := x;
        EditedView(d, a, k, v, n, k);
      case PutReturns(id) =>
        if id in s.net.puts {
          k := s.net.puts[id].key;
          assert Dropped(d, k).order == Without(d.order, k);
        }
      case _ =>
    }
  }

  /* Main result: what is pending first is uploaded first. An operation that was pending when there was none for another key
     stays before that key's operation for as long as it is pending, whatever is edited again meanwhile. */
  lemma {:induction false} FirstPendingGoesFirst(s: State, steps: seq<Step>, a: AccountId, j: OpKey, k: OpKey)
    requires j in OrderOf(s, a) && k !in OrderOf(s, a)
    requires forall n | 0 <= n <= |steps| :: j in OrderOf(Run(s, steps[..n]), a)
    ensures Precedes(OrderOf(Run(s, steps), a), j, k)
  {
    hide Do, Precedes;
    if steps == [] {
      StartsPreceding(OrderOf(s, a), j, k);
    } else {
      var init := steps[..|steps| - 1];
      assert forall n | 0 <= n <= |init| :: steps[..n] == init[..n];
      assert steps[..|steps|] == steps;
      FirstPendingGoesFirst(s, init, a, j, k);
      StillPrecedes(Run(s, init), steps[|steps| - 1], a, j, k);
    }
  }

  lemma StillPrecedes(s: State, step: Step, a: AccountId, j: OpKey, k: OpKey)
    requires Precedes(OrderOf(s, a), j, k) && j != k && j in OrderOf(Do(s, step), a)
    ensures Precedes(OrderOf(Do(s, step), a), j, k)
  {
    hide Do, Precedes, Queued, Without;
    var order := OrderOf(s, a);
    var x := OrderAfter(s, step, a);
    QueuedPrecedes(order, j, k, x);
    WithoutOnly(order, x, j);
    if x != j { WithoutPrecedes(order, j, k, x); }
  }
}
