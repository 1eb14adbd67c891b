/** Every step sends only what the sent states call for. From the comparison with the sent states to the recording of the
    delivery the worker's job carries a body that the states call for, no file that was saved as sent is left behind while
    the run is settled, and the deliveries of each key form a chain that the stored state continues. */
module DeliverySends {
  import opened Bindings
  import opened SentState
  import opened Jobs
  import opened Delivery
  import opened DeliveryFiles
  import opened Wrappers

  /* The sent state calls for this job's body. */
  predicate CalledFor(sent: States, item: Job) {
    Decide(sent, StateFromJob(item), item.recordId) == Send
  }

  /* What identifies the body of a job. */
  predicate SameBody(a: Job, b: Job) {
    a.recordId == b.recordId && a.group == b.group && a.target == b.target && a.body == b.body
  }

  lemma SameBodyCalledFor(sent: States, a: Job, b: Job)
    requires SameBody(a, b) && CalledFor(sent, a)
    ensures CalledFor(sent, b)
  {
    var x, y := StateFromJob(a), StateFromJob(b);
    assert y == x.(sentAt := y.sentAt);
    TimeDoesNotDecide(sent, x, y.sentAt, a.recordId);
  }

  lemma TimeDoesNotDecide(sent: States, x: SentState, at: nat, recordId: nat)
    ensures Decide(sent, x, recordId) == Decide(sent, x.(sentAt := at), recordId)
  {
  }

  predicate SendOk(sent: States, w: Worker, settled: bool) {
    w.Busy? ==>
      && (w.stage.Cleared? || w.stage == Frozen || w.stage == Sending ==> CalledFor(sent, w.item))
      && (settled && w.stage == Loaded ==> w.item.status != Sent)
      && (settled && (w.stage == Finishing || w.stage == Recording) && w.item.status == Sent ==> CalledFor(sent, w.item))
  }

  /* Only the job that the worker is recording or archiving is saved as sent. */
  predicate Untouched(file: Option<Job>, w: Worker, n: Name) {
    file.Some? && !(w.Busy? && w.name == n && SavedAsSent(w)) ==> file.value.status != Sent
  }

  ghost predicate StatusInv(s: State) {
    s.intact.settled ==> forall n :: Untouched(FileOf(s, n), s.worker, n)
  }

  ghost predicate KeyOk(sent: States, deliveries: seq<SentState>, key: Key) {
    && (key in sent <==> |deliveries| > 0)
    && (key in sent ==> Continues(deliveries[|deliveries| - 1], sent[key]) && KeyOf(sent[key]) == key)
    && Chain(deliveries)
  }

  ghost predicate KeysInv(s: State) {
    s.intact.settled ==> forall key :: KeyOk(s.sent, DeliveredTo(s, key), key)
  }

  ghost predicate SI(s: State) {
    SendOk(s.sent, s.worker, s.intact.settled) && StatusInv(s) && KeysInv(s)
  }

  lemma PutStatus(s: State, s': State, name: Name, files: Files)
    requires StatusInv(s) && (s'.intact.settled ==> s.intact.settled)
    requires s'.dirs == Put(s.dirs, name, files)
    requires s'.worker == s.worker
          || (s.worker.Busy? && s.worker.name == name && (s'.worker.Busy? ==> s'.worker.name == name))
    requires s'.intact.settled ==> Untouched(files.pending, s'.worker, name)
    ensures StatusInv(s')
  {
    if s'.intact.settled {
      forall n ensures Untouched(FileOf(s', n), s'.worker, n) {
        GetPut(s.dirs, name, files, n);
        assert FileOf(s', n) == Get(s'.dirs, n).pending && FileOf(s, n) == Get(s.dirs, n).pending;
        assert s.intact.settled ==> Untouched(FileOf(s, n), s.worker, n);
      }
    }
  }

  lemma SameKeys(s: State, s': State)
    requires KeysInv(s) && s'.sent == s.sent && s'.delivered == s.delivered && (s'.intact.settled ==> s.intact.settled)
    ensures KeysInv(s')
  {
    if s'.intact.settled {
      forall key ensures KeyOk(s'.sent, DeliveredTo(s', key), key) {
        assert KeyOk(s.sent, DeliveredTo(s, key), key);
      }
    }
  }

  lemma WakeSI(s: State, name: Name, now: nat, deleted: bool)
    requires SI(s)
    ensures SI(DoWake(s, name, now, deleted))
  {
    var s' := DoWake(s, name, now, deleted);
    SameKeys(s, s');
    if IsInitial(name) && now > 0 {
      var files := Get(s.dirs, name);
      assert s.intact.settled ==> Untouched(FileOf(s, name), s.worker, name);
      PutStatus(s, s', name, Woken(files, now, deleted, WakesOf(s, name) + 1));
    }
  }

  lemma EnqueueSI(s: State, name: Name, at: nat)
    requires SI(s)
    ensures SI(DoEnqueue(s, name, at))
  {
    var s' := DoEnqueue(s, name, at);
    SameKeys(s, s');
    if s' != s {
      PutStatus(s, s', name, Enqueued(Get(s.dirs, name), name, at, WakesOf(s, name)));
    }
  }

  lemma LoadingSend(sent: States, name: Name, item: Job, now: nat, settled: bool)
    requires settled ==> item.status != Sent
    ensures LoadingOf(name, item, now).Process? ==> SendOk(sent, LoadingOf(name, item, now).w, settled)
  {
  }

  lemma PickUpSI(s: State, w: Worker)
    requires SI(s) && s.worker.Idle? && SendOk(s.sent, w, s.intact.settled)
    ensures SI(s.(worker := w))
  {
    var s' := s.(worker := w);
    SameKeys(s, s');
    if s.intact.settled {
      forall n ensures Untouched(FileOf(s', n), w, n) {
        assert Untouched(FileOf(s, n), s.worker, n);
      }
    }
  }

  lemma LoadSI(s: State, name: Name, now: nat)
    requires FW(s) && SI(s)
    ensures SI(DoLoad(s, name, now))
  {
    if s.worker.Idle? && FileOf(s, name).Some? {
      var item := FileOf(s, name).value;
      assert NameOk(name, Get(s.dirs, name), WakesOf(s, name), s.intact.removed);
      LoadingOk(name, item, now, WakesOf(s, name));
      assert s.intact.settled ==> Untouched(FileOf(s, name), s.worker, name);
      LoadingSend(s.sent, name, item, now, s.intact.settled);
      var loading := LoadingOf(name, item, now);
      if loading.Process? {
        PickUpSI(s, loading.w);
      }
    }
  }

  /* The worker goes on with its job, sent states and deliveries unchanged. */
  lemma MoveSI(s: State, s': State)
    requires SI(s) && s.worker.Busy?
    requires s'.dirs == s.dirs && s'.sent == s.sent && s'.delivered == s.delivered && (s'.intact.settled ==> s.intact.settled)
    requires s'.worker.Busy? && s'.worker.name == s.worker.name
    requires SendOk(s'.sent, s'.worker, s'.intact.settled) && (SavedAsSent(s.worker) ==> SavedAsSent(s'.worker))
    ensures SI(s')
  {
    SameKeys(s, s');
    if s'.intact.settled {
      forall n ensures Untouched(FileOf(s', n), s'.worker, n) {
        assert Untouched(FileOf(s, n), s.worker, n);
      }
    }
  }

  lemma WriteSI(s: State, item: Job, w: Worker, logs: map<Name, Log>)
    requires SI(s) && s.worker.Busy? && (w.Busy? ==> w.name == s.worker.name)
    requires SendOk(s.sent, w, s.intact.settled) && (item.status == Sent ==> SavedAsSent(w))
    ensures SI(Write(s, item, w).(logs := logs))
  {
    var s' := Write(s, item, w).(logs := logs);
    SameKeys(s, s');
    PutStatus(s, s', s.worker.name, Written(Get(s.dirs, s.worker.name), item));
  }

  lemma DroppedSI(s: State)
    requires SI(s)
    ensures SI(Dropped(s))
  {
    SameKeys(s, Dropped(s));
    if Dropped(s).intact.settled {
      forall n ensures Untouched(FileOf(Dropped(s), n), Idle, n) { assert Untouched(FileOf(s, n), s.worker, n); }
    }
  }

  lemma PrepareSI(s: State, ok: bool)
    requires FW(s) && SI(s)
    ensures SI(DoPrepare(s, ok))
  {
    hide Belongs, Dropped;
    if AtStage(s, Loaded) {
      var name, item := s.worker.name, s.worker.item;
      if item.status == Sent {
        MoveSI(s, Goto(s, item, Finishing));
      } else if item.status != Pending {
        MoveSI(s, Goto(s, item, Archiving));
      } else if item.initial.NoTopic? || item.nextPart != 0 {
        MoveSI(s, Goto(s, item, Prepared));
      } else {
        var merged := Merged(FileOf(s, name), item);
        if merged.refreshAt == 0 {
          MoveSI(s, Goto(s, merged, Prepared));
        } else if ok {
          var reset := ResetJob(merged, merged.refreshAt, WakesOf(s, name));
          WriteSI(s, reset, Moved(s.worker, reset, Prepared), Forget(s, name));
        } else {
          DroppedSI(s);
        }
      }
    }
  }

  lemma CheckSI(s: State, check: CheckResult)
    requires FW(s) && SI(s)
    ensures SI(DoCheck(s, check))
  {
    if AtStage(s, Prepared) {
      MoveSI(s, DoCheck(s, check));
    }
  }

  lemma SummarySend(sent: States, w: Worker, result: SnapResult, body: Body, settled: bool)
    requires w.Busy? && w.item.status == Pending
    ensures SendOk(sent, AfterSummary(w, result, body), settled)
  {
  }

  lemma SummariseSI(s: State, result: SnapResult)
    requires FW(s) && SI(s)
    ensures SI(DoSummarise(s, result))
  {
    if AtStage(s, Checked) {
      var wakes := WakesOf(s, s.worker.name);
      var body := if result.Summary? then BodyOf(result.snapshot, wakes) else NO_BODY.(wakes := wakes);
      SummarySend(s.sent, s.worker, result, body, s.intact.settled);
      MoveSI(s, s.(worker := AfterSummary(s.worker, result, body)));
    }
  }

  lemma WidenKeys(s: State, candidate: SentState, recordId: nat)
    requires KeysInv(s) && Decide(s.sent, candidate, recordId).Widen?
    ensures KeysInv(s.(sent := Decide(s.sent, candidate, recordId).states))
  {
    var s' := s.(sent := Decide(s.sent, candidate, recordId).states);
    if s.intact.settled {
      forall key ensures KeyOk(s'.sent, DeliveredTo(s', key), key) {
        assert KeyOk(s.sent, DeliveredTo(s, key), key);
      }
    }
  }

  lemma CompareSI(s: State, readable: bool)
    requires FW(s) && SI(s)
    ensures SI(DoCompare(s, readable))
  {
    if s.worker.Busy? && s.worker.stage.Summarised? {
      var item := s.worker.item;
      var decision := Verdict(s.sent, item, readable);
      if decision.Widen? {
        WidenKeys(s, StateFromJob(item), item.recordId);
      }
      VerdictSI(s, decision);
    }
  }

  lemma VerdictSI(s: State, decision: Decision)
    requires SI(s) && s.worker.Busy? && s.worker.stage.Summarised? && s.worker.item.status == Pending
    requires decision.Widen? ==> KeysInv(s.(sent := decision.states))
    requires decision.Send? ==> CalledFor(s.sent, s.worker.item)
    ensures SI(AfterVerdict(s, decision))
  {
    if decision.Widen? {
      WidenedSI(s, decision.states);
    } else {
      VerdictSend(s, decision);
      MoveSI(s, AfterVerdict(s, decision));
    }
  }

  lemma WidenedSI(s: State, states: States)
    requires SI(s) && s.worker.Busy? && !SavedAsSent(s.worker) && KeysInv(s.(sent := states))
    ensures SI(Goto(s.(sent := states), Skip(s.worker.item, ContentNotUpdated), Finishing))
  {
    var s1 := s.(sent := states);
    var s' := Goto(s1, Skip(s.worker.item, ContentNotUpdated), Finishing);
    SameKeys(s1, s');
    if s.intact.settled {
      forall n ensures Untouched(FileOf(s', n), s'.worker, n) {
        assert Untouched(FileOf(s, n), s.worker, n);
      }
    }
  }

  lemma VerdictSend(s: State, decision: Decision)
    requires s.worker.Busy? && s.worker.stage.Summarised? && s.worker.item.status == Pending
    requires decision.Send? ==> CalledFor(s.sent, s.worker.item)
    ensures SendOk(s.sent, AfterVerdict(s, decision).worker, s.intact.settled)
  {
  }

  lemma GateSend(sent: States, w: Worker, item: Job, settled: bool)
    requires w.Busy? && CalledFor(sent, item)
    ensures SendOk(sent, Gate(w, item), settled) && Gate(w, item).Busy? && Gate(w, item).name == w.name
  {
    SameBodyCalledFor(sent, item, item.(status := Sent));
  }

  lemma FreezeSI(s: State, ok: bool)
    requires FW(s) && SI(s)
    ensures SI(DoFreeze(s, ok))
  {
    hide Dropped;
    if s.worker.Busy? && s.worker.stage.Cleared? {
      var item := s.worker.item;
      if !s.worker.stage.justRead {
        GateSend(s.sent, s.worker, item, s.intact.settled);
        MoveSI(s, s.(worker := Gate(s.worker, item)));
      } else if ok {
        var merged := Merged(FileOf(s, s.worker.name), item);
        SameBodyCalledFor(s.sent, item, merged);
        GateSend(s.sent, s.worker, merged, s.intact.settled);
        WriteSI(s, merged, Gate(s.worker, merged), s.logs);
      } else {
        DroppedSI(s);
      }
    }
  }

  lemma TriedSI(s: State)
    requires SI(s) && AtStage(s, Frozen)
    ensures var tried := s.worker.item.(attempts := s.worker.item.attempts + 1);
            SI(Goto(s.(logs := s.logs[s.worker.name := Tried(LogOf(s, s.worker.name))]), tried, Sending))
  {
    var tried := s.worker.item.(attempts := s.worker.item.attempts + 1);
    SameBodyCalledFor(s.sent, s.worker.item, tried);
    MoveSI(s, Goto(s.(logs := s.logs[s.worker.name := Tried(LogOf(s, s.worker.name))]), tried, Sending));
  }

  lemma StartSendSI(s: State, leased: bool)
    requires SI(s)
    ensures SI(DoStartSend(s, leased))
  {
    if AtStage(s, Frozen) {
      if leased { TriedSI(s); } else { MoveSI(s, Goto(s, Skip(s.worker.item, TargetRebound), Finishing)); }
    }
  }

  lemma SendOkNow(s: State)
    requires SI(s)
    ensures SendOk(s.sent, s.worker, s.intact.settled)
  {
  }

  lemma AckSend(sent: States, w: Worker, acked: Worker, settled: bool)
    requires SendOk(sent, w, settled) && w.Busy? && w.stage == Sending && w.item.nextPart < |w.item.body.messages|
    requires acked.Busy? && acked.stage == Finishing && acked.item == AfterAck(w.item)
    ensures SendOk(sent, acked, settled)
  {
    SameBodyCalledFor(sent, w.item, AfterAck(w.item));
  }

  lemma RefusedSend(sent: States, w: Worker, refused: Worker, failure: Option<Failure>, settled: bool)
    requires w.Busy? && w.item.attempts > 0
    requires refused.Busy? && refused.stage == Finishing && refused.item == AfterFailure(w.item, failure, w.now)
    ensures SendOk(sent, refused, settled)
  {
  }

  lemma EndSendSI(s: State, reply: Reply)
    requires SI(s)
    ensures SI(DoEndSend(s, reply))
  {
    hide SI, SendOk;
    var s' := DoEndSend(s, reply);
    if s' != s {
      SendOkNow(s);
      match reply
      case Acknowledged =>
        AckSend(s.sent, s.worker, s'.worker, s.intact.settled);
        MoveSI(s, s');
      case Refused(failure) =>
        RefusedSend(s.sent, s.worker, s'.worker, failure, s.intact.settled);
        MoveSI(s, s');
    }
  }

  lemma SavedSend(sent: States, w: Worker, saved: Job, settled: bool)
    requires w.Busy? && (settled && saved.status == Sent ==> CalledFor(sent, saved))
    ensures SendOk(sent, AfterSave(w, saved), settled)
    ensures AfterSave(w, saved).Busy? ==> AfterSave(w, saved).name == w.name
    ensures saved.status == Sent ==> SavedAsSent(AfterSave(w, saved))
  {
  }

  lemma SaveSI(s: State, ok: bool, at: nat)
    requires FW(s) && SI(s)
    ensures SI(DoSave(s, ok, at))
  {
    hide Dropped;
    if AtStage(s, Finishing) && at > 0 {
      if ok {
        var saved := Merged(FileOf(s, s.worker.name), Closed(s.worker.item, at));
        if s.intact.settled && s.worker.item.status == Sent {
          SameBodyCalledFor(s.sent, s.worker.item, saved);
        }
        SavedSend(s.sent, s.worker, saved, s.intact.settled);
        WriteSI(s, saved, AfterSave(s.worker, saved), s.logs);
      } else {
        DroppedSI(s);
      }
    }
  }

  /* A body that was called for is recorded after the last delivery of its key. */
  lemma DeliveredKeys(s: State, state: SentState, recordId: nat)
    requires KeysInv(s) && s.worker.Busy? && (s.intact.settled ==> Decide(s.sent, state, recordId) == Send)
    ensures KeysInv(Delivered(s, state))
  {
    var s' := Delivered(s, state);
    var k := KeyOf(state);
    if s.intact.settled {
      forall key ensures KeyOk(s'.sent, DeliveredTo(s', key), key) {
        assert KeyOk(s.sent, DeliveredTo(s, key), key);
        if key == k {
          var before, next := DeliveredTo(s, k), Recorded(s.sent, state)[k];
          if k in s.sent {
            SentFollowsLast(s.sent, state, recordId, before[|before| - 1]);
          }
          ChainGrows(before, next);
        }
      }
    }
  }

  lemma ChainGrows(deliveries: seq<SentState>, next: SentState)
    requires Chain(deliveries) && (|deliveries| > 0 ==> Follows(deliveries[|deliveries| - 1], next))
    ensures Chain(deliveries + [next])
  {
  }

  lemma RecordSI(s: State, ok: bool)
    requires FW(s) && SI(s)
    ensures SI(DoRecord(s, ok))
  {
    hide Dropped;
    if AtStage(s, Recording) {
      var state := StateFromJob(s.worker.item);
      if ok && Complete(state) {
        DeliveredKeys(s, state, s.worker.item.recordId);
        DeliveredSI(s, Delivered(s, state));
      } else {
        DroppedSI(s);
      }
    }
  }

  lemma DeliveredSI(s: State, s1: State)
    requires SI(s) && AtStage(s, Recording) && s.worker.item.status == Sent
    requires s1 == s.(sent := s1.sent, delivered := s1.delivered, texts := s1.texts) && KeysInv(s1)
    ensures SI(Goto(s1, s.worker.item, Archiving))
  {
    var s' := Goto(s1, s.worker.item, Archiving);
    SameKeys(s1, s');
    if s.intact.settled {
      forall n ensures Untouched(FileOf(s', n), s'.worker, n) {
        assert Untouched(FileOf(s, n), s.worker, n);
      }
    }
  }

  lemma ArchiveSI(s: State, ok: bool)
    requires FW(s) && SI(s)
    ensures SI(DoArchive(s, ok))
  {
    hide Belongs, Dropped;
    if AtStage(s, Archiving) {
      var name := s.worker.name;
      if ok {
        var merged := Merged(FileOf(s, name), s.worker.item);
        if !merged.initial.NoTopic? && merged.refreshAt != 0 {
          WriteSI(s, ResetJob(merged, merged.refreshAt, WakesOf(s, name)), Idle, Forget(s, name));
        } else {
          SameKeys(s, DoArchive(s, ok));
          PutStatus(s, DoArchive(s, ok), name, Archived(Get(s.dirs, name), merged.status));
        }
      } else {
        DroppedSI(s);
      }
    }
  }

  lemma ClearSI(s: State)
    requires SI(s)
    ensures SI(Do(s, ClearFailed))
  {
    SameKeys(s, Do(s, ClearFailed));
    if s.intact.settled {
      forall n ensures Untouched(FileOf(Do(s, ClearFailed), n), s.worker, n) {
        assert Untouched(FileOf(s, n), s.worker, n);
      }
    }
  }

  lemma DoSI(s: State, step: Step)
    requires FW(s) && SI(s)
    ensures SI(Do(s, step))
  {
    hide SI, FW;
    match step {
      case Wake(name, now, deleted) => WakeSI(s, name, now, deleted);
      case Enqueue(name, at) => EnqueueSI(s, name, at);
      case ClearFailed => ClearSI(s);
      case Load(name, now) => LoadSI(s, name, now);
      case Prepare(ok) => PrepareSI(s, ok);
      case Check(check) => CheckSI(s, check);
      case Summarise(result) => SummariseSI(s, result);
      case Compare(readable) => CompareSI(s, readable);
      case Freeze(ok) => FreezeSI(s, ok);
      case StartSend(leased) => StartSendSI(s, leased);
      case EndSend(reply) => EndSendSI(s, reply);
      case Save(ok, at) => SaveSI(s, ok, at);
      case Record(ok) => RecordSI(s, ok);
      case Archive(ok) => ArchiveSI(s, ok);
      case Crash => DroppedSI(s);
    }
  }
}
