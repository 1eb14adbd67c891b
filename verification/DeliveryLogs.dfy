/** Every step keeps the record of what was sent in line with the job files. While no send was lost, the acknowledged parts
    of a job are the first ones of its body, the next part has been sent no more often than its attempts say, and the file
    agrees with the record wherever the worker is not between a send and the saving of its outcome. */
module DeliveryLogs {
  import opened Bindings
  import opened SentState
  import opened Jobs
  import opened Delivery
  import opened DeliveryFiles
  import opened Wrappers

  /* The acknowledged parts are the first ones of the body, in order; sends of the next part are counted as
     attempts, and every earlier part took five sends at most. */
  predicate LogOk(log: Log, item: Job) {
    && item.nextPart <= |item.body.messages|
    && log.acked == item.body.messages[..item.nextPart]
    && log.tries <= item.attempts <= MAX_ATTEMPTS
    && log.total <= MAX_ATTEMPTS * item.nextPart + log.tries
  }

  predicate ItemLogOk(log: Log, w: Worker)
    requires w.Busy?
  {
    LogOk(log, w.item) && (w.stage == Finishing && w.item.code == NoCode ==> log.tries == 0)
  }

  predicate Fits(file: Option<Job>, log: Log, w: Worker, n: Name) {
    file.Some? ==>
      && (w.Busy? && w.name == n ==> ItemLogOk(log, w))
      && (!(w.Busy? && w.name == n && Unsaved(w)) ==> LogOk(log, file.value))
  }

  predicate LogFits(s: State, n: Name) {
    Fits(FileOf(s, n), LogOf(s, n), s.worker, n)
  }

  ghost predicate LogsInv(s: State) {
    s.intact.counted ==> forall n :: LogFits(s, n)
  }

  /* The files of one name change, and with them its log and what the worker has of it. */
  lemma PutLogs(s: State, s': State, name: Name, files: Files)
    requires LogsInv(s) && s.intact.counted
    requires s'.dirs == Put(s.dirs, name, files)
    requires forall n :: n != name ==> LogOf(s', n) == LogOf(s, n)
    requires s'.worker == s.worker
          || (s.worker.Busy? && s.worker.name == name && (s'.worker.Busy? ==> s'.worker.name == name))
    requires Fits(files.pending, LogOf(s', name), s'.worker, name)
    ensures forall n :: LogFits(s', n)
  {
    forall n ensures LogFits(s', n) {
      GetPut(s.dirs, name, files, n);
      assert FileOf(s', n) == Get(s'.dirs, n).pending && FileOf(s, n) == Get(s.dirs, n).pending;
      assert LogFits(s, n);
    }
  }

  lemma NotedLog(log: Log, f: Job, now: nat)
    requires LogOk(log, f)
    ensures LogOk(log, Noted(f, now))
  {
  }

  lemma WokenFits(log: Log, files: Files, w: Worker, name: Name, now: nat, deleted: bool, wakes: nat)
    requires Fits(files.pending, log, w, name) && now > 0
    requires files.pending.None? ==> log == Log([], 0, 0) && !(w.Busy? && w.name == name)
    ensures Fits(Woken(files, now, deleted, wakes).pending, log, w, name)
  {
    if files.pending.Some? && !(w.Busy? && w.name == name && Unsaved(w)) {
      NotedLog(log, files.pending.value, now);
    }
  }

  lemma WorksOnPending(s: State, name: Name)
    requires FW(s) && Get(s.dirs, name).pending.None?
    ensures !(s.worker.Busy? && s.worker.name == name)
  {
  }

  lemma WakeLogs(s: State, name: Name, now: nat, deleted: bool)
    requires FW(s) && LogsInv(s)
    ensures LogsInv(DoWake(s, name, now, deleted))
  {
    hide FW, Fits, Woken;
    if s.intact.counted && IsInitial(name) && now > 0 {
      var s' := DoWake(s, name, now, deleted);
      var files := Get(s.dirs, name);
      assert LogFits(s, name);
      if files.pending.None? {
        WorksOnPending(s, name);
        NothingFits(LogOf(s', name), s.worker, name);
      }
      WokenFits(LogOf(s', name), files, s.worker, name, now, deleted, WakesOf(s, name) + 1);
      PutLogs(s, s', name, Woken(files, now, deleted, WakesOf(s, name) + 1));
    }
  }

  lemma NothingFits(log: Log, w: Worker, name: Name)
    ensures Fits(None, log, w, name)
  {
  }

  lemma EnqueueLogs(s: State, name: Name, at: nat)
    requires FW(s) && LogsInv(s)
    ensures LogsInv(DoEnqueue(s, name, at))
  {
    var s' := DoEnqueue(s, name, at);
    if s.intact.counted && s' != s {
      PutLogs(s, s', name, Enqueued(Get(s.dirs, name), name, at, WakesOf(s, name)));
    }
  }

  /* The worker goes on with its job: only the log of that job may have changed. */
  lemma MoveLogs(s: State, s': State)
    requires LogsInv(s) && s.worker.Busy?
    requires s'.dirs == s.dirs && (s'.intact.counted ==> s.intact.counted) && s'.worker.Busy? && s'.worker.name == s.worker.name
    requires forall n :: n != s.worker.name ==> LogOf(s', n) == LogOf(s, n)
    requires s'.intact.counted ==> ItemLogOk(LogOf(s', s.worker.name), s'.worker)
    requires Unsaved(s'.worker) || (!Unsaved(s.worker) && s'.logs == s.logs)
    ensures LogsInv(s')
  {
    if s'.intact.counted {
      forall n ensures LogFits(s', n) {
        assert LogFits(s, n);
      }
    }
  }

  lemma WriteLogs(s: State, item: Job, w: Worker, logs: map<Name, Log>)
    requires LogsInv(s) && s.worker.Busy? && (w.Busy? ==> w.name == s.worker.name)
    requires logs == s.logs || logs == Forget(s, s.worker.name)
    requires s.intact.counted ==> Fits(Some(item), LogOf(s.(logs := logs), s.worker.name), w, s.worker.name)
    ensures LogsInv(Write(s, item, w).(logs := logs))
  {
    if s.intact.counted {
      PutLogs(s, Write(s, item, w).(logs := logs), s.worker.name, Written(Get(s.dirs, s.worker.name), item));
    }
  }

  lemma LoadLogs(s: State, name: Name, now: nat)
    requires FW(s) && LogsInv(s)
    ensures LogsInv(DoLoad(s, name, now))
  {
    if s.intact.counted && s.worker.Idle? && FileOf(s, name).Some? {
      assert NameOk(name, Get(s.dirs, name), WakesOf(s, name), s.intact.removed);
      assert LogFits(s, name);
      LoadingOk(name, FileOf(s, name).value, now, WakesOf(s, name));
      LoadingLog(LogOf(s, name), name, FileOf(s, name).value, now);
      forall n ensures LogFits(DoLoad(s, name, now), n) {
        assert LogFits(s, n);
      }
    }
  }

  lemma LoadingLog(log: Log, name: Name, item: Job, now: nat)
    requires LogOk(log, item)
    ensures LoadingOf(name, item, now).Process? ==> ItemLogOk(log, LoadingOf(name, item, now).w)
  {
  }

  lemma ResetLog(log: Log, w: Worker, item: Job, at: nat, wakes: nat)
    requires w.Busy? && log == Log([], 0, 0)
    ensures var reset := ResetJob(item, at, wakes); ItemLogOk(log, Moved(w, reset, Prepared))
  {
  }

  lemma PrepareResetLogs(s: State, merged: Job)
    requires LogsInv(s) && s.worker.Busy?
    ensures var reset := ResetJob(merged, merged.refreshAt, WakesOf(s, s.worker.name));
            LogsInv(Write(s, reset, Moved(s.worker, reset, Prepared)).(logs := Forget(s, s.worker.name)))
  {
    var reset := ResetJob(merged, merged.refreshAt, WakesOf(s, s.worker.name));
    ResetLog(Log([], 0, 0), s.worker, merged, merged.refreshAt, WakesOf(s, s.worker.name));
    WriteLogs(s, reset, Moved(s.worker, reset, Prepared), Forget(s, s.worker.name));
  }

  lemma PrepareMoveLogs(s: State, item: Job, stage: Stage)
    requires FW(s) && LogsInv(s) && AtStage(s, Loaded) && (stage == Finishing ==> item.status == Sent)
    requires item == s.worker.item || item == Merged(FileOf(s, s.worker.name), s.worker.item)
    ensures LogsInv(Goto(s, item, stage))
  {
    assert s.intact.counted ==> LogFits(s, s.worker.name);
    MoveLogs(s, Goto(s, item, stage));
  }

  lemma PrepareLogs(s: State, ok: bool)
    requires FW(s) && LogsInv(s)
    ensures LogsInv(DoPrepare(s, ok))
  {
    hide Dropped;
    hide LogsInv, FW;
    if AtStage(s, Loaded) {
      var item := s.worker.item;
      var merged := Merged(FileOf(s, s.worker.name), item);
      if item.status != Pending {
        PrepareMoveLogs(s, item, if item.status == Sent then Finishing else Archiving);
      } else if item.initial.NoTopic? || item.nextPart != 0 {
        PrepareMoveLogs(s, item, Prepared);
      } else if merged.refreshAt == 0 {
        PrepareMoveLogs(s, merged, Prepared);
      } else if ok {
        PrepareResetLogs(s, merged);
      } else {
        DroppedLogs(s);
      }
    }
  }

  lemma DroppedLogs(s: State)
    requires LogsInv(s)
    ensures LogsInv(Dropped(s))
  {
    if Dropped(s).intact.counted {
      forall n ensures LogFits(Dropped(s), n) { assert LogFits(s, n); }
    }
  }

  lemma ErroredLog(log: Log, w: Worker, item: Job, code: ErrorCode)
    requires w.Busy? && LogOk(log, item) && item.attempts < MAX_ATTEMPTS
    ensures ItemLogOk(log, Moved(w, AfterError(item, code, w.now), Finishing))
  {
  }

  lemma CheckedLog(s: State, check: CheckResult)
    requires FW(s) && LogsInv(s) && AtStage(s, Prepared) && s.intact.counted
    ensures ItemLogOk(LogOf(s, s.worker.name), DoCheck(s, check).worker)
  {
    hide FilesInv;
    assert LogFits(s, s.worker.name);
    ErroredLog(LogOf(s, s.worker.name), s.worker, s.worker.item, SettingsReadFailed);
  }

  lemma CheckMoves(s: State, check: CheckResult)
    requires AtStage(s, Prepared)
    ensures var s' := DoCheck(s, check);
            && s' == s.(worker := s'.worker) && s'.worker.Busy? && s'.worker.name == s.worker.name && !Unsaved(s.worker)
  {
    hide AfterError, Skip;
  }

  lemma CheckLogs(s: State, check: CheckResult)
    requires FW(s) && LogsInv(s)
    ensures LogsInv(DoCheck(s, check))
  {
    hide FW, LogsInv, ItemLogOk;
    if AtStage(s, Prepared) {
      if s.intact.counted { CheckedLog(s, check); }
      CheckMoves(s, check);
      MoveLogs(s, DoCheck(s, check));
    }
  }

  lemma SummaryLog(log: Log, w: Worker, result: SnapResult, body: Body)
    requires w.Busy? && LogOk(log, w.item) && w.item.attempts < MAX_ATTEMPTS && |w.item.body.messages| == 0
    ensures ItemLogOk(log, AfterSummary(w, result, body))
  {
    ErroredLog(log, w, Stamped(w), SummaryReadFailed);
  }

  lemma SummariseLogs(s: State, result: SnapResult)
    requires FW(s) && LogsInv(s)
    ensures LogsInv(DoSummarise(s, result))
  {
    hide Belongs;
    if AtStage(s, Checked) {
      var wakes := WakesOf(s, s.worker.name);
      var body := if result.Summary? then BodyOf(result.snapshot, wakes) else NO_BODY.(wakes := wakes);
      if s.intact.counted {
        assert LogFits(s, s.worker.name);
        SummaryLog(LogOf(s, s.worker.name), s.worker, result, body);
      }
      MoveLogs(s, s.(worker := AfterSummary(s.worker, result, body)));
    }
  }

  lemma WorkerHasFile(s: State)
    requires FW(s) && s.worker.Busy?
    ensures WorksOn(s.worker, FileOf(s, s.worker.name), WakesOf(s, s.worker.name))
  {
  }

  lemma WorkerLogFits(s: State)
    requires LogsInv(s) && s.intact.counted && s.worker.Busy? && FileOf(s, s.worker.name).Some?
    ensures ItemLogOk(LogOf(s, s.worker.name), s.worker)
  {
    assert LogFits(s, s.worker.name);
  }

  lemma VerdictLog(log: Log, w: Worker, next: Worker, decision: Decision)
    requires w.Busy? && w.stage.Summarised? && ItemLogOk(log, w) && w.item.attempts < MAX_ATTEMPTS
    requires w.stage.justRead ==> w.item.nextPart == 0
    requires match decision
             case Unreadable =>
               next == Moved(w, AfterError(if w.stage.justRead then w.item.(body := NO_BODY) else w.item, SentStateReadFailed, w.now),
                             Finishing)
             case Send => next == Moved(w, w.item, Cleared(w.stage.justRead))
             case _ => next == Moved(w, Skip(w.item, ContentNotUpdated), Finishing)
    ensures next.Busy? && ItemLogOk(log, next)
  {
    if decision.Unreadable? {
      ErroredLog(log, w, if w.stage.justRead then w.item.(body := NO_BODY) else w.item, SentStateReadFailed);
    }
  }

  lemma VerdictMoves(s: State, decision: Decision)
    requires s.worker.Busy? && s.worker.stage.Summarised?
    ensures var s' := AfterVerdict(s, decision);
            && s'.dirs == s.dirs && s'.logs == s.logs && s'.intact == s.intact && s'.worker.Busy? && s'.worker.name == s.worker.name
            && !Unsaved(s.worker)
  {
    hide AfterError, Skip;
  }

  lemma VerdictLogs(s: State, decision: Decision)
    requires FW(s) && LogsInv(s) && s.worker.Busy? && s.worker.stage.Summarised?
    ensures LogsInv(AfterVerdict(s, decision))
  {
    hide FW, LogsInv, AfterError, Skip, ItemLogOk, Unsaved;
    VerdictMoves(s, decision);
    WorkerHasFile(s);
    if s.intact.counted {
      WorkerLogFits(s);
      VerdictLog(LogOf(s, s.worker.name), s.worker, AfterVerdict(s, decision).worker, decision);
    }
    MoveLogs(s, AfterVerdict(s, decision));
  }

  lemma GateLog(log: Log, w: Worker, item: Job)
    requires w.Busy? && LogOk(log, item) && item.nextPart < |item.body.messages|
    ensures ItemLogOk(log, Gate(w, item)) && Gate(w, item).name == w.name
  {
  }

  lemma FreezeLogs(s: State, ok: bool)
    requires FW(s) && LogsInv(s)
    ensures LogsInv(DoFreeze(s, ok))
  {
    hide Dropped;
    hide FW, LogsInv;
    DroppedLogs(s);
    if s.worker.Busy? && s.worker.stage.Cleared? {
      var name, item := s.worker.name, s.worker.item;
      WorkerHasFile(s);
      if s.intact.counted { WorkerLogFits(s); }
      if !s.worker.stage.justRead {
        if s.intact.counted { GateLog(LogOf(s, name), s.worker, item); }
        MoveLogs(s, s.(worker := Gate(s.worker, item)));
      } else if ok {
        var merged := Merged(FileOf(s, name), item);
        if s.intact.counted { GateLog(LogOf(s, name), s.worker, merged); }
        WriteLogs(s, merged, Gate(s.worker, merged), s.logs);
      }
    }
  }

  /* What starting and ending a send leaves alone. */
  predicate SendsAside(s: State, s': State) {
    && s.worker.Busy? && s'.worker.Busy? && s'.worker.name == s.worker.name && s'.dirs == s.dirs && s'.intact == s.intact
    && Unsaved(s'.worker) && s'.logs - {s.worker.name} == s.logs - {s.worker.name}
  }

  lemma StartIsAside(s: State, leased: bool)
    requires AtStage(s, Frozen)
    ensures SendsAside(s, DoStartSend(s, leased))
  {
    hide Skip, Tried;
  }

  lemma EndIsAside(s: State, reply: Reply)
    requires AtStage(s, Sending)
    ensures SendsAside(s, DoEndSend(s, reply))
  {
    hide Jobs.AfterAck, Jobs.AfterFailure;
  }

  lemma SentLogs(s: State, s': State)
    requires LogsInv(s) && SendsAside(s, s')
    requires s.intact.counted ==> ItemLogOk(LogOf(s', s.worker.name), s'.worker)
    ensures LogsInv(s')
  {
    hide LogsInv, ItemLogOk;
    forall n | n != s.worker.name ensures LogOf(s', n) == LogOf(s, n) {
      assert n in s.logs <==> n in s.logs - {s.worker.name};
      assert n in s'.logs <==> n in s'.logs - {s.worker.name};
      if n in s.logs { assert (s.logs - {s.worker.name})[n] == (s'.logs - {s.worker.name})[n]; }
    }
    MoveLogs(s, s');
  }

  lemma StartedLog(s: State, leased: bool)
    requires AtStage(s, Frozen) && WorksOn(s.worker, FileOf(s, s.worker.name), WakesOf(s, s.worker.name))
    requires ItemLogOk(LogOf(s, s.worker.name), s.worker)
    ensures ItemLogOk(LogOf(DoStartSend(s, leased), s.worker.name), DoStartSend(s, leased).worker)
  {
    hide Belongs;
  }

  lemma StartSendLogs(s: State, leased: bool)
    requires FW(s) && LogsInv(s)
    ensures LogsInv(DoStartSend(s, leased))
  {
    hide FW, LogsInv, WorksOn, ItemLogOk, DoStartSend;
    if AtStage(s, Frozen) {
      WorkerHasFile(s);
      if s.intact.counted {
        WorkerLogFits(s);
        StartedLog(s, leased);
      }
      StartIsAside(s, leased);
      SentLogs(s, DoStartSend(s, leased));
    } else {
      NoSendToStart(s, leased);
    }
  }

  lemma NoSendToStart(s: State, leased: bool)
    requires !AtStage(s, Frozen)
    ensures DoStartSend(s, leased) == s
  {
  }

  lemma RepliedLog(log: Log, w: Worker, reply: Reply)
    requires w.Busy? && LogOk(log, w.item) && w.item.nextPart < |w.item.body.messages| && w.item.attempts > 0
    ensures reply.Acknowledged? ==>
              ItemLogOk(Log(log.acked + [w.item.body.messages[w.item.nextPart]], 0, log.total), Moved(w, AfterAck(w.item), Finishing))
    ensures reply.Refused? ==> ItemLogOk(log, Moved(w, AfterFailure(w.item, reply.failure, w.now), Finishing))
  {
  }

  lemma EndedLog(s: State, reply: Reply)
    requires AtStage(s, Sending) && WorksOn(s.worker, FileOf(s, s.worker.name), WakesOf(s, s.worker.name))
    requires ItemLogOk(LogOf(s, s.worker.name), s.worker)
    ensures ItemLogOk(LogOf(DoEndSend(s, reply), s.worker.name), DoEndSend(s, reply).worker)
  {
    hide Belongs, ItemLogOk, Jobs.AfterAck, Jobs.AfterFailure;
    ItemOkOf(s);
    RepliedLog(LogOf(s, s.worker.name), s.worker, reply);
  }

  lemma ItemOkOf(s: State)
    requires AtStage(s, Sending) && WorksOn(s.worker, FileOf(s, s.worker.name), WakesOf(s, s.worker.name))
    requires ItemLogOk(LogOf(s, s.worker.name), s.worker)
    ensures s.worker.item.nextPart < |s.worker.item.body.messages| && s.worker.item.attempts > 0
    ensures LogOk(LogOf(s, s.worker.name), s.worker.item)
  {
    hide Belongs;
  }

  lemma EndSendLogs(s: State, reply: Reply)
    requires FW(s) && LogsInv(s)
    ensures LogsInv(DoEndSend(s, reply))
  {
    hide FW, LogsInv, WorksOn, ItemLogOk, DoEndSend;
    if AtStage(s, Sending) {
      WorkerHasFile(s);
      if s.intact.counted {
        WorkerLogFits(s);
        EndedLog(s, reply);
      }
      EndIsAside(s, reply);
      SentLogs(s, DoEndSend(s, reply));
    } else {
      NoSendToEnd(s, reply);
    }
  }

  lemma NoSendToEnd(s: State, reply: Reply)
    requires !AtStage(s, Sending)
    ensures DoEndSend(s, reply) == s
  {
  }

  lemma SaveLogs(s: State, ok: bool, at: nat)
    requires FW(s) && LogsInv(s)
    ensures LogsInv(DoSave(s, ok, at))
  {
    hide Dropped;
    hide FW, LogsInv;
    DroppedLogs(s);
    if AtStage(s, Finishing) && at > 0 && ok {
      WorkerHasFile(s);
      if s.intact.counted { WorkerLogFits(s); }
      var saved := Merged(FileOf(s, s.worker.name), Closed(s.worker.item, at));
      WriteLogs(s, saved, AfterSave(s.worker, saved), s.logs);
    }
  }

  lemma ArchiveLogs(s: State, ok: bool)
    requires FW(s) && LogsInv(s)
    ensures LogsInv(DoArchive(s, ok))
  {
    hide Belongs, Dropped;
    DroppedLogs(s);
    if AtStage(s, Archiving) && ok {
      var name := s.worker.name;
      var merged := Merged(FileOf(s, name), s.worker.item);
      if !merged.initial.NoTopic? && merged.refreshAt != 0 {
        WriteLogs(s, ResetJob(merged, merged.refreshAt, WakesOf(s, name)), Idle, Forget(s, name));
      } else if s.intact.counted {
        PutLogs(s, DoArchive(s, ok), name, Archived(Get(s.dirs, name), merged.status));
      }
    }
  }

  lemma ClearLogs(s: State)
    requires LogsInv(s)
    ensures LogsInv(Do(s, ClearFailed))
  {
    if s.intact.counted {
      forall n ensures LogFits(Do(s, ClearFailed), n) {
        assert LogFits(s, n);
      }
    }
  }

  lemma RecordLogs(s: State, ok: bool)
    requires LogsInv(s)
    ensures LogsInv(DoRecord(s, ok))
  {
    hide Dropped;
    DroppedLogs(s);
    if AtStage(s, Recording) && ok && Complete(StateFromJob(s.worker.item)) {
      assert s.intact.counted ==> LogFits(s, s.worker.name);
      RecordedLogs(s, Delivered(s, StateFromJob(s.worker.item)));
    }
  }

  lemma RecordedLogs(s: State, s': State)
    requires LogsInv(s) && AtStage(s, Recording)
    requires s' == s.(sent := s'.sent, delivered := s'.delivered, texts := s'.texts)
    ensures LogsInv(Goto(s', s.worker.item, Archiving))
  {
    if s.intact.counted {
      forall n ensures LogFits(Goto(s', s.worker.item, Archiving), n) {
        assert LogFits(s, n);
      }
    }
  }

  lemma DoLogs(s: State, step: Step)
    requires FW(s) && LogsInv(s)
    ensures LogsInv(Do(s, step))
  {
    hide FW, LogsInv;
    DroppedLogs(s);
    match step {
      case Wake(name, now, deleted) => WakeLogs(s, name, now, deleted);
      case Enqueue(name, at) => EnqueueLogs(s, name, at);
      case ClearFailed => ClearLogs(s);
      case Load(name, now) => LoadLogs(s, name, now);
      case Prepare(ok) => PrepareLogs(s, ok);
      case Check(check) => CheckLogs(s, check);
      case Summarise(result) => SummariseLogs(s, result);
      case Compare(readable) =>
        if s.worker.Busy? && s.worker.stage.Summarised? { VerdictLogs(s, Verdict(s.sent, s.worker.item, readable)); }
      case Freeze(ok) => FreezeLogs(s, ok);
      case StartSend(leased) => StartSendLogs(s, leased);
      case EndSend(reply) => EndSendLogs(s, reply);
      case Save(ok, at) => SaveLogs(s, ok, at);
      case Record(ok) => RecordLogs(s, ok);
      case Archive(ok) => ArchiveLogs(s, ok);
      case Crash =>
    }
  }

  // ---------- what a step does to the record of one job ----------

  /* The job as the worker has it, or as its file has it. */
  function JobIn(s: State, name: Name): Job
    requires FileOf(s, name).Some?
  {
    if s.worker.Busy? && s.worker.name == name then s.worker.item else FileOf(s, name).value
  }

  predicate Sends(s: State, step: Step, name: Name) {
    step == StartSend(true) && AtStage(s, Frozen) && s.worker.name == name
  }

  /* The same body is being delivered before and after the step. */
  predicate KeepsBody(s: State, s': State, name: Name) {
    && FileOf(s, name).Some? && FileOf(s', name).Some?
    && |JobIn(s, name).body.messages| > 0 && JobIn(s', name).body == JobIn(s, name).body
  }

  lemma KeepsBodyFiled(s: State, step: Step, name: Name)
    requires KeepsBody(s, Do(s, step), name)
    ensures FileOf(s, name).Some?
  {
  }

  lemma PendingOfName(s: State, name: Name)
    requires FileOf(s, name).Some?
    ensures Get(s.dirs, name).pending.Some? && Stored(Get(s.dirs, name))
  {
  }

  lemma PutFile(d: Dirs, name: Name, files: Files)
    ensures Find(Put(d, name, files).pending, name) == files.pending
  {
  }

  lemma LoadKeepsLogs(s: State, name: Name, now: nat)
    ensures DoLoad(s, name, now).logs == s.logs
  {
    hide LoadingOf, Archived, Get, Put;
  }

  lemma ReadingKeepsLogs(s: State, check: CheckResult, result: SnapResult, readable: bool)
    ensures DoCheck(s, check).logs == s.logs && DoSummarise(s, result).logs == s.logs && DoCompare(s, readable).logs == s.logs
  {
    hide Skip, AfterError, AfterSummary, BodyOf, Verdict;
  }

  lemma WritingKeepsLogs(s: State, step: Step)
    requires step.Freeze? || step.Save? || step.Record? || step.ClearFailed? || step.Crash?
    ensures Do(s, step).logs == s.logs
  {
    hide Do, DoFreeze, DoSave, DoRecord;
    match step
    case Freeze(ok) => FreezeKeepsLogs(s, ok);
    case Save(ok, at) => SaveKeepsLogs(s, ok, at);
    case Record(ok) => RecordKeepsLogs(s, ok);
    case _ => OthersKeepLogs(s, step);
  }

  lemma FreezeKeepsLogs(s: State, ok: bool)
    ensures Do(s, Step.Freeze(ok)).logs == s.logs
  {
    hide Put, Get, Written, Merged, Gate, Dropped;
    if s.worker.Busy? { GotoKeepsLogs(s, s.worker.item, Finishing); }
  }

  lemma SaveKeepsLogs(s: State, ok: bool, at: nat)
    ensures Do(s, Step.Save(ok, at)).logs == s.logs
  {
    hide Put, Get, Written, Merged, Closed, AfterSave;
  }

  lemma RecordKeepsLogs(s: State, ok: bool)
    ensures Do(s, Step.Record(ok)).logs == s.logs
  {
    hide StateFromJob, Complete, Recorded;
  }

  lemma OthersKeepLogs(s: State, step: Step)
    requires step.ClearFailed? || step.Crash?
    ensures Do(s, step).logs == s.logs
  {
  }

  /* Waking or enqueueing a name whose job is pending. */
  lemma OthersKeepLog(s: State, step: Step, name: Name)
    requires (step.Wake? || step.Enqueue?) && FileOf(s, name).Some?
    ensures LogOf(Do(s, step), name) == LogOf(s, name)
  {
    hide Put, Woken, Enqueued;
    PendingOfName(s, name);
  }

  /* Resetting a job takes its body away. */
  lemma PreparedBody(s: State, step: Step, name: Name)
    requires step.Prepare? && KeepsBody(s, Do(s, step), name)
    ensures LogOf(Do(s, step), name) == LogOf(s, name)
  {
    hide Put, Get, Merged, Goto, Dropped;
    if AtStage(s, Loaded) {
      var item := s.worker.item;
      GotoKeepsLogs(s, item, Finishing);
      GotoKeepsLogs(s, item, Archiving);
      GotoKeepsLogs(s, item, Prepared);
      GotoKeepsLogs(s, Merged(FileOf(s, s.worker.name), item), Prepared);
    }
  }

  lemma GotoKeepsLogs(s: State, item: Job, stage: Stage)
    requires s.worker.Busy?
    ensures Goto(s, item, stage).logs == s.logs && Dropped(s).logs == s.logs
  {
  }

  lemma ResetHasNoBody(item: Job, now: nat, wakes: nat)
    ensures |ResetJob(item, now, wakes).body.messages| == 0
  {
  }

  lemma ArchivedBody(s: State, step: Step, name: Name)
    requires step.Archive? && KeepsBody(s, Do(s, step), name)
    ensures LogOf(Do(s, step), name) == LogOf(s, name)
  {
    hide Get, Put, Merged, Archived, Dropped, ResetJob;
    if AtStage(s, Archiving) { GotoKeepsLogs(s, s.worker.item, Archiving); }
    if AtStage(s, Archiving) && s.worker.name == name && step.ok {
      var merged := Merged(FileOf(s, name), s.worker.item);
      if !merged.initial.NoTopic? && merged.refreshAt != 0 {
        var reset := ResetJob(merged, merged.refreshAt, WakesOf(s, name));
        ResetHasNoBody(merged, merged.refreshAt, WakesOf(s, name));
        PutFile(s.dirs, name, Written(Get(s.dirs, name), reset));
      }
    }
  }

  lemma LogStays(s: State, step: Step, name: Name)
    requires KeepsBody(s, Do(s, step), name) && !step.StartSend? && !step.EndSend?
    ensures LogOf(Do(s, step), name) == LogOf(s, name)
  {
    hide KeepsBody, DoWake, DoEnqueue, DoPrepare, DoArchive, DoLoad, DoCheck, DoSummarise, DoCompare;
    hide DoFreeze, DoSave, DoRecord;
    KeepsBodyFiled(s, step, name);
    match step
    case Wake(_, _, _) => OthersKeepLog(s, step, name);
    case Enqueue(_, _) => OthersKeepLog(s, step, name);
    case Prepare(_) => PreparedBody(s, step, name);
    case Archive(_) => ArchivedBody(s, step, name);
    case Load(n, now) => LoadKeepsLogs(s, n, now);
    case Check(check) => ReadingKeepsLogs(s, check, SummaryUnreadable, true);
    case Summarise(result) => ReadingKeepsLogs(s, Disabled, result, true);
    case Compare(readable) => ReadingKeepsLogs(s, Disabled, SummaryUnreadable, readable);
    case _ => WritingKeepsLogs(s, step);
  }

  lemma LogFitsJob(s: State, name: Name)
    requires LogsInv(s) && s.intact.counted && FileOf(s, name).Some?
    ensures LogOk(LogOf(s, name), JobIn(s, name))
  {
    assert LogFits(s, name);
  }

  lemma StartMovesLog(s: State, leased: bool, name: Name)
    requires KeepsBody(s, DoStartSend(s, leased), name)
    ensures var log, log' := LogOf(s, name), LogOf(DoStartSend(s, leased), name);
            if Sends(s, StartSend(leased), name)
            then log' == Tried(log) && (FW(s) ==> JobIn(s, name).nextPart < |JobIn(s, name).body.messages|)
            else log' == log
  {
    hide Skip, FilesInv;
  }

  lemma EndMovesLog(s: State, reply: Reply, name: Name)
    requires KeepsBody(s, DoEndSend(s, reply), name)
    ensures var log, log' := LogOf(s, name), LogOf(DoEndSend(s, reply), name);
            log' == log || (log'.total == log.total && log'.tries == 0 && |log'.acked| == |log.acked| + 1)
  {
    hide AfterFailure, AfterAck;
  }
}
