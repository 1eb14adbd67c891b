/** Every step of the delivery worker, and everything that interleaves with it, keeps the job files well formed: a job
    that may still be sent has attempts and parts left, every wake-up that came after the last reset is noted in the file,
    a name stands in one directory, and the job that the worker holds agrees with its file on the last reset and with its
    stage on its status. */
module DeliveryFiles {
  import opened Bindings
  import opened SentState
  import opened Jobs
  import opened Delivery
  import opened Wrappers

  lemma PutFiles(d: Dirs, wakes: map<Name, nat>, removed: bool, name: Name, files: Files, wakes': map<Name, nat>, removed': bool)
    requires FilesInv(d, wakes, removed) && (removed' ==> removed)
    requires forall n :: n != name ==> Count(wakes', n) == Count(wakes, n)
    requires NameOk(name, files, Count(wakes', name), removed')
    ensures FilesInv(Put(d, name, files), wakes', removed')
  {
    forall n ensures NameOk(n, Get(Put(d, name, files), n), Count(wakes', n), removed') {
      GetPut(d, name, files, n);
      assert NameOk(n, Get(d, n), Count(wakes, n), removed);
    }
  }

  lemma ResetOk(name: Name, item: Job, at: nat, wakes: nat)
    requires Belongs(name, item)
    ensures PendingOk(name, ResetJob(item, at, wakes), wakes)
  {
  }

  lemma NotedOk(name: Name, f: Job, now: nat, wakes: nat)
    requires IsInitial(name) && now > 0 && JobOk(name, f, wakes)
    ensures PendingOk(name, Noted(f, now), wakes + 1) && f.refreshAt <= Noted(f, now).refreshAt
    ensures Noted(f, now).resetWakes == f.resetWakes
  {
  }

  lemma WokenOk(name: Name, files: Files, now: nat, deleted: bool, wakes: nat, removed: bool)
    requires IsInitial(name) && now > 0 && NameOk(name, files, wakes, removed)
    ensures NameOk(name, Woken(files, now, deleted, wakes + 1), wakes + 1, removed && (deleted || files.pending.Some?))
  {
    if files.pending.Some? {
      NotedOk(name, files.pending.value, now, wakes);
    } else if files.completed.Some? {
      ResetOk(name, files.completed.value, now, wakes + 1);
    } else if files.failed.Some? {
      ResetOk(name, files.failed.value, now, wakes + 1);
    }
  }

  lemma WokenWorks(w: Worker, files: Files, name: Name, now: nat, deleted: bool, wakes: nat)
    requires w.Busy? && w.name == name && IsInitial(name) && now > 0
    requires files.pending.Some? && PendingOk(name, files.pending.value, wakes) && WorksOn(w, files.pending, wakes)
    ensures WorksOn(w, Woken(files, now, deleted, wakes + 1).pending, wakes + 1)
  {
    NotedOk(name, files.pending.value, now, wakes);
    LaterWakeKeepsItem(name, w.item, w.stage, wakes);
  }

  lemma WakeFiles(s: State, name: Name, now: nat, deleted: bool)
    requires FilesInv(s.dirs, s.wakes, s.intact.removed) && IsInitial(name) && now > 0
    ensures var s' := DoWake(s, name, now, deleted); FilesInv(s'.dirs, s'.wakes, s'.intact.removed)
  {
    hide NameOk, Woken, Put, Get;
    var files, wakes := Get(s.dirs, name), WakesOf(s, name);
    var s' := DoWake(s, name, now, deleted);
    assert NameOk(name, files, Count(s.wakes, name), s.intact.removed);
    WokenOk(name, files, now, deleted, wakes, s.intact.removed);
    PutFiles(s.dirs, s.wakes, s.intact.removed, name, Woken(files, now, deleted, wakes + 1), s'.wakes, s'.intact.removed);
  }

  lemma WorkerAfterPut(d: Dirs, wakes: map<Name, nat>, w: Worker, name: Name, files: Files, wakes': map<Name, nat>)
    requires WorkerInv(d, wakes, w) && forall n :: n != name ==> Count(wakes', n) == Count(wakes, n)
    requires w.Busy? && w.name == name ==> WorksOn(w, files.pending, Count(wakes', name))
    ensures WorkerInv(Put(d, name, files), wakes', w)
  {
    if w.Busy? { GetPut(d, name, files, w.name); }
  }

  lemma WakeWorker(s: State, name: Name, now: nat, deleted: bool)
    requires FW(s) && IsInitial(name) && now > 0
    ensures var s' := DoWake(s, name, now, deleted); WorkerInv(s'.dirs, s'.wakes, s'.worker)
  {
    hide ItemOk, PendingOk, Woken;
    var files, wakes := Get(s.dirs, name), WakesOf(s, name);
    if s.worker.Busy? && s.worker.name == name {
      assert NameOk(name, files, wakes, s.intact.removed);
      WokenWorks(s.worker, files, name, now, deleted, wakes);
    }
    WorkerAfterPut(s.dirs, s.wakes, s.worker, name, Woken(files, now, deleted, wakes + 1), s.wakes[name := wakes + 1]);
  }

  lemma WakeFW(s: State, name: Name, now: nat, deleted: bool)
    requires FW(s)
    ensures FW(DoWake(s, name, now, deleted))
  {
    if IsInitial(name) && now > 0 {
      WakeFiles(s, name, now, deleted);
      WakeWorker(s, name, now, deleted);
    }
  }

  lemma LaterWakeKeepsItem(name: Name, item: Job, stage: Stage, wakes: nat)
    requires ItemOk(name, item, stage, wakes)
    ensures ItemOk(name, item, stage, wakes + 1)
  {
  }

  /* A job file rewritten by the worker, with the wake-up noted in the file taken over. */
  lemma MergedOk(name: Name, file: Job, item: Job, wakes: nat)
    requires PendingOk(name, file, wakes) && Tracks(item, file) && JobOk(name, item, wakes)
    ensures PendingOk(name, Merged(Some(file), item), wakes)
    ensures Tracks(item, Merged(Some(file), item))
    ensures Merged(Some(file), item) == item.(refreshAt := Merged(Some(file), item).refreshAt)
    ensures !item.initial.NoTopic? ==> Merged(Some(file), item).refreshAt == file.refreshAt
  {
  }

  lemma MoveFW(s: State, item: Job, stage: Stage)
    requires FW(s) && s.worker.Busy?
    requires item.resetWakes == s.worker.item.resetWakes && item.refreshAt <= s.worker.item.refreshAt
    requires ItemOk(s.worker.name, item, stage, WakesOf(s, s.worker.name))
    ensures FW(Goto(s, item, stage))
  {
  }

  lemma WriteFW(s: State, item: Job, w: Worker)
    requires FW(s) && s.worker.Busy?
    requires PendingOk(s.worker.name, item, WakesOf(s, s.worker.name))
    requires w.Busy? ==> w.name == s.worker.name && WorksOn(w, Some(item), WakesOf(s, s.worker.name))
    ensures FW(Write(s, item, w))
  {
    var name := s.worker.name;
    var files := Written(Get(s.dirs, name), item);
    assert NameOk(name, Get(s.dirs, name), WakesOf(s, name), s.intact.removed);
    PutFiles(s.dirs, s.wakes, s.intact.removed, name, files, s.wakes, s.intact.removed);
    GetPut(s.dirs, name, files, name);
  }

  lemma EnqueueFW(s: State, name: Name, at: nat)
    requires FW(s)
    ensures FW(DoEnqueue(s, name, at))
  {
    var s' := DoEnqueue(s, name, at);
    if s' != s {
      var files := Enqueued(Get(s.dirs, name), name, at, WakesOf(s, name));
      assert PendingOk(name, NewJob(name, at, WakesOf(s, name)), WakesOf(s, name));
      PutFiles(s.dirs, s.wakes, s.intact.removed, name, files, s.wakes, s.intact.removed);
      if s.worker.Busy? {
        GetPut(s.dirs, name, files, s.worker.name);
      }
    }
  }

  lemma ClearFW(s: State)
    requires FW(s)
    ensures FW(Do(s, ClearFailed))
  {
    var d' := s.dirs.(failed := map[]);
    forall n ensures NameOk(n, Get(d', n), Count(s.wakes, n), s.intact.removed) {
      assert NameOk(n, Get(s.dirs, n), Count(s.wakes, n), s.intact.removed);
    }
  }

  lemma LoadingOk(name: Name, item: Job, now: nat, wakes: nat)
    requires JobOk(name, item, wakes)
    ensures !LoadingOf(name, item, now).Quarantine?
    ensures LoadingOf(name, item, now).Process? ==>
              var w := LoadingOf(name, item, now).w;
              w.Busy? && w.name == name && WorksOn(w, Some(item), wakes)
              && (w.stage == Loaded ==> w.item == item) && (w.stage != Loaded ==> w.stage == Finishing && w.item.status == Skipped)
  {
  }

  lemma LoadFW(s: State, name: Name, now: nat)
    requires FW(s)
    ensures FW(DoLoad(s, name, now)) && DoLoad(s, name, now).dirs == s.dirs
  {
    if s.worker.Idle? && FileOf(s, name).Some? {
      assert NameOk(name, Get(s.dirs, name), WakesOf(s, name), s.intact.removed);
      LoadingOk(name, FileOf(s, name).value, now, WakesOf(s, name));
    }
  }

  lemma PrepareFW(s: State, ok: bool)
    requires FW(s)
    ensures FW(DoPrepare(s, ok))
  {
    hide Dropped;
    DroppedFW(s);
    if AtStage(s, Loaded) {
      var name, item, wakes := s.worker.name, s.worker.item, WakesOf(s, s.worker.name);
      assert NameOk(name, Get(s.dirs, name), wakes, s.intact.removed);
      if item.status == Sent {
        MoveFW(s, item, Finishing);
      } else if item.status != Pending {
        MoveFW(s, item, Archiving);
      } else if item.initial.NoTopic? || item.nextPart != 0 {
        MoveFW(s, item, Prepared);
      } else {
        MergedOk(name, FileOf(s, name).value, item, wakes);
        var merged := Merged(FileOf(s, name), item);
        if merged.refreshAt == 0 {
          MoveFW(s, merged, Prepared);
        } else if ok {
          ResetOk(name, merged, merged.refreshAt, wakes);
          var reset := ResetJob(merged, merged.refreshAt, wakes);
          WriteFW(s, reset, Moved(s.worker, reset, Prepared));
        }
      }
    }
  }

  lemma SkippedOk(name: Name, item: Job, code: ErrorCode, wakes: nat)
    requires JobOk(name, item, wakes)
    ensures ItemOk(name, Skip(item, code), Finishing, wakes)
  {
  }

  lemma ErroredOk(name: Name, item: Job, code: ErrorCode, now: nat, wakes: nat)
    requires JobOk(name, item, wakes) && item.status == Pending
    ensures ItemOk(name, AfterError(item, code, now), Finishing, wakes)
    ensures AfterError(item, code, now).refreshAt == item.refreshAt && AfterError(item, code, now).resetWakes == item.resetWakes
  {
  }

  lemma CheckFW(s: State, check: CheckResult)
    requires FW(s)
    ensures FW(DoCheck(s, check))
  {
    if AtStage(s, Prepared) {
      var name, item, wakes := s.worker.name, s.worker.item, WakesOf(s, s.worker.name);
      match check {
        case TargetChanged => SkippedOk(name, item, TargetRebound, wakes);
        case Disabled => SkippedOk(name, item, NotificationDisabled, wakes);
        case SettingsUnreadable => ErroredOk(name, item, SettingsReadFailed, s.worker.now, wakes);
        case Enabled =>
      }
      MoveFW(s, DoCheck(s, check).worker.item, DoCheck(s, check).worker.stage);
    }
  }

  lemma SummaryOk(w: Worker, result: SnapResult, body: Body, wakes: nat)
    requires w.Busy? && ItemOk(w.name, w.item, Checked, wakes) && body.wakes == wakes
    ensures var w' := AfterSummary(w, result, body);
            w'.Busy? && w'.name == w.name && ItemOk(w.name, w'.item, w'.stage, wakes)
            && w'.item.resetWakes == w.item.resetWakes && w'.item.refreshAt == w.item.refreshAt
  {
    var item := Stamped(w);
    if result.SummaryUnreadable? {
      ErroredOk(w.name, item, SummaryReadFailed, w.now, wakes);
    } else if |body.messages| == 0 {
      SkippedOk(w.name, item.(body := item.body.(expiresAt := body.expiresAt)), Ineligible, wakes);
    } else {
      BodyOk(w.name, item, body, wakes);
    }
  }

  lemma SummariseFW(s: State, result: SnapResult)
    requires FW(s)
    ensures FW(DoSummarise(s, result))
  {
    if AtStage(s, Checked) {
      var wakes := WakesOf(s, s.worker.name);
      var body := if result.Summary? then BodyOf(result.snapshot, wakes) else NO_BODY.(wakes := wakes);
      SummaryOk(s.worker, result, body, wakes);
      var w' := AfterSummary(s.worker, result, body);
      MoveFW(s, w'.item, w'.stage);
    }
  }

  lemma BodyOk(name: Name, item: Job, body: Body, wakes: nat)
    requires JobOk(name, item, wakes) && item.status == Pending && |item.body.messages| == 0
    requires |body.messages| > 0 && body.wakes == wakes
    ensures ItemOk(name, item.(body := body), Summarised(true), wakes)
  {
  }

  lemma VerdictFW(s: State, decision: Decision)
    requires FW(s) && s.worker.Busy? && s.worker.stage.Summarised?
    ensures FW(AfterVerdict(s, decision))
  {
    var name, item, wakes := s.worker.name, s.worker.item, WakesOf(s, s.worker.name);
    var justRead := s.worker.stage.justRead;
    SkippedOk(name, item, ContentNotUpdated, wakes);
    match decision {
      case Unreadable =>
        var kept := if justRead then item.(body := NO_BODY) else item;
        assert JobOk(name, kept, wakes);
        ErroredOk(name, kept, SentStateReadFailed, s.worker.now, wakes);
        MoveFW(s, AfterVerdict(s, decision).worker.item, Finishing);
      case Hold => MoveFW(s, Skip(item, ContentNotUpdated), Finishing);
      case Widen(states) => MoveFW(s, Skip(item, ContentNotUpdated), Finishing);
      case Send => MoveFW(s, item, Cleared(justRead));
    }
  }

  lemma GateOk(w: Worker, item: Job, wakes: nat)
    requires w.Busy? && Deliverable(w.name, item, wakes)
    ensures Gate(w, item).Busy? && Gate(w, item).name == w.name
    ensures WorksOn(Gate(w, item), Some(item), wakes)
  {
    SkippedOk(w.name, item, PeriodExpired, wakes);
  }

  lemma FreezeFW(s: State, ok: bool)
    requires FW(s)
    ensures FW(DoFreeze(s, ok))
  {
    hide Dropped;
    DroppedFW(s);
    if s.worker.Busy? && s.worker.stage.Cleared? {
      var name, item, wakes := s.worker.name, s.worker.item, WakesOf(s, s.worker.name);
      assert NameOk(name, Get(s.dirs, name), wakes, s.intact.removed);
      if !s.worker.stage.justRead {
        GateOk(s.worker, item, wakes);
        MoveFW(s, Gate(s.worker, item).item, Gate(s.worker, item).stage);
      } else if ok {
        MergedOk(name, FileOf(s, name).value, item, wakes);
        var merged := Merged(FileOf(s, name), item);
        GateOk(s.worker, merged, wakes);
        WriteFW(s, merged, Gate(s.worker, merged));
      }
    }
  }

  lemma StartSendFW(s: State, leased: bool)
    requires FW(s)
    ensures FW(DoStartSend(s, leased))
  {
    if AtStage(s, Frozen) {
      var name, item, wakes := s.worker.name, s.worker.item, WakesOf(s, s.worker.name);
      if leased {
        MoveFW(s.(logs := s.logs[name := Tried(LogOf(s, name))]), item.(attempts := item.attempts + 1), Sending);
      } else {
        SkippedOk(name, item, TargetRebound, wakes);
        MoveFW(s, Skip(item, TargetRebound), Finishing);
      }
    }
  }

  lemma RepliedOk(name: Name, item: Job, reply: Reply, now: nat, wakes: nat)
    requires ItemOk(name, item, Sending, wakes)
    ensures ItemOk(name, if reply.Acknowledged? then AfterAck(item) else AfterFailure(item, reply.failure, now), Finishing, wakes)
  {
  }

  lemma EndSendFW(s: State, reply: Reply)
    requires FW(s)
    ensures FW(DoEndSend(s, reply))
  {
    var s' := DoEndSend(s, reply);
    if s' != s {
      RepliedOk(s.worker.name, s.worker.item, reply, s.worker.now, WakesOf(s, s.worker.name));
      MoveFW(s, s'.worker.item, Finishing);
    }
  }

  lemma ClosedOk(name: Name, item: Job, at: nat, wakes: nat)
    requires ItemOk(name, item, Finishing, wakes)
    ensures JobOk(name, Closed(item, at), wakes)
    ensures Closed(item, at).refreshAt == item.refreshAt && Closed(item, at).resetWakes == item.resetWakes
  {
  }

  lemma SaveFW(s: State, ok: bool, at: nat)
    requires FW(s)
    ensures FW(DoSave(s, ok, at))
  {
    hide Dropped;
    DroppedFW(s);
    if AtStage(s, Finishing) && at > 0 && ok {
      var name, wakes := s.worker.name, WakesOf(s, s.worker.name);
      assert NameOk(name, Get(s.dirs, name), wakes, s.intact.removed);
      var closed := Closed(s.worker.item, at);
      ClosedOk(name, s.worker.item, at, wakes);
      MergedOk(name, FileOf(s, name).value, closed, wakes);
      var saved := Merged(FileOf(s, name), closed);
      WriteFW(s, saved, AfterSave(s.worker, saved));
    }
  }

  lemma RecordFW(s: State, ok: bool)
    requires FW(s)
    ensures FW(DoRecord(s, ok))
  {
    hide Dropped;
    DroppedFW(s);
    if AtStage(s, Recording) {
      MoveFW(s, s.worker.item, Archiving);
    }
  }

  lemma ArchivedOk(name: Name, files: Files, item: Job, merged: Job, wakes: nat, removed: bool)
    requires NameOk(name, files, wakes, removed) && files.pending.Some?
    requires Tracks(item, files.pending.value) && ItemOk(name, item, Archiving, wakes) && merged == Merged(files.pending, item)
    ensures PendingOk(name, merged, wakes)
    ensures merged.initial.NoTopic? || merged.refreshAt == 0 ==> NameOk(name, Archived(files, merged.status), wakes, removed)
  {
    MergedOk(name, files.pending.value, item, wakes);
  }

  lemma ArchiveFW(s: State, ok: bool)
    requires FW(s)
    ensures FW(DoArchive(s, ok))
  {
    hide Dropped;
    DroppedFW(s);
    if AtStage(s, Archiving) && ok {
      var name, item, wakes := s.worker.name, s.worker.item, WakesOf(s, s.worker.name);
      var files := Get(s.dirs, name);
      assert NameOk(name, files, wakes, s.intact.removed);
      var merged := Merged(FileOf(s, name), item);
      ArchivedOk(name, files, item, merged, wakes, s.intact.removed);
      if !merged.initial.NoTopic? && merged.refreshAt != 0 {
        ResetOk(name, merged, merged.refreshAt, wakes);
        WriteFW(s, ResetJob(merged, merged.refreshAt, wakes), Idle);
      } else {
        PutFiles(s.dirs, s.wakes, s.intact.removed, name, Archived(files, merged.status), s.wakes, s.intact.removed);
      }
    }
  }

  lemma DroppedFW(s: State)
    requires FW(s)
    ensures FW(Dropped(s))
  {
  }

  lemma DoFW(s: State, step: Step)
    requires FW(s)
    ensures FW(Do(s, step))
  {
    hide FW;
    DroppedFW(s);
    match step {
      case Wake(name, now, deleted) => WakeFW(s, name, now, deleted);
      case Enqueue(name, at) => EnqueueFW(s, name, at);
      case ClearFailed => ClearFW(s);
      case Load(name, now) => LoadFW(s, name, now);
      case Prepare(ok) => PrepareFW(s, ok);
      case Check(check) => CheckFW(s, check);
      case Summarise(result) => SummariseFW(s, result);
      case Compare(readable) =>
        if s.worker.Busy? && s.worker.stage.Summarised? { VerdictFW(s, Verdict(s.sent, s.worker.item, readable)); }
      case Freeze(ok) => FreezeFW(s, ok);
      case StartSend(leased) => StartSendFW(s, leased);
      case EndSend(reply) => EndSendFW(s, reply);
      case Save(ok, at) => SaveFW(s, ok, at);
      case Record(ok) => RecordFW(s, ok);
      case Archive(ok) => ArchiveFW(s, ok);
      case Crash =>
    }
  }
}
