/** Two things that every step of the delivery worker keeps. A message that is about to be sent, or in flight, has not
    expired when its job was taken up. A job whose file has been closed, as sent, skipped or failed, stays closed until its
    file is archived or reset for a new body, whatever others do to it in between; and while it is closed the worker never
    gets it to the stage at which a message is sent. */
module DeliveryClosings {
  import opened Bindings
  import opened SentState
  import opened Jobs
  import opened Delivery
  import opened DeliveryFiles
  import opened DeliveryLogs
  import opened DeliveryTexts
  import opened Wrappers

  // ---------- expiry ----------

  predicate Fresh(w: Worker) { w.Busy? && (w.stage == Frozen || w.stage == Sending) ==> w.now < w.item.body.expiresAt }

  lemma LoadIsFresh(s: State, name: Name, now: nat)
    requires Fresh(s.worker)
    ensures Fresh(DoLoad(s, name, now).worker)
  {
  }

  /* The worker goes on with its job short of sending, or not at all. */
  predicate Onward(w: Worker, w': Worker) {
    w'.Busy? ==> w.Busy? && w'.name == w.name && w'.stage != Frozen && w'.stage != Sending
  }

  lemma GotoIsOnward(s: State, item: Job, stage: Stage)
    requires s.worker.Busy?
    ensures stage != Frozen && stage != Sending ==> Onward(s.worker, Goto(s, item, stage).worker)
    ensures Onward(s.worker, Dropped(s).worker) && Dropped(s).dirs == s.dirs && Goto(s, item, stage).dirs == s.dirs
  {
  }

  lemma PrepareGoesOn(s: State, ok: bool)
    requires AtStage(s, Loaded) && !(Resets(s) && ok)
    ensures Onward(s.worker, DoPrepare(s, ok).worker) && DoPrepare(s, ok).dirs == s.dirs
  {
    hide Onward, Merged, Goto, Dropped;
    var item := s.worker.item;
    GotoIsOnward(s, item, Finishing);
    GotoIsOnward(s, item, Archiving);
    GotoIsOnward(s, item, Prepared);
    GotoIsOnward(s, Merged(FileOf(s, s.worker.name), item), Prepared);
  }

  lemma PrepareResets(s: State)
    requires Resets(s)
    ensures DoPrepare(s, true).worker.Busy? && Onward(s.worker, DoPrepare(s, true).worker)
  {
    hide Merged, Put, Get, Written, ResetJob;
  }

  lemma PrepareIsOnward(s: State, ok: bool)
    requires AtStage(s, Loaded)
    ensures Onward(s.worker, DoPrepare(s, ok).worker)
  {
    hide Onward, Resets, DoPrepare;
    if Resets(s) && ok { PrepareResets(s); } else { PrepareGoesOn(s, ok); }
  }

  lemma PrepareIsFresh(s: State, ok: bool)
    requires Fresh(s.worker)
    ensures Fresh(DoPrepare(s, ok).worker)
  {
    hide DoPrepare;
    if AtStage(s, Loaded) { PrepareIsOnward(s, ok); } else { PrepareNothing(s, ok); }
  }

  lemma CheckIsFresh(s: State, check: CheckResult)
    requires Fresh(s.worker)
    ensures Fresh(DoCheck(s, check).worker)
  {
  }

  lemma SummaryIsFresh(s: State, result: SnapResult)
    requires Fresh(s.worker)
    ensures Fresh(DoSummarise(s, result).worker)
  {
  }

  lemma CompareIsFresh(s: State, readable: bool)
    requires Fresh(s.worker)
    ensures Fresh(DoCompare(s, readable).worker)
  {
    hide Verdict, AfterVerdict;
    if s.worker.Busy? && s.worker.stage.Summarised? { VerdictIsFresh(s, Verdict(s.sent, s.worker.item, readable)); }
  }

  lemma VerdictIsFresh(s: State, decision: Decision)
    requires s.worker.Busy? && s.worker.stage.Summarised?
    ensures Fresh(AfterVerdict(s, decision).worker)
  {
    hide AfterError, Skip;
  }

  lemma GateIsFresh(w: Worker, item: Job)
    requires w.Busy?
    ensures Fresh(Gate(w, item))
  {
  }

  lemma FreezeIsFresh(s: State, ok: bool)
    requires Fresh(s.worker)
    ensures Fresh(DoFreeze(s, ok).worker)
  {
    hide Merged, Put, Get, Written, Gate;
    if s.worker.Busy? {
      GateIsFresh(s.worker, s.worker.item);
      GateIsFresh(s.worker, Merged(FileOf(s, s.worker.name), s.worker.item));
    }
  }

  lemma SendIsFresh(s: State, leased: bool, reply: Reply)
    requires Fresh(s.worker)
    ensures Fresh(DoStartSend(s, leased).worker) && Fresh(DoEndSend(s, reply).worker)
  {
  }

  lemma CloseIsFresh(s: State, ok: bool, at: nat)
    requires Fresh(s.worker)
    ensures Fresh(DoSave(s, ok, at).worker) && Fresh(DoRecord(s, ok).worker) && Fresh(DoArchive(s, ok).worker)
  {
    hide Merged, Closed, Put, Get, Written, StateFromJob;
  }

  lemma DoKeepsFresh(s: State, step: Step)
    requires Fresh(s.worker)
    ensures Fresh(Do(s, step).worker)
  {
    hide DoLoad, DoPrepare, DoCheck, DoSummarise, DoCompare, DoFreeze, DoStartSend, DoEndSend, DoSave, DoRecord, DoArchive;
    match step
    case Load(name, now) => LoadIsFresh(s, name, now);
    case Prepare(ok) => PrepareIsFresh(s, ok);
    case Check(check) => CheckIsFresh(s, check);
    case Summarise(result) => SummaryIsFresh(s, result);
    case Compare(readable) => CompareIsFresh(s, readable);
    case Freeze(ok) => FreezeIsFresh(s, ok);
    case StartSend(leased) => SendIsFresh(s, leased, Acknowledged);
    case EndSend(reply) => SendIsFresh(s, true, reply);
    case Save(ok, at) => CloseIsFresh(s, ok, at);
    case Record(ok) => CloseIsFresh(s, ok, 0);
    case Archive(ok) => CloseIsFresh(s, ok, 0);
    case _ =>
  }

  // ---------- closed jobs ----------

  /* The file of a job that has been closed but not archived. */
  predicate IsClosed(s: State, name: Name) {
    && FileOf(s, name).Some? && FileOf(s, name).value.status != Pending
    && (s.worker.Busy? && s.worker.name == name ==> s.worker.item.status != Pending)
  }

  /* The job was archived, or reset for a new body. */
  predicate IsOver(s: State, name: Name) {
    FileOf(s, name).None? || (FileOf(s, name).value.status == Pending && FileOf(s, name).value.body.messages == [])
  }

  lemma ClosedIsNotInFlight(s: State, name: Name)
    requires FW(s) && IsClosed(s, name) && s.worker.Busy? && s.worker.name == name
    ensures s.worker.stage in {Loaded, Finishing, Recording, Archiving}
  {
    assert ItemOk(name, s.worker.item, s.worker.stage, WakesOf(s, name));
  }

  /* The worker's own steps on a closed job. */
  lemma ClosedAtWork(s: State, step: Step, name: Name)
    requires IsClosed(s, name) && s.worker.Busy? && s.worker.name == name && s.worker.stage in {Loaded, Finishing, Recording, Archiving}
    ensures IsClosed(Do(s, step), name) || IsOver(Do(s, step), name)
  {
    hide IsClosed, IsOver, DoWake, DoEnqueue, DoPrepare, DoSave, DoRecord, DoArchive;
    match step
    case Wake(n, now, deleted) => WokenClosed(s, n, now, deleted, name);
    case Enqueue(n, at) => EnqueuedClosed(s, n, at, name);
    case Prepare(ok) => PreparedClosed(s, ok, name);
    case Save(ok, at) => SavedClosed(s, ok, at, name);
    case Record(ok) => RecordedClosed(s, ok, name);
    case Archive(ok) => ArchivedClosed(s, ok, name);
    case _ => WaitsClosed(s, step, name);
  }

  lemma WaitsClosed(s: State, step: Step, name: Name)
    requires IsClosed(s, name) && s.worker.Busy? && s.worker.stage in {Loaded, Finishing, Recording, Archiving}
    requires !step.Wake? && !step.Enqueue? && !step.Prepare? && !step.Save? && !step.Record? && !step.Archive?
    ensures IsClosed(Do(s, step), name)
  {
  }

  lemma PreparedClosed(s: State, ok: bool, name: Name)
    requires IsClosed(s, name) && s.worker.Busy? && s.worker.name == name
    ensures IsClosed(DoPrepare(s, ok), name)
  {
    hide Merged, Put, Get, Written, ResetJob;
  }

  lemma RecordedClosed(s: State, ok: bool, name: Name)
    requires IsClosed(s, name)
    ensures IsClosed(DoRecord(s, ok), name)
  {
    hide StateFromJob, Recorded;
  }

  lemma FileAfterPut(d: Dirs, name: Name, files: Files, n: Name)
    ensures Find(Put(d, name, files).pending, n) == if n == name then files.pending else Find(d.pending, n)
    ensures Get(d, n).pending == Find(d.pending, n)
  {
  }

  lemma WokenClosed(s: State, n: Name, now: nat, deleted: bool, name: Name)
    requires IsClosed(s, name)
    ensures IsClosed(DoWake(s, n, now, deleted), name)
  {
    hide Put, Get;
    FileAfterPut(s.dirs, n, Woken(Get(s.dirs, n), now, deleted, WakesOf(s, n) + 1), name);
  }

  lemma EnqueuedClosed(s: State, n: Name, at: nat, name: Name)
    requires IsClosed(s, name)
    ensures IsClosed(DoEnqueue(s, n, at), name)
  {
    hide Put, Get;
    FileAfterPut(s.dirs, n, Enqueued(Get(s.dirs, n), n, at, WakesOf(s, n)), name);
  }

  lemma SavedClosed(s: State, ok: bool, at: nat, name: Name)
    requires IsClosed(s, name)
    ensures IsClosed(DoSave(s, ok, at), name)
  {
    hide Put, Get, Merged;
    if AtStage(s, Finishing) {
      var closed := Closed(s.worker.item, at);
      MergedKeeps(FileOf(s, s.worker.name), closed);
      FileAfterPut(s.dirs, s.worker.name, Written(Get(s.dirs, s.worker.name), Merged(FileOf(s, s.worker.name), closed)), name);
    }
  }

  lemma ArchivedClosed(s: State, ok: bool, name: Name)
    requires IsClosed(s, name)
    ensures IsClosed(DoArchive(s, ok), name) || IsOver(DoArchive(s, ok), name)
  {
    hide Put, Get, Merged;
    if AtStage(s, Archiving) {
      var n := s.worker.name;
      var merged := Merged(FileOf(s, n), s.worker.item);
      FileAfterPut(s.dirs, n, Written(Get(s.dirs, n), ResetJob(merged, merged.refreshAt, WakesOf(s, n))), name);
      FileAfterPut(s.dirs, n, Archived(Get(s.dirs, n), merged.status), name);
    }
  }

  /* The worker leaves the files of other names alone, and stays with its own until it is idle. */
  lemma PreparingKeepsOthers(s: State, ok: bool, name: Name)
    requires s.worker.Busy? && s.worker.name != name
    ensures FileOf(DoPrepare(s, ok), name) == FileOf(s, name)
    ensures DoPrepare(s, ok).worker.Busy? ==> DoPrepare(s, ok).worker.name == s.worker.name
  {
    hide DoPrepare, Resets, Put, Get, Merged, ResetJob;
    if !AtStage(s, Loaded) {
      PrepareNothing(s, ok);
    } else {
      PrepareIsOnward(s, ok);
      if Resets(s) && ok {
        var merged := Merged(FileOf(s, s.worker.name), s.worker.item);
        PrepareWrites(s);
        var reset := ResetJob(merged, merged.refreshAt, WakesOf(s, s.worker.name));
        FileAfterPut(s.dirs, s.worker.name, Written(Get(s.dirs, s.worker.name), reset), name);
      } else {
        PrepareGoesOn(s, ok);
      }
    }
  }

  lemma GateStays(w: Worker, item: Job)
    requires w.Busy?
    ensures Gate(w, item).Busy? && Gate(w, item).name == w.name
  {
  }

  lemma FreezingKeepsOthers(s: State, ok: bool, name: Name)
    requires s.worker.Busy? && s.worker.name != name
    ensures FileOf(DoFreeze(s, ok), name) == FileOf(s, name)
    ensures DoFreeze(s, ok).worker.Busy? ==> DoFreeze(s, ok).worker.name == s.worker.name
  {
    hide Put, Get, Merged, Gate, Written;
    GateStays(s.worker, s.worker.item);
    GateStays(s.worker, Merged(FileOf(s, s.worker.name), s.worker.item));
    FileAfterPut(s.dirs, s.worker.name, Written(Get(s.dirs, s.worker.name), Merged(FileOf(s, s.worker.name), s.worker.item)), name);
  }

  predicate Apart(s: State, s': State, name: Name) {
    FileOf(s', name) == FileOf(s, name) && (s'.worker.Busy? ==> s.worker.Busy? && s'.worker.name == s.worker.name)
  }

  lemma ReadingKeepsOthers(s: State, check: CheckResult, result: SnapResult, readable: bool, name: Name)
    ensures Apart(s, DoCheck(s, check), name) && Apart(s, DoSummarise(s, result), name) && Apart(s, DoCompare(s, readable), name)
  {
    hide StateFromJob, Decide, BodyOf, AfterError, Skip;
  }

  lemma SendingKeepsOthers(s: State, leased: bool, reply: Reply, ok: bool, name: Name)
    ensures Apart(s, DoStartSend(s, leased), name) && Apart(s, DoEndSend(s, reply), name) && Apart(s, DoRecord(s, ok), name)
  {
    hide StateFromJob, Skip, Jobs.AfterAck, Jobs.AfterFailure, Recorded;
  }

  lemma LoadedClosed(s: State, n: Name, now: nat, name: Name)
    requires IsClosed(s, name)
    ensures IsClosed(DoLoad(s, n, now), name) || IsOver(DoLoad(s, n, now), name)
  {
    hide Put, Get;
    FileAfterPut(s.dirs, n, Archived(Get(s.dirs, n), Failed), name);
  }

  lemma ClosedAside(s: State, step: Step, name: Name)
    requires IsClosed(s, name) && !(s.worker.Busy? && s.worker.name == name)
    ensures IsClosed(Do(s, step), name) || IsOver(Do(s, step), name)
  {
    hide DoWake, DoEnqueue, DoLoad, DoPrepare, DoCheck, DoSummarise, DoCompare, DoFreeze, DoStartSend, DoEndSend, DoSave, DoRecord;
    hide DoArchive;
    match step
    case Wake(n, now, deleted) => WokenClosed(s, n, now, deleted, name);
    case Enqueue(n, at) => EnqueuedClosed(s, n, at, name);
    case ClearFailed =>
    case Load(n, now) => LoadedClosed(s, n, now, name);
    case Save(ok, at) => SavedClosed(s, ok, at, name);
    case Archive(ok) => ArchivedClosed(s, ok, name);
    case Prepare(ok) => if s.worker.Busy? { PreparingKeepsOthers(s, ok, name); } else { IdleDoesNothing(s, step); }
    case Freeze(ok) => if s.worker.Busy? { FreezingKeepsOthers(s, ok, name); } else { IdleDoesNothing(s, step); }
    case Check(check) => ReadingKeepsOthers(s, check, SummaryUnreadable, true, name);
    case Summarise(result) => ReadingKeepsOthers(s, Disabled, result, true, name);
    case Compare(readable) => ReadingKeepsOthers(s, Disabled, SummaryUnreadable, readable, name);
    case StartSend(leased) => SendingKeepsOthers(s, leased, Acknowledged, true, name);
    case EndSend(reply) => SendingKeepsOthers(s, true, reply, true, name);
    case Record(ok) => SendingKeepsOthers(s, true, Acknowledged, ok, name);
    case _ =>
  }

  lemma IdleDoesNothing(s: State, step: Step)
    requires s.worker.Idle? && !step.Wake? && !step.Enqueue? && !step.ClearFailed? && !step.Load?
    ensures Do(s, step) == s
  {
  }

  lemma ClosedStays(s: State, step: Step, name: Name)
    requires FW(s) && IsClosed(s, name)
    ensures IsClosed(Do(s, step), name) || IsOver(Do(s, step), name)
  {
    hide FW, Formed;
    var s' := Do(s, step);
    if s.worker.Busy? && s.worker.name == name {
      ClosedIsNotInFlight(s, name);
      ClosedAtWork(s, step, name);
    } else {
      ClosedAside(s, step, name);
    }
  }

  lemma ClosedDoesNotSend(s: State, step: Step, name: Name)
    requires FW(s) && IsClosed(s, name)
    ensures !Sends(s, step, name)
  {
    hide FW;
    if s.worker.Busy? && s.worker.name == name { ClosedIsNotInFlight(s, name); }
  }

  lemma {:induction false} RunsOn(start: State, steps: seq<Step>, later: seq<Step>)
    ensures Run(start, steps + later) == Run(Run(start, steps), later)
  {
    hide Do;
    if later == [] {
      assert steps + later == steps;
    } else {
      RunsOn(start, steps, later[..|later| - 1]);
      assert (steps + later)[..|steps + later| - 1] == steps + later[..|later| - 1];
    }
  }
}
