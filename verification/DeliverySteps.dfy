/** What becomes of a job, field by field. */
module DeliverySteps {
  import opened Bindings
  import opened CanonicalText
  import opened SentState
  import opened Jobs
  import opened Delivery
  import opened DeliveryFiles
  import opened DeliveryTexts
  import opened DeliveryClosings
  import opened DeliveryLogs
  import opened DeliverySends
  import opened DeliveryRuns
  import opened Wrappers

  // ---------- new jobs ----------

  /* The job of this name with nothing done yet, due at once. */
  predicate IsFreshJob(name: Name, job: Job, at: nat) {
    && Belongs(name, job) && job.occurredAt == at && job.status == Pending && job.code == NoCode
    && |job.body.messages| == 0 && job.body.expiresAt == 0
    && job.nextPart == 0 && job.attempts == 0 && job.nextTry == 0 && job.sentAt == 0 && job.refreshAt == 0
  }

  predicate HasFresh(s: State, name: Name, at: nat) { FileOf(s, name).Some? && IsFreshJob(name, FileOf(s, name).value, at) }

  lemma NewJobIsFresh(name: Name, at: nat, wakes: nat)
    requires IsInitial(name) || name.EventName?
    ensures IsFreshJob(name, NewJob(name, at, wakes), at)
  {
  }

  lemma ResetJobIsFresh(name: Name, job: Job, at: nat, wakes: nat)
    requires Belongs(name, job)
    ensures IsFreshJob(name, ResetJob(job, at, wakes), at)
  {
  }

  /** Enqueueing adds a fresh job to a name that stands nowhere, and changes nothing else. */
  lemma EnqueuedIsFresh(s: State, name: Name, at: nat)
    requires IsInitial(name) || (name.EventName? && name.recordId > 0)
    ensures var s' := Do(s, Enqueue(name, at));
            && (if Stored(Get(s.dirs, name)) then s' == s else HasFresh(s', name, at))
            && forall n :: n != name ==> Get(s'.dirs, n) == Get(s.dirs, n)
  {
    hide NewJob, IsFreshJob;
    NewJobIsFresh(name, at, WakesOf(s, name));
    forall n { GetPut(s.dirs, name, Enqueued(Get(s.dirs, name), name, at, WakesOf(s, name)), n); }
  }

  predicate InArchive(files: Files) { files.completed.Some? || files.failed.Some? }

  predicate AllBelong(name: Name, files: Files) {
    forall file | file in [files.pending, files.completed, files.failed] && file.Some? :: Belongs(name, file.value)
  }

  lemma FilesBelong(name: Name, files: Files, wakes: nat, removed: bool)
    requires NameOk(name, files, wakes, removed)
    ensures AllBelong(name, files)
  {
    hide Belongs;
  }

  lemma WokenFiles(name: Name, files: Files, now: nat, deleted: bool, wakes: nat)
    requires IsInitial(name) && AllBelong(name, files)
    ensures var pending := Woken(files, now, deleted, wakes).pending;
            && (files.pending.None? && InArchive(files) ==> pending.Some? && IsFreshJob(name, pending.value, now))
            && (files.pending.None? && !InArchive(files) ==> Woken(files, now, deleted, wakes) == files)
            && (files.pending.Some? ==>
                  var job := files.pending.value;
                  pending == Some(if now <= job.refreshAt then job
                                  else job.(refreshAt := now, nextTry := if job.status == Pending then 0 else job.nextTry)))
  {
    hide IsFreshJob, ResetJob;
    assert files.pending in [files.pending, files.completed, files.failed];
    if files.completed.Some? { ResetJobIsFresh(name, files.completed.value, now, wakes); }
    if files.failed.Some? { ResetJobIsFresh(name, files.failed.value, now, wakes); }
  }

  /** Main result: over every run, waking a name that stands only in an archive makes it pending as a fresh job; a pending
      job notes the latest time it was woken, and is due at once if it was waiting; a name that stands nowhere is left so. */
  lemma {:induction false} RearmedIsFresh(start: State, steps: seq<Step>, name: Name, now: nat, deleted: bool)
    requires Initial(start) && IsInitial(name) && now > 0
    ensures var s, s' := Run(start, steps), Do(Run(start, steps), Wake(name, now, deleted));
            var files := Get(s.dirs, name);
            && (files.pending.None? && InArchive(files) ==> HasFresh(s', name, now))
            && (files.pending.None? && !InArchive(files) ==> Get(s'.dirs, name) == files)
            && (files.pending.Some? ==>
                  var job := files.pending.value;
                  FileOf(s', name) == Some(if now <= job.refreshAt then job
                                           else job.(refreshAt := now, nextTry := if job.status == Pending then 0 else job.nextTry)))
  {
    hide FW, LogsInv, SI, TextInv, IsFreshJob, Woken, NameOk, Put;
    var s := Run(start, steps);
    var files, wakes := Get(s.dirs, name), WakesOf(s, name) + 1;
    RunKeepsInv(start, steps);
    FilesFormed(s, name);
    FilesBelong(name, files, WakesOf(s, name), s.intact.removed);
    GetPut(s.dirs, name, Woken(files, now, deleted, wakes), name);
    WokenFiles(name, files, now, deleted, wakes);
  }

  // ---------- taking a job up ----------

  /** What the worker makes of a pending file: it is set aside when it cannot be, closed when it has expired and was not
      woken, left when it waits for its next try, and taken up as it is otherwise. */
  lemma TakenUpIff(s: State, name: Name, now: nat)
    requires s.worker.Idle? && FileOf(s, name).Some?
    ensures var s', job := Do(s, Load(name, now)), FileOf(s, name).value;
            var woken := !job.initial.NoTopic? && job.refreshAt != 0;
            var expired := job.body.expiresAt != 0 && job.body.expiresAt <= now;
            if job.nextPart > |job.body.messages| then FileOf(s', name).None? && s'.dirs.failed == s.dirs.failed[name := job]
            else if job.status == Pending && expired && !woken then
              s'.worker == Busy(name, job.(status := Skipped, code := PeriodExpired), now, Finishing) && s'.dirs == s.dirs
            else if job.status == Pending && now < job.nextTry then s' == s
            else s'.worker == Busy(name, job, now, Loaded) && s'.dirs == s.dirs
  {
  }

  /** Main result: over every run, a pending job that is woken later than it knew is taken up at once. */
  lemma {:induction false} WokenIsTakenUp(start: State, steps: seq<Step>, name: Name, now: nat, deleted: bool, at: nat)
    requires Initial(start) && IsInitial(name) && now > 0 && Run(start, steps).worker.Idle?
    requires FileOf(Run(start, steps), name).Some? && FileOf(Run(start, steps), name).value.refreshAt < now
    ensures var woken := Do(Run(start, steps), Wake(name, now, deleted));
            Do(woken, Load(name, at)).worker.Busy? && Do(woken, Load(name, at)).worker.stage == Loaded
  {
    hide FW, LogsInv, SI, TextInv;
    var s := Run(start, steps);
    RunKeepsInv(start, steps);
    FilesFormed(s, name);
    RearmedIsFresh(start, steps, name, now, deleted);
    TakenUpIff(Do(s, Wake(name, now, deleted)), name, at);
  }

  // ---------- answers ----------

  /* The job ends as skipped for this reason. */
  predicate IsClosedAs(s: State, s': State, code: Code) {
    && s.worker.Busy? && s' == s.(worker := s'.worker)
    && s'.worker == s.worker.(item := s.worker.item.(status := Skipped, code := code), stage := Finishing)
  }

  /* The worker goes on with the same job. */
  predicate GoesTo(s: State, s': State, stage: Stage) {
    s.worker.Busy? && s' == s.(worker := s'.worker) && s'.worker == s.worker.(stage := stage)
  }

  /* The attempt has failed for this reason: the job waits for its next try, or has failed after the fifth. */
  predicate IsFailedTry(s: State, s': State, item: Job, code: Code) {
    && s.worker.Busy? && s' == s.(worker := s'.worker) && s'.worker.Busy? && s'.worker.stage == Finishing
    && s'.worker.name == s.worker.name && s'.worker.now == s.worker.now
    && s'.worker.item == item.(attempts := item.attempts + 1, code := code, nextTry := s'.worker.item.nextTry,
                               status := if item.attempts < 4 then Pending else Failed)
  }

  /** A rebound target and a disabled notification end the job, settings that cannot be read make it wait, and otherwise a
      job without a body is summarised and one with a body compared. */
  lemma CheckAnswers(s: State, check: CheckResult)
    requires AtStage(s, Prepared)
    ensures var s' := Do(s, Check(check));
            match check
            case TargetChanged => IsClosedAs(s, s', TargetRebound)
            case Disabled => IsClosedAs(s, s', NotificationDisabled)
            case SettingsUnreadable => IsFailedTry(s, s', s.worker.item, SettingsReadFailed)
            case Enabled => GoesTo(s, s', if |s.worker.item.body.messages| == 0 then Checked else Summarised(false))
  {
  }

  /** A summary is frozen as it was read, the hash and the content being the canonical text; an empty one ends the job, and
      one that cannot be read makes it wait. A job of an initial summary is dated by the moment it is processed. */
  lemma SummaryAnswers(s: State, result: SnapResult)
    requires AtStage(s, Checked)
    ensures var s', item := Do(s, Summarise(result)), s.worker.item;
            var dated := item.(occurredAt := if item.initial.NoTopic? then item.occurredAt else s.worker.now);
            match result
            case SummaryUnreadable => IsFailedTry(s, s', dated, SummaryReadFailed)
            case Summary(snapshot) =>
              && s'.worker.Busy? && s' == s.(worker := s'.worker)
              && if snapshot.parts == [] then
                   s'.worker.stage == Finishing
                   && s'.worker.item == dated.(status := Skipped, code := Ineligible,
                                               body := item.body.(expiresAt := snapshot.expiresAt))
                 else
                   var body := s'.worker.item.body;
                   && s'.worker.stage == Summarised(true) && s'.worker.item == dated.(body := body)
                   && body.messages == snapshot.parts && body.expiresAt == snapshot.expiresAt && body.version == snapshot.version
                   && body.periodId == snapshot.periodId && body.covered == snapshot.covered
                   && body.hash == body.content == Canonical(snapshot.text) && body.text == snapshot.text
                   && (ValidTopic(snapshot.topic) ==> body.topic == snapshot.topic)
  {
    hide Canonical, InferTopic;
  }

  /** Without a readable record of what was sent the job waits, and forgets a body that was not saved yet. */
  lemma UnreadableAnswer(s: State)
    requires s.worker.Busy? && s.worker.stage.Summarised?
    ensures var item, s' := s.worker.item, Do(s, Compare(false));
            IsFailedTry(s, s', if s.worker.stage.justRead then item.(body := NO_BODY) else item, SentStateReadFailed)
  {
  }

  /** An answer of the lease protocol: the message is sent, as one more attempt, or the job ends. */
  lemma LeaseAnswers(s: State, leased: bool)
    requires AtStage(s, Frozen)
    ensures var s' := Do(s, StartSend(leased));
            if leased then
              && s'.worker == s.worker.(item := s.worker.item.(attempts := s.worker.item.attempts + 1), stage := Sending)
              && s'.dirs == s.dirs && LogOf(s', s.worker.name).total == LogOf(s, s.worker.name).total + 1
            else IsClosedAs(s, s', TargetRebound)
  {
  }

  /** An acknowledgement: the next part is done, and with the last one the job is sent. */
  lemma AcknowledgementEnds(s: State)
    requires AtStage(s, Sending) && s.worker.item.nextPart < |s.worker.item.body.messages| && s.worker.item.attempts > 0
    ensures var item, s' := s.worker.item, Do(s, EndSend(Acknowledged));
            && s'.worker == s.worker.(stage := Finishing,
                 item := item.(nextPart := item.nextPart + 1, code := NoCode,
                               status := if item.nextPart + 1 < |item.body.messages| then item.status else Sent))
            && s'.dirs == s.dirs
            && LogOf(s', s.worker.name).acked == LogOf(s, s.worker.name).acked + [item.body.messages[item.nextPart]]
  {
  }

  // ---------- saving ----------

  /* The worker's file, and no other, is replaced. */
  predicate FileIs(s: State, s': State, job: Job) {
    s.worker.Busy? && s'.dirs.pending == s.dirs.pending[s.worker.name := job]
  }

  predicate Writes(step: Step) { step.Prepare? || step.Freeze? || step.Save? || step.Record? || step.Archive? }

  /* Files and records stay, and the worker may have to start over. */
  predicate NothingWritten(s: State, s': State) {
    && s'.dirs == s.dirs && s'.sent == s.sent && s'.delivered == s.delivered && s'.wakes == s.wakes && s'.logs == s.logs
    && (s'.worker == Idle || (s.worker.Busy? && s'.worker.Busy? && s'.worker.name == s.worker.name))
  }

  lemma MovingWritesNothing(s: State, item: Job, stage: Stage)
    requires s.worker.Busy?
    ensures NothingWritten(s, Goto(s, item, stage)) && NothingWritten(s, Dropped(s)) && NothingWritten(s, s)
    ensures NothingWritten(s, s.(worker := Gate(s.worker, item)))
  {
  }

  lemma FailedPrepare(s: State)
    requires s.worker.Busy?
    ensures NothingWritten(s, DoPrepare(s, false))
  {
    hide Goto, Dropped, Merged, NothingWritten;
    var item := s.worker.item;
    MovingWritesNothing(s, item, Finishing);
    MovingWritesNothing(s, item, Archiving);
    MovingWritesNothing(s, item, Prepared);
    MovingWritesNothing(s, Merged(FileOf(s, s.worker.name), item), Prepared);
  }

  lemma FailedSaves(s: State, at: nat)
    requires s.worker.Busy?
    ensures NothingWritten(s, DoFreeze(s, false)) && NothingWritten(s, DoSave(s, false, at))
    ensures NothingWritten(s, DoRecord(s, false)) && NothingWritten(s, DoArchive(s, false))
  {
    hide Dropped, Gate, NothingWritten;
    MovingWritesNothing(s, s.worker.item, Finishing);
  }

  /** A write that fails changes nothing but that the worker may have to start over. */
  lemma FailedWriteChangesNothing(s: State, step: Step)
    requires Writes(step) && !step.ok
    ensures NothingWritten(s, Do(s, step))
  {
    hide DoPrepare, DoFreeze, DoSave, DoRecord, DoArchive;
    if s.worker.Busy? {
      FailedPrepare(s);
      FailedSaves(s, if step.Save? then step.at else 0);
    } else {
      IdleDoesNothing(s, step);
    }
  }

  lemma {:induction false} WorkerOk(start: State, steps: seq<Step>)
    requires Initial(start) && Run(start, steps).worker.Busy?
    ensures var s := Run(start, steps);
            && WorksOn(s.worker, FileOf(s, s.worker.name), WakesOf(s, s.worker.name))
            && Belongs(s.worker.name, s.worker.item) && Belongs(s.worker.name, FileOf(s, s.worker.name).value)
  {
    hide LogsInv, SI, TextInv;
    RunKeepsInv(start, steps);
    FilesFormed(Run(start, steps), Run(start, steps).worker.name);
  }

  lemma MergedIs(file: Job, item: Job)
    requires item.refreshAt <= file.refreshAt
    ensures Merged(Some(file), item) == if item.initial.NoTopic? then item else item.(refreshAt := file.refreshAt)
  {
  }

  lemma ResetAgain(s: State, file: Job)
    requires AtStage(s, Loaded) && s.worker.item.status == Pending && IsInitial(s.worker.name) && s.worker.item.nextPart == 0
    requires Belongs(s.worker.name, s.worker.item) && FileOf(s, s.worker.name) == Some(file)
    requires s.worker.item.refreshAt <= file.refreshAt && file.refreshAt > 0
    ensures var s', name := DoPrepare(s, true), s.worker.name;
            && HasFresh(s', name, file.refreshAt)
            && s'.worker == s.worker.(item := FileOf(s', name).value, stage := Prepared)
  {
    hide Merged, ResetJob, IsFreshJob, Put, Get;
    var name := s.worker.name;
    MergedIs(file, s.worker.item);
    var merged := Merged(Some(file), s.worker.item);
    ResetJobIsFresh(name, merged, file.refreshAt, WakesOf(s, name));
    FileAfterPut(s.dirs, name, Written(Get(s.dirs, name), ResetJob(merged, file.refreshAt, WakesOf(s, name))), name);
  }

  /** Main result: over every run, a job that is over goes on to be recorded or archived; one that was woken and has sent
      nothing starts over as a fresh one before it is checked; any other is checked as it is. */
  lemma {:induction false} PreparedIs(start: State, steps: seq<Step>)
    requires Initial(start) && AtStage(Run(start, steps), Loaded)
    ensures var s, s' := Run(start, steps), Do(Run(start, steps), Prepare(true));
            var name, item, file := s.worker.name, s.worker.item, FileOf(s, s.worker.name);
            file.Some? &&
            if item.status == Sent then GoesTo(s, s', Finishing)
            else if item.status != Pending then GoesTo(s, s', Archiving)
            else if IsInitial(name) && item.nextPart == 0 && file.value.refreshAt > 0 then
              HasFresh(s', name, file.value.refreshAt) && s'.worker == s.worker.(item := FileOf(s', name).value, stage := Prepared)
            else GoesTo(s, s', Prepared)
  {
    hide DoPrepare, Run, ItemOk, Belongs, HasFresh, GoesTo;
    var s := Run(start, steps);
    WorkerOk(start, steps);
    var item, file := s.worker.item, FileOf(s, s.worker.name).value;
    InitialIff(s.worker.name, item);
    if item.status == Pending && IsInitial(s.worker.name) && item.nextPart == 0 && file.refreshAt > 0 {
      ResetAgain(s, file);
    } else {
      PreparedAsIs(s);
    }
  }

  lemma InitialIff(name: Name, job: Job)
    requires Belongs(name, job)
    ensures IsInitial(name) <==> !job.initial.NoTopic?
  {
  }

  lemma PreparedAsIs(s: State)
    requires AtStage(s, Loaded) && FileOf(s, s.worker.name).Some?
    requires var item, file := s.worker.item, FileOf(s, s.worker.name).value;
             item.refreshAt <= file.refreshAt
             && (item.status == Pending && !item.initial.NoTopic? && item.nextPart == 0 ==> file.refreshAt == 0)
    ensures GoesTo(s, DoPrepare(s, true),
                   if s.worker.item.status == Sent then Finishing else if s.worker.item.status != Pending then Archiving else Prepared)
  {
    hide Put, Get, ResetJob;
  }

  /* What the gate before the first send makes of a job. */
  predicate IsGated(w: Worker, w': Worker, item: Job) {
    w.Busy? && w'.Busy? && w'.name == w.name && w'.now == w.now &&
    if item.body.expiresAt <= w.now then w'.stage == Finishing && w'.item == item.(status := Skipped, code := PeriodExpired)
    else if item.nextPart == |item.body.messages| then w'.stage == Finishing && w'.item == item.(status := Sent)
    else w'.stage == Frozen && w'.item == item
  }

  /** Main result: over every run, a body that was just read is saved before its first message can be sent; then an expired
      job is closed, one without parts left counts as sent, and any other goes on to be sent. */
  lemma {:induction false} FrozenIs(start: State, steps: seq<Step>)
    requires Initial(start) && Run(start, steps).worker.Busy? && Run(start, steps).worker.stage.Cleared?
    ensures var s, s' := Run(start, steps), Do(Run(start, steps), Freeze(true));
            var item, file := s.worker.item, FileOf(s, s.worker.name);
            file.Some? &&
            if s.worker.stage.justRead then
              var saved := item.(refreshAt := if item.initial.NoTopic? then item.refreshAt else file.value.refreshAt);
              FileIs(s, s', saved) && IsGated(s.worker, s'.worker, saved)
            else s'.dirs == s.dirs && IsGated(s.worker, s'.worker, item)
  {
    hide Merged, Gate, IsGated, ItemOk;
    var s := Run(start, steps);
    WorkerOk(start, steps);
    MergedIs(FileOf(s, s.worker.name).value, s.worker.item);
    GateIs(s.worker, s.worker.item);
    GateIs(s.worker, Merged(FileOf(s, s.worker.name), s.worker.item));
  }

  lemma GateIs(w: Worker, item: Job)
    requires w.Busy?
    ensures IsGated(w, Gate(w, item), item)
  {
  }

  /** Main result: over every run, saving an outcome writes the worker's job with the time it was sent and without the
      attempts of an acknowledged part, and keeps a wake-up that came meanwhile; a job that is not over is left for later. */
  lemma {:induction false} SavedIs(start: State, steps: seq<Step>, at: nat)
    requires Initial(start) && AtStage(Run(start, steps), Finishing) && at > 0
    ensures var s, s' := Run(start, steps), Do(Run(start, steps), Save(true, at));
            var item, file := s.worker.item, FileOf(s, s.worker.name);
            file.Some? &&
            var saved := item.(attempts := if item.code == NoCode then 0 else item.attempts,
                               sentAt := if item.status == Sent && item.sentAt == 0 then at else item.sentAt,
                               refreshAt := if item.initial.NoTopic? then item.refreshAt else file.value.refreshAt);
            && FileIs(s, s', saved)
            && s'.worker == (match item.status
                             case Sent => Busy(s.worker.name, saved, s.worker.now, Recording)
                             case Pending => Idle
                             case _ => Busy(s.worker.name, saved, s.worker.now, Archiving))
  {
    hide Merged;
    var s := Run(start, steps);
    WorkerOk(start, steps);
    MergedIs(FileOf(s, s.worker.name).value, Closed(s.worker.item, at));
  }

  predicate MovesToArchive(s: State, s': State, name: Name, file: Job, status: Status) {
    && s'.dirs.pending == s.dirs.pending - {name}
    && (if status == Failed then s'.dirs.failed == s.dirs.failed[name := file] else s'.dirs.completed == s.dirs.completed[name := file])
  }

  lemma ArchivedMoves(s: State, name: Name)
    requires FileOf(s, name).Some? && s.worker.Busy?
    ensures var s1 := s.(dirs := Put(s.dirs, name, Archived(Get(s.dirs, name), s.worker.item.status)), worker := Idle);
            MovesToArchive(s, s1, name, FileOf(s, name).value, s.worker.item.status)
  {
  }

  lemma ArchivedFile(s: State)
    requires AtStage(s, Archiving) && WorksOn(s.worker, FileOf(s, s.worker.name), WakesOf(s, s.worker.name))
    requires Belongs(s.worker.name, s.worker.item)
    ensures var s', name, file := DoArchive(s, true), s.worker.name, FileOf(s, s.worker.name).value;
            && s'.worker == Idle
            && if IsInitial(name) && file.refreshAt > 0 then HasFresh(s', name, file.refreshAt)
               else MovesToArchive(s, s', name, file, s.worker.item.status)
  {
    hide Merged, ResetJob, IsFreshJob, Put, Get, Archived, MovesToArchive, ItemOk;
    var name := s.worker.name;
    var file := FileOf(s, name).value;
    MergedIs(file, s.worker.item);
    var merged := Merged(Some(file), s.worker.item);
    ResetJobIsFresh(name, merged, file.refreshAt, WakesOf(s, name));
    ArchivedMoves(s, name);
    FileAfterPut(s.dirs, name, Written(Get(s.dirs, name), ResetJob(merged, file.refreshAt, WakesOf(s, name))), name);
  }

  /** Main result: over every run, a job that is over moves to the directory its status calls for; if it was woken meanwhile
      it becomes a fresh one instead. */
  lemma {:induction false} ArchivedIs(start: State, steps: seq<Step>)
    requires Initial(start) && AtStage(Run(start, steps), Archiving)
    ensures var s, s' := Run(start, steps), Do(Run(start, steps), Archive(true));
            var name, file := s.worker.name, FileOf(s, s.worker.name);
            && file.Some? && s'.worker == Idle
            && if IsInitial(name) && file.value.refreshAt > 0 then HasFresh(s', name, file.value.refreshAt)
               else
                 && s'.dirs.pending == s.dirs.pending - {name}
                 && (if s.worker.item.status == Failed then s'.dirs.failed == s.dirs.failed[name := file.value]
                     else s'.dirs.completed == s.dirs.completed[name := file.value])
  {
    hide DoArchive, Run, ItemOk, Belongs, HasFresh;
    WorkerOk(start, steps);
    ArchivedFile(Run(start, steps));
  }

  /** Main result: over every run, what is recorded of a delivery is the job's group and chat, what its summary says of its
      topic, period and content, the time it was sent, and the largest record that its period has covered. */
  lemma {:induction false} RecordedIs(start: State, steps: seq<Step>)
    requires Initial(start) && AtStage(Run(start, steps), Recording)
    requires var item := Run(start, steps).worker.item;
             && ValidTopic(item.body.topic) && item.body.version != "" && item.sentAt > 0 && item.group > 0
             && Canonical(item.body.text) != ""
    ensures var s, s' := Run(start, steps), Do(Run(start, steps), Record(true));
            var item, name := s.worker.item, s.worker.name;
            var key := Key(name.group, name.target, item.body.topic);
            && key in s'.sent
            && DeliveredTo(s', key) == DeliveredTo(s, key) + [s'.sent[key]] && TextsOf(s', key) == TextsOf(s, key) + [item.body.text]
            && var sent := s'.sent[key];
               && sent == SentState(name.group, name.target, item.body.topic, item.body.version, item.body.periodId,
                                    Canonical(item.body.text), Canonical(item.body.text), item.sentAt, sent.covered)
               && sent.covered >= item.body.covered && sent.covered >= item.recordId
               && (sent.covered > item.body.covered && sent.covered > item.recordId ==>
                     key in s.sent && SamePeriod(s.sent[key], sent) && sent.covered == s.sent[key].covered)
               && (key in s.sent && Readable(s.sent, key) && SamePeriod(s.sent[key], sent) ==> sent.covered >= s.sent[key].covered)
  {
    hide Canonical, Join, InferTopic, LogsInv, SI;
    var s := Run(start, steps);
    WorkerOk(start, steps);
    RunKeepsInv(start, steps);
    ItemIsRead(s);
    assert |s.worker.item.body.messages| > 0;
  }
}
