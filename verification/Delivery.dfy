/** The life of notification jobs under one delivery worker, as a step system. */
module Delivery {
  import opened Bindings
  import opened CanonicalText
  import opened SentState
  import opened Jobs
  import opened Wrappers

  /* Each step is one critical section on the job files, one access to the sent states, the start or end of an external
     send, or local work of the worker between them. Wake-ups, enqueues and clearing interleave with the worker at every
     step; writes may fail and the process may crash anywhere. A run is any sequence of steps. A step that is not enabled
     leaves the state as it is. */

  datatype Stage =
    | Loaded
    | Prepared             // wake-up merged
    | Checked              // target and settings checked
    | Summarised(justRead: bool) // body present; just read when not yet saved
    | Cleared(justRead: bool)    // sent state compared
    | Frozen               // body saved
    | Sending              // external call in flight
    | Finishing            // outcome decided, not saved
    | Recording            // saved as sent, sent state not written
    | Archiving            // saved with a final status

  datatype Worker = Idle | Busy(name: Name, item: Job, now: nat, stage: Stage)

  /* External sends of a job since it was created or reset; not part of the program's state. */
  datatype Log = Log(acked: seq<string>, tries: nat, total: nat)

  /* What has not gone wrong yet; not part of the program's state. */
  datatype Intact = Intact(
    removed: bool,  // every archived file of a woken job was deleted
    counted: bool,  // the worker never stopped between starting a send and saving its outcome
    settled: bool)  // the worker never stopped between saving a job as sent and archiving it

  datatype State = State(
    dirs: Dirs,
    sent: States,
    worker: Worker,
    // Not part of the program's state:
    wakes: map<Name, nat>,                  // how often each name was woken
    logs: map<Name, Log>,
    delivered: map<Key, seq<SentState>>,    // what was recorded as sent, in order
    texts: map<Key, seq<string>>,           // the texts these were made from
    intact: Intact)

  datatype CheckResult = TargetChanged | SettingsUnreadable | Disabled | Enabled
  datatype SnapResult = Summary(snapshot: Snapshot) | SummaryUnreadable
  datatype Reply = Acknowledged | Refused(failure: Option<Failure>)

  datatype Step =
    | Wake(name: Name, now: nat, deleted: bool)
    | Enqueue(name: Name, at: nat)
    | ClearFailed
    | Load(name: Name, now: nat)
    | Prepare(ok: bool)
    | Check(check: CheckResult)
    | Summarise(result: SnapResult)
    | Compare(readable: bool)
    | Freeze(ok: bool)
    | StartSend(leased: bool)
    | EndSend(reply: Reply)
    | Save(ok: bool, at: nat)
    | Record(ok: bool)
    | Archive(ok: bool)
    | Crash

  predicate IsInitial(name: Name) { name.InitialName? && ValidTopic(name.topic) }

  function WakesOf(s: State, name: Name): nat { Count(s.wakes, name) }

  function LogOf(s: State, name: Name): Log { if name in s.logs then s.logs[name] else Log([], 0, 0) }

  function DeliveredTo(s: State, key: Key): seq<SentState> {
    if key in s.delivered then s.delivered[key] else []
  }

  function TextsOf(s: State, key: Key): seq<string> { if key in s.texts then s.texts[key] else [] }

  predicate AtStage(s: State, stage: Stage) { s.worker.Busy? && s.worker.stage == stage }

  predicate Invalid(item: Job) {
    item.nextPart > |item.body.messages|
  }

  predicate Expired(item: Job, now: nat) { item.body.expiresAt != 0 && now >= item.body.expiresAt }

  /* A send was started and its outcome is not saved; closing a job that was not sent counts as well. */
  predicate Unsaved(w: Worker) { w.Busy? && (w.stage == Sending || w.stage == Finishing) }

  /* The file says that the job was sent, and stands in pending still. */
  predicate SavedAsSent(w: Worker) { w.Busy? && (w.stage == Recording || (w.stage == Archiving && w.item.status == Sent)) }

  /* Stop working on the job and lose what only memory held. */
  function Dropped(s: State): State {
    s.(worker := Idle,
       intact := s.intact.(counted := s.intact.counted && !Unsaved(s.worker), settled := s.intact.settled && !SavedAsSent(s.worker)))
  }

  function Goto(s: State, item: Job, stage: Stage): State
    requires s.worker.Busy?
  {
    s.(worker := s.worker.(item := item, stage := stage))
  }

  function AfterError(item: Job, code: ErrorCode, now: nat): Job {
    AfterFailure(item.(attempts := item.attempts + 1), Some(Failure(code, true, 0)), now)
  }

  function Forget(s: State, name: Name): map<Name, Log> { s.logs[name := Log([], 0, 0)] }

  // ---------- steps of others ----------

  function DoWake(s: State, name: Name, now: nat, deleted: bool): State {
    if !IsInitial(name) || now == 0 then s
    else
      var files, wakes := Get(s.dirs, name), WakesOf(s, name) + 1;
      s.(dirs := Put(s.dirs, name, Woken(files, now, deleted, wakes)), wakes := s.wakes[name := wakes],
         logs := if files.pending.None? then Forget(s, name) else s.logs,
         intact := s.intact.(removed := s.intact.removed && (deleted || files.pending.Some?)))
  }

  function DoEnqueue(s: State, name: Name, at: nat): State {
    if Stored(Get(s.dirs, name)) || !(IsInitial(name) || (name.EventName? && name.recordId > 0)) then s
    else s.(dirs := Put(s.dirs, name, Enqueued(Get(s.dirs, name), name, at, WakesOf(s, name))), logs := Forget(s, name))
  }

  // ---------- steps of the worker ----------

  function FileOf(s: State, name: Name): Option<Job> { Find(s.dirs.pending, name) }

  /* The worker's job file rewritten, going on with `w`. */
  function Write(s: State, item: Job, w: Worker): State
    requires s.worker.Busy?
  {
    s.(dirs := Put(s.dirs, s.worker.name, Written(Get(s.dirs, s.worker.name), item)), worker := w)
  }

  function Moved(w: Worker, item: Job, stage: Stage): Worker
    requires w.Busy?
  {
    w.(item := item, stage := stage)
  }

  /* Where reading a pending file leads. */
  datatype Loading = Quarantine | TooEarly | Process(w: Worker)

  function LoadingOf(name: Name, item: Job, now: nat): Loading {
    if Invalid(item) then Quarantine
    else if item.status == Pending && !(!item.initial.NoTopic? && item.refreshAt != 0) && Expired(item, now) then
      Process(Busy(name, Skip(item, PeriodExpired), now, Finishing))
    else if item.status == Pending && now < item.nextTry then TooEarly
    else Process(Busy(name, item, now, Loaded))
  }

  function DoLoad(s: State, name: Name, now: nat): State {
    if !s.worker.Idle? || FileOf(s, name).None? then s
    else
      match LoadingOf(name, FileOf(s, name).value, now)
      case Quarantine => s.(dirs := Put(s.dirs, name, Archived(Get(s.dirs, name), Failed)))
      case TooEarly => s
      case Process(w) => s.(worker := w)
  }

  function DoPrepare(s: State, ok: bool): State {
    if !AtStage(s, Loaded) then s
    else
      var name, item := s.worker.name, s.worker.item;
      if item.status == Sent then Goto(s, item, Finishing)
      else if item.status != Pending then Goto(s, item, Archiving)
      else if item.initial.NoTopic? || item.nextPart != 0 then Goto(s, item, Prepared)
      else
        var merged := Merged(FileOf(s, name), item);
        if merged.refreshAt == 0 then Goto(s, merged, Prepared)
        else if !ok then Dropped(s)
        else
          var reset := ResetJob(merged, merged.refreshAt, WakesOf(s, name));
          Write(s, reset, Moved(s.worker, reset, Prepared)).(logs := Forget(s, name))
  }

  function DoCheck(s: State, check: CheckResult): State {
    if !AtStage(s, Prepared) then s
    else
      var item := s.worker.item;
      match check
      case TargetChanged => Goto(s, Skip(item, TargetRebound), Finishing)
      case Disabled => Goto(s, Skip(item, NotificationDisabled), Finishing)
      case SettingsUnreadable => Goto(s, AfterError(item, SettingsReadFailed, s.worker.now), Finishing)
      case Enabled => Goto(s, item, if |item.body.messages| == 0 then Checked else Summarised(false))
  }

  function DoSummarise(s: State, result: SnapResult): State {
    if !AtStage(s, Checked) then s
    else
      var wakes := WakesOf(s, s.worker.name);
      var body := if result.Summary? then BodyOf(result.snapshot, wakes) else NO_BODY.(wakes := wakes);
      s.(worker := AfterSummary(s.worker, result, body))
  }

  /* An initial job summarises the moment it is processed. */
  function Stamped(w: Worker): Job
    requires w.Busy?
  {
    if w.item.initial.NoTopic? then w.item else w.item.(occurredAt := w.now)
  }

  function AfterSummary(w: Worker, result: SnapResult, body: Body): Worker
    requires w.Busy?
  {
    var item := Stamped(w);
    if result.SummaryUnreadable? then Moved(w, AfterError(item, SummaryReadFailed, w.now), Finishing)
    else if |body.messages| == 0 then
      Moved(w, Skip(item.(body := item.body.(expiresAt := body.expiresAt)), Ineligible), Finishing)
    else Moved(w, item.(body := body), Summarised(true))
  }

  function Verdict(sent: States, item: Job, readable: bool): Decision {
    if readable then Decide(sent, StateFromJob(item), item.recordId) else Unreadable
  }

  function DoCompare(s: State, readable: bool): State {
    if !s.worker.Busy? || !s.worker.stage.Summarised? then s
    else AfterVerdict(s, Verdict(s.sent, s.worker.item, readable))
  }

  function AfterVerdict(s: State, decision: Decision): State
    requires s.worker.Busy? && s.worker.stage.Summarised?
  {
    var item, justRead := s.worker.item, s.worker.stage.justRead;
    match decision
    case Unreadable =>
      Goto(s, AfterError(if justRead then item.(body := NO_BODY) else item, SentStateReadFailed, s.worker.now), Finishing)
    case Hold => Goto(s, Skip(item, ContentNotUpdated), Finishing)
    case Widen(states) => Goto(s.(sent := states), Skip(item, ContentNotUpdated), Finishing)
    case Send => Goto(s, item, Cleared(justRead))
  }

  /* Before the first send, expired and finished jobs are closed. */
  function Gate(w: Worker, item: Job): Worker
    requires w.Busy?
  {
    if w.now >= item.body.expiresAt then Moved(w, Skip(item, PeriodExpired), Finishing)
    else if item.nextPart == |item.body.messages| then Moved(w, item.(status := Sent), Finishing)
    else Moved(w, item, Frozen)
  }

  /* A body just read is saved before anything is sent. */
  function DoFreeze(s: State, ok: bool): State {
    if !s.worker.Busy? || !s.worker.stage.Cleared? then s
    else if !s.worker.stage.justRead then s.(worker := Gate(s.worker, s.worker.item))
    else if !ok then Dropped(s)
    else
      var item := Merged(FileOf(s, s.worker.name), s.worker.item);
      Write(s, item, Gate(s.worker, item))
  }

  /* `leased` is the outcome of the lease protocol. */
  function DoStartSend(s: State, leased: bool): State {
    if !AtStage(s, Frozen) then s
    else
      var name, item := s.worker.name, s.worker.item;
      if !leased then Goto(s, Skip(item, TargetRebound), Finishing)
      else
        Goto(s.(logs := s.logs[name := Tried(LogOf(s, name))]), item.(attempts := item.attempts + 1), Sending)
  }

  function Tried(log: Log): Log { log.(tries := log.tries + 1, total := log.total + 1) }

  function DoEndSend(s: State, reply: Reply): State {
    if !AtStage(s, Sending) || s.worker.item.nextPart >= |s.worker.item.body.messages| || s.worker.item.attempts == 0 then s
    else
      var name, item := s.worker.name, s.worker.item;
      match reply
      case Acknowledged =>
        var log := LogOf(s, name);
        Goto(s.(logs := s.logs[name := Log(log.acked + [item.body.messages[item.nextPart]], 0, log.total)]),
             AfterAck(item), Finishing)
      case Refused(failure) => Goto(s, AfterFailure(item, failure, s.worker.now), Finishing)
  }

  /* Where a saved outcome leads. */
  function AfterSave(w: Worker, saved: Job): Worker
    requires w.Busy?
  {
    if saved.status == Sent then Moved(w, saved, Recording)
    else if saved.status != Pending then Moved(w, saved, Archiving)
    else Idle
  }

  function DoSave(s: State, ok: bool, at: nat): State {
    if !AtStage(s, Finishing) || at == 0 then s
    else if !ok then Dropped(s)
    else
      var saved := Merged(FileOf(s, s.worker.name), Closed(s.worker.item, at));
      Write(s, saved, AfterSave(s.worker, saved))
  }

  function DoRecord(s: State, ok: bool): State {
    if !AtStage(s, Recording) then s
    else
      var state := StateFromJob(s.worker.item);
      if !ok || !Complete(state) then Dropped(s)
      else Goto(Delivered(s, state), s.worker.item, Archiving)
  }

  function Delivered(s: State, state: SentState): State
    requires s.worker.Busy?
  {
    var states, key := Recorded(s.sent, state), KeyOf(state);
    s.(sent := states, delivered := s.delivered[key := DeliveredTo(s, key) + [states[key]]],
       texts := s.texts[key := TextsOf(s, key) + [s.worker.item.body.text]])
  }

  function DoArchive(s: State, ok: bool): State {
    if !AtStage(s, Archiving) then s
    else if !ok then Dropped(s)
    else
      var name := s.worker.name;
      var merged := Merged(FileOf(s, name), s.worker.item);
      if !merged.initial.NoTopic? && merged.refreshAt != 0 then
        Write(s, ResetJob(merged, merged.refreshAt, WakesOf(s, name)), Idle).(logs := Forget(s, name))
      else s.(dirs := Put(s.dirs, name, Archived(Get(s.dirs, name), merged.status)), worker := Idle)
  }

  function Do(s: State, step: Step): State {
    match step
    case Wake(name, now, deleted) => DoWake(s, name, now, deleted)
    case Enqueue(name, at) => DoEnqueue(s, name, at)
    case ClearFailed => s.(dirs := s.dirs.(failed := map[]))
    case Load(name, now) => DoLoad(s, name, now)
    case Prepare(ok) => DoPrepare(s, ok)
    case Check(check) => DoCheck(s, check)
    case Summarise(result) => DoSummarise(s, result)
    case Compare(readable) => DoCompare(s, readable)
    case Freeze(ok) => DoFreeze(s, ok)
    case StartSend(leased) => DoStartSend(s, leased)
    case EndSend(reply) => DoEndSend(s, reply)
    case Save(ok, at) => DoSave(s, ok, at)
    case Record(ok) => DoRecord(s, ok)
    case Archive(ok) => DoArchive(s, ok)
    case Crash => if s.worker.Busy? then Dropped(s) else s
  }

  // ---------- the steps are the queue's critical sections ----------

  /* What the methods of JobStore leave of the directories is what the steps make of them. */
  lemma WakeIsRearmInitial(s: State, name: Name, now: nat, deleted: bool)
    requires IsInitial(name) && now > 0
    ensures Do(s, Wake(name, now, deleted)).dirs == Rearmed(s.dirs, name, now, deleted, WakesOf(s, name) + 1)
  {
  }

  lemma EnqueueIsEnqueue(s: State, name: Name, at: nat)
    requires IsInitial(name) || (name.EventName? && name.recordId > 0)
    ensures Do(s, Enqueue(name, at)).dirs == WithJob(s.dirs, name, at, WakesOf(s, name))
  {
    PutSame(s.dirs, name);
  }

  /* Nothing is put where nothing changes. */
  lemma PutSame(d: Dirs, name: Name)
    ensures Put(d, name, Get(d, name)) == d
  {
    forall m: map<Name, Job> ensures Place(m, name, Find(m, name)) == m { PlaceSame(m, name); }
  }

  lemma PlaceSame(m: map<Name, Job>, name: Name)
    ensures Place(m, name, Find(m, name)) == m
  {
  }

  lemma MergedKeeps(file: Option<Job>, item: Job)
    ensures Merged(file, item).initial == item.initial && Merged(file, item).status == item.status
    ensures Merged(file, item).nextPart == item.nextPart
  {
  }

  lemma PrepareIsPrepareInitialRefresh(s: State, ok: bool)
    requires AtStage(s, Loaded) && s.worker.item.status == Pending
    ensures var name, item := s.worker.name, s.worker.item;
            Do(s, Prepare(ok)).dirs == Refreshed(s.dirs, name, item, ok, WakesOf(s, name))
  {
    hide ResetJob, Written, Put, Get, Merged;
    MergedKeeps(FileOf(s, s.worker.name), s.worker.item);
  }

  lemma PreparedJobIsRefreshed(s: State, ok: bool)
    requires AtStage(s, Loaded) && s.worker.item.status == Pending
    ensures var name, item := s.worker.name, s.worker.item;
            Do(s, Prepare(ok)).worker ==
            if RefreshFails(s.dirs, name, item, ok) then Idle
            else Moved(s.worker, RefreshedJob(s.dirs, name, item, WakesOf(s, name)), Prepared)
  {
    hide ResetJob, Written, Put, Get, Merged;
    MergedKeeps(FileOf(s, s.worker.name), s.worker.item);
  }

  lemma SaveIsSaveJob(s: State, ok: bool, at: nat)
    requires AtStage(s, Finishing) && at > 0
    ensures var name, closed := s.worker.name, Closed(s.worker.item, at);
            var s' := Do(s, Save(ok, at));
            && s'.dirs == SavedJob(s.dirs, name, closed, ok)
            && (ok ==> s'.worker == AfterSave(s.worker, Merged(FileOf(s, name), closed)))
  {
  }

  lemma ArchiveIsFinalize(s: State, ok: bool)
    requires AtStage(s, Archiving)
    ensures Do(s, Archive(ok)).dirs == Finalized(s.dirs, s.worker.name, s.worker.item, ok, WakesOf(s, s.worker.name))
  {
    hide ResetJob, Written, Archived, Put, Get, Merged;
    MergedKeeps(FileOf(s, s.worker.name), s.worker.item);
  }

  function Run(s: State, steps: seq<Step>): State {
    if steps == [] then s else Do(Run(s, steps[..|steps| - 1]), steps[|steps| - 1])
  }

  /* A queue with no jobs yet; earlier deliveries may be on record. */
  ghost predicate Initial(s: State) {
    && s.dirs == Dirs(map[], map[], map[]) && s.worker == Idle && s.wakes == map[] && s.logs == map[]
    && s.intact.removed && s.intact.counted && s.intact.settled
    && (forall key | key in s.sent :: KeyOf(s.sent[key]) == key)
    && s.delivered == (map key | key in s.sent :: [s.sent[key]])
    && s.texts.Keys == s.sent.Keys
    && (forall key | key in s.sent :: |s.texts[key]| == 1 && Canonical(s.texts[key][0]) == s.sent[key].hash)
  }

  // ---------- what every job file satisfies ----------

  function Count(wakes: map<Name, nat>, name: Name): nat { if name in wakes then wakes[name] else 0 }

  /* The job is that of its name. */
  predicate Belongs(name: Name, f: Job) {
    && f.group == name.group && f.target == name.target
    && match name
       case InitialName(_, _, topic) => ValidTopic(topic) && f.initial == topic && f.recordId == 0 && f.logicalDate == []
       case EventName(recordId, _, _, date) => f.initial.NoTopic? && f.recordId == recordId && f.logicalDate == date
  }

  /* A job as it may stand in a file. `wakes` is how often its name was woken. */
  predicate JobOk(name: Name, f: Job, wakes: nat) {
    Formed(name, f, wakes) && SavedOk(f)
  }

  predicate SavedOk(f: Job) {
    && (f.status == Pending ==> f.attempts < MAX_ATTEMPTS && (f.nextPart < |f.body.messages| || |f.body.messages| == 0))
    && (f.code == NoCode ==> f.attempts == 0)
  }

  predicate Formed(name: Name, f: Job, wakes: nat) {
    && Belongs(name, f)
    && f.attempts <= MAX_ATTEMPTS
    && f.nextPart <= |f.body.messages|
    && (f.status == Sent ==> |f.body.messages| > 0 && f.nextPart == |f.body.messages|)
    && f.resetWakes <= wakes
    && (|f.body.messages| > 0 ==> f.resetWakes <= f.body.wakes <= wakes)
  }

  /* A wake-up the job has not been reset for is still noted in its file. */
  predicate WakeNoted(name: Name, f: Job, wakes: nat) {
    IsInitial(name) && f.resetWakes < wakes ==> f.refreshAt > 0
  }

  predicate PendingOk(name: Name, f: Job, wakes: nat) {
    JobOk(name, f, wakes) && WakeNoted(name, f, wakes)
  }

  predicate ArchiveOk(name: Name, f: Job, wakes: nat, removed: bool) {
    JobOk(name, f, wakes) && (removed && IsInitial(name) ==> f.resetWakes == wakes)
  }

  predicate NameOk(n: Name, files: Files, wakes: nat, removed: bool) {
    && (files.pending.Some? ==> PendingOk(n, files.pending.value, wakes))
    && (files.completed.Some? ==> ArchiveOk(n, files.completed.value, wakes, removed))
    && (files.failed.Some? ==> ArchiveOk(n, files.failed.value, wakes, removed))
    && (removed ==> OneDirectory(files))
  }

  predicate OneDirectory(files: Files) {
    && !(files.pending.Some? && files.completed.Some?)
    && !(files.pending.Some? && files.failed.Some?)
    && !(files.completed.Some? && files.failed.Some?)
  }

  ghost predicate FilesInv(d: Dirs, wakes: map<Name, nat>, removed: bool) {
    forall n :: NameOk(n, Get(d, n), Count(wakes, n), removed)
  }

  // ---------- what the worker's job satisfies ----------

  predicate ItemOk(name: Name, item: Job, stage: Stage, wakes: nat) {
    && Formed(name, item, wakes)
    && (stage == Sending ==> item.status == Pending && 1 <= item.attempts && item.nextPart < |item.body.messages|)
    && (stage == Finishing ==> ClosingOk(item))
    && (stage != Sending && stage != Finishing ==> SavedOk(item))
    && StatusOk(item, stage)
  }

  predicate StatusOk(item: Job, stage: Stage) {
    match stage
    case Prepared => item.status == Pending
    case Checked => item.status == Pending && |item.body.messages| == 0
    case Recording => item.status == Sent
    case Archiving => item.status != Pending
    case Frozen => item.status == Pending && |item.body.messages| > 0
    case Summarised(justRead) => item.status == Pending && |item.body.messages| > 0 && (justRead ==> item.nextPart == 0)
    case Cleared(justRead) => item.status == Pending && |item.body.messages| > 0 && (justRead ==> item.nextPart == 0)
    case _ => true
  }

  predicate Deliverable(name: Name, item: Job, wakes: nat) {
    JobOk(name, item, wakes) && item.status == Pending && |item.body.messages| > 0
  }

  /* Like SavedOk, but the attempts of an acknowledged part are not reset yet. */
  predicate ClosingOk(item: Job) {
    item.status == Pending ==> (item.code == NoCode || item.attempts < MAX_ATTEMPTS)
                               && (item.nextPart < |item.body.messages| || |item.body.messages| == 0)
  }

  /* The job in memory agrees with the file on the last reset, and the file knows at least as much of wake-ups. */
  predicate Tracks(item: Job, file: Job) {
    item.resetWakes == file.resetWakes && item.refreshAt <= file.refreshAt
  }

  predicate WorkerInv(d: Dirs, wakes: map<Name, nat>, w: Worker) {
    w.Busy? ==> WorksOn(w, Get(d, w.name).pending, Count(wakes, w.name))
  }

  predicate WorksOn(w: Worker, file: Option<Job>, wakes: nat)
    requires w.Busy?
  {
    file.Some? && Tracks(w.item, file.value) && ItemOk(w.name, w.item, w.stage, wakes)
  }

  ghost predicate FW(s: State) {
    FilesInv(s.dirs, s.wakes, s.intact.removed) && WorkerInv(s.dirs, s.wakes, s.worker)
  }
}
