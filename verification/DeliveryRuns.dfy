/** What every run of the delivery worker and everything that interleaves with it keeps. */
module DeliveryRuns {
  import opened Bindings
  import opened SentState
  import opened Jobs
  import opened Delivery
  import opened DeliveryFiles
  import opened DeliveryLogs
  import opened DeliverySends
  import opened DeliveryTexts
  import opened Wrappers

  ghost predicate Inv(s: State) {
    FW(s) && LogsInv(s) && SI(s) && TextInv(s)
  }

  lemma InitialInv(s: State)
    requires Initial(s)
    ensures Inv(s)
  {
    forall n ensures NameOk(n, Get(s.dirs, n), WakesOf(s, n), s.intact.removed) && LogFits(s, n) {
    }
    forall key ensures KeyOk(s.sent, DeliveredTo(s, key), key) {
    }
    InitialTexts(s);
  }

  lemma {:induction false} RunKeepsInv(s: State, steps: seq<Step>)
    requires Initial(s)
    ensures Inv(Run(s, steps))
  {
    if steps == [] {
      InitialInv(s);
    } else {
      var before := Run(s, steps[..|steps| - 1]);
      RunKeepsInv(s, steps[..|steps| - 1]);
      DoFW(before, steps[|steps| - 1]);
      DoLogs(before, steps[|steps| - 1]);
      DoSI(before, steps[|steps| - 1]);
      DoTexts(before, steps[|steps| - 1]);
    }
  }

  lemma WakesAccountedFor(name: Name, files: Files, wakes: nat, removed: bool)
    requires NameOk(name, files, wakes, removed) && IsInitial(name)
    ensures files.pending.Some? && files.pending.value.resetWakes < wakes ==> files.pending.value.refreshAt > 0
    ensures forall file | file in [files.completed, files.failed] && file.Some? && removed ::
              file.value.resetWakes == wakes && (|file.value.body.messages| > 0 ==> file.value.body.wakes == wakes)
  {
  }

  /* Finishing a job whose file notes a wake-up resets it. */
  lemma FinishingResets(s: State, name: Name)
    requires FW(s) && AtStage(s, Archiving) && s.worker.name == name && IsInitial(name)
    requires Get(s.dirs, name).pending.Some? && Get(s.dirs, name).pending.value.refreshAt > 0
    ensures var after := Get(DoArchive(s, true).dirs, name);
            after.pending.Some? && |after.pending.value.body.messages| == 0
            && after.pending.value.status == Pending && after.pending.value.resetWakes == WakesOf(s, name)
  {
    var files := Get(s.dirs, name);
    var merged := Merged(FileOf(s, name), s.worker.item);
    assert NameOk(name, files, WakesOf(s, name), s.intact.removed);
    GetPut(s.dirs, name, Written(files, ResetJob(merged, merged.refreshAt, WakesOf(s, name))), name);
  }

  /** Whatever is interleaved with the worker, and whatever writes fail: a job whose last wake-up it has not been
      reset for stands in pending with that wake-up noted, and finishing it resets it; unless the deletion of an
      archived file failed, no archived job was frozen, or decided, before the last wake-up of its name. */
  lemma {:induction false} NoWakeUpIsLost(start: State, steps: seq<Step>, name: Name)
    requires Initial(start) && IsInitial(name)
    ensures var s := Run(start, steps);
            var files := Get(s.dirs, name);
            && (files.pending.Some? && files.pending.value.resetWakes < WakesOf(s, name) ==> files.pending.value.refreshAt > 0)
            && (files.pending.Some? && files.pending.value.refreshAt > 0 && AtStage(s, Archiving) && s.worker.name == name ==>
                  var after := Get(DoArchive(s, true).dirs, name);
                  after.pending.Some? && |after.pending.value.body.messages| == 0
                  && after.pending.value.status == Pending && after.pending.value.resetWakes == WakesOf(s, name))
            && (forall file | file in [files.completed, files.failed] && file.Some? && s.intact.removed ::
                  file.value.resetWakes == WakesOf(s, name)
                  && (|file.value.body.messages| > 0 ==> file.value.body.wakes == WakesOf(s, name)))
  {
    RunKeepsInv(start, steps);
    var s := Run(start, steps);
    var files := Get(s.dirs, name);
    assert NameOk(name, files, WakesOf(s, name), s.intact.removed);
    WakesAccountedFor(name, files, WakesOf(s, name), s.intact.removed);
    if AtStage(s, Archiving) && s.worker.name == name && files.pending.Some? && files.pending.value.refreshAt > 0 {
      FinishingResets(s, name);
    }
  }

  /** A wake-up followed by the enqueueing that the program does after it leaves the name pending, wherever it stood: the
      wake-up is noted, or the job is new or reset and was not frozen before it. */
  lemma WokenNameIsPending(s: State, name: Name, now: nat, deleted: bool, at: nat)
    requires FW(s) && IsInitial(name) && now > 0
    ensures var s' := Do(Do(s, Wake(name, now, deleted)), Enqueue(name, at));
            var file := FileOf(s', name);
            && file.Some? && WakesOf(s', name) == WakesOf(s, name) + 1
            && (file.value.refreshAt > 0 || (file.value.resetWakes == WakesOf(s', name) && |file.value.body.messages| == 0))
            && (file.value.status == Pending || FileOf(s, name).Some?)
  {
    hide FW;
    var woken := Do(s, Wake(name, now, deleted));
    FilesFormed(s, name);
    WakeFW(s, name, now, deleted);
    FilesFormed(woken, name);
    GetPut(s.dirs, name, Woken(Get(s.dirs, name), now, deleted, WakesOf(s, name) + 1), name);
    GetPut(woken.dirs, name, Enqueued(Get(woken.dirs, name), name, at, WakesOf(woken, name)), name);
  }

  lemma FilesFormed(s: State, name: Name)
    requires FW(s)
    ensures NameOk(name, Get(s.dirs, name), WakesOf(s, name), s.intact.removed)
  {
  }

  /** A name stands in one directory at most, unless the deletion of an archived file failed. Jobs in pending are
      well formed, so none is ever quarantined. */
  lemma {:induction false} OneDirectoryPerName(start: State, steps: seq<Step>, name: Name, now: nat)
    requires Initial(start)
    ensures var s := Run(start, steps);
            && (s.intact.removed ==> OneDirectory(Get(s.dirs, name)))
            && (FileOf(s, name).Some? ==> !LoadingOf(name, FileOf(s, name).value, now).Quarantine?)
  {
    RunKeepsInv(start, steps);
    var s := Run(start, steps);
    assert NameOk(name, Get(s.dirs, name), WakesOf(s, name), s.intact.removed);
    if FileOf(s, name).Some? {
      LoadingOk(name, FileOf(s, name).value, now, WakesOf(s, name));
    }
  }

  /** Unless the worker stopped between starting a send and saving its outcome, a job acknowledges the parts of one body
      in order and each part is sent five times at most; a pending file always has four attempts behind it at most. */
  lemma {:induction false} SendsAreBounded(start: State, steps: seq<Step>, name: Name)
    requires Initial(start)
    requires FileOf(Run(start, steps), name).Some?
    ensures var s := Run(start, steps);
            var file := FileOf(s, name).value;
            var item := if s.worker.Busy? && s.worker.name == name then s.worker.item else file;
            var log := LogOf(s, name);
            && (file.status == Pending ==> file.attempts <= 4)
            && (s.intact.counted ==>
                  && log.acked <= item.body.messages
                  && |log.acked| == item.nextPart
                  && log.tries <= MAX_ATTEMPTS
                  && log.total <= MAX_ATTEMPTS * item.nextPart + log.tries)
            && (s.intact.counted && item.status == Sent ==> log.acked == item.body.messages)
  {
    RunKeepsInv(start, steps);
    var s := Run(start, steps);
    assert NameOk(name, Get(s.dirs, name), WakesOf(s, name), s.intact.removed);
    assert s.intact.counted ==> LogFits(s, name);
    if s.worker.Busy? && s.worker.name == name && s.worker.item.status == Sent {
      assert ItemOk(name, s.worker.item, s.worker.stage, WakesOf(s, name));
    }
  }

  function PartsLeft(item: Job, log: Log): int { |item.body.messages| - |log.acked| }

  /* The sends that are left to a job: five for every part that is not acknowledged, less those the next one has had. */
  function SendsLeft(item: Job, log: Log): int {
    if PartsLeft(item, log) == 0 then 0 else MAX_ATTEMPTS * PartsLeft(item, log) - log.tries
  }

  /** The measure behind that bound: while a job delivers one body, every send takes one from the sends that are left, no
      other step adds to them, and they never fall below zero. */
  lemma {:induction false} SendsCountDown(start: State, steps: seq<Step>, step: Step, name: Name)
    requires Initial(start) && KeepsBody(Run(start, steps), Do(Run(start, steps), step), name)
    requires Run(start, steps).intact.counted && Do(Run(start, steps), step).intact.counted
    ensures var s, s' := Run(start, steps), Do(Run(start, steps), step);
            var log, log' := LogOf(s, name), LogOf(s', name);
            var left, left' := SendsLeft(JobIn(s, name), log), SendsLeft(JobIn(s', name), log');
            && 0 <= left' <= left
            && (if Sends(s, step, name) then left' == left - 1 && log'.total == log.total + 1 else log'.total == log.total)
  {
    hide FW, SI, Run, LogsInv, DoStartSend, DoEndSend;
    var s, s' := Run(start, steps), Do(Run(start, steps), step);
    RunKeepsInv(start, steps);
    DoFW(s, step);
    DoLogs(s, step);
    LogFitsJob(s, name);
    LogFitsJob(s', name);
    match step
    case StartSend(leased) => StartMovesLog(s, leased, name);
    case EndSend(reply) => EndMovesLog(s, reply, name);
    case _ => LogStays(s, step, name);
  }

  /** A message in flight belongs to a body the sent state calls for: no event its period already covers, and no
      content its period already got, is ever being sent. */
  lemma {:induction false} NothingKnownIsSent(start: State, steps: seq<Step>)
    requires Initial(start)
    requires AtStage(Run(start, steps), Sending)
    ensures var s := Run(start, steps);
            var candidate := StateFromJob(s.worker.item);
            var key := KeyOf(candidate);
            key in s.sent && SamePeriod(s.sent[key], candidate) ==>
              && (s.worker.item.recordId > 0 ==> s.worker.item.recordId > s.sent[key].covered)
              && s.sent[key].hash != candidate.hash
  {
    RunKeepsInv(start, steps);
  }

  /** Unless the worker stopped between saving a job as sent and archiving it, the deliveries of every group, chat and
      topic form a chain, whatever other writes fail and wherever else it crashes: within one period the covered record
      never decreases and the content always changes, and the date of a period moves back only within one period ID. */
  lemma {:induction false} DeliveriesFollowEachOther(start: State, steps: seq<Step>, key: Key)
    requires Initial(start)
    requires Run(start, steps).intact.settled
    ensures var s := Run(start, steps);
            && Chain(DeliveredTo(s, key))
            && (key in s.sent <==> DeliveredTo(s, key) != [])
            && (key in s.sent ==> Continues(DeliveredTo(s, key)[|DeliveredTo(s, key)| - 1], s.sent[key]))
  {
    RunKeepsInv(start, steps);
    var s := Run(start, steps);
    assert KeyOk(s.sent, DeliveredTo(s, key), key);
  }

  /** Daily summaries, whose snapshots are dated and carry no period ID, are delivered in date order. */
  lemma {:induction false} DailyDeliveriesInDateOrder(start: State, steps: seq<Step>, key: Key, i: nat, j: nat)
    requires Initial(start) && Run(start, steps).intact.settled
    requires i <= j < |DeliveredTo(Run(start, steps), key)| && AllDated(DeliveredTo(Run(start, steps), key))
    ensures var deliveries := DeliveredTo(Run(start, steps), key);
            && DayOf(deliveries[i]) <= DayOf(deliveries[j])
            && (deliveries[i].version == deliveries[j].version ==> deliveries[i].covered <= deliveries[j].covered)
  {
    DeliveriesFollowEachOther(start, steps, key);
    DailyNeverMovesBack(DeliveredTo(Run(start, steps), key), i, j);
  }
}
