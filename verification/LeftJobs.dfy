/** What happens when the worker stops after a job was saved as sent and before its delivery was recorded. When it comes
    back to the job it records the delivery without comparing it with what was sent meanwhile, so that an earlier summary
    can replace a later one. */
module LeftJobs {
  import opened Bindings
  import opened CanonicalText
  import opened SentState
  import opened Jobs
  import opened Delivery
  import opened Wrappers

  /* A new job whose summary is one message that is still valid. */
  predicate Ready(item: Job, name: Name, snapshot: Snapshot, now: nat) {
    && item.status == Pending && item.body == NO_BODY && item.nextPart == 0 && item.attempts == 0 && item.nextTry == 0
    && item.refreshAt == 0 && item.code == NoCode && item.sentAt == 0
    && (item.initial.NoTopic? <==> !IsInitial(name))
    && |snapshot.parts| == 1 && now < snapshot.expiresAt
  }

  /* The job with its summary. */
  function Summed(item: Job, snapshot: Snapshot, now: nat, wakes: nat): Job {
    var stamped := if item.initial.NoTopic? then item else item.(occurredAt := now);
    stamped.(body := BodyOf(snapshot, wakes))
  }

  /* The job as it is saved after its message was acknowledged. */
  function Acked(item: Job, at: nat): Job { item.(nextPart := 1, attempts := 0, status := Sent, sentAt := at) }

  function PreparingSteps(name: Name, now: nat): seq<Step> {
    [Load(name, now), Prepare(true), Check(Enabled)]
  }

  function SendingSteps(snapshot: Snapshot, at: nat): seq<Step> {
    [Summarise(Summary(snapshot)), Compare(true), Freeze(true), StartSend(true), EndSend(Acknowledged), Save(true, at)]
  }

  lemma {:induction false} RunConcat(s: State, a: seq<Step>, b: seq<Step>)
    ensures Run(s, a + b) == Run(Run(s, a), b)
  {
    hide Do;
    if b == [] {
      assert a + b == a;
    } else {
      RunConcat(s, a, b[..|b| - 1]);
      assert (a + b)[..|a + b| - 1] == a + b[..|b| - 1];
    }
  }

  lemma RunNext(s: State, a: seq<Step>, step: Step)
    ensures Run(s, a + [step]) == Do(Run(s, a), step)
  {
    assert (a + [step])[..|a|] == a;
  }

  lemma Run3(s: State, a: Step, b: Step, c: Step)
    ensures Run(s, [a, b, c]) == Do(Do(Do(s, a), b), c)
  {
    hide Do;
    RunNext(s, [], a);
    RunNext(s, [a], b);
    RunNext(s, [a, b], c);
    assert [] + [a] == [a] && [a] + [b] == [a, b] && [a, b] + [c] == [a, b, c];
  }

  lemma Prepares(s: State, name: Name, now: nat, item: Job, snapshot: Snapshot)
    requires s.worker.Idle? && FileOf(s, name) == Some(item) && Ready(item, name, snapshot, now)
    ensures Run(s, PreparingSteps(name, now)) == s.(worker := Busy(name, item, now, Checked))
  {
    hide Do;
    Run3(s, Load(name, now), Prepare(true), Check(Enabled));
    Loads(s, name, now, item, snapshot);
    NeedsNoReset(s.(worker := Busy(name, item, now, Loaded)), name, now, item, snapshot);
  }

  lemma Loads(s: State, name: Name, now: nat, item: Job, snapshot: Snapshot)
    requires s.worker.Idle? && FileOf(s, name) == Some(item) && Ready(item, name, snapshot, now)
    ensures Do(s, Load(name, now)) == s.(worker := Busy(name, item, now, Loaded))
  {
  }

  lemma NeedsNoReset(s: State, name: Name, now: nat, item: Job, snapshot: Snapshot)
    requires s.worker == Busy(name, item, now, Loaded) && FileOf(s, name) == Some(item) && Ready(item, name, snapshot, now)
    ensures Do(Do(s, Prepare(true)), Check(Enabled)) == s.(worker := Busy(name, item, now, Checked))
  {
    assert Do(s, Prepare(true)) == s.(worker := Busy(name, item, now, Prepared));
  }

  /* From the summary to the saved outcome. */
  lemma Sends(s: State, name: Name, now: nat, item: Job, snapshot: Snapshot, at: nat)
    requires s.worker == Busy(name, item, now, Checked) && FileOf(s, name) == Some(item) && Ready(item, name, snapshot, now)
    requires at > 0 && Decide(s.sent, StateFromJob(Summed(item, snapshot, now, WakesOf(s, name))), item.recordId) == Send
    ensures var s', saved := Run(s, SendingSteps(snapshot, at)), Acked(Summed(item, snapshot, now, WakesOf(s, name)), at);
            && s'.worker == Busy(name, saved, now, Recording)
            && s'.dirs == Put(s.dirs, name, Written(Get(s.dirs, name), saved))
            && s'.sent == s.sent && s'.delivered == s.delivered && s'.wakes == s.wakes && s'.intact == s.intact
  {
    var summed := Summed(item, snapshot, now, WakesOf(s, name));
    var frozen := Put(s.dirs, name, Written(Get(s.dirs, name), summed));
    var a, b := [Summarise(Summary(snapshot)), Compare(true), Freeze(true)], [StartSend(true), EndSend(Acknowledged), Save(true, at)];
    assert SendingSteps(snapshot, at) == a + b;
    RunConcat(s, a, b);
    Freezes(s, name, now, item, snapshot);
    Acknowledges(Run(s, a), name, now, summed, at);
    GetPut(s.dirs, name, Written(Get(s.dirs, name), summed), name);
    PutTwice(s.dirs, name, Written(Get(s.dirs, name), summed), Written(Get(frozen, name), Acked(summed, at)));
  }

  lemma PutTwice(d: Dirs, name: Name, first: Files, second: Files)
    ensures Put(Put(d, name, first), name, second) == Put(d, name, second)
  {
  }

  lemma Freezes(s: State, name: Name, now: nat, item: Job, snapshot: Snapshot)
    requires s.worker == Busy(name, item, now, Checked) && FileOf(s, name) == Some(item) && Ready(item, name, snapshot, now)
    requires Decide(s.sent, StateFromJob(Summed(item, snapshot, now, WakesOf(s, name))), item.recordId) == Send
    ensures var summed := Summed(item, snapshot, now, WakesOf(s, name));
            Run(s, [Summarise(Summary(snapshot)), Compare(true), Freeze(true)]) ==
            s.(dirs := Put(s.dirs, name, Written(Get(s.dirs, name), summed)), worker := Busy(name, summed, now, Frozen))
  {
    hide Decide, StateFromJob, BodyOf;
    var summed := Summed(item, snapshot, now, WakesOf(s, name));
    BodyHasParts(snapshot, WakesOf(s, name));
    Run3(s, Summarise(Summary(snapshot)), Compare(true), Freeze(true));
    var s1 := Do(s, Summarise(Summary(snapshot)));
    assert s1 == s.(worker := Busy(name, summed, now, Summarised(true)));
    var s2 := Do(s1, Compare(true));
    assert s2 == s.(worker := Busy(name, summed, now, Cleared(true)));
  }

  lemma BodyHasParts(snapshot: Snapshot, wakes: nat)
    ensures BodyOf(snapshot, wakes).messages == snapshot.parts && BodyOf(snapshot, wakes).expiresAt == snapshot.expiresAt
  {
  }

  lemma Acknowledges(s: State, name: Name, now: nat, item: Job, at: nat)
    requires s.worker == Busy(name, item, now, Frozen) && FileOf(s, name) == Some(item) && at > 0
    requires |item.body.messages| == 1 && item.nextPart == 0 && item.attempts == 0 && item.status == Pending
    requires item.code == NoCode && item.sentAt == 0
    ensures var s' := Run(s, [StartSend(true), EndSend(Acknowledged), Save(true, at)]);
            && s'.worker == Busy(name, Acked(item, at), now, Recording)
            && s'.dirs == Put(s.dirs, name, Written(Get(s.dirs, name), Acked(item, at)))
            && s'.sent == s.sent && s'.delivered == s.delivered && s'.wakes == s.wakes && s'.intact == s.intact
  {
    hide Do;
    Run3(s, StartSend(true), EndSend(Acknowledged), Save(true, at));
    IsAcknowledged(s, name, now, item);
    SavesOutcome(Do(Do(s, StartSend(true)), EndSend(Acknowledged)), name, now, item, at);
  }

  lemma IsAcknowledged(s: State, name: Name, now: nat, item: Job)
    requires s.worker == Busy(name, item, now, Frozen) && |item.body.messages| == 1 && item.nextPart == 0 && item.attempts == 0
    requires item.status == Pending && item.code == NoCode
    ensures var s' := Do(Do(s, StartSend(true)), EndSend(Acknowledged));
            && s'.worker == Busy(name, item.(attempts := 1, nextPart := 1, status := Sent), now, Finishing)
            && s'.dirs == s.dirs && s'.sent == s.sent && s'.delivered == s.delivered && s'.wakes == s.wakes && s'.intact == s.intact
  {
    assert Do(s, StartSend(true)).worker == Busy(name, item.(attempts := 1), now, Sending);
  }

  lemma SavesOutcome(s: State, name: Name, now: nat, item: Job, at: nat)
    requires s.worker == Busy(name, item.(attempts := 1, nextPart := 1, status := Sent), now, Finishing)
    requires FileOf(s, name) == Some(item) && at > 0 && item.code == NoCode && item.sentAt == 0
    ensures var s' := Do(s, Save(true, at));
            && s'.worker == Busy(name, Acked(item, at), now, Recording)
            && s'.dirs == Put(s.dirs, name, Written(Get(s.dirs, name), Acked(item, at)))
            && s'.sent == s.sent && s'.delivered == s.delivered && s'.wakes == s.wakes && s'.intact == s.intact
  {
    hide Put, Get;
  }

  function DeliveringSteps(name: Name, now: nat, snapshot: Snapshot, at: nat): seq<Step> {
    PreparingSteps(name, now) + SendingSteps(snapshot, at)
  }

  /* The worker delivers a new job, up to the point where its delivery is to be recorded. */
  lemma Delivers(s: State, name: Name, now: nat, item: Job, snapshot: Snapshot, at: nat)
    requires s.worker.Idle? && FileOf(s, name) == Some(item) && Ready(item, name, snapshot, now)
    requires at > 0 && Decide(s.sent, StateFromJob(Summed(item, snapshot, now, WakesOf(s, name))), item.recordId) == Send
    ensures var s', saved := Run(s, DeliveringSteps(name, now, snapshot, at)), Acked(Summed(item, snapshot, now, WakesOf(s, name)), at);
            && s'.worker == Busy(name, saved, now, Recording)
            && s'.dirs == Put(s.dirs, name, Written(Get(s.dirs, name), saved))
            && s'.sent == s.sent && s'.delivered == s.delivered && s'.wakes == s.wakes && s'.intact == s.intact
  {
    RunConcat(s, PreparingSteps(name, now), SendingSteps(snapshot, at));
    Prepares(s, name, now, item, snapshot);
    Sends(Run(s, PreparingSteps(name, now)), name, now, item, snapshot, at);
  }

  function ReturningSteps(name: Name, now: nat, at: nat): seq<Step> { [Load(name, now), Prepare(true), Save(true, at), Record(true)] }

  /* A job that was left saved as sent is recorded when the worker comes back to it, whatever was delivered meanwhile. */
  lemma LeftJobIsRecorded(s: State, name: Name, now: nat, at: nat, item: Job)
    requires s.worker.Idle? && FileOf(s, name) == Some(item) && at > 0
    requires item.status == Sent && item.nextPart == |item.body.messages| && item.sentAt > 0 && Complete(StateFromJob(item))
    ensures var state, s' := StateFromJob(item), Run(s, ReturningSteps(name, now, at));
            && DeliveredTo(s', KeyOf(state)) == DeliveredTo(s, KeyOf(state)) + [Recorded(s.sent, state)[KeyOf(state)]]
            && s'.sent == Recorded(s.sent, state)
  {
    hide StateFromJob, Do;
    Run3(s, Load(name, now), Prepare(true), Save(true, at));
    RunNext(s, [Load(name, now), Prepare(true), Save(true, at)], Record(true));
    assert [Load(name, now), Prepare(true), Save(true, at)] + [Record(true)] == ReturningSteps(name, now, at);
    LoadsLeftJob(s, name, now, item);
    SavesAgain(s.(worker := Busy(name, item, now, Finishing)), name, now, at, item);
    RecordsIt(Do(s.(worker := Busy(name, item, now, Finishing)), Save(true, at)));
  }

  lemma LoadsLeftJob(s: State, name: Name, now: nat, item: Job)
    requires s.worker.Idle? && FileOf(s, name) == Some(item) && item.status == Sent && item.nextPart == |item.body.messages|
    ensures Do(Do(s, Load(name, now)), Prepare(true)) == s.(worker := Busy(name, item, now, Finishing))
  {
    assert Do(s, Load(name, now)) == s.(worker := Busy(name, item, now, Loaded));
  }

  lemma SavesAgain(s: State, name: Name, now: nat, at: nat, item: Job)
    requires s.worker == Busy(name, item, now, Finishing) && item.status == Sent && item.sentAt > 0 && at > 0
    ensures var s' := Do(s, Save(true, at));
            && AtStage(s', Recording) && StateFromJob(s'.worker.item) == StateFromJob(item)
            && s'.sent == s.sent && s'.delivered == s.delivered
  {
    SameState(item, Merged(FileOf(s, name), Closed(item, at)));
  }

  lemma RecordsIt(s: State)
    requires AtStage(s, Recording) && Complete(StateFromJob(s.worker.item))
    ensures var state, s' := StateFromJob(s.worker.item), Do(s, Record(true));
            && DeliveredTo(s', KeyOf(state)) == DeliveredTo(s, KeyOf(state)) + [Recorded(s.sent, state)[KeyOf(state)]]
            && s'.sent == Recorded(s.sent, state)
  {
    hide StateFromJob, Recorded;
  }

  /* What is recorded does not depend on attempts and wake-ups. */
  lemma SameState(item: Job, saved: Job)
    requires saved == item.(attempts := saved.attempts, refreshAt := saved.refreshAt)
    ensures StateFromJob(saved) == StateFromJob(item)
  {
  }

  // ---------- a run in which the date moves back ----------

  const EMPTY := State(Dirs(map[], map[], map[]), map[], Idle, map[], map[], map[], map[], Intact(true, true, true))

  /* An event job is delivered and saved as sent, and the program stops; ... */
  function StoppedSteps(event: Name, now: nat, snapshot: Snapshot): seq<Step> {
    [Enqueue(event, now)] + DeliveringSteps(event, now, snapshot, now) + [Crash]
  }

  /* ... an initial job of the same topic, which stands before it in the queue, is delivered and recorded; ... */
  function OvertakingSteps(initial: Name, now: nat, snapshot: Snapshot): seq<Step> {
    [Enqueue(initial, now)] + DeliveringSteps(initial, now, snapshot, now) + [Record(true), Archive(true)]
  }

  /* ... and the worker comes back to the first one. */
  function StoppedRun(event: Name, initial: Name, now: nat, earlier: Snapshot, later: Snapshot): seq<Step> {
    StoppedSteps(event, now, earlier) + OvertakingSteps(initial, now, later) + ReturningSteps(event, now, now)
  }

  predicate DailySummary(snapshot: Snapshot, now: nat) {
    && |snapshot.parts| == 1 && now < snapshot.expiresAt
    && snapshot.topic == Daily && snapshot.version != "" && Canonical(snapshot.text) != ""
  }

  /* The job of a name after its summary was sent. */
  function SentJob(name: Name, now: nat, snapshot: Snapshot): Job {
    Acked(Summed(NewJob(name, now, 0), snapshot, now, 0), now)
  }

  lemma SentJobState(name: Name, now: nat, snapshot: Snapshot)
    requires DailySummary(snapshot, now) && name.group > 0 && now > 0
    ensures var job := SentJob(name, now, snapshot);
            job.status == Sent && job.nextPart == |job.body.messages| && job.sentAt == now
    ensures var state := StateFromJob(SentJob(name, now, snapshot));
            && Complete(state) && KeyOf(state) == Key(name.group, name.target, Daily)
            && state.version == snapshot.version && state.periodId == snapshot.periodId
    ensures var state := StateFromJob(Summed(NewJob(name, now, 0), snapshot, now, 0));
            Complete(state) && KeyOf(state) == Key(name.group, name.target, Daily)
  {
  }

  /* A queue in which nothing was delivered under the key yet, and no name was woken. */
  predicate Fresh(s: State, name: Name, key: Key) {
    s.worker.Idle? && !Stored(Get(s.dirs, name)) && key !in s.sent && key !in s.delivered && s.wakes == map[]
  }

  lemma NewJobDelivers(s: State, name: Name, now: nat, snapshot: Snapshot)
    requires Fresh(s, name, Key(name.group, name.target, Daily)) && DailySummary(snapshot, now) && name.group > 0 && now > 0
    requires IsInitial(name) || (name.EventName? && name.recordId > 0)
    ensures var s' := Run(s, [Enqueue(name, now)] + DeliveringSteps(name, now, snapshot, now));
            && s'.worker == Busy(name, SentJob(name, now, snapshot), now, Recording)
            && s'.dirs == Put(s.dirs, name, Written(Get(s.dirs, name), SentJob(name, now, snapshot)))
            && s'.sent == s.sent && s'.delivered == s.delivered && s'.wakes == s.wakes && s'.intact == s.intact
  {
    hide StateFromJob, Summed, Acked;
    var enqueued := Do(s, Enqueue(name, now));
    var files := Enqueued(Get(s.dirs, name), name, now, 0);
    RunNext(s, [], Enqueue(name, now));
    assert [] + [Enqueue(name, now)] == [Enqueue(name, now)];
    RunConcat(s, [Enqueue(name, now)], DeliveringSteps(name, now, snapshot, now));
    GetPut(s.dirs, name, files, name);
    SentJobState(name, now, snapshot);
    Delivers(enqueued, name, now, NewJob(name, now, 0), snapshot, now);
    PutTwice(s.dirs, name, files, Written(Get(enqueued.dirs, name), SentJob(name, now, snapshot)));
  }

  lemma Stops(event: Name, now: nat, snapshot: Snapshot)
    requires event.EventName? && event.recordId > 0 && event.group > 0 && now > 0 && DailySummary(snapshot, now)
    ensures var s' := Run(EMPTY, StoppedSteps(event, now, snapshot));
            && s'.worker.Idle? && s'.sent == map[] && s'.delivered == map[] && s'.wakes == map[]
            && s'.dirs == Dirs(map[event := SentJob(event, now, snapshot)], map[], map[]) && !s'.intact.settled
  {
    hide SentJob, DeliveringSteps;
    var steps := [Enqueue(event, now)] + DeliveringSteps(event, now, snapshot, now);
    NewJobDelivers(EMPTY, event, now, snapshot);
    RunNext(EMPTY, steps, Crash);
  }

  lemma Overtakes(s: State, initial: Name, now: nat, snapshot: Snapshot)
    requires IsInitial(initial) && initial.group > 0 && now > 0 && DailySummary(snapshot, now)
    requires Fresh(s, initial, Key(initial.group, initial.target, Daily))
    ensures var s', state, key := Run(s, OvertakingSteps(initial, now, snapshot)), StateFromJob(SentJob(initial, now, snapshot)),
                                  Key(initial.group, initial.target, Daily);
            && s'.worker.Idle? && DeliveredTo(s', key) == [state]
            && (forall n | n != initial :: FileOf(s', n) == FileOf(s, n)) && s'.intact.settled == s.intact.settled
  {
    hide StateFromJob, DeliveringSteps, SentJob;
    var key, job := Key(initial.group, initial.target, Daily), SentJob(initial, now, snapshot);
    var steps := [Enqueue(initial, now)] + DeliveringSteps(initial, now, snapshot, now);
    NewJobDelivers(s, initial, now, snapshot);
    SentJobState(initial, now, snapshot);
    RunNext(s, steps, Record(true));
    RunNext(s, steps + [Record(true)], Archive(true));
    assert steps + [Record(true)] + [Archive(true)] == OvertakingSteps(initial, now, snapshot);
    var recording := Run(s, steps);
    RecordsIt(recording);
    var archiving := Do(recording, Record(true));
    ArchivesIt(archiving, initial, now, job);
    forall n | n != initial ensures FileOf(Do(archiving, Archive(true)), n) == FileOf(s, n) {
      GetPut(s.dirs, initial, Written(Get(s.dirs, initial), job), n);
    }
  }

  lemma PutElsewhere(d: Dirs, name: Name, files: Files, n: Name)
    requires n != name
    ensures Find(Put(d, name, files).pending, n) == Find(d.pending, n)
  {
  }

  lemma ArchivesIt(s: State, name: Name, now: nat, job: Job)
    requires s.worker == Busy(name, job, now, Archiving) && FileOf(s, name) == Some(job)
    ensures var s' := Do(s, Archive(true));
            && s'.worker.Idle? && s'.delivered == s.delivered && s'.intact == s.intact
            && forall n | n != name :: FileOf(s', n) == FileOf(s, n)
  {
    hide ResetJob, Merged, Archived, Written, Put, Get;
    var merged := Merged(FileOf(s, name), job);
    var files := if !merged.initial.NoTopic? && merged.refreshAt != 0
      then Written(Get(s.dirs, name), ResetJob(merged, merged.refreshAt, WakesOf(s, name)))
      else Archived(Get(s.dirs, name), merged.status);
    forall n | n != name ensures FileOf(Do(s, Archive(true)), n) == FileOf(s, n) { PutElsewhere(s.dirs, name, files, n); }
  }

  lemma DateBackBreaksChain(deliveries: seq<SentState>)
    requires |deliveries| == 2 && !SameId(deliveries[0], deliveries[1])
    requires Earlier(deliveries[1].topic, deliveries[1].version, deliveries[0].version)
    ensures !Chain(deliveries)
  {
    assert !Follows(deliveries[1 - 1], deliveries[1]);
  }

  /** Main result: with any two daily summaries there is a run, stopped between saving and recording, that records the
      earlier one last; if it is of an earlier day and they have no period ID in common, the date moves back, and the
      deliveries are no chain. */
  lemma DateMovesBack(event: Name, initial: Name, now: nat, earlier: Snapshot, later: Snapshot)
    requires event.EventName? && event.recordId > 0 && IsInitial(initial) && initial.topic == Daily
    requires event.group == initial.group > 0 && event.target == initial.target && now > 0
    requires DailySummary(earlier, now) && DailySummary(later, now)
    ensures Initial(EMPTY)
    ensures var s, key := Run(EMPTY, StoppedRun(event, initial, now, earlier, later)), Key(event.group, event.target, Daily);
            && |DeliveredTo(s, key)| == 2
            && DeliveredTo(s, key)[0].version == later.version && DeliveredTo(s, key)[0].periodId == later.periodId
            && DeliveredTo(s, key)[1].version == earlier.version && DeliveredTo(s, key)[1].periodId == earlier.periodId
            && (Earlier(Daily, earlier.version, later.version) && (earlier.periodId == "" || earlier.periodId != later.periodId) ==>
                  !Chain(DeliveredTo(s, key)))
  {
    hide StateFromJob, SentJob, Chain, Earlier;
    var stopped, overtaking := StoppedSteps(event, now, earlier), OvertakingSteps(initial, now, later);
    RunConcat(EMPTY, stopped, overtaking);
    RunConcat(EMPTY, stopped + overtaking, ReturningSteps(event, now, now));
    Stops(event, now, earlier);
    var s1 := Run(EMPTY, stopped);
    Overtakes(s1, initial, now, later);
    SentJobState(event, now, earlier);
    SentJobState(initial, now, later);
    LeftJobIsRecorded(Run(s1, overtaking), event, now, now, SentJob(event, now, earlier));
    var deliveries := DeliveredTo(Run(EMPTY, StoppedRun(event, initial, now, earlier, later)), Key(event.group, event.target, Daily));
    if Earlier(Daily, earlier.version, later.version) && (earlier.periodId == "" || earlier.periodId != later.periodId) {
      DateBackBreaksChain(deliveries);
    }
  }
}
