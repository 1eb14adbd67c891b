/** Every step keeps what is compared in line with the texts it was read from. The hash and the content of a frozen body are
    the canonical text of the snapshot it was read from, in the job files as in the worker's memory, and the hash of every
    recorded delivery is the canonical text of what was delivered. The texts themselves are history. Deliveries from texts
    with nothing but marks and white space are told apart by their parts, and are not spoken of here. */
module DeliveryTexts {
  import opened Bindings
  import opened CanonicalText
  import opened SentState
  import opened Jobs
  import opened Delivery
  import opened DeliveryFiles
  import opened Wrappers

  /* What is compared of a body is the canonical form of the text it was read from. */
  predicate BodyRead(body: Body) {
    |body.messages| > 0 ==> body.hash == Canonical(body.text) && body.content == Canonical(body.text)
  }

  predicate FileRead(file: Option<Job>) { file.Some? ==> BodyRead(file.value.body) }

  ghost predicate FilesRead(s: State) { forall n :: FileRead(FileOf(s, n)) }

  predicate ItemRead(w: Worker) { w.Busy? ==> BodyRead(w.item.body) }

  /* The deliveries of a key and the texts they were made from. */
  predicate TextsOk(sent: States, deliveries: seq<SentState>, texts: seq<string>, key: Key) {
    && |texts| == |deliveries| && (key in sent <==> |deliveries| > 0)
    && (key in sent ==> KeyOf(sent[key]) == key && Continues(deliveries[|deliveries| - 1], sent[key]))
    && forall i | 0 <= i < |texts| :: Canonical(texts[i]) != "" ==> deliveries[i].hash == Canonical(texts[i])
  }

  ghost predicate TextsInv(s: State) { forall key :: TextsOk(s.sent, DeliveredTo(s, key), TextsOf(s, key), key) }

  ghost predicate TextInv(s: State) { FilesRead(s) && ItemRead(s.worker) && TextsInv(s) }

  lemma InitialTexts(s: State)
    requires Initial(s)
    ensures TextInv(s)
  {
    hide Canonical;
    forall n ensures FileRead(FileOf(s, n)) {}
    forall key ensures TextsOk(s.sent, DeliveredTo(s, key), TextsOf(s, key), key) {}
  }

  lemma PutRead(s: State, s': State, name: Name, files: Files)
    requires FilesRead(s) && s'.dirs == Put(s.dirs, name, files) && FileRead(files.pending)
    ensures FilesRead(s')
  {
    hide BodyRead;
    forall n ensures FileRead(FileOf(s', n)) {
      GetPut(s.dirs, name, files, n);
      assert FileOf(s', n) == Get(s'.dirs, n).pending && FileOf(s, n) == Get(s.dirs, n).pending;
      assert FileRead(FileOf(s, n));
    }
  }

  lemma SameTexts(s: State, s': State)
    requires TextsInv(s) && s'.sent == s.sent && s'.delivered == s.delivered && s'.texts == s.texts
    ensures TextsInv(s')
  {
    hide TextsOk;
    forall key ensures TextsOk(s'.sent, DeliveredTo(s', key), TextsOf(s', key), key) {
      assert TextsOk(s.sent, DeliveredTo(s, key), TextsOf(s, key), key);
    }
  }

  lemma SameFiles(s: State, s': State)
    requires FilesRead(s) && s'.dirs.pending == s.dirs.pending
    ensures FilesRead(s')
  {
    hide BodyRead;
    forall n ensures FileRead(FileOf(s', n)) { assert FileRead(FileOf(s, n)); }
  }

  lemma FileIsRead(s: State, name: Name)
    requires FilesRead(s)
    ensures FileRead(FileOf(s, name)) && FileRead(Get(s.dirs, name).pending)
  {
    assert FileRead(FileOf(s, name));
  }

  lemma WokenRead(files: Files, now: nat, deleted: bool, wakes: nat)
    requires FileRead(files.pending)
    ensures FileRead(Woken(files, now, deleted, wakes).pending)
  {
    hide Canonical;
  }

  lemma WakeTexts(s: State, name: Name, now: nat, deleted: bool)
    requires TextInv(s)
    ensures TextInv(DoWake(s, name, now, deleted))
  {
    hide FilesRead, TextsInv, FileRead, Woken, Put, Get;
    if IsInitial(name) && now > 0 {
      FileIsRead(s, name);
      WokenRead(Get(s.dirs, name), now, deleted, WakesOf(s, name) + 1);
      PutRead(s, DoWake(s, name, now, deleted), name, Woken(Get(s.dirs, name), now, deleted, WakesOf(s, name) + 1));
      SameTexts(s, DoWake(s, name, now, deleted));
    }
  }

  lemma EnqueueTexts(s: State, name: Name, at: nat)
    requires TextInv(s)
    ensures TextInv(DoEnqueue(s, name, at))
  {
    hide FilesRead, TextsInv, Put, Get, Canonical;
    if DoEnqueue(s, name, at) != s {
      PutRead(s, DoEnqueue(s, name, at), name, Enqueued(Get(s.dirs, name), name, at, WakesOf(s, name)));
      SameTexts(s, DoEnqueue(s, name, at));
    }
  }

  lemma LoadingBody(name: Name, item: Job, now: nat)
    ensures var loading := LoadingOf(name, item, now);
            loading.Process? ==> loading.w.Busy? && loading.w.item.body == item.body
  {
  }

  lemma LoadTexts(s: State, name: Name, now: nat)
    requires TextInv(s)
    ensures TextInv(DoLoad(s, name, now))
  {
    hide FilesRead, TextsInv, Put, Get, BodyRead, LoadingOf, Archived;
    if s.worker.Idle? && FileOf(s, name).Some? {
      var s', item := DoLoad(s, name, now), FileOf(s, name).value;
      FileIsRead(s, name);
      LoadingBody(name, item, now);
      SameTexts(s, s');
      match LoadingOf(name, item, now) {
        case Quarantine => QuarantineRead(s, name);
        case TooEarly =>
        case Process(w) => SameFiles(s, s');
      }
    }
  }

  lemma QuarantineRead(s: State, name: Name)
    requires FilesRead(s)
    ensures FilesRead(s.(dirs := Put(s.dirs, name, Archived(Get(s.dirs, name), Failed))))
  {
    hide BodyRead, Put, Get;
    PutRead(s, s.(dirs := Put(s.dirs, name, Archived(Get(s.dirs, name), Failed))), name, Archived(Get(s.dirs, name), Failed));
  }

  /* The worker goes on, or stops. */
  lemma MovedTexts(s: State, s': State)
    requires TextInv(s) && s'.dirs == s.dirs && s'.sent == s.sent && s'.delivered == s.delivered && s'.texts == s.texts
    requires ItemRead(s'.worker)
    ensures TextInv(s')
  {
    hide BodyRead, TextsOk;
    SameFiles(s, s');
    SameTexts(s, s');
  }

  /* The worker rewrites its file. */
  lemma WrittenTexts(s: State, s': State, item: Job)
    requires TextInv(s) && s.worker.Busy? && BodyRead(item.body) && ItemRead(s'.worker)
    requires s'.dirs == Put(s.dirs, s.worker.name, Written(Get(s.dirs, s.worker.name), item))
    requires s'.sent == s.sent && s'.delivered == s.delivered && s'.texts == s.texts
    ensures TextInv(s')
  {
    hide BodyRead, TextsOk, Put, Get;
    PutRead(s, s', s.worker.name, Written(Get(s.dirs, s.worker.name), item));
    SameTexts(s, s');
  }

  lemma MergedBody(file: Option<Job>, item: Job, at: nat)
    ensures Merged(file, item).body == item.body && Closed(item, at).body == item.body
  {
  }

  lemma NoBodyRead()
    ensures BodyRead(NO_BODY)
  {
  }

  predicate Resets(s: State) {
    AtStage(s, Loaded) && s.worker.item.status == Pending && !s.worker.item.initial.NoTopic? && s.worker.item.nextPart == 0
    && Merged(FileOf(s, s.worker.name), s.worker.item).refreshAt != 0
  }

  predicate KeepsRecords(s: State, s': State) {
    && s'.dirs == s.dirs && s'.sent == s.sent && s'.delivered == s.delivered && s'.texts == s.texts
    && (s'.worker.Busy? ==> s.worker.Busy? && s'.worker.item.body == s.worker.item.body)
  }

  lemma GoesOn(s: State, item: Job, stage: Stage)
    requires s.worker.Busy? && item.body == s.worker.item.body
    ensures KeepsRecords(s, Goto(s, item, stage)) && KeepsRecords(s, Dropped(s))
  {
  }

  lemma PrepareMoves(s: State, ok: bool)
    requires AtStage(s, Loaded) && !(Resets(s) && ok)
    ensures KeepsRecords(s, DoPrepare(s, ok))
  {
    hide KeepsRecords, Merged, Goto, Dropped;
    var item := s.worker.item;
    MergedBody(FileOf(s, s.worker.name), item, 0);
    GoesOn(s, item, Finishing);
    GoesOn(s, item, Archiving);
    GoesOn(s, item, Prepared);
    GoesOn(s, Merged(FileOf(s, s.worker.name), item), Prepared);
  }

  lemma PrepareWrites(s: State)
    requires Resets(s)
    ensures var s', merged := DoPrepare(s, true), Merged(FileOf(s, s.worker.name), s.worker.item);
            var reset := ResetJob(merged, merged.refreshAt, WakesOf(s, s.worker.name));
            && s'.dirs == Put(s.dirs, s.worker.name, Written(Get(s.dirs, s.worker.name), reset))
            && s'.sent == s.sent && s'.delivered == s.delivered && s'.texts == s.texts
            && s'.worker.Busy? && s'.worker.item == reset
  {
    hide Merged, Put, Get, Written, ResetJob;
  }

  lemma KeptTexts(s: State, s': State)
    requires TextInv(s) && KeepsRecords(s, s')
    ensures TextInv(s')
  {
    hide BodyRead, FilesRead, TextsInv;
    MovedTexts(s, s');
  }

  lemma PrepareTexts(s: State, ok: bool)
    requires TextInv(s)
    ensures TextInv(DoPrepare(s, ok))
  {
    hide TextInv, BodyRead, Put, Get, Merged, DoPrepare, Resets;
    ItemIsRead(s);
    if !AtStage(s, Loaded) {
      PrepareNothing(s, ok);
    } else if Resets(s) && ok {
      var merged := Merged(FileOf(s, s.worker.name), s.worker.item);
      PrepareWrites(s);
      NoBodyRead();
      WrittenTexts(s, DoPrepare(s, ok), ResetJob(merged, merged.refreshAt, WakesOf(s, s.worker.name)));
    } else {
      PrepareMoves(s, ok);
      KeptTexts(s, DoPrepare(s, ok));
    }
  }

  lemma PrepareNothing(s: State, ok: bool)
    requires !AtStage(s, Loaded)
    ensures DoPrepare(s, ok) == s
  {
  }

  lemma ItemIsRead(s: State)
    requires TextInv(s)
    ensures ItemRead(s.worker)
  {
  }

  lemma CheckTexts(s: State, check: CheckResult)
    requires TextInv(s)
    ensures TextInv(DoCheck(s, check))
  {
    hide TextInv, BodyRead;
    ItemIsRead(s);
    MovedTexts(s, DoCheck(s, check));
  }

  lemma SummaryRead(w: Worker, result: SnapResult, body: Body)
    requires w.Busy? && BodyRead(body) && ItemRead(w) && |w.item.body.messages| == 0
    ensures ItemRead(AfterSummary(w, result, body)) && AfterSummary(w, result, body).Busy?
  {
    hide Canonical;
  }

  lemma BodyOfRead(snapshot: Snapshot, wakes: nat)
    ensures BodyRead(BodyOf(snapshot, wakes)) && BodyRead(NO_BODY.(wakes := wakes))
  {
    hide Canonical, InferTopic;
  }

  lemma SummariseTexts(s: State, result: SnapResult)
    requires TextInv(s) && FW(s)
    ensures TextInv(DoSummarise(s, result))
  {
    hide TextInv, BodyRead, BodyOf, AfterSummary;
    ItemIsRead(s);
    if AtStage(s, Checked) {
      var wakes := WakesOf(s, s.worker.name);
      var body := if result.Summary? then BodyOf(result.snapshot, wakes) else NO_BODY.(wakes := wakes);
      BodyOfRead(if result.Summary? then result.snapshot else Snapshot([], [], 0, NoTopic, [], [], 0), wakes);
      SummaryRead(s.worker, result, body);
      MovedTexts(s, DoSummarise(s, result));
    }
  }

  lemma WidenedTexts(s: State, candidate: SentState, recordId: nat)
    requires TextsInv(s) && Decide(s.sent, candidate, recordId).Widen?
    ensures TextsInv(s.(sent := Decide(s.sent, candidate, recordId).states))
  {
    hide Canonical;
    var s' := s.(sent := Decide(s.sent, candidate, recordId).states);
    forall key ensures TextsOk(s'.sent, DeliveredTo(s', key), TextsOf(s', key), key) {
      assert TextsOk(s.sent, DeliveredTo(s, key), TextsOf(s, key), key);
    }
  }

  lemma CompareTexts(s: State, readable: bool)
    requires TextInv(s)
    ensures TextInv(DoCompare(s, readable))
  {
    hide BodyRead, FilesRead, TextsInv, Decide, StateFromJob;
    if s.worker.Busy? && s.worker.stage.Summarised? {
      var item := s.worker.item;
      var decision := Verdict(s.sent, item, readable);
      NoBodyRead();
      var s1 := if decision.Widen? then s.(sent := decision.states) else s;
      if decision.Widen? {
        WidenedTexts(s, StateFromJob(item), item.recordId);
        SameFiles(s, s1);
      }
      MovedTexts(s1, DoCompare(s, readable));
    }
  }

  lemma FreezeTexts(s: State, ok: bool)
    requires TextInv(s)
    ensures TextInv(DoFreeze(s, ok))
  {
    hide TextInv, BodyRead, Put, Get, Merged;
    ItemIsRead(s);
    if s.worker.Busy? && s.worker.stage.Cleared? {
      var merged := Merged(FileOf(s, s.worker.name), s.worker.item);
      MergedBody(FileOf(s, s.worker.name), s.worker.item, 0);
      if s.worker.stage.justRead && ok {
        WrittenTexts(s, DoFreeze(s, ok), merged);
      } else {
        MovedTexts(s, DoFreeze(s, ok));
      }
    }
  }

  lemma StartMoves(s: State, leased: bool)
    ensures KeepsRecords(s, DoStartSend(s, leased))
  {
    hide LogOf, Tried;
  }

  lemma EndMoves(s: State, reply: Reply)
    ensures KeepsRecords(s, DoEndSend(s, reply))
  {
  }

  lemma SendTexts(s: State, leased: bool, reply: Reply)
    requires TextInv(s)
    ensures TextInv(DoStartSend(s, leased)) && TextInv(DoEndSend(s, reply))
  {
    hide TextInv, KeepsRecords, DoStartSend, DoEndSend;
    StartMoves(s, leased);
    EndMoves(s, reply);
    KeptTexts(s, DoStartSend(s, leased));
    KeptTexts(s, DoEndSend(s, reply));
  }

  lemma SaveTexts(s: State, ok: bool, at: nat)
    requires TextInv(s)
    ensures TextInv(DoSave(s, ok, at))
  {
    hide TextInv, BodyRead, Put, Get, Merged, Closed;
    ItemIsRead(s);
    if AtStage(s, Finishing) && at > 0 {
      var closed := Closed(s.worker.item, at);
      MergedBody(FileOf(s, s.worker.name), s.worker.item, at);
      MergedBody(FileOf(s, s.worker.name), closed, at);
      if ok {
        WrittenTexts(s, DoSave(s, ok, at), Merged(FileOf(s, s.worker.name), closed));
      } else {
        MovedTexts(s, DoSave(s, ok, at));
      }
    }
  }

  lemma StateOfText(item: Job)
    requires BodyRead(item.body) && |item.body.messages| > 0 && Canonical(item.body.text) != ""
    ensures StateFromJob(item).hash == Canonical(item.body.text)
  {
    hide Canonical, InferTopic, Join;
  }

  lemma RecordedTexts(s: State)
    requires TextInv(s) && AtStage(s, Recording) && |s.worker.item.body.messages| > 0
    ensures TextsInv(Delivered(s, StateFromJob(s.worker.item)))
  {
    hide StateFromJob, Canonical;
    var item := s.worker.item;
    var state := StateFromJob(item);
    var s', text := Delivered(s, state), item.body.text;
    if Canonical(text) != "" { StateOfText(item); }
    forall key ensures TextsOk(s'.sent, DeliveredTo(s', key), TextsOf(s', key), key) {
      assert TextsOk(s.sent, DeliveredTo(s, key), TextsOf(s, key), key);
    }
  }

  lemma RecordTexts(s: State, ok: bool)
    requires TextInv(s) && FW(s)
    ensures TextInv(DoRecord(s, ok))
  {
    hide BodyRead, TextsInv, FilesRead, StateFromJob;
    if AtStage(s, Recording) {
      var s1 := Delivered(s, StateFromJob(s.worker.item));
      if ok && Complete(StateFromJob(s.worker.item)) {
        RecordedTexts(s);
        SameFiles(s, s1);
        MovedTexts(s1, DoRecord(s, ok));
      } else {
        MovedTexts(s, DoRecord(s, ok));
      }
    }
  }

  lemma ArchiveTexts(s: State, ok: bool)
    requires TextInv(s)
    ensures TextInv(DoArchive(s, ok))
  {
    hide TextsInv, FilesRead, BodyRead, Put, Get, Merged;
    if AtStage(s, Archiving) {
      var name := s.worker.name;
      var merged := Merged(FileOf(s, name), s.worker.item);
      NoBodyRead();
      if !ok {
        MovedTexts(s, DoArchive(s, ok));
      } else if !merged.initial.NoTopic? && merged.refreshAt != 0 {
        WrittenTexts(s, DoArchive(s, ok), ResetJob(merged, merged.refreshAt, WakesOf(s, name)));
      } else {
        PutRead(s, DoArchive(s, ok), name, Archived(Get(s.dirs, name), merged.status));
        SameTexts(s, DoArchive(s, ok));
      }
    }
  }

  lemma OtherTexts(s: State, step: Step)
    requires TextInv(s) && (step.ClearFailed? || step.Crash?)
    ensures TextInv(Do(s, step))
  {
    hide BodyRead, TextsInv, FilesRead;
    SameFiles(s, Do(s, step));
    SameTexts(s, Do(s, step));
  }

  lemma DoTexts(s: State, step: Step)
    requires TextInv(s) && FW(s)
    ensures TextInv(Do(s, step))
  {
    hide TextInv, FW;
    match step {
      case Wake(name, now, deleted) => WakeTexts(s, name, now, deleted);
      case Enqueue(name, at) => EnqueueTexts(s, name, at);
      case Load(name, now) => LoadTexts(s, name, now);
      case Prepare(ok) => PrepareTexts(s, ok);
      case Check(check) => CheckTexts(s, check);
      case Summarise(result) => SummariseTexts(s, result);
      case Compare(readable) => CompareTexts(s, readable);
      case Freeze(ok) => FreezeTexts(s, ok);
      case StartSend(leased) => SendTexts(s, leased, Acknowledged);
      case EndSend(reply) => SendTexts(s, true, reply);
      case Save(ok, at) => SaveTexts(s, ok, at);
      case Record(ok) => RecordTexts(s, ok);
      case Archive(ok) => ArchiveTexts(s, ok);
      case _ => OtherTexts(s, step);
    }
  }
}
