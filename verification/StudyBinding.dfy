/** Whether a single client shows the latest edit of every key after an account is bound: exactly if no upload of an earlier
    binding of the account is left that may still arrive. */
module StudyBinding {
  import opened StudyMemory
  import opened StudyHistory
  import opened StudySteps
  import opened Wrappers

  predicate OneClientRun(o: Owner, steps: seq<Step>) { forall i | 0 <= i < |steps| :: OneClient(o, steps[i]) }

  /* The uploads that were reported as failed before the run may arrive during it. */
  predicate LateRun(o: Owner, late: set<nat>, steps: seq<Step>) {
    forall i | 0 <= i < |steps| :: OneClient(o, steps[i]) || (steps[i].ApplyLate? && steps[i].id in late)
  }

  lemma {:induction false} RunKeepsBinding(s: State, o: Owner, late: set<nat>, steps: seq<Step>)
    requires BindingInv(s, o, map[]) && Distant(s.net, late, o.account) && LateRun(o, late, steps)
    ensures BindingInv(Run(s, steps), o, Latest(s, steps, o.account)) && Distant(Run(s, steps).net, late, o.account)
  {
    hide BindingInv, Effect, Distant;
    if steps != [] {
      var init, last := steps[..|steps| - 1], steps[|steps| - 1];
      RunKeepsBinding(s, o, late, init);
      if Enabled(Run(s, init), last) { StepKeepsBinding(Run(s, init), o, late, Latest(s, init, o.account), last); }
    }
  }

  /* No upload of the account is on its way that could still be executed, or whose answer could start a second worker. */
  predicate NoOldUploads(s: State, o: Owner) {
    forall id | id in s.net.puts && s.net.puts[id].owner.account == o.account ::
      s.net.puts[id].applied && s.net.puts[id].owner != o
  }

  /* No upload of the account that was reported as failed may arrive yet. */
  predicate NoLateUploads(s: State, o: Owner) { forall id | id in s.net.late :: s.net.late[id].owner.account != o.account }

  lemma BoundStarts(s: State, o: Owner)
    requires Plausible(s) && o.account != 0 && o != s.page.owner && NoOldUploads(s, o)
    ensures BindingInv(Bound(s, o), o, map[])
  {
  }

  /* The user sees the latest edit of every key edited since. */
  predicate ShowsLatest(s: State, a: AccountId, latest: Edits) {
    forall k | k in latest :: Lookup(DataOf(s.store, a).view, k) == latest[k]
  }

  lemma LatestIsShown(s: State, o: Owner, steps: seq<Step>)
    requires Plausible(s) && o.account != 0 && o != s.page.owner && NoOldUploads(s, o) && NoLateUploads(s, o)
    requires LateRun(o, s.net.late.Keys, steps)
    ensures ShowsLatest(Run(Bound(s, o), steps), o.account, Latest(Bound(s, o), steps, o.account))
  {
    BoundStarts(s, o);
    RunKeepsBinding(Bound(s, o), o, s.net.late.Keys, steps);
  }

  // ---------- what a worker alone does ----------

  lemma RunPush(s: State, steps: seq<Step>, step: Step)
    ensures Run(s, steps + [step]) == Do(Run(s, steps), step)
    ensures forall a :: Latest(s, steps + [step], a) ==
              AddEdit(Latest(s, steps, a), if Enabled(Run(s, steps), step) then EditsOf(Run(s, steps), step, a) else None)
  {
    assert (steps + [step])[..|steps|] == steps;
  }

  lemma AddedToNothing(latest: Edits, edit: Option<(OpKey, Option<Value>)>)
    ensures AddEdit(latest, edit) == map[] ==> latest == map[] && edit == None
  {
    if edit.Some? { assert edit.value.0 in AddEdit(latest, edit); }
  }

  lemma {:induction false} RunConcat(s: State, a: seq<Step>, b: seq<Step>, acc: AccountId)
    ensures Run(s, a + b) == Run(Run(s, a), b)
    ensures Latest(Run(s, a), b, acc) == map[] ==> Latest(s, a + b, acc) == Latest(s, a, acc)
  {
    hide Do, Enabled, EditsOf;
    if b == [] {
      assert a + b == a;
    } else {
      var init, last := b[..|b| - 1], b[|b| - 1];
      RunConcat(s, a, init, acc);
      RunPush(s, a + init, last);
      RunPush(Run(s, a), init, last);
      assert (a + init) + [last] == a + b && init + [last] == b;
      AddedToNothing(Latest(Run(s, a), init, acc),
                     if Enabled(Run(s, a + init), last) then EditsOf(Run(s, a + init), last, acc) else None);
    }
  }

  lemma {:induction false} NothingEdited(s: State, steps: seq<Step>, a: AccountId)
    requires forall step | step in steps :: !IsEdit(step)
    ensures Latest(s, steps, a) == map[]
  {
    if steps != [] {
      assert steps[|steps| - 1] in steps;
      NothingEdited(s, steps[..|steps| - 1], a);
    }
  }

  lemma RunTwo(s: State, e1: Step, e2: Step)
    ensures Run(s, [e1]) == Do(s, e1) && Run(s, [e1, e2]) == Do(Do(s, e1), e2)
  {
    RunPush(s, [], e1);
    RunPush(s, [e1], e2);
    assert [] + [e1] == [e1] && [e1] + [e2] == [e1, e2];
  }

  predicate PutsNumbered(net: Net) { forall id | id in net.puts :: id < net.next }

  /* The worker is uploading the oldest pending operation, or has ended as nothing is pending. */
  predicate Uploads(s: State, o: Owner, n: nat) {
    && s.page.owner == o && o.account != 0 && s.page.ready && s.page.worker == Some(n)
    && Agrees(Here(s)) && PutsNumbered(s.net) && n < s.net.next
    && match Oldest(Here(s))
       case Some(k) => n in s.net.puts && s.net.puts[n] == Put(o, k, Here(s).pending[k], false)
       case None => n !in s.net.puts
  }

  /* Nothing is pending for the account and no worker is at work. */
  predicate Idle(s: State, o: Owner) {
    && s.page.owner == o && o.account != 0 && s.page.ready && Here(s).order == [] && Here(s).pending == map[]
    && PutsNumbered(s.net) && (s.page.worker.Some? ==> s.page.worker.value !in s.net.puts)
  }

  /* The operation that was uploaded is dropped. */
  lemma UploadAcknowledged(s: State, o: Owner, n: nat)
    requires Uploads(s, o, n) && Here(s).order != []
    ensures n in s.net.puts && !s.net.puts[n].applied
    ensures var s1 := PutExecuted(s, n); var s2 := AfterAck(s1, n);
            && n in s1.net.puts && s1.net.puts[n] == s.net.puts[n].(applied := true) && s1.net.puts[n].owner == o
            && s1.page == s.page && s2.page == s.page.(revision := s.page.revision + 1)
            && Here(s2) == Dropped(Here(s), Here(s).order[0])
            && s2.net == s.net.(puts := s.net.puts - {n})
  {
    hide Dropped, AppliedTo;
  }

  lemma NextUploads(s: State, o: Owner, n: nat)
    requires s.page.owner == o && o.account != 0 && s.page.ready && s.page.worker == Some(n)
    requires Agrees(Here(s)) && PutsNumbered(s.net) && n < s.net.next && n !in s.net.puts
    ensures var s' := s.(net := Uploading(s, n));
            Uploads(s', o, n) && s'.net.puts - {n} == s.net.puts && s'.net.late == s.net.late
  {
  }

  lemma OneUploaded(s: State, o: Owner, n: nat)
    requires Uploads(s, o, n) && Here(s).order != []
    ensures var s' := Do(Do(s, Apply(n)), PutReturns(n));
            && Uploads(s', o, n) && |Here(s').order| < |Here(s).order|
            && s'.net.puts - {n} == s.net.puts - {n} && s'.net.late == s.net.late
  {
    hide AfterAck, PutExecuted, Without, Uploading, Agrees;
    var k := Here(s).order[0];
    UploadAcknowledged(s, o, n);
    var s1 := PutExecuted(s, n);
    var s2 := AfterAck(s1, n);
    DroppedAgrees(Here(s), k);
    WithoutOnly(Here(s).order, k, k);
    NextUploads(s2, o, n);
    assert Do(s, Apply(n)) == s1 && Do(s1, PutReturns(n)) == s2.(net := Uploading(s2, n));
  }

  /* The worker, left alone with a server that answers, uploads everything that is pending. */
  lemma {:induction false} WorkerUploadsAll(s: State, o: Owner, n: nat) returns (steps: seq<Step>)
    requires Uploads(s, o, n)
    ensures var s' := Run(s, steps);
            && Idle(s', o) && s'.net.puts == s.net.puts - {n} && s'.net.late == s.net.late
    ensures OneClientRun(o, steps) && forall step | step in steps :: !IsEdit(step)
    decreases |Here(s).order|
  {
    hide Do, Latest;
    if Here(s).order == [] {
      assert Here(s).pending == map[];
      steps := [];
    } else {
      OneUploaded(s, o, n);
      RunTwo(s, Apply(n), PutReturns(n));
      var rest := WorkerUploadsAll(Run(s, [Apply(n), PutReturns(n)]), o, n);
      RunConcat(s, [Apply(n), PutReturns(n)], rest, o.account);
      steps := [Apply(n), PutReturns(n)] + rest;
    }
  }

  lemma IdleFlushed(s: State, o: Owner)
    requires Idle(s, o)
    ensures var s1 := Flushed(s);
            && s1.page.worker.Some? && s1.page.worker.value !in s1.net.puts
            && s1.page.(worker := None) == s.page.(worker := None) && s1.store == s.store && s1.servers == s.servers
  {
  }

  /* When nothing is pending a synchronisation reads as soon as the worker has ended. */
  lemma IdleSyncReads(s: State, o: Owner)
    requires Idle(s, o)
    ensures var s1 := Do(s, Sync); var w, g := s1.net.next - 1, s1.net.next;
            var s2 := Do(s1, GoOn(w));
            && w >= 0 && s2.page.(worker := None) == s.page.(worker := None) && s2.store == s.store && s2.servers == s.servers
            && g in s2.net.gets && s2.net.gets[g] == Get(o, s.page.revision, None)
  {
    hide Flushed;
    IdleFlushed(s, o);
  }

  lemma AnswerShown(s: State, o: Owner, g: nat, k: OpKey)
    requires s.page.owner == o && o.account != 0 && Here(s).pending == map[]
    requires g in s.net.gets && s.net.gets[g] == Get(o, s.page.revision, None)
    ensures var s' := Do(Do(s, Answer(g)), ReadReturns(g));
            Lookup(DataOf(s'.store, o.account).view, k) == Lookup(TableOf(s.servers, o.account), k)
  {
    hide Uploading, Lookup, Agrees;
    var s1 := Do(s, Answer(g));
    assert s1.page == s.page && s1.store == s.store && Applies(s1, g);
    assert Here(Shown(s1, g)).view == Overlaid(TableOf(s.servers, o.account), map[]);
    assert Overlaid(TableOf(s.servers, o.account), map[]) == TableOf(s.servers, o.account);
  }

  lemma ReadRound(s: State, o: Owner, k: OpKey) returns (steps: seq<Step>)
    requires Idle(s, o)
    ensures Lookup(DataOf(Run(s, steps).store, o.account).view, k) == Lookup(TableOf(s.servers, o.account), k)
    ensures OneClientRun(o, steps) && Latest(s, steps, o.account) == map[]
  {
    hide Do, Run, Latest, Lookup;
    IdleSyncReads(s, o);
    var s1 := Do(s, Sync);
    var w, g := s1.net.next - 1, s1.net.next;
    RunTwo(s, Sync, GoOn(w));
    var s2 := Run(s, [Sync, GoOn(w)]);
    AnswerShown(s2, o, g, k);
    RunTwo(s2, Answer(g), ReadReturns(g));
    RunConcat(s, [Sync, GoOn(w)], [Answer(g), ReadReturns(g)], o.account);
    steps := [Sync, GoOn(w)] + [Answer(g), ReadReturns(g)];
    NothingEdited(s, steps, o.account);
  }

  // ---------- an old upload hides an edit ----------

  /* A value other than the given one. */
  function Other(v: Option<Value>): Option<Value> { if v.Some? then None else Some(Item("", 0)) }

  /* A binding whose first read is under way, with nothing sent yet. */
  predicate JustBound(s: State, o: Owner, g: nat) {
    && s.page.owner == o && o.account != 0 && s.page.worker.None? && Agrees(Here(s)) && PutsNumbered(s.net)
    && g in s.net.gets && s.net.gets[g].owner == o
  }

  lemma BoundHasRead(s: State, o: Owner)
    requires Plausible(s) && o.account != 0 && o != s.page.owner
    ensures var s' := Bound(s, o);
            && JustBound(s', o, s.net.next) && s'.net.late == s.net.late && s'.net.puts == s.net.puts
            && s'.net.next == s.net.next + 1
            && (forall id | id in s.net.late :: id < s.net.next)
            && (forall id | id in s.net.puts :: id < s.net.next && s.net.puts[id].op.version < s.net.next)
  {
  }

  lemma FrameEditPends(s: State, o: Owner, k: OpKey, v: Option<Value>)
    requires s.page.owner == o && o.account != 0 && Agrees(Here(s))
    ensures var s' := Do(s, FrameEdit(o.account, k, v));
            && s'.page == s.page && k in Here(s').pending && Here(s').pending[k] == Op(v, s.net.next) && Agrees(Here(s'))
            && s'.net == Counted(s.net) && Here(s').order != [] && Here(s').order[0] in Here(s').pending
            && (Here(s).order != [] ==> Here(s').order[0] == Here(s).order[0])
  {
    EditedAgrees(Here(s), o.account, k, v, s.net.next);
  }

  lemma FlushStartsWorker(s: State, o: Owner)
    requires s.page.owner == o && o.account != 0 && s.page.ready && s.page.worker.None? && Agrees(Here(s)) && PutsNumbered(s.net)
    ensures var s' := Flushed(s);
            && Uploads(s', o, s.net.next) && s'.store == s.store && s'.net.next == s.net.next + 1
            && s'.net.puts - {s.net.next} == s.net.puts && s'.net.late == s.net.late
  {
  }

  lemma FirstWorkerStarts(s: State, o: Owner, g: nat)
    requires JustBound(s, o, g)
    ensures var s' := Do(s, ReadFails(g));
            && Uploads(s', o, s.net.next) && s'.store == s.store && s'.net.next == s.net.next + 1
            && s'.net.puts - {s.net.next} == s.net.puts && s'.net.late == s.net.late
  {
    hide Flushed, Uploads, Agrees;
    FlushStartsWorker(Opened(WithoutRead(s, g)), o);
  }

  lemma OldUploadExecuted(s: State, o: Owner, p: nat)
    requires Idle(s, o) && p in s.net.puts && !s.net.puts[p].applied && s.net.puts[p].owner.account == o.account
    ensures var s' := Do(s, Apply(p));
            Idle(s', o) && Lookup(TableOf(s'.servers, o.account), s.net.puts[p].key) == s.net.puts[p].op.value
  {
  }

  /* All that is pending is uploaded; then an older upload is executed, and a read shows it. */
  lemma OldUploadHides(s: State, o: Owner, n: nat, p: nat) returns (steps: seq<Step>)
    requires Uploads(s, o, n) && p in s.net.puts && p != n && !s.net.puts[p].applied && s.net.puts[p].owner.account == o.account
    ensures OneClientRun(o, steps) && Latest(s, steps, o.account) == map[]
    ensures Lookup(DataOf(Run(s, steps).store, o.account).view, s.net.puts[p].key) == s.net.puts[p].op.value
  {
    hide Do, Run, Latest, Idle, Lookup;
    var upload := WorkerUploadsAll(s, o, n);
    var s1 := Run(s, upload);
    NothingEdited(s, upload, o.account);
    RunPush(s, upload, Apply(p));
    var s2 := Do(s1, Apply(p));
    assert s1.net.puts[p] == s.net.puts[p];
    OldUploadExecuted(s1, o, p);
    var read := ReadRound(s2, o, s.net.puts[p].key);
    RunConcat(s, upload + [Apply(p)], read, o.account);
    steps := upload + [Apply(p)] + read;
  }

  /* An upload of an earlier binding that has not been executed, and an edit of its key. */
  lemma OldUploadStays(s: State, o: Owner, p: nat) returns (steps: seq<Step>)
    requires Plausible(s) && o.account != 0 && o != s.page.owner && p in s.net.puts && s.net.puts[p].owner.account == o.account
    requires !s.net.puts[p].applied
    ensures var s' := Run(Bound(s, o), steps);
            JustBound(s', o, s.net.next) && p in s'.net.puts && s'.net.puts[p] == s.net.puts[p]
    ensures OneClientRun(o, steps)
    ensures var latest := Latest(Bound(s, o), steps, o.account);
            s.net.puts[p].key in latest && latest[s.net.puts[p].key] == Other(s.net.puts[p].op.value)
  {
    var e := FrameEdit(o.account, s.net.puts[p].key, Other(s.net.puts[p].op.value));
    BoundHasRead(s, o);
    FrameEditPends(Bound(s, o), o, e.k, e.v);
    RunPush(Bound(s, o), [], e);
    steps := [] + [e];
  }

  /* After this answer the worker of an earlier binding sends the operation that is the oldest now. */
  lemma StaleWorkerGoesOn(s: State, o: Owner, p: nat)
    requires s.page.owner == o && Agrees(Here(s)) && Here(s).order != []
    requires p in s.net.puts && s.net.puts[p].owner == o && s.net.puts[p].applied
    requires s.net.puts[p].key in Here(s).pending && Here(s).pending[s.net.puts[p].key].version != s.net.puts[p].op.version
    ensures var s', k := Do(s, PutReturns(p)), Here(s).order[0];
            && s'.page == s.page && s'.store == s.store && s'.net == Sent(s.net, p, Put(o, k, Here(s).pending[k], false))
  {
  }

  /* An old upload that has been executed, but whose worker believes that it is current, sends the oldest operation, and
     its key is edited again. */
  lemma StaleWorkerSends(s: State, o: Owner, p: nat) returns (steps: seq<Step>)
    requires Plausible(s) && o.account != 0 && o != s.page.owner && p in s.net.puts && s.net.puts[p].owner == o && s.net.puts[p].applied
    ensures var s' := Run(Bound(s, o), steps);
            && JustBound(s', o, s.net.next) && p in s'.net.puts && p < s.net.next
            && !s'.net.puts[p].applied && s'.net.puts[p].owner == o
    ensures OneClientRun(o, steps)
    ensures var put, latest := Run(Bound(s, o), steps).net.puts[p], Latest(Bound(s, o), steps, o.account);
            put.key in latest && latest[put.key] == Other(put.op.value)
  {
    hide Do, Run, Latest, Agrees, Bound, Plausible;
    var k, v := s.net.puts[p].key, Some(Item("", 0));
    var s0 := Bound(s, o);
    BoundHasRead(s, o);
    FrameEditPends(s0, o, k, v);
    var s1 := Do(s0, FrameEdit(o.account, k, v));
    StaleWorkerGoesOn(s1, o, p);
    var s2, h := Do(s1, PutReturns(p)), Here(s1).order[0];
    var y := Other(Here(s1).pending[h].value);
    FrameEditPends(s2, o, h, y);
    RunTwo(s0, FrameEdit(o.account, k, v), PutReturns(p));
    RunPush(s0, [FrameEdit(o.account, k, v), PutReturns(p)], FrameEdit(o.account, h, y));
    steps := [FrameEdit(o.account, k, v), PutReturns(p)] + [FrameEdit(o.account, h, y)];
  }

  /* An upload of an earlier binding can hide an edit, ... */
  lemma OldUploadCanHide(s: State, o: Owner, p: nat) returns (steps: seq<Step>)
    requires Plausible(s) && o.account != 0 && o != s.page.owner && p in s.net.puts && s.net.puts[p].owner.account == o.account
    requires !(s.net.puts[p].applied && s.net.puts[p].owner != o)
    ensures OneClientRun(o, steps)
    ensures !ShowsLatest(Run(Bound(s, o), steps), o.account, Latest(Bound(s, o), steps, o.account))
  {
    hide Plausible, Run, Latest, Bound;
    var s0, g, before := Bound(s, o), s.net.next, [];
    assert p < s.net.next by { BoundHasRead(s, o); }
    if s.net.puts[p].applied { before := StaleWorkerSends(s, o, p); } else { before := OldUploadStays(s, o, p); }
    var s1 := Run(s0, before);
    FirstWorkerStarts(s1, o, g);
    RunPush(s0, before, ReadFails(g));
    var put := s1.net.puts[p];
    var after := OldUploadHides(Do(s1, ReadFails(g)), o, s1.net.next, p);
    RunConcat(s0, before + [ReadFails(g)], after, o.account);
    steps := before + [ReadFails(g)] + after;
    var latest := Latest(s0, steps, o.account);
    assert put.key in latest && latest[put.key] == Other(put.op.value);
  }

  /* Steps of one client and the late arrival of one upload. */
  predicate WithLate(o: Owner, id: nat, steps: seq<Step>) { forall step | step in steps :: OneClient(o, step) || step == ApplyLate(id) }

  lemma LateExecutedShows(s: State, o: Owner, id: nat)
    requires Idle(s, o) && id in s.net.late && s.net.late[id].owner.account == o.account
    ensures var s' := Do(s, ApplyLate(id));
            Idle(s', o) && Lookup(TableOf(s'.servers, o.account), s.net.late[id].key) == s.net.late[id].op.value
  {
  }

  /* All that is pending is uploaded, an older upload arrives late, and a read shows it. */
  lemma LateUploadOvertaken(s: State, o: Owner, n: nat, id: nat) returns (steps: seq<Step>)
    requires Uploads(s, o, n) && id in s.net.late && s.net.late[id].owner.account == o.account
    ensures WithLate(o, id, steps) && Latest(s, steps, o.account) == map[]
    ensures Lookup(DataOf(Run(s, steps).store, o.account).view, s.net.late[id].key) == s.net.late[id].op.value
  {
    hide Do, Run, Latest, Idle, Lookup;
    var k := s.net.late[id].key;
    var upload := WorkerUploadsAll(s, o, n);
    NothingEdited(s, upload, o.account);
    LateExecutedShows(Run(s, upload), o, id);
    RunPush(s, upload, ApplyLate(id));
    var before := upload + [ApplyLate(id)];
    var read := ReadRound(Run(s, before), o, k);
    RunConcat(s, before, read, o.account);
    steps := before + read;
    forall step | step in steps ensures OneClient(o, step) || step == ApplyLate(id) {
      assert step in upload || step == ApplyLate(id) || step in read;
    }
  }

  /* ... and so can one that was reported as failed, and is executed late. */
  lemma {:induction false} LateUploadHides(s: State, o: Owner, id: nat) returns (steps: seq<Step>)
    requires Plausible(s) && o.account != 0 && o != s.page.owner
    requires id in s.net.late && s.net.late[id].owner.account == o.account
    ensures !ShowsLatest(Run(Bound(s, o), steps), o.account, Latest(Bound(s, o), steps, o.account))
    ensures WithLate(o, id, steps)
  {
    hide Do, Run, Latest, Agrees, Bound, Plausible, Lookup;
    var k, y, g := s.net.late[id].key, Other(s.net.late[id].op.value), s.net.next;
    var s0, edit := Bound(s, o), FrameEdit(o.account, k, y);
    BoundHasRead(s, o);
    FrameEditPends(s0, o, k, y);
    RunTwo(s0, edit, ReadFails(g));
    RunPush(s0, [], edit);
    assert [] + [edit] == [edit];
    FirstWorkerStarts(Do(s0, edit), o, g);
    var first := [edit, ReadFails(g)];
    var rest := LateUploadOvertaken(Run(s0, first), o, g + 2, id);
    RunConcat(s0, first, rest, o.account);
    RunPush(s0, [edit], ReadFails(g));
    assert [edit] + [ReadFails(g)] == first;
    steps := first + rest;
    var latest := Latest(s0, steps, o.account);
    assert k in latest && latest[k] == y;
  }

  ghost predicate AlwaysShowsLatest(s: State, o: Owner) {
    forall steps | LateRun(o, s.net.late.Keys, steps) ::
      ShowsLatest(Run(Bound(s, o), steps), o.account, Latest(Bound(s, o), steps, o.account))
  }

  /* Main result: after an account has been bound, a single client shows the latest edit of every key in all runs, in which
     also uploads that failed before may arrive, if and only if no upload of an earlier binding of the account is left. */
  lemma LatestIsShownIff(s: State, o: Owner)
    requires Plausible(s) && o.account != 0 && o != s.page.owner
    ensures NoOldUploads(s, o) && NoLateUploads(s, o) <==> AlwaysShowsLatest(s, o)
  {
    hide Plausible, ShowsLatest, Run, Latest;
    if NoOldUploads(s, o) && NoLateUploads(s, o) {
      forall steps | LateRun(o, s.net.late.Keys, steps)
        ensures ShowsLatest(Run(Bound(s, o), steps), o.account, Latest(Bound(s, o), steps, o.account))
      {
        LatestIsShown(s, o, steps);
      }
    } else if !NoOldUploads(s, o) {
      var p :| p in s.net.puts && s.net.puts[p].owner.account == o.account && !(s.net.puts[p].applied && s.net.puts[p].owner != o);
      var steps := OldUploadCanHide(s, o, p);
      assert LateRun(o, s.net.late.Keys, steps);
    } else {
      var id :| id in s.net.late && s.net.late[id].owner.account == o.account;
      var steps := LateUploadHides(s, o, id);
      assert LateRun(o, s.net.late.Keys, steps);
    }
  }

  /* The worker's upload is reported as failed but may still arrive. */
  lemma UploadFails(s: State, o: Owner, n: nat)
    requires Uploads(s, o, n) && Here(s).order != []
    ensures var s' := Do(Do(s, PutFails(n)), ForgetWorker);
            && s'.net.late == s.net.late[n := s.net.puts[n]] && s'.net.next == s.net.next && s'.store == s.store
            && s'.page == s.page.(worker := None) && PutsNumbered(s'.net)
  {
  }

  /* The message of the frame's edit starts the next worker. */
  lemma MessageStartsWorker(s: State, o: Owner)
    requires s.page.owner == o && o.account != 0 && s.page.ready && s.page.worker.None? && Agrees(Here(s)) && PutsNumbered(s.net)
    ensures var s' := Do(s, FrameMessage(o.account)); Uploads(s', o, s.net.next) && s'.net.late == s.net.late
  {
    hide Flushed, Uploads, Agrees;
    FlushStartsWorker(s.(page := s.page.(revision := s.page.revision + 1)), o);
  }

  /* After every binding there is a run in which an upload of the run itself is reported as failed, arrives late, and hides
     an edit: nothing that could be checked at the binding excludes it. */
  lemma {:induction false} OwnLateUploadHides(s: State, o: Owner) returns (steps: seq<Step>, id: nat)
    requires Plausible(s) && o.account != 0 && o != s.page.owner
    ensures !ShowsLatest(Run(Bound(s, o), steps), o.account, Latest(Bound(s, o), steps, o.account))
    ensures WithLate(o, id, steps) && id !in s.net.late
  {
    hide Plausible, Run, Latest;
    var s0, g, k, v := Bound(s, o), s.net.next, OpKey(Favorites, ""), Some(Item("", 0));
    BoundHasRead(s, o);
    FrameEditPends(s0, o, k, v);
    var s1 := Do(s0, FrameEdit(o.account, k, v));
    FirstWorkerStarts(s1, o, g);
    var s2 := Do(s1, ReadFails(g));
    id := s1.net.next;
    UploadFails(s2, o, id);
    var s3 := Do(Do(s2, PutFails(id)), ForgetWorker);
    var h := Here(s1).order[0];
    var y := Other(Here(s1).pending[h].value);
    FrameEditPends(s3, o, h, y);
    var s4 := Do(s3, FrameEdit(o.account, h, y));
    MessageStartsWorker(s4, o);
    var before := FailingSteps(s0, o, g, id, k, v, h, y);
    var rest := LateUploadOvertaken(Do(s4, FrameMessage(o.account)), o, s4.net.next, id);
    RunConcat(s0, before, rest, o.account);
    steps := before + rest;
    var latest := Latest(s0, steps, o.account);
    assert h in latest && latest[h] == y;
  }

  lemma FailingSteps(s: State, o: Owner, g: nat, id: nat, k: OpKey, v: Option<Value>, h: OpKey, y: Option<Value>)
    returns (steps: seq<Step>)
    ensures Run(s, steps) ==
            Do(Do(Do(Do(Do(Do(s, FrameEdit(o.account, k, v)), ReadFails(g)), PutFails(id)), ForgetWorker),
                  FrameEdit(o.account, h, y)), FrameMessage(o.account))
    ensures OneClientRun(o, steps) && h in Latest(s, steps, o.account) && Latest(s, steps, o.account)[h] == y
  {
    var a := [FrameEdit(o.account, k, v), ReadFails(g)];
    var b := a + [PutFails(id)];
    var c := b + [ForgetWorker];
    var d := c + [FrameEdit(o.account, h, y)];
    RunTwo(s, FrameEdit(o.account, k, v), ReadFails(g));
    RunPush(s, a, PutFails(id));
    RunPush(s, b, ForgetWorker);
    RunPush(s, c, FrameEdit(o.account, h, y));
    RunPush(s, d, FrameMessage(o.account));
    steps := d + [FrameMessage(o.account)];
  }

  lemma {:induction false} RunStaysPlausible(s: State, steps: seq<Step>)
    requires Initial(s)
    ensures Plausible(Run(s, steps))
  {
    if steps != [] {
      var s1 := Run(s, steps[..|steps| - 1]);
      RunStaysPlausible(s, steps[..|steps| - 1]);
      if Enabled(s1, steps[|steps| - 1]) { DoStaysPlausible(s1, steps[|steps| - 1]); }
    }
  }
}
