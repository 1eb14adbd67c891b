/** Notification jobs, the changes a delivery makes to them, and the three job directories. Times are
    milliseconds; zero is Go's zero time. */
module Jobs {
  import opened Bindings
  import opened CanonicalText
  import opened SentState
  import opened Wrappers

  /* File names. Initial jobs have one name per group, chat and topic. */
  datatype Name =
    | InitialName(group: nat, target: Target, topic: Topic)
    | EventName(recordId: nat, group: nat, target: Target, date: string)

  datatype Status = Pending | Sent | Skipped | Failed

  /* What a snapshot freezes: the message parts, how long they are valid, and what identifies their content.
     Not part of the program's state: `wakes` is how often the job's name had been woken when it was read, and `text` the
     text that was read. */
  datatype Body = Body(messages: seq<string>, expiresAt: nat, topic: Topic, version: string, periodId: string,
                       hash: string, content: string, covered: nat, wakes: nat, text: string)

  /* `resetWakes` (not part of the program's state) is how often the name had been woken when the job was last
     created or reset. */
  datatype Job = Job(recordId: nat, group: nat, logicalDate: string, occurredAt: nat, initial: Topic,
                     target: Target, body: Body, nextPart: nat, attempts: nat, nextTry: nat,
                     status: Status, code: Code, sentAt: nat, refreshAt: nat, resetWakes: nat)

  /* The recorded error; NoCode is the empty one. Delivery errors carry the sender's own code. */
  datatype Code =
    | NoCode
    | PeriodExpired | TargetRebound | NotificationDisabled | Ineligible | ContentNotUpdated
    | SettingsReadFailed | SummaryReadFailed | SentStateReadFailed | SendFailed
    | SenderCode(text: string)

  type ErrorCode = code: Code | !code.NoCode? witness SendFailed

  const NO_BODY: Body := Body([], 0, NoTopic, [], [], [], [], 0, 0, [])

  /* The answer of a snapshot query; `parts` is its text split into messages. */
  datatype Snapshot = Snapshot(text: string, parts: seq<string>, expiresAt: nat, topic: Topic, version: string,
                               periodId: string, covered: nat)

  datatype Failure = Failure(code: ErrorCode, retry: bool, retryAfter: nat)

  const MAX_ATTEMPTS: nat := 5
  const FIRST_DELAY: nat := 10_000
  const MAX_RETRY_DELAY: nat := 300_000

  function NewJob(name: Name, occurredAt: nat, wakes: nat): Job {
    match name
    case InitialName(group, target, topic) =>
      Job(0, group, [], occurredAt, topic, target, NO_BODY, 0, 0, 0, Pending, NoCode, 0, 0, wakes)
    case EventName(recordId, group, target, date) =>
      Job(recordId, group, date, occurredAt, NoTopic, target, NO_BODY, 0, 0, 0, Pending, NoCode, 0, 0, wakes)
  }

  function ResetJob(item: Job, now: nat, wakes: nat): Job {
    item.(occurredAt := now, body := NO_BODY, nextPart := 0, attempts := 0, nextTry := 0,
          status := Pending, code := NoCode, sentAt := 0, refreshAt := 0, resetWakes := wakes)
  }

  function InferTopic(text: string): Topic {
    if "每日灵修" <= TrimSpace(text) then Daily
    else if "本周任务" <= TrimSpace(text) then Weekly
    else NoTopic
  }

  /* The body a snapshot freezes. */
  function BodyOf(snapshot: Snapshot, wakes: nat): Body {
    var content := Canonical(snapshot.text);
    Body(snapshot.parts, snapshot.expiresAt,
         if ValidTopic(snapshot.topic) then snapshot.topic else InferTopic(snapshot.text),
         snapshot.version, snapshot.periodId, content, content, snapshot.covered, wakes, snapshot.text)
  }

  function StateFromJob(item: Job): SentState {
    var text := Join(item.body.messages, "\n");
    var topic := if ValidTopic(item.body.topic) then item.body.topic else InferTopic(text);
    var content := if item.body.content == [] then Canonical(text) else item.body.content;
    var hash := if item.body.hash == [] then content else item.body.hash;
    var sentAt := if item.sentAt == 0 then item.occurredAt else item.sentAt;
    SentState(item.group, item.target, topic, item.body.version, item.body.periodId, hash, content, sentAt,
              Max(item.body.covered, item.recordId))
  }

  function Pow2(n: nat): nat { if n == 0 then 1 else 2 * Pow2(n - 1) }

  function RetryDelay(attempts: nat, retryAfter: nat): nat
    requires attempts > 0
  {
    var delay := Max(FIRST_DELAY * Pow2(attempts - 1), retryAfter);
    if delay > MAX_RETRY_DELAY then MAX_RETRY_DELAY else delay
  }

  /* After an attempt failed. `None` is an error without a delivery code. */
  function AfterFailure(item: Job, failure: Option<Failure>, now: nat): Job
    requires item.attempts > 0
  {
    if failure.None? then item.(status := Failed, code := SendFailed)
    else
      var f := failure.value;
      if f.retry && item.attempts < MAX_ATTEMPTS then
        var next := now + RetryDelay(item.attempts, f.retryAfter);
        item.(status := Pending, code := f.code,
              nextTry := if item.body.expiresAt != 0 && next > item.body.expiresAt then item.body.expiresAt else next)
      else item.(status := Failed, code := f.code)
  }

  /* After the next part was acknowledged. */
  function AfterAck(item: Job): Job {
    item.(nextPart := item.nextPart + 1, code := NoCode,
          status := if item.nextPart + 1 == |item.body.messages| then Sent else item.status)
  }

  function Skip(item: Job, code: ErrorCode): Job {
    item.(status := Skipped, code := code)
  }

  /* What finishing an attempt does to the job before it is saved. */
  function Closed(item: Job, now: nat): Job {
    var counted := if item.code == NoCode then item.(attempts := 0) else item;
    if counted.status == Sent && counted.sentAt == 0 then counted.(sentAt := now) else counted
  }

  /** Every retry is at least ten seconds after the attempt unless the message expires first, never more than
      five minutes after it, never after the expiry, and honours Retry-After within those bounds. */
  lemma RetryTimeBounds(item: Job, f: Failure, now: nat)
    requires item.attempts > 0
    requires AfterFailure(item, Some(f), now).status == Pending
    ensures var next := AfterFailure(item, Some(f), now).nextTry;
            && item.attempts <= 4
            && next <= now + MAX_RETRY_DELAY
            && (item.body.expiresAt != 0 ==> next <= item.body.expiresAt)
            && (next < now + FIRST_DELAY || next < now + f.retryAfter ==>
                  next == item.body.expiresAt || next == now + MAX_RETRY_DELAY)
            && (f.retryAfter <= FIRST_DELAY && next != item.body.expiresAt ==>
                  next == now + [10_000, 20_000, 40_000, 80_000][item.attempts - 1])
  {
    assert Pow2(0) == 1 && Pow2(1) == 2 && Pow2(2) == 4 && Pow2(3) == 8 by {
      assert Pow2(2) == 2 * Pow2(1);
      assert Pow2(3) == 2 * Pow2(2);
    }
  }

  // ---------- the job directories ----------

  datatype Dirs = Dirs(pending: map<Name, Job>, completed: map<Name, Job>, failed: map<Name, Job>)

  /* The files of one name, one per directory at most. */
  datatype Files = Files(pending: Option<Job>, completed: Option<Job>, failed: Option<Job>)

  function Find(m: map<Name, Job>, name: Name): Option<Job> {
    if name in m then Some(m[name]) else None
  }

  function Place(m: map<Name, Job>, name: Name, file: Option<Job>): map<Name, Job> {
    if file.Some? then m[name := file.value] else m - {name}
  }

  function Get(d: Dirs, name: Name): Files {
    Files(Find(d.pending, name), Find(d.completed, name), Find(d.failed, name))
  }

  function Put(d: Dirs, name: Name, files: Files): Dirs {
    Dirs(Place(d.pending, name, files.pending), Place(d.completed, name, files.completed), Place(d.failed, name, files.failed))
  }

  lemma GetPut(d: Dirs, name: Name, files: Files, other: Name)
    ensures Get(Put(d, name, files), other) == if other == name then files else Get(d, other)
  {
  }

  predicate Stored(files: Files) {
    files.pending.Some? || files.completed.Some? || files.failed.Some?
  }

  /* The refresh time of the pending file taken over into the job in memory. */
  function Merged(file: Option<Job>, item: Job): Job {
    if item.initial.NoTopic? || file.None? then item
    else item.(refreshAt := Max(file.value.refreshAt, item.refreshAt))
  }

  /* A pending job that is woken notes the time, and is due again. */
  function Noted(item: Job, now: nat): Job {
    if !item.initial.NoTopic? && now > item.refreshAt then
      item.(refreshAt := now, nextTry := if item.status == Pending then 0 else item.nextTry)
    else item
  }

  /* A wake-up of an initial job. `deleted` tells whether the archived file could be deleted. */
  function Woken(files: Files, now: nat, deleted: bool, wakes: nat): Files {
    if files.pending.Some? then files.(pending := Some(Noted(files.pending.value, now)))
    else if files.completed.Some? then
      if files.completed.value.initial.NoTopic? then files
      else files.(pending := Some(ResetJob(files.completed.value, now, wakes)),
                  completed := if deleted then None else files.completed)
    else if files.failed.Some? then
      if files.failed.value.initial.NoTopic? then files
      else files.(pending := Some(ResetJob(files.failed.value, now, wakes)),
                  failed := if deleted then None else files.failed)
    else files
  }

  function Enqueued(files: Files, name: Name, occurredAt: nat, wakes: nat): Files {
    if Stored(files) then files else files.(pending := Some(NewJob(name, occurredAt, wakes)))
  }

  function Written(files: Files, item: Job): Files {
    files.(pending := Some(item))
  }

  /* The pending file moved to the directory its status calls for. */
  function Archived(files: Files, status: Status): Files {
    if status == Failed then files.(pending := None, failed := files.pending)
    else files.(pending := None, completed := files.pending)
  }

  // ---------- the critical sections ----------

  function WithJob(d: Dirs, name: Name, occurredAt: nat, wakes: nat): Dirs {
    Put(d, name, Enqueued(Get(d, name), name, occurredAt, wakes))
  }

  function Rearmed(d: Dirs, name: Name, now: nat, deleted: bool, wakes: nat): Dirs {
    Put(d, name, Woken(Get(d, name), now, deleted, wakes))
  }

  /* An initial job that was woken and has sent nothing starts anew. */
  predicate Refreshes(d: Dirs, name: Name, item: Job) {
    !item.initial.NoTopic? && item.nextPart == 0 && Merged(Find(d.pending, name), item).refreshAt != 0
  }

  predicate RefreshFails(d: Dirs, name: Name, item: Job, ok: bool) { Refreshes(d, name, item) && !ok }

  function RefreshedJob(d: Dirs, name: Name, item: Job, wakes: nat): Job {
    var merged := Merged(Find(d.pending, name), item);
    if item.initial.NoTopic? || item.nextPart != 0 then item
    else if Refreshes(d, name, item) then ResetJob(merged, merged.refreshAt, wakes) else merged
  }

  function Refreshed(d: Dirs, name: Name, item: Job, ok: bool, wakes: nat): Dirs {
    if Refreshes(d, name, item) && ok then Put(d, name, Written(Get(d, name), RefreshedJob(d, name, item, wakes))) else d
  }

  function SavedJob(d: Dirs, name: Name, item: Job, ok: bool): Dirs {
    if ok then Put(d, name, Written(Get(d, name), Merged(Find(d.pending, name), item))) else d
  }

  function Finalized(d: Dirs, name: Name, item: Job, ok: bool, wakes: nat): Dirs {
    var merged := Merged(Find(d.pending, name), item);
    if !ok then d
    else if !item.initial.NoTopic? && merged.refreshAt != 0
    then Put(d, name, Written(Get(d, name), ResetJob(merged, merged.refreshAt, wakes)))
    else Put(d, name, Archived(Get(d, name), item.status))
  }

  /** The directories of one queue. Each method is one critical section; `ok` tells whether its write succeeds. */
  class JobStore {
    var pending: map<Name, Job>
    var completed: map<Name, Job>
    var failed: map<Name, Job>

    constructor ()
      ensures View() == Dirs(map[], map[], map[])
    {
      pending, completed, failed := map[], map[], map[];
    }

    function View(): Dirs
      reads this
    {
      Dirs(pending, completed, failed)
    }

    method Enqueue(name: Name, occurredAt: nat, wakes: nat)
      modifies this
      ensures View() == WithJob(old(View()), name, occurredAt, wakes)
    {
      if name in pending || name in completed || name in failed {
        return;
      }
      pending := pending[name := NewJob(name, occurredAt, wakes)];
    }

    method RearmInitial(name: Name, now: nat, deleted: bool, wakes: nat)
      modifies this
      ensures View() == Rearmed(old(View()), name, now, deleted, wakes)
    {
      hide ResetJob;
      if name in pending {
        var item := pending[name];
        if !item.initial.NoTopic? && now > item.refreshAt {
          item := item.(refreshAt := now);
          if item.status == Pending {
            item := item.(nextTry := 0);
          }
          pending := pending[name := item];
        }
        return;
      }
      if name in completed {
        var item := completed[name];
        if item.initial.NoTopic? {
          return;
        }
        pending := pending[name := ResetJob(item, now, wakes)];
        if deleted {
          completed := completed - {name};
        }
      } else if name in failed {
        var item := failed[name];
        if item.initial.NoTopic? {
          return;
        }
        pending := pending[name := ResetJob(item, now, wakes)];
        if deleted {
          failed := failed - {name};
        }
      }
    }

    method MergeInitialRefresh(name: Name, item: Job) returns (merged: Job)
      ensures merged == Merged(Find(pending, name), item)
    {
      merged := item;
      if item.initial.NoTopic? || name !in pending {
        return;
      }
      if pending[name].refreshAt > item.refreshAt {
        merged := merged.(refreshAt := pending[name].refreshAt);
      }
    }

    method PrepareInitialRefresh(name: Name, item: Job, ok: bool, wakes: nat) returns (prepared: Job, unsaved: bool)
      modifies this
      ensures unsaved <==> RefreshFails(old(View()), name, item, ok)
      ensures prepared == RefreshedJob(old(View()), name, item, wakes)
      ensures View() == Refreshed(old(View()), name, item, ok, wakes)
    {
      prepared, unsaved := item, false;
      if item.initial.NoTopic? || item.nextPart != 0 {
        return;
      }
      prepared := MergeInitialRefresh(name, item);
      if prepared.refreshAt == 0 {
        return;
      }
      prepared := ResetJob(prepared, prepared.refreshAt, wakes);
      if !ok {
        unsaved := true;
        return;
      }
      pending := pending[name := prepared];
    }

    method SaveJob(name: Name, item: Job, ok: bool) returns (saved: Job)
      modifies this
      ensures saved == Merged(Find(old(pending), name), item)
      ensures View() == SavedJob(old(View()), name, item, ok)
    {
      saved := MergeInitialRefresh(name, item);
      if ok {
        pending := pending[name := saved];
      }
    }

    method Finalize(name: Name, item: Job, ok: bool, wakes: nat)
      requires name in pending
      modifies this
      ensures View() == Finalized(old(View()), name, item, ok, wakes)
    {
      var merged := MergeInitialRefresh(name, item);
      if !ok {
        return;
      }
      if !item.initial.NoTopic? && merged.refreshAt != 0 {
        pending := pending[name := ResetJob(merged, merged.refreshAt, wakes)];
        return;
      }
      var file := pending[name];
      pending := pending - {name};
      if item.status == Failed {
        failed := failed[name := file];
      } else {
        completed := completed[name := file];
      }
    }

    method ClearFailed()
      modifies this
      ensures View() == old(View()).(failed := map[])
    {
      var rest := failed.Keys;
      while rest != {}
        invariant rest == failed.Keys
        invariant pending == old(pending) && completed == old(completed)
        decreases |rest|
      {
        var name :| name in rest;
        failed := failed - {name};
        rest := rest - {name};
      }
      assert failed == map[];
    }
  }
}
