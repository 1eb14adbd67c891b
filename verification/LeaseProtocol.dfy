/** The lease and version protocol as a step system. */
module LeaseProtocol {
  import opened Bindings
  import opened Wrappers

  /* A step is one critical section, one lock operation, or the start or end of an external send. A run is any sequence of
     steps, so a claim about `Run` is a claim about every interleaving of any number of deliveries with the manager's
     operations. A step that is not enabled leaves the state as it is. */

  /* One delivery. `version` is the version it read, `changesSeen` how often the target had been rebound then. */
  datatype Delivery = Delivery(group: nat, target: Target, version: nat, changesSeen: nat)

  datatype Sender =
    | Idle
    | Ready(d: Delivery)              // version read, no lease
    | Holding(d: Delivery)            // shared lease held, version not rechecked
    | Sending(d: Delivery)            // external call in flight, shared lease held
    | Replied(d: Delivery, muted: bool) // answer received, lease released

  /* The publication of a new book. `changed[..held]` are the targets whose exclusive lease is held. */
  datatype Update =
    | NoUpdate
    | Planned(next: Book)
    | Locking(next: Book, changed: seq<Target>, held: nat)
    | Unlocking(changed: seq<Target>, held: nat)

  datatype State = State(
    stored: Book,                  // the binding store
    published: Book,               // what the queue works from
    versions: map<Target, nat>,
    changes: map<Target, nat>,     // how often each target was rebound; not part of the program's state
    update: Update,                // the manager's mutex is held from Planned to the end of Unlocking
    senders: map<nat, Sender>)

  datatype Step =
    | Assign(target: Target, group: nat, expected: Option<nat>, writable: bool)
    | Plan(order: seq<Target>)
    | LockNext
    | Publish
    | UnlockNext
    | ReadVersion(id: nat, group: nat, target: Target)
    | AcquireLease(id: nat)
    | Recheck(id: nat)
    | EndSend(id: nat, muted: bool)
    | Finish(id: nat, writable: bool)

  function SenderAt(s: State, id: nat): Sender {
    if id in s.senders then s.senders[id] else Idle
  }

  predicate Shared(p: Sender, t: Target) {
    (p.Holding? || p.Sending?) && p.d.target == t
  }

  predicate Exclusive(u: Update, t: Target) {
    match u
    case Locking(_, changed, held) => held <= |changed| && t in changed[..held]
    case Unlocking(changed, held) => held <= |changed| && t in changed[..held]
    case _ => false
  }

  predicate Differs(a: Book, b: Book, t: Target) {
    GroupIn(a, t) != GroupIn(b, t)
  }

  /* The result of a store operation; see BindingStore.Assign. */
  predicate StoreAccepts(book: Book, target: Target, group: nat, expected: Option<nat>) {
    && (if group > 0 then ValidBinding(Binding(target, group)) else target.chatId > 0)
    && (expected.Some? ==>
          expected.value == (if target.chatId in book then book[target.chatId].group else 0))
  }

  /* An order in which the changed targets are visited: each of them once. */
  ghost predicate IsPlan(changed: seq<Target>, before: Book, after: Book) {
    NoDuplicates(changed) && forall t :: t in changed <==> Differs(before, after, t)
  }

  ghost function Do(s: State, step: Step): State {
    match step
    case Assign(target, group, expected, writable) =>
      if s.update.NoUpdate? && writable && StoreAccepts(s.stored, target, group, expected) then
        var next := Assigned(s.stored, target, group);
        s.(stored := next, update := Planned(next))
      else s
    case Plan(order) =>
      if s.update.Planned? && IsPlan(order, s.published, s.update.next) then
        s.(update := Locking(s.update.next, order, 0))
      else s
    case LockNext =>
      if s.update.Locking? && s.update.held < |s.update.changed|
         && (forall id | id in s.senders :: !Shared(s.senders[id], s.update.changed[s.update.held])) then
        s.(update := Locking(s.update.next, s.update.changed, s.update.held + 1))
      else s
    case Publish =>
      if s.update.Locking? && s.update.held == |s.update.changed| then
        var changed := Elements(s.update.changed);
        s.(published := s.update.next,
           versions := Bumped(s.versions, changed),
           changes := map t | t in s.changes.Keys + changed :: VersionIn(s.changes, t) + (if t in changed then 1 else 0),
           update := Unlocking(s.update.changed, |s.update.changed|))
      else s
    case UnlockNext =>
      if s.update.Unlocking? then
        s.(update := if s.update.held == 0 then NoUpdate else Unlocking(s.update.changed, s.update.held - 1))
      else s
    case ReadVersion(id, group, target) =>
      if SenderAt(s, id).Idle? && group > 0 && GroupIn(s.published, target) == group then
        s.(senders := s.senders[id := Ready(Delivery(group, target, VersionIn(s.versions, target), VersionIn(s.changes, target)))])
      else s
    case AcquireLease(id) =>
      var p := SenderAt(s, id);
      if p.Ready? && !Exclusive(s.update, p.d.target) then
        s.(senders := s.senders[id := Holding(p.d)])
      else s
    case Recheck(id) =>
      var p := SenderAt(s, id);
      if p.Holding? then
        s.(senders := s.senders[id := if StillCurrent(s, p.d) then Sending(p.d) else Idle])
      else s
    case EndSend(id, muted) =>
      var p := SenderAt(s, id);
      if p.Sending? then s.(senders := s.senders[id := Replied(p.d, muted)]) else s
    case Finish(id, writable) =>
      var p := SenderAt(s, id);
      if p.Replied? then
        if !p.muted then s.(senders := s.senders[id := Idle])
        else if s.update.NoUpdate? then
          if StillCurrent(s, p.d) && writable then
            var next := Assigned(s.stored, p.d.target, 0);
            s.(senders := s.senders[id := Idle], stored := next, update := Planned(next))
          else s.(senders := s.senders[id := Idle])
        else s
      else s
  }

  /* The check made under the shared lease, and again before a muted chat is unbound. */
  predicate StillCurrent(s: State, d: Delivery) {
    GroupIn(s.published, d.target) == d.group && VersionIn(s.versions, d.target) == d.version
  }

  ghost function Run(s: State, steps: seq<Step>): State {
    if steps == [] then s else Do(Run(s, steps[..|steps| - 1]), steps[|steps| - 1])
  }

  /* A queue started from a stored book: bound targets have version 1. */
  ghost predicate Initial(s: State) {
    && ValidBook(s.stored) && s.published == s.stored && s.update == NoUpdate && s.senders == map[]
    && s.changes == s.versions
    && forall t :: VersionIn(s.versions, t) == if GroupIn(s.stored, t) > 0 then 1 else 0
  }

  // ---------- versions ----------

  // The number of versions a target goes through before they repeat.
  const CYCLE: nat := UINT64_RANGE - 1

  /* The version of a target that was rebound `changes` times. */
  ghost function VersionAfter(changes: nat): nat {
    if changes == 0 then 0 else NextVersion(VersionAfter(changes - 1))
  }

  lemma {:induction false} VersionClosedForm(changes: nat)
    requires changes > 0
    ensures VersionAfter(changes) == 1 + (changes - 1) % CYCLE
  {
    if changes > 1 {
      VersionClosedForm(changes - 1);
      NextInCycle(changes - 2);
    } else {
      assert VersionAfter(1) == NextVersion(VersionAfter(0));
    }
  }

  lemma NextInCycle(n: nat)
    ensures NextVersion(1 + n % CYCLE) == 1 + (n + 1) % CYCLE
  {
    var q, r := n / CYCLE, n % CYCLE;
    if r + 1 == CYCLE {
      assert n + 1 == (q + 1) * CYCLE + 0;
      ModOf(q + 1, 0);
    } else {
      assert n + 1 == q * CYCLE + (r + 1);
      ModOf(q, r + 1);
    }
  }

  lemma ModOf(q: nat, r: nat)
    requires r < CYCLE
    ensures (q * CYCLE + r) % CYCLE == r
  {
  }

  /* Two change counts read as the same version exactly when they differ by whole cycles. */
  lemma SameVersionIff(a: nat, b: nat)
    requires 1 <= a <= b
    ensures VersionAfter(a) == VersionAfter(b) <==> (b - a) % CYCLE == 0
  {
    VersionClosedForm(a);
    VersionClosedForm(b);
    var qa, ra := (a - 1) / CYCLE, (a - 1) % CYCLE;
    var qb, rb := (b - 1) / CYCLE, (b - 1) % CYCLE;
    assert b - a == (qb - qa) * CYCLE + (rb - ra);
    assert qb >= qa;
    if rb >= ra {
      ModOf(qb - qa, rb - ra);
    } else {
      assert b - a == (qb - qa - 1) * CYCLE + (CYCLE + rb - ra);
      assert qb - qa >= 1;
      ModOf(qb - qa - 1, CYCLE + rb - ra);
    }
  }

  // ---------- the invariant ----------

  /* What a delivery remembers is consistent with how often its target has been rebound since. */
  ghost predicate Remembers(s: State, d: Delivery) {
    && d.group > 0
    && 1 <= d.changesSeen <= VersionIn(s.changes, d.target)
    && d.version == VersionAfter(d.changesSeen)
    && (d.changesSeen == VersionIn(s.changes, d.target) ==> GroupIn(s.published, d.target) == d.group)
  }

  ghost predicate UpdateValid(s: State) {
    match s.update
    case NoUpdate => s.stored == s.published
    case Planned(next) => s.stored == next
    case Locking(next, changed, held) => s.stored == next && IsPlan(changed, s.published, next) && held <= |changed|
    case Unlocking(changed, held) => s.stored == s.published && held <= |changed|
  }

  ghost predicate VersionsValid(s: State) {
    forall t :: VersionIn(s.versions, t) == VersionAfter(VersionIn(s.changes, t))
                && (GroupIn(s.published, t) > 0 ==> VersionIn(s.changes, t) >= 1)
  }

  ghost predicate SenderValid(s: State, p: Sender) {
    && (!p.Idle? ==> Remembers(s, p.d))
    && (p.Sending? ==> StillCurrent(s, p.d))
    && (p.Holding? || p.Sending? ==> !Exclusive(s.update, p.d.target))
  }

  ghost predicate Inv(s: State) {
    && ValidBook(s.stored) && ValidBook(s.published)
    && UpdateValid(s)
    && VersionsValid(s)
    && forall id | id in s.senders :: SenderValid(s, s.senders[id])
  }

  lemma InitialInv(s: State)
    requires Initial(s)
    ensures Inv(s)
  {
  }

  /* Publication changes the version of the changed targets only, and only they change group. */
  lemma PublishEffect(s: State, t: Target)
    requires Inv(s) && s.update.Locking? && s.update.held == |s.update.changed|
    ensures var s' := Do(s, Publish);
            if t in s.update.changed then
              && GroupIn(s'.published, t) != GroupIn(s.published, t)
              && VersionIn(s'.versions, t) == NextVersion(VersionIn(s.versions, t))
              && VersionIn(s'.changes, t) == VersionIn(s.changes, t) + 1
            else
              && GroupIn(s'.published, t) == GroupIn(s.published, t)
              && VersionIn(s'.versions, t) == VersionIn(s.versions, t)
              && VersionIn(s'.changes, t) == VersionIn(s.changes, t)
  {
  }

  lemma PublishKeepsVersions(s: State)
    requires Inv(s) && s.update.Locking? && s.update.held == |s.update.changed|
    ensures VersionsValid(Do(s, Publish))
  {
    var s' := Do(s, Publish);
    forall t ensures VersionIn(s'.versions, t) == VersionAfter(VersionIn(s'.changes, t))
                     && (GroupIn(s'.published, t) > 0 ==> VersionIn(s'.changes, t) >= 1) {
      PublishEffect(s, t);
    }
  }

  lemma PublishKeepsSender(s: State, id: nat)
    requires Inv(s) && s.update.Locking? && s.update.held == |s.update.changed|
    requires id in s.senders
    ensures id in Do(s, Publish).senders && SenderValid(Do(s, Publish), Do(s, Publish).senders[id])
  {
    assert s.update.changed[..|s.update.changed|] == s.update.changed;
    assert SenderValid(s, s.senders[id]);
    if !s.senders[id].Idle? { PublishEffect(s, s.senders[id].d.target); }
  }

  lemma PublishKeepsInv(s: State)
    requires Inv(s) && s.update.Locking? && s.update.held == |s.update.changed|
    ensures Inv(Do(s, Publish))
  {
    hide SenderValid, VersionsValid;
    PublishKeepsVersions(s);
    forall id | id in s.senders ensures SenderValid(Do(s, Publish), Do(s, Publish).senders[id]) { PublishKeepsSender(s, id); }
  }

  lemma LockKeepsInv(s: State)
    requires Inv(s)
    ensures Inv(Do(s, LockNext))
  {
    if Do(s, LockNext) != s {
      var changed, held := s.update.changed, s.update.held;
      assert changed[..held + 1] == changed[..held] + [changed[held]];
      forall id | id in s.senders ensures SenderValid(Do(s, LockNext), s.senders[id]) {
        assert SenderValid(s, s.senders[id]) && !Shared(s.senders[id], changed[held]);
      }
    }
  }

  lemma UnlockKeepsInv(s: State)
    requires Inv(s)
    ensures Inv(Do(s, UnlockNext))
  {
    if s.update.Unlocking? && s.update.held > 0 {
      var changed, held := s.update.changed, s.update.held;
      assert changed[..held] == changed[..held - 1] + [changed[held - 1]];
    }
  }

  /* A step of one delivery, and the start of an update, leave everything else as it is. */
  lemma SenderStepKeepsInv(s: State, id: nat, p: Sender)
    requires Inv(s) && SenderValid(s, p)
    ensures Inv(s.(senders := s.senders[id := p]))
  {
  }

  lemma StartUpdateKeepsInv(s: State, next: Book)
    requires Inv(s) && s.update.NoUpdate? && ValidBook(next)
    ensures Inv(s.(stored := next, update := Planned(next)))
  {
    var s' := s.(stored := next, update := Planned(next));
    forall id | id in s.senders ensures SenderValid(s', s.senders[id]) {
      assert SenderValid(s, s.senders[id]);
    }
  }

  lemma PlanKeepsInv(s: State, order: seq<Target>)
    requires Inv(s)
    ensures Inv(Do(s, Plan(order)))
  {
    forall id | id in s.senders ensures SenderValid(Do(s, Plan(order)), s.senders[id]) {
      assert SenderValid(s, s.senders[id]);
    }
  }

  lemma SenderStepsKeepInv(s: State, step: Step)
    requires Inv(s)
    requires step.ReadVersion? || step.AcquireLease? || step.Recheck? || step.EndSend?
    ensures Inv(Do(s, step))
  {
    var p := SenderAt(s, step.id);
    assert SenderValid(s, p);
    if Do(s, step) != s {
      SenderStepKeepsInv(s, step.id, SenderAt(Do(s, step), step.id));
    }
  }

  lemma FinishKeepsInv(s: State, id: nat, writable: bool)
    requires Inv(s)
    ensures Inv(Do(s, Finish(id, writable)))
  {
    var p := SenderAt(s, id);
    assert SenderValid(s, p);
    if Do(s, Finish(id, writable)) != s {
      SenderStepKeepsInv(s, id, Idle);
      if p.muted && StillCurrent(s, p.d) && writable {
        var next := Assigned(s.stored, p.d.target, 0);
        AssignedKeepsValid(s.stored, p.d.target, 0);
        StartUpdateKeepsInv(s.(senders := s.senders[id := Idle]), next);
      }
    }
  }

  lemma DoKeepsInv(s: State, step: Step)
    requires Inv(s)
    ensures Inv(Do(s, step))
  {
    match step {
      case Assign(target, group, expected, writable) =>
        if Do(s, step) != s {
          AssignedKeepsValid(s.stored, target, group);
          StartUpdateKeepsInv(s, Assigned(s.stored, target, group));
        }
      case Plan(order) => PlanKeepsInv(s, order);
      case Publish =>
        if s.update.Locking? && s.update.held == |s.update.changed| { PublishKeepsInv(s); }
      case LockNext => LockKeepsInv(s);
      case UnlockNext => UnlockKeepsInv(s);
      case Finish(id, writable) => FinishKeepsInv(s, id, writable);
      case _ => SenderStepsKeepInv(s, step);
    }
  }

  /** Every run keeps the invariant. */
  lemma {:induction false} RunKeepsInv(s: State, steps: seq<Step>)
    requires Inv(s)
    ensures Inv(Run(s, steps))
  {
    if steps != [] {
      RunKeepsInv(s, steps[..|steps| - 1]);
      DoKeepsInv(Run(s, steps[..|steps| - 1]), steps[|steps| - 1]);
    }
  }

  // ---------- what the protocol promises ----------

  ghost predicate Reachable(s: State, start: State, steps: seq<Step>) {
    Initial(start) && s == Run(start, steps)
  }

  lemma ReachableInv(s: State, start: State, steps: seq<Step>)
    requires Reachable(s, start, steps)
    ensures Inv(s)
  {
    InitialInv(start);
    RunKeepsInv(start, steps);
  }

  /** In every reachable state, a message in flight goes to a target whose published group and version are the
      ones the delivery started from; so at the moment a new book is published no message is in flight to any
      target whose group that book changes. */
  lemma InFlightIsCurrent(s: State, start: State, steps: seq<Step>, id: nat)
    requires Reachable(s, start, steps)
    requires SenderAt(s, id).Sending?
    ensures StillCurrent(s, SenderAt(s, id).d)
    ensures var s' := Do(s, Publish);
            s' != s ==> !Differs(s.published, s'.published, SenderAt(s, id).d.target)
                        && StillCurrent(s', SenderAt(s, id).d)
  {
    ReachableInv(s, start, steps);
    assert SenderValid(s, s.senders[id]);
    if Do(s, Publish) != s {
      PublishKeepsInv(s);
      assert SenderValid(Do(s, Publish), s.senders[id]);
    }
  }

  lemma CurrentIff(s: State, d: Delivery)
    requires Inv(s) && Remembers(s, d)
    ensures StillCurrent(s, d) <==>
            GroupIn(s.published, d.target) == d.group && (VersionIn(s.changes, d.target) - d.changesSeen) % CYCLE == 0
    ensures VersionIn(s.changes, d.target) - d.changesSeen < CYCLE ==>
              (StillCurrent(s, d) <==> VersionIn(s.changes, d.target) == d.changesSeen)
  {
    SameVersionIff(d.changesSeen, VersionIn(s.changes, d.target));
  }

  /** A delivery starts its send exactly when its group still has the target and the target was rebound a whole
      number of version cycles since the version was read: short of 2^64-1 rebindings, exactly when it was not
      rebound at all. Rebinding to another group and back cancels the send. */
  lemma SendStartsIff(s: State, start: State, steps: seq<Step>, id: nat)
    requires Reachable(s, start, steps)
    requires SenderAt(s, id).Holding?
    ensures var d := SenderAt(s, id).d;
            var rebound := VersionIn(s.changes, d.target) - d.changesSeen;
            && (SenderAt(Do(s, Recheck(id)), id).Sending? <==>
                  GroupIn(s.published, d.target) == d.group && rebound % CYCLE == 0)
            && (rebound < CYCLE ==> (SenderAt(Do(s, Recheck(id)), id).Sending? <==> rebound == 0))
            && (!SenderAt(Do(s, Recheck(id)), id).Sending? ==> SenderAt(Do(s, Recheck(id)), id) == Idle)
  {
    ReachableInv(s, start, steps);
    assert SenderValid(s, s.senders[id]);
    CurrentIff(s, s.senders[id].d);
  }

  /** A muted reply removes its own binding exactly when the target was not rebound since the version was read
      (short of 2^64-1 rebindings), and in every case it removes nothing else. */
  lemma MutedReplyUnbindsIff(s: State, start: State, steps: seq<Step>, id: nat)
    requires Reachable(s, start, steps)
    requires SenderAt(s, id).Replied? && SenderAt(s, id).muted && s.update.NoUpdate?
    ensures var d := SenderAt(s, id).d;
            var s' := Do(s, Finish(id, true));
            var rebound := VersionIn(s.changes, d.target) - d.changesSeen;
            && (s'.stored != s.stored <==> GroupIn(s.stored, d.target) == d.group && rebound % CYCLE == 0)
            && (rebound < CYCLE ==> (s'.stored != s.stored <==> rebound == 0))
            && (s'.stored != s.stored ==>
                  && d.target.chatId in s.stored && s.stored[d.target.chatId] == Binding(d.target, d.group)
                  && s'.stored == s.stored - {d.target.chatId} && s'.update == Planned(s'.stored))
  {
    ReachableInv(s, start, steps);
    assert SenderValid(s, s.senders[id]);
    CurrentIff(s, s.senders[id].d);
  }

  /** A reply that is not a muted one ends its delivery and changes nothing else. */
  lemma UnmutedReplyOnlyEnds(s: State, id: nat, writable: bool)
    requires SenderAt(s, id).Replied? && !SenderAt(s, id).muted
    ensures var s' := Do(s, Finish(id, writable));
            && SenderAt(s', id).Idle? && s'.stored == s.stored && s'.published == s.published && s'.versions == s.versions
            && s'.update == s.update && forall other | other != id :: SenderAt(s', other) == SenderAt(s, other)
  {
  }

  /** An assignment takes exactly if no update is in progress, it can be written, the binding is valid and the expected
      group is that of the chat; then the target has the new group, no other target of its chat has one, all other chats
      keep theirs, and an update to the new book has begun. */
  lemma AssignTakesIff(s: State, target: Target, group: nat, expected: Option<nat>, writable: bool)
    ensures var s' := Do(s, Assign(target, group, expected, writable));
            var takes := s.update.NoUpdate? && writable && target.chatId > 0
                         && (group > 0 ==> target.chatType == 2 || target.chatType == 3)
                         && (expected.Some? ==>
                               expected.value == if target.chatId in s.stored then s.stored[target.chatId].group else 0);
            if takes then
              && s'.update == Planned(s'.stored) && GroupIn(s'.stored, target) == group
              && (forall t: Target | t.chatId == target.chatId && t != target :: GroupIn(s'.stored, t) == 0)
              && (forall t: Target | t.chatId != target.chatId :: GroupIn(s'.stored, t) == GroupIn(s.stored, t))
              && s'.published == s.published && s'.versions == s.versions && s'.senders == s.senders
            else s' == s
  {
  }

  /** Between updates the queue works from what is stored. */
  lemma SettledIsPublished(s: State, start: State, steps: seq<Step>)
    requires Reachable(s, start, steps) && s.update.NoUpdate?
    ensures s.published == s.stored
  {
    ReachableInv(s, start, steps);
  }

  /* A step of the delivery's own. */
  predicate IsOwnStep(step: Step, id: nat) {
    match step
    case AcquireLease(n) => n == id
    case Recheck(n) => n == id
    case EndSend(n, _) => n == id
    case Finish(n, writable) => n == id && writable
    case _ => false
  }

  /** A delivery can always go on, or waits for an update: for the lease that the update holds exclusively, or, with a muted
      reply, for the update to end. */
  lemma DeliveryNeverStuck(s: State, id: nat)
    requires !SenderAt(s, id).Idle?
    ensures (exists step :: IsOwnStep(step, id) && Do(s, step) != s) <==>
            !(SenderAt(s, id).Ready? && Exclusive(s.update, SenderAt(s, id).d.target))
            && !(SenderAt(s, id).Replied? && SenderAt(s, id).muted && !s.update.NoUpdate?)
    ensures SenderAt(s, id).Ready? ==>
              (SenderAt(Do(s, AcquireLease(id)), id) == Holding(SenderAt(s, id).d) <==> !Exclusive(s.update, SenderAt(s, id).d.target))
  {
    match SenderAt(s, id)
    case Ready(d) =>
      if !Exclusive(s.update, d.target) { assert IsOwnStep(AcquireLease(id), id) && SenderAt(Do(s, AcquireLease(id)), id).Holding?; }
    case Holding(d) => assert IsOwnStep(Recheck(id), id) && !SenderAt(Do(s, Recheck(id)), id).Holding?;
    case Sending(d) => assert IsOwnStep(EndSend(id, false), id) && SenderAt(Do(s, EndSend(id, false)), id).Replied?;
    case Replied(d, muted) =>
      if !muted || s.update.NoUpdate? { assert IsOwnStep(Finish(id, true), id) && SenderAt(Do(s, Finish(id, true)), id).Idle?; }
  }

  predicate IsUpdateStep(step: Step) {
    step.Plan? || step.LockNext? || step.Publish? || step.UnlockNext?
  }

  predicate BlocksUpdate(s: State, id: nat) {
    id in s.senders && s.update.Locking? && s.update.held < |s.update.changed|
    && Shared(s.senders[id], s.update.changed[s.update.held])
  }

  /* The next step of an update that is taking its leases, or the delivery it waits for. */
  lemma LockingCanGoOn(s: State)
    requires Inv(s) && s.update.Locking?
    ensures (exists step :: IsUpdateStep(step) && Do(s, step) != s)
         || (exists id :: BlocksUpdate(s, id) && (Do(s, Recheck(id)) != s || Do(s, EndSend(id, false)) != s))
  {
    var changed, held := s.update.changed, s.update.held;
    if held == |changed| {
      assert IsUpdateStep(Publish) && Do(s, Publish).update.Unlocking?;
    } else if id :| id in s.senders && Shared(s.senders[id], changed[held]) {
      assert BlocksUpdate(s, id);
      assert s.senders[id].Holding? ==> !SenderAt(Do(s, Recheck(id)), id).Holding?;
      assert s.senders[id].Sending? ==> !SenderAt(Do(s, EndSend(id, false)), id).Sending?;
    } else {
      assert IsUpdateStep(LockNext) && Do(s, LockNext).update.held == held + 1;
    }
  }

  /** No deadlock: an update in progress can take a step, or the next lease it needs is held by a delivery that
      can take a step on its own. */
  lemma UpdateNeverStuck(s: State, start: State, steps: seq<Step>)
    requires Reachable(s, start, steps)
    requires !s.update.NoUpdate?
    ensures (exists step :: IsUpdateStep(step) && Do(s, step) != s)
         || (exists id :: BlocksUpdate(s, id) && (Do(s, Recheck(id)) != s || Do(s, EndSend(id, false)) != s))
  {
    ReachableInv(s, start, steps);
    match s.update {
      case Planned(next) =>
        var order := PlanExists(s.published, next);
        assert IsUpdateStep(Plan(order)) && Do(s, Plan(order)) != s;
      case Locking(_, _, _) => LockingCanGoOn(s);
      case Unlocking(_, _) => assert IsUpdateStep(UnlockNext) && Do(s, UnlockNext) != s;
    }
  }

  lemma PlanExists(a: Book, b: Book) returns (order: seq<Target>)
    requires ValidBook(a) && ValidBook(b)
    ensures IsPlan(order, a, b)
  {
    var rest := set chat | chat in a :: a[chat].target;
    rest := rest + set chat | chat in b :: b[chat].target;
    order := [];
    ghost var all := rest;
    while rest != {}
      invariant rest <= all && NoDuplicates(order)
      invariant forall t :: t in order <==> t in all && t !in rest && Differs(a, b, t)
      decreases |rest|
    {
      var t :| t in rest;
      if Differs(a, b, t) {
        order := order + [t];
      }
      rest := rest - {t};
    }
    forall t | Differs(a, b, t) ensures t in all {
      if GroupIn(a, t) > 0 {
        assert a[t.chatId].target == t;
      } else {
        assert b[t.chatId].target == t;
      }
    }
  }
}
