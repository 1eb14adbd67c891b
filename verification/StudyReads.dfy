/** A read whose answer is applied was not overtaken: since it was started there was no local edit, no dropped operation, no
    other answer, no message of the player and no change of the account. */
module StudyReads {
  import opened StudyMemory
  import opened Wrappers

  /* The current page's own edits, dropped operations, applied reads, delivered messages of the frame, and bindings. */
  predicate Races(s: State, step: Step) {
    match step
    case Save(_, _) => true
    case Toggle(_, _) => true
    case FrameMessage(_) => true
    case Bind(owner) => owner != s.page.owner
    case ReadReturns(id) => Applies(s, id)
    case PutReturns(id) => id in s.net.puts && Drops(s, s.net.puts[id])
    case _ => false
  }

  /* The revision moves on by one or stays; a read that is under way was so before, unless it has just been started. */
  predicate Counts(s: State, s': State, races: bool) {
    && s'.page.revision == (if races then s.page.revision + 1 else s.page.revision) && s'.net.next >= s.net.next
    && forall id | id in s'.net.gets && id < s.net.next ::
         && id in s.net.gets && s'.net.gets[id].owner == s.net.gets[id].owner
         && s'.net.gets[id].before == s.net.gets[id].before
  }

  lemma FlushedCounts(s: State, s1: State, races: bool)
    requires Counts(s, s1, races)
    ensures Counts(s, Flushed(s1), races)
  {
  }

  lemma ReadsCount(s: State, id: nat)
    requires id in s.net.gets
    ensures s.net.gets[id].answer.Some? ==> Counts(s, ReadDone(s, id), Applies(s, id))
    ensures Counts(s, ReadFailed(s, id), false)
  {
    if s.net.gets[id].answer.Some? {
      assert Counts(s, Opened(Shown(s, id)), Applies(s, id));
      FlushedCounts(s, Opened(Shown(s, id)), Applies(s, id));
    }
    FlushedCounts(s, Opened(WithoutRead(s, id)), false);
  }

  lemma PutReturnsCounts(s: State, id: nat)
    requires id in s.net.puts
    ensures Counts(s, Acknowledged(s, id), Drops(s, s.net.puts[id]))
  {
  }

  lemma UploadsCount(s: State, id: nat)
    ensures id in s.net.puts ==> Counts(s, PutExecuted(s, id), false) && Counts(s, PutFailed(s, id), false)
    ensures id in s.net.late ==> Counts(s, LateExecuted(s, id), false)
    ensures id in s.net.gets ==> Counts(s, Answered(s, id), false)
  {
  }

  /* Racing events move the revision on and nothing else does. */
  lemma RevisionCountsRaces(s: State, step: Step)
    requires !step.Reload? && Enabled(s, step)
    ensures Counts(s, Effect(s, step), Races(s, step))
  {
    match step
    case Save(key, value) => FlushedCounts(s, Stored(s, OpKey(Progress, key), Some(value)), true);
    case Toggle(key, item) =>
      var k := OpKey(Favorites, key);
      FlushedCounts(s, Stored(s, k, Toggled(Here(s), k, item)), true);
    case FrameMessage(_) => FlushedCounts(s, s.(page := s.page.(revision := s.page.revision + 1)), true);
    case Flush => FlushedCounts(s, s, false);
    case ReadReturns(id) => ReadsCount(s, id);
    case ReadFails(id) => ReadsCount(s, id);
    case PutReturns(id) => PutReturnsCounts(s, id);
    case Apply(id) => UploadsCount(s, id);
    case PutFails(id) => UploadsCount(s, id);
    case ApplyLate(id) => UploadsCount(s, id);
    case Answer(id) => UploadsCount(s, id);
    case Sync => FlushedCounts(s, s, false);
    case _ =>
  }

  predicate RacesNow(s: State, step: Step) { Enabled(s, step) && Races(s, step) }

  lemma ReadWasUnderWay(s: State, step: Step, id: nat)
    requires id in Do(s, step).net.gets && id < s.net.next
    ensures id in s.net.gets && Counts(s, Do(s, step), RacesNow(s, step))
  {
    if Enabled(s, step) && !step.Reload? { RevisionCountsRaces(s, step); }
  }

  lemma {:induction false} NumbersGrow(s: State, steps: seq<Step>)
    ensures Run(s, steps).net.next >= s.net.next
  {
    if steps != [] {
      var s1, last := Run(s, steps[..|steps| - 1]), steps[|steps| - 1];
      NumbersGrow(s, steps[..|steps| - 1]);
      if !last.Reload? && Enabled(s1, last) { RevisionCountsRaces(s1, last); }
    }
  }

  lemma {:induction false} NoRaceSince(s: State, steps: seq<Step>, id: nat)
    requires id in s.net.gets && id < s.net.next && s.net.gets[id].before == s.page.revision
    requires id in Run(s, steps).net.gets
    ensures var s' := Run(s, steps);
            && s'.net.gets[id].before == s.page.revision <= s'.page.revision && s'.net.gets[id].owner == s.net.gets[id].owner
            && (s'.page.revision == s.page.revision ==> forall i | 0 <= i < |steps| :: !RacesNow(Run(s, steps[..i]), steps[i]))
  {
    if steps != [] {
      var init, last := steps[..|steps| - 1], steps[|steps| - 1];
      NumbersGrow(s, init);
      ReadWasUnderWay(Run(s, init), last, id);
      NoRaceSince(s, init, id);
      forall i | 0 <= i < |steps| && Run(s, steps).page.revision == s.page.revision
        ensures !RacesNow(Run(s, steps[..i]), steps[i])
      {
        if i < |init| { assert steps[..i] == init[..i] && steps[i] == init[i]; }
      }
    }
  }

  lemma FlushedKeepsGets(s: State)
    ensures Flushed(s).net.gets == s.net.gets
  {
  }

  lemma UploadingKeepsGets(s: State, id: nat)
    ensures id in s.net.puts ==> Acknowledged(s, id).net.gets == s.net.gets
  {
  }

  lemma AnswersKeepGets(s: State, step: Step, id: nat)
    requires id !in s.net.gets && id in Do(s, step).net.gets
    ensures !step.ReadReturns? && !step.ReadFails? && !step.PutReturns? && !step.Answer?
  {
    hide Flushed, Overlaid, Uploading, Updated;
    match step
    case ReadReturns(i) => if Enabled(s, step) { FlushedKeepsGets(Opened(Shown(s, i))); }
    case ReadFails(i) => FlushedKeepsGets(Opened(WithoutRead(s, i)));
    case PutReturns(i) => UploadingKeepsGets(s, i);
    case _ =>
  }

  lemma EditsKeepGets(s: State, step: Step, id: nat)
    requires id !in s.net.gets && id in Do(s, step).net.gets
    ensures !step.Save? && !step.Toggle? && !step.FrameEdit? && !step.FrameMessage? && !step.Flush?
  {
    hide Flushed, Edited, LogEdit;
    match step
    case Save(key, value) => FlushedKeepsGets(Stored(s, OpKey(Progress, key), Some(value)));
    case Toggle(key, item) => FlushedKeepsGets(Stored(s, OpKey(Favorites, key), Toggled(Here(s), OpKey(Favorites, key), item)));
    case FrameMessage(_) => FlushedKeepsGets(s.(page := s.page.(revision := s.page.revision + 1)));
    case Flush => FlushedKeepsGets(s);
    case _ =>
  }

  /* A step that starts a read notes the revision. */
  lemma ReadStarts(s: State, step: Step, id: nat)
    requires id !in s.net.gets && id in Do(s, step).net.gets
    ensures step.Bind? || step.Sync? || step.GoOn?
    ensures var s' := Do(s, step); id < s'.net.next && s'.net.gets[id] == Get(s'.page.owner, s'.page.revision, None)
  {
    hide Flushed, AppliedTo, Unapplied;
    AnswersKeepGets(s, step, id);
    EditsKeepGets(s, step, id);
    FlushedKeepsGets(s);
  }

  /* Main result: a read whose answer is applied was not overtaken, since it was started, by an edit of the page, a
     dropped operation, another applied read, a message of the frame or a change of the account. */
  lemma {:induction false} AppliedReadDidNotRace(s: State, start: Step, steps: seq<Step>, id: nat)
    requires id !in s.net.gets && id in Do(s, start).net.gets
    requires Applies(Run(Do(s, start), steps), id)
    ensures forall i | 0 <= i < |steps| :: !RacesNow(Run(Do(s, start), steps[..i]), steps[i])
    ensures Run(Do(s, start), steps).page.owner == Do(s, start).page.owner
  {
    ReadStarts(s, start, id);
    NoRaceSince(Do(s, start), steps, id);
  }
}
