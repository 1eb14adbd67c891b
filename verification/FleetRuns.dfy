/** Which robots run. */
module FleetRuns {
  import opened Fleet
  import opened Wrappers

  predicate RunsIn(s: State, id: Id) { id in s.robots && s.robots[id].running }

  // ---------- one step ----------

  /* Starting some robots. */
  lemma {:induction false} StartedAllIff(s: State, ids: seq<Id>, id: Id)
    ensures var s' := StartedAll(s, ids);
            && s'.robots.Keys == s.robots.Keys && s'.active == s.active
            && (id in s.robots ==>
                  s'.robots[id] == s.robots[id].(running := s.robots[id].running || (s.active && id in ids && !s.robots[id].removing)))
  {
    if ids != [] {
      StartedAllIff(s, ids[..|ids| - 1], id);
      StartedAllIff(s, ids[..|ids| - 1], ids[|ids| - 1]);
      assert ids == ids[..|ids| - 1] + [ids[|ids| - 1]];
    }
  }

  lemma StartedByRun(s: State, id: Id)
    requires Inv(s)
    ensures var s' := StartedAll(s.(active := true), s.order);
            s'.active && (RunsIn(s', id) <==> id in s.robots && (s.robots[id].running || !s.robots[id].removing))
  {
    hide LiveOwned, Named, TokensDistinct, RegisteredMatch, Ascends, StartedAll;
    StartedAllIff(s.(active := true), s.order, id);
  }

  lemma StartedByRegistration(s: State, c: Config, saving: Saving, id: Id)
    requires Inv(s)
    ensures var s' := Registered(s, c, saving);
            s'.active == s.active
            && (RunsIn(s', id) <==> RunsIn(s, id) || (Succeeds(s, Step.Register(c, saving)) && s.active && c.id == id))
  {
    hide TokenTaken, InsertId, Inv;
  }

  lemma StartedByRemoval(s: State, gone: Id, saving: Saving, id: Id)
    ensures RunsIn(RemovalBegun(s, gone, saving), id) <==> RunsIn(s, id)
    ensures RunsIn(RemovalFinished(s, gone), id) <==>
            RunsIn(s, id) && !(gone == id && s.robots[id].removing && s.robots[id].number !in s.live)
    ensures RemovalBegun(s, gone, saving).active == RemovalFinished(s, gone).active == s.active
  {
    hide WithoutId;
  }

  /* Main result: a step starts exactly the robots that are known when a run begins and are not being removed, and the one
     that is registered during a run; only a finished removal ends that. */
  lemma RunsAfterIff(s: State, step: Step, id: Id)
    requires Inv(s)
    ensures RunsIn(Do(s, step), id) <==>
            match step
            case Run => id in s.robots && (s.robots[id].running || !s.robots[id].removing)
            case Register(c, saving) => RunsIn(s, id) || (Succeeds(s, step) && s.active && c.id == id)
            case FinishRemove(gone) => RunsIn(s, id) && !(gone == id && s.robots[id].removing && s.robots[id].number !in s.live)
            case _ => RunsIn(s, id)
    ensures Do(s, step).active <==> step.Run? || (s.active && !step.RunEnds?)
  {
    hide Inv, Registered, RemovalBegun, RemovalFinished, StartedAll, Succeeds;
    match step
    case Run => StartedByRun(s, id);
    case Register(c, saving) => StartedByRegistration(s, c, saving, id);
    case BeginRemove(gone, saving) => StartedByRemoval(s, gone, saving, id);
    case FinishRemove(gone) => StartedByRemoval(s, gone, SaveOk, id);
    case _ =>
  }

  lemma KnownByRegistration(s: State, c: Config, saving: Saving, id: Id)
    ensures var s' := Registered(s, c, saving);
            && (id in s'.robots <==> id in s.robots || (c.id == id && Succeeds(s, Step.Register(c, saving))))
            && (id in s'.robots ==> (s'.robots[id].removing <==> id in s.robots && s.robots[id].removing))
  {
    hide TokenTaken, InsertId;
  }

  lemma KnownByRemoval(s: State, gone: Id, saving: Saving, id: Id)
    ensures var s' := RemovalBegun(s, gone, saving);
            && (id in s'.robots <==> id in s.robots)
            && (id in s'.robots ==>
                  (s'.robots[id].removing <==> s.robots[id].removing || (gone == id && Succeeds(s, BeginRemove(gone, saving)))))
  {
  }

  lemma KnownAfterRemoval(s: State, gone: Id, id: Id)
    ensures var s' := RemovalFinished(s, gone);
            && (id in s'.robots <==>
                  id in s.robots && !(gone == id && s.robots[id].removing && s.robots[id].number !in s.live))
            && (id in s'.robots ==> s'.robots[id].removing == s.robots[id].removing)
  {
    hide WithoutId;
  }

  /* The robots the fleet knows, and which of them are being removed. */
  lemma KnownAfterIff(s: State, step: Step, id: Id)
    ensures id in Do(s, step).robots <==>
            (id in s.robots && !(step == FinishRemove(id) && s.robots[id].removing && s.robots[id].number !in s.live))
            || (step.Register? && step.config.id == id && Succeeds(s, step))
    ensures id in Do(s, step).robots ==>
              (Do(s, step).robots[id].removing <==>
               id in s.robots && (s.robots[id].removing || (step.BeginRemove? && step.id == id && Succeeds(s, step))))
  {
    hide Registered, RemovalBegun, RemovalFinished, StartedAll, Succeeds;
    match step
    case Run => StartedAllIff(s.(active := true), s.order, id);
    case Register(c, saving) => KnownByRegistration(s, c, saving, id);
    case BeginRemove(gone, saving) => KnownByRemoval(s, gone, saving, id);
    case FinishRemove(gone) => KnownAfterRemoval(s, gone, id);
    case _ =>
  }

  /* The robot was started just now. */
  predicate StartsNow(s: State, s': State, id: Id) { RunsIn(s', id) && !RunsIn(s, id) }

  predicate IsNewWorker(s: State, s': State, id: Id, w: nat) { StartsNow(s, s', id) && s'.robots[id].number == w }

  lemma StartedWorkers(s: State, id: Id, w: nat)
    ensures w in Started(s, id).live <==> w in s.live || IsNewWorker(s, Started(s, id), id, w)
  {
  }

  lemma StartedOthers(s: State, id: Id, other: Id)
    requires other != id
    ensures other in Started(s, id).robots <==> other in s.robots
    ensures other in s.robots ==> Started(s, id).robots[other] == s.robots[other]
  {
  }

  lemma {:induction false} StartedAllWorkers(s: State, ids: seq<Id>, w: nat)
    ensures w in StartedAll(s, ids).live <==> w in s.live || exists id :: IsNewWorker(s, StartedAll(s, ids), id, w)
  {
    if ids != [] {
      var s1, last := StartedAll(s, ids[..|ids| - 1]), ids[|ids| - 1];
      var s' := Started(s1, last);
      StartedAllWorkers(s, ids[..|ids| - 1], w);
      StartedWorkers(s1, last, w);
      forall id ensures IsNewWorker(s, s', id, w) <==> IsNewWorker(s, s1, id, w) || (id == last && IsNewWorker(s1, s', id, w)) {
        StartedAllIff(s, ids[..|ids| - 1], id);
        StartedAllIff(s, ids, id);
        if id != last { StartedOthers(s1, last, id); }
      }
    }
  }

  /* Main result: the live workers after a step are those before it but the one that has ended, and one for each robot that
     was started. */
  lemma LiveAfterIff(s: State, step: Step, w: nat)
    requires Inv(s)
    ensures w in Do(s, step).live <==>
            (w in s.live && step != WorkerEnds(w)) || exists id :: IsNewWorker(s, Do(s, step), id, w)
  {
    hide TokenTaken, InsertId, WithoutId, TokensDistinct, RegisteredMatch, Ascends, StartedAll;
    match step
    case Run => RunStarts(s, w);
    case Register(c, saving) => RegistrationStarts(s, c, saving, w);
    case _ =>
  }

  lemma RunStarts(s: State, w: nat)
    ensures w in Do(s, Step.Run).live <==> w in s.live || exists id :: IsNewWorker(s, Do(s, Step.Run), id, w)
  {
    hide StartedAll;
    var s1, s' := s.(active := true), StartedAll(s.(active := true), s.order);
    StartedAllWorkers(s1, s.order, w);
    assert forall id :: IsNewWorker(s1, s', id, w) <==> IsNewWorker(s, s', id, w);
  }

  lemma RegistrationStarts(s: State, c: Config, saving: Saving, w: nat)
    ensures var s' := Do(s, Step.Register(c, saving));
            w in s'.live <==> w in s.live || exists id :: IsNewWorker(s, s', id, w)
  {
    hide TokenTaken, InsertId;
    var s' := Do(s, Step.Register(c, saving));
    if Succeeds(s, Step.Register(c, saving)) {
      assert w in s'.live <==> w in s.live || IsNewWorker(s, s', c.id, w);
      assert forall id | id != c.id :: !IsNewWorker(s, s', id, w);
    } else {
      assert forall id :: !IsNewWorker(s, s', id, w);
    }
  }

  // ---------- runs ----------

  predicate AllRun(s: State) { s.active ==> forall id | id in s.robots && !s.robots[id].removing :: s.robots[id].running }

  /* Main result: at every moment of a run of the fleet, every robot that is not being removed has been started. */
  lemma {:induction false} AllStarted(s: State, configured: seq<Config>, stored: seq<Config>, steps: seq<Step>)
    requires Merge(configured, stored).Some? && IsStart(s, Merge(configured, stored).value) && !s.active
    ensures AllRun(Exec(s, steps))
  {
    hide Do, IsStart, Inv, Merge, Succeeds;
    if steps == [] {
      NotActive(s);
    } else {
      var s1, last := Exec(s, steps[..|steps| - 1]), steps[|steps| - 1];
      AllStarted(s, configured, stored, steps[..|steps| - 1]);
      StartHasInv(s, configured, stored);
      ExecKeepsInv(s, steps[..|steps| - 1]);
      forall id | Do(s1, last).active && id in Do(s1, last).robots && !Do(s1, last).robots[id].removing
        ensures Do(s1, last).robots[id].running
      {
        RunsAfterIff(s1, last, id);
        KnownAfterIff(s1, last, id);
      }
    }
  }

  lemma NotActive(s: State)
    requires !s.active
    ensures AllRun(s)
  {
  }

  /* Before the first run of the fleet nothing runs, whatever is registered and removed. */
  lemma {:induction false} NothingRunsBefore(s: State, configured: seq<Config>, stored: seq<Config>, steps: seq<Step>)
    requires Merge(configured, stored).Some? && IsStart(s, Merge(configured, stored).value) && !s.active
    requires forall i | 0 <= i < |steps| :: !steps[i].Run?
    ensures Exec(s, steps).live == map[] && !Exec(s, steps).active && forall id :: !RunsIn(Exec(s, steps), id)
  {
    hide Do, Inv, Merge, Succeeds;
    if steps != [] {
      var s1, last := Exec(s, steps[..|steps| - 1]), steps[|steps| - 1];
      NothingRunsBefore(s, configured, stored, steps[..|steps| - 1]);
      StartHasInv(s, configured, stored);
      ExecKeepsInv(s, steps[..|steps| - 1]);
      forall id ensures !RunsIn(Do(s1, last), id) { RunsAfterIff(s1, last, id); }
      forall w ensures w !in Do(s1, last).live { LiveAfterIff(s1, last, w); }
      RunsAfterIff(s1, last, DEFAULT_ID);
    }
  }

  /* The worker of this number has ended, or was never started, and belongs to no robot that may be started. */
  predicate Gone(s: State, w: nat) {
    w < s.next && w !in s.live && forall id | id in s.robots && s.robots[id].number == w :: s.robots[id].removing
  }

  lemma GoneStays(s: State, step: Step, w: nat)
    requires Inv(s) && Gone(s, w)
    ensures Gone(Do(s, step), w)
  {
    hide TokenTaken, InsertId, WithoutId, TokensDistinct, RegisteredMatch, Ascends, StartedAll;
    LiveAfterIff(s, step, w);
    forall id | id in Do(s, step).robots && Do(s, step).robots[id].number == w ensures Do(s, step).robots[id].removing {
      if step.Run? { StartedAllIff(s.(active := true), s.order, id); }
    }
    NextGrows(s, step);
    if id :| IsNewWorker(s, Do(s, step), id, w) { RunsAfterIff(s, step, id); KnownAfterIff(s, step, id); }
  }

  lemma {:induction false} StartingKeepsNext(s: State, ids: seq<Id>)
    ensures StartedAll(s, ids).next == s.next
  {
    if ids != [] { StartingKeepsNext(s, ids[..|ids| - 1]); }
  }

  lemma NextGrows(s: State, step: Step)
    ensures Do(s, step).next >= s.next
  {
    hide TokenTaken, InsertId, WithoutId, StartedAll;
    if step.Run? { StartingKeepsNext(s.(active := true), s.order); }
  }

  /* Main result: once a robot is being removed and its worker has ended, that worker is never started again. */
  lemma {:induction false} RemovedStaysEnded(s: State, steps: seq<Step>, id: Id)
    requires Inv(s) && id in s.robots && s.robots[id].removing && s.robots[id].number !in s.live
    ensures s.robots[id].number !in Exec(s, steps).live
  {
    StaysGone(s, steps, s.robots[id].number);
  }

  lemma {:induction false} StaysGone(s: State, steps: seq<Step>, w: nat)
    requires Inv(s) && Gone(s, w)
    ensures Gone(Exec(s, steps), w)
  {
    hide Do, Inv, Gone;
    if steps != [] {
      StaysGone(s, steps[..|steps| - 1], w);
      ExecKeepsInv(s, steps[..|steps| - 1]);
      GoneStays(Exec(s, steps[..|steps| - 1]), steps[|steps| - 1], w);
    }
  }
}
