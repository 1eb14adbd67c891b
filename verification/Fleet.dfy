/** The fleet of notification robots. */
module Fleet {
  import opened Dates
  import opened Wrappers

  type Id = string

  const DEFAULT_ID: Id := "default"
  const MAX_ROBOTS: nat := 32

  datatype Config = Config(id: Id, name: string, token: string)

  /* Where a robot keeps its queue. */
  datatype Directory = BaseDirectory | RobotDirectory(id: Id)

  function DirectoryOf(id: Id): Directory { if id == DEFAULT_ID then BaseDirectory else RobotDirectory(id) }

  /* A robot object; its worker has the object's number. */
  datatype Robot = Robot(config: Config, registered: bool, number: nat, running: bool, removing: bool)

  type Robots = map<Id, Robot>
  type Configs = map<Id, Config>

  /* `saved` is the content of the file, `active` whether a run is on, and `live` maps every worker that has not ended to
     the robot it was started for. */
  datatype State = State(robots: Robots, order: seq<Id>, registered: Configs, saved: Configs, active: bool,
                         live: map<nat, Id>, next: nat)

  // ---------- steps ----------

  predicate Startable(robots: Robots, id: Id) { id in robots && !robots[id].running && !robots[id].removing }

  function Started(s: State, id: Id): State {
    if s.active && Startable(s.robots, id)
    then s.(robots := s.robots[id := s.robots[id].(running := true)], live := s.live[s.robots[id].number := id])
    else s
  }

  function StartedAll(s: State, ids: seq<Id>): State {
    if ids == [] then s else Started(StartedAll(s, ids[..|ids| - 1]), ids[|ids| - 1])
  }

  /* Saving may fail before or after the file has been replaced. */
  datatype Saving = SaveOk | SaveFailed | SaveFailedLate

  function FileAfter(saved: Configs, next: Configs, saving: Saving): Configs {
    if saving.SaveFailed? then saved else next
  }

  predicate TokenTaken(robots: Robots, token: string) { exists id :: id in robots && robots[id].config.token == token }

  predicate MayRegister(s: State, c: Config) {
    |s.robots| < MAX_ROBOTS && c.id != DEFAULT_ID && c.id !in s.robots && !TokenTaken(s.robots, c.token)
  }

  /* An ID put where the sort puts it; IDs are plain lower-case text. */
  function InsertId(order: seq<Id>, id: Id): seq<Id> {
    if order == [] || TextLess(id, order[0]) then [id] + order else [order[0]] + InsertId(order[1..], id)
  }

  function Added(s: State, c: Config): State {
    Started(s.(robots := s.robots[c.id := Robot(c, true, s.next, false, false)], order := InsertId(s.order, c.id),
               registered := s.registered[c.id := c], next := s.next + 1), c.id)
  }

  function Registered(s: State, c: Config, saving: Saving): State {
    if !MayRegister(s, c) then s
    else
      var s1 := s.(saved := FileAfter(s.saved, s.registered[c.id := c], saving));
      if saving.SaveOk? then Added(s1, c) else s1
  }

  predicate MayRemove(s: State, id: Id) { id in s.robots && !s.robots[id].removing && id in s.registered }

  function RemovalBegun(s: State, id: Id, saving: Saving): State {
    if !MayRemove(s, id) then s
    else
      var next := s.registered - {id};
      var s1 := s.(saved := FileAfter(s.saved, next, saving));
      if saving.SaveOk? then s1.(registered := next, robots := s.robots[id := s.robots[id].(removing := true)]) else s1
  }

  function WithoutId(order: seq<Id>, id: Id): seq<Id> {
    if order == [] then [] else if order[0] == id then order[1..] else [order[0]] + WithoutId(order[1..], id)
  }

  /* The removal goes on when the robot's worker has ended. */
  predicate MayFinish(s: State, id: Id) { id in s.robots && s.robots[id].removing && s.robots[id].number !in s.live }

  function RemovalFinished(s: State, id: Id): State {
    if MayFinish(s, id) then s.(robots := s.robots - {id}, order := WithoutId(s.order, id)) else s
  }

  datatype Step =
    | Run
    | RunEnds
    | Register(config: Config, saving: Saving)
    | BeginRemove(id: Id, saving: Saving)
    | FinishRemove(id: Id)
    | WorkerEnds(number: nat)

  function Do(s: State, step: Step): State {
    match step
    case Run => StartedAll(s.(active := true), s.order)
    case RunEnds => s.(active := false)
    case Register(c, saving) => Registered(s, c, saving)
    case BeginRemove(id, saving) => RemovalBegun(s, id, saving)
    case FinishRemove(id) => RemovalFinished(s, id)
    case WorkerEnds(number) => s.(live := s.live - {number})
  }

  function Exec(s: State, steps: seq<Step>): State {
    if steps == [] then s else Do(Exec(s, steps[..|steps| - 1]), steps[|steps| - 1])
  }

  // ---------- invariants ----------

  /* Every live worker is that of the robot now known under its ID. */
  predicate LiveOwned(robots: Robots, live: map<nat, Id>) {
    forall w | w in live :: live[w] in robots && robots[live[w]].number == w && robots[live[w]].running
  }

  predicate Named(robots: Robots, next: nat) {
    && (forall id | id in robots :: robots[id].config.id == id && robots[id].number < next)
    && forall a, b | a in robots && b in robots && robots[a].number == robots[b].number :: a == b
  }

  predicate TokensDistinct(robots: Robots) {
    forall a, b | a in robots && b in robots && robots[a].config.token == robots[b].config.token :: a == b
  }

  /* The registered robots are those that were registered and are not being removed. */
  predicate RegisteredMatch(robots: Robots, registered: Configs) {
    && (forall id | id in registered ::
          id in robots && robots[id].registered && !robots[id].removing && robots[id].config == registered[id])
    && (forall id | id in robots && robots[id].registered && !robots[id].removing :: id in registered)
    && (forall id | id in robots && robots[id].removing :: robots[id].registered)
  }

  predicate Ascends(order: seq<Id>) { forall i, j | 0 <= i < j < |order| :: TextLess(order[i], order[j]) }

  /* The order lists exactly the robots, sorted. */
  ghost predicate OrderMatches(robots: Robots, order: seq<Id>) {
    (forall id :: id in order <==> id in robots) && Ascends(order)
  }

  ghost predicate Inv(s: State) {
    && LiveOwned(s.robots, s.live) && Named(s.robots, s.next) && TokensDistinct(s.robots)
    && RegisteredMatch(s.robots, s.registered) && OrderMatches(s.robots, s.order)
  }

  lemma RunningOwns(robots: Robots, live: map<nat, Id>, next: nat, id: Id)
    requires id in robots && !robots[id].running && LiveOwned(robots, live) && Named(robots, next)
    ensures LiveOwned(robots[id := robots[id].(running := true)], live[robots[id].number := id])
  {
  }

  lemma RunningNames(robots: Robots, next: nat, id: Id)
    requires id in robots && Named(robots, next) && TokensDistinct(robots)
    ensures Named(robots[id := robots[id].(running := true)], next) && TokensDistinct(robots[id := robots[id].(running := true)])
  {
  }

  lemma RunningMatches(robots: Robots, registered: Configs, id: Id)
    requires id in robots && RegisteredMatch(robots, registered)
    ensures RegisteredMatch(robots[id := robots[id].(running := true)], registered)
  {
  }

  lemma RunningStaysInOrder(robots: Robots, order: seq<Id>, id: Id)
    requires id in robots && OrderMatches(robots, order)
    ensures OrderMatches(robots[id := robots[id].(running := true)], order)
  {
    hide Ascends;
  }

  lemma StartedKeepsInv(s: State, id: Id)
    requires Inv(s)
    ensures Inv(Started(s, id)) && Started(s, id).registered == s.registered && Started(s, id).saved == s.saved
    ensures Started(s, id).order == s.order
  {
    hide LiveOwned, Named, TokensDistinct, RegisteredMatch, OrderMatches;
    if s.active && Startable(s.robots, id) {
      RunningOwns(s.robots, s.live, s.next, id);
      RunningNames(s.robots, s.next, id);
      RunningMatches(s.robots, s.registered, id);
      RunningStaysInOrder(s.robots, s.order, id);
    }
  }

  lemma {:induction false} StartedAllKeepsInv(s: State, ids: seq<Id>)
    requires Inv(s)
    ensures Inv(StartedAll(s, ids)) && StartedAll(s, ids).registered == s.registered && StartedAll(s, ids).saved == s.saved
  {
    if ids != [] {
      StartedAllKeepsInv(s, ids[..|ids| - 1]);
      StartedKeepsInv(StartedAll(s, ids[..|ids| - 1]), ids[|ids| - 1]);
    }
  }

  lemma {:induction false} InsertedAscends(order: seq<Id>, id: Id)
    requires Ascends(order) && id !in order
    ensures Ascends(InsertId(order, id)) && forall x :: x in InsertId(order, id) <==> x == id || x in order
  {
    hide TextLess;
    if order != [] && TextLess(id, order[0]) {
      forall i | 0 < i < |order| ensures TextLess(id, order[i]) { TextLessTransitive(id, order[0], order[i]); }
    } else if order != [] {
      var rest := InsertId(order[1..], id);
      InsertedAscends(order[1..], id);
      assert order == [order[0]] + order[1..];
      TextLessTotal(order[0], id);
      forall i | 0 <= i < |rest| ensures TextLess(order[0], rest[i]) {
        assert rest[i] == id || rest[i] in order[1..];
      }
    }
  }

  lemma InsertedOrder(robots: Robots, order: seq<Id>, id: Id, robot: Robot)
    requires OrderMatches(robots, order) && id !in robots
    ensures OrderMatches(robots[id := robot], InsertId(order, id))
  {
    InsertedAscends(order, id);
  }

  lemma NewTokenDiffers(robots: Robots, robot: Robot)
    requires TokensDistinct(robots) && robot.config.id !in robots && !TokenTaken(robots, robot.config.token)
    ensures TokensDistinct(robots[robot.config.id := robot])
  {
    assert forall id | id in robots :: robots[id].config.token != robot.config.token;
  }

  lemma NewRobotMatches(robots: Robots, registered: Configs, live: map<nat, Id>, next: nat, c: Config)
    requires LiveOwned(robots, live) && Named(robots, next) && RegisteredMatch(robots, registered) && c.id !in robots
    ensures var robots' := robots[c.id := Robot(c, true, next, false, false)];
            LiveOwned(robots', live) && Named(robots', next + 1) && RegisteredMatch(robots', registered[c.id := c])
  {
  }

  lemma AddedKeepsInv(s: State, c: Config)
    requires Inv(s) && MayRegister(s, c)
    ensures Inv(Added(s, c))
  {
    hide Started, InsertId, LiveOwned, Named, TokensDistinct, RegisteredMatch, OrderMatches, TokenTaken;
    var robot := Robot(c, true, s.next, false, false);
    InsertedOrder(s.robots, s.order, c.id, robot);
    NewTokenDiffers(s.robots, robot);
    NewRobotMatches(s.robots, s.registered, s.live, s.next, c);
    var s1 := s.(robots := s.robots[c.id := robot], order := InsertId(s.order, c.id),
                 registered := s.registered[c.id := c], next := s.next + 1);
    StartedKeepsInv(s1, c.id);
  }

  lemma {:induction false} OrderWithout(order: seq<Id>, id: Id)
    requires Ascends(order)
    ensures Ascends(WithoutId(order, id)) && forall x :: x in WithoutId(order, id) <==> x in order && x != id
  {
    hide TextLess;
    if order != [] {
      var rest := order[1..];
      OrderWithout(rest, id);
      assert order == [order[0]] + rest;
      forall x | x in rest ensures TextLess(order[0], x) {}
      TextLessIrreflexive(order[0]);
      assert order[0] !in rest;
    }
  }

  lemma RemovalFinishedKeepsInv(s: State, id: Id)
    requires Inv(s)
    ensures Inv(RemovalFinished(s, id))
  {
    OrderWithout(s.order, id);
  }

  lemma FileIsNoPartOfInv(s: State, saved: Configs, active: bool)
    requires Inv(s)
    ensures Inv(s.(saved := saved)) && Inv(s.(active := active))
  {
  }

  lemma RegisteredKeepsInv(s: State, c: Config, saving: Saving)
    requires Inv(s)
    ensures Inv(Registered(s, c, saving))
  {
    if MayRegister(s, c) {
      var saved := FileAfter(s.saved, s.registered[c.id := c], saving);
      FileIsNoPartOfInv(s, saved, s.active);
      AddedKeepsInv(s.(saved := saved), c);
    }
  }

  lemma RemovalBegunKeepsInv(s: State, id: Id, saving: Saving)
    requires Inv(s)
    ensures Inv(RemovalBegun(s, id, saving))
  {
  }

  lemma WorkerEndsKeepsInv(s: State, number: nat)
    requires Inv(s)
    ensures Inv(s.(live := s.live - {number}))
  {
  }

  lemma DoKeepsInv(s: State, step: Step)
    requires Inv(s)
    ensures Inv(Do(s, step))
  {
    match step
    case Run =>
      FileIsNoPartOfInv(s, s.saved, true);
      StartedAllKeepsInv(s.(active := true), s.order);
    case RunEnds => FileIsNoPartOfInv(s, s.saved, false);
    case Register(c, saving) => RegisteredKeepsInv(s, c, saving);
    case BeginRemove(id, saving) => RemovalBegunKeepsInv(s, id, saving);
    case FinishRemove(id) => RemovalFinishedKeepsInv(s, id);
    case WorkerEnds(number) => WorkerEndsKeepsInv(s, number);
  }

  lemma {:induction false} ExecKeepsInv(s: State, steps: seq<Step>)
    requires Inv(s)
    ensures Inv(Exec(s, steps))
  {
    if steps != [] {
      ExecKeepsInv(s, steps[..|steps| - 1]);
      DoKeepsInv(Exec(s, steps[..|steps| - 1]), steps[|steps| - 1]);
    }
  }

  /* A registration succeeds when it adds the robot, a removal when it takes the robot out of the registered ones. */
  predicate Succeeds(s: State, step: Step) {
    match step
    case Register(c, saving) => MayRegister(s, c) && saving.SaveOk?
    case BeginRemove(id, saving) => MayRemove(s, id) && saving.SaveOk?
    case _ => false
  }

  /* After each successful registration or removal the file holds the registered robots. */
  lemma SavedAfterSuccess(s: State, step: Step)
    requires Succeeds(s, step)
    ensures Do(s, step).saved == Do(s, step).registered
    ensures step.Register? ==> Do(s, step).registered == s.registered[step.config.id := step.config]
    ensures step.BeginRemove? ==> Do(s, step).registered == s.registered - {step.id}
  {
  }

  predicate NoLateFailure(steps: seq<Step>) {
    forall i | 0 <= i < |steps| ::
      (steps[i].Register? ==> !steps[i].saving.SaveFailedLate?) && (steps[i].BeginRemove? ==> !steps[i].saving.SaveFailedLate?)
  }

  lemma {:induction false} StartingKeepsFile(s: State, ids: seq<Id>)
    ensures StartedAll(s, ids).saved == s.saved && StartedAll(s, ids).registered == s.registered
  {
    if ids != [] { StartingKeepsFile(s, ids[..|ids| - 1]); }
  }

  /* Whether no registration or removal of the run succeeded. */
  predicate NoneSucceeds(s: State, steps: seq<Step>) {
    forall i | 0 <= i < |steps| :: !Succeeds(Exec(s, steps[..i]), steps[i])
  }

  lemma FailedRegistration(s: State, c: Config, saving: Saving)
    requires !saving.SaveFailedLate? && !(MayRegister(s, c) && saving.SaveOk?)
    ensures Registered(s, c, saving) == s
  {
    hide MayRegister, Added;
  }

  lemma FailedRemoval(s: State, id: Id, saving: Saving)
    requires !saving.SaveFailedLate? && !(MayRemove(s, id) && saving.SaveOk?)
    ensures RemovalBegun(s, id, saving) == s
  {
  }

  lemma OtherStepsKeepFile(s: State, step: Step)
    requires (step.Register? ==> !step.saving.SaveFailedLate?) && (step.BeginRemove? ==> !step.saving.SaveFailedLate?)
    requires !Succeeds(s, step)
    ensures Do(s, step).saved == s.saved && Do(s, step).registered == s.registered
  {
    hide StartedAll, Registered, RemovalBegun, MayRegister, MayRemove, WithoutId;
    match step
    case Run => StartingKeepsFile(s.(active := true), s.order);
    case Register(c, saving) => FailedRegistration(s, c, saving);
    case BeginRemove(id, saving) => FailedRemoval(s, id, saving);
    case _ =>
  }

  /* Without failures after the replacement, the file stays what it was up to the first success, and then holds the
     registered robots in every state. */
  lemma {:induction false} FileSinceSuccess(s: State, steps: seq<Step>)
    requires NoLateFailure(steps)
    ensures var s' := Exec(s, steps);
            if NoneSucceeds(s, steps) then s'.saved == s.saved && s'.registered == s.registered else s'.saved == s'.registered
  {
    hide Do, Succeeds;
    if steps != [] {
      var init, last := steps[..|steps| - 1], steps[|steps| - 1];
      FileSinceSuccess(s, init);
      assert forall i | 0 <= i < |init| :: steps[..i] == init[..i] && steps[i] == init[i];
      assert steps[..|init|] == init;
      if Succeeds(Exec(s, init), last) { SavedAfterSuccess(Exec(s, init), last); } else { OtherStepsKeepFile(Exec(s, init), last); }
      assert NoneSucceeds(s, steps) <==> NoneSucceeds(s, init) && !Succeeds(Exec(s, init), last) by {
        forall i | 0 <= i < |steps| && NoneSucceeds(s, init) && !Succeeds(Exec(s, init), last)
          ensures !Succeeds(Exec(s, steps[..i]), steps[i]) {
          if i < |init| { assert !Succeeds(Exec(s, init[..i]), init[i]); }
        }
        if NoneSucceeds(s, steps) {
          forall i | 0 <= i < |init| ensures !Succeeds(Exec(s, init[..i]), init[i]) {
            assert !Succeeds(Exec(s, steps[..i]), steps[i]);
          }
          assert !Succeeds(Exec(s, steps[..|init|]), steps[|init|]);
        }
      }
    }
  }

  // ---------- a restart ----------

  /* The robots of the deployment and the registered ones of the file; none when they conflict. */
  datatype Merged = Merged(all: Configs, registered: Configs)

  function AddConfigured(m: Configs, configured: seq<Config>): Option<Configs> {
    if configured == [] then Some(m)
    else
      match AddConfigured(m, configured[..|configured| - 1])
      case None => None
      case Some(done) =>
        var c := configured[|configured| - 1];
        if c.id in done || HasToken(done, c.token) then None else Some(done[c.id := c])
  }

  predicate HasToken(m: Configs, token: string) { exists id :: id in m && m[id].token == token }

  function AddStored(m: Merged, stored: seq<Config>): Option<Merged> {
    if stored == [] then Some(m)
    else
      match AddStored(m, stored[..|stored| - 1])
      case None => None
      case Some(done) =>
        var c := stored[|stored| - 1];
        if c.id in done.all then Some(done)
        else if HasToken(done.all, c.token) then None
        else Some(Merged(done.all[c.id := c], done.registered[c.id := c]))
  }

  function Merge(configured: seq<Config>, stored: seq<Config>): Option<Merged> {
    match AddConfigured(map[], configured)
    case None => None
    case Some(m) => AddStored(Merged(m, map[]), stored)
  }

  /* The loops of the merge, with the IDs and tokens seen so far. */
  method MergeConfigs(configured: seq<Config>, stored: seq<Config>) returns (merged: Option<Merged>)
    ensures merged == Merge(configured, stored)
  {
    var all: Configs, registered: Configs := map[], map[];
    var tokens: set<string> := {};
    for i := 0 to |configured|
      invariant AddConfigured(map[], configured[..i]) == Some(all)
      invariant forall t :: t in tokens <==> HasToken(all, t)
    {
      var c := configured[i];
      assert configured[..i + 1][..i] == configured[..i];
      if c.id in all || c.token in tokens {
        ConfiguredFails(configured, i + 1);
        return None;
      }
      NewToken(all, c);
      all, tokens := all[c.id := c], tokens + {c.token};
    }
    assert configured[..|configured|] == configured;
    ghost var base := all;
    for i := 0 to |stored|
      invariant AddStored(Merged(base, map[]), stored[..i]) == Some(Merged(all, registered))
      invariant forall t :: t in tokens <==> HasToken(all, t)
    {
      var c := stored[i];
      assert stored[..i + 1][..i] == stored[..i];
      if c.id !in all {
        if c.token in tokens {
          StoredFails(Merged(base, map[]), stored, i + 1);
          return None;
        }
        NewToken(all, c);
        all, tokens, registered := all[c.id := c], tokens + {c.token}, registered[c.id := c];
      }
    }
    assert stored[..|stored|] == stored;
    merged := Some(Merged(all, registered));
  }

  lemma NewToken(m: Configs, c: Config)
    requires c.id !in m
    ensures forall t :: HasToken(m[c.id := c], t) <==> t == c.token || HasToken(m, t)
  {
    forall t ensures HasToken(m[c.id := c], t) <==> t == c.token || HasToken(m, t) {
      if t == c.token { assert m[c.id := c][c.id].token == t; }
      if HasToken(m, t) {
        var id :| id in m && m[id].token == t;
        assert m[c.id := c][id].token == t;
      }
    }
  }

  lemma {:induction false} ConfiguredFails(configured: seq<Config>, i: nat)
    requires i <= |configured| && AddConfigured(map[], configured[..i]).None?
    ensures AddConfigured(map[], configured).None?
    decreases |configured| - i
  {
    if i < |configured| {
      assert configured[..i + 1][..i] == configured[..i];
      ConfiguredFails(configured, i + 1);
    } else {
      assert configured[..i] == configured;
    }
  }

  lemma {:induction false} StoredFails(m: Merged, stored: seq<Config>, i: nat)
    requires i <= |stored| && AddStored(m, stored[..i]).None?
    ensures AddStored(m, stored).None?
    decreases |stored| - i
  {
    if i < |stored| {
      assert stored[..i + 1][..i] == stored[..i];
      StoredFails(m, stored, i + 1);
    } else {
      assert stored[..i] == stored;
    }
  }

  // ---------- the start of the fleet ----------

  predicate TokensDiffer(m: Configs) { forall i, j | i in m && j in m && m[i].token == m[j].token :: i == j }

  predicate WellNamed(m: Configs) { forall id | id in m :: m[id].id == id }

  lemma NewConfigStaysDistinct(m: Configs, c: Config)
    requires WellNamed(m) && TokensDiffer(m) && c.id !in m && !HasToken(m, c.token)
    ensures WellNamed(m[c.id := c]) && TokensDiffer(m[c.id := c])
  {
    forall id | id in m ensures m[id].token != c.token {}
  }

  lemma {:induction false} ConfiguredAreDistinct(configured: seq<Config>)
    ensures var m := AddConfigured(map[], configured); m.Some? ==> WellNamed(m.value) && TokensDiffer(m.value)
  {
    if configured != [] && AddConfigured(map[], configured).Some? {
      ConfiguredAreDistinct(configured[..|configured| - 1]);
      NewConfigStaysDistinct(AddConfigured(map[], configured[..|configured| - 1]).value, configured[|configured| - 1]);
    }
  }

  predicate PartOf(done: Configs, m: Configs) { forall id | id in done :: id in m && m[id] == done[id] }

  lemma {:induction false} StoredAreDistinct(base: Configs, stored: seq<Config>)
    requires WellNamed(base) && TokensDiffer(base)
    ensures var m := AddStored(Merged(base, map[]), stored);
            m.Some? ==> WellNamed(m.value.all) && TokensDiffer(m.value.all) && PartOf(m.value.registered, m.value.all)
  {
    if stored != [] && AddStored(Merged(base, map[]), stored).Some? {
      var init, c := stored[..|stored| - 1], stored[|stored| - 1];
      StoredAreDistinct(base, init);
      var done := AddStored(Merged(base, map[]), init).value;
      if c.id !in done.all { NewConfigStaysDistinct(done.all, c); }
    }
  }

  /* The fleet that is built from the merged configurations, before it runs. */
  ghost predicate IsStart(s: State, m: Merged) {
    && s.robots.Keys == m.all.Keys && s.registered == m.registered && s.live == map[] && OrderMatches(s.robots, s.order)
    && (forall a, b | a in s.robots && b in s.robots && s.robots[a].number == s.robots[b].number :: a == b)
    && forall id | id in s.robots ::
         && s.robots[id].config == m.all[id] && s.robots[id].number < s.next
         && s.robots[id].registered == (id in m.registered) && !s.robots[id].running && !s.robots[id].removing
  }

  lemma StartHasInv(s: State, configured: seq<Config>, stored: seq<Config>)
    requires Merge(configured, stored).Some? && IsStart(s, Merge(configured, stored).value)
    ensures Inv(s)
  {
    ConfiguredAreDistinct(configured);
    StoredAreDistinct(AddConfigured(map[], configured).value, stored);
  }

  /* Main result: from its start, in every interleaving, no two live workers own the same directory. */
  lemma {:induction false} OneWorkerPerDirectory(s: State, configured: seq<Config>, stored: seq<Config>, steps: seq<Step>,
                                                 v: nat, w: nat)
    requires Merge(configured, stored).Some? && IsStart(s, Merge(configured, stored).value)
    requires v in Exec(s, steps).live && w in Exec(s, steps).live
    requires DirectoryOf(Exec(s, steps).live[v]) == DirectoryOf(Exec(s, steps).live[w])
    ensures v == w
  {
    StartHasInv(s, configured, stored);
    ExecKeepsInv(s, steps);
  }

  /* The list holds exactly the configurations of the map, each once, in any order. */
  predicate Lists(list: seq<Config>, m: Configs) {
    && (forall i | 0 <= i < |list| :: list[i].id in m && m[list[i].id] == list[i])
    && (forall id | id in m :: m[id] in list)
    && (forall i, j | 0 <= i < j < |list| :: list[i].id != list[j].id)
  }

  function Restricted(m: Configs, list: seq<Config>): Configs { map id | id in m && m[id] in list :: m[id] }

  predicate NoTokenShared(a: Configs, b: Configs) {
    forall i, j | i in a && j in b :: a[i].token != b[j].token
  }

  lemma NoTokenYet(base: Configs, m: Configs, done: Configs, c: Config)
    requires NoTokenShared(base, m) && TokensDiffer(m) && c.id in m && m[c.id] == c && c.id !in done && PartOf(done, m)
    ensures !HasToken(base + done, c.token)
  {
    forall id | id in base + done ensures (base + done)[id].token != c.token {
      if id in done { assert m[id] == done[id]; }
    }
  }

  /* One more entry of the file. */
  lemma NextComesBack(base: Configs, m: Configs, done: Configs, list: seq<Config>, c: Config)
    requires base.Keys !! m.Keys && NoTokenShared(base, m) && TokensDiffer(m)
    requires c.id in m && m[c.id] == c && c.id !in done && PartOf(done, m)
    requires AddStored(Merged(base, map[]), list) == Some(Merged(base + done, done))
    ensures AddStored(Merged(base, map[]), list + [c]) == Some(Merged(base + done[c.id := c], done[c.id := c]))
  {
    hide HasToken, NoTokenShared, TokensDiffer;
    NoTokenYet(base, m, done, c);
    assert (list + [c])[..|list|] == list;
    assert base + done[c.id := c] == (base + done)[c.id := c];
  }

  lemma RestrictedNext(m: Configs, list: seq<Config>, n: nat)
    requires n < |list| && WellNamed(m) && forall i | 0 <= i < n :: list[i].id != list[n].id
    requires list[n].id in m ==> m[list[n].id] == list[n]
    ensures var done, c := Restricted(m, list[..n]), list[n];
            && c.id !in done && PartOf(done, m) && list[..n + 1] == list[..n] + [c]
            && Restricted(m, list[..n + 1]) == if c.id in m then done[c.id := c] else done
  {
    var done, c := Restricted(m, list[..n]), list[n];
    assert c !in list[..n];
    assert list[..n + 1] == list[..n] + [c];
    forall id | id in m ensures m[id] in list[..n + 1] <==> m[id] in list[..n] || id == c.id {
      if m[id] == c { assert id == c.id; }
    }
  }

  lemma NothingRestricted(m: Configs, base: Configs)
    ensures Restricted(m, []) == map[] && base + map[] == base
  {
  }

  /* An entry of the file that a robot of the deployment shadows. */
  lemma ShadowedIsSkipped(base: Configs, done: Configs, list: seq<Config>, c: Config)
    requires c.id in base && AddStored(Merged(base, map[]), list) == Some(Merged(base + done, done))
    ensures AddStored(Merged(base, map[]), list + [c]) == Some(Merged(base + done, done))
  {
    assert (list + [c])[..|list|] == list;
  }

  /* Reading a part of the file back on top of the deployment's robots; `rest` is what these do not shadow. */
  lemma {:induction false} StoredComeBack(base: Configs, m: Configs, rest: Configs, list: seq<Config>, n: nat)
    requires n <= |list| && Lists(list, m) && WellNamed(m) && rest == m - base.Keys
    requires NoTokenShared(base, rest) && TokensDiffer(rest)
    ensures AddStored(Merged(base, map[]), list[..n]) ==
            Some(Merged(base + Restricted(rest, list[..n]), Restricted(rest, list[..n])))
  {
    hide Restricted, TokensDiffer, NoTokenShared, AddStored;
    NothingRestricted(rest, base);
    if n == 0 {
      assert list[..0] == [];
      NothingStored(base);
    } else {
      var init, c := list[..n - 1], list[n - 1];
      StoredComeBack(base, m, rest, list, n - 1);
      assert c.id in rest ==> rest[c.id] == c;
      RestrictedNext(rest, list, n - 1);
      if c.id in base {
        ShadowedIsSkipped(base, Restricted(rest, init), init, c);
      } else {
        NextComesBack(base, rest, Restricted(rest, init), init, c);
      }
    }
  }

  lemma NothingStored(base: Configs)
    ensures AddStored(Merged(base, map[]), []) == Some(Merged(base, map[]))
  {
  }

  /* The robots of the deployment are in the fleet and were not registered. */
  predicate Deployed(base: Configs, robots: Robots) {
    forall id | id in base :: id in robots && !robots[id].registered && robots[id].config == base[id]
  }

  lemma DeploymentIsApart(s: State, base: Configs)
    requires Inv(s) && Deployed(base, s.robots)
    ensures base.Keys !! s.registered.Keys && NoTokenShared(base, s.registered) && TokensDiffer(s.registered)
    ensures WellNamed(s.registered) && s.registered - base.Keys == s.registered
  {
    forall i, j | i in base && j in s.registered ensures base[i].token != s.registered[j].token {
      assert s.robots[i].config.token != s.robots[j].config.token;
    }
    forall i, j | i in s.registered && j in s.registered && s.registered[i].token == s.registered[j].token ensures i == j {
      assert s.robots[i].config.token == s.robots[j].config.token;
    }
  }

  lemma FileComesBack(m: Configs, base: Configs, configured: seq<Config>, file: seq<Config>)
    requires NoTokenShared(base, m - base.Keys) && TokensDiffer(m - base.Keys) && WellNamed(m)
    requires AddConfigured(map[], configured) == Some(base) && Lists(file, m)
    ensures Merge(configured, file).Some? && Merge(configured, file).value.registered == m - base.Keys
  {
    StoredComeBack(base, m, m - base.Keys, file, |file|);
    assert file[..|file|] == file;
    assert Restricted(m - base.Keys, file) == m - base.Keys;
  }

  /* Main result: after a success, restarting with the same deployment brings back exactly the registered robots. */
  lemma RestartRestoresRegistered(s: State, step: Step, configured: seq<Config>, base: Configs, file: seq<Config>)
    requires Inv(s) && Succeeds(s, step)
    requires AddConfigured(map[], configured) == Some(base) && Deployed(base, Do(s, step).robots)
    requires Lists(file, Do(s, step).saved)
    ensures Merge(configured, file).Some? && Merge(configured, file).value.registered == Do(s, step).registered
  {
    DoKeepsInv(s, step);
    SavedAfterSuccess(s, step);
    DeploymentIsApart(Do(s, step), base);
    FileComesBack(Do(s, step).registered, base, configured, file);
  }

  /* What merging makes of a file that can be merged: nothing of it conflicts. */
  lemma {:induction false} StoredAreAll(base: Configs, list: seq<Config>, n: nat)
    requires n <= |list| && forall i, j | 0 <= i < j < |list| :: list[i].id != list[j].id
    requires AddStored(Merged(base, map[]), list[..n]).Some?
    ensures var all := AddStored(Merged(base, map[]), list[..n]).value.all;
            && PartOf(base, all)
            && (forall i | 0 <= i < n && list[i].id !in base :: list[i].id in all && all[list[i].id] == list[i])
            && (forall id | id in all && id !in base :: exists i :: 0 <= i < n && list[i].id == id)
  {
    if n > 0 {
      assert list[..n][..n - 1] == list[..n - 1];
      StoredAreAll(base, list, n - 1);
    }
  }

  lemma NothingConflicts(configured: seq<Config>, stored: seq<Config>, base: Configs, m: Configs)
    requires Merge(configured, stored).Some? && Lists(stored, m) && WellNamed(m)
    requires AddConfigured(map[], configured) == Some(base)
    ensures NoTokenShared(base, m - base.Keys) && TokensDiffer(m - base.Keys)
  {
    ConfiguredAreDistinct(configured);
    StoredAreDistinct(base, stored);
    assert stored[..|stored|] == stored;
    StoredAreAll(base, stored, |stored|);
    var rest, all := m - base.Keys, Merge(configured, stored).value.all;
    forall id | id in rest ensures id in all && all[id] == rest[id] {
      var i :| 0 <= i < |stored| && stored[i] == m[id];
    }
  }

  lemma {:induction false} StartingKeepsDeployed(s: State, base: Configs, ids: seq<Id>)
    requires Deployed(base, s.robots)
    ensures Deployed(base, StartedAll(s, ids).robots)
  {
    if ids != [] { StartingKeepsDeployed(s, base, ids[..|ids| - 1]); }
  }

  lemma DoKeepsDeployed(s: State, base: Configs, step: Step)
    requires Inv(s) && Deployed(base, s.robots)
    ensures Deployed(base, Do(s, step).robots)
  {
    hide LiveOwned, Named, TokensDistinct, OrderMatches, TokenTaken, InsertId, WithoutId;
    if step.Run? { StartingKeepsDeployed(s.(active := true), base, s.order); }
  }

  lemma {:induction false} ExecKeepsDeployed(s: State, base: Configs, steps: seq<Step>)
    requires Inv(s) && Deployed(base, s.robots)
    ensures Deployed(base, Exec(s, steps).robots)
  {
    hide Do, Inv;
    if steps != [] {
      ExecKeepsDeployed(s, base, steps[..|steps| - 1]);
      ExecKeepsInv(s, steps[..|steps| - 1]);
      DoKeepsDeployed(Exec(s, steps[..|steps| - 1]), base, steps[|steps| - 1]);
    }
  }

  /* A fleet built from a deployment and the list in the file. */
  ghost predicate StartsFrom(s: State, configured: seq<Config>, stored: seq<Config>, base: Configs) {
    && Merge(configured, stored).Some? && IsStart(s, Merge(configured, stored).value)
    && AddConfigured(map[], configured) == Some(base) && Lists(stored, s.saved) && WellNamed(s.saved)
  }

  lemma StartAgrees(s: State, configured: seq<Config>, stored: seq<Config>, base: Configs)
    requires StartsFrom(s, configured, stored, base)
    ensures Inv(s) && Deployed(base, s.robots) && s.saved - base.Keys == s.registered
    ensures NoTokenShared(base, s.registered) && TokensDiffer(s.registered)
  {
    hide Inv;
    StartHasInv(s, configured, stored);
    NothingConflicts(configured, stored, base, s.saved);
    FileComesBack(s.saved, base, configured, stored);
    assert stored[..|stored|] == stored;
    StoredAreAll(base, stored, |stored|);
  }

  /* Main result: from its start, without failures after the replacement, the file and the registrations agree in every
     state on all robots but those of the deployment. An entry that a robot of the deployment shadows stays in the file up
     to the first success. */
  lemma {:induction false} FileStaysTrue(s: State, configured: seq<Config>, stored: seq<Config>, base: Configs, steps: seq<Step>)
    requires StartsFrom(s, configured, stored, base) && NoLateFailure(steps)
    ensures var s' := Exec(s, steps);
            && s'.saved - base.Keys == s'.registered
            && if NoneSucceeds(s, steps) then s'.saved == s.saved else s'.saved == s'.registered
  {
    hide Inv, Exec, IsStart, NoneSucceeds, StartsFrom;
    StartAgrees(s, configured, stored, base);
    FileSinceSuccess(s, steps);
    ExecKeepsInv(s, steps);
    ExecKeepsDeployed(s, base, steps);
    DeploymentIsApart(Exec(s, steps), base);
  }

  /* Main result: in every such state a restart with the same deployment brings back exactly the registered robots. */
  lemma {:induction false} RestartAtAnyTime(s: State, configured: seq<Config>, stored: seq<Config>, base: Configs, steps: seq<Step>,
                                            file: seq<Config>)
    requires StartsFrom(s, configured, stored, base) && NoLateFailure(steps) && Lists(file, Exec(s, steps).saved)
    ensures Merge(configured, file).Some? && Merge(configured, file).value.registered == Exec(s, steps).registered
  {
    hide Inv, Exec, NoneSucceeds, Merge, AddStored, AddConfigured;
    var s' := Exec(s, steps);
    FileStaysTrue(s, configured, stored, base, steps);
    StartAgrees(s, configured, stored, base);
    ExecKeepsInv(s, steps);
    ExecKeepsDeployed(s, base, steps);
    DeploymentIsApart(s', base);
    FileComesBack(s'.saved, base, configured, file);
  }

  // ---------- the program ----------

  /* What a registration leaves, by its case. */
  lemma RegistrationIs(s: State, c: Config, saving: Saving)
    ensures !MayRegister(s, c) ==> Registered(s, c, saving) == s
    ensures MayRegister(s, c) && !saving.SaveOk? ==>
              Registered(s, c, saving) == s.(saved := if saving.SaveFailed? then s.saved else s.registered[c.id := c])
    ensures MayRegister(s, c) && saving.SaveOk? ==>
              Registered(s, c, saving) ==
              State(s.robots[c.id := Robot(c, true, s.next, s.active, false)], InsertId(s.order, c.id), s.registered[c.id := c],
                    s.registered[c.id := c], s.active, if s.active then s.live[s.next := c.id] else s.live, s.next + 1)
  {
    hide InsertId, TokenTaken;
  }

  datatype Outcome = Done | LimitExceeded | AlreadyExists | TokenExists | NotFound | CannotRemove | InvalidConfig | NotSaved

  class RobotFleet {
    var robots: Robots
    var order: seq<Id>
    var registered: Configs
    var saved: Configs
    var active: bool
    var live: map<nat, Id>
    var next: nat

    ghost function Now(): State
      reads this
    {
      State(robots, order, registered, saved, active, live, next)
    }

    constructor (s: State)
      ensures Now() == s
    {
      robots, order, registered, saved, active, live, next := s.robots, s.order, s.registered, s.saved, s.active, s.live, s.next;
    }

    method StartRobot(id: Id)
      modifies this
      ensures Now() == Started(old(Now()), id)
      ensures var starts := old(active) && id in old(robots) && !old(robots)[id].running && !old(robots)[id].removing;
              && robots == (if starts then old(robots)[id := old(robots)[id].(running := true)] else old(robots))
              && live == (if starts then old(live)[old(robots)[id].number := id] else old(live))
    {
      if id !in robots || robots[id].running || robots[id].removing || !active { return; }
      live := live[robots[id].number := id];
      robots := robots[id := robots[id].(running := true)];
    }

    method RunAll()
      modifies this
      ensures Now() == Do(old(Now()), Step.Run)
    {
      active := true;
      ghost var start := Now();
      var ids := order;
      for i := 0 to |ids|
        invariant Now() == StartedAll(start, ids[..i])
      {
        assert ids[..i + 1][..i] == ids[..i];
        StartRobot(ids[i]);
      }
      assert ids[..|ids|] == ids;
    }

    method FindToken(token: string) returns (found: bool)
      ensures found <==> TokenTaken(robots, token)
    {
      var left := robots.Keys;
      while left != {}
        invariant left <= robots.Keys
        invariant forall id | id in robots && id !in left :: robots[id].config.token != token
        decreases |left|
      {
        var id :| id in left;
        left := left - {id};
        if robots[id].config.token == token { return true; }
      }
      found := false;
    }

    /* The checks of a registration, in their order; done if there is nothing against it. */
    method CheckRegistration(c: Config) returns (refusal: Outcome)
      ensures refusal == if c.id == DEFAULT_ID then InvalidConfig
                         else if |robots| >= 32 then LimitExceeded
                         else if c.id in robots then AlreadyExists
                         else if exists id :: id in robots && robots[id].config.token == c.token then TokenExists
                         else Done
      ensures refusal == Done <==> MayRegister(Now(), c)
    {
      if c.id == DEFAULT_ID { return InvalidConfig; }
      if |robots| >= MAX_ROBOTS { return LimitExceeded; }
      if c.id in robots { return AlreadyExists; }
      var taken := FindToken(c.token);
      if taken { return TokenExists; }
      refusal := Done;
    }

    method RegisterRobot(c: Config, saving: Saving) returns (outcome: Outcome)
      modifies this
      ensures Now() == Do(old(Now()), Step.Register(c, saving))
      ensures outcome == Done <==> Succeeds(old(Now()), Step.Register(c, saving))
      ensures outcome == if c.id == DEFAULT_ID then InvalidConfig
                         else if |old(robots)| >= 32 then LimitExceeded
                         else if c.id in old(robots) then AlreadyExists
                         else if exists id :: id in old(robots) && old(robots)[id].config.token == c.token then TokenExists
                         else if saving.SaveOk? then Done else NotSaved
      ensures saved == if outcome == Done || (outcome == NotSaved && saving.SaveFailedLate?)
                       then old(registered)[c.id := c] else old(saved)
      ensures active == old(active)
      ensures outcome != Done ==> robots == old(robots) && order == old(order) && registered == old(registered) && live == old(live)
      ensures outcome == Done ==>
                && robots == old(robots)[c.id := Robot(c, true, old(next), old(active), false)]
                && registered == old(registered)[c.id := c]
                && live == if old(active) then old(live)[old(next) := c.id] else old(live)
    {
      hide Registered, InsertId, MayRegister;
      RegistrationIs(Now(), c, saving);
      var refusal := CheckRegistration(c);
      if refusal != Done { return refusal; }
      var nextRegistered := registered[c.id := c];
      if !saving.SaveFailed? { saved := nextRegistered; }
      if !saving.SaveOk? { return NotSaved; }
      registered := nextRegistered;
      AddRobot(c);
      outcome := Done;
    }

    /* A registered robot joins the others, and starts if they run. */
    method AddRobot(c: Config)
      requires c.id !in robots
      modifies this
      ensures robots == old(robots)[c.id := Robot(c, true, old(next), active, false)]
      ensures order == InsertId(old(order), c.id) && next == old(next) + 1
      ensures live == if active then old(live)[old(next) := c.id] else old(live)
      ensures registered == old(registered) && saved == old(saved) && active == old(active)
    {
      hide InsertId;
      robots := robots[c.id := Robot(c, true, next, false, false)];
      order := InsertId(order, c.id);
      next := next + 1;
      StartRobot(c.id);
    }

    method BeginRemoval(id: Id, saving: Saving) returns (outcome: Outcome)
      modifies this
      ensures Now() == Do(old(Now()), BeginRemove(id, saving))
      ensures outcome == Done <==> Succeeds(old(Now()), BeginRemove(id, saving))
      ensures outcome == if id !in old(robots) || old(robots)[id].removing then NotFound
                         else if id !in old(registered) then CannotRemove
                         else if saving.SaveOk? then Done else NotSaved
      ensures saved == if outcome == Done || (outcome == NotSaved && saving.SaveFailedLate?)
                       then old(registered) - {id} else old(saved)
      ensures active == old(active) && live == old(live) && order == old(order)
      ensures robots == if outcome == Done then old(robots)[id := old(robots)[id].(removing := true)] else old(robots)
      ensures registered == if outcome == Done then old(registered) - {id} else old(registered)
    {
      if id !in robots || robots[id].removing { return NotFound; }
      if id !in registered { return CannotRemove; }
      var nextRegistered := registered - {id};
      if !saving.SaveFailed? { saved := nextRegistered; }
      if !saving.SaveOk? { return NotSaved; }
      registered := nextRegistered;
      robots := robots[id := robots[id].(removing := true)];
      outcome := Done;
    }

    /* The rest of a removal, after the worker has ended. */
    method FinishRemoval(id: Id)
      requires MayFinish(Now(), id)
      modifies this
      ensures Now() == Do(old(Now()), FinishRemove(id))
      ensures robots == old(robots) - {id} && registered == old(registered) && saved == old(saved) && live == old(live)
      ensures Ascends(old(order)) ==> Ascends(order) && forall x :: x in order <==> x in old(order) && x != id
    {
      robots := robots - {id};
      if Ascends(order) { OrderWithout(order, id); }
      var rest := CutOut(order, id);
      order := rest;
    }
  }

  lemma NothingWithout(id: Id)
    ensures WithoutId([], id) == []
  {
  }

  lemma WithoutNext(ids: seq<Id>, id: Id, i: nat)
    requires i < |ids|
    ensures ids[i] != id ==> ids[..i] + WithoutId(ids[i..], id) == ids[..i + 1] + WithoutId(ids[i + 1..], id)
    ensures ids[i] == id ==> WithoutId(ids[i..], id) == ids[i + 1..]
  {
    assert ids[i..][1..] == ids[i + 1..] && ids[i..][0] == ids[i];
    assert ids[..i + 1] == ids[..i] + [ids[i]];
    assert ids[..i] + ([ids[i]] + WithoutId(ids[i + 1..], id)) == ids[..i] + [ids[i]] + WithoutId(ids[i + 1..], id);
  }

  method CutOut(ids: seq<Id>, id: Id) returns (rest: seq<Id>)
    ensures rest == WithoutId(ids, id)
  {
    hide WithoutId;
    assert ids[..0] + WithoutId(ids[0..], id) == WithoutId(ids, id) by { assert ids[0..] == ids; }
    for i := 0 to |ids|
      invariant WithoutId(ids, id) == ids[..i] + WithoutId(ids[i..], id)
    {
      WithoutNext(ids, id, i);
      if ids[i] == id { return ids[..i] + ids[i + 1..]; }
    }
    NothingWithout(id);
    assert ids[|ids|..] == [] && ids[..|ids|] + [] == ids;
    rest := ids;
  }
}
