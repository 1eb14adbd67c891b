/** Join requests, memberships and leaders, by transaction. */
module Ministry {
  import opened Wrappers

  type GroupId = nat
  type UserId = nat
  type RequestId = nat

  datatype Status = Pending | Approved | Rejected

  /* Leader zero means none. */
  datatype Group = Group(leader: UserId, active: bool)

  datatype Place = Place(group: GroupId, user: UserId)

  datatype Member = Member(active: bool, admin: bool)

  /* The request of a user for a group; every submission starts a new round. */
  datatype Request = Request(id: RequestId, status: Status, round: nat)

  datatype Decision = Decision(request: RequestId, round: nat)

  /* The unique key of the requests is their place. `people` are the active users in the study group, which other parts
     of the program change. `decisions` is the history: how often each round of each request was decided. */
  datatype State = State(groups: map<GroupId, Group>, members: map<Place, Member>, requests: map<Place, Request>,
                         nextRequest: RequestId, people: set<UserId>, decisions: multiset<Decision>)

  datatype Outcome =
    | Ok
    | GroupNotFound | RequestNotFound | ApplicantNotMember | AlreadyMember | NotMember | LeaderCannotLeave
    | AlreadyReviewed | RoundConflict

  predicate IsMember(members: map<Place, Member>, p: Place) { p in members && members[p].active }

  // ---------- joining ----------

  predicate MayJoin(s: State, p: Place) { p.group in s.groups && p.user in s.people && !IsMember(s.members, p) }

  /* The pending submission of the user: the one that is already there, or a new round. */
  function Submitted(s: State, p: Place): State {
    if p !in s.requests then
      s.(requests := s.requests[p := Request(s.nextRequest, Pending, 1)], nextRequest := s.nextRequest + 1)
    else if s.requests[p].status.Pending? then s
    else s.(requests := s.requests[p := s.requests[p].(status := Pending, round := s.requests[p].round + 1)])
  }

  /* A request is decided; an approval makes the user a plain member. */
  function Decided(s: State, p: Place, status: Status): State
    requires p in s.requests
  {
    var r := s.requests[p];
    s.(requests := s.requests[p := r.(status := status)], decisions := s.decisions + multiset{Decision(r.id, r.round)},
       members := if status.Approved? then s.members[p := Member(true, false)] else s.members)
  }

  function Joined(s: State, p: Place, autoApprove: bool): State {
    if !MayJoin(s, p) then s
    else if autoApprove then Decided(Submitted(s, p), p, Approved) else Submitted(s, p)
  }

  // ---------- deciding ----------

  function DecisionOutcome(s: State, p: Place, expected: nat, approve: bool): Outcome {
    if p !in s.requests then RequestNotFound
    else if p.group !in s.groups then GroupNotFound
    else if approve && p.user !in s.people then ApplicantNotMember
    else if !s.requests[p].status.Pending? then AlreadyReviewed
    else if s.requests[p].round != expected then RoundConflict
    else Ok
  }

  function Reviewed(s: State, p: Place, expected: nat, approve: bool): State {
    if DecisionOutcome(s, p, expected, approve).Ok? then Decided(s, p, if approve then Approved else Rejected) else s
  }

  // ---------- leaving, leaders and groups ----------

  function LeaveOutcome(s: State, p: Place): Outcome {
    if p.group !in s.groups then GroupNotFound
    else if s.groups[p.group].leader == p.user then LeaderCannotLeave
    else if !IsMember(s.members, p) then NotMember
    else Ok
  }

  function Left(s: State, p: Place): State {
    if LeaveOutcome(s, p).Ok? then s.(members := s.members[p := Member(false, false)]) else s
  }

  /* The new leader is made an active member; an existing role is kept. */
  function Led(s: State, g: GroupId, user: UserId): State {
    if g !in s.groups || user == 0 || user !in s.people then s
    else
      var p := Place(g, user);
      s.(members := s.members[p := if p in s.members then s.members[p].(active := true) else Member(true, false)],
         groups := s.groups[g := s.groups[g].(leader := user)])
  }

  function RoleSet(s: State, p: Place, admin: bool): State {
    if IsMember(s.members, p) then s.(members := s.members[p := s.members[p].(admin := admin)]) else s
  }

  function Deleted(s: State, g: GroupId): State {
    if g in s.groups && s.groups[g].active then s.(groups := s.groups[g := Group(0, false)]) else s
  }

  // ---------- removing a person from the study group ----------

  predicate PendingOf(requests: map<Place, Request>, user: UserId, p: Place) {
    p in requests && p.user == user && requests[p].status.Pending?
  }

  /* All pending requests of the person are rejected; memberships and leaders of the groups stay. */
  function Removed(s: State, user: UserId): State {
    s.(people := s.people - {user},
       requests := map p | p in s.requests ::
                     if PendingOf(s.requests, user, p) then s.requests[p].(status := Rejected) else s.requests[p],
       decisions := s.decisions + multiset(RejectedBy(s.requests, user)))
  }

  function DecisionOn(r: Request): Decision { Decision(r.id, r.round) }

  datatype Step =
    | Create(group: GroupId)
    | Delete(group: GroupId)
    | Join(place: Place, autoApprove: bool)
    | Decide(place: Place, expected: nat, approve: bool)
    | Leave(place: Place)
    | SetRole(place: Place, admin: bool)
    | SetLeader(group: GroupId, user: UserId)
    | RemovePerson(user: UserId)
    | PeopleChange(people: set<UserId>)

  function Do(s: State, step: Step): State {
    match step
    case Create(g) => if g in s.groups then s else s.(groups := s.groups[g := Group(0, true)])
    case Delete(g) => Deleted(s, g)
    case Join(p, autoApprove) => Joined(s, p, autoApprove)
    case Decide(p, expected, approve) => Reviewed(s, p, expected, approve)
    case Leave(p) => Left(s, p)
    case SetRole(p, admin) => RoleSet(s, p, admin)
    case SetLeader(g, user) => Led(s, g, user)
    case RemovePerson(user) => Removed(s, user)
    case PeopleChange(people) => s.(people := people)
  }

  function Run(s: State, steps: seq<Step>): State {
    if steps == [] then s else Do(Run(s, steps[..|steps| - 1]), steps[|steps| - 1])
  }

  predicate Initial(s: State) { s.groups == map[] && s.members == map[] && s.requests == map[] && s.decisions == multiset{} }

  // ---------- invariants ----------

  predicate LeadersAreMembers(groups: map<GroupId, Group>, members: map<Place, Member>) {
    forall g | g in groups && groups[g].leader != 0 :: IsMember(members, Place(g, groups[g].leader))
  }

  predicate RequestIdsDistinct(requests: map<Place, Request>, next: RequestId) {
    && (forall p | p in requests :: requests[p].id < next)
    && (forall p, q | p in requests && q in requests && requests[p].id == requests[q].id :: p == q)
  }

  /* The round is over: a later one was opened, or it is the present one and not pending. */
  predicate Over(r: Request, round: nat) { round < r.round || (round == r.round && !r.status.Pending?) }

  predicate IsRequest(requests: map<Place, Request>, id: RequestId) { exists p :: p in requests && requests[p].id == id }

  predicate DecisionsKnown(requests: map<Place, Request>, decisions: multiset<Decision>) {
    forall d | d in decisions :: IsRequest(requests, d.request)
  }

  /* Every round that is over was decided exactly once, and no other was. */
  ghost predicate DecisionsExact(requests: map<Place, Request>, next: RequestId, decisions: multiset<Decision>) {
    && (forall d | d in decisions :: d.request < next)
    && (forall p, round: nat | p in requests ::
          decisions[Decision(requests[p].id, round)] == if 1 <= round && Over(requests[p], round) then 1 else 0)
  }

  ghost predicate Inv(s: State) {
    && LeadersAreMembers(s.groups, s.members) && RequestIdsDistinct(s.requests, s.nextRequest)
    && (forall p | p in s.requests :: s.requests[p].round >= 1)
    && DecisionsExact(s.requests, s.nextRequest, s.decisions) && DecisionsKnown(s.requests, s.decisions)
  }

  predicate SameIds(requests: map<Place, Request>, requests': map<Place, Request>) {
    forall p | p in requests :: p in requests' && requests'[p].id == requests[p].id
  }

  lemma StillKnown(requests: map<Place, Request>, decisions: multiset<Decision>,
                   requests': map<Place, Request>, decisions': multiset<Decision>)
    requires DecisionsKnown(requests, decisions) && SameIds(requests, requests')
    requires forall d | d in decisions' :: d in decisions || exists p :: p in requests && d == DecisionOn(requests[p])
    ensures DecisionsKnown(requests', decisions')
  {
    forall d | d in decisions' ensures IsRequest(requests', d.request) {
      if d in decisions {
        var p :| p in requests && requests[p].id == d.request;
        assert requests'[p].id == d.request;
      } else {
        var p :| p in requests && d == DecisionOn(requests[p]);
        assert requests'[p].id == d.request;
      }
    }
  }

  lemma NewRequestStaysExact(requests: map<Place, Request>, next: RequestId, decisions: multiset<Decision>, p: Place)
    requires DecisionsExact(requests, next, decisions)
    ensures DecisionsExact(requests[p := Request(next, Pending, 1)], next + 1, decisions)
  {
    forall round: nat ensures decisions[Decision(next, round)] == 0 {
      assert Decision(next, round) !in decisions;
    }
  }

  lemma NewRoundStaysExact(requests: map<Place, Request>, next: RequestId, decisions: multiset<Decision>, p: Place)
    requires DecisionsExact(requests, next, decisions)
    requires p in requests && requests[p].round >= 1 && !requests[p].status.Pending?
    ensures DecisionsExact(requests[p := requests[p].(status := Pending, round := requests[p].round + 1)], next, decisions)
  {
  }

  lemma SubmittedStaysKnown(s: State, p: Place)
    requires DecisionsKnown(s.requests, s.decisions)
    ensures DecisionsKnown(Submitted(s, p).requests, s.decisions)
  {
    hide DecisionsKnown;
    StillKnown(s.requests, s.decisions, Submitted(s, p).requests, s.decisions);
  }

  lemma SubmittedKeepsInv(s: State, p: Place)
    requires Inv(s)
    ensures Inv(Submitted(s, p)) && p in Submitted(s, p).requests && Submitted(s, p).requests[p].status.Pending?
  {
    hide DecisionsExact, DecisionsKnown;
    SubmittedStaysKnown(s, p);
    if p !in s.requests {
      NewRequestStaysExact(s.requests, s.nextRequest, s.decisions, p);
    } else if !s.requests[p].status.Pending? {
      NewRoundStaysExact(s.requests, s.nextRequest, s.decisions, p);
    }
  }

  lemma DecidedStaysExact(s: State, p: Place, status: Status)
    requires Inv(s) && p in s.requests && s.requests[p].status.Pending? && !status.Pending?
    ensures var s' := Decided(s, p, status); DecisionsExact(s'.requests, s'.nextRequest, s'.decisions)
  {
    hide DecisionsKnown, LeadersAreMembers;
    assert Decision(s.requests[p].id, s.requests[p].round) == DecisionOn(s.requests[p]);
  }

  lemma DecidedKeepsInv(s: State, p: Place, status: Status)
    requires Inv(s) && p in s.requests && s.requests[p].status.Pending? && !status.Pending?
    ensures Inv(Decided(s, p, status))
  {
    hide DecisionsKnown, DecisionsExact;
    var s' := Decided(s, p, status);
    DecidedStaysExact(s, p, status);
    StillKnown(s.requests, s.decisions, s'.requests, s'.decisions);
  }

  function RejectedBy(requests: map<Place, Request>, user: UserId): set<Decision> {
    set p | p in requests && PendingOf(requests, user, p) :: DecisionOn(requests[p])
  }

  lemma RemovedStaysExact(s: State, user: UserId)
    requires Inv(s)
    ensures var s' := Removed(s, user); DecisionsExact(s'.requests, s'.nextRequest, s'.decisions)
  {
    hide DecisionsKnown, LeadersAreMembers;
    forall p, round: nat | p in s.requests
      ensures Decision(s.requests[p].id, round) in RejectedBy(s.requests, user) <==>
              PendingOf(s.requests, user, p) && round == s.requests[p].round
    {
      if PendingOf(s.requests, user, p) && round == s.requests[p].round {
        assert DecisionOn(s.requests[p]) in RejectedBy(s.requests, user);
      }
    }
  }

  lemma RemovedStaysKnown(s: State, user: UserId)
    requires DecisionsKnown(s.requests, s.decisions)
    ensures DecisionsKnown(Removed(s, user).requests, Removed(s, user).decisions)
  {
    hide DecisionsKnown;
    StillKnown(s.requests, s.decisions, Removed(s, user).requests, Removed(s, user).decisions);
  }

  lemma RemovedKeepsInv(s: State, user: UserId)
    requires Inv(s)
    ensures Inv(Removed(s, user))
  {
    hide DecisionsExact, DecisionsKnown;
    RemovedStaysExact(s, user);
    RemovedStaysKnown(s, user);
  }

  lemma GroupStepsKeepInv(s: State, step: Step)
    requires Inv(s) && !step.Join? && !step.Decide? && !step.RemovePerson?
    ensures Inv(Do(s, step))
  {
    hide DecisionsExact, DecisionsKnown, RequestIdsDistinct;
  }

  lemma DoKeepsInv(s: State, step: Step)
    requires Inv(s)
    ensures Inv(Do(s, step))
  {
    hide Inv, Decided, RejectedBy;
    match step
    case Join(p, autoApprove) =>
      SubmittedKeepsInv(s, p);
      if autoApprove { DecidedKeepsInv(Submitted(s, p), p, Approved); }
    case Decide(p, expected, approve) =>
      if DecisionOutcome(s, p, expected, approve).Ok? { DecidedKeepsInv(s, p, if approve then Approved else Rejected); }
    case RemovePerson(user) => RemovedKeepsInv(s, user);
    case _ => GroupStepsKeepInv(s, step);
  }

  lemma {:induction false} InvOutlastsRun(s: State, steps: seq<Step>)
    requires Inv(s)
    ensures Inv(Run(s, steps))
  {
    if steps != [] {
      InvOutlastsRun(s, steps[..|steps| - 1]);
      DoKeepsInv(Run(s, steps[..|steps| - 1]), steps[|steps| - 1]);
    }
  }

  lemma InitialHasInv(s: State)
    requires Initial(s)
    ensures Inv(s)
  {
  }

  lemma {:induction false} RunKeepsInv(s: State, steps: seq<Step>)
    requires Initial(s)
    ensures Inv(Run(s, steps))
  {
    InitialHasInv(s);
    InvOutlastsRun(s, steps);
  }

  /* Main result: over every run each round of each request that is over was decided exactly once, by a moderator, by
     automatic approval or by the removal of the applicant, and the pending round was not. */
  lemma {:induction false} DecidedExactlyOnce(s: State, steps: seq<Step>, p: Place, round: nat)
    requires Initial(s) && p in Run(s, steps).requests && round >= 1
    ensures var s' := Run(s, steps);
            s'.decisions[Decision(s'.requests[p].id, round)] == if Over(s'.requests[p], round) then 1 else 0
  {
    RunKeepsInv(s, steps);
  }

  /* So no round of any request is ever decided twice. */
  lemma {:induction false} DecidedAtMostOnce(s: State, steps: seq<Step>, d: Decision)
    requires Initial(s)
    ensures Run(s, steps).decisions[d] <= 1
  {
    RunKeepsInv(s, steps);
    var s' := Run(s, steps);
    if d in s'.decisions {
      var p :| p in s'.requests && s'.requests[p].id == d.request;
      assert s'.decisions[Decision(s'.requests[p].id, d.round)] <= 1;
    }
  }

  /* Main result: over every run the leader of a group is an active member of it. */
  lemma {:induction false} LeaderIsActiveMember(s: State, steps: seq<Step>, g: GroupId)
    requires Initial(s) && g in Run(s, steps).groups && Run(s, steps).groups[g].leader != 0
    ensures IsMember(Run(s, steps).members, Place(g, Run(s, steps).groups[g].leader))
  {
    RunKeepsInv(s, steps);
  }

  /* A decision that succeeds decides the round that was expected; any other changes nothing. */
  lemma DecisionIsOfExpectedRound(s: State, p: Place, expected: nat, approve: bool)
    ensures var s' := Do(s, Decide(p, expected, approve));
            if p in s.requests && s.requests[p].round == expected && s'.decisions != s.decisions
            then s'.decisions == s.decisions + multiset{Decision(s.requests[p].id, expected)}
                 && s'.requests[p].round == expected && !s'.requests[p].status.Pending? && (approve ==> IsMember(s'.members, p))
            else s' == s
  {
    if DecisionOutcome(s, p, expected, approve).Ok? {
      assert |Do(s, Decide(p, expected, approve)).decisions| == |s.decisions| + 1;
    }
  }

  /* Of one request and of the history. */
  predicate GoesOn(requests: map<Place, Request>, decisions: multiset<Decision>,
                   requests': map<Place, Request>, decisions': multiset<Decision>, p: Place)
    requires p in requests
  {
    && p in requests' && requests'[p].id == requests[p].id && requests'[p].round >= requests[p].round
    && decisions <= decisions'
  }

  lemma SubmittedGoesOn(s: State, q: Place, p: Place)
    requires p in s.requests
    ensures var s' := Submitted(s, q); GoesOn(s.requests, s.decisions, s'.requests, s'.decisions, p)
  {
  }

  lemma DecidedGoesOn(s: State, q: Place, status: Status, p: Place)
    requires p in s.requests && q in s.requests
    ensures var s' := Decided(s, q, status); GoesOn(s.requests, s.decisions, s'.requests, s'.decisions, p)
  {
  }

  lemma RemovedGoesOn(s: State, user: UserId, p: Place)
    requires p in s.requests
    ensures var s' := Removed(s, user); GoesOn(s.requests, s.decisions, s'.requests, s'.decisions, p)
  {
  }

  lemma StepGoesOn(s: State, step: Step, p: Place)
    requires p in s.requests
    ensures var s' := Do(s, step); GoesOn(s.requests, s.decisions, s'.requests, s'.decisions, p)
  {
    hide Decided, Removed;
    match step
    case Join(q, autoApprove) =>
      SubmittedGoesOn(s, q, p);
      if MayJoin(s, q) && autoApprove { DecidedGoesOn(Submitted(s, q), q, Approved, p); }
    case Decide(q, expected, approve) =>
      if DecisionOutcome(s, q, expected, approve).Ok? { DecidedGoesOn(s, q, if approve then Approved else Rejected, p); }
    case RemovePerson(user) => RemovedGoesOn(s, user, p);
    case _ =>
  }

  /* Main result: rounds never decrease, a request keeps its number, and what was decided stays decided. */
  lemma {:induction false} RoundsNeverDecrease(s: State, steps: seq<Step>, p: Place)
    requires p in s.requests
    ensures var s' := Run(s, steps);
            p in s'.requests && s'.requests[p].id == s.requests[p].id && s'.requests[p].round >= s.requests[p].round
            && s.decisions <= s'.decisions
  {
    hide Do;
    if steps != [] {
      RoundsNeverDecrease(s, steps[..|steps| - 1], p);
      StepGoesOn(Run(s, steps[..|steps| - 1]), steps[|steps| - 1], p);
    }
  }

  lemma {:induction false} RequestsHaveGroups(s: State, steps: seq<Step>, p: Place)
    requires Initial(s) && p in Run(s, steps).requests
    ensures p.group in Run(s, steps).groups
  {
    hide Decided, RejectedBy, Initial;
    if steps == [] {
      NoRequests(s);
    } else {
      var init := steps[..|steps| - 1];
      if p in Run(s, init).requests { RequestsHaveGroups(s, init, p); }
      DoKeepsGroups(Run(s, init), steps[|steps| - 1], p);
    }
  }

  lemma NoRequests(s: State)
    requires Initial(s)
    ensures s.requests == map[]
  {
  }

  lemma DoKeepsGroups(s: State, step: Step, p: Place)
    requires p in s.requests ==> p.group in s.groups
    ensures p in Do(s, step).requests ==> p.group in Do(s, step).groups
  {
  }

  lemma KeepsGroup(s: State, step: Step, g: GroupId)
    requires g in s.groups
    ensures g in Do(s, step).groups
  {
  }

  /* The error for a round that is over: it has been reviewed, or a later one has begun. */
  predicate Stale(outcome: Outcome) { outcome.AlreadyReviewed? || outcome.RoundConflict? }

  /* A request number that is over gives the stale error, unless an approval stops at the applicant before. */
  lemma OutcomeOf(s: State, p: Place, round: nat, approve: bool)
    requires p in s.requests && p.group in s.groups && round <= s.requests[p].round
    ensures var outcome := DecisionOutcome(s, p, round, approve);
            if approve && p.user !in s.people then outcome == ApplicantNotMember
            else if Over(s.requests[p], round) then Stale(outcome) else outcome == Ok
  {
  }

  /* Main result: a moderator saw a pending round, and decides it after whatever others did meanwhile. The outcome is the
     error of a reviewed or of a conflicting round exactly when the history shows that this round has been decided since;
     otherwise the decision succeeds. An approval of someone who has left is refused for that before. */
  lemma {:induction false} StaleIffDecidedMeanwhile(s: State, before: seq<Step>, meanwhile: seq<Step>, p: Place, approve: bool)
    requires Initial(s) && p in Run(s, before).requests && Run(s, before).requests[p].status.Pending?
    ensures var seen, now := Run(s, before), Run(Run(s, before), meanwhile);
            var r := seen.requests[p];
            var outcome := DecisionOutcome(now, p, r.round, approve);
            && Decision(r.id, r.round) !in seen.decisions
            && if approve && p.user !in now.people then outcome == ApplicantNotMember
               else if Decision(r.id, r.round) in now.decisions then Stale(outcome) else outcome == Ok
  {
    hide DecisionOutcome;
    RunKeepsInv(s, before);
    InvOutlastsRun(Run(s, before), meanwhile);
    RoundsNeverDecrease(Run(s, before), meanwhile, p);
    GroupsOutlastRun(s, before, meanwhile, p);
    var seen, now := Run(s, before), Run(Run(s, before), meanwhile);
    var r := seen.requests[p];
    assert now.decisions[Decision(r.id, r.round)] == if Over(now.requests[p], r.round) then 1 else 0;
    assert seen.decisions[Decision(r.id, r.round)] == 0;
    OutcomeOf(now, p, r.round, approve);
  }

  lemma {:induction false} GroupsOutlastRun(s: State, before: seq<Step>, later: seq<Step>, p: Place)
    requires Initial(s) && p in Run(s, before).requests
    ensures p.group in Run(Run(s, before), later).groups
  {
    hide Do, Initial;
    if later == [] {
      RequestsHaveGroups(s, before, p);
    } else {
      GroupsOutlastRun(s, before, later[..|later| - 1], p);
      KeepsGroup(Run(Run(s, before), later[..|later| - 1]), later[|later| - 1], p.group);
    }
  }

  /* Main result: a round that was decided is refused for ever, and refused as stale while the applicant is there. */
  lemma {:induction false} SupersededDecisionFails(s: State, before: seq<Step>, later: seq<Step>, p: Place, round: nat, approve: bool)
    requires Initial(s) && p in Run(s, before).requests
    requires Decision(Run(s, before).requests[p].id, round) in Run(s, before).decisions
    ensures var now := Run(Run(s, before), later);
            var outcome := DecisionOutcome(now, p, round, approve);
            && Do(now, Decide(p, round, approve)) == now
            && if approve && p.user !in now.people then outcome == ApplicantNotMember else Stale(outcome)
  {
    hide DecisionOutcome, Decided;
    RunKeepsInv(s, before);
    InvOutlastsRun(Run(s, before), later);
    RoundsNeverDecrease(Run(s, before), later, p);
    GroupsOutlastRun(s, before, later, p);
    var now := Run(Run(s, before), later);
    var d := Decision(now.requests[p].id, round);
    assert d in now.decisions;
    assert now.decisions[d] == if 1 <= round && Over(now.requests[p], round) then 1 else 0;
    OutcomeOf(now, p, round, approve);
  }

  /* Main result: once a join has opened a new round, every round before it is refused for ever. */
  lemma {:induction false} NewRoundClosesEarlier(s: State, before: seq<Step>, p: Place, autoApprove: bool, later: seq<Step>,
                                                 round: nat, approve: bool)
    requires Initial(s) && p in Run(s, before).requests && !Run(s, before).requests[p].status.Pending?
    requires MayJoin(Run(s, before), p) && round <= Run(s, before).requests[p].round
    ensures var joined := Do(Run(s, before), Join(p, autoApprove));
            && joined.requests[p].round == Run(s, before).requests[p].round + 1
            && var now := Run(joined, later); Do(now, Decide(p, round, approve)) == now
  {
    var joined := Do(Run(s, before), Join(p, autoApprove));
    RoundsNeverDecrease(joined, later, p);
  }

  // ---------- the transactions ----------

  class Repository {
    var groups: map<GroupId, Group>
    var members: map<Place, Member>
    var requests: map<Place, Request>
    var nextRequest: RequestId
    var people: set<UserId>
    ghost var decisions: multiset<Decision>

    ghost function Now(): State
      reads this
    {
      State(groups, members, requests, nextRequest, people, decisions)
    }

    constructor (people: set<UserId>)
      ensures Initial(Now()) && Now().people == people
    {
      groups, members, requests, nextRequest, this.people := map[], map[], map[], 1, people;
      decisions := multiset{};
    }

    method RequestJoin(p: Place, autoApprove: bool) returns (outcome: Outcome)
      modifies this
      ensures Now() == Do(old(Now()), Step.Join(p, autoApprove))
      ensures outcome.Ok? <==> p.group in old(groups) && p.user in old(people) && !IsMember(old(members), p)
      ensures !outcome.Ok? ==> Now() == old(Now())
      ensures outcome.Ok? ==>
                && p in requests && requests - {p} == old(requests) - {p}
                && requests[p].status == (if autoApprove then Approved else Pending)
                && requests[p].round == (if p !in old(requests) then 1
                                         else if old(requests)[p].status == Pending then old(requests)[p].round
                                         else old(requests)[p].round + 1)
                && members == (if autoApprove then old(members)[p := Member(true, false)] else old(members))
    {
      if p.group !in groups { return GroupNotFound; }
      if p.user !in people { return ApplicantNotMember; }
      if p in members && members[p].active { return AlreadyMember; }
      if p in requests && requests[p].status.Pending? {
        if !autoApprove { return Ok; }
      } else if p in requests {
        requests := requests[p := requests[p].(status := Pending, round := requests[p].round + 1)];
      } else {
        requests := requests[p := Request(nextRequest, Pending, 1)];
        nextRequest := nextRequest + 1;
      }
      assert Now() == Submitted(old(Now()), p);
      if autoApprove {
        decisions := decisions + multiset{Decision(requests[p].id, requests[p].round)};
        requests := requests[p := requests[p].(status := Approved)];
        members := members[p := Member(true, false)];
      }
      outcome := Ok;
    }

    method DecideRequest(p: Place, expected: nat, approve: bool) returns (outcome: Outcome)
      modifies this
      ensures outcome == DecisionOutcome(old(Now()), p, expected, approve)
      ensures Now() == Do(old(Now()), Decide(p, expected, approve))
      ensures !outcome.Ok? ==> Now() == old(Now())
      ensures outcome.Ok? ==>
                && p in old(requests) && old(requests)[p].status == Pending && old(requests)[p].round == expected
                && requests == old(requests)[p := Request(old(requests)[p].id, if approve then Approved else Rejected, expected)]
                && members == (if approve then old(members)[p := Member(true, false)] else old(members))
    {
      if p !in requests { return RequestNotFound; }
      if p.group !in groups { return GroupNotFound; }
      if approve && p.user !in people { return ApplicantNotMember; }
      if !requests[p].status.Pending? { return AlreadyReviewed; }
      if requests[p].round != expected { return RoundConflict; }
      decisions := decisions + multiset{Decision(requests[p].id, expected)};
      requests := requests[p := requests[p].(status := if approve then Approved else Rejected)];
      if approve { members := members[p := Member(true, false)]; }
      outcome := Ok;
    }

    method LeaveGroup(p: Place) returns (outcome: Outcome)
      modifies this
      ensures outcome == LeaveOutcome(old(Now()), p)
      ensures Now() == Do(old(Now()), Leave(p))
      ensures !outcome.Ok? ==> Now() == old(Now())
      ensures outcome.Ok? ==>
                && IsMember(old(members), p) && !IsMember(members, p) && members - {p} == old(members) - {p}
                && (p in members ==> !members[p].admin) && requests == old(requests) && groups == old(groups)
    {
      if p.group !in groups { return GroupNotFound; }
      if groups[p.group].leader == p.user { return LeaderCannotLeave; }
      if p !in members || !members[p].active { return NotMember; }
      members := members[p := Member(false, false)];
      outcome := Ok;
    }

    method UpdateLeader(g: GroupId, user: UserId) returns (outcome: Outcome)
      modifies this
      ensures Now() == Do(old(Now()), SetLeader(g, user))
      ensures outcome.Ok? <==> g in old(groups) && user != 0 && user in old(people)
      ensures !outcome.Ok? ==> Now() == old(Now())
      ensures outcome.Ok? ==>
                && groups == old(groups)[g := Group(user, old(groups)[g].active)] && IsMember(members, Place(g, user))
                && members - {Place(g, user)} == old(members) - {Place(g, user)} && requests == old(requests)
                && (members[Place(g, user)].admin <==> Place(g, user) in old(members) && old(members)[Place(g, user)].admin)
    {
      if g !in groups { return GroupNotFound; }
      if user == 0 || user !in people { return NotMember; }
      var p := Place(g, user);
      if p in members { members := members[p := members[p].(active := true)]; }
      else { members := members[p := Member(true, false)]; }
      groups := groups[g := groups[g].(leader := user)];
      outcome := Ok;
    }

    method RemoveMember(user: UserId)
      modifies this
      ensures Now() == Do(old(Now()), RemovePerson(user))
      ensures user !in people && people + {user} == old(people) + {user} && members == old(members) && groups == old(groups)
      ensures requests.Keys == old(requests).Keys
      ensures forall p | p in requests ::
                if p.user == user && old(requests)[p].status == Pending
                then requests[p] == Request(old(requests)[p].id, Rejected, old(requests)[p].round)
                else requests[p] == old(requests)[p]
    {
      var pending := set p | p in requests && PendingOf(requests, user, p);
      decisions := decisions + multiset(RejectedBy(requests, user));
      people := people - {user};
      requests := map p | p in requests :: if p in pending then requests[p].(status := Rejected) else requests[p];
    }

    method DeleteGroup(g: GroupId) returns (outcome: Outcome)
      modifies this
      ensures Now() == Do(old(Now()), Delete(g))
      ensures outcome.Ok? <==> g in old(groups) && old(groups)[g].active
      ensures groups == if outcome.Ok? then old(groups)[g := Group(0, false)] else old(groups)
      ensures members == old(members) && requests == old(requests)
    {
      if g !in groups || !groups[g].active { return GroupNotFound; }
      groups := groups[g := Group(0, false)];
      outcome := Ok;
    }
  }
}
