/** Who belongs to a ministry group, and since when. */
module MinistryMembers {
  import opened Ministry
  import opened Wrappers

  // ---------- one transaction ----------

  /* The transactions that make someone an active member: a moderator's approval of the pending round, an automatic
     approval, and being made the leader. */
  predicate Admits(s: State, step: Step, p: Place) {
    match step
    case Join(q, autoApprove) => q == p && autoApprove && p.group in s.groups && p.user in s.people && !IsMember(s.members, p)
    case Decide(q, expected, approve) => q == p && approve && p.user in s.people && p.group in s.groups && Awaits(s, p, expected)
    case SetLeader(g, user) => Place(g, user) == p && g in s.groups && user != 0 && user in s.people
    case _ => false
  }

  predicate Awaits(s: State, p: Place, round: nat) {
    p in s.requests && s.requests[p].status == Pending && s.requests[p].round == round
  }

  predicate Leaves(s: State, step: Step, p: Place) {
    step == Leave(p) && p.group in s.groups && s.groups[p.group].leader != p.user && IsMember(s.members, p)
  }

  lemma MemberAfterRequest(s: State, step: Step, p: Place)
    requires step.Join? || step.Decide?
    ensures IsMember(Do(s, step).members, p) <==> Admits(s, step, p) || IsMember(s.members, p)
  {
  }

  /* Exactly these make a member, and only leaving ends a membership. */
  lemma MemberAfterIff(s: State, step: Step, p: Place)
    ensures IsMember(Do(s, step).members, p) <==> Admits(s, step, p) || (IsMember(s.members, p) && !Leaves(s, step, p))
  {
    hide Joined, Reviewed, Removed, Awaits;
    if step.Join? || step.Decide? { MemberAfterRequest(s, step, p); } else if step.RemovePerson? { RemovalKeepsMembers(s, step.user); }
  }

  /* Being removed from the study group leaves the memberships of the ministry groups alone. */
  lemma RemovalKeepsMembers(s: State, user: UserId)
    ensures Do(s, RemovePerson(user)).members == s.members
  {
  }

  predicate IsAdmin(members: map<Place, Member>, p: Place) { IsMember(members, p) && members[p].admin }

  /* The role of an administrator comes only from setting it; leaving and a new approval take it away again. */
  predicate AdminStays(s: State, step: Step, p: Place) {
    step != SetRole(p, false) && !Leaves(s, step, p) && !(Admits(s, step, p) && step.Decide?)
  }

  predicate AdminsActive(members: map<Place, Member>, p: Place) { p in members && members[p].admin ==> members[p].active }

  lemma AdminAfterRequest(s: State, step: Step, p: Place)
    requires AdminsActive(s.members, p) && (step.Join? || step.Decide?)
    ensures IsAdmin(Do(s, step).members, p) <==> IsAdmin(s.members, p) && AdminStays(s, step, p)
    ensures AdminsActive(Do(s, step).members, p)
  {
  }

  lemma AdminAfterIff(s: State, step: Step, p: Place)
    requires AdminsActive(s.members, p)
    ensures IsAdmin(Do(s, step).members, p) <==>
            (step == SetRole(p, true) && IsMember(s.members, p)) || (IsAdmin(s.members, p) && AdminStays(s, step, p))
    ensures AdminsActive(Do(s, step).members, p)
  {
    hide Joined, Reviewed;
    if step.Join? || step.Decide? { AdminAfterRequest(s, step, p); }
  }

  function LeaderOf(s: State, g: GroupId): UserId { if g in s.groups then s.groups[g].leader else 0 }

  /* A group's leader changes when one is set, and goes when the group is deleted. */
  lemma LeaderAfter(s: State, step: Step, g: GroupId)
    ensures LeaderOf(Do(s, step), g) ==
            if step.SetLeader? && step.group == g && g in s.groups && step.user != 0 && step.user in s.people then step.user
            else if step == Delete(g) && g in s.groups && s.groups[g].active then 0
            else LeaderOf(s, g)
  {
  }

  predicate IsActive(s: State, g: GroupId) { g in s.groups && s.groups[g].active }

  /* A group exists once it was created, and is active until it is deleted. */
  lemma ActiveAfterIff(s: State, step: Step, g: GroupId)
    ensures g in Do(s, step).groups <==> g in s.groups || step == Create(g)
    ensures IsActive(Do(s, step), g) <==> (step == Create(g) && g !in s.groups) || (IsActive(s, g) && step != Delete(g))
  {
  }

  /* A decision touches the request and, if it approves, the membership of its place alone. */
  lemma DecisionChangesOnly(s: State, p: Place, expected: nat, approve: bool)
    requires Awaits(s, p, expected) && p.group in s.groups && (approve ==> p.user in s.people)
    ensures var s' := Do(s, Decide(p, expected, approve));
            && s'.members == (if approve then s.members[p := Member(true, false)] else s.members)
            && s'.requests == s.requests[p := Request(s.requests[p].id, if approve then Approved else Rejected, expected)]
            && s'.groups == s.groups && s'.people == s.people && s'.nextRequest == s.nextRequest
            && s'.decisions == s.decisions + multiset{Decision(s.requests[p].id, expected)}
  {
  }

  /* Leaving ends the membership of the place alone. */
  lemma LeavingChangesOnly(s: State, p: Place)
    ensures var s' := Do(s, Leave(p));
            && (forall q :: q != p ==> (IsMember(s'.members, q) <==> IsMember(s.members, q)))
            && (IsMember(s'.members, p) <==> IsMember(s.members, p) && !Leaves(s, Leave(p), p))
            && s'.requests == s.requests && s'.groups == s.groups && s'.people == s.people && s'.decisions == s.decisions
  {
  }

  // ---------- every run ----------

  /* Main result: over every run an active member has been one without a break since a transaction that admitted them:
     the approval of their pending request, an automatic approval, or being made the leader. */
  lemma {:induction false} MemberSince(start: State, steps: seq<Step>, p: Place) returns (i: nat)
    requires Initial(start) && IsMember(Run(start, steps).members, p)
    ensures i < |steps| && !IsMember(Run(start, steps[..i]).members, p) && Admits(Run(start, steps[..i]), steps[i], p)
    ensures forall j | i < j <= |steps| :: IsMember(Run(start, steps[..j]).members, p)
  {
    hide Do, IsMember, Admits, Leaves;
    assert steps[..|steps|] == steps;
    if steps == [] {
      NobodyAtFirst(start, p);
    } else {
      var init, last := steps[..|steps| - 1], steps[|steps| - 1];
      MemberAfterIff(Run(start, init), last, p);
      if IsMember(Run(start, init).members, p) {
        i := MemberSince(start, init, p);
        forall j | 0 <= j <= |init| ensures steps[..j] == init[..j] {}
      } else {
        i := |steps| - 1;
      }
    }
  }

  lemma NobodyAtFirst(start: State, p: Place)
    requires Initial(start)
    ensures !IsMember(start.members, p) && !IsAdmin(start.members, p)
  {
  }

  lemma {:induction false} AdminsAreActive(start: State, steps: seq<Step>, p: Place)
    requires Initial(start)
    ensures AdminsActive(Run(start, steps).members, p)
  {
    hide Do;
    if steps != [] {
      AdminsAreActive(start, steps[..|steps| - 1], p);
      AdminAfterIff(Run(start, steps[..|steps| - 1]), steps[|steps| - 1], p);
    }
  }

  /* Main result: an administrator has been one without a break since their role was set while they were a member. */
  lemma {:induction false} AdminSince(start: State, steps: seq<Step>, p: Place) returns (i: nat)
    requires Initial(start) && IsAdmin(Run(start, steps).members, p)
    ensures i < |steps| && steps[i] == SetRole(p, true) && IsMember(Run(start, steps[..i]).members, p)
    ensures forall j | i < j <= |steps| :: IsAdmin(Run(start, steps[..j]).members, p)
  {
    hide Do, IsMember, IsAdmin, AdminStays, AdminsActive;
    assert steps[..|steps|] == steps;
    if steps == [] {
      NobodyAtFirst(start, p);
    } else {
      var init, last := steps[..|steps| - 1], steps[|steps| - 1];
      AdminsAreActive(start, init, p);
      AdminAfterIff(Run(start, init), last, p);
      if last == SetRole(p, true) && IsMember(Run(start, init).members, p) {
        i := |steps| - 1;
      } else {
        i := AdminSince(start, init, p);
        forall j | 0 <= j <= |init| ensures steps[..j] == init[..j] {}
      }
    }
  }

  /* Main result: a group's leader was made so, and since then neither another was nor was the group deleted. */
  lemma {:induction false} LeaderSince(start: State, steps: seq<Step>, g: GroupId) returns (i: nat)
    requires Initial(start) && LeaderOf(Run(start, steps), g) != 0
    ensures i < |steps| && steps[i] == SetLeader(g, LeaderOf(Run(start, steps), g))
    ensures forall j | i < j <= |steps| :: LeaderOf(Run(start, steps[..j]), g) == LeaderOf(Run(start, steps), g)
  {
    hide Do;
    assert steps[..|steps|] == steps;
    if steps != [] {
      var init, last := steps[..|steps| - 1], steps[|steps| - 1];
      var before := Run(start, init);
      LeaderAfter(before, last, g);
      if last.SetLeader? && last.group == g && g in before.groups && last.user != 0 && last.user in before.people {
        i := |steps| - 1;
      } else {
        i := LeaderSince(start, init, g);
        forall j | 0 <= j <= |init| ensures steps[..j] == init[..j] {}
      }
    }
  }
}
