/** Which summaries are delivered. */
module DeliveryOutcomes {
  import opened Bindings
  import opened CanonicalText
  import opened SentState
  import opened Jobs
  import opened Delivery
  import opened DeliveryFiles
  import opened DeliveryLogs
  import opened DeliveryTexts
  import opened DeliveryClosings
  import opened DeliveryRuns
  import opened Summaries
  import opened Checkins
  import opened Wrappers

  // ---------- texts ----------

  /* What the worker's job would be recorded as. */
  function Candidate(s: State): SentState
    requires s.worker.Busy?
  {
    StateFromJob(s.worker.item)
  }

  function LastOf<T>(items: seq<T>): T
    requires items != []
  {
    items[|items| - 1]
  }

  /* The texts of the key's deliveries are known. */
  lemma {:induction false} TextsKnown(start: State, steps: seq<Step>, key: Key)
    requires Initial(start)
    ensures var s := Run(start, steps); TextsOk(s.sent, DeliveredTo(s, key), TextsOf(s, key), key)
    ensures var s := Run(start, steps); FW(s) && (s.worker.Busy? ==> BodyRead(s.worker.item.body))
  {
    RunKeepsInv(start, steps);
    assert TextsInv(Run(start, steps));
  }

  /** Main result: over every run, a message in flight says something new: its text, marks aside, is not that of the last
      delivery of the same period. */
  lemma {:induction false} TextInFlightIsNews(start: State, steps: seq<Step>)
    requires Initial(start) && AtStage(Run(start, steps), Sending)
    ensures var s := Run(start, steps);
            var key, text := KeyOf(Candidate(s)), s.worker.item.body.text;
            |TextsOf(s, key)| == |DeliveredTo(s, key)|
            && (TextsOf(s, key) != [] && SamePeriod(LastOf(DeliveredTo(s, key)), Candidate(s))
                && Canonical(text) != "" && Canonical(LastOf(TextsOf(s, key))) != "" ==>
                  Canonical(text) != Canonical(LastOf(TextsOf(s, key))))
  {
    hide Canonical, StateFromJob;
    var s := Run(start, steps);
    var key := KeyOf(Candidate(s));
    TextsKnown(start, steps, key);
    NothingKnownIsSent(start, steps);
    if Canonical(s.worker.item.body.text) != "" { StateOfText(s.worker.item); }
  }

  /** Main result: unless the worker stopped between saving a job as sent and archiving it, two consecutive deliveries of
      one period have different texts, marks aside. */
  lemma {:induction false} ConsecutiveTextsDiffer(start: State, steps: seq<Step>, key: Key, i: nat)
    requires Initial(start) && Run(start, steps).intact.settled && 0 < i < |DeliveredTo(Run(start, steps), key)|
    ensures var deliveries, texts := DeliveredTo(Run(start, steps), key), TextsOf(Run(start, steps), key);
            |texts| == |deliveries|
            && (SamePeriod(deliveries[i - 1], deliveries[i]) && Canonical(texts[i - 1]) != "" && Canonical(texts[i]) != "" ==>
                  Canonical(texts[i]) != Canonical(texts[i - 1]))
  {
    hide Canonical;
    TextsKnown(start, steps, key);
    DeliveriesFollowEachOther(start, steps, key);
    var deliveries := DeliveredTo(Run(start, steps), key);
    assert Follows(deliveries[i - 1], deliveries[i]);
  }

  predicate IsSkipped(before: State, s: State) {
    && s.worker.Busy? && before.worker.Busy? && s.worker.stage == Finishing && s.worker.name == before.worker.name
    && s.worker.item == before.worker.item.(status := Skipped, code := ContentNotUpdated)
    && s.delivered == before.delivered && s.texts == before.texts
  }

  /** Main result: over every run, a summary that differs from the last delivery of its period at most in what is marked as
      new is not sent: the job ends as skipped for want of news. */
  lemma {:induction false} RemarkedSummaryIsSkipped(start: State, steps: seq<Step>, title: string, now: seq<Member>,
                                                    before: seq<Member>)
    requires Initial(start) && Run(start, steps).worker.Busy? && Run(start, steps).worker.stage.Summarised?
    requires SameMembers(now, before) && title != [] && !IsSpace(title[0]) && title[0] != MARKER[0]
    requires var s := Run(start, steps);
             var key := KeyOf(Candidate(s));
             && DeliveredTo(s, key) != [] && |TextsOf(s, key)| == |DeliveredTo(s, key)|
             && Complete(Candidate(s)) && Complete(LastOf(DeliveredTo(s, key)))
             && SamePeriod(LastOf(DeliveredTo(s, key)), Candidate(s))
             && s.worker.item.body.text == Assembled(title, now) && LastOf(TextsOf(s, key)) == Assembled(title, before)
    ensures IsSkipped(Run(start, steps), Do(Run(start, steps), Compare(true)))
  {
    hide Canonical, StateFromJob, Assembled, SameMembers;
    var s := Run(start, steps);
    var key := KeyOf(Candidate(s));
    TextsKnown(start, steps, key);
    MarksDoNotCount(title, now, before);
    TitledIsNotEmpty(title, now);
    TitledIsNotEmpty(title, before);
    SummarisedHasText(s);
    StateOfText(s.worker.item);
    assert s.sent[key].hash == Candidate(s).hash;
    KnownIsSkipped(s, key);
  }

  lemma KnownIsSkipped(s: State, key: Key)
    requires s.worker.Busy? && s.worker.stage.Summarised? && Complete(Candidate(s)) && key == KeyOf(Candidate(s))
    requires Readable(s.sent, key) && SamePeriod(s.sent[key], Candidate(s)) && s.sent[key].hash == Candidate(s).hash
    ensures IsSkipped(s, Do(s, Compare(true)))
  {
    hide StateFromJob;
    NotSentIsSkipped(s);
  }

  /** Main result: over every run, the summary of the same check-ins that were last delivered in its period is not sent again,
      whichever of them it is about. */
  lemma {:induction false} SameCheckinsAreSkipped(start: State, steps: seq<Step>, checkins: seq<Checkin>, form: Form, r: nat, q: nat)
    requires Initial(start) && Run(start, steps).worker.Busy? && Run(start, steps).worker.stage.Summarised?
    requires IsSummary(checkins, r, form) && IsSummary(checkins, q, form)
    requires var s := Run(start, steps);
             var key := KeyOf(Candidate(s));
             && DeliveredTo(s, key) != [] && |TextsOf(s, key)| == |DeliveredTo(s, key)|
             && Complete(Candidate(s)) && Complete(LastOf(DeliveredTo(s, key)))
             && SamePeriod(LastOf(DeliveredTo(s, key)), Candidate(s))
             && s.worker.item.body.text == Formatted(checkins, r, form) && LastOf(TextsOf(s, key)) == Formatted(checkins, q, form)
    ensures IsSkipped(Run(start, steps), Do(Run(start, steps), Compare(true)))
  {
    hide Run, Assembled, SameMembers, SameGroups, IsSkipped, StateFromJob, Grouped, IsFound;
    var separate := Separate(checkins, form);
    OtherRecordGroups(checkins, r, q, form.daily, separate);
    var a, b := Grouped(checkins, r, form.daily, separate), Grouped(checkins, q, form.daily, separate);
    SameGroupsSameMembers(a, b);
    RemarkedSummaryIsSkipped(start, steps, TitleOf(checkins, form), Members(a), Members(b));
  }

  lemma TitledIsNotEmpty(title: string, members: seq<Member>)
    requires title != [] && !IsSpace(title[0]) && title[0] != MARKER[0]
    ensures Canonical(Assembled(title, members)) != ""
  {
    hide Canonical;
    VisibleIsNotEmpty(Assembled(title, members));
  }

  lemma SummarisedHasText(s: State)
    requires FW(s) && s.worker.Busy? && s.worker.stage.Summarised?
    ensures |s.worker.item.body.messages| > 0
  {
  }

  // ---------- which summaries are delivered ----------

  /* The candidate follows the last delivery and its event is not part of it. */
  predicate IsNews(s: State)
    requires s.worker.Busy?
  {
    var candidate := Candidate(s);
    var key := KeyOf(candidate);
    DeliveredTo(s, key) == [] ||
      (key in s.sent && Follows(LastOf(DeliveredTo(s, key)), Recorded(s.sent, candidate)[key])
       && !(SamePeriod(LastOf(DeliveredTo(s, key)), candidate) && 0 < s.worker.item.recordId <= s.sent[key].covered))
  }

  /** Main result: over every run, a usable summary goes on to be sent exactly when it is news, and is skipped otherwise. */
  lemma {:induction false} GoesOnIffNews(start: State, steps: seq<Step>)
    requires Initial(start) && Run(start, steps).worker.Busy? && Run(start, steps).worker.stage.Summarised?
    requires var s := Run(start, steps);
             && Complete(Candidate(s))
             && (DeliveredTo(s, KeyOf(Candidate(s))) != [] ==> Complete(LastOf(DeliveredTo(s, KeyOf(Candidate(s))))))
    ensures var s := Run(start, steps);
            var s' := Do(s, Compare(true));
            if IsNews(s) then s'.worker == s.worker.(stage := Cleared(s.worker.stage.justRead)) && s'.sent == s.sent
            else IsSkipped(s, s')
  {
    hide StateFromJob, Canonical;
    var s := Run(start, steps);
    var candidate := Candidate(s);
    TextsKnown(start, steps, KeyOf(candidate));
    CallsIff(s.sent, candidate, s.worker.item.recordId);
    if KeyOf(candidate) in s.sent {
      SentIffFollowsLast(s.sent, candidate, s.worker.item.recordId, LastOf(DeliveredTo(s, KeyOf(candidate))));
    }
    NotSentIsSkipped(s);
  }

  lemma NotSentIsSkipped(s: State)
    requires s.worker.Busy? && s.worker.stage.Summarised? && Complete(Candidate(s))
    requires KeyOf(Candidate(s)) in s.sent ==> Readable(s.sent, KeyOf(Candidate(s)))
    ensures var s' := Do(s, Compare(true));
            if Decide(s.sent, Candidate(s), s.worker.item.recordId) == Send
            then s'.worker == s.worker.(stage := Cleared(s.worker.stage.justRead)) && s'.sent == s.sent
            else IsSkipped(s, s')
  {
    hide StateFromJob, Canonical;
  }

  /** In particular the summary of a later day goes on. */
  lemma {:induction false} LaterDayGoesOn(start: State, steps: seq<Step>)
    requires Initial(start) && Run(start, steps).worker.Busy? && Run(start, steps).worker.stage.Summarised?
    requires var s := Run(start, steps);
             var deliveries := DeliveredTo(s, KeyOf(Candidate(s)));
             && Complete(Candidate(s)) && Dated(Candidate(s)) && deliveries != [] && Complete(LastOf(deliveries))
             && Dated(LastOf(deliveries)) && DayOf(LastOf(deliveries)) < DayOf(Candidate(s))
    ensures Do(Run(start, steps), Compare(true)).worker.Busy? && Do(Run(start, steps), Compare(true)).worker.stage.Cleared?
  {
    hide StateFromJob, Canonical;
    var s := Run(start, steps);
    TextsKnown(start, steps, KeyOf(Candidate(s)));
    LaterDayIsSent(s.sent, Candidate(s), s.worker.item.recordId);
    NotSentIsSkipped(s);
  }

  // ---------- expiry ----------

  /** Main result: over every run, no message is in flight that had expired when its job was taken up. */
  lemma {:induction false} NothingExpiredIsSent(start: State, steps: seq<Step>)
    requires Initial(start)
    ensures Fresh(Run(start, steps).worker)
  {
    hide Do;
    if steps != [] {
      NothingExpiredIsSent(start, steps[..|steps| - 1]);
      DoKeepsFresh(Run(start, steps[..|steps| - 1]), steps[|steps| - 1]);
    }
  }

  // ---------- failures ----------

  /** A failure is tried again exactly if the sender says that it can be and fewer than five attempts were made; otherwise
      the job has failed. */
  lemma FailureIsFinalIff(s: State, failure: Option<Failure>)
    requires AtStage(s, Sending) && s.worker.item.nextPart < |s.worker.item.body.messages| && s.worker.item.attempts > 0
    ensures var w := Do(s, EndSend(Refused(failure))).worker;
            && w.Busy? && w.stage == Finishing && w.item.nextPart == s.worker.item.nextPart
            && w.item.status == (if failure.Some? && failure.value.retry && s.worker.item.attempts < 5 then Pending else Failed)
            && w.item.code == (if failure.Some? then failure.value.code else SendFailed)
  {
  }

  /** Main result: over every run, a job that was saved as failed, skipped or sent is never sent again, until it is archived
      or reset for a new body. */
  lemma {:induction false} ClosedIsNeverSent(start: State, steps: seq<Step>, later: seq<Step>, name: Name)
    requires Initial(start) && IsClosed(Run(start, steps), name)
    requires forall i | 0 <= i <= |later| :: !IsOver(Run(Run(start, steps), later[..i]), name)
    ensures IsClosed(Run(Run(start, steps), later), name)
    ensures forall i | 0 <= i < |later| :: !Sends(Run(Run(start, steps), later[..i]), later[i], name)
  {
    hide Do, FW, IsClosed, IsOver, Sends;
    assert later[..|later|] == later;
    if later != [] {
      var init, n := later[..|later| - 1], |later| - 1;
      assert forall i | 0 <= i <= n :: later[..i] == init[..i];
      ClosedIsNeverSent(start, steps, init, name);
      ClosedAtStep(start, steps, init, later[n], name);
    }
  }

  lemma ClosedAtStep(start: State, steps: seq<Step>, init: seq<Step>, step: Step, name: Name)
    requires Initial(start) && IsClosed(Run(Run(start, steps), init), name)
    ensures var s := Run(Run(start, steps), init);
            (IsClosed(Do(s, step), name) || IsOver(Do(s, step), name)) && !Sends(s, step, name)
  {
    hide Do, FW, IsClosed, IsOver, Sends, Run;
    RunsOn(start, steps, init);
    RunKeepsInv(start, steps + init);
    ClosedStays(Run(Run(start, steps), init), step, name);
    ClosedDoesNotSend(Run(Run(start, steps), init), step, name);
  }
}
