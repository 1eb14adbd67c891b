/** What each chat was last sent. */
module SentState {
  import opened Bindings
  import opened CanonicalText
  import opened Dates
  import opened Wrappers

  /* The kind of summary; NoTopic is any other text. */
  datatype Topic = NoTopic | Daily | Weekly

  function TopicText(topic: Topic): string {
    match topic
    case NoTopic => ""
    case Daily => "daily"
    case Weekly => "weekly"
  }

  /* `hash` stands for the content hash: equal exactly for equal contents, empty for the empty one. */
  datatype SentState = SentState(group: nat, target: Target, topic: Topic, version: string, periodId: string,
                                 hash: string, content: string, sentAt: nat, covered: nat)

  datatype Key = Key(group: nat, target: Target, topic: Topic)

  type States = map<Key, SentState>

  function KeyOf(s: SentState): Key { Key(s.group, s.target, s.topic) }

  predicate ValidTopic(topic: Topic) { !topic.NoTopic? }

  predicate Complete(s: SentState) {
    s.group != 0 && ValidTopic(s.topic) && s.version != "" && s.hash != ""
  }

  /* What reading a stored state accepts. */
  predicate Readable(states: States, key: Key) {
    key in states && KeyOf(states[key]) == key && states[key].version != "" && states[key].hash != ""
  }

  predicate SameId(a: SentState, b: SentState) {
    a.periodId != "" && a.periodId == b.periodId
  }

  predicate SamePeriod(a: SentState, b: SentState) {
    a.version == b.version || SameId(a, b)
  }

  function TrimPrefix(text: string, prefix: string): string {
    if prefix <= text then text[|prefix|..] else text
  }

  function VersionDate(topic: Topic, version: string): ParsedDate {
    var prefix := TopicText(topic) + ":";
    if prefix <= version then ParseDate(TrimPrefix(version[|prefix|..], "none:")) else NotADate
  }

  predicate Earlier(topic: Topic, a: string, b: string) {
    VersionDate(topic, a).Day? && VersionDate(topic, b).Day?
    && VersionDate(topic, a).ordinal < VersionDate(topic, b).ordinal
  }

  /* Both are versions of days, and the first day is the earlier one. */
  predicate IsEarlierDay(topic: Topic, a: string, b: string) {
    match VersionDate(topic, a)
    case NotADate => false
    case Day(day) => VersionDate(topic, b).Day? && day < VersionDate(topic, b).ordinal
  }

  lemma DateIsNoPrefix(date: string)
    requires ParseDate(date).Day?
    ensures !("none:" <= date)
  {
    assert date[0] != "none:"[0];
  }

  /* The date of a version is the text after the topic's name and a colon, ... */
  lemma PlainDate(topic: Topic, date: string)
    requires ParseDate(date).Day?
    ensures VersionDate(topic, TopicText(topic) + ":" + date) == ParseDate(date)
  {
    hide ParseDate, TopicText;
    DateIsNoPrefix(date);
    var prefix := TopicText(topic) + ":";
    assert (prefix + date)[|prefix|..] == date;
  }

  /* ... or after the mark of a missing plan, ... */
  lemma MarkedDate(topic: Topic, date: string)
    requires ParseDate(date).Day?
    ensures VersionDate(topic, TopicText(topic) + ":none:" + date) == ParseDate(date)
  {
    hide ParseDate, TopicText;
    var prefix, value := TopicText(topic) + ":", "none:" + date;
    assert TopicText(topic) + ":none:" + date == prefix + value;
    assert (prefix + value)[|prefix|..] == value && value[5..] == date;
  }

  /* ... and no other version has one. */
  lemma DatedVersionIs(topic: Topic, version: string) returns (date: string)
    requires VersionDate(topic, version).Day?
    ensures VersionDate(topic, version) == ParseDate(date)
    ensures version == TopicText(topic) + ":" + date || version == TopicText(topic) + ":none:" + date
  {
    hide ParseDate, TopicText;
    var prefix := TopicText(topic) + ":";
    var value := version[|prefix|..];
    assert version == prefix + value;
    date := TrimPrefix(value, "none:");
    if "none:" <= value {
      assert value == "none:" + date;
      assert TopicText(topic) + ":none:" + date == prefix + ("none:" + date);
    }
  }

  datatype Decision = Unreadable | Send | Hold | Widen(states: States)

  /* Whether the candidate, built for the given record (zero for none), has to be sent. */
  function Decide(states: States, candidate: SentState, recordId: nat): Decision {
    var key := KeyOf(candidate);
    if !Complete(candidate) then Unreadable
    else if key !in states then Send
    else if !Readable(states, key) then Unreadable
    else
      var state := states[key];
      if SamePeriod(state, candidate) then
        if 0 < recordId <= state.covered then Hold
        else if state.hash == candidate.hash then
          if candidate.covered > state.covered then Widen(states[key := state.(covered := candidate.covered)])
          else Hold
        else Send
      else if Earlier(candidate.topic, candidate.version, state.version) then Hold
      else Send
  }

  /* The event is part of what its period was already sent. */
  predicate Covered(state: SentState, candidate: SentState, recordId: nat) {
    SamePeriod(state, candidate) && 0 < recordId <= state.covered
  }

  /* When a candidate calls for a delivery: nothing is known of its key, or what would be recorded follows what is known,
     and the event is not covered. */
  predicate Calls(states: States, candidate: SentState, recordId: nat) {
    var key := KeyOf(candidate);
    key !in states || (Readable(states, key) && Follows(states[key], Recorded(states, candidate)[key])
                       && !Covered(states[key], candidate, recordId))
  }

  lemma CallsIff(states: States, candidate: SentState, recordId: nat)
    ensures Decide(states, candidate, recordId) == Send <==> Complete(candidate) && Calls(states, candidate, recordId)
  {
  }

  function Max(a: nat, b: nat): nat { if a > b then a else b }

  /* The states after a delivery is recorded. */
  function Recorded(states: States, state: SentState): States {
    var key := KeyOf(state);
    var covered := if Readable(states, key) && SamePeriod(states[key], state)
                   then Max(state.covered, states[key].covered) else state.covered;
    states[key := state.(covered := covered)]
  }

  class SentStore {
    var states: States

    constructor ()
      ensures states == map[]
    {
      states := map[];
    }

    method Read(key: Key) returns (state: Option<SentState>, failed: bool)
      ensures failed <==> key in states && !Readable(states, key)
      ensures state == if Readable(states, key) then Some(states[key]) else None
    {
      if key !in states {
        return None, false;
      }
      var stored := states[key];
      if stored.group != key.group || stored.target != key.target || stored.topic != key.topic ||
         stored.version == "" || stored.hash == "" {
        return None, true;
      }
      return Some(stored), false;
    }

    /** `failed` reports an unusable candidate or state, or a write that did not succeed. */
    method NeedsSend(candidate: SentState, recordId: nat, writable: bool) returns (needs: bool, failed: bool)
      modifies this
      ensures var decision := Decide(old(states), candidate, recordId);
              && (needs <==> decision.Send?)
              && (failed <==> decision.Unreadable? || (decision.Widen? && !writable))
              && states == if decision.Widen? && writable then decision.states else old(states)
      ensures needs <==> Complete(candidate) && Calls(old(states), candidate, recordId)
      ensures var key := Key(candidate.group, candidate.target, candidate.topic);
              var usable := candidate.group != 0 && candidate.topic != NoTopic && candidate.version != "" && candidate.hash != "";
              && (needs ==> usable)
              && (usable && key !in old(states) ==> needs)
              && (usable && key in old(states) ==>
                    var state := old(states)[key];
                    needs <==>
                      && state.group == key.group && state.target == key.target && state.topic == key.topic
                      && state.version != "" && state.hash != ""
                      && if state.version == candidate.version || (state.periodId != "" && state.periodId == candidate.periodId)
                         then state.hash != candidate.hash && !(0 < recordId <= state.covered)
                         else !IsEarlierDay(candidate.topic, candidate.version, state.version))
      ensures states.Keys == old(states).Keys
      ensures forall key | key in states ::
                states[key] == old(states)[key].(covered :=
                  if key == KeyOf(candidate) && Complete(candidate) && Readable(old(states), key) && writable
                     && SamePeriod(old(states)[key], candidate) && !Covered(old(states)[key], candidate, recordId)
                     && old(states)[key].hash == candidate.hash
                  then Max(old(states)[key].covered, candidate.covered) else old(states)[key].covered)
    {
      CallsIff(states, candidate, recordId);
      if candidate.group == 0 || !ValidTopic(candidate.topic) || candidate.version == "" || candidate.hash == "" {
        return false, true;
      }
      var stored, unreadable := Read(KeyOf(candidate));
      if unreadable {
        return false, true;
      }
      if stored.None? {
        return true, false;
      }
      var state := stored.value;
      if state.version == candidate.version || SameId(state, candidate) {
        if recordId > 0 && recordId <= state.covered {
          return false, false;
        }
        if state.hash == candidate.hash {
          if candidate.covered > state.covered {
            state := state.(covered := candidate.covered);
            if !writable {
              return false, true;
            }
            states := states[KeyOf(state) := state];
          }
          return false, false;
        }
        return true, false;
      }
      var current := VersionDate(candidate.topic, candidate.version);
      var previous := VersionDate(candidate.topic, state.version);
      if current.Day? && previous.Day? && current.ordinal < previous.ordinal {
        return false, false;
      }
      return true, false;
    }

    method Record(state: SentState, writable: bool) returns (ok: bool)
      modifies this
      ensures ok <==> Complete(state) && writable
      ensures ok <==> state.group != 0 && state.topic != NoTopic && state.version != "" && state.hash != "" && writable
      ensures var key := Key(state.group, state.target, state.topic);
              ok ==>
                && key in states && states - {key} == old(states) - {key}
                && states[key] == state.(covered := states[key].covered)
                && states[key].covered ==
                   (if key in old(states) && KeyOf(old(states)[key]) == key && old(states)[key].version != ""
                       && old(states)[key].hash != "" && old(states)[key].covered > state.covered
                       && (old(states)[key].version == state.version
                           || (state.periodId != "" && old(states)[key].periodId == state.periodId))
                    then old(states)[key].covered else state.covered)
      ensures states == if ok then Recorded(old(states), state) else old(states)
    {
      if state.group == 0 || !ValidTopic(state.topic) || state.version == "" || state.hash == "" {
        return false;
      }
      var previous, _ := Read(KeyOf(state));
      var recorded := state;
      if previous.Some? && (previous.value.version == state.version || SameId(previous.value, state)) {
        recorded := recorded.(covered := Max(state.covered, previous.value.covered));
      }
      if writable {
        states := states[KeyOf(recorded) := recorded];
      }
      return writable;
    }

    /** Rebuild missing states from the archive, never over a stored state. */
    method Bootstrap(archived: seq<SentState>)
      modifies this
      ensures states == LatestStates(archived) + old(states)
    {
      var latest: States := map[];
      for n := 0 to |archived|
        invariant latest == LatestStates(archived[..n])
      {
        assert archived[..n + 1][..n] == archived[..n];
        var state := archived[n];
        if state.group != 0 && ValidTopic(state.topic) && state.hash != "" {
          var key := KeyOf(state);
          if key !in latest || latest[key].sentAt < state.sentAt {
            latest := latest[key := state];
          }
        }
      }
      assert archived[..|archived|] == archived;
      var rest := latest.Keys;
      while rest != {}
        invariant rest <= latest.Keys
        invariant states == (latest - rest) + old(states)
        decreases |rest|
      {
        var key :| key in rest;
        if key !in states {
          states := states[key := latest[key]];
        }
        rest := rest - {key};
      }
      assert latest - rest == latest;
    }
  }

  predicate Usable(s: SentState) {
    s.group != 0 && ValidTopic(s.topic) && s.hash != ""
  }

  function LatestStates(archived: seq<SentState>): States {
    if archived == [] then map[]
    else
      var latest := LatestStates(archived[..|archived| - 1]);
      var state := archived[|archived| - 1];
      if Usable(state) && (KeyOf(state) in latest ==> latest[KeyOf(state)].sentAt < state.sentAt)
      then latest[KeyOf(state) := state] else latest
  }

  /** What is rebuilt for a key is the first of its latest archived deliveries. */
  lemma {:induction false} LatestStatesMeaning(archived: seq<SentState>, key: Key)
    ensures key in LatestStates(archived) <==>
            exists i :: 0 <= i < |archived| && Usable(archived[i]) && KeyOf(archived[i]) == key
    ensures key in LatestStates(archived) ==>
              exists i :: 0 <= i < |archived| && archived[i] == LatestStates(archived)[key] && Usable(archived[i])
                          && KeyOf(archived[i]) == key && NewestAt(archived, i)
  {
    if archived != [] {
      var init := archived[..|archived| - 1];
      var last := archived[|archived| - 1];
      LatestStatesMeaning(init, key);
      if key in LatestStates(init) {
        var i :| 0 <= i < |init| && init[i] == LatestStates(init)[key] && Usable(init[i])
                 && KeyOf(init[i]) == key && NewestAt(init, i);
        assert archived[i] == init[i];
        forall j | 0 <= j < |init| ensures archived[j] == init[j] {
        }
        if LatestStates(archived)[key] == last && Usable(last) && KeyOf(last) == key && init[i].sentAt < last.sentAt {
          assert NewestAt(archived, |archived| - 1);
        } else {
          assert NewestAt(archived, i);
        }
      } else if Usable(last) && KeyOf(last) == key {
        forall j | 0 <= j < |init| ensures !(Usable(archived[j]) && KeyOf(archived[j]) == key) {
          assert archived[j] == init[j];
        }
        assert NewestAt(archived, |archived| - 1);
      }
    }
  }

  /* No delivery of the same key is newer, and no earlier-listed one is as new. */
  predicate NewestAt(archived: seq<SentState>, i: nat)
    requires i < |archived|
  {
    forall j | 0 <= j < |archived| && Usable(archived[j]) && KeyOf(archived[j]) == KeyOf(archived[i]) ::
      archived[j].sentAt <= archived[i].sentAt && (j < i ==> archived[j].sentAt < archived[i].sentAt)
  }

  // ---------- consecutive deliveries ----------

  /* What holds between a delivery and the next one under the same key. */
  predicate Follows(previous: SentState, next: SentState) {
    && KeyOf(previous) == KeyOf(next)
    && (SamePeriod(previous, next) ==> next.hash != previous.hash && next.covered >= previous.covered)
    && (Earlier(next.topic, next.version, previous.version) ==> SameId(previous, next))
  }

  /* The stored state of a key still is its last delivery, with at least its coverage. */
  predicate Continues(delivered: SentState, stored: SentState) {
    stored == delivered.(covered := stored.covered) && stored.covered >= delivered.covered
  }

  /** A candidate that was decided to be sent, once recorded, follows the last delivery. */
  lemma SentFollowsLast(states: States, candidate: SentState, recordId: nat, last: SentState)
    requires KeyOf(candidate) in states && Continues(last, states[KeyOf(candidate)])
    requires Decide(states, candidate, recordId) == Send
    ensures Follows(last, Recorded(states, candidate)[KeyOf(candidate)])
    ensures SamePeriod(last, candidate) && recordId > 0 ==> recordId > last.covered
  {
  }

  /** The converse too: a usable candidate is sent exactly when it follows the last delivery and its event is not covered. */
  lemma SentIffFollowsLast(states: States, candidate: SentState, recordId: nat, last: SentState)
    requires Complete(candidate) && Readable(states, KeyOf(candidate)) && Continues(last, states[KeyOf(candidate)])
    ensures Decide(states, candidate, recordId) == Send <==>
            Follows(last, Recorded(states, candidate)[KeyOf(candidate)])
            && !(SamePeriod(last, candidate) && 0 < recordId <= states[KeyOf(candidate)].covered)
  {
  }

  /** In particular the summary of a later day is always sent. */
  lemma LaterDayIsSent(states: States, candidate: SentState, recordId: nat)
    requires Complete(candidate) && Readable(states, KeyOf(candidate)) && Dated(candidate) && Dated(states[KeyOf(candidate)])
    requires DayOf(states[KeyOf(candidate)]) < DayOf(candidate)
    ensures Decide(states, candidate, recordId) == Send
  {
  }

  ghost predicate Chain(deliveries: seq<SentState>) {
    forall i | 0 < i < |deliveries| :: Follows(deliveries[i - 1], deliveries[i])
  }

  /* Snapshots of a day have no period ID and the version "<topic>:<date>". */
  predicate Dated(s: SentState) {
    s.periodId == "" && |s.version| == |TopicText(s.topic)| + 11 && VersionDate(s.topic, s.version).Day?
  }

  function DayOf(s: SentState): nat
    requires Dated(s)
  {
    VersionDate(s.topic, s.version).ordinal
  }

  ghost predicate AllDated(deliveries: seq<SentState>) {
    forall k | 0 <= k < |deliveries| :: Dated(deliveries[k])
  }

  /** Over any chain of daily deliveries the date never moves back, and while the version stays the same the
      covered record never decreases. */
  lemma {:induction false} DailyNeverMovesBack(deliveries: seq<SentState>, i: nat, j: nat)
    requires Chain(deliveries) && i <= j < |deliveries| && AllDated(deliveries)
    ensures deliveries[i].topic == deliveries[j].topic
    ensures DayOf(deliveries[i]) <= DayOf(deliveries[j])
    ensures deliveries[i].version == deliveries[j].version ==> deliveries[i].covered <= deliveries[j].covered
    decreases j
  {
    if i < j {
      DailyNeverMovesBack(deliveries, i, j - 1);
      assert Follows(deliveries[j - 1], deliveries[j]);
      if DayOf(deliveries[j - 1]) == DayOf(deliveries[j]) {
        SameDaySameVersion(deliveries[j - 1], deliveries[j]);
      }
    }
  }

  /* A version of that length is the topic, a colon and the date itself. */
  lemma PlainVersion(prefix: string, version: string)
    requires prefix <= version && |version| == |prefix| + 10
    requires ParseDate(TrimPrefix(version[|prefix|..], "none:")).Day?
    ensures TrimPrefix(version[|prefix|..], "none:") == version[|prefix|..]
  {
    var value := version[|prefix|..];
    assert "none:" <= value ==> |TrimPrefix(value, "none:")| == 5;
  }

  lemma SameDaySameVersion(a: SentState, b: SentState)
    requires a.topic == b.topic && Dated(a) && Dated(b) && DayOf(a) == DayOf(b)
    ensures a.version == b.version
  {
    var prefix := TopicText(a.topic) + ":";
    PlainVersion(prefix, a.version);
    PlainVersion(prefix, b.version);
    SameOrdinalSameText(a.version[|prefix|..], b.version[|prefix|..]);
    SamePrefixSameRest(prefix, a.version, b.version);
  }

  lemma SamePrefixSameRest(prefix: string, x: string, y: string)
    requires prefix <= x && prefix <= y && x[|prefix|..] == y[|prefix|..]
    ensures x == y
  {
    assert x == prefix + x[|prefix|..] && y == prefix + y[|prefix|..];
  }
}
