/** The versions of a daily schedule, and which of them a later start keeps in effect. */
module ScheduleHistory {
  import opened Dates
  import CanonicalText
  import opened Wrappers

  /* A field of a schedule; `Other` stands for every value that is not a text. */
  datatype Value = Text(text: string) | Other(code: nat)

  type Fields = map<string, Value>

  /* The stored configuration; its history is kept beside its other fields. */
  datatype Config = Config(fields: Fields, history: seq<Fields>)

  const DEVOTION_KEYS := ["numbered_start_date", "start_date"]
  const SCRIPTURE_KEYS := ["start_date"]

  function TextOf(v: Fields, key: string): string { if key in v && v[key].Text? then v[key].text else [] }

  /* The first of these fields that holds a date. */
  function Start(v: Fields, keys: seq<string>): ParsedDate {
    if keys == [] then NotADate
    else
      var date := ParseDate(CanonicalText.TrimSpace(TextOf(v, keys[0])));
      if date.Day? then date else Start(v, keys[1..])
  }

  /* Which field that is. */
  lemma {:induction false} StartMeaning(v: Fields, keys: seq<string>)
    ensures match Start(v, keys)
            case Day(ordinal) =>
              exists i :: 0 <= i < |keys| && ParseDate(CanonicalText.TrimSpace(TextOf(v, keys[i]))) == Day(ordinal)
                          && forall j | 0 <= j < i :: ParseDate(CanonicalText.TrimSpace(TextOf(v, keys[j]))).NotADate?
            case NotADate => forall i | 0 <= i < |keys| :: ParseDate(CanonicalText.TrimSpace(TextOf(v, keys[i]))).NotADate?
  {
    hide ParseDate;
    if keys != [] && ParseDate(CanonicalText.TrimSpace(TextOf(v, keys[0]))).NotADate? {
      var rest := keys[1..];
      StartMeaning(v, rest);
      assert forall i | 0 <= i < |rest| :: rest[i] == keys[i + 1];
      assert forall i | 0 < i < |keys| :: keys[i] == rest[i - 1];
      if Start(v, keys).Day? {
        var i :| 0 <= i < |rest| && ParseDate(CanonicalText.TrimSpace(TextOf(v, rest[i]))) == Start(v, rest)
                 && forall j | 0 <= j < i :: ParseDate(CanonicalText.TrimSpace(TextOf(v, rest[j]))).NotADate?;
        assert ParseDate(CanonicalText.TrimSpace(TextOf(v, keys[i + 1]))) == Start(v, keys);
      }
    }
  }

  // ---------- the version in effect ----------

  predicate Begun(v: Fields, keys: seq<string>, day: nat) { Start(v, keys).Day? && Start(v, keys).ordinal <= day }

  predicate Before(a: ParsedDate, b: ParsedDate) { b.Day? && (a.NotADate? || a.ordinal < b.ordinal) }

  /* The version with the latest start not after the day; the last one of several. */
  function Selected(versions: seq<Fields>, keys: seq<string>, day: nat): Option<Fields> {
    if versions == [] then None
    else
      var rest, last := Selected(versions[..|versions| - 1], keys, day), versions[|versions| - 1];
      if Begun(last, keys, day) && (rest.None? || !Before(Start(last, keys), Start(rest.value, keys))) then Some(last) else rest
  }

  /* The version with the earliest start; the first one of several. */
  function Earliest(versions: seq<Fields>, keys: seq<string>): Option<Fields> {
    if versions == [] then None
    else
      var rest, last := Earliest(versions[..|versions| - 1], keys), versions[|versions| - 1];
      if Start(last, keys).Day? && (rest.None? || Before(Start(last, keys), Start(rest.value, keys))) then Some(last) else rest
  }

  function Versions(c: Config): seq<Fields> { c.history + [c.fields] }

  function InEffect(c: Config, keys: seq<string>, day: nat): Option<Fields> {
    var selected := Selected(Versions(c), keys, day);
    if selected.Some? then selected else Earliest(Versions(c), keys)
  }

  /* The fields in effect: those of the version, and the configuration's own where the version has none. */
  function Effective(c: Config, keys: seq<string>, day: nat): Fields {
    match InEffect(c, keys, day)
    case Some(v) => c.fields + v
    case None => c.fields
  }

  lemma {:induction false} NothingSelected(versions: seq<Fields>, keys: seq<string>, day: nat)
    ensures Selected(versions, keys, day).None? <==> forall i | 0 <= i < |versions| :: !Begun(versions[i], keys, day)
  {
    if versions != [] {
      var init := versions[..|versions| - 1];
      NothingSelected(init, keys, day);
      assert forall i | 0 <= i < |init| :: init[i] == versions[i];
    }
  }

  predicate IsLatest(versions: seq<Fields>, keys: seq<string>, day: nat, i: nat) {
    && i < |versions| && Begun(versions[i], keys, day)
    && forall j | 0 <= j < |versions| && Begun(versions[j], keys, day) ::
         Start(versions[j], keys).ordinal <= Start(versions[i], keys).ordinal
         && (j > i ==> Start(versions[j], keys).ordinal < Start(versions[i], keys).ordinal)
  }

  /* The latest version of a history stays the latest when a version is added that has not begun or began earlier. */
  lemma LatestStays(init: seq<Fields>, last: Fields, keys: seq<string>, day: nat, i: nat)
    requires IsLatest(init, keys, day, i)
    requires Begun(last, keys, day) ==> Before(Start(last, keys), Start(init[i], keys))
    ensures IsLatest(init + [last], keys, day, i)
  {
    hide Start;
    forall j | 0 <= j < |init + [last]| && Begun((init + [last])[j], keys, day)
      ensures Start((init + [last])[j], keys).ordinal <= Start(init[i], keys).ordinal
      ensures j > i ==> Start((init + [last])[j], keys).ordinal < Start(init[i], keys).ordinal
    {
      if j < |init| { assert (init + [last])[j] == init[j]; }
    }
  }

  /* An added version that has begun, and not before the others, is the latest. */
  lemma LastIsLatest(init: seq<Fields>, last: Fields, keys: seq<string>, day: nat)
    requires Begun(last, keys, day)
    requires forall j | 0 <= j < |init| && Begun(init[j], keys, day) ::
               Start(init[j], keys).ordinal <= Start(last, keys).ordinal
    ensures IsLatest(init + [last], keys, day, |init|)
  {
    hide Start;
    forall j | 0 <= j < |init + [last]| && Begun((init + [last])[j], keys, day)
      ensures Start((init + [last])[j], keys).ordinal <= Start(last, keys).ordinal
    {
      if j < |init| { assert (init + [last])[j] == init[j]; }
    }
  }

  /* What the loop over the versions picks, said without the loop. */
  lemma {:induction false} SelectedIsLatest(versions: seq<Fields>, keys: seq<string>, day: nat) returns (i: nat)
    requires Selected(versions, keys, day).Some?
    ensures IsLatest(versions, keys, day, i) && versions[i] == Selected(versions, keys, day).value
  {
    hide Start;
    var init, last := versions[..|versions| - 1], versions[|versions| - 1];
    assert versions == init + [last];
    var rest := Selected(init, keys, day);
    if rest.None? {
      NothingSelected(init, keys, day);
      LastIsLatest(init, last, keys, day);
      i := |init|;
    } else {
      i := SelectedIsLatest(init, keys, day);
      assert init[i] == rest.value && Begun(init[i], keys, day);
      if Begun(last, keys, day) && !Before(Start(last, keys), Start(init[i], keys)) {
        LastIsLatest(init, last, keys, day);
        i := |init|;
      } else {
        LatestStays(init, last, keys, day, i);
      }
    }
  }

  /* There is one latest version at most, so it is the one that is selected. */
  lemma LatestIsSelected(versions: seq<Fields>, keys: seq<string>, day: nat, i: nat)
    requires IsLatest(versions, keys, day, i)
    ensures Selected(versions, keys, day) == Some(versions[i])
  {
    hide Start, Selected;
    NothingSelected(versions, keys, day);
    var j := SelectedIsLatest(versions, keys, day);
    assert i == j;
  }

  /* The version that is in force on a day: the latest start not after the day, the last one of several; when none has
     begun, the earliest start, the first one of several. */
  predicate InForce(versions: seq<Fields>, keys: seq<string>, day: nat, i: nat) {
    && i < |versions| && Start(versions[i], keys).Day?
    && var start := Start(versions[i], keys).ordinal;
       if start <= day then
         forall j | 0 <= j < |versions| && Start(versions[j], keys).Day? && Start(versions[j], keys).ordinal <= day ::
           Start(versions[j], keys).ordinal <= start && (j > i ==> Start(versions[j], keys).ordinal < start)
       else
         forall j | 0 <= j < |versions| && Start(versions[j], keys).Day? ::
           start <= Start(versions[j], keys).ordinal && (j < i ==> start < Start(versions[j], keys).ordinal)
  }

  predicate IsEarliest(versions: seq<Fields>, keys: seq<string>, i: nat) {
    && i < |versions| && Start(versions[i], keys).Day?
    && forall j | 0 <= j < |versions| && Start(versions[j], keys).Day? ::
         Start(versions[i], keys).ordinal <= Start(versions[j], keys).ordinal
         && (j < i ==> Start(versions[i], keys).ordinal < Start(versions[j], keys).ordinal)
  }

  /* What the other half of the loop picks. */
  lemma {:induction false} EarliestIs(versions: seq<Fields>, keys: seq<string>) returns (i: nat)
    ensures Earliest(versions, keys).None? <==> forall j | 0 <= j < |versions| :: Start(versions[j], keys).NotADate?
    ensures Earliest(versions, keys).Some? ==> IsEarliest(versions, keys, i) && versions[i] == Earliest(versions, keys).value
  {
    hide Start;
    i := 0;
    if versions != [] {
      var init, last := versions[..|versions| - 1], versions[|versions| - 1];
      assert versions == init + [last];
      var k := EarliestIs(init, keys);
      assert forall j | 0 <= j < |init| :: versions[j] == init[j];
      i := if Earliest(versions, keys) == Earliest(init, keys) && Earliest(init, keys).Some? then k else |init|;
      if Earliest(init, keys).None? { i := |init|; }
      else if Start(last, keys).Day? && Before(Start(last, keys), Start(init[k], keys)) { i := |init|; }
      else { i := k; }
    }
  }

  /* Main result: the version in effect is the one in force, and there is none only if no version has a start. */
  lemma InEffectIsInForce(c: Config, keys: seq<string>, day: nat)
    ensures InEffect(c, keys, day).None? <==> forall i | 0 <= i < |Versions(c)| :: Start(Versions(c)[i], keys).NotADate?
    ensures InEffect(c, keys, day).Some? ==>
              exists i: nat :: InForce(Versions(c), keys, day, i) && InEffect(c, keys, day) == Some(Versions(c)[i])
  {
    hide Start, Selected, Earliest;
    var versions := Versions(c);
    NothingSelected(versions, keys, day);
    var e := EarliestIs(versions, keys);
    if Selected(versions, keys, day).Some? {
      var i := SelectedIsLatest(versions, keys, day);
      assert InForce(versions, keys, day, i);
    } else if Earliest(versions, keys).Some? {
      assert !Begun(versions[e], keys, day);
      assert InForce(versions, keys, day, e);
    }
  }

  method PickVersion(c: Config, keys: seq<string>, day: nat) returns (picked: Option<Fields>)
    ensures picked == InEffect(c, keys, day)
    ensures forall i: nat | IsLatest(Versions(c), keys, day, i) :: picked == Some(Versions(c)[i])
    ensures picked.Some? ==> exists i: nat :: InForce(Versions(c), keys, day, i) && picked == Some(Versions(c)[i])
    ensures picked.None? ==> forall i | 0 <= i < |Versions(c)| :: Start(Versions(c)[i], keys).NotADate?
  {
    hide Start;
    var selected: Option<Fields>, earliest: Option<Fields> := None, None;
    var versions := c.history + [c.fields];
    for i := 0 to |versions|
      invariant selected == Selected(versions[..i], keys, day) && earliest == Earliest(versions[..i], keys)
    {
      assert versions[..i + 1][..i] == versions[..i];
      var version := versions[i];
      var start := Start(version, keys);
      if start.Day? {
        if earliest.None? || Before(start, Start(earliest.value, keys)) { earliest := Some(version); }
        if start.ordinal <= day && (selected.None? || !Before(start, Start(selected.value, keys))) { selected := Some(version); }
      }
    }
    assert versions[..|versions|] == versions;
    picked := if selected.Some? then selected else earliest;
    forall i: nat | IsLatest(versions, keys, day, i) ensures picked == Some(versions[i]) {
      LatestIsSelected(versions, keys, day, i);
    }
    InEffectIsInForce(c, keys, day);
  }

  // ---------- saving ----------

  /* The place of the version that a new one replaces, or the end. */
  function PlaceOf(history: seq<Fields>, keys: seq<string>, start: ParsedDate): nat {
    if history == [] then 0
    else if Start(history[0], keys) == start then 0
    else 1 + PlaceOf(history[1..], keys, start)
  }

  lemma {:induction false} PlaceMeaning(history: seq<Fields>, keys: seq<string>, start: ParsedDate)
    ensures var i := PlaceOf(history, keys, start);
            && i <= |history| && (i < |history| ==> Start(history[i], keys) == start)
            && forall j | 0 <= j < i :: Start(history[j], keys) != start
  {
    if history != [] && Start(history[0], keys) != start {
      PlaceMeaning(history[1..], keys, start);
      forall j | 0 < j < PlaceOf(history, keys, start) ensures Start(history[j], keys) != start {
        assert history[j] == history[1..][j - 1];
      }
    }
  }

  function Upserted(history: seq<Fields>, version: Fields, keys: seq<string>): seq<Fields> {
    PlaceMeaning(history, keys, Start(version, keys));
    var i := PlaceOf(history, keys, Start(version, keys));
    if i < |history| then history[i := version] else history + [version]
  }

  method Upsert(history: seq<Fields>, version: Fields, keys: seq<string>) returns (result: seq<Fields>)
    ensures result == Upserted(history, version, keys)
  {
    var start := Start(version, keys);
    PlaceMeaning(history, keys, start);
    for i := 0 to |history|
      invariant PlaceOf(history, keys, start) >= i
    {
      if Start(history[i], keys) == start { return history[i := version]; }
    }
    result := history + [version];
  }

  function Inserted(v: Fields, sorted: seq<Fields>, keys: seq<string>): seq<Fields> {
    if sorted == [] then [v]
    else if Before(Start(v, keys), Start(sorted[|sorted| - 1], keys))
    then Inserted(v, sorted[..|sorted| - 1], keys) + [sorted[|sorted| - 1]]
    else sorted + [v]
  }

  /* The stable sort by start; versions without a start come first. */
  function Sorted(history: seq<Fields>, keys: seq<string>): seq<Fields> {
    if history == [] then [] else Inserted(history[|history| - 1], Sorted(history[..|history| - 1], keys), keys)
  }

  predicate MovesForward(existing: Config, next: Config, keys: seq<string>) {
    var from, to := Start(existing.fields, keys), Start(next.fields, keys);
    from.Day? && to.Day? && to.ordinal > from.ordinal
  }

  /* The configuration that is stored; the history the client sends is ignored. */
  function Saved(existing: Config, next: Config, keys: seq<string>): Config {
    var history := if MovesForward(existing, next, keys) then Upserted(existing.history, existing.fields, keys) else existing.history;
    Config(next.fields, Sorted(history, keys))
  }

  /* Both have a start, and the second one's is later. */
  predicate StartsLater(from: Fields, to: Fields, keys: seq<string>) {
    Start(from, keys).Day? && Start(to, keys).Day? && Start(from, keys).ordinal < Start(to, keys).ordinal
  }

  /* Versions without a start come first, the others in the order of their starts. */
  predicate InStartOrder(history: seq<Fields>, keys: seq<string>) {
    forall i, j | 0 <= i < j < |history| && Start(history[i], keys).Day? ::
      Start(history[j], keys).Day? && Start(history[i], keys).ordinal <= Start(history[j], keys).ordinal
  }

  lemma InStartOrderLonger(sorted: seq<Fields>, v: Fields, keys: seq<string>)
    requires InStartOrder(sorted, keys) && (sorted != [] ==> !Before(Start(v, keys), Start(sorted[|sorted| - 1], keys)))
    ensures InStartOrder(sorted + [v], keys)
  {
    hide Start;
    if sorted != [] {
      var last := sorted[|sorted| - 1];
      forall i | 0 <= i < |sorted| && Start(sorted[i], keys).Day?
        ensures Start(v, keys).Day? && Start(sorted[i], keys).ordinal <= Start(v, keys).ordinal
      {
        assert i < |sorted| - 1 ==> Start(last, keys).Day? && Start(sorted[i], keys).ordinal <= Start(last, keys).ordinal;
      }
    }
  }

  lemma {:induction false} InsertedInOrder(v: Fields, sorted: seq<Fields>, keys: seq<string>)
    requires InStartOrder(sorted, keys)
    ensures InStartOrder(Inserted(v, sorted, keys), keys)
    ensures var last := Inserted(v, sorted, keys)[|Inserted(v, sorted, keys)| - 1];
            last == v || (sorted != [] && last == sorted[|sorted| - 1])
  {
    hide Start;
    if sorted != [] && Before(Start(v, keys), Start(sorted[|sorted| - 1], keys)) {
      var init, last := sorted[..|sorted| - 1], sorted[|sorted| - 1];
      InsertedInOrder(v, init, keys);
      assert init != [] ==> !Before(Start(last, keys), Start(init[|init| - 1], keys)) by {
        if init != [] { assert init[|init| - 1] == sorted[|sorted| - 2]; }
      }
      InStartOrderLonger(Inserted(v, init, keys), last, keys);
    } else {
      InStartOrderLonger(sorted, v, keys);
    }
  }

  lemma {:induction false} SortedInOrder(history: seq<Fields>, keys: seq<string>)
    ensures InStartOrder(Sorted(history, keys), keys)
  {
    hide Start;
    if history != [] {
      SortedInOrder(history[..|history| - 1], keys);
      InsertedInOrder(history[|history| - 1], Sorted(history[..|history| - 1], keys), keys);
    }
  }

  /* The history that is stored: sorted, and with the old configuration in it exactly if the start moves forward. */
  lemma SavedMeaning(existing: Config, next: Config, keys: seq<string>)
    ensures var saved := Saved(existing, next, keys);
            && saved.fields == next.fields && InStartOrder(saved.history, keys)
            && (!StartsLater(existing.fields, next.fields, keys) ==> multiset(saved.history) == multiset(existing.history))
            && (StartsLater(existing.fields, next.fields, keys) && DistinctStarts(existing.history, keys) ==>
                  forall x :: x in saved.history <==>
                    x == existing.fields || (x in existing.history && Start(x, keys) != Start(existing.fields, keys)))
  {
    hide Start, Sorted, Upserted;
    var up := if MovesForward(existing, next, keys) then Upserted(existing.history, existing.fields, keys) else existing.history;
    SortedInOrder(up, keys);
    SortedSame(up, keys);
    if StartsLater(existing.fields, next.fields, keys) && DistinctStarts(existing.history, keys) {
      forall x { SavedElements(existing, next, keys, x); }
    }
  }

  method Save(existing: Option<Config>, next: Option<Config>, keys: seq<string>) returns (stored: Option<Config>)
    ensures stored == if existing.Some? && next.Some? then Some(Saved(existing.value, next.value, keys)) else next
    ensures existing.Some? && next.Some? ==>
              var before, after, saved := existing.value, next.value, stored.value;
              && saved.fields == after.fields && InStartOrder(saved.history, keys)
              && (!StartsLater(before.fields, after.fields, keys) ==> multiset(saved.history) == multiset(before.history))
              && (StartsLater(before.fields, after.fields, keys) && DistinctStarts(before.history, keys) ==>
                    forall x :: x in saved.history <==>
                      x == before.fields || (x in before.history && Start(x, keys) != Start(before.fields, keys)))
  {
    hide Start;
    if existing.Some? && next.Some? { SavedMeaning(existing.value, next.value, keys); }
    if existing.None? || next.None? { return next; }
    var history := existing.value.history;
    if MovesForward(existing.value, next.value, keys) {
      history := Upsert(history, existing.value.fields, keys);
    }
    if history == [] { return Some(next.value.(history := [])); }
    stored := Some(next.value.(history := Sorted(history, keys)));
  }

  // ---------- the past is kept ----------

  predicate DistinctStarts(versions: seq<Fields>, keys: seq<string>) {
    forall i, j | 0 <= i < j < |versions| && Start(versions[i], keys).Day? :: Start(versions[i], keys) != Start(versions[j], keys)
  }

  lemma {:induction false} InsertedSame(v: Fields, sorted: seq<Fields>, keys: seq<string>)
    ensures multiset(Inserted(v, sorted, keys)) == multiset(sorted) + multiset{v}
  {
    if sorted != [] {
      var init, last := sorted[..|sorted| - 1], sorted[|sorted| - 1];
      assert sorted == init + [last];
      InsertedSame(v, init, keys);
    }
  }

  lemma {:induction false} SortedSame(history: seq<Fields>, keys: seq<string>)
    ensures multiset(Sorted(history, keys)) == multiset(history)
  {
    if history != [] {
      var init, last := history[..|history| - 1], history[|history| - 1];
      assert history == init + [last];
      SortedSame(init, keys);
      InsertedSame(last, Sorted(init, keys), keys);
    }
  }

  lemma AppendDistinct(versions: seq<Fields>, v: Fields, keys: seq<string>)
    requires DistinctStarts(versions, keys)
    requires Start(v, keys).Day? ==> forall x | x in versions :: Start(x, keys) != Start(v, keys)
    ensures DistinctStarts(versions + [v], keys)
  {
  }

  lemma InsertedElements(v: Fields, sorted: seq<Fields>, keys: seq<string>, x: Fields)
    ensures x in Inserted(v, sorted, keys) <==> x == v || x in sorted
  {
    InsertedSame(v, sorted, keys);
    assert x in Inserted(v, sorted, keys) <==> x in multiset(Inserted(v, sorted, keys));
  }

  lemma {:induction false} InsertedDistinct(v: Fields, sorted: seq<Fields>, keys: seq<string>)
    requires DistinctStarts(sorted, keys)
    requires Start(v, keys).Day? ==> forall x | x in sorted :: Start(x, keys) != Start(v, keys)
    ensures DistinctStarts(Inserted(v, sorted, keys), keys)
  {
    if sorted != [] && Before(Start(v, keys), Start(sorted[|sorted| - 1], keys)) {
      var init, last := sorted[..|sorted| - 1], sorted[|sorted| - 1];
      InsertedDistinct(v, init, keys);
      forall x | x in Inserted(v, init, keys) ensures Start(x, keys) != Start(last, keys) || Start(last, keys).NotADate? {
        InsertedElements(v, init, keys, x);
      }
      AppendDistinct(Inserted(v, init, keys), last, keys);
    } else {
      AppendDistinct(sorted, v, keys);
    }
  }

  lemma {:induction false} SortedDistinct(history: seq<Fields>, keys: seq<string>)
    requires DistinctStarts(history, keys)
    ensures DistinctStarts(Sorted(history, keys), keys)
  {
    if history != [] {
      var init, last := history[..|history| - 1], history[|history| - 1];
      SortedDistinct(init, keys);
      SortedSame(init, keys);
      forall x | x in Sorted(init, keys) && Start(last, keys).Day? ensures Start(x, keys) != Start(last, keys) {
        assert x in multiset(Sorted(init, keys));
        var i :| 0 <= i < |init| && init[i] == x;
        assert history[i] == x;
      }
      InsertedDistinct(last, Sorted(init, keys), keys);
    }
  }

  lemma UpsertedDistinct(history: seq<Fields>, version: Fields, keys: seq<string>)
    requires DistinctStarts(history, keys)
    ensures DistinctStarts(Upserted(history, version, keys), keys)
  {
    PlaceMeaning(history, keys, Start(version, keys));
  }

  /* The versions after an upsert: the new one, and the old ones with other starts. */
  lemma UpsertedElements(history: seq<Fields>, version: Fields, keys: seq<string>, x: Fields)
    requires DistinctStarts(history, keys) && Start(version, keys).Day?
    ensures x in Upserted(history, version, keys) <==> x == version || (x in history && Start(x, keys) != Start(version, keys))
  {
    PlaceMeaning(history, keys, Start(version, keys));
    var i, up := PlaceOf(history, keys, Start(version, keys)), Upserted(history, version, keys);
    if x in history && Start(x, keys) != Start(version, keys) {
      var j :| 0 <= j < |history| && history[j] == x;
      assert up[j] == x;
    }
    if x == version { assert up[i] == x; }
    if x in up {
      var j :| 0 <= j < |up| && up[j] == x;
      if j != i { assert history[j] == x; }
    }
  }

  /* Invariant: saving keeps the starts in the history distinct. */
  lemma SavedDistinct(existing: Config, next: Config, keys: seq<string>)
    requires DistinctStarts(existing.history, keys)
    ensures DistinctStarts(Saved(existing, next, keys).history, keys)
  {
    UpsertedDistinct(existing.history, existing.fields, keys);
    SortedDistinct(existing.history, keys);
    SortedDistinct(Upserted(existing.history, existing.fields, keys), keys);
  }

  lemma SavedElements(existing: Config, next: Config, keys: seq<string>, x: Fields)
    requires DistinctStarts(existing.history, keys) && MovesForward(existing, next, keys)
    ensures x in Saved(existing, next, keys).history <==>
            x == existing.fields || (x in existing.history && Start(x, keys) != Start(existing.fields, keys))
  {
    var up := Upserted(existing.history, existing.fields, keys);
    SortedSame(up, keys);
    UpsertedElements(existing.history, existing.fields, keys, x);
    assert x in Sorted(up, keys) <==> x in multiset(Sorted(up, keys));
  }

  /* Among versions with distinct starts the latest is known by its start alone. */
  lemma LatestOfDistinct(versions: seq<Fields>, keys: seq<string>, day: nat, v: Fields)
    requires DistinctStarts(versions, keys) && v in versions && Begun(v, keys, day)
    requires forall x | x in versions && Begun(x, keys, day) :: Start(x, keys).ordinal <= Start(v, keys).ordinal
    ensures Selected(versions, keys, day) == Some(v)
  {
    var k :| 0 <= k < |versions| && versions[k] == v;
    NothingSelected(versions, keys, day);
    var i := SelectedIsLatest(versions, keys, day);
    assert Start(versions[i], keys) == Start(versions[k], keys);
  }

  lemma SelectedSkipsLater(history: seq<Fields>, last: Fields, keys: seq<string>, day: nat)
    requires !Begun(last, keys, day)
    ensures Selected(history + [last], keys, day) == Selected(history, keys, day)
  {
    assert (history + [last])[..|history|] == history;
  }

  /* A day on which some known version has begun, before the new start. */
  predicate InThePast(existing: Config, next: Config, keys: seq<string>, day: nat) {
    Selected(Versions(existing), keys, day).Some? && !Begun(next.fields, keys, day)
  }

  /* Main result: a save that moves the start forward keeps the version of every day from the earliest known start up to
     the new one. */
  lemma PastVersionKept(existing: Config, next: Config, keys: seq<string>, day: nat)
    requires DistinctStarts(existing.history, keys) && MovesForward(existing, next, keys) && InThePast(existing, next, keys, day)
    ensures InEffect(Saved(existing, next, keys), keys, day) == InEffect(existing, keys, day)
    ensures Selected(Versions(Saved(existing, next, keys)), keys, day).Some?
  {
    var versions, saved := Versions(existing), Saved(existing, next, keys);
    var i := SelectedIsLatest(versions, keys, day);
    var v := versions[i];
    SavedDistinct(existing, next, keys);
    SavedElements(existing, next, keys, v);
    assert versions[|versions| - 1] == existing.fields;
    forall x | x in saved.history && Begun(x, keys, day) ensures Start(x, keys).ordinal <= Start(v, keys).ordinal {
      SavedElements(existing, next, keys, x);
      assert x in versions;
    }
    LatestOfDistinct(saved.history, keys, day, v);
    SelectedSkipsLater(saved.history, next.fields, keys, day);
  }

  /* Each field of that version keeps its value. */
  lemma PastFieldsKept(existing: Config, next: Config, keys: seq<string>, day: nat)
    requires DistinctStarts(existing.history, keys) && MovesForward(existing, next, keys) && InThePast(existing, next, keys, day)
    ensures var v := Selected(Versions(existing), keys, day).value;
            var before, after := Effective(existing, keys, day), Effective(Saved(existing, next, keys), keys, day);
            forall k | k in v :: k in before && k in after && before[k] == v[k] == after[k]
  {
    PastVersionKept(existing, next, keys, day);
  }

  /* From its start on, the new version is in effect, as long as no version of the history starts later. */
  lemma NewStartTakesEffect(existing: Config, next: Config, keys: seq<string>, day: nat)
    requires DistinctStarts(existing.history, keys) && StartsLater(existing.fields, next.fields, keys)
    requires Start(next.fields, keys).ordinal <= day
    requires forall x | x in existing.history && Start(x, keys).Day? ::
               Start(x, keys).ordinal <= Start(next.fields, keys).ordinal || Start(x, keys).ordinal > day
    ensures InEffect(Saved(existing, next, keys), keys, day) == Some(next.fields)
  {
    hide Start, Selected, Earliest, Saved;
    var saved := Saved(existing, next, keys);
    SavedMeaning(existing, next, keys);
    var versions := Versions(saved);
    forall j | 0 <= j < |versions| && Begun(versions[j], keys, day)
      ensures Start(versions[j], keys).ordinal <= Start(next.fields, keys).ordinal
    {
      if j < |saved.history| { assert versions[j] in saved.history; }
    }
    assert IsLatest(versions, keys, day, |saved.history|);
    LatestIsSelected(versions, keys, day, |saved.history|);
  }

  predicate AgreeOutside(a: Fields, b: Fields, keys: set<string>) {
    forall k | k in a.Keys + b.Keys && k !in keys :: k in a && k in b && a[k] == b[k]
  }

  lemma UnionsEqualIff(a: Fields, b: Fields, v: Fields)
    ensures a + v == b + v <==> AgreeOutside(a, b, v.Keys)
  {
    if a + v == b + v {
      forall k | k in a.Keys + b.Keys && k !in v.Keys ensures k in a && k in b && a[k] == b[k] {
        assert k in a + v <==> k in b + v;
        if k in a + v { assert (a + v)[k] == (b + v)[k]; }
      }
    }
  }

  /* Main result: the fields in effect on such a day stay exactly the same if and only if the old and the new
     configuration agree on every field that the day's version does not have. */
  lemma PastUnchangedIff(existing: Config, next: Config, keys: seq<string>, day: nat)
    requires DistinctStarts(existing.history, keys) && MovesForward(existing, next, keys) && InThePast(existing, next, keys, day)
    ensures Effective(Saved(existing, next, keys), keys, day) == Effective(existing, keys, day) <==>
            AgreeOutside(next.fields, existing.fields, Selected(Versions(existing), keys, day).value.Keys)
  {
    PastVersionKept(existing, next, keys, day);
    UnionsEqualIff(next.fields, existing.fields, Selected(Versions(existing), keys, day).value);
  }

  /* The day check of the devotion: a numbered start goes before a plain one. */
  predicate DevotionStarted(fields: Fields, date: string) {
    var numbered := TextOf(fields, "numbered_start_date");
    var start := if numbered != [] then numbered else TextOf(fields, "start_date");
    |start| != 10 || !TextLess(date, start)
  }

  /* Without a history the configuration's own fields are in effect on every day that is not before their start. */
  lemma OwnFieldsInEffect(existing: Config, keys: seq<string>, day: nat)
    requires existing.history == [] && Selected(Versions(existing), keys, day).Some?
    ensures InEffect(existing, keys, day) == Some(existing.fields)
  {
    hide Start;
  }

  lemma DateIsTenLong(date: string)
    requires ParseDate(date).Day?
    ensures |date| == 10
  {
  }

  /* A numbered start that is set keeps the devotion off until it comes, whatever the version says besides. */
  lemma NumberedStartWins(fields: Fields, version: Fields, date: string)
    requires "numbered_start_date" !in version
    requires ParseDate(TextOf(fields, "numbered_start_date")).Day? && TextLess(date, TextOf(fields, "numbered_start_date"))
    ensures !DevotionStarted(fields + version, date)
  {
    hide ParseDate, TextLess;
    var start := TextOf(fields, "numbered_start_date");
    DateIsTenLong(start);
    assert TextOf(fields + version, "numbered_start_date") == start;
  }

  /* The condition fails whenever a devotion that was given a plain start is saved with a numbered one: every day it was
     on before the new start is then off. */
  lemma NumberedStartLeaksIntoThePast(existing: Config, next: Config, date: string)
    requires existing.history == [] && "numbered_start_date" !in existing.fields
    requires ParseDate(date).Day? && ParseDate(TextOf(next.fields, "numbered_start_date")).Day?
    requires MovesForward(existing, next, DEVOTION_KEYS) && InThePast(existing, next, DEVOTION_KEYS, ParseDate(date).ordinal)
    requires TextLess(date, TextOf(next.fields, "numbered_start_date"))
    requires DevotionStarted(Effective(existing, DEVOTION_KEYS, ParseDate(date).ordinal), date)
    ensures !DevotionStarted(Effective(Saved(existing, next, DEVOTION_KEYS), DEVOTION_KEYS, ParseDate(date).ordinal), date)
  {
    hide ParseDate, TextLess, TextOf, Start, Selected, Earliest, MovesForward, Sorted, Upserted, DevotionStarted, Begun;
    var day := ParseDate(date).ordinal;
    PastVersionKept(existing, next, DEVOTION_KEYS, day);
    OwnFieldsInEffect(existing, DEVOTION_KEYS, day);
    assert Effective(Saved(existing, next, DEVOTION_KEYS), DEVOTION_KEYS, day) == next.fields + existing.fields;
    NumberedStartWins(next.fields, existing.fields, date);
  }

  // ---------- many saves ----------

  function After(c: Config, nexts: seq<Fields>, keys: seq<string>): Config {
    if nexts == [] then c
    else Saved(After(c, nexts[..|nexts| - 1], keys), Config(nexts[|nexts| - 1], []), keys)
  }

  predicate Forward(c: Config, nexts: seq<Fields>, keys: seq<string>) {
    nexts != [] ==>
      && Forward(c, nexts[..|nexts| - 1], keys)
      && MovesForward(After(c, nexts[..|nexts| - 1], keys), Config(nexts[|nexts| - 1], []), keys)
  }

  lemma {:induction false} StaysDistinct(c: Config, nexts: seq<Fields>, keys: seq<string>)
    requires DistinctStarts(c.history, keys)
    ensures DistinctStarts(After(c, nexts, keys).history, keys)
  {
    if nexts != [] {
      StaysDistinct(c, nexts[..|nexts| - 1], keys);
      SavedDistinct(After(c, nexts[..|nexts| - 1], keys), Config(nexts[|nexts| - 1], []), keys);
    }
  }

  lemma NextSaveKeeps(c: Config, last: Fields, before: Option<Fields>, keys: seq<string>, day: nat)
    requires DistinctStarts(c.history, keys) && MovesForward(c, Config(last, []), keys)
    requires Selected(Versions(c), keys, day).Some? && InEffect(c, keys, day) == before
    requires !Begun(c.fields, keys, day) || !Begun(last, keys, day)
    ensures var c' := Saved(c, Config(last, []), keys);
            InEffect(c', keys, day) == before && Selected(Versions(c'), keys, day).Some? && !Begun(c'.fields, keys, day)
  {
    PastVersionKept(c, Config(last, []), keys, day);
  }

  /* Main result: over any run of forward saves, each save leaves the days before its start with the version they had,
     for good. */
  lemma {:induction false} PastKeptOverRuns(c: Config, nexts: seq<Fields>, keys: seq<string>, i: nat, day: nat)
    requires DistinctStarts(c.history, keys) && Forward(c, nexts, keys) && i < |nexts|
    requires InThePast(After(c, nexts[..i], keys), Config(nexts[i], []), keys, day)
    ensures InEffect(After(c, nexts, keys), keys, day) == InEffect(After(c, nexts[..i], keys), keys, day)
    ensures Selected(Versions(After(c, nexts, keys)), keys, day).Some? && !Begun(After(c, nexts, keys).fields, keys, day)
  {
    hide Start, Begun, Selected, Earliest, InEffect, Saved, DistinctStarts, MovesForward;
    var init, last := nexts[..|nexts| - 1], nexts[|nexts| - 1];
    StaysDistinct(c, init, keys);
    if i < |init| {
      assert init[..i] == nexts[..i];
      PastKeptOverRuns(c, init, keys, i, day);
    } else {
      assert init == nexts[..i];
    }
    NextSaveKeeps(After(c, init, keys), last, InEffect(After(c, nexts[..i], keys), keys, day), keys, day);
  }
}
