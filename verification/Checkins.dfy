/** The summary of a period's check-ins. */
module Checkins {
  import opened CanonicalText
  import opened Summaries
  import opened Wrappers

  datatype TaskType =
    | DailyDevotion | DailyScripture | DailyVerse
    | WeeklyCheckin | WeeklyBook | WeeklyVideo | WeeklyVerse | WeeklyOutline
    | OtherType(code: nat)

  /* A check-in; the entries of a summary come in the order in which they were made. */
  datatype Checkin = Checkin(record: nat, user: nat, name: string, taskType: TaskType, book: string, audio: bool)

  /* The daily or the weekly summary, whether daily tasks are told apart even if there are only devotions, and whether the
     day has a verse to recite. */
  datatype Form = Form(daily: bool, separate: bool, verse: bool)

  predicate IsControl(c: char) { c < ' ' || '\U{007F}' <= c <= '\U{009F}' }

  function WithoutControls(text: string): string {
    seq(|text|, i requires 0 <= i < |text| => if IsControl(text[i]) then ' ' else text[i])
  }

  /* A name on one line, with single spaces. */
  function Cleaned(text: string): string { Join(WordsFrom([], WithoutControls(text)), " ") }

  predicate IsQuote(c: char) { c in {'《', '》', '「', '」'} }

  function CutLeft(text: string): string { if text != [] && IsQuote(text[0]) then CutLeft(text[1..]) else text }

  function CutRight(text: string): string {
    if text != [] && IsQuote(text[|text| - 1]) then CutRight(text[..|text| - 1]) else text
  }

  function BookLabel(book: string): string {
    var title := CutRight(CutLeft(book));
    if |title| > 2 then title[..2] else title
  }

  /* What a check-in adds to the line of its member: the check-in is not part of the summary, or it names the member only,
     or it adds a label. Check-ins with the same key share a label. */
  datatype Share = NoPart | NameOnly | Labelled(key: string, word: string)

  predicate IsDaily(t: TaskType) { t.DailyDevotion? || t.DailyScripture? || t.DailyVerse? }

  predicate TellsApart(t: TaskType) { t.DailyScripture? || t.DailyVerse? }

  function DailyShare(t: TaskType): Share {
    match t
    case DailyDevotion => Labelled("daily_devotion", "灵修")
    case DailyScripture => Labelled("daily_scripture", "读经")
    case DailyVerse => Labelled("daily_verse", "背经")
    case _ => NoPart
  }

  function WeeklyShare(c: Checkin): Share {
    match c.taskType
    case WeeklyCheckin => Labelled("weekly_checkin", "周任务")
    case WeeklyBook => if Cleaned(c.book) == "" then NoPart else Labelled("book:" + Cleaned(c.book), BookLabel(Cleaned(c.book)))
    case WeeklyVideo => if c.audio then Labelled("audio", "音频") else Labelled("video", "视频")
    case WeeklyVerse => Labelled("weekly_verse", "背经")
    case WeeklyOutline => Labelled("weekly_outline", "提纲")
    case _ => NoPart
  }

  function ShareOf(c: Checkin, daily: bool, separate: bool): Share {
    if !daily then WeeklyShare(c)
    else if !IsDaily(c.taskType) then NoPart
    else if separate then DailyShare(c.taskType)
    else NameOnly
  }

  // ---------- grouping ----------

  datatype Part = Part(key: string, word: string, isNew: bool)

  datatype Group = Group(user: nat, name: string, parts: seq<Part>)

  function WithPart(parts: seq<Part>, key: string, word: string, isNew: bool): seq<Part> {
    if parts == [] then [Part(key, word, isNew)]
    else if parts[0].key == key then [parts[0].(isNew := parts[0].isNew || isNew)] + parts[1..]
    else [parts[0]] + WithPart(parts[1..], key, word, isNew)
  }

  function WithShare(parts: seq<Part>, share: Share, isNew: bool): seq<Part> {
    if share.Labelled? then WithPart(parts, share.key, share.word, isNew) else parts
  }

  function WithCheckin(groups: seq<Group>, c: Checkin, share: Share, isNew: bool): seq<Group> {
    if groups == [] then [Group(c.user, Cleaned(c.name), WithShare([], share, isNew))]
    else if groups[0].user == c.user then [groups[0].(parts := WithShare(groups[0].parts, share, isNew))] + groups[1..]
    else [groups[0]] + WithCheckin(groups[1..], c, share, isNew)
  }

  predicate IsNew(c: Checkin, record: nat) { record != 0 && c.record == record }

  function Grouped(checkins: seq<Checkin>, record: nat, daily: bool, separate: bool): seq<Group> {
    if checkins == [] then []
    else
      var before, c := Grouped(checkins[..|checkins| - 1], record, daily, separate), checkins[|checkins| - 1];
      var share := ShareOf(c, daily, separate);
      if share.NoPart? then before else WithCheckin(before, c, share, IsNew(c, record))
  }

  predicate IsFound(checkins: seq<Checkin>, record: nat, daily: bool, separate: bool) {
    exists i :: 0 <= i < |checkins| && IsNew(checkins[i], record) && !ShareOf(checkins[i], daily, separate).NoPart?
  }

  function Separate(checkins: seq<Checkin>, form: Form): bool {
    form.separate || exists i :: 0 <= i < |checkins| && TellsApart(checkins[i].taskType)
  }

  function TitleOf(checkins: seq<Checkin>, form: Form): string {
    if !form.daily then "本周任务"
    else if form.verse || exists i :: 0 <= i < |checkins| && checkins[i].taskType.DailyVerse? then "每日任务"
    else "每日灵修"
  }

  function Shown(parts: seq<Part>): (r: seq<Content>)
    ensures |r| == |parts| && forall i | 0 <= i < |r| :: r[i] == Content(parts[i].word, parts[i].isNew)
  {
    seq(|parts|, i requires 0 <= i < |parts| => Content(parts[i].word, parts[i].isNew))
  }

  function Members(groups: seq<Group>): (r: seq<Member>)
    ensures |r| == |groups| && forall i | 0 <= i < |r| :: r[i] == Member(groups[i].name, Shown(groups[i].parts))
  {
    seq(|groups|, i requires 0 <= i < |groups| => Member(groups[i].name, Shown(groups[i].parts)))
  }

  /* The summary for a check-in, or without one for record zero; empty if the check-in is no part of it. */
  function Formatted(checkins: seq<Checkin>, record: nat, form: Form): string {
    var separate := Separate(checkins, form);
    if record != 0 && !IsFound(checkins, record, form.daily, separate) then ""
    else Assembled(TitleOf(checkins, form), Members(Grouped(checkins, record, form.daily, separate)))
  }

  // ---------- the program ----------

  lemma {:induction false} PartPlace(parts: seq<Part>, key: string, word: string, isNew: bool, n: nat)
    requires n <= |parts| && (forall i | 0 <= i < n :: parts[i].key != key) && (n < |parts| ==> parts[n].key == key)
    ensures WithPart(parts, key, word, isNew) ==
            if n < |parts| then parts[n := parts[n].(isNew := parts[n].isNew || isNew)] else parts + [Part(key, word, isNew)]
  {
    if parts != [] && n > 0 { PartPlace(parts[1..], key, word, isNew, n - 1); }
  }

  method AddPart(parts: seq<Part>, key: string, word: string, isNew: bool) returns (r: seq<Part>)
    ensures r == WithPart(parts, key, word, isNew)
  {
    for i := 0 to |parts|
      invariant forall j | 0 <= j < i :: parts[j].key != key
    {
      if parts[i].key == key {
        PartPlace(parts, key, word, isNew, i);
        return parts[i := parts[i].(isNew := parts[i].isNew || isNew)];
      }
    }
    PartPlace(parts, key, word, isNew, |parts|);
    r := parts + [Part(key, word, isNew)];
  }

  /* The map tells where each user's group is. */
  predicate Places(groups: seq<Group>, positions: map<nat, nat>) {
    && (forall u | u in positions :: positions[u] < |groups| && groups[positions[u]].user == u)
    && (forall i | 0 <= i < |groups| :: groups[i].user in positions && positions[groups[i].user] == i)
  }

  lemma {:induction false} GroupPlace(groups: seq<Group>, c: Checkin, share: Share, isNew: bool, n: nat)
    requires n <= |groups| && (forall i | 0 <= i < n :: groups[i].user != c.user) && (n < |groups| ==> groups[n].user == c.user)
    ensures WithCheckin(groups, c, share, isNew) ==
            if n < |groups| then groups[n := groups[n].(parts := WithShare(groups[n].parts, share, isNew))]
            else groups + [Group(c.user, Cleaned(c.name), WithShare([], share, isNew))]
  {
    hide WithShare, Cleaned;
    if groups != [] && n > 0 { GroupPlace(groups[1..], c, share, isNew, n - 1); }
  }

  method AddCheckin(groups: seq<Group>, positions: map<nat, nat>, c: Checkin, share: Share, isNew: bool)
    returns (groups': seq<Group>, positions': map<nat, nat>)
    requires Places(groups, positions)
    ensures groups' == WithCheckin(groups, c, share, isNew) && Places(groups', positions')
  {
    hide WithCheckin, WithPart, Cleaned;
    groups', positions' := groups, positions;
    var index := if c.user in positions then positions[c.user] else |groups|;
    GroupPlace(groups, c, share, isNew, index);
    if c.user !in positions {
      positions' := positions'[c.user := index];
      groups' := groups' + [Group(c.user, Cleaned(c.name), [])];
    }
    if share.Labelled? {
      var parts := AddPart(groups'[index].parts, share.key, share.word, isNew);
      groups' := groups'[index := groups'[index].(parts := parts)];
    }
  }

  method FormatCheckins(checkins: seq<Checkin>, record: nat, form: Form) returns (text: string)
    ensures text == Formatted(checkins, record, form)
  {
    hide WithCheckin, ShareOf, Assembled;
    var separate := form.separate;
    for i := 0 to |checkins|
      invariant separate <==> form.separate || exists j :: 0 <= j < i && TellsApart(checkins[j].taskType)
    {
      separate := separate || checkins[i].taskType.DailyScripture? || checkins[i].taskType.DailyVerse?;
    }
    var groups: seq<Group>, positions: map<nat, nat>, found := [], map[], false;
    for i := 0 to |checkins|
      invariant groups == Grouped(checkins[..i], record, form.daily, separate) && Places(groups, positions)
      invariant found <==> exists j :: 0 <= j < i && IsNew(checkins[j], record) && !ShareOf(checkins[j], form.daily, separate).NoPart?
    {
      assert checkins[..i + 1][..i] == checkins[..i];
      var c := checkins[i];
      var share := ShareOf(c, form.daily, separate);
      if share.NoPart? { continue; }
      found := found || IsNew(c, record);
      groups, positions := AddCheckin(groups, positions, c, share, IsNew(c, record));
    }
    assert checkins[..|checkins|] == checkins;
    if record != 0 && !found { return ""; }
    var title := FindTitle(checkins, form);
    text := Assemble(title, Members(groups));
  }

  method FindTitle(checkins: seq<Checkin>, form: Form) returns (title: string)
    ensures title == TitleOf(checkins, form)
  {
    if !form.daily { return "本周任务"; }
    title := if form.verse then "每日任务" else "每日灵修";
    for i := 0 to |checkins|
      invariant title == if form.verse then "每日任务" else "每日灵修"
      invariant forall j | 0 <= j < i :: !checkins[j].taskType.DailyVerse?
    {
      if checkins[i].taskType.DailyVerse? { return "每日任务"; }
    }
  }

  // ---------- what the summary says ----------

  /* A check-in of the member that is part of the summary. */
  predicate Counts(checkins: seq<Checkin>, i: nat, user: nat, daily: bool, separate: bool) {
    i < |checkins| && checkins[i].user == user && !ShareOf(checkins[i], daily, separate).NoPart?
  }

  /* ... and adds this label. */
  predicate Adds(checkins: seq<Checkin>, i: nat, user: nat, key: string, daily: bool, separate: bool) {
    i < |checkins| && checkins[i].user == user && ShareOf(checkins[i], daily, separate).Labelled?
    && ShareOf(checkins[i], daily, separate).key == key
  }

  ghost predicate HasGroup(groups: seq<Group>, user: nat) { exists n :: 0 <= n < |groups| && groups[n].user == user }

  /* The parts of a user's group. */
  function PartsOf(groups: seq<Group>, user: nat): seq<Part> {
    if groups == [] then [] else if groups[0].user == user then groups[0].parts else PartsOf(groups[1..], user)
  }

  ghost predicate HasPart(parts: seq<Part>, key: string) { exists n :: 0 <= n < |parts| && parts[n].key == key }

  ghost predicate HasNewPart(parts: seq<Part>, key: string) { exists n :: 0 <= n < |parts| && parts[n].key == key && parts[n].isNew }

  predicate DistinctUsers(groups: seq<Group>) { forall m, n | 0 <= m < n < |groups| :: groups[m].user != groups[n].user }

  predicate DistinctKeys(parts: seq<Part>) { forall m, n | 0 <= m < n < |parts| :: parts[m].key != parts[n].key }

  /* A label is put at its key's place, or at the end. */
  lemma PartPut(parts: seq<Part>, key: string, word: string, isNew: bool) returns (n: nat)
    ensures n <= |parts| && (forall i | 0 <= i < n :: parts[i].key != key) && (n < |parts| ==> parts[n].key == key)
    ensures WithPart(parts, key, word, isNew) ==
            if n < |parts| then parts[n := parts[n].(isNew := parts[n].isNew || isNew)] else parts + [Part(key, word, isNew)]
  {
    n := PlaceOfPart(parts, key);
    PartPlace(parts, key, word, isNew, n);
  }

  lemma PartAdded(parts: seq<Part>, key: string, word: string, isNew: bool, k: string)
    requires DistinctKeys(parts)
    ensures DistinctKeys(WithPart(parts, key, word, isNew))
    ensures HasPart(WithPart(parts, key, word, isNew), k) <==> k == key || HasPart(parts, k)
  {
    hide WithPart;
    var n := PartPut(parts, key, word, isNew);
    var parts' := WithPart(parts, key, word, isNew);
    assert n < |parts'| && parts'[n].key == key;
    if m :| 0 <= m < |parts| && parts[m].key == k { assert parts'[m].key == k; }
  }

  lemma NewPartAdded(parts: seq<Part>, key: string, word: string, isNew: bool, k: string)
    requires DistinctKeys(parts)
    ensures HasNewPart(WithPart(parts, key, word, isNew), k) <==> HasNewPart(parts, k) || (k == key && isNew)
  {
    hide WithPart;
    var n := PartPut(parts, key, word, isNew);
    var parts' := WithPart(parts, key, word, isNew);
    assert n < |parts'| && parts'[n].key == key && (isNew ==> parts'[n].isNew);
    if m :| 0 <= m < |parts| && parts[m].key == k && parts[m].isNew { assert parts'[m].key == k && parts'[m].isNew; }
  }

  lemma PlaceOfPart(parts: seq<Part>, key: string) returns (n: nat)
    ensures n <= |parts| && (forall i | 0 <= i < n :: parts[i].key != key) && (n < |parts| ==> parts[n].key == key)
  {
    n := 0;
    while n < |parts| && parts[n].key != key
      invariant n <= |parts| && forall i | 0 <= i < n :: parts[i].key != key
    {
      n := n + 1;
    }
  }

  lemma {:induction false} PartsAdded(groups: seq<Group>, c: Checkin, share: Share, isNew: bool, user: nat)
    ensures var groups' := WithCheckin(groups, c, share, isNew);
            && PartsOf(groups', user) ==
               (if user == c.user then WithShare(PartsOf(groups, user), share, isNew) else PartsOf(groups, user))
            && (HasGroup(groups', user) <==> user == c.user || HasGroup(groups, user))
  {
    hide WithShare, Cleaned;
    var groups' := WithCheckin(groups, c, share, isNew);
    if groups == [] {
      assert groups'[0].user == c.user;
    } else if groups[0].user == c.user {
      assert groups'[0].user == c.user && groups'[1..] == groups[1..];
      SameUsers(groups, groups', user);
    } else {
      PartsAdded(groups[1..], c, share, isNew, user);
      assert groups' == [groups[0]] + WithCheckin(groups[1..], c, share, isNew);
      GroupOfFirst(groups, user);
      GroupOfFirst(groups', user);
      assert groups'[1..] == WithCheckin(groups[1..], c, share, isNew);
    }
  }

  lemma GroupOfFirst(groups: seq<Group>, user: nat)
    requires groups != []
    ensures HasGroup(groups, user) <==> groups[0].user == user || HasGroup(groups[1..], user)
  {
    if HasGroup(groups, user) && groups[0].user != user {
      var n :| 0 <= n < |groups| && groups[n].user == user;
      assert groups[1..][n - 1].user == user;
    }
    if HasGroup(groups[1..], user) {
      var n :| 0 <= n < |groups[1..]| && groups[1..][n].user == user;
      assert groups[n + 1].user == user;
    }
  }

  lemma SameUsers(a: seq<Group>, b: seq<Group>, user: nat)
    requires |a| == |b| && forall i | 0 <= i < |a| :: a[i].user == b[i].user
    ensures HasGroup(a, user) <==> HasGroup(b, user)
  {
  }

  lemma {:induction false} UsersStayDistinct(groups: seq<Group>, c: Checkin, share: Share, isNew: bool)
    requires DistinctUsers(groups)
    ensures DistinctUsers(WithCheckin(groups, c, share, isNew))
  {
    hide WithShare, Cleaned;
    if groups != [] && groups[0].user != c.user {
      var rest := WithCheckin(groups[1..], c, share, isNew);
      UsersStayDistinct(groups[1..], c, share, isNew);
      forall n | 0 <= n < |rest| ensures rest[n].user != groups[0].user {
        PartsAdded(groups[1..], c, share, isNew, rest[n].user);
        assert HasGroup(rest, rest[n].user);
        if rest[n].user != c.user {
          var m :| 0 <= m < |groups[1..]| && groups[1..][m].user == rest[n].user;
          assert groups[m + 1].user == rest[n].user;
        }
      }
    }
  }

  ghost predicate SomeCounts(checkins: seq<Checkin>, user: nat, daily: bool, separate: bool) {
    exists i: nat :: Counts(checkins, i, user, daily, separate)
  }

  ghost predicate SomeAdds(checkins: seq<Checkin>, user: nat, key: string, daily: bool, separate: bool) {
    exists i: nat :: Adds(checkins, i, user, key, daily, separate)
  }

  ghost predicate SomeNew(checkins: seq<Checkin>, record: nat, user: nat, key: string, daily: bool, separate: bool) {
    record != 0 && exists i: nat :: Adds(checkins, i, user, key, daily, separate) && checkins[i].record == record
  }

  lemma NoneCounts(record: nat, daily: bool, separate: bool, user: nat, key: string)
    ensures !SomeCounts([], user, daily, separate) && !SomeAdds([], user, key, daily, separate)
    ensures !SomeNew([], record, user, key, daily, separate)
  {
  }

  /* What the last check-in adds to these. */
  lemma LastCounts(init: seq<Checkin>, c: Checkin, daily: bool, separate: bool, user: nat)
    ensures SomeCounts(init + [c], user, daily, separate) <==>
            SomeCounts(init, user, daily, separate) || (c.user == user && !ShareOf(c, daily, separate).NoPart?)
  {
    hide ShareOf;
    var all := init + [c];
    assert Counts(all, |init|, user, daily, separate) <==> c.user == user && !ShareOf(c, daily, separate).NoPart?;
    if i: nat :| Counts(init, i, user, daily, separate) { assert Counts(all, i, user, daily, separate); }
    if i: nat :| Counts(all, i, user, daily, separate) { assert i < |init| ==> Counts(init, i, user, daily, separate); }
  }

  predicate IsKey(c: Checkin, user: nat, key: string, daily: bool, separate: bool) {
    c.user == user && ShareOf(c, daily, separate).Labelled? && ShareOf(c, daily, separate).key == key
  }

  lemma LastAdds(init: seq<Checkin>, c: Checkin, daily: bool, separate: bool, user: nat, key: string)
    ensures SomeAdds(init + [c], user, key, daily, separate) <==>
            SomeAdds(init, user, key, daily, separate) || IsKey(c, user, key, daily, separate)
  {
    hide ShareOf;
    var all := init + [c];
    assert Adds(all, |init|, user, key, daily, separate) <==> IsKey(c, user, key, daily, separate);
    if i: nat :| Adds(init, i, user, key, daily, separate) { assert Adds(all, i, user, key, daily, separate); }
    if i: nat :| Adds(all, i, user, key, daily, separate) { assert i < |init| ==> Adds(init, i, user, key, daily, separate); }
  }

  lemma LastNew(init: seq<Checkin>, c: Checkin, record: nat, daily: bool, separate: bool, user: nat, key: string)
    ensures SomeNew(init + [c], record, user, key, daily, separate) <==>
            SomeNew(init, record, user, key, daily, separate) || (IsKey(c, user, key, daily, separate) && IsNew(c, record))
  {
    hide ShareOf;
    var all := init + [c];
    assert Adds(all, |init|, user, key, daily, separate) <==> IsKey(c, user, key, daily, separate);
    if i: nat :| Adds(init, i, user, key, daily, separate) && init[i].record == record {
      assert all[i] == init[i] && Adds(all, i, user, key, daily, separate) && all[i].record == record;
    }
    if i: nat :| Adds(all, i, user, key, daily, separate) && all[i].record == record {
      if i < |init| { assert all[i] == init[i] && Adds(init, i, user, key, daily, separate) && init[i].record == record; }
    }
  }

  /** Main result: the summary has one line for each user with a check-in in it, on that line one label for each key of
      theirs, and the label is marked as new exactly if the record is one of the check-ins of that key. */
  lemma {:induction false} GroupedMeaning(checkins: seq<Checkin>, record: nat, daily: bool, separate: bool, user: nat, key: string)
    ensures var groups := Grouped(checkins, record, daily, separate);
            && DistinctUsers(groups) && DistinctKeys(PartsOf(groups, user))
            && (HasGroup(groups, user) <==> SomeCounts(checkins, user, daily, separate))
            && (HasPart(PartsOf(groups, user), key) <==> SomeAdds(checkins, user, key, daily, separate))
            && (HasNewPart(PartsOf(groups, user), key) <==> SomeNew(checkins, record, user, key, daily, separate))
  {
    hide ShareOf, WithCheckin, WithPart, SomeCounts, SomeAdds, SomeNew;
    NoneCounts(record, daily, separate, user, key);
    if checkins != [] {
      var init, n, c := checkins[..|checkins| - 1], |checkins| - 1, checkins[|checkins| - 1];
      var share, isNew := ShareOf(c, daily, separate), IsNew(c, record);
      GroupedMeaning(init, record, daily, separate, user, key);
      var before := Grouped(init, record, daily, separate);
      assert checkins == init + [c];
      LastCounts(init, c, daily, separate, user);
      LastAdds(init, c, daily, separate, user, key);
      LastNew(init, c, record, daily, separate, user, key);
      if !share.NoPart? {
        PartsAdded(before, c, share, isNew, user);
        UsersStayDistinct(before, c, share, isNew);
        if share.Labelled? {
          PartAdded(PartsOf(before, user), share.key, share.word, isNew, key);
          NewPartAdded(PartsOf(before, user), share.key, share.word, isNew, key);
        }
      }
    }
  }

  // ---------- order ----------

  /* The first check-in of a user in the summary, ... */
  predicate IsFirst(checkins: seq<Checkin>, i: nat, user: nat, daily: bool, separate: bool) {
    Counts(checkins, i, user, daily, separate) && forall j | 0 <= j < i :: !Counts(checkins, j, user, daily, separate)
  }

  /* ... and the first one that adds a label. */
  predicate IsFirstOf(checkins: seq<Checkin>, i: nat, user: nat, key: string, daily: bool, separate: bool) {
    Adds(checkins, i, user, key, daily, separate) && forall j | 0 <= j < i :: !Adds(checkins, j, user, key, daily, separate)
  }

  predicate Increasing(places: seq<nat>) { forall m, n | 0 <= m < n < |places| :: places[m] < places[n] }

  predicate AllBelow(places: seq<nat>, limit: nat) { forall n | 0 <= n < |places| :: places[n] < limit }

  /* Each group is named by its user's first check-in, and they stand in the order of these. */
  predicate InOrder(checkins: seq<Checkin>, groups: seq<Group>, firsts: seq<nat>, daily: bool, separate: bool) {
    && |firsts| == |groups| && Increasing(firsts) && AllBelow(firsts, |checkins|)
    && forall n | 0 <= n < |groups| ::
         IsFirst(checkins, firsts[n], groups[n].user, daily, separate) && groups[n].name == Cleaned(checkins[firsts[n]].name)
  }

  lemma FirstStays(init: seq<Checkin>, c: Checkin, i: nat, user: nat, daily: bool, separate: bool)
    requires IsFirst(init, i, user, daily, separate)
    ensures IsFirst(init + [c], i, user, daily, separate) && (init + [c])[i] == init[i]
  {
    hide ShareOf;
    forall j | 0 <= j < i ensures !Counts(init + [c], j, user, daily, separate) {
      assert !Counts(init, j, user, daily, separate);
    }
  }

  lemma OrderStays(init: seq<Checkin>, c: Checkin, groups: seq<Group>, firsts: seq<nat>, daily: bool, separate: bool)
    requires InOrder(init, groups, firsts, daily, separate)
    ensures InOrder(init + [c], groups, firsts, daily, separate) && AllBelow(firsts, |init|)
  {
    hide IsFirst, Cleaned;
    forall n | 0 <= n < |groups| { FirstStays(init, c, firsts[n], groups[n].user, daily, separate); }
  }

  lemma LastIsFirst(init: seq<Checkin>, c: Checkin, daily: bool, separate: bool)
    requires !SomeCounts(init, c.user, daily, separate) && !ShareOf(c, daily, separate).NoPart?
    ensures IsFirst(init + [c], |init|, c.user, daily, separate)
  {
    hide ShareOf;
    forall j | 0 <= j < |init| ensures !Counts(init + [c], j, c.user, daily, separate) {
      assert !Counts(init, j, c.user, daily, separate);
    }
  }

  lemma PlaceOfGroup(groups: seq<Group>, user: nat) returns (n: nat)
    ensures n <= |groups| && (forall i | 0 <= i < n :: groups[i].user != user) && (n < |groups| ==> groups[n].user == user)
  {
    n := 0;
    while n < |groups| && groups[n].user != user
      invariant n <= |groups| && forall i | 0 <= i < n :: groups[i].user != user
    {
      n := n + 1;
    }
  }

  lemma OneMoreGroup(all: seq<Checkin>, groups: seq<Group>, firsts: seq<nat>, g: Group, place: nat, daily: bool, separate: bool)
    requires InOrder(all, groups, firsts, daily, separate) && AllBelow(firsts, place) && place < |all|
    requires IsFirst(all, place, g.user, daily, separate) && g.name == Cleaned(all[place].name)
    ensures InOrder(all, groups + [g], firsts + [place], daily, separate)
  {
    hide IsFirst, Cleaned;
  }

  lemma SameHeads(all: seq<Checkin>, a: seq<Group>, b: seq<Group>, firsts: seq<nat>, daily: bool, separate: bool)
    requires InOrder(all, a, firsts, daily, separate)
    requires |a| == |b| && forall n | 0 <= n < |a| :: a[n].user == b[n].user && a[n].name == b[n].name
    ensures InOrder(all, b, firsts, daily, separate)
  {
    hide IsFirst, Cleaned;
  }

  lemma NothingInOrder(daily: bool, separate: bool)
    ensures InOrder([], [], [], daily, separate)
  {
  }

  /** Main result: the lines of the summary stand in the order of their users' first check-ins, under the names given there. */
  lemma {:induction false} GroupsInOrder(checkins: seq<Checkin>, record: nat, daily: bool, separate: bool) returns (firsts: seq<nat>)
    ensures InOrder(checkins, Grouped(checkins, record, daily, separate), firsts, daily, separate)
  {
    hide ShareOf, WithCheckin, WithShare, Cleaned, IsFirst, SomeCounts, InOrder, AllBelow;
    if checkins == [] {
      firsts := [];
      NothingInOrder(daily, separate);
    } else {
      var init, c := checkins[..|checkins| - 1], checkins[|checkins| - 1];
      assert checkins == init + [c];
      var share, before := ShareOf(c, daily, separate), Grouped(init, record, daily, separate);
      firsts := GroupsInOrder(init, record, daily, separate);
      OrderStays(init, c, before, firsts, daily, separate);
      if !share.NoPart? {
        var n := PlaceOfGroup(before, c.user);
        GroupPlace(before, c, share, IsNew(c, record), n);
        if n < |before| {
          SameHeads(checkins, before, WithCheckin(before, c, share, IsNew(c, record)), firsts, daily, separate);
        } else {
          GroupedMeaning(init, record, daily, separate, c.user, "");
          LastIsFirst(init, c, daily, separate);
          var g := Group(c.user, Cleaned(c.name), WithShare([], share, IsNew(c, record)));
          OneMoreGroup(checkins, before, firsts, g, |init|, daily, separate);
          firsts := firsts + [|init|];
        }
      }
    }
  }

  /* Each label is that of the first check-in of its key, and they stand in the order of these. */
  predicate PartsInOrder(checkins: seq<Checkin>, parts: seq<Part>, user: nat, firsts: seq<nat>, daily: bool, separate: bool) {
    && |firsts| == |parts| && Increasing(firsts) && AllBelow(firsts, |checkins|)
    && forall n | 0 <= n < |parts| ::
         IsFirstOf(checkins, firsts[n], user, parts[n].key, daily, separate)
         && parts[n].word == ShareOf(checkins[firsts[n]], daily, separate).word
  }

  lemma FirstOfStays(init: seq<Checkin>, c: Checkin, i: nat, user: nat, key: string, daily: bool, separate: bool)
    requires IsFirstOf(init, i, user, key, daily, separate)
    ensures IsFirstOf(init + [c], i, user, key, daily, separate) && (init + [c])[i] == init[i]
  {
    hide ShareOf;
    forall j | 0 <= j < i ensures !Adds(init + [c], j, user, key, daily, separate) {
      assert !Adds(init, j, user, key, daily, separate);
    }
  }

  lemma PartsStay(init: seq<Checkin>, c: Checkin, parts: seq<Part>, user: nat, firsts: seq<nat>, daily: bool, separate: bool)
    requires PartsInOrder(init, parts, user, firsts, daily, separate)
    ensures PartsInOrder(init + [c], parts, user, firsts, daily, separate) && AllBelow(firsts, |init|)
  {
    hide ShareOf;
    forall n | 0 <= n < |parts|
      ensures IsFirstOf(init + [c], firsts[n], user, parts[n].key, daily, separate) && (init + [c])[firsts[n]] == init[firsts[n]]
    {
      FirstOfStays(init, c, firsts[n], user, parts[n].key, daily, separate);
    }
  }

  lemma LastIsFirstOf(init: seq<Checkin>, c: Checkin, key: string, daily: bool, separate: bool)
    requires !SomeAdds(init, c.user, key, daily, separate) && IsKey(c, c.user, key, daily, separate)
    ensures IsFirstOf(init + [c], |init|, c.user, key, daily, separate)
  {
    hide ShareOf;
    forall j | 0 <= j < |init| ensures !Adds(init + [c], j, c.user, key, daily, separate) {
      assert !Adds(init, j, c.user, key, daily, separate);
    }
  }

  lemma OneMorePart(all: seq<Checkin>, parts: seq<Part>, user: nat, firsts: seq<nat>, p: Part, place: nat, daily: bool, separate: bool)
    requires PartsInOrder(all, parts, user, firsts, daily, separate) && AllBelow(firsts, place) && place < |all|
    requires IsFirstOf(all, place, user, p.key, daily, separate) && p.word == ShareOf(all[place], daily, separate).word
    ensures PartsInOrder(all, parts + [p], user, firsts + [place], daily, separate)
  {
    hide ShareOf;
  }

  lemma SameWords(all: seq<Checkin>, a: seq<Part>, b: seq<Part>, user: nat, firsts: seq<nat>, daily: bool, separate: bool)
    requires PartsInOrder(all, a, user, firsts, daily, separate) && SameParts(a, b)
    ensures PartsInOrder(all, b, user, firsts, daily, separate)
  {
    hide ShareOf;
  }

  lemma NoPartsInOrder(user: nat, daily: bool, separate: bool)
    ensures PartsInOrder([], [], user, [], daily, separate)
  {
  }

  /** Main result: so do the labels of each line, in the order of the first check-ins of their keys. */
  lemma {:induction false} LabelsInOrder(checkins: seq<Checkin>, record: nat, daily: bool, separate: bool, user: nat)
    returns (firsts: seq<nat>)
    ensures PartsInOrder(checkins, PartsOf(Grouped(checkins, record, daily, separate), user), user, firsts, daily, separate)
  {
    hide ShareOf, WithCheckin, WithPart, Cleaned, IsFirstOf, SomeAdds, PartsInOrder, AllBelow;
    if checkins == [] {
      firsts := [];
      NoPartsInOrder(user, daily, separate);
    } else {
      var init, c := checkins[..|checkins| - 1], checkins[|checkins| - 1];
      assert checkins == init + [c];
      var share, before := ShareOf(c, daily, separate), Grouped(init, record, daily, separate);
      var parts := PartsOf(before, user);
      firsts := LabelsInOrder(init, record, daily, separate, user);
      PartsStay(init, c, parts, user, firsts, daily, separate);
      if !share.NoPart? {
        PartsAdded(before, c, share, IsNew(c, record), user);
        if share.Labelled? && c.user == user {
          var n := PartPut(parts, share.key, share.word, IsNew(c, record));
          if n < |parts| {
            SameWords(checkins, parts, WithPart(parts, share.key, share.word, IsNew(c, record)), user, firsts, daily, separate);
          } else {
            GroupedMeaning(init, record, daily, separate, user, share.key);
            LastIsFirstOf(init, c, share.key, daily, separate);
            OneMorePart(checkins, parts, user, firsts, Part(share.key, share.word, IsNew(c, record)), |init|, daily, separate);
            firsts := firsts + [|init|];
          }
        }
      }
    }
  }

  // ---------- other records ----------

  predicate SameParts(a: seq<Part>, b: seq<Part>) {
    |a| == |b| && forall i | 0 <= i < |a| :: a[i].key == b[i].key && a[i].word == b[i].word
  }

  predicate SameGroups(a: seq<Group>, b: seq<Group>) {
    |a| == |b| && forall i | 0 <= i < |a| :: a[i].user == b[i].user && a[i].name == b[i].name && SameParts(a[i].parts, b[i].parts)
  }

  lemma SameFirst(a: seq<Part>, b: seq<Part>)
    requires SameParts(a, b)
    ensures (a == [] <==> b == []) && SameParts([], [])
    ensures a != [] ==> a[0].key == b[0].key && a[0].word == b[0].word && SameParts(a[1..], b[1..])
  {
  }

  lemma OnePart(p: Part, q: Part, a: seq<Part>, b: seq<Part>)
    requires p.key == q.key && p.word == q.word && SameParts(a, b)
    ensures SameParts([p] + a, [q] + b)
  {
  }

  lemma {:induction false} SamePartsStay(a: seq<Part>, b: seq<Part>, key: string, word: string, x: bool, y: bool)
    requires SameParts(a, b)
    ensures SameParts(WithPart(a, key, word, x), WithPart(b, key, word, y))
  {
    hide SameParts;
    SameFirst(a, b);
    if a == [] {
      OnePart(Part(key, word, x), Part(key, word, y), [], []);
      assert WithPart(a, key, word, x) == [Part(key, word, x)] + [] && WithPart(b, key, word, y) == [Part(key, word, y)] + [];
    } else if a[0].key == key {
      OnePart(a[0].(isNew := a[0].isNew || x), b[0].(isNew := b[0].isNew || y), a[1..], b[1..]);
    } else {
      SamePartsStay(a[1..], b[1..], key, word, x, y);
      OnePart(a[0], b[0], WithPart(a[1..], key, word, x), WithPart(b[1..], key, word, y));
    }
  }

  lemma {:induction false} SameGroupsStay(a: seq<Group>, b: seq<Group>, c: Checkin, share: Share, x: bool, y: bool)
    requires SameGroups(a, b)
    ensures SameGroups(WithCheckin(a, c, share, x), WithCheckin(b, c, share, y))
  {
    hide WithPart, SameParts, Cleaned;
    if a == [] {
      NoParts();
      if share.Labelled? { SamePartsStay([], [], share.key, share.word, x, y); }
    } else if a[0].user == c.user {
      if share.Labelled? { SamePartsStay(a[0].parts, b[0].parts, share.key, share.word, x, y); }
    } else {
      SameGroupsStay(a[1..], b[1..], c, share, x, y);
    }
  }

  lemma NoParts()
    ensures SameParts([], [])
  {
  }

  lemma {:induction false} OtherRecordGroups(checkins: seq<Checkin>, r: nat, q: nat, daily: bool, separate: bool)
    ensures SameGroups(Grouped(checkins, r, daily, separate), Grouped(checkins, q, daily, separate))
  {
    hide ShareOf, WithCheckin, SameGroups;
    if checkins == [] {
      NoGroups();
    } else {
      var c := checkins[|checkins| - 1];
      OtherRecordGroups(checkins[..|checkins| - 1], r, q, daily, separate);
      SameGroupsStay(Grouped(checkins[..|checkins| - 1], r, daily, separate), Grouped(checkins[..|checkins| - 1], q, daily, separate),
                     c, ShareOf(c, daily, separate), IsNew(c, r), IsNew(c, q));
    }
  }

  lemma NoGroups()
    ensures SameGroups([], [])
  {
  }

  lemma SameGroupsSameMembers(a: seq<Group>, b: seq<Group>)
    requires SameGroups(a, b)
    ensures SameMembers(Members(a), Members(b))
  {
    forall i | 0 <= i < |a| ensures SameLabels(Members(a)[i].contents, Members(b)[i].contents) {
      assert SameParts(a[i].parts, b[i].parts);
    }
  }

  /* Whether there is a summary for the record. */
  predicate IsSummary(checkins: seq<Checkin>, record: nat, form: Form) {
    record == 0 || IsFound(checkins, record, form.daily, Separate(checkins, form))
  }

  /** Main result: the summaries of the same check-ins for different records have the same canonical text. */
  lemma RecordDoesNotCount(checkins: seq<Checkin>, r: nat, q: nat, form: Form)
    requires IsSummary(checkins, r, form) && IsSummary(checkins, q, form)
    ensures Canonical(Formatted(checkins, r, form)) == Canonical(Formatted(checkins, q, form))
  {
    hide Canonical, Assembled, SameMembers, SameGroups;
    var separate := Separate(checkins, form);
    OtherRecordGroups(checkins, r, q, form.daily, separate);
    var a, b := Grouped(checkins, r, form.daily, separate), Grouped(checkins, q, form.daily, separate);
    SameGroupsSameMembers(a, b);
    MarksDoNotCount(TitleOf(checkins, form), Members(a), Members(b));
  }

  /** When there is a summary, and under which title: the daily one is about the day's tasks if its day has a verse or one was
      recited, and the weekly one about the week's. */
  lemma SummaryIs(checkins: seq<Checkin>, record: nat, form: Form)
    ensures var text := Formatted(checkins, record, form);
            var separate :=
              form.separate ||
              exists i :: 0 <= i < |checkins| && (checkins[i].taskType.DailyScripture? || checkins[i].taskType.DailyVerse?);
            var verse := form.verse || exists i :: 0 <= i < |checkins| && checkins[i].taskType.DailyVerse?;
            var title := if !form.daily then "本周任务" else if verse then "每日任务" else "每日灵修";
            && (text == "" <==>
                  record != 0 && forall i | 0 <= i < |checkins| ::
                                   checkins[i].record != record || ShareOf(checkins[i], form.daily, separate).NoPart?)
            && (text != "" ==> text == Assembled(title, Members(Grouped(checkins, record, form.daily, separate))))
  {
    hide ShareOf, Grouped, Assembled, Members;
    var separate := Separate(checkins, form);
    if i :| 0 <= i < |checkins| && (checkins[i].taskType.DailyScripture? || checkins[i].taskType.DailyVerse?) {
      assert TellsApart(checkins[i].taskType);
    }
    TitledText(TitleOf(checkins, form), Members(Grouped(checkins, record, form.daily, separate)));
  }

  lemma TitledText(title: string, members: seq<Member>)
    requires title != ""
    ensures Assembled(title, members) != ""
  {
  }
}
