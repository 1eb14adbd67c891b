/** The order in which pending jobs are taken up: by file name, the first due one of a chat. */
module QueueOrder {
  import opened Bindings
  import opened SentState
  import opened Dates
  import opened Jobs
  import opened Delivery
  import opened Wrappers

  // ---------- file names ----------

  function Digit(d: nat): char
    requires d < 10
  {
    '0' + d as char
  }

  /* The last `width` decimal digits; all of them when the number is small enough. */
  function Padded(n: nat, width: nat): (s: string)
    ensures |s| == width
  {
    if width == 0 then "" else Padded(n / 10, width - 1) + [Digit(n % 10)]
  }

  function Decimal(n: nat): string {
    if n < 10 then [Digit(n)] else Decimal(n / 10) + [Digit(n % 10)]
  }

  const WIDTH: nat := 20

  /* Chat types are 2 and 3; chat IDs of bindings are positive. */
  predicate Nameable(name: Name) {
    name.target.chatId >= 0 && name.target.chatType >= 0 && name.group < UINT64_RANGE
    && (name.EventName? ==> 0 < name.recordId < UINT64_RANGE)
  }

  function FileName(name: Name): string
    requires Nameable(name)
  {
    match name
    case InitialName(group, target, topic) =>
      Padded(0, WIDTH) + "-initial-" + Padded(group, WIDTH) + "-" + Decimal(target.chatId) + "-"
      + Decimal(target.chatType) + "-" + TopicText(topic) + ".json"
    case EventName(recordId, group, target, date) =>
      Padded(recordId, WIDTH) + "-" + Padded(group, WIDTH) + "-" + Padded(target.chatId, WIDTH) + "-"
      + Decimal(target.chatType) + "-" + date + ".json"
  }

  function Pow10(n: nat): nat { if n == 0 then 1 else 10 * Pow10(n - 1) }

  /** Zero-padded numbers sort as numbers. */
  lemma {:induction false} PaddedOrder(a: nat, b: nat, width: nat, x: string, y: string)
    requires a < Pow10(width) && b < Pow10(width)
    ensures a < b ==> TextLess(Padded(a, width) + x, Padded(b, width) + y)
    ensures a == b ==> (TextLess(Padded(a, width) + x, Padded(b, width) + y) <==> TextLess(x, y))
  {
    if width == 0 {
      assert Padded(a, 0) + x == x && Padded(b, 0) + y == y;
    } else {
      var x', y' := [Digit(a % 10)] + x, [Digit(b % 10)] + y;
      PaddedOrder(a / 10, b / 10, width - 1, x', y');
      assert Padded(a, width) + x == Padded(a / 10, width - 1) + x';
      assert Padded(b, width) + y == Padded(b / 10, width - 1) + y';
      assert x'[1..] == x && y'[1..] == y;
      assert a == 10 * (a / 10) + a % 10 && b == 10 * (b / 10) + b % 10;
    }
  }

  lemma TwentyDigits()
    ensures UINT64_RANGE <= Pow10(WIDTH)
  {
    assert Pow10(5) == 100_000 by { assert Pow10(3) == 1000; }
    assert Pow10(10) == 10_000_000_000 by { assert Pow10(8) == 100_000_000 by { assert Pow10(6) == 1_000_000; } }
    assert Pow10(15) == 1_000_000_000_000_000 by { assert Pow10(13) == 10_000_000_000_000 by { assert Pow10(11) == 100_000_000_000; } }
    assert Pow10(20) == 100_000_000_000_000_000_000 by {
      assert Pow10(18) == 1_000_000_000_000_000_000 by { assert Pow10(16) == 10_000_000_000_000_000; }
    }
  }

  function Rank(name: Name): nat { if name.InitialName? then 0 else name.recordId }

  /** Initial jobs come before the jobs of check-ins, and those come in the order of their record IDs. */
  lemma FileNameOrder(a: Name, b: Name)
    requires Nameable(a) && Nameable(b)
    ensures Rank(a) < Rank(b) ==> TextLess(FileName(a), FileName(b))
  {
    TwentyDigits();
    var x, y := FileName(a)[WIDTH..], FileName(b)[WIDTH..];
    FileNameHead(a);
    FileNameHead(b);
    if Rank(a) < Rank(b) {
      PaddedOrder(Rank(a), Rank(b), WIDTH, x, y);
    }
  }

  lemma RankHead(rank: nat, rest: string)
    ensures |Padded(rank, WIDTH) + rest| >= WIDTH && (Padded(rank, WIDTH) + rest)[WIDTH..] == rest
  {
    hide Padded;
    assert |Padded(rank, WIDTH)| == WIDTH;
  }

  lemma InitialHead(a: Name)
    requires Nameable(a) && a.InitialName?
    ensures FileName(a) == Padded(0, WIDTH) + ("-initial-" + Padded(a.group, WIDTH) + "-" + Decimal(a.target.chatId) + "-"
                           + Decimal(a.target.chatType) + "-" + TopicText(a.topic) + ".json")
  {
    hide Padded, Decimal, TopicText;
  }

  lemma EventHead(a: Name)
    requires Nameable(a) && a.EventName?
    ensures FileName(a) == Padded(a.recordId, WIDTH) + ("-" + Padded(a.group, WIDTH) + "-" + Padded(a.target.chatId, WIDTH)
                           + "-" + Decimal(a.target.chatType) + "-" + a.date + ".json")
  {
    hide Padded, Decimal;
  }

  lemma FileNameHead(a: Name)
    requires Nameable(a)
    ensures |FileName(a)| >= WIDTH && FileName(a) == Padded(Rank(a), WIDTH) + FileName(a)[WIDTH..]
  {
    hide Padded, FileName, Decimal, TopicText;
    if a.InitialName? {
      InitialHead(a);
      RankHead(0, "-initial-" + Padded(a.group, WIDTH) + "-" + Decimal(a.target.chatId) + "-"
                  + Decimal(a.target.chatType) + "-" + TopicText(a.topic) + ".json");
    } else {
      EventHead(a);
      RankHead(a.recordId, "-" + Padded(a.group, WIDTH) + "-" + Padded(a.target.chatId, WIDTH)
                           + "-" + Decimal(a.target.chatType) + "-" + a.date + ".json");
    }
  }

  // ---------- one tick ----------

  datatype Entry = Entry(name: Name, item: Job)

  /* The listing of the pending directory, by file name. */
  ghost predicate Listing(entries: seq<Entry>) {
    && (forall i | 0 <= i < |entries| :: Nameable(entries[i].name))
    && (forall i, j | 0 <= i < j < |entries| :: TextLess(FileName(entries[i].name), FileName(entries[j].name)))
  }

  datatype Outcome = Nothing | Processed(index: nat) | Quarantined(index: nat)

  function Fate(e: Entry, now: nat): Loading { LoadingOf(e.name, e.item, now) }

  /* Closed as expired on the way. */
  predicate Outdated(e: Entry, now: nat) {
    Fate(e, now).Process? && Fate(e, now).w.Busy? && Fate(e, now).w.stage == Finishing
  }

  /* Due, or waiting for its retry time: the job its chat waits for. */
  predicate Live(e: Entry, now: nat) {
    !Fate(e, now).Quarantine? && !Outdated(e, now)
  }

  predicate Due(e: Entry, now: nat) {
    Live(e, now) && !Fate(e, now).TooEarly?
  }

  /* The first live job of its chat. */
  predicate Head(entries: seq<Entry>, i: nat, now: nat)
    requires i < |entries|
  {
    Live(entries[i], now)
    && forall j | 0 <= j < i :: Live(entries[j], now) ==> entries[j].item.target != entries[i].item.target
  }

  /* The chats whose first live job is among the first entries. */
  ghost predicate Blocked(entries: seq<Entry>, n: nat, now: nat, blocked: set<Target>)
    requires n <= |entries|
  {
    && (forall i | 0 <= i < n && Live(entries[i], now) :: entries[i].item.target in blocked)
    && forall t | t in blocked :: exists i :: 0 <= i < n && Live(entries[i], now) && entries[i].item.target == t
  }

  lemma BlockedNext(entries: seq<Entry>, n: nat, now: nat, blocked: set<Target>)
    requires n < |entries| && Blocked(entries, n, now, blocked)
    ensures Head(entries, n, now) <==> Live(entries[n], now) && entries[n].item.target !in blocked
    ensures !Live(entries[n], now) || entries[n].item.target in blocked ==> Blocked(entries, n + 1, now, blocked)
    ensures Live(entries[n], now) ==> Blocked(entries, n + 1, now, blocked + {entries[n].item.target})
  {
    hide Live;
    var target := entries[n].item.target;
    if Live(entries[n], now) {
      forall t | t in blocked + {target} ensures exists i :: 0 <= i < n + 1 && Live(entries[i], now) && entries[i].item.target == t {
        if t == target {
          assert 0 <= n < n + 1 && Live(entries[n], now) && entries[n].item.target == t;
        } else {
          var i :| 0 <= i < n && Live(entries[i], now) && entries[i].item.target == t;
        }
      }
    }
  }

  lemma NoneBlocked(entries: seq<Entry>, now: nat)
    ensures Blocked(entries, 0, now, {})
  {
  }

  /* The tests of the loop, in its order. */
  lemma FateIs(e: Entry, now: nat)
    ensures Fate(e, now).Quarantine? <==> e.item.nextPart > |e.item.body.messages|
    ensures !Fate(e, now).Quarantine? ==>
              (Outdated(e, now) <==> e.item.status == Pending && !(!e.item.initial.NoTopic? && e.item.refreshAt != 0)
                                     && e.item.body.expiresAt != 0 && now >= e.item.body.expiresAt)
    ensures Live(e, now) <==> !Fate(e, now).Quarantine? && !Outdated(e, now)
    ensures Live(e, now) ==> (Due(e, now) <==> !(e.item.status == Pending && now < e.item.nextTry))
    ensures Due(e, now) ==> Live(e, now)
  {
  }

  /** One tick over the listing. Expired jobs met on the way are closed; then at most one job is processed, the first
      live one of its chat. However many chats are backing off, a tick does nothing only when no chat's first live
      job is due. */
  method ProcessNext(entries: seq<Entry>, now: nat) returns (closed: seq<nat>, outcome: Outcome)
    ensures outcome.Processed? ==>
              && outcome.index < |entries| && Head(entries, outcome.index, now) && Due(entries[outcome.index], now)
    ensures outcome.Quarantined? ==> outcome.index < |entries| && Fate(entries[outcome.index], now).Quarantine?
    ensures outcome.Nothing? ==>
              forall i | 0 <= i < |entries| ::
                !Fate(entries[i], now).Quarantine? && (Head(entries, i, now) ==> !Due(entries[i], now))
    ensures var stop := if outcome.Nothing? then |entries| else outcome.index;
            forall i :: i in closed <==> 0 <= i < stop && Outdated(entries[i], now)
    ensures (exists i :: 0 <= i < |entries| && Head(entries, i, now) && Due(entries[i], now)) ==> !outcome.Nothing?
    ensures forall i | 0 <= i < |entries| && outcome.Processed? && i < outcome.index ::
              !Fate(entries[i], now).Quarantine? && (Head(entries, i, now) ==> !Due(entries[i], now))
  {
    hide Fate, Outdated, Live, Due, Blocked, Head;
    var blocked: set<Target> := {};
    closed := [];
    NoneBlocked(entries, now);
    for n := 0 to |entries|
      invariant forall i :: i in closed <==> 0 <= i < n && Outdated(entries[i], now)
      invariant forall i | 0 <= i < n :: !Fate(entries[i], now).Quarantine?
      invariant Blocked(entries, n, now, blocked)
      invariant forall i | 0 <= i < n && Head(entries, i, now) :: !Due(entries[i], now)
    {
      FateIs(entries[n], now);
      BlockedNext(entries, n, now, blocked);
      var item := entries[n].item;
      if item.nextPart > |item.body.messages| {
        return closed, Quarantined(n);
      }
      var refreshPending := !item.initial.NoTopic? && item.refreshAt != 0;
      if item.status == Pending && !refreshPending && item.body.expiresAt != 0 && now >= item.body.expiresAt {
        closed := closed + [n];
        continue;
      }
      if item.target in blocked {
        continue;
      }
      blocked := blocked + {item.target};
      if item.status == Pending && now < item.nextTry {
        continue;
      }
      return closed, Processed(n);
    }
    return closed, Nothing;
  }

  /** What the first live job of a chat is: the one with the smallest file name, so an initial job before any
      check-in and a check-in before any later record. */
  lemma HeadIsFirstByName(entries: seq<Entry>, i: nat, j: nat, now: nat)
    requires Listing(entries) && i < |entries| && j < |entries| && i != j
    requires Head(entries, i, now) && Live(entries[j], now) && entries[i].item.target == entries[j].item.target
    ensures TextLess(FileName(entries[i].name), FileName(entries[j].name))
    ensures Rank(entries[i].name) <= Rank(entries[j].name)
  {
    FileNameOrder(entries[j].name, entries[i].name);
    if Rank(entries[j].name) < Rank(entries[i].name) {
      TextLessAsymmetric(FileName(entries[i].name), FileName(entries[j].name));
    }
  }

  lemma TextLessAsymmetric(a: string, b: string)
    ensures !(TextLess(a, b) && TextLess(b, a))
  {
  }
}
