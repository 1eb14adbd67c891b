/** The names of job files: different jobs have different files. */
module FileNames {
  import opened Bindings
  import opened SentState
  import opened Jobs
  import opened QueueOrder
  import opened Wrappers

  predicate IsDigitChar(c: char) { '0' <= c <= '9' }

  predicate AllDigits(s: string) { forall i | 0 <= i < |s| :: IsDigitChar(s[i]) }

  /* The number that a text of digits writes. */
  function Value(s: string): nat
    requires AllDigits(s)
  {
    if s == [] then 0 else 10 * Value(s[..|s| - 1]) + (s[|s| - 1] as nat - '0' as nat)
  }

  lemma {:induction false} DecimalIsNumber(n: nat)
    ensures AllDigits(Decimal(n)) && Decimal(n) != [] && Value(Decimal(n)) == n
    ensures n > 0 ==> Decimal(n)[0] != '0'
  {
    if n >= 10 {
      DecimalIsNumber(n / 10);
      assert Decimal(n)[..|Decimal(n)| - 1] == Decimal(n / 10);
    } else {
      assert Decimal(n)[..0] == [];
    }
  }

  lemma {:induction false} PaddedIsNumber(n: nat, width: nat)
    requires n < Pow10(width)
    ensures AllDigits(Padded(n, width)) && Value(Padded(n, width)) == n
  {
    if width > 0 {
      PaddedIsNumber(n / 10, width - 1);
      assert Padded(n, width)[..width - 1] == Padded(n / 10, width - 1);
    }
  }

  // ---------- reading a name ----------

  lemma FirstOf(a: string, x: string)
    requires AllDigits(a)
    ensures var s := a + ("-" + x);
            && s != [] && (IsDigitChar(s[0]) <==> a != [])
            && (if a == [] then s[1..] == x else s[0] == a[0] && s[1..] == a[1..] + ("-" + x))
  {
    if a == [] { assert a + ("-" + x) == "-" + x; }
  }

  /* Two texts of digits before a dash are the same if the wholes are. */
  lemma {:induction false} DigitsBeforeDash(a: string, b: string, x: string, y: string)
    requires AllDigits(a) && AllDigits(b) && a + ("-" + x) == b + ("-" + y)
    ensures a == b && x == y
  {
    FirstOf(a, x);
    FirstOf(b, y);
    if a != [] {
      DigitsBeforeDash(a[1..], b[1..], x, y);
      assert a == [a[0]] + a[1..] && b == [b[0]] + b[1..];
    }
  }

  lemma DecimalsBeforeDash(m: nat, n: nat, x: string, y: string)
    requires Decimal(m) + ("-" + x) == Decimal(n) + ("-" + y)
    ensures m == n && x == y
  {
    DecimalIsNumber(m);
    DecimalIsNumber(n);
    DigitsBeforeDash(Decimal(m), Decimal(n), x, y);
  }

  lemma PaddedBeforeDash(m: nat, n: nat, x: string, y: string)
    requires m < UINT64_RANGE && n < UINT64_RANGE && Padded(m, WIDTH) + ("-" + x) == Padded(n, WIDTH) + ("-" + y)
    ensures m == n && x == y
  {
    hide Padded, Pow10;
    TwentyDigits();
    PaddedIsNumber(m, WIDTH);
    PaddedIsNumber(n, WIDTH);
    DigitsBeforeDash(Padded(m, WIDTH), Padded(n, WIDTH), x, y);
  }

  lemma SameEnding(x: string, y: string)
    requires x + ".json" == y + ".json"
    ensures x == y
  {
    assert (x + ".json")[..|x|] == x && (y + ".json")[..|y|] == y;
  }

  function PlaceText(target: Target, last: string): string
    requires target.chatId >= 0 && target.chatType >= 0
  {
    Decimal(target.chatType) + ("-" + (last + ".json"))
  }

  function InitialRest(name: Name): string
    requires Nameable(name) && name.InitialName?
  {
    var place := PlaceText(name.target, TopicText(name.topic));
    "initial-" + (Padded(name.group, WIDTH) + ("-" + (Decimal(name.target.chatId) + ("-" + place))))
  }

  function EventRest(name: Name): string
    requires Nameable(name) && name.EventName?
  {
    Padded(name.group, WIDTH) + ("-" + (Padded(name.target.chatId, WIDTH) + ("-" + PlaceText(name.target, name.date))))
  }

  lemma InitialIs(name: Name)
    requires Nameable(name) && name.InitialName?
    ensures FileName(name) == Padded(0, WIDTH) + ("-" + InitialRest(name))
  {
    hide Padded, Decimal, TopicText;
  }

  lemma EventIs(name: Name)
    requires Nameable(name) && name.EventName?
    ensures FileName(name) == Padded(name.recordId, WIDTH) + ("-" + EventRest(name))
  {
    hide Padded, Decimal;
  }

  lemma SamePlace(t: Target, u: Target, x: string, y: string)
    requires t.chatId >= 0 && t.chatType >= 0 && u.chatId >= 0 && u.chatType >= 0
    requires PlaceText(t, x) == PlaceText(u, y)
    ensures t.chatType == u.chatType && x == y
  {
    DecimalsBeforeDash(t.chatType, u.chatType, x + ".json", y + ".json");
    SameEnding(x, y);
  }

  lemma TopicsDiffer(a: Topic, b: Topic)
    requires TopicText(a) == TopicText(b)
    ensures a == b
  {
    assert |TopicText(Daily)| == 5 && |TopicText(Weekly)| == 6;
  }

  lemma SameInitial(a: Name, b: Name)
    requires Nameable(a) && Nameable(b) && a.InitialName? && b.InitialName? && InitialRest(a) == InitialRest(b)
    ensures a == b
  {
    hide Padded, Decimal, TopicText, PlaceText;
    var x := Padded(a.group, WIDTH) + ("-" + (Decimal(a.target.chatId) + ("-" + PlaceText(a.target, TopicText(a.topic)))));
    var y := Padded(b.group, WIDTH) + ("-" + (Decimal(b.target.chatId) + ("-" + PlaceText(b.target, TopicText(b.topic)))));
    assert InitialRest(a)[8..] == x && InitialRest(b)[8..] == y;
    PaddedBeforeDash(a.group, b.group, Decimal(a.target.chatId) + ("-" + PlaceText(a.target, TopicText(a.topic))),
                     Decimal(b.target.chatId) + ("-" + PlaceText(b.target, TopicText(b.topic))));
    DecimalsBeforeDash(a.target.chatId, b.target.chatId, PlaceText(a.target, TopicText(a.topic)),
                       PlaceText(b.target, TopicText(b.topic)));
    SamePlace(a.target, b.target, TopicText(a.topic), TopicText(b.topic));
    TopicsDiffer(a.topic, b.topic);
  }

  lemma SameEvent(a: Name, b: Name)
    requires Nameable(a) && Nameable(b) && a.EventName? && b.EventName? && a.recordId == b.recordId && EventRest(a) == EventRest(b)
    ensures a == b
  {
    hide Padded, Decimal, PlaceText;
    PaddedBeforeDash(a.group, b.group, Padded(a.target.chatId, WIDTH) + ("-" + PlaceText(a.target, a.date)),
                     Padded(b.target.chatId, WIDTH) + ("-" + PlaceText(b.target, b.date)));
    PaddedBeforeDash(a.target.chatId, b.target.chatId, PlaceText(a.target, a.date), PlaceText(b.target, b.date));
    SamePlace(a.target, b.target, a.date, b.date);
  }

  function RestOf(name: Name): string
    requires Nameable(name)
  {
    if name.InitialName? then InitialRest(name) else EventRest(name)
  }

  lemma FileNameIs(name: Name)
    requires Nameable(name)
    ensures FileName(name) == Padded(Rank(name), WIDTH) + ("-" + RestOf(name))
  {
    hide Padded, InitialRest, EventRest, FileName;
    if name.InitialName? { InitialIs(name); } else { EventIs(name); }
  }

  /** Main result: two jobs have the same file only if they are the same: the same kind of job for the same group, chat, and
      topic or check-in. */
  lemma FileNamesDiffer(a: Name, b: Name)
    requires Nameable(a) && Nameable(b) && FileName(a) == FileName(b)
    ensures a == b
  {
    hide Padded, FileName, InitialRest, EventRest;
    FileNameIs(a);
    FileNameIs(b);
    PaddedBeforeDash(Rank(a), Rank(b), RestOf(a), RestOf(b));
    if a.InitialName? { SameInitial(a, b); } else { SameEvent(a, b); }
  }
}
