/** The text of a summary. */
module Summaries {
  import opened CanonicalText
  import VerseProgression
  import opened QueueOrder
  import opened Wrappers

  /* What a member has done; the one that the message is about is marked as new. */
  datatype Content = Content(text: string, isNew: bool)

  datatype Member = Member(name: string, contents: seq<Content>)

  function Mark(isNew: bool): string { if isNew then MARKER else "" }

  function Entry(c: Content): string { " " + Mark(c.isNew) + c.text }

  function Labels(contents: seq<Content>): string {
    if contents == [] then "" else Entry(contents[0]) + Labels(contents[1..])
  }

  function Line(n: nat, m: Member): string { "\n" + Decimal(n) + " " + m.name + Labels(m.contents) }

  /* The lines of the members from the given number on. */
  function Lines(n: nat, members: seq<Member>): string
    decreases |members|
  {
    if members == [] then "" else Line(n, members[0]) + Lines(n + 1, members[1..])
  }

  const NOBODY := "暂无打卡记录"

  function Assembled(title: string, members: seq<Member>): string {
    title + if members == [] then "\n" + NOBODY else Lines(1, members)
  }

  // ---------- the program ----------

  lemma {:induction false} JoinLast(parts: seq<string>, part: string, separator: string)
    requires parts != []
    ensures Join(parts + [part], separator) == Join(parts, separator) + separator + part
  {
    if |parts| > 1 {
      JoinLast(parts[1..], part, separator);
      assert (parts + [part])[1..] == parts[1..] + [part];
    } else {
      assert (parts + [part])[1..] == [part];
    }
  }

  lemma Joined(a: string, b: string, c: string)
    ensures a + b + c == a + (b + c)
  {
  }

  lemma {:induction false} LabelsLast(contents: seq<Content>, c: Content)
    ensures Labels(contents + [c]) == Labels(contents) + Entry(c)
  {
    hide Entry;
    if contents == [] {
      assert contents + [c] == [c];
      assert Labels([c]) == Entry(c) + Labels([]);
    } else {
      LabelsLast(contents[1..], c);
      assert (contents + [c])[1..] == contents[1..] + [c] && (contents + [c])[0] == contents[0];
      Joined(Entry(contents[0]), Labels(contents[1..]), Entry(c));
    }
  }

  lemma {:induction false} LinesLast(n: nat, members: seq<Member>, m: Member)
    ensures Lines(n, members + [m]) == Lines(n, members) + Line(n + |members|, m)
    decreases |members|
  {
    hide Line, Labels, Decimal;
    if members == [] {
      assert members + [m] == [m];
      OneLine(n, m);
    } else {
      LinesLast(n + 1, members[1..], m);
      assert (members + [m])[1..] == members[1..] + [m] && (members + [m])[0] == members[0];
      Joined(Line(n, members[0]), Lines(n + 1, members[1..]), Line(n + |members|, m));
    }
  }

  lemma OneLine(n: nat, m: Member)
    ensures Lines(n, [m]) == Line(n, m) && Lines(n, []) + Line(n, m) == Line(n, m)
  {
  }

  /* A label as it is shown. */
  function Shown(c: Content): string { if c.isNew then MARKER + c.text else c.text }

  lemma LabelsNext(first: string, contents: seq<Content>, i: nat)
    requires i < |contents|
    ensures first + Labels(contents[..i + 1]) == first + Labels(contents[..i]) + " " + Shown(contents[i])
  {
    hide Labels;
    assert contents[..i + 1] == contents[..i] + [contents[i]];
    LabelsLast(contents[..i], contents[i]);
    assert Entry(contents[i]) == " " + Shown(contents[i]);
  }

  method MemberLine(n: nat, m: Member) returns (line: string)
    ensures line == Decimal(n) + " " + m.name + Labels(m.contents)
  {
    hide Join, Labels, Shown, Decimal;
    var first := Decimal(n) + " " + m.name;
    var parts := [first];
    OnePart(first, m.contents);
    for i := 0 to |m.contents|
      invariant parts != [] && Join(parts, " ") == first + Labels(m.contents[..i])
    {
      LabelsNext(first, m.contents, i);
      JoinLast(parts, Shown(m.contents[i]), " ");
      parts := parts + [Shown(m.contents[i])];
    }
    assert m.contents[..|m.contents|] == m.contents;
    line := Join(parts, " ");
  }

  lemma OnePart(first: string, contents: seq<Content>)
    ensures Join([first], " ") == first + Labels(contents[..0])
  {
  }

  lemma LinesNext(title: string, members: seq<Member>, i: nat, line: string)
    requires i < |members| && line == Decimal(i + 1) + " " + members[i].name + Labels(members[i].contents)
    ensures title + Lines(1, members[..i + 1]) == title + Lines(1, members[..i]) + "\n" + line
  {
    hide Lines, Labels, Decimal;
    assert members[..i + 1] == members[..i] + [members[i]];
    LinesLast(1, members[..i], members[i]);
    assert "\n" + line == Line(i + 1, members[i]);
  }

  lemma NoLines(title: string, members: seq<Member>)
    ensures Join([title], "\n") == title + Lines(1, members[..0])
    ensures Join([title] + [NOBODY], "\n") == title + ("\n" + NOBODY)
  {
    JoinLast([title], NOBODY, "\n");
  }

  method Assemble(title: string, members: seq<Member>) returns (text: string)
    ensures text == Assembled(title, members)
  {
    hide Join, Lines, Labels, Decimal;
    NoLines(title, members);
    var lines := [title];
    if |members| == 0 { return Join(lines + [NOBODY], "\n"); }
    for i := 0 to |members|
      invariant lines != [] && Join(lines, "\n") == title + Lines(1, members[..i])
    {
      var line := MemberLine(i + 1, members[i]);
      LinesNext(title, members, i, line);
      JoinLast(lines, line, "\n");
      lines := lines + [line];
    }
    assert members[..|members|] == members;
    text := Join(lines, "\n");
  }

  // ---------- reading a summary ----------

  function MemberText(n: nat, m: Member): string { Decimal(n) + " " + m.name + Labels(m.contents) }

  /* The lines of the members from the given number on, without the line ends. */
  function MemberTexts(n: nat, members: seq<Member>): (r: seq<string>)
    ensures |r| == |members| && forall i | 0 <= i < |r| :: r[i] == MemberText(n + i, members[i])
    decreases |members|
  {
    if members == [] then [] else [MemberText(n, members[0])] + MemberTexts(n + 1, members[1..])
  }

  lemma {:induction false} JoinedMembers(first: string, n: nat, members: seq<Member>)
    ensures first + Lines(n, members) == Join([first] + MemberTexts(n, members), "\n")
    decreases |members|
  {
    hide Decimal, Labels;
    if members == [] {
      assert [first] + MemberTexts(n, []) == [first];
    } else {
      var line, rest := MemberText(n, members[0]), MemberTexts(n + 1, members[1..]);
      JoinedMembers(line, n + 1, members[1..]);
      assert ([first] + ([line] + rest))[1..] == [line] + rest;
      assert first + Lines(n, members) == first + "\n" + (line + Lines(n + 1, members[1..]));
    }
  }

  /* The labels as they are shown. */
  function AllShown(contents: seq<Content>): (r: seq<string>)
    ensures |r| == |contents|
    ensures forall i | 0 <= i < |r| :: r[i] == if contents[i].isNew then "【新】" + contents[i].text else contents[i].text
  {
    if contents == [] then [] else [Shown(contents[0])] + AllShown(contents[1..])
  }

  lemma JoinTwo(first: string, second: string, rest: seq<string>, separator: string)
    ensures Join([first] + ([second] + rest), separator) == first + separator + Join([second] + rest, separator)
  {
    assert ([first] + ([second] + rest))[1..] == [second] + rest;
  }

  lemma FirstShown(contents: seq<Content>)
    requires contents != []
    ensures Labels(contents) == " " + Shown(contents[0]) + Labels(contents[1..])
    ensures AllShown(contents) == [Shown(contents[0])] + AllShown(contents[1..])
  {
    assert Entry(contents[0]) == " " + Shown(contents[0]);
  }

  lemma NoneShown(first: string)
    ensures first + Labels([]) == Join([first] + AllShown([]), " ")
  {
    assert [first] + AllShown([]) == [first];
  }

  lemma {:induction false} JoinedLabels(first: string, contents: seq<Content>)
    ensures first + Labels(contents) == Join([first] + AllShown(contents), " ")
    decreases |contents|
  {
    hide Labels, AllShown, Shown, Join;
    if contents == [] {
      NoneShown(first);
    } else {
      var word, rest := Shown(contents[0]), AllShown(contents[1..]);
      FirstShown(contents);
      JoinedLabels(word, contents[1..]);
      JoinTwo(first, word, rest, " ");
      assert first + (" " + word + Labels(contents[1..])) == first + " " + (word + Labels(contents[1..]));
    }
  }

  predicate Unbroken(text: string) { '\n' !in text }

  predicate InOneLine(m: Member) { Unbroken(m.name) && forall i | 0 <= i < |m.contents| :: Unbroken(m.contents[i].text) }

  lemma {:induction false} LabelsInOneLine(contents: seq<Content>)
    requires forall i | 0 <= i < |contents| :: Unbroken(contents[i].text)
    ensures Unbroken(Labels(contents))
  {
    if contents != [] { LabelsInOneLine(contents[1..]); }
  }

  lemma {:induction false} DecimalInOneLine(n: nat)
    ensures Unbroken(Decimal(n))
  {
    if n >= 10 { DecimalInOneLine(n / 10); }
  }

  lemma MemberInOneLine(n: nat, m: Member)
    requires InOneLine(m)
    ensures VerseProgression.NoNewline(MemberText(n, m))
  {
    LabelsInOneLine(m.contents);
    DecimalInOneLine(n);
  }

  /** Main result: the lines of a summary are its title and one for each member, numbered from one, with the name and the
      labels after single spaces, the new ones marked; or a note that there is nobody. */
  lemma SummaryLines(title: string, members: seq<Member>)
    requires Unbroken(title) && forall i | 0 <= i < |members| :: InOneLine(members[i])
    ensures var lines := CanonicalText.Lines(Assembled(title, members));
            && lines[0] == title
            && (members == [] ==> |lines| == 2 && lines[1] == NOBODY)
            && (members != [] ==>
                  |lines| == |members| + 1
                  && forall i | 0 <= i < |members| ::
                       lines[i + 1] == Join([Decimal(i + 1) + " " + members[i].name] + AllShown(members[i].contents), " "))
  {
    hide Decimal, Labels, InOneLine, AllShown;
    forall i | 0 <= i < |members| { JoinedLabels(Decimal(1 + i) + " " + members[i].name, members[i].contents); }
    var texts := if members == [] then [NOBODY] else MemberTexts(1, members);
    assert [title] + texts != [];
    forall i | 0 <= i < |members| { MemberInOneLine(1 + i, members[i]); }
    assert VerseProgression.AreLines([title] + texts);
    JoinedMembers(title, 1, members);
    NoLines(title, members);
    VerseProgression.LinesOfJoined([title] + texts);
  }

  // ---------- the marks do not count ----------

  /* The same labels; other ones may be marked. */
  predicate SameLabels(a: seq<Content>, b: seq<Content>) {
    |a| == |b| && forall i | 0 <= i < |a| :: a[i].text == b[i].text
  }

  predicate SameMembers(a: seq<Member>, b: seq<Member>) {
    |a| == |b| && forall i | 0 <= i < |a| :: a[i].name == b[i].name && SameLabels(a[i].contents, b[i].contents)
  }

  lemma MarkDoesNotCount(before: string, isNew: bool, after: string)
    ensures WithoutMarkers(before + " " + Mark(isNew) + after) == WithoutMarkers(before + " " + after)
  {
    hide WithoutMarkers;
    var a := before + " ";
    if isNew {
      assert a[|a| - 1] == ' ';
      MarkerInvisibleIff(a, after);
    } else {
      assert a + "" == a;
    }
  }

  lemma {:induction false} LabelsDoNotCount(before: string, a: seq<Content>, b: seq<Content>, after: string)
    requires SameLabels(a, b)
    ensures WithoutMarkers(before + Labels(a) + after) == WithoutMarkers(before + Labels(b) + after)
    decreases |a|
  {
    hide WithoutMarkers;
    if a != [] {
      var word, x, y := a[0].text, Labels(a[1..]), Labels(b[1..]);
      MarkDoesNotCount(before, a[0].isNew, word + x + after);
      MarkDoesNotCount(before, b[0].isNew, word + y + after);
      LabelsDoNotCount(before + " " + word, a[1..], b[1..], after);
      FirstLabel(before, Mark(a[0].isNew), word, x, after);
      FirstLabel(before, Mark(b[0].isNew), word, y, after);
      FirstLabel(before, "", word, x, after);
      FirstLabel(before, "", word, y, after);
    }
  }

  lemma FirstLabel(before: string, mark: string, word: string, rest: string, after: string)
    ensures before + (" " + mark + word + rest) + after == before + " " + mark + (word + rest + after)
    ensures before + " " + word + rest + after == before + " " + (word + rest + after)
  {
  }

  lemma {:induction false} LinesDoNotCount(before: string, n: nat, a: seq<Member>, b: seq<Member>)
    requires SameMembers(a, b)
    ensures WithoutMarkers(before + Lines(n, a)) == WithoutMarkers(before + Lines(n, b))
    decreases |a|
  {
    hide WithoutMarkers, Labels, SameLabels;
    if a != [] {
      var head := "\n" + Decimal(n) + " " + a[0].name;
      var x, y := Labels(a[0].contents), Labels(b[0].contents);
      FirstLine(before, head, x, Lines(n + 1, a[1..]));
      FirstLine(before, head, y, Lines(n + 1, b[1..]));
      FirstLine(before, head, x, Lines(n + 1, b[1..]));
      LinesDoNotCount(before + head + x, n + 1, a[1..], b[1..]);
      LabelsDoNotCount(before + head, a[0].contents, b[0].contents, Lines(n + 1, b[1..]));
    }
  }

  lemma FirstLine(before: string, head: string, labels: string, rest: string)
    ensures before + (head + labels + rest) == before + head + labels + rest
  {
  }

  /** Main result: summaries of the same members and labels have the same canonical text, whatever is marked as new. */
  lemma MarksDoNotCount(title: string, a: seq<Member>, b: seq<Member>)
    requires SameMembers(a, b)
    ensures Canonical(Assembled(title, a)) == Canonical(Assembled(title, b))
  {
    if a != [] { LinesDoNotCount(title, 1, a, b); }
  }
}
