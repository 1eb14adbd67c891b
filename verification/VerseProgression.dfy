/** Memory verses: splitting a text at its verse markers, and the slice of verses of each day. */
module VerseProgression {
  import opened CanonicalText
  import opened Wrappers

  // ---------- verse markers ----------

  datatype CharKind = OpenBracket | CloseBracket | LeadDigit | Letter | Digit

  /* The Han characters of the basic plane stand for the whole script. */
  predicate In(c: char, kind: CharKind) {
    match kind
    case OpenBracket => c == '【' || c == '['
    case CloseBracket => c == '】' || c == ']'
    case LeadDigit => '1' <= c <= '3'
    case Letter => 'a' <= c <= 'z' || 'A' <= c <= 'Z' || '\U{3400}' <= c <= '\U{4DBF}' || '\U{4E00}' <= c <= '\U{9FFF}'
    case Digit => '0' <= c <= '9'
  }

  predicate IsBlank(c: char) { c == ' ' || c == '\t' }

  predicate IsColon(c: char) { c == ':' || c == '：' }

  function Blanks(s: string): string { if s != [] && IsBlank(s[0]) then Blanks(s[1..]) else s }

  datatype Token = Token(text: string, rest: string)

  /* As many characters of the kind as there are, up to the limit. */
  function Take(s: string, kind: CharKind, limit: nat): Token {
    if s != [] && limit > 0 && In(s[0], kind)
    then var t := Take(s[1..], kind, limit - 1); Token([s[0]] + t.text, t.rest)
    else Token([], s)
  }

  datatype Ref = Ref(book: string, chapter: nat, verse: nat)

  datatype Mark = NoMark | Mark(ref: Ref, body: string)

  function Numeral(digits: string): nat {
    if digits == [] then 0
    else
      var last := digits[|digits| - 1];
      10 * Numeral(digits[..|digits| - 1]) + (if In(last, Digit) then last as nat - '0' as nat else 0)
  }

  function MarkFrom(book: string, afterBook: string): Mark {
    var chapter := Take(Blanks(afterBook), Digit, 3);
    var colon := Blanks(chapter.rest);
    if chapter.text == [] || colon == [] || !IsColon(colon[0]) then NoMark
    else
      var verse := Take(Blanks(colon[1..]), Digit, 3);
      if verse.text == [] then NoMark
      else Mark(Ref(book, Numeral(chapter.text), Numeral(verse.text)), Blanks(Take(verse.rest, CloseBracket, 1).rest))
  }

  /* The verse marker at the start of a line, and what follows it. */
  function MarkOf(line: string): Mark {
    var lead := Take(Take(Blanks(line), OpenBracket, 1).rest, LeadDigit, 1);
    var letters := Take(lead.rest, Letter, |lead.rest|);
    if letters.text == [] then NoMark else MarkFrom(lead.text + letters.text, letters.rest)
  }

  // ---------- splitting ----------

  /* A verse of a text; it is clear when its numbers are positive and its words neither empty nor ambiguous. */
  datatype Segment = Segment(ref: Ref, text: string, clear: bool)

  /* A line with its marker. */
  datatype Line = Line(text: string, mark: Mark)

  function Marked(lines: seq<string>): (r: seq<Line>)
    ensures |r| == |lines|
  {
    if lines == [] then [] else [Line(lines[0], MarkOf(lines[0]))] + Marked(lines[1..])
  }

  function LineTexts(lines: seq<Line>): (r: seq<string>)
    ensures |r| == |lines|
  {
    if lines == [] then [] else [lines[0].text] + LineTexts(lines[1..])
  }

  /* A marker line with the lines that follow it. */
  predicate IsGroup(lines: seq<Line>) {
    |lines| > 0 && lines[0].mark.Mark? && forall i | 0 < i < |lines| :: lines[i].mark.NoMark?
  }

  /* The lines before the first marker line, and the groups. */
  datatype Grouped = Grouped(leading: seq<Line>, groups: seq<seq<Line>>)

  predicate AllGroups(groups: seq<seq<Line>>) { forall i | 0 <= i < |groups| :: IsGroup(groups[i]) }

  function Groups(lines: seq<Line>): Grouped {
    if lines == [] then Grouped([], [])
    else
      var rest := Groups(lines[1..]);
      if lines[0].mark.Mark? then Grouped([], [[lines[0]] + rest.leading] + rest.groups)
      else Grouped([lines[0]] + rest.leading, rest.groups)
  }

  lemma {:induction false} GroupsAreGroups(lines: seq<Line>)
    ensures AllGroups(Groups(lines).groups) && forall i | 0 <= i < |Groups(lines).leading| :: Groups(lines).leading[i].mark.NoMark?
  {
    if lines != [] { GroupsAreGroups(lines[1..]); }
  }

  function Body(first: Mark, others: seq<string>): string
    requires first.Mark?
  {
    TrimSpace(Join([first.body] + others, "\n"))
  }

  predicate AmbiguousStart(c: char) { c in {'-', '–', '—', '－', ':', '：'} || In(c, Digit) }

  predicate GoodVerse(ref: Ref, body: string) {
    body != [] && !AmbiguousStart(body[0]) && ref.chapter >= 1 && ref.verse >= 1
  }

  function SegmentOf(group: seq<Line>): Segment
    requires IsGroup(group)
  {
    var ref := group[0].mark.ref;
    Segment(ref, TrimSpace(Join(LineTexts(group), "\n")), GoodVerse(ref, Body(group[0].mark, LineTexts(group[1..]))))
  }

  function Segments(groups: seq<seq<Line>>): seq<Segment>
    requires AllGroups(groups)
  {
    seq(|groups|, i requires 0 <= i < |groups| => SegmentOf(groups[i]))
  }

  predicate AllClear(segments: seq<Segment>) { forall i | 0 <= i < |segments| :: segments[i].clear }

  predicate DistinctRefs(segments: seq<Segment>) {
    forall i, j | 0 <= i < j < |segments| :: segments[i].ref != segments[j].ref
  }

  predicate IsVerseList(leading: seq<Line>, segments: seq<Segment>) {
    segments != [] && TrimSpace(Join(LineTexts(leading), "\n")) == [] && AllClear(segments) && DistinctRefs(segments)
  }

  /* The verses of a text; none when the text does not start with a marker, or a marker is empty, ambiguous or repeated. */
  function Split(text: string): Option<seq<Segment>> {
    var g := Groups(Marked(Lines(text)));
    GroupsAreGroups(Marked(Lines(text)));
    if IsVerseList(g.leading, Segments(g.groups)) then Some(Segments(g.groups)) else None
  }

  // ---------- trailing white space ----------

  predicate AllSpace(s: string) { forall i | 0 <= i < |s| :: IsSpace(s[i]) }

  /* The second text is the first one with white space after it. */
  predicate Padded(s: string, t: string) { |s| <= |t| && t[..|s|] == s && AllSpace(t[|s|..]) }

  lemma PaddedTail(s: string, t: string)
    requires Padded(s, t) && s != []
    ensures t != [] && t[0] == s[0] && Padded(s[1..], t[1..])
  {
    assert t[..|s|][0] == t[0] && t[..|s|][1..] == t[1..][..|s| - 1] && t[1..][|s| - 1..] == t[|s|..];
  }

  lemma SpaceTail(t: string)
    requires AllSpace(t) && t != []
    ensures AllSpace(t[1..]) && Padded([], t[1..]) && Padded([], t)
  {
    assert t[0..] == t && t[1..][0..] == t[1..];
  }

  lemma {:induction false} BlanksPadded(s: string, t: string)
    requires Padded(s, t)
    ensures Padded(Blanks(s), Blanks(t))
  {
    if s != [] {
      PaddedTail(s, t);
      if IsBlank(s[0]) { BlanksPadded(s[1..], t[1..]); }
    } else {
      assert t[0..] == t;
      if t != [] && IsBlank(t[0]) {
        SpaceTail(t);
        BlanksPadded([], t[1..]);
      }
    }
  }

  lemma SpaceInNoClass(c: char, kind: CharKind)
    requires IsSpace(c)
    ensures !In(c, kind) && !IsColon(c)
  {
  }

  lemma {:induction false} TakePadded(s: string, t: string, kind: CharKind, m: nat, n: nat)
    requires Padded(s, t) && (m == n || (m >= |s| && n >= |t|))
    ensures Take(t, kind, n).text == Take(s, kind, m).text && Padded(Take(s, kind, m).rest, Take(t, kind, n).rest)
  {
    if s != [] {
      PaddedTail(s, t);
      if m > 0 && In(s[0], kind) { TakePadded(s[1..], t[1..], kind, m - 1, n - 1); }
    } else if t != [] {
      assert t[0..][0] == t[0];
      SpaceInNoClass(t[0], kind);
    }
  }

  lemma MarkFromPadded(book: string, s: string, t: string)
    requires Padded(s, t)
    ensures MarkFrom(book, s).NoMark? <==> MarkFrom(book, t).NoMark?
    ensures var m, n := MarkFrom(book, s), MarkFrom(book, t);
            m.Mark? ==> m.ref == n.ref && Padded(m.body, n.body)
  {
    BlanksPadded(s, t);
    TakePadded(Blanks(s), Blanks(t), Digit, 3, 3);
    var c, d := Take(Blanks(s), Digit, 3).rest, Take(Blanks(t), Digit, 3).rest;
    BlanksPadded(c, d);
    if Blanks(c) == [] {
      if Blanks(d) != [] {
        assert Blanks(d)[0..][0] == Blanks(d)[0];
        SpaceInNoClass(Blanks(d)[0], Digit);
      }
    } else {
      PaddedTail(Blanks(c), Blanks(d));
      VersePadded(Blanks(c)[1..], Blanks(d)[1..]);
    }
  }

  lemma VersePadded(s: string, t: string)
    requires Padded(s, t)
    ensures var v, w := Take(Blanks(s), Digit, 3), Take(Blanks(t), Digit, 3);
            v.text == w.text && Padded(Blanks(Take(v.rest, CloseBracket, 1).rest), Blanks(Take(w.rest, CloseBracket, 1).rest))
  {
    BlanksPadded(s, t);
    TakePadded(Blanks(s), Blanks(t), Digit, 3, 3);
    var v, w := Take(Blanks(s), Digit, 3).rest, Take(Blanks(t), Digit, 3).rest;
    TakePadded(v, w, CloseBracket, 1, 1);
    BlanksPadded(Take(v, CloseBracket, 1).rest, Take(w, CloseBracket, 1).rest);
  }

  /* White space at the end of a line changes neither whether it has a marker nor which one. */
  lemma MarkPadded(s: string, t: string)
    requires Padded(s, t)
    ensures MarkOf(s).NoMark? <==> MarkOf(t).NoMark?
    ensures MarkOf(s).Mark? ==> MarkOf(s).ref == MarkOf(t).ref && Padded(MarkOf(s).body, MarkOf(t).body)
  {
    BlanksPadded(s, t);
    TakePadded(Blanks(s), Blanks(t), OpenBracket, 1, 1);
    var a, b := Take(Blanks(s), OpenBracket, 1).rest, Take(Blanks(t), OpenBracket, 1).rest;
    TakePadded(a, b, LeadDigit, 1, 1);
    var c, d := Take(a, LeadDigit, 1).rest, Take(b, LeadDigit, 1).rest;
    TakePadded(c, d, Letter, |c|, |d|);
    MarkFromPadded(Take(a, LeadDigit, 1).text + Take(c, Letter, |c|).text, Take(c, Letter, |c|).rest, Take(d, Letter, |d|).rest);
  }

  // ---------- lines ----------

  predicate NoNewline(line: string) { forall i | 0 <= i < |line| :: line[i] != '\n' }

  predicate AreLines(lines: seq<string>) { forall i | 0 <= i < |lines| :: NoNewline(lines[i]) }

  lemma {:induction false} LinesAreLines(text: string)
    ensures AreLines(Lines(text))
  {
    if text != [] { LinesAreLines(text[1..]); }
  }

  lemma JoinFirst(c: char, first: string, rest: seq<string>)
    ensures Join([[c] + first] + rest, "\n") == [c] + Join([first] + rest, "\n")
  {
    if rest != [] { assert ([[c] + first] + rest)[1..] == rest == ([first] + rest)[1..]; }
  }

  lemma {:induction false} JoinedLines(text: string)
    ensures Join(Lines(text), "\n") == text
  {
    if text != [] {
      JoinedLines(text[1..]);
      var rest := Lines(text[1..]);
      if text[0] == '\n' {
        assert ([[]] + rest)[1..] == rest;
      } else {
        JoinFirst(text[0], rest[0], rest[1..]);
        assert [rest[0]] + rest[1..] == rest;
      }
    }
  }

  lemma {:induction false} LinesOfConcat(a: string, b: string)
    ensures Lines(a + "\n" + b) == Lines(a) + Lines(b)
  {
    var t := a + "\n" + b;
    if a == [] {
      assert t[1..] == b;
    } else {
      assert t[0] == a[0] && t[1..] == a[1..] + "\n" + b;
      LinesOfConcat(a[1..], b);
    }
  }

  lemma {:induction false} LinesOfLine(line: string)
    requires NoNewline(line)
    ensures Lines(line) == [line]
  {
    if line != [] {
      LinesOfLine(line[1..]);
      assert line[0] != '\n' && [line[0]] + line[1..] == line;
    }
  }

  lemma {:induction false} LinesOfJoined(lines: seq<string>)
    requires AreLines(lines) && lines != []
    ensures Lines(Join(lines, "\n")) == lines
  {
    LinesOfLine(lines[0]);
    if |lines| > 1 {
      LinesOfJoined(lines[1..]);
      LinesOfConcat(lines[0], Join(lines[1..], "\n"));
    }
  }

  function WithChar(lines: seq<string>, c: char): seq<string>
    requires lines != []
  {
    lines[..|lines| - 1] + [lines[|lines| - 1] + [c]]
  }

  lemma WithCharRest(first: string, rest: seq<string>, c: char)
    requires rest != []
    ensures WithChar([first] + rest, c) == [first] + WithChar(rest, c)
  {
  }

  lemma {:induction false} LinesOfAppendNewline(text: string)
    ensures Lines(text + ['\n']) == Lines(text) + [[]]
  {
    if text != [] {
      assert (text + ['\n'])[0] == text[0] && (text + ['\n'])[1..] == text[1..] + ['\n'];
      LinesOfAppendNewline(text[1..]);
    }
  }

  lemma PrependToWithChar(d: char, rest: seq<string>, c: char)
    requires rest != []
    ensures var longer := WithChar(rest, c); [[d] + longer[0]] + longer[1..] == WithChar([[d] + rest[0]] + rest[1..], c)
  {
    if |rest| == 1 {
      assert [d] + (rest[0] + [c]) == ([d] + rest[0]) + [c];
    } else {
      assert WithChar(rest, c)[1..] == WithChar(rest[1..], c);
      WithCharRest([d] + rest[0], rest[1..], c);
    }
  }

  /* The lines of a text with one more character. */
  lemma {:induction false} LinesOfAppendChar(text: string, c: char)
    requires c != '\n'
    ensures Lines(text + [c]) == WithChar(Lines(text), c)
  {
    if text == [] {
      LinesOfLine([c]);
      assert [] + [c] == [c];
    } else {
      assert (text + [c])[0] == text[0] && (text + [c])[1..] == text[1..] + [c];
      LinesOfAppendChar(text[1..], c);
      WithCharRest([], Lines(text[1..]), c);
      PrependToWithChar(text[0], Lines(text[1..]), c);
    }
  }

  // ---------- trimming ----------

  lemma {:induction false} TrimLeftAppend(x: string, c: char)
    requires IsSpace(c)
    ensures TrimLeft(x + [c]) == if TrimLeft(x) == [] then [] else TrimLeft(x) + [c]
  {
    if x != [] {
      assert (x + [c])[0] == x[0] && (x + [c])[1..] == x[1..] + [c];
      if IsSpace(x[0]) { TrimLeftAppend(x[1..], c); }
    }
  }

  lemma TrimSpaceAppend(x: string, c: char)
    requires IsSpace(c)
    ensures TrimSpace(x + [c]) == TrimSpace(x)
  {
    TrimLeftAppend(x, c);
    if TrimLeft(x) != [] { assert (TrimLeft(x) + [c])[..|TrimLeft(x)|] == TrimLeft(x); }
  }

  lemma {:induction false} TrimSpacePadded(x: string, y: string)
    requires Padded(x, y)
    ensures TrimSpace(x) == TrimSpace(y)
    decreases |y|
  {
    if |x| == |y| {
      assert y[..|x|] == y;
    } else {
      var init, c := y[..|y| - 1], y[|y| - 1];
      assert y[|x|..][|y| - |x| - 1] == c && init[..|x|] == y[..|x|];
      forall i | 0 <= i < |init| - |x| ensures IsSpace(init[|x|..][i]) { assert init[|x|..][i] == y[|x|..][i]; }
      TrimSpacePadded(x, init);
      TrimSpaceAppend(init, c);
      assert y == init + [c];
    }
  }

  lemma {:induction false} TrimRightEnds(x: string)
    ensures TrimRight(x) == [] || !IsSpace(TrimRight(x)[|TrimRight(x)| - 1])
    ensures |TrimRight(x)| <= |x| && TrimRight(x) == x[..|TrimRight(x)|]
  {
    if x != [] && IsSpace(x[|x| - 1]) { TrimRightEnds(x[..|x| - 1]); }
  }

  lemma {:induction false} TrimLeftStarts(x: string)
    ensures TrimLeft(x) == [] || !IsSpace(TrimLeft(x)[0])
  {
    if x != [] && IsSpace(x[0]) { TrimLeftStarts(x[1..]); }
  }

  lemma TrimSpaceTwice(x: string)
    ensures TrimSpace(TrimSpace(x)) == TrimSpace(x)
  {
    TrimLeftStarts(x);
    TrimRightEnds(TrimLeft(x));
  }

  // ---------- a verse stays itself when its text is trimmed ----------

  predicate IsVerse(lines: seq<string>) {
    |lines| > 0 && MarkOf(lines[0]).Mark? && forall i | 0 < i < |lines| :: MarkOf(lines[i]).NoMark?
  }

  /* The second lines are the same verse as the first. */
  predicate SameVerse(a: seq<string>, b: seq<string>) {
    && IsVerse(a) && IsVerse(b) && MarkOf(a[0]).ref == MarkOf(b[0]).ref
    && Body(MarkOf(a[0]), a[1..]) == Body(MarkOf(b[0]), b[1..])
  }

  lemma {:induction false} JoinAppendLine(lines: seq<string>)
    requires lines != []
    ensures Join(lines + [[]], "\n") == Join(lines, "\n") + ['\n']
  {
    if |lines| > 1 {
      JoinAppendLine(lines[1..]);
      assert (lines + [[]])[1..] == lines[1..] + [[]];
    } else {
      assert (lines + [[]])[1..] == [[]];
    }
  }

  lemma {:induction false} JoinAppendChar(lines: seq<string>, c: char)
    requires lines != []
    ensures Join(lines[..|lines| - 1] + [lines[|lines| - 1] + [c]], "\n") == Join(lines, "\n") + [c]
  {
    if |lines| > 1 {
      JoinAppendChar(lines[1..], c);
      var longer := lines[..|lines| - 1] + [lines[|lines| - 1] + [c]];
      assert longer[1..] == lines[1..][..|lines| - 2] + [lines[|lines| - 1] + [c]];
    }
  }

  lemma NoMarkOnEmptyLine()
    ensures MarkOf([]).NoMark?
  {
  }

  lemma OneMorePadded(line: string, c: char)
    requires IsSpace(c)
    ensures Padded(line, line + [c])
  {
    assert (line + [c])[..|line|] == line && (line + [c])[|line|..] == [c];
  }

  lemma ChopNewline(text: string)
    requires IsVerse(Lines(text + ['\n']))
    ensures SameVerse(Lines(text + ['\n']), Lines(text))
  {
    var l, l' := Lines(text), Lines(text + ['\n']);
    LinesOfAppendNewline(text);
    NoMarkOnEmptyLine();
    assert l'[0] == l[0];
    assert forall i | 0 < i < |l| :: l'[i] == l[i];
    var b := MarkOf(l[0]).body;
    JoinAppendLine([b] + l[1..]);
    assert [b] + l'[1..] == ([b] + l[1..]) + [[]];
    TrimSpaceAppend(Join([b] + l[1..], "\n"), '\n');
  }

  lemma ChopOnlyLine(line: string, c: char)
    requires IsSpace(c) && IsVerse([line + [c]])
    ensures SameVerse([line + [c]], [line])
  {
    OneMorePadded(line, c);
    MarkPadded(line, line + [c]);
    TrimSpacePadded(MarkOf(line).body, MarkOf(line + [c]).body);
  }

  lemma ChopLastLine(lines: seq<string>, c: char)
    requires IsSpace(c) && |lines| > 1 && IsVerse(WithChar(lines, c))
    ensures SameVerse(WithChar(lines, c), lines)
  {
    hide MarkOf, TrimSpace;
    var n, longer := |lines| - 1, WithChar(lines, c);
    OneMorePadded(lines[n], c);
    MarkPadded(lines[n], longer[n]);
    assert forall i | 0 <= i < n :: longer[i] == lines[i];
    var bodies := [MarkOf(lines[0]).body] + lines[1..];
    JoinAppendChar(bodies, c);
    assert [MarkOf(lines[0]).body] + longer[1..] == WithChar(bodies, c);
    TrimSpaceAppend(Join(bodies, "\n"), c);
  }

  lemma ChopChar(text: string, c: char)
    requires c != '\n' && IsSpace(c) && IsVerse(Lines(text + [c]))
    ensures SameVerse(Lines(text + [c]), Lines(text))
  {
    var lines := Lines(text);
    LinesOfAppendChar(text, c);
    if |lines| == 1 {
      assert lines == [lines[0]] && WithChar(lines, c) == [lines[0] + [c]];
      ChopOnlyLine(lines[0], c);
    } else {
      ChopLastLine(lines, c);
    }
  }

  lemma {:induction false} TrimRightSameVerse(text: string)
    requires IsVerse(Lines(text))
    ensures SameVerse(Lines(text), Lines(TrimRight(text)))
  {
    if text != [] && IsSpace(text[|text| - 1]) {
      var init, c := text[..|text| - 1], text[|text| - 1];
      assert text == init + [c];
      if c == '\n' { ChopNewline(init); } else { ChopChar(init, c); }
      TrimRightSameVerse(init);
    }
  }

  lemma MarkNeedsNoSpace(line: string)
    requires MarkOf(line).Mark?
    ensures line != [] && (IsSpace(line[0]) ==> IsBlank(line[0]) && MarkOf(line[1..]) == MarkOf(line))
  {
    if line != [] && IsSpace(line[0]) && !IsBlank(line[0]) { SpaceInNoClass(line[0], OpenBracket); }
  }

  lemma {:induction false} TrimLeftSameVerse(text: string)
    requires IsVerse(Lines(text))
    ensures SameVerse(Lines(text), Lines(TrimLeft(text)))
  {
    if text != [] && IsSpace(text[0]) {
      var l, l' := Lines(text), Lines(text[1..]);
      MarkNeedsNoSpace(l[0]);
      assert l[0] == [text[0]] + l'[0] && l[1..] == l'[1..];
      assert l[0][1..] == l'[0];
      assert forall i | 0 < i < |l| :: l[i] == l'[i];
      TrimLeftSameVerse(text[1..]);
    }
  }

  /* The lines of a verse's own text are that verse again. */
  lemma TextIsVerse(lines: seq<string>)
    requires IsVerse(lines) && AreLines(lines)
    ensures var text := TrimSpace(Join(lines, "\n"));
            SameVerse(lines, Lines(text)) && TrimSpace(Join(Lines(text), "\n")) == text
  {
    var text := Join(lines, "\n");
    LinesOfJoined(lines);
    TrimLeftSameVerse(text);
    TrimRightSameVerse(TrimLeft(text));
    JoinedLines(TrimSpace(text));
    TrimSpaceTwice(text);
  }

  // ---------- a day's text splits into that day's verses ----------

  /* Lines of a text with their own markers. */
  predicate IsMarked(lines: seq<Line>) {
    forall i | 0 <= i < |lines| :: lines[i].mark == MarkOf(lines[i].text) && NoNewline(lines[i].text)
  }

  predicate AllMarked(groups: seq<seq<Line>>) { forall i | 0 <= i < |groups| :: IsMarked(groups[i]) }

  lemma {:induction false} MarkedIsMarked(lines: seq<string>)
    requires AreLines(lines)
    ensures IsMarked(Marked(lines)) && LineTexts(Marked(lines)) == lines
  {
    if lines != [] {
      MarkedIsMarked(lines[1..]);
      assert Marked(lines)[1..] == Marked(lines[1..]);
    }
  }

  lemma {:induction false} MarkedConcat(a: seq<string>, b: seq<string>)
    ensures Marked(a + b) == Marked(a) + Marked(b)
  {
    if a == [] {
      assert a + b == b;
    } else {
      assert (a + b)[1..] == a[1..] + b;
      MarkedConcat(a[1..], b);
    }
  }

  lemma {:induction false} LineTextAt(lines: seq<Line>, i: nat)
    requires i < |lines|
    ensures LineTexts(lines)[i] == lines[i].text
  {
    if i > 0 { LineTextAt(lines[1..], i - 1); }
  }

  lemma GroupIsVerse(group: seq<Line>)
    requires IsGroup(group) && IsMarked(group)
    ensures IsVerse(LineTexts(group)) && AreLines(LineTexts(group))
    ensures MarkOf(LineTexts(group)[0]) == group[0].mark && LineTexts(group)[1..] == LineTexts(group[1..])
  {
    forall i | 0 <= i < |group| ensures LineTexts(group)[i] == group[i].text { LineTextAt(group, i); }
  }

  lemma {:induction false} MarkedAt(lines: seq<string>, i: nat)
    requires i < |lines|
    ensures Marked(lines)[i] == Line(lines[i], MarkOf(lines[i]))
  {
    if i > 0 { MarkedAt(lines[1..], i - 1); }
  }

  lemma VerseIsGroup(lines: seq<string>)
    requires IsVerse(lines)
    ensures IsGroup(Marked(lines)) && Marked(lines)[0].mark == MarkOf(lines[0])
  {
    forall i | 0 <= i < |lines| ensures Marked(lines)[i].mark == MarkOf(lines[i]) { MarkedAt(lines, i); }
  }

  lemma {:induction false} GroupsAreMarked(lines: seq<Line>)
    requires IsMarked(lines)
    ensures IsMarked(Groups(lines).leading) && AllMarked(Groups(lines).groups)
  {
    if lines != [] { GroupsAreMarked(lines[1..]); }
  }

  lemma {:induction false} UnmarkedLead(lines: seq<Line>, rest: seq<Line>)
    requires forall i | 0 <= i < |lines| :: lines[i].mark.NoMark?
    ensures Groups(lines + rest) == Grouped(lines + Groups(rest).leading, Groups(rest).groups)
  {
    if lines == [] {
      assert lines + rest == rest;
    } else {
      assert (lines + rest)[1..] == lines[1..] + rest;
      UnmarkedLead(lines[1..], rest);
    }
  }

  lemma GroupFirst(group: seq<Line>, rest: seq<Line>)
    requires IsGroup(group) && Groups(rest).leading == []
    ensures Groups(group + rest) == Grouped([], [group] + Groups(rest).groups)
  {
    assert (group + rest)[1..] == group[1..] + rest;
    UnmarkedLead(group[1..], rest);
    assert group[1..] + [] == group[1..] && [group[0]] + group[1..] == group;
  }

  function Texts(segments: seq<Segment>): (r: seq<string>)
    ensures |r| == |segments| && forall i | 0 <= i < |r| :: r[i] == segments[i].text
  {
    seq(|segments|, i requires 0 <= i < |segments| => segments[i].text)
  }

  function Refs(segments: seq<Segment>): (r: seq<Ref>)
    ensures |r| == |segments| && forall i | 0 <= i < |r| :: r[i] == segments[i].ref
  {
    seq(|segments|, i requires 0 <= i < |segments| => segments[i].ref)
  }

  /* The lines of a verse's own text give the same verse. */
  lemma TrimmedGroupSame(group: seq<Line>)
    requires IsGroup(group) && IsMarked(group)
    ensures var t := Marked(Lines(SegmentOf(group).text)); IsGroup(t) && SegmentOf(t) == SegmentOf(group)
  {
    GroupIsVerse(group);
    TextIsVerse(LineTexts(group));
    var lines := Lines(SegmentOf(group).text);
    LinesAreLines(SegmentOf(group).text);
    VerseIsGroup(lines);
    MarkedIsMarked(lines);
    GroupIsVerse(Marked(lines));
  }

  lemma GroupAlone(group: seq<Line>)
    requires IsGroup(group)
    ensures Groups(group) == Grouped([], [group])
  {
    assert group + [] == group;
    GroupFirst(group, []);
  }

  lemma GroupsOfTwo(first: string, rest: string)
    requires IsGroup(Marked(Lines(first))) && Groups(Marked(Lines(rest))).leading == []
    ensures Groups(Marked(Lines(first + "\n" + rest))) == Grouped([], [Marked(Lines(first))] + Groups(Marked(Lines(rest))).groups)
  {
    LinesOfConcat(first, rest);
    MarkedConcat(Lines(first), Lines(rest));
    GroupFirst(Marked(Lines(first)), Marked(Lines(rest)));
  }

  lemma {:induction false} GroupsOfJoined(texts: seq<string>, groups: seq<seq<Line>>)
    requires |texts| == |groups| > 0 && AllGroups(groups)
    requires forall i | 0 <= i < |texts| :: Marked(Lines(texts[i])) == groups[i]
    ensures Groups(Marked(Lines(Join(texts, "\n")))) == Grouped([], groups)
  {
    hide Lines, Marked, Groups, IsGroup;
    if |texts| == 1 {
      GroupAlone(groups[0]);
      assert groups == [groups[0]];
    } else {
      GroupsOfJoined(texts[1..], groups[1..]);
      GroupsOfTwo(texts[0], Join(texts[1..], "\n"));
      assert groups == [groups[0]] + groups[1..];
    }
  }

  lemma PartOfVerseList(leading: seq<Line>, segments: seq<Segment>, i: nat, j: nat)
    requires IsVerseList(leading, segments) && i < j <= |segments|
    ensures IsVerseList([], segments[i..j])
  {
    assert TrimSpace(Join([], "\n")) == [];
  }

  lemma SegmentsCons(group: seq<Line>, groups: seq<seq<Line>>)
    requires IsGroup(group) && AllGroups(groups)
    ensures AllGroups([group] + groups) && Segments([group] + groups) == [SegmentOf(group)] + Segments(groups)
  {
  }

  /* The groups that the lines of the verses' own texts form. */
  predicate TextsGive(segments: seq<Segment>, groups: seq<seq<Line>>) {
    |segments| == |groups| && forall i | 0 <= i < |groups| :: Marked(Lines(segments[i].text)) == groups[i]
  }

  predicate SameTrimmed(groups: seq<seq<Line>>, trimmed: seq<seq<Line>>)
    requires AllGroups(groups)
  {
    AllGroups(trimmed) && Segments(trimmed) == Segments(groups) && TextsGive(Segments(groups), trimmed)
  }

  lemma SameTrimmedCons(group: seq<Line>, groups: seq<seq<Line>>, first: seq<Line>, rest: seq<seq<Line>>, segment: Segment)
    requires IsGroup(group) && AllGroups(groups) && SameTrimmed(groups, rest)
    requires IsGroup(first) && SegmentOf(first) == segment && SegmentOf(group) == segment && Marked(Lines(segment.text)) == first
    ensures AllGroups([group] + groups) && SameTrimmed([group] + groups, [first] + rest)
  {
    hide SegmentOf, Marked, Lines;
    SegmentsCons(group, groups);
    SegmentsCons(first, rest);
  }

  lemma {:induction false} TrimmedGroupsSame(groups: seq<seq<Line>>) returns (trimmed: seq<seq<Line>>)
    requires AllGroups(groups) && AllMarked(groups)
    ensures SameTrimmed(groups, trimmed)
  {
    hide SegmentOf, Marked, Lines;
    if groups == [] {
      trimmed := [];
    } else {
      var rest := TrimmedGroupsSame(groups[1..]);
      var first, segment := TrimmedGroup(groups[0]);
      SameTrimmedCons(groups[0], groups[1..], first, rest, segment);
      assert [groups[0]] + groups[1..] == groups;
      trimmed := [first] + rest;
    }
  }

  lemma TrimmedGroup(group: seq<Line>) returns (trimmed: seq<Line>, segment: Segment)
    requires IsGroup(group) && IsMarked(group)
    ensures IsGroup(trimmed) && SegmentOf(trimmed) == segment && SegmentOf(group) == segment
    ensures Marked(Lines(segment.text)) == trimmed
  {
    TrimmedGroupSame(group);
    segment := SegmentOf(group);
    trimmed := Marked(Lines(segment.text));
  }

  lemma SplitIs(text: string, groups: seq<seq<Line>>, segments: seq<Segment>)
    requires Groups(Marked(Lines(text))) == Grouped([], groups)
    requires AllGroups(groups) && Segments(groups) == segments && IsVerseList([], segments)
    ensures Split(text) == Some(segments)
  {
  }

  lemma PartOfGroups(groups: seq<seq<Line>>, i: nat, j: nat)
    requires AllGroups(groups) && AllMarked(groups) && i < j <= |groups|
    ensures AllGroups(groups[i..j]) && AllMarked(groups[i..j]) && Segments(groups[i..j]) == Segments(groups)[i..j]
  {
    hide SegmentOf, MarkOf;
  }

  lemma JoinedTextsSplit(leading: seq<Line>, groups: seq<seq<Line>>, i: nat, j: nat)
    requires AllGroups(groups) && AllMarked(groups) && IsVerseList(leading, Segments(groups)) && i < j <= |groups|
    ensures var day := Segments(groups)[i..j]; Split(Join(Texts(day), "\n")) == Some(day)
  {
    var day := Segments(groups)[i..j];
    PartOfGroups(groups, i, j);
    PartOfVerseList(leading, Segments(groups), i, j);
    var trimmed := TrimmedGroupsSame(groups[i..j]);
    GroupsOfJoined(Texts(day), trimmed);
    SplitIs(Join(Texts(day), "\n"), trimmed, day);
  }

  /* Main result: joining the texts of some consecutive verses and splitting the result gives back those verses. */
  lemma SplitOfJoined(text: string, i: nat, j: nat)
    requires Split(text).Some? && i < j <= |Split(text).value|
    ensures var day := Split(text).value[i..j]; Split(Join(Texts(day), "\n")) == Some(day)
  {
    var lines := Marked(Lines(text));
    LinesAreLines(text);
    MarkedIsMarked(Lines(text));
    GroupsAreMarked(lines);
    GroupsAreGroups(lines);
    JoinedTextsSplit(Groups(lines).leading, Groups(lines).groups, i, j);
  }

  // ---------- the slice of a day ----------

  /* The days a text of so many verses lasts. */
  function DaysFor(verses: nat, perDay: nat): nat
    requires perDay > 0
  {
    (verses + perDay - 1) / perDay
  }

  /* The verses of the day that is `offset` days after the first one. */
  function Slice(segments: seq<Segment>, perDay: nat, offset: int): Option<seq<Segment>> {
    var from := offset * perDay;
    if from < 0 || from >= |segments| then None
    else Some(segments[from..if from + perDay < |segments| then from + perDay else |segments|])
  }

  lemma MulMonotone(a: int, b: int, n: nat)
    requires a <= b
    ensures a * n <= b * n
  {
  }

  lemma DaysForBounds(verses: nat, perDay: nat)
    requires perDay > 0
    ensures DaysFor(verses, perDay) * perDay >= verses
    ensures verses > 0 ==> (DaysFor(verses, perDay) - 1) * perDay < verses
    ensures verses == 0 ==> DaysFor(verses, perDay) == 0
  {
    var q := DaysFor(verses, perDay);
    var r := (verses + perDay - 1) % perDay;
    assert verses + perDay - 1 == q * perDay + r;
  }

  /* There is something to recite on exactly the days from the first one on that the text lasts. */
  lemma ActiveIff(segments: seq<Segment>, perDay: nat, offset: int)
    requires perDay > 0
    ensures Slice(segments, perDay, offset).Some? <==> 0 <= offset < DaysFor(|segments|, perDay)
  {
    DaysForBounds(|segments|, perDay);
    var days := DaysFor(|segments|, perDay);
    if offset < 0 {
      MulMonotone(offset, -1, perDay);
    } else if offset >= days {
      MulMonotone(days, offset, perDay);
    } else {
      MulMonotone(offset, days - 1, perDay);
    }
  }

  /* The slices of the first days, one after the other. */
  function SlicesUpTo(segments: seq<Segment>, perDay: nat, days: nat): seq<Segment> {
    if days == 0 then []
    else
      SlicesUpTo(segments, perDay, days - 1) +
      match Slice(segments, perDay, days - 1)
      case Some(slice) => slice
      case None => []
  }

  lemma {:induction false} SlicesArePrefix(segments: seq<Segment>, perDay: nat, days: nat)
    requires perDay > 0
    ensures SlicesUpTo(segments, perDay, days) ==
            segments[..if days * perDay < |segments| then days * perDay else |segments|]
  {
    if days > 0 {
      SlicesArePrefix(segments, perDay, days - 1);
      assert days * perDay == (days - 1) * perDay + perDay;
    } else {
      assert 0 * perDay == 0;
    }
  }

  lemma SlicesMakeAll(segments: seq<Segment>, perDay: nat)
    requires perDay > 0
    ensures SlicesUpTo(segments, perDay, DaysFor(|segments|, perDay)) == segments
  {
    DaysForBounds(|segments|, perDay);
    SlicesArePrefix(segments, perDay, DaysFor(|segments|, perDay));
  }

  /* Main result: the slices of the days partition the verses: in order, without gap or overlap, in exactly the days the
     text lasts. */
  lemma SlicesPartition(segments: seq<Segment>, perDay: nat)
    requires perDay > 0
    ensures SlicesUpTo(segments, perDay, DaysFor(|segments|, perDay)) == segments
    ensures forall offset | offset < 0 || offset >= DaysFor(|segments|, perDay) :: Slice(segments, perDay, offset).None?
    ensures forall offset | 0 <= offset < DaysFor(|segments|, perDay) ::
              Slice(segments, perDay, offset).Some? && 0 < |Slice(segments, perDay, offset).value| <= perDay
  {
    SlicesMakeAll(segments, perDay);
    forall offset: int ensures Slice(segments, perDay, offset).Some? <==> 0 <= offset < DaysFor(|segments|, perDay) {
      ActiveIff(segments, perDay, offset);
    }
  }

  // ---------- plans ----------

  datatype Count = NotANumber | Number(value: real)

  /* A plan, or one source of a plan. Days are numbers; `start` is the day the progression starts, none when it is not a
     date. */
  datatype Source = Source(refs: string, text: string, perDay: Option<Count>, start: Option<int>)

  /* What is to be recited; the references are those of the verses, or the plan's own. */
  datatype Task = Whole(title: string, content: string) | Verses(refs: seq<Ref>, text: string)

  /* The verses a day; a fraction is cut off. */
  function PerDay(count: Count): Option<nat> {
    match count
    case NotANumber => None
    case Number(value) => if value < 1.0 || value > 100.0 then None else Some(value.Floor)
  }

  function VersesOf(slice: Option<seq<Segment>>): Option<Task> {
    match slice
    case None => None
    case Some(verses) => Some(Verses(Refs(verses), Join(Texts(verses), "\n")))
  }

  function ResolveSource(s: Source, day: Option<int>): Option<Task> {
    match s.perDay
    case None => Some(Whole(s.refs, s.text))
    case Some(count) =>
      var verses := Split(s.text);
      if PerDay(count).None? || verses.None? || s.start.None? || day.None? then None
      else VersesOf(Slice(verses.value, PerDay(count).value, day.value - s.start.value))
  }

  lemma SliceBounds(verses: seq<Segment>, n: nat, offset: int) returns (i: nat, j: nat)
    requires n > 0 && Slice(verses, n, offset).Some?
    ensures i < j <= |verses| && Slice(verses, n, offset).value == verses[i..j]
  {
    i := offset * n;
    j := if i + n < |verses| then i + n else |verses|;
  }

  lemma SliceSplits(text: string, verses: seq<Segment>, n: nat, offset: int)
    requires n > 0 && Split(text) == Some(verses) && Slice(verses, n, offset).Some?
    ensures Split(Join(Texts(Slice(verses, n, offset).value), "\n")) == Slice(verses, n, offset)
  {
    hide Split;
    var i, j := SliceBounds(verses, n, offset);
    SplitOfJoined(text, i, j);
  }

  lemma CountIsPositive(count: Count)
    requires PerDay(count).Some?
    ensures 0 < PerDay(count).value <= 100
  {
  }

  /* A number of verses a day is one from 1 to 100 without its fraction. */
  lemma CountMeaning(count: Count, n: nat)
    ensures PerDay(count) == Some(n) <==>
            count.Number? && 1.0 <= count.value <= 100.0 && n as real <= count.value < n as real + 1.0
  {
  }

  /* A day's task, for a text that splits into verses. */
  lemma DayTask(text: string, verses: seq<Segment>, n: nat, offset: int)
    requires n > 0 && Split(text) == Some(verses)
    ensures var task := VersesOf(Slice(verses, n, offset));
            && (task.Some? <==> 0 <= offset < DaysFor(|verses|, n))
            && (task.Some? ==> task.value.Verses? && Split(task.value.text) == Slice(verses, n, offset)
                               && task.value.refs == Refs(Slice(verses, n, offset).value))
  {
    hide Split, Texts;
    ActiveIff(verses, n, offset);
    if Slice(verses, n, offset).Some? { SliceSplits(text, verses, n, offset); }
  }

  /* Main result: for a text that splits into verses and a valid count, the days on which there is a task are exactly
     those that the text lasts from the start; the text of each day's task splits into that day's slice of the verses, and
     the slices make up all verses in order. */
  lemma ProgressionIsPartition(s: Source, day: int)
    requires s.perDay.Some? && PerDay(s.perDay.value).Some? && Split(s.text).Some? && s.start.Some?
    ensures var n, verses, task := PerDay(s.perDay.value).value, Split(s.text).value, ResolveSource(s, Some(day));
            && n > 0 && (task.Some? <==> s.start.value <= day < s.start.value + DaysFor(|verses|, n))
            && (task.Some? ==> task.value.Verses? && Split(task.value.text) == Slice(verses, n, day - s.start.value))
            && SlicesUpTo(verses, n, DaysFor(|verses|, n)) == verses
  {
    hide Split, VersesOf;
    var n, verses := PerDay(s.perDay.value).value, Split(s.text).value;
    CountIsPositive(s.perDay.value);
    SlicesMakeAll(verses, n);
    DayTask(s.text, verses, n, day - s.start.value);
  }

  // ---------- plans of several sources ----------

  /* A source in a list always counts as one with a number of verses a day. */
  function PartSource(s: Source): Source { if s.perDay.Some? then s else s.(perDay := Some(NotANumber)) }

  function ResolvePart(s: Source, day: Option<int>): Option<Task> { ResolveSource(PartSource(s), day) }

  /* The verses of a source in a list on a day. */
  function SliceOf(s: Source, day: Option<int>): Option<seq<Segment>> {
    var verses := Split(s.text);
    if s.perDay.None? || PerDay(s.perDay.value).None? || verses.None? || s.start.None? || day.None? then None
    else Slice(verses.value, PerDay(s.perDay.value).value, day.value - s.start.value)
  }

  lemma PartIsSlice(s: Source, day: Option<int>)
    ensures ResolvePart(s, day) == VersesOf(SliceOf(s, day))
  {
    hide Split, Slice;
  }

  function ActiveParts(sources: seq<Source>, day: Option<int>): seq<Task> {
    if sources == [] then []
    else
      ActiveParts(sources[..|sources| - 1], day) +
      match ResolvePart(sources[|sources| - 1], day)
      case Some(task) => [task]
      case None => []
  }

  /* The verses of all sources on a day. */
  function ActiveVerses(sources: seq<Source>, day: Option<int>): seq<Segment> {
    if sources == [] then []
    else
      ActiveVerses(sources[..|sources| - 1], day) +
      match SliceOf(sources[|sources| - 1], day)
      case Some(verses) => verses
      case None => []
  }

  predicate AllVerses(parts: seq<Task>) { forall i | 0 <= i < |parts| :: parts[i].Verses? }

  function PartTexts(parts: seq<Task>): seq<string>
    requires AllVerses(parts)
  {
    seq(|parts|, i requires 0 <= i < |parts| => parts[i].text)
  }

  function PartRefs(parts: seq<Task>): seq<Ref>
    requires AllVerses(parts)
  {
    if parts == [] then [] else PartRefs(parts[..|parts| - 1]) + parts[|parts| - 1].refs
  }

  lemma {:induction false} PartsAreVerses(sources: seq<Source>, day: Option<int>)
    ensures AllVerses(ActiveParts(sources, day))
  {
    if sources != [] {
      PartsAreVerses(sources[..|sources| - 1], day);
      PartIsSlice(sources[|sources| - 1], day);
    }
  }

  /* A plan for a whole week is left as it is, one with sources joins what they have on the day, and any other is a single
     source. */
  datatype Plan = Plan(weekly: bool, own: Source, sources: Option<seq<Source>>)

  function JoinedParts(parts: seq<Task>): Option<Task>
    requires AllVerses(parts)
  {
    if parts == [] then None else Some(Verses(PartRefs(parts), Join(PartTexts(parts), "\n")))
  }

  function ResolvePlan(p: Plan, day: Option<int>): Option<Task> {
    if p.weekly then Some(Whole(p.own.refs, p.own.text))
    else if p.sources.Some? then
      PartsAreVerses(p.sources.value, day);
      JoinedParts(ActiveParts(p.sources.value, day))
    else ResolveSource(p.own, day)
  }

  // ---------- the joined text of several sources ----------

  /* The verses' own texts give groups of lines that are these verses again. */
  ghost predicate WellWritten(segments: seq<Segment>) {
    exists groups :: AllGroups(groups) && Segments(groups) == segments && TextsGive(segments, groups)
  }

  lemma SliceIsWellWritten(text: string, i: nat, j: nat)
    requires Split(text).Some? && i < j <= |Split(text).value|
    ensures WellWritten(Split(text).value[i..j]) && AllClear(Split(text).value[i..j])
  {
    var lines := Marked(Lines(text));
    LinesAreLines(text);
    MarkedIsMarked(Lines(text));
    GroupsAreMarked(lines);
    GroupsAreGroups(lines);
    var groups := Groups(lines).groups;
    PartOfGroups(groups, i, j);
    PartOfVerseList(Groups(lines).leading, Segments(groups), i, j);
    var trimmed := TrimmedGroupsSame(groups[i..j]);
  }

  lemma WellWrittenConcat(a: seq<Segment>, b: seq<Segment>)
    requires WellWritten(a) && WellWritten(b)
    ensures WellWritten(a + b)
  {
    hide SegmentOf, Marked, Lines;
    var g :| AllGroups(g) && Segments(g) == a && TextsGive(a, g);
    var h :| AllGroups(h) && Segments(h) == b && TextsGive(b, h);
    assert Segments(g + h) == a + b && TextsGive(a + b, g + h);
  }

  /* Their joined text splits into them, unless a reference occurs twice. */
  lemma WellWrittenSplits(segments: seq<Segment>)
    requires WellWritten(segments) && AllClear(segments) && segments != []
    ensures Split(Join(Texts(segments), "\n")) == if DistinctRefs(segments) then Some(segments) else None
  {
    var groups :| AllGroups(groups) && Segments(groups) == segments && TextsGive(segments, groups);
    GroupsOfJoined(Texts(segments), groups);
    assert TrimSpace(Join([], "\n")) == [];
  }

  lemma {:induction false} JoinConcat(a: seq<string>, b: seq<string>)
    requires a != [] && b != []
    ensures Join(a + b, "\n") == Join(a, "\n") + "\n" + Join(b, "\n")
  {
    if |a| == 1 {
      assert (a + b)[1..] == b;
    } else {
      assert (a + b)[1..] == a[1..] + b;
      JoinConcat(a[1..], b);
      Associative(a[0] + "\n", Join(a[1..], "\n"), "\n" + Join(b, "\n"));
    }
  }

  lemma Associative(x: string, y: string, z: string)
    ensures x + (y + z) == x + y + z
  {
  }

  lemma SliceOfIsSlice(s: Source, day: Option<int>) returns (i: nat, j: nat)
    requires SliceOf(s, day).Some?
    ensures Split(s.text).Some? && i < j <= |Split(s.text).value| && SliceOf(s, day).value == Split(s.text).value[i..j]
  {
    hide Split;
    CountIsPositive(s.perDay.value);
    i, j := SliceBounds(Split(s.text).value, PerDay(s.perDay.value).value, day.value - s.start.value);
  }

  /* The parts carry the verses of all sources. */
  lemma {:induction false} PartsCarryVerses(sources: seq<Source>, day: Option<int>)
    ensures AllVerses(ActiveParts(sources, day))
    ensures var parts, all := ActiveParts(sources, day), ActiveVerses(sources, day);
            && (parts == [] <==> all == []) && WellWritten(all) && AllClear(all)
            && PartRefs(parts) == Refs(all) && Join(PartTexts(parts), "\n") == Join(Texts(all), "\n")
  {
    hide Split, ResolvePart, SliceOf, WellWritten, Join;
    if sources == [] {
      NothingIsWellWritten();
      assert PartTexts([]) == Texts([]) && Refs([]) == [];
    } else {
      var init, last := sources[..|sources| - 1], sources[|sources| - 1];
      PartsCarryVerses(init, day);
      PartIsSlice(last, day);
      if SliceOf(last, day).Some? {
        PartsCarryMore(ActiveParts(init, day), ActiveVerses(init, day), last, day);
      } else {
        assert ActiveParts(sources, day) == ActiveParts(init, day) && ActiveVerses(sources, day) == ActiveVerses(init, day);
      }
    }
  }

  lemma NothingIsWellWritten()
    ensures WellWritten([])
  {
    var groups: seq<seq<Line>> := [];
    assert AllGroups(groups) && Segments(groups) == [] && TextsGive([], groups);
  }

  lemma PartsCarryMore(parts: seq<Task>, all: seq<Segment>, s: Source, day: Option<int>)
    requires AllVerses(parts) && (parts == [] <==> all == []) && WellWritten(all) && AllClear(all)
    requires PartRefs(parts) == Refs(all) && Join(PartTexts(parts), "\n") == Join(Texts(all), "\n")
    requires SliceOf(s, day).Some?
    ensures var task, slice := VersesOf(SliceOf(s, day)).value, SliceOf(s, day).value;
            var parts', all' := parts + [task], all + slice;
            && AllVerses(parts') && all' != [] && WellWritten(all') && AllClear(all')
            && PartRefs(parts') == Refs(all') && Join(PartTexts(parts'), "\n") == Join(Texts(all'), "\n")
  {
    hide Split, SliceOf, WellWritten, Join;
    var i, j := SliceOfIsSlice(s, day);
    var slice := SliceOf(s, day).value;
    var text := Join(Texts(slice), "\n");
    SliceIsWellWritten(s.text, i, j);
    WellWrittenConcat(all, slice);
    var parts' := parts + [Verses(Refs(slice), text)];
    assert parts'[..|parts|] == parts;
    assert Refs(all + slice) == Refs(all) + Refs(slice);
    assert PartTexts(parts') == PartTexts(parts) + [text];
    assert Texts(all + slice) == Texts(all) + Texts(slice);
    JoinOne(text);
    if parts == [] {
      assert PartTexts(parts') == [text] && all + slice == slice;
    } else {
      JoinConcat(PartTexts(parts), [text]);
      JoinConcat(Texts(all), Texts(slice));
    }
  }

  lemma JoinOne(text: string)
    ensures Join([text], "\n") == text
  {
  }

  /* Main result: a plan of several sources has a task exactly when one of them has verses on the day; its references are
     those of all their verses, and its text splits into these verses exactly when no reference occurs twice. */
  lemma SourcesJoin(p: Plan, day: Option<int>)
    requires !p.weekly && p.sources.Some?
    ensures var all, task := ActiveVerses(p.sources.value, day), ResolvePlan(p, day);
            && (task.Some? <==> all != [])
            && (task.Some? ==> task.value.Verses? && task.value.refs == Refs(all)
                               && Split(task.value.text) == if DistinctRefs(all) then Some(all) else None)
  {
    hide Split, WellWritten;
    PartsCarryVerses(p.sources.value, day);
    var all := ActiveVerses(p.sources.value, day);
    if all != [] { WellWrittenSplits(all); }
  }

  method ResolveAll(sources: seq<Source>, day: Option<int>) returns (parts: seq<Task>)
    ensures parts == ActiveParts(sources, day)
  {
    hide ResolveSource;
    parts := [];
    for i := 0 to |sources|
      invariant parts == ActiveParts(sources[..i], day)
    {
      assert sources[..i + 1][..i] == sources[..i];
      var task := Resolve(PartSource(sources[i]), day);
      if task.Some? { parts := parts + [task.value]; }
    }
    assert sources[..|sources|] == sources;
  }

  method CollectVerses(verses: seq<Segment>, from: nat, end: nat) returns (task: Task)
    requires from <= end <= |verses|
    ensures VersesOf(Some(verses[from..end])) == Some(task)
  {
    var refs, texts := [], [];
    for i := from to end
      invariant refs == Refs(verses[from..i]) && texts == Texts(verses[from..i])
    {
      refs, texts := refs + [verses[i].ref], texts + [verses[i].text];
    }
    task := Verses(refs, Join(texts, "\n"));
  }

  method Resolve(s: Source, day: Option<int>) returns (task: Option<Task>)
    ensures task == ResolveSource(s, day)
    ensures s.perDay.None? ==> task == Some(Whole(s.refs, s.text))
    ensures s.perDay.Some? && (PerDay(s.perDay.value).None? || Split(s.text).None? || s.start.None? || day.None?) ==> task.None?
  {
    hide Split;
    if s.perDay.None? { return Some(Whole(s.refs, s.text)); }
    var count := PerDay(s.perDay.value);
    var verses := SplitVerses(s.text);
    if count.None? || verses.None? || s.start.None? || day.None? { return None; }
    var offset := (day.value - s.start.value) * count.value;
    if offset < 0 || offset >= |verses.value| { return None; }
    var end := if offset + count.value < |verses.value| then offset + count.value else |verses.value|;
    var found := CollectVerses(verses.value, offset, end);
    task := Some(found);
  }

  method JoinParts(parts: seq<Task>) returns (task: Option<Task>)
    requires AllVerses(parts)
    ensures task == JoinedParts(parts)
  {
    if parts == [] { return None; }
    var refs, texts := [], [];
    for i := 0 to |parts|
      invariant refs == PartRefs(parts[..i]) && texts == PartTexts(parts[..i])
    {
      assert parts[..i + 1][..i] == parts[..i];
      refs, texts := refs + parts[i].refs, texts + [parts[i].text];
    }
    assert parts[..|parts|] == parts;
    task := Some(Verses(refs, Join(texts, "\n")));
  }

  method PlanTask(p: Plan, day: Option<int>) returns (task: Option<Task>)
    ensures task == ResolvePlan(p, day)
    ensures p.weekly ==> task == Some(Whole(p.own.refs, p.own.text))
    ensures !p.weekly && p.sources.None? ==> task == ResolveSource(p.own, day)
  {
    if p.weekly {
      task := Some(Whole(p.own.refs, p.own.text));
    } else if p.sources.Some? {
      var parts := ResolveAll(p.sources.value, day);
      PartsAreVerses(p.sources.value, day);
      task := JoinParts(parts);
    } else {
      task := Resolve(p.own, day);
    }
  }

  /* The program's loop over the verses found. */
  method CheckSegments(all: seq<Segment>) returns (segments: Option<seq<Segment>>)
    ensures segments == if AllClear(all) && DistinctRefs(all) then Some(all) else None
  {
    var seen := {};
    for i := 0 to |all|
      invariant DistinctRefs(all[..i]) && AllClear(all[..i])
      invariant seen == set j | 0 <= j < i :: all[j].ref
    {
      if !all[i].clear { return None; }
      if all[i].ref in seen { return None; }
      seen := seen + {all[i].ref};
    }
    assert all[..|all|] == all;
    segments := Some(all);
  }

  method SplitVerses(text: string) returns (segments: Option<seq<Segment>>)
    ensures segments == Split(text)
  {
    var g := Groups(Marked(Lines(text)));
    GroupsAreGroups(Marked(Lines(text)));
    if g.groups == [] || TrimSpace(Join(LineTexts(g.leading), "\n")) != [] { return None; }
    var found := CheckSegments(Segments(g.groups));
    segments := found;
  }
}
