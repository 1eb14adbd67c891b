/** Verse markers by their grammar. */
module VerseMarks {
  import opened CanonicalText
  import opened VerseProgression
  import opened Wrappers

  predicate AllIn(s: string, kind: CharKind) { forall i | 0 <= i < |s| :: In(s[i], kind) }

  predicate AllBlank(s: string) { forall i | 0 <= i < |s| :: IsBlank(s[i]) }

  predicate StartsIn(s: string, kind: CharKind) { s != [] && In(s[0], kind) }

  predicate StartsBlank(s: string) { s != [] && IsBlank(s[0]) }

  /* A line that begins with a verse marker: an opening bracket or none, the book, which may begin with a digit up to three,
     chapter, colon and verse, a closing bracket or none, and then the words, with blanks between all these. */
  datatype Pieces = Pieces(indent: string, open: string, lead: string, letters: string, gap: string, chapter: string,
                           left: string, colon: string, right: string, verse: string, close: string, space: string, body: string)

  function AfterVerse(p: Pieces): string { p.close + (p.space + p.body) }

  function AfterChapter(p: Pieces): string { p.left + (p.colon + (p.right + (p.verse + AfterVerse(p)))) }

  function LineOf(p: Pieces): string {
    p.indent + (p.open + (p.lead + (p.letters + (p.gap + (p.chapter + AfterChapter(p))))))
  }

  predicate IsBook(p: Pieces) {
    && AllBlank(p.indent) && |p.open| <= 1 && AllIn(p.open, OpenBracket)
    && |p.lead| <= 1 && AllIn(p.lead, LeadDigit) && |p.letters| >= 1 && AllIn(p.letters, Letter) && AllBlank(p.gap)
  }

  predicate IsPlace(p: Pieces) {
    && 1 <= |p.chapter| <= 3 && AllIn(p.chapter, Digit) && AllBlank(p.left) && |p.colon| == 1 && IsColon(p.colon[0])
    && AllBlank(p.right) && 1 <= |p.verse| <= 3 && AllIn(p.verse, Digit)
  }

  /* As many digits, brackets and blanks as there can be belong to the marker. */
  predicate IsRest(p: Pieces) {
    && |p.close| <= 1 && AllIn(p.close, CloseBracket) && AllBlank(p.space)
    && (|p.verse| < 3 ==> !StartsIn(AfterVerse(p), Digit)) && (p.close == "" ==> !StartsIn(p.space + p.body, CloseBracket))
    && !StartsBlank(p.body)
  }

  predicate IsMarkedLine(p: Pieces) { IsBook(p) && IsPlace(p) && IsRest(p) }

  function DigitOf(c: char): nat
    requires In(c, Digit)
  {
    c as nat - '0' as nat
  }

  /* The number that up to three digits write. */
  function Value(digits: string): nat
    requires 1 <= |digits| <= 3 && AllIn(digits, Digit)
  {
    if |digits| == 1 then DigitOf(digits[0])
    else if |digits| == 2 then 10 * DigitOf(digits[0]) + DigitOf(digits[1])
    else 100 * DigitOf(digits[0]) + 10 * DigitOf(digits[1]) + DigitOf(digits[2])
  }

  lemma NumeralIsValue(digits: string)
    requires 1 <= |digits| <= 3 && AllIn(digits, Digit)
    ensures Numeral(digits) == Value(digits)
  {
    var init := digits[..|digits| - 1];
    assert Numeral([]) == 0;
    if |digits| == 1 {
      assert init == [];
    } else if |digits| == 2 {
      assert init[..0] == [];
      assert Numeral(init) == 10 * Numeral(init[..0]) + DigitOf(init[0]);
    } else {
      var first := init[..1];
      assert first[..0] == [];
      assert Numeral(first) == 10 * Numeral(first[..0]) + DigitOf(first[0]);
      assert Numeral(init) == 10 * Numeral(first) + DigitOf(init[1]);
    }
  }

  // ---------- reading the pieces ----------

  lemma {:induction false} BlanksOf(a: string, rest: string)
    requires AllBlank(a) && !StartsBlank(rest)
    ensures Blanks(a + rest) == rest
  {
    if a == [] {
      assert a + rest == rest;
    } else {
      assert (a + rest)[1..] == a[1..] + rest;
      BlanksOf(a[1..], rest);
    }
  }

  lemma {:induction false} TakeOf(a: string, rest: string, kind: CharKind, n: nat)
    requires AllIn(a, kind) && |a| <= n && (|a| == n || !StartsIn(rest, kind))
    ensures Take(a + rest, kind, n) == Token(a, rest)
  {
    if a == [] {
      assert a + rest == rest;
    } else {
      assert (a + rest)[1..] == a[1..] + rest && (a + rest)[0] == a[0];
      TakeOf(a[1..], rest, kind, n - 1);
    }
  }

  lemma {:induction false} BlanksAre(s: string) returns (a: string)
    ensures AllBlank(a) && s == a + Blanks(s) && !StartsBlank(Blanks(s))
  {
    a := [];
    if StartsBlank(s) {
      var rest := BlanksAre(s[1..]);
      a := [s[0]] + rest;
      assert s == [s[0]] + s[1..];
    }
  }

  lemma {:induction false} TakenIs(s: string, kind: CharKind, n: nat)
    ensures var t := Take(s, kind, n);
            s == t.text + t.rest && AllIn(t.text, kind) && |t.text| <= n && (|t.text| == n || !StartsIn(t.rest, kind))
  {
    if s != [] && n > 0 && In(s[0], kind) {
      TakenIs(s[1..], kind, n - 1);
      assert s == [s[0]] + s[1..];
    }
  }

  /* The first character of a part that is not empty. */
  lemma StartOf(a: string, rest: string)
    ensures a != [] ==> (a + rest) != [] && (a + rest)[0] == a[0]
    ensures a == [] ==> a + rest == rest
  {
  }

  lemma ReadVerse(p: Pieces)
    requires IsPlace(p) && IsRest(p)
    ensures var verse := Take(Blanks(p.right + (p.verse + AfterVerse(p))), Digit, 3);
            verse.text == p.verse && Blanks(Take(verse.rest, CloseBracket, 1).rest) == p.body
  {
    StartOf(p.verse, AfterVerse(p));
    BlanksOf(p.right, p.verse + AfterVerse(p));
    TakeOf(p.verse, AfterVerse(p), Digit, 3);
    TakeOf(p.close, p.space + p.body, CloseBracket, 1);
    BlanksOf(p.space, p.body);
  }

  lemma ReadPlace(p: Pieces, book: string)
    requires AllBlank(p.gap) && IsPlace(p) && IsRest(p)
    ensures MarkFrom(book, p.gap + (p.chapter + AfterChapter(p))) == Mark(Ref(book, Value(p.chapter), Value(p.verse)), p.body)
  {
    hide Value;
    var afterColon := p.right + (p.verse + AfterVerse(p));
    StartOf(p.chapter, AfterChapter(p));
    BlanksOf(p.gap, p.chapter + AfterChapter(p));
    StartOf(p.left, p.colon + afterColon);
    StartOf(p.colon, afterColon);
    TakeOf(p.chapter, AfterChapter(p), Digit, 3);
    BlanksOf(p.left, p.colon + afterColon);
    assert (p.colon + afterColon)[1..] == afterColon;
    ReadVerse(p);
    NumeralIsValue(p.chapter);
    NumeralIsValue(p.verse);
  }

  /* A line made of such pieces has the marker that they say. */
  lemma ReadLine(p: Pieces)
    requires IsMarkedLine(p)
    ensures MarkOf(LineOf(p)) == Mark(Ref(p.lead + p.letters, Value(p.chapter), Value(p.verse)), p.body)
  {
    hide Value, IsRest, AfterChapter;
    var place := p.gap + (p.chapter + AfterChapter(p));
    StartOf(p.chapter, AfterChapter(p));
    StartOf(p.gap, p.chapter + AfterChapter(p));
    StartOf(p.letters, place);
    StartOf(p.lead, p.letters + place);
    StartOf(p.open, p.lead + (p.letters + place));
    BlanksOf(p.indent, p.open + (p.lead + (p.letters + place)));
    TakeOf(p.open, p.lead + (p.letters + place), OpenBracket, 1);
    TakeOf(p.lead, p.letters + place, LeadDigit, 1);
    TakeOf(p.letters, place, Letter, |p.letters + place|);
    ReadPlace(p, p.lead + p.letters);
  }

  /* What follows the colon. */
  lemma VerseIsRead(rest: string) returns (p: Pieces)
    requires Take(Blanks(rest), Digit, 3).text != []
    ensures AllBlank(p.right) && 1 <= |p.verse| <= 3 && AllIn(p.verse, Digit) && IsRest(p)
    ensures rest == p.right + (p.verse + AfterVerse(p))
  {
    hide Take, In, IsBlank, Blanks;
    var right := BlanksAre(rest);
    TakenIs(Blanks(rest), Digit, 3);
    var verse := Take(Blanks(rest), Digit, 3);
    TakenIs(verse.rest, CloseBracket, 1);
    var close := Take(verse.rest, CloseBracket, 1);
    var space := BlanksAre(close.rest);
    p := Pieces([], [], [], [], [], [], [], [], right, verse.text, close.text, space, Blanks(close.rest));
  }

  lemma PlaceIsRead(book: string, rest: string) returns (p: Pieces)
    requires MarkFrom(book, rest).Mark?
    ensures AllBlank(p.gap) && IsPlace(p) && IsRest(p) && rest == p.gap + (p.chapter + AfterChapter(p))
  {
    hide Take, In, IsBlank, Blanks, IsRest, AfterVerse;
    var gap := BlanksAre(rest);
    TakenIs(Blanks(rest), Digit, 3);
    var chapter := Take(Blanks(rest), Digit, 3);
    var left := BlanksAre(chapter.rest);
    var colon := Blanks(chapter.rest);
    var q := VerseIsRead(colon[1..]);
    p := q.(gap := gap, chapter := chapter.text, left := left, colon := [colon[0]]);
    assert colon == p.colon + colon[1..];
    SameRest(p, q);
  }

  lemma SameRest(p: Pieces, q: Pieces)
    requires p.verse == q.verse && p.close == q.close && p.space == q.space && p.body == q.body
    ensures AfterVerse(p) == AfterVerse(q) && (IsRest(p) <==> IsRest(q))
  {
  }

  lemma SamePlace(p: Pieces, q: Pieces)
    requires p == q.(indent := p.indent, open := p.open, lead := p.lead, letters := p.letters)
    ensures AfterChapter(p) == AfterChapter(q) && (IsPlace(p) <==> IsPlace(q)) && (IsRest(p) <==> IsRest(q))
  {
  }

  lemma LineIsRead(line: string) returns (p: Pieces)
    requires MarkOf(line).Mark?
    ensures IsMarkedLine(p) && line == LineOf(p)
  {
    hide MarkFrom, Take, In, IsBlank, Blanks, IsRest, IsPlace, AfterChapter;
    var indent := BlanksAre(line);
    TakenIs(Blanks(line), OpenBracket, 1);
    var open := Take(Blanks(line), OpenBracket, 1);
    TakenIs(open.rest, LeadDigit, 1);
    var lead := Take(open.rest, LeadDigit, 1);
    TakenIs(lead.rest, Letter, |lead.rest|);
    var letters := Take(lead.rest, Letter, |lead.rest|);
    var q := PlaceIsRead(lead.text + letters.text, letters.rest);
    p := q.(indent := indent, open := open.text, lead := lead.text, letters := letters.text);
    SamePlace(p, q);
  }

  /** Main result: a line has a verse marker exactly if it is made of such pieces, and then its marker is what they say. */
  lemma MarkIff(line: string)
    ensures MarkOf(line).Mark? <==> exists p :: IsMarkedLine(p) && line == LineOf(p)
    ensures forall p | IsMarkedLine(p) && line == LineOf(p) ::
              MarkOf(line) == Mark(Ref(p.lead + p.letters, Value(p.chapter), Value(p.verse)), p.body)
  {
    hide MarkOf, Value, IsMarkedLine, LineOf;
    if MarkOf(line).Mark? { var p := LineIsRead(line); }
    forall p | IsMarkedLine(p) && line == LineOf(p) { ReadLine(p); }
  }

  /** A verse is clear exactly if its chapter and verse are positive and its words are there and start with no digit, dash or
      colon, which could be a part of another number. */
  lemma ClearIff(group: seq<Line>)
    requires IsGroup(group)
    ensures var ref, words := group[0].mark.ref, TrimSpace(Join([group[0].mark.body] + LineTexts(group[1..]), "\n"));
            SegmentOf(group).ref == ref
            && (SegmentOf(group).clear <==>
                  && ref.chapter > 0 && ref.verse > 0 && words != ""
                  && !('0' <= words[0] <= '9') && words[0] !in "-–—－:：")
  {
  }

  // ---------- splitting ----------

  /* The references of the marked lines, in order. */
  function MarkRefs(lines: seq<Line>): seq<Ref> {
    if lines == [] then [] else (if lines[0].mark.Mark? then [lines[0].mark.ref] else []) + MarkRefs(lines[1..])
  }

  predicate HaveRefs(groups: seq<seq<Line>>, refs: seq<Ref>) {
    AllGroups(groups) && |groups| == |refs| && forall k | 0 <= k < |groups| :: groups[k][0].mark.ref == refs[k]
  }

  /* The lines before the first marked one. */
  predicate IsLeading(lines: seq<Line>, leading: seq<Line>) {
    && |leading| <= |lines| && lines[..|leading|] == leading
    && (forall i | 0 <= i < |leading| :: leading[i].mark.NoMark?) && (|leading| < |lines| ==> lines[|leading|].mark.Mark?)
  }

  /* There is a group for each marked line, under its reference. */
  lemma {:induction false} GroupsOfMarks(lines: seq<Line>)
    ensures HaveRefs(Groups(lines).groups, MarkRefs(lines)) && IsLeading(lines, Groups(lines).leading)
  {
    GroupsAreGroups(lines);
    if lines != [] {
      GroupsOfMarks(lines[1..]);
      assert lines == [lines[0]] + lines[1..];
    }
  }

  lemma {:induction false} TrimLeftIsEmptyIff(x: string)
    ensures TrimLeft(x) == [] <==> AllSpace(x)
  {
    if x != [] && IsSpace(x[0]) {
      TrimLeftIsEmptyIff(x[1..]);
      assert x == [x[0]] + x[1..];
    }
  }

  lemma {:induction false} TrimRightKeepsFirst(x: string)
    requires x != [] && !IsSpace(x[0])
    ensures TrimRight(x) != []
  {
    if IsSpace(x[|x| - 1]) { TrimRightKeepsFirst(x[..|x| - 1]); }
  }

  lemma TrimIsEmptyIff(x: string)
    ensures TrimSpace(x) == [] <==> AllSpace(x)
  {
    TrimLeftIsEmptyIff(x);
    TrimLeftStarts(x);
    if TrimLeft(x) != [] { TrimRightKeepsFirst(TrimLeft(x)); }
  }

  predicate AllBlankLines(texts: seq<string>) { forall i | 0 <= i < |texts| :: AllSpace(texts[i]) }

  lemma SpaceConcat(a: string, b: string)
    ensures AllSpace(a + b) <==> AllSpace(a) && AllSpace(b)
  {
    if AllSpace(a + b) {
      assert forall i | 0 <= i < |a| :: a[i] == (a + b)[i];
      assert forall i | 0 <= i < |b| :: b[i] == (a + b)[|a| + i];
    }
  }

  lemma {:induction false} JoinIsSpaceIff(texts: seq<string>)
    ensures AllSpace(Join(texts, "\n")) <==> AllBlankLines(texts)
  {
    if |texts| > 1 {
      JoinIsSpaceIff(texts[1..]);
      SpaceConcat(texts[0] + "\n", Join(texts[1..], "\n"));
      SpaceConcat(texts[0], "\n");
      assert texts == [texts[0]] + texts[1..];
    } else if |texts| == 1 {
      assert texts == [texts[0]];
    }
  }

  predicate DistinctRefList(refs: seq<Ref>) { forall i, j | 0 <= i < j < |refs| :: refs[i] != refs[j] }

  lemma SegmentRefs(groups: seq<seq<Line>>, refs: seq<Ref>)
    requires HaveRefs(groups, refs)
    ensures |Segments(groups)| == |refs| && forall k | 0 <= k < |refs| :: Segments(groups)[k].ref == refs[k]
  {
  }

  /** Main result: a text is a list of verses exactly if it has marked lines, nothing but white space before the first one, no
      reference twice, and only clear verses; then there is one verse for each marked line, in order, under its reference. */
  lemma SplitIff(text: string)
    ensures var lines := Marked(Lines(text));
            var g, refs := Groups(lines), MarkRefs(lines);
            && IsLeading(lines, g.leading) && HaveRefs(g.groups, refs)
            && (Split(text).Some? <==>
                  refs != [] && AllBlankLines(LineTexts(g.leading)) && DistinctRefList(refs) && AllClear(Segments(g.groups)))
            && (Split(text).Some? ==>
                  |Split(text).value| == |refs| && forall k | 0 <= k < |refs| :: Split(text).value[k].ref == refs[k])
  {
    hide Groups, Marked, SegmentOf, AllSpace, TrimSpace, IsLeading;
    var lines := Marked(Lines(text));
    var g, refs := Groups(lines), MarkRefs(lines);
    GroupsAreGroups(lines);
    GroupsOfMarks(lines);
    SegmentRefs(g.groups, refs);
    TrimIsEmptyIff(Join(LineTexts(g.leading), "\n"));
    JoinIsSpaceIff(LineTexts(g.leading));
  }
}
