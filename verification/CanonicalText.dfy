/** The text normalisation that decides whether a summary is news. */
module CanonicalText {

  const MARKER: string := "【新】"

  predicate StartsWithMarker(text: string) {
    |text| >= 3 && text[0] == '【' && text[1] == '新' && text[2] == '】'
  }

  /* Every marker removed in one left-to-right pass. */
  function WithoutMarkers(text: string): string {
    if text == [] then []
    else if StartsWithMarker(text) then WithoutMarkers(text[3..])
    else [text[0]] + WithoutMarkers(text[1..])
  }

  predicate IsSpace(c: char) {
    c in {' ', '\t', '\n', '\U{000B}', '\U{000C}', '\r', '\U{0085}', '\U{00A0}', '\U{1680}', '\U{2028}', '\U{2029}',
          '\U{202F}', '\U{205F}', '\U{3000}'}
    || '\U{2000}' <= c <= '\U{200A}'
  }

  function Lines(text: string): (lines: seq<string>)
    ensures |lines| > 0
  {
    if text == [] then [[]]
    else
      var rest := Lines(text[1..]);
      if text[0] == '\n' then [[]] + rest else [[text[0]] + rest[0]] + rest[1..]
  }

  /* The maximal runs of non-space characters, with the word being read. */
  function WordsFrom(word: string, text: string): seq<string>
    decreases |text|
  {
    var done := if word == [] then [] else [word];
    if text == [] then done
    else if IsSpace(text[0]) then done + WordsFrom([], text[1..])
    else WordsFrom(word + [text[0]], text[1..])
  }

  function Join(parts: seq<string>, separator: string): string {
    if parts == [] then []
    else if |parts| == 1 then parts[0]
    else parts[0] + separator + Join(parts[1..], separator)
  }

  function TrimLeft(text: string): string {
    if text != [] && IsSpace(text[0]) then TrimLeft(text[1..]) else text
  }

  function TrimRight(text: string): string {
    if text != [] && IsSpace(text[|text| - 1]) then TrimRight(text[..|text| - 1]) else text
  }

  function TrimSpace(text: string): string { TrimRight(TrimLeft(text)) }

  function Collapsed(lines: seq<string>): seq<string> {
    if lines == [] then [] else [Join(WordsFrom([], lines[0]), " ")] + Collapsed(lines[1..])
  }

  function Canonical(text: string): string {
    TrimSpace(Join(Collapsed(Lines(WithoutMarkers(text))), "\n"))
  }

  /* A marker of the joined text begins in `a` and ends in `b`. */
  predicate Straddles(a: string, b: string) {
    || (|a| >= 1 && |b| >= 2 && a[|a| - 1] == '【' && b[0] == '新' && b[1] == '】')
    || (|a| >= 2 && |b| >= 1 && a[|a| - 2] == '【' && a[|a| - 1] == '新' && b[0] == '】')
  }

  lemma RestOfMarked(a: string, b: string, k: nat)
    requires k <= |a|
    ensures (a + MARKER + b)[k..] == a[k..] + MARKER + b
  {
  }

  /* A marker of the text begins in `a` only where one of `a` does. */
  lemma MarkedStart(a: string, b: string)
    requires a != []
    ensures StartsWithMarker(a + MARKER + b) <==> StartsWithMarker(a)
  {
    assert (a + MARKER + b)[|a|] == '【';
  }

  lemma {:induction false} InsertedMarkerIsRemoved(a: string, b: string)
    ensures WithoutMarkers(a + MARKER + b) == WithoutMarkers(a) + WithoutMarkers(b)
  {
    hide StartsWithMarker;
    var text := a + MARKER + b;
    if a == [] {
      assert text[3..] == b;
      MarkerFirst(b);
    } else if StartsWithMarker(a) {
      MarkedStart(a, b);
      MarkerLength(a);
      RestOfMarked(a, b, 3);
      InsertedMarkerIsRemoved(a[3..], b);
    } else {
      MarkedStart(a, b);
      RestOfMarked(a, b, 1);
      InsertedMarkerIsRemoved(a[1..], b);
      Prepended(a[0], WithoutMarkers(a[1..]), WithoutMarkers(b));
    }
  }

  lemma MarkerFirst(b: string)
    ensures StartsWithMarker([] + MARKER + b)
  {
  }

  lemma MarkerLength(a: string)
    requires StartsWithMarker(a)
    ensures |a| >= 3
  {
  }

  lemma Prepended(c: char, x: string, y: string)
    ensures [c] + (x + y) == ([c] + x) + y
  {
  }

  lemma StartStays(a: string, b: string)
    requires StartsWithMarker(a)
    ensures StartsWithMarker(a + b)
  {
  }

  lemma {:induction false} ConcatWithoutMarkers(a: string, b: string)
    ensures !Straddles(a, b) ==> WithoutMarkers(a + b) == WithoutMarkers(a) + WithoutMarkers(b)
    ensures Straddles(a, b) ==> |WithoutMarkers(a + b)| + 3 == |WithoutMarkers(a)| + |WithoutMarkers(b)|
  {
    hide StartsWithMarker, Straddles;
    if a == [] {
      assert a + b == b;
      NothingStraddles(b);
    } else if StartsWithMarker(a) {
      StartStays(a, b);
      MarkerLength(a);
      StraddlesRest(a, b, 3);
      ConcatWithoutMarkers(a[3..], b);
    } else if StartsWithMarker(a + b) {
      StraddlingStart(a, b);
    } else {
      StraddlesRest(a, b, 1);
      ConcatWithoutMarkers(a[1..], b);
      Prepended(a[0], WithoutMarkers(a[1..]), WithoutMarkers(b));
    }
  }

  lemma NothingStraddles(b: string)
    ensures !Straddles([], b)
  {
  }

  lemma StraddlesRest(a: string, b: string, k: nat)
    requires k <= |a|
    requires (k == 3 && StartsWithMarker(a)) || (k == 1 && !StartsWithMarker(a + b))
    ensures (a + b)[k..] == a[k..] + b
    ensures Straddles(a, b) <==> Straddles(a[k..], b)
  {
    if Straddles(a, b) && |a| < k + 2 {
      assert (a + b)[|a|] == b[0];
      assert |b| >= 2 ==> (a + b)[|a| + 1] == b[1];
    }
  }

  /* A marker that starts at the first character of `a` but is longer than `a`. */
  lemma StraddlingStart(a: string, b: string)
    requires a != [] && !StartsWithMarker(a) && StartsWithMarker(a + b)
    ensures Straddles(a, b)
    ensures |WithoutMarkers(a + b)| + 3 == |WithoutMarkers(a)| + |WithoutMarkers(b)|
  {
    if |a| == 1 {
      assert (a + b)[3..] == b[2..];
      assert b[1..][1..] == b[2..];
      assert a[1..] == [];
    } else {
      assert |a| == 2;
      assert (a + b)[3..] == b[1..];
      assert WithoutMarkers(a[1..]) == [a[1]] + WithoutMarkers(a[1..][1..]);
      assert a[1..][1..] == [];
    }
  }

  /** Inserting the "new" marker anywhere in a text is invisible after its removal, exactly when it does not
      split a marker the text already had. */
  lemma MarkerInvisibleIff(a: string, b: string)
    ensures WithoutMarkers(a + MARKER + b) == WithoutMarkers(a + b) <==> !Straddles(a, b)
  {
    InsertedMarkerIsRemoved(a, b);
    ConcatWithoutMarkers(a, b);
  }

  /** A label is marked after the space that separates it from the name or label before it: marking it does
      not change the canonical text, whatever the names contain. */
  lemma MarkedLabelIsInvisible(before: string, after: string)
    ensures Canonical(before + " " + MARKER + after) == Canonical(before + " " + after)
  {
    var a := before + " ";
    assert a[|a| - 1] == ' ';
    MarkerInvisibleIff(a, after);
  }

  // ---------- texts that are not empty ----------

  predicate StartsWith(text: string, c: char) { text != [] && text[0] == c }

  lemma {:induction false} WordsKeepStart(word: string, text: string)
    requires word != []
    ensures WordsFrom(word, text) != [] && StartsWith(WordsFrom(word, text)[0], word[0])
    decreases |text|
  {
    if text != [] && !IsSpace(text[0]) { WordsKeepStart(word + [text[0]], text[1..]); }
  }

  lemma JoinKeepsStart(parts: seq<string>, separator: string, c: char)
    requires parts != [] && StartsWith(parts[0], c)
    ensures StartsWith(Join(parts, separator), c)
  {
  }

  lemma LineKeepsStart(line: string)
    requires line != [] && !IsSpace(line[0])
    ensures StartsWith(Join(WordsFrom([], line), " "), line[0])
  {
    WordsKeepStart([line[0]], line[1..]);
    assert [] + [line[0]] == [line[0]];
    JoinKeepsStart(WordsFrom([], line), " ", line[0]);
  }

  lemma {:induction false} TrimRightKeepsStart(text: string)
    requires text != [] && !IsSpace(text[0])
    ensures StartsWith(TrimRight(text), text[0])
  {
    if IsSpace(text[|text| - 1]) { TrimRightKeepsStart(text[..|text| - 1]); }
  }

  /* A text that starts with a visible character, and not with a marker, has a canonical form that is not empty. */
  lemma VisibleIsNotEmpty(text: string)
    requires text != [] && !IsSpace(text[0]) && !StartsWithMarker(text)
    ensures StartsWith(Canonical(text), text[0])
  {
    var shown := WithoutMarkers(text);
    assert StartsWith(shown, text[0]);
    var lines := Lines(shown);
    assert StartsWith(lines[0], text[0]);
    LineKeepsStart(lines[0]);
    JoinKeepsStart(Collapsed(lines), "\n", text[0]);
    TrimRightKeepsStart(Join(Collapsed(lines), "\n"));
  }
}
