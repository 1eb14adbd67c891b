/** What it means for two texts to have the same canonical text. */
module SameContent {
  import opened CanonicalText
  import Summaries
  import VerseProgression

  predicate IsWord(w: string) { w != [] && forall i | 0 <= i < |w| :: !IsSpace(w[i]) }

  predicate AreWords(words: seq<string>) { forall i | 0 <= i < |words| :: IsWord(words[i]) }

  predicate AllWords(lines: seq<seq<string>>) { forall i | 0 <= i < |lines| :: AreWords(lines[i]) }

  /* The words of every line. */
  function WordLines(lines: seq<string>): seq<seq<string>> {
    if lines == [] then [] else [WordsFrom([], lines[0])] + WordLines(lines[1..])
  }

  function CutStart(lines: seq<seq<string>>): seq<seq<string>> {
    if lines != [] && lines[0] == [] then CutStart(lines[1..]) else lines
  }

  function CutEnd(lines: seq<seq<string>>): seq<seq<string>> {
    if lines != [] && lines[|lines| - 1] == [] then CutEnd(lines[..|lines| - 1]) else lines
  }

  /* The words of a text, line by line, without its marks and without the empty lines around it. */
  function Content(text: string): seq<seq<string>> { CutEnd(CutStart(WordLines(Lines(WithoutMarkers(text))))) }

  // ---------- words ----------

  lemma {:induction false} FoundAreWords(word: string, text: string)
    requires word == [] || IsWord(word)
    ensures AreWords(WordsFrom(word, text))
    decreases |text|
  {
    if text != [] {
      if IsSpace(text[0]) { FoundAreWords([], text[1..]); } else { FoundAreWords(word + [text[0]], text[1..]); }
    }
  }

  lemma {:induction false} WordIsRead(word: string, w: string, rest: string)
    requires forall i | 0 <= i < |w| :: !IsSpace(w[i])
    ensures WordsFrom(word, w + rest) == WordsFrom(word + w, rest)
    decreases |w|
  {
    if w == [] {
      assert w + rest == rest && word + w == word;
    } else {
      assert (w + rest)[1..] == w[1..] + rest && (w + rest)[0] == w[0];
      WordIsRead(word + [w[0]], w[1..], rest);
      assert word + [w[0]] + w[1..] == word + w;
    }
  }

  /* Words joined by spaces are read back as these words. */
  lemma {:induction false} WordsOfJoin(words: seq<string>)
    requires AreWords(words)
    ensures WordsFrom([], Join(words, " ")) == words
  {
    if |words| == 1 {
      WordIsRead([], words[0], []);
      assert words[0] + [] == words[0] && [] + words[0] == words[0];
    } else if |words| > 1 {
      var rest := Join(words[1..], " ");
      WordsOfJoin(words[1..]);
      WordIsRead([], words[0], " " + rest);
      assert words[0] + " " + rest == words[0] + (" " + rest) && [] + words[0] == words[0] && (" " + rest)[1..] == rest;
    }
  }

  lemma {:induction false} JoinHasNoNewline(words: seq<string>)
    requires AreWords(words)
    ensures VerseProgression.NoNewline(Join(words, " "))
    ensures words != [] ==> Join(words, " ") != [] && !IsSpace(Join(words, " ")[0])
                            && !IsSpace(Join(words, " ")[|Join(words, " ")| - 1])
  {
    if |words| > 1 {
      JoinHasNoNewline(words[1..]);
      assert IsWord(words[0]);
    } else if |words| == 1 {
      assert IsWord(words[0]);
    }
  }

  // ---------- lines ----------

  /* Every line written with single spaces. */
  function Spelt(lines: seq<seq<string>>): (r: seq<string>)
    ensures |r| == |lines|
  {
    if lines == [] then [] else [Join(lines[0], " ")] + Spelt(lines[1..])
  }

  function Written(lines: seq<seq<string>>): string { Join(Spelt(lines), "\n") }

  lemma {:induction false} CollapsedIsSpelt(lines: seq<string>)
    ensures Collapsed(lines) == Spelt(WordLines(lines))
  {
    if lines != [] { CollapsedIsSpelt(lines[1..]); }
  }

  lemma {:induction false} LinesHaveWords(lines: seq<string>)
    ensures AllWords(WordLines(lines))
  {
    if lines != [] {
      LinesHaveWords(lines[1..]);
      FoundAreWords([], lines[0]);
    }
  }

  lemma {:induction false} SpeltConcat(a: seq<seq<string>>, b: seq<seq<string>>)
    ensures Spelt(a + b) == Spelt(a) + Spelt(b)
  {
    if a == [] {
      assert a + b == b;
    } else {
      SpeltConcat(a[1..], b);
      assert (a + b)[1..] == a[1..] + b && (a + b)[0] == a[0];
    }
  }

  lemma {:induction false} TrimmedAtStart(lines: seq<seq<string>>)
    requires AllWords(lines)
    ensures TrimLeft(Written(lines)) == Written(CutStart(lines)) && AllWords(CutStart(lines))
  {
    if lines != [] && lines[0] == [] {
      TrimmedAtStart(lines[1..]);
      if |lines| > 1 {
        assert Written(lines) == "\n" + Written(lines[1..]);
        assert Written(lines)[1..] == Written(lines[1..]);
      }
    } else if lines != [] {
      JoinHasNoNewline(lines[0]);
      assert Written(lines)[0] == Join(lines[0], " ")[0];
    }
  }

  lemma {:induction false} TrimmedAtEnd(lines: seq<seq<string>>)
    requires AllWords(lines)
    ensures TrimRight(Written(lines)) == Written(CutEnd(lines)) && AllWords(CutEnd(lines))
  {
    if lines != [] {
      var init, last := lines[..|lines| - 1], lines[|lines| - 1];
      assert lines == init + [last];
      SpeltConcat(init, [last]);
      assert Spelt([last]) == [Join(last, " ")];
      JoinHasNoNewline(last);
      if init != [] {
        Summaries.JoinLast(Spelt(init), Join(last, " "), "\n");
        assert Written(lines) == Written(init) + "\n" + Join(last, " ");
      }
      if last == [] {
        TrimmedAtEnd(init);
        if init != [] {
          assert Written(lines) == Written(init) + "\n";
          assert (Written(init) + "\n")[..|Written(init)|] == Written(init);
        }
      }
    }
  }

  predicate Closed(lines: seq<seq<string>>) { lines == [] || (lines[0] != [] && lines[|lines| - 1] != []) }

  lemma {:induction false} StartIsCut(lines: seq<seq<string>>)
    ensures CutStart(lines) == [] || CutStart(lines)[0] != []
  {
    if lines != [] && lines[0] == [] { StartIsCut(lines[1..]); }
  }

  lemma {:induction false} EndIsCut(lines: seq<seq<string>>)
    requires lines == [] || lines[0] != []
    ensures Closed(CutEnd(lines))
  {
    if lines != [] && lines[|lines| - 1] == [] { EndIsCut(lines[..|lines| - 1]); }
  }

  /* The canonical text is the content written with single spaces and line ends. */
  lemma CanonicalIsContent(text: string)
    ensures Canonical(text) == Written(Content(text)) && AllWords(Content(text)) && Closed(Content(text))
  {
    var lines := WordLines(Lines(WithoutMarkers(text)));
    CollapsedIsSpelt(Lines(WithoutMarkers(text)));
    LinesHaveWords(Lines(WithoutMarkers(text)));
    TrimmedAtStart(lines);
    TrimmedAtEnd(CutStart(lines));
    StartIsCut(lines);
    EndIsCut(CutStart(lines));
  }

  lemma {:induction false} SpeltLines(lines: seq<seq<string>>)
    requires AllWords(lines)
    ensures VerseProgression.AreLines(Spelt(lines)) && WordLines(Spelt(lines)) == lines
  {
    if lines != [] {
      SpeltLines(lines[1..]);
      WordsOfJoin(lines[0]);
      JoinHasNoNewline(lines[0]);
    }
  }

  /* It gives the content back. */
  lemma ContentOfWritten(lines: seq<seq<string>>)
    requires AllWords(lines) && Closed(lines)
    ensures CutEnd(CutStart(WordLines(Lines(Written(lines))))) == lines
  {
    if lines == [] {
      assert Lines([]) == [[]] && WordLines([[]]) == [[]];
    } else {
      SpeltLines(lines);
      VerseProgression.LinesOfJoined(Spelt(lines));
    }
  }

  /** Main result: two texts have the same canonical text exactly when they have the same words on the same lines, marks and
      the empty lines around them aside. */
  lemma SameCanonicalIff(a: string, b: string)
    ensures Canonical(a) == Canonical(b) <==> Content(a) == Content(b)
  {
    hide Content, Canonical;
    CanonicalIsContent(a);
    CanonicalIsContent(b);
    ContentOfWritten(Content(a));
    ContentOfWritten(Content(b));
  }

  /** In particular the empty canonical text is that of the texts without a word. */
  lemma EmptyIff(text: string)
    ensures Canonical(text) == "" <==> Content(text) == []
  {
    hide Content, Canonical;
    CanonicalIsContent(text);
    ContentOfWritten(Content(text));
    ContentOfWritten([]);
  }
}
