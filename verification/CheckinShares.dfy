/** What each check-in adds to a summary. */
module CheckinShares {
  import opened CanonicalText
  import opened Checkins
  import SameContent
  import opened Wrappers

  /** The daily summary is about daily tasks alone, the weekly one about the five kinds of weekly tasks, readings only if the
      title of their book has a visible character. */
  lemma CountsIff(c: Checkin, daily: bool, separate: bool)
    ensures !ShareOf(c, daily, separate).NoPart? <==>
            if daily then c.taskType.DailyDevotion? || c.taskType.DailyScripture? || c.taskType.DailyVerse?
            else
              c.taskType.WeeklyCheckin? || c.taskType.WeeklyVideo? || c.taskType.WeeklyVerse? || c.taskType.WeeklyOutline?
              || (c.taskType.WeeklyBook? && exists i :: 0 <= i < |c.book| && !IsControl(c.book[i]) && !IsSpace(c.book[i]))
    ensures ShareOf(c, daily, separate).NameOnly? ==> daily && !separate
  {
    VisibleIff(c.book);
  }

  lemma {:induction false} HasWordIff(word: string, text: string)
    ensures WordsFrom(word, text) != [] <==> word != [] || exists i :: 0 <= i < |text| && !IsSpace(text[i])
    decreases |text|
  {
    if text != [] {
      var rest := text[1..];
      assert text == [text[0]] + rest;
      if IsSpace(text[0]) {
        HasWordIff([], rest);
        if i :| 0 <= i < |rest| && !IsSpace(rest[i]) { assert text[i + 1] == rest[i]; }
        if i :| 0 <= i < |text| && !IsSpace(text[i]) { assert rest[i - 1] == text[i]; }
      } else {
        HasWordIff(word + [text[0]], rest);
      }
    }
  }

  lemma VisibleIff(text: string)
    ensures Cleaned(text) != "" <==> exists i :: 0 <= i < |text| && !IsControl(text[i]) && !IsSpace(text[i])
  {
    var words, shown := WordsFrom([], WithoutControls(text)), WithoutControls(text);
    HasWordIff([], shown);
    SameContent.FoundAreWords([], shown);
    SameContent.JoinHasNoNewline(words);
    if i :| 0 <= i < |shown| && !IsSpace(shown[i]) { assert shown[i] == text[i]; }
    if i :| 0 <= i < |text| && !IsControl(text[i]) && !IsSpace(text[i]) { assert shown[i] == text[i]; }
  }

  /** A cleaned name has the words of the name, control characters counting as spaces, with single spaces on one line. */
  lemma CleanedIs(text: string)
    ensures WordsFrom([], Cleaned(text)) == WordsFrom([], WithoutControls(text))
    ensures Cleaned(text) == Join(WordsFrom([], Cleaned(text)), " ") && '\n' !in Cleaned(text)
  {
    var words := WordsFrom([], WithoutControls(text));
    SameContent.FoundAreWords([], WithoutControls(text));
    SameContent.WordsOfJoin(words);
    SameContent.JoinHasNoNewline(words);
  }

  /** Two check-ins of a summary share a label exactly if they are of the same kind: of the same book for readings, and both
      heard or both seen for videos. Kinds other than books have labels of their own. */
  lemma SameKeyIff(c: Checkin, d: Checkin, daily: bool, separate: bool)
    requires ShareOf(c, daily, separate).Labelled? && ShareOf(d, daily, separate).Labelled?
    ensures ShareOf(c, daily, separate).key == ShareOf(d, daily, separate).key <==>
            && c.taskType == d.taskType
            && (c.taskType.WeeklyBook? ==> Cleaned(c.book) == Cleaned(d.book))
            && (c.taskType.WeeklyVideo? ==> c.audio == d.audio)
    ensures !c.taskType.WeeklyBook? && !d.taskType.WeeklyBook? ==>
              (ShareOf(c, daily, separate).word == ShareOf(d, daily, separate).word <==>
               ShareOf(c, daily, separate).key == ShareOf(d, daily, separate).key)
  {
    hide Cleaned;
    var x, y := ShareOf(c, daily, separate), ShareOf(d, daily, separate);
    if daily {
      assert "daily_devotion"[6] == 'd' && "daily_scripture"[6] == 's' && "daily_verse"[6] == 'v';
      assert "灵修"[0] == '灵' && "读经"[0] == '读' && "背经"[0] == '背';
    } else {
      WeeklyKey(c);
      WeeklyKey(d);
      if c.taskType.WeeklyBook? && d.taskType.WeeklyBook? { SamePrefix("book:", Cleaned(c.book), Cleaned(d.book)); }
    }
  }

  lemma SamePrefix(prefix: string, x: string, y: string)
    ensures prefix + x == prefix + y <==> x == y
  {
    assert (prefix + x)[|prefix|..] == x && (prefix + y)[|prefix|..] == y;
  }

  /* Where the keys and labels of the weekly kinds differ. */
  lemma WeeklyKey(c: Checkin)
    requires WeeklyShare(c).Labelled?
    ensures var key, word := WeeklyShare(c).key, WeeklyShare(c).word;
            match c.taskType
            case WeeklyBook => key != "" && key[0] == 'b'
            case WeeklyVideo =>
              if c.audio then key == "audio" && key[0] == 'a' && word[0] == '音' else key[0] == 'v' && word[0] == '视'
            case WeeklyCheckin => |key| > 7 && key[0] == 'w' && key[7] == 'c' && word[0] == '周'
            case WeeklyVerse => |key| > 7 && key[0] == 'w' && key[7] == 'v' && word[0] == '背'
            case WeeklyOutline => |key| > 7 && key[0] == 'w' && key[7] == 'o' && word[0] == '提'
            case _ => false
  {
    hide Cleaned, BookLabel;
  }

  /* The part of the title within the quotes around it. */
  predicate IsTitle(book: string, i: nat, j: nat) {
    && i <= j <= |book| && (forall k | 0 <= k < |book| && (k < i || j <= k) :: IsQuote(book[k]))
    && (i < j ==> !IsQuote(book[i]) && !IsQuote(book[j - 1]))
  }

  lemma {:induction false} CutLeftIs(book: string) returns (i: nat)
    ensures i <= |book| && CutLeft(book) == book[i..] && (forall k | 0 <= k < i :: IsQuote(book[k]))
    ensures i < |book| ==> !IsQuote(book[i])
  {
    i := 0;
    if book != [] && IsQuote(book[0]) {
      var n := CutLeftIs(book[1..]);
      i := n + 1;
      assert book == [book[0]] + book[1..];
    }
  }

  lemma {:induction false} CutRightIs(book: string) returns (j: nat)
    ensures j <= |book| && CutRight(book) == book[..j] && (forall k | j <= k < |book| :: IsQuote(book[k]))
    ensures j > 0 ==> !IsQuote(book[j - 1])
  {
    j := |book|;
    if book != [] && IsQuote(book[|book| - 1]) { j := CutRightIs(book[..|book| - 1]); }
  }

  /** The label of a reading is the first two characters of its book's title within the quotes, or all of a shorter one. */
  lemma BookLabelIs(book: string) returns (i: nat, j: nat)
    ensures IsTitle(book, i, j) && BookLabel(book) == if j - i > 2 then book[i..i + 2] else book[i..j]
  {
    i := CutLeftIs(book);
    var n := CutRightIs(CutLeft(book));
    j := i + n;
    assert forall k | j <= k < |book| :: book[k] == CutLeft(book)[k - i];
  }
}
