/** Calendar dates written as YYYY-MM-DD. */
module Dates {

  datatype ParsedDate = NotADate | Day(ordinal: nat)

  predicate IsDigit(c: char) { '0' <= c <= '9' }

  function DigitValue(c: char): nat
    requires IsDigit(c)
  {
    c as nat - '0' as nat
  }

  function TwoDigits(s: string, i: nat): nat
    requires i + 2 <= |s| && IsDigit(s[i]) && IsDigit(s[i + 1])
  {
    10 * DigitValue(s[i]) + DigitValue(s[i + 1])
  }

  predicate IsLeapYear(year: nat) {
    year % 4 == 0 && (year % 100 != 0 || year % 400 == 0)
  }

  function DaysIn(year: nat, month: nat): nat {
    if month == 2 then (if IsLeapYear(year) then 29 else 28)
    else if month in {4, 6, 9, 11} then 30
    else 31
  }

  predicate DateShaped(s: string) {
    |s| == 10 && s[4] == '-' && s[7] == '-' && forall i | 0 <= i < 10 && i != 4 && i != 7 :: IsDigit(s[i])
  }

  function YearOf(s: string): nat
    requires DateShaped(s)
  {
    100 * TwoDigits(s, 0) + TwoDigits(s, 2)
  }

  /* Dates are compared through ordinals: later dates have larger ones. */
  function ParseDate(s: string): ParsedDate {
    if !DateShaped(s) then NotADate
    else
      var month, day := TwoDigits(s, 5), TwoDigits(s, 8);
      if 1 <= month <= 12 && 1 <= day <= DaysIn(YearOf(s), month) then
        Day(10000 * YearOf(s) + 100 * month + day)
      else NotADate
  }

  /* The byte order in which the program compares strings. */
  predicate TextLess(a: string, b: string) {
    if b == [] then false
    else if a == [] then true
    else a[0] < b[0] || (a[0] == b[0] && TextLess(a[1..], b[1..]))
  }

  lemma TextLessAt(a: string, b: string, i: nat)
    requires i < |a| && i < |b| && a[..i] == b[..i]
    ensures a[i] < b[i] ==> TextLess(a, b)
    ensures a[i] > b[i] ==> !TextLess(a, b)
  {
    if i > 0 {
      assert a[0] == a[..i][0] && b[0] == b[..i][0];
      assert a[1..][..i - 1] == a[..i][1..] && b[1..][..i - 1] == b[..i][1..];
      TextLessAt(a[1..], b[1..], i - 1);
    }
  }

  lemma TextLessIrreflexive(a: string)
    ensures !TextLess(a, a)
  {
  }

  lemma {:induction false} TextLessTotal(a: string, b: string)
    requires a != b
    ensures TextLess(a, b) || TextLess(b, a)
  {
    if a != [] && b != [] && a[0] == b[0] {
      assert a == [a[0]] + a[1..] && b == [b[0]] + b[1..];
      TextLessTotal(a[1..], b[1..]);
    }
  }

  lemma {:induction false} TextLessTransitive(a: string, b: string, c: string)
    requires TextLess(a, b) && TextLess(b, c)
    ensures TextLess(a, c)
  {
    if a != [] && b != [] && c != [] && a[0] == b[0] == c[0] { TextLessTransitive(a[1..], b[1..], c[1..]); }
  }

  function FirstDifference(a: string, b: string): (i: nat)
    requires |a| == |b| && a != b
    ensures i < |a| && a[..i] == b[..i] && a[i] != b[i]
  {
    if a[0] != b[0] then 0
    else
      assert a == [a[0]] + a[1..] && b == [b[0]] + b[1..];
      var i := 1 + FirstDifference(a[1..], b[1..]);
      assert a[..i] == [a[0]] + a[1..][..i - 1] && b[..i] == [b[0]] + b[1..][..i - 1];
      i
  }

  /* Dates that agree before a position and differ there are ordered by it. */
  lemma YearDecides(a: string, b: string, i: nat)
    requires ParseDate(a).Day? && ParseDate(b).Day? && i < 4 && a[i] < b[i]
    requires forall j | 0 <= j < i :: a[j] == b[j]
    ensures YearOf(a) < YearOf(b)
  {
  }

  lemma PartDecides(a: string, b: string, place: nat, i: nat)
    requires DateShaped(a) && DateShaped(b) && (place == 5 || place == 8) && place <= i < place + 2 && a[i] < b[i]
    requires forall j | place <= j < i :: a[j] == b[j]
    ensures TwoDigits(a, place) < TwoDigits(b, place)
  {
  }

  lemma FirstDigitDecides(a: string, b: string, i: nat)
    requires ParseDate(a).Day? && ParseDate(b).Day? && i < 10 && a[i] < b[i]
    requires forall j | 0 <= j < i :: a[j] == b[j]
    ensures ParseDate(a).ordinal < ParseDate(b).ordinal
  {
    if i < 4 {
      YearDecides(a, b, i);
    } else if i < 7 {
      PartDecides(a, b, 5, i);
    } else {
      PartDecides(a, b, 8, i);
    }
  }

  /** For well-formed dates the order of the texts is the order of the dates. */
  lemma TextOrderIsDateOrder(a: string, b: string)
    requires ParseDate(a).Day? && ParseDate(b).Day?
    ensures TextLess(a, b) <==> ParseDate(a).ordinal < ParseDate(b).ordinal
  {
    if a == b {
      TextLessIrreflexive(a);
    } else {
      var i := FirstDifference(a, b);
      TextLessAt(a, b, i);
      assert forall j | 0 <= j < i :: a[j] == a[..i][j] && b[j] == b[..i][j];
      if a[i] < b[i] { FirstDigitDecides(a, b, i); } else { FirstDigitDecides(b, a, i); }
    }
  }

  lemma SameOrdinalSameText(a: string, b: string)
    requires ParseDate(a).Day? && ParseDate(a) == ParseDate(b)
    ensures a == b
  {
    if a != b {
      var i := FirstDifference(a, b);
      TextLessAt(a, b, i);
      TextLessAt(b, a, i);
      TextOrderIsDateOrder(a, b);
      TextOrderIsDateOrder(b, a);
    }
  }
}
