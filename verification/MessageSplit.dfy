/** Splitting a UTF-8 text into messages of limited size. */
module MessageSplit {
  import opened SeqFacts

  type Byte = bv8

  const NEWLINE: Byte := 0x0A
  const SPACE: Byte := 0x20
  const MAX_BYTES: nat := 3500

  /* Not a continuation byte 10xxxxxx. */
  predicate RuneStart(b: Byte) { b < 0x80 || b >= 0xC0 }

  /* The number of bytes of the character a byte starts; zero when no character starts with it. */
  function Width(b: Byte): nat {
    if b < 0x80 then 1
    else if 0xC2 <= b < 0xE0 then 2
    else if 0xE0 <= b < 0xF0 then 3
    else if 0xF0 <= b < 0xF5 then 4
    else 0
  }

  /* The second byte's range, which excludes overlong forms, surrogates and numbers above 10FFFF. */
  predicate SecondByteOk(first: Byte, second: Byte) {
    && (first == 0xE0 ==> second >= 0xA0)
    && (first == 0xED ==> second < 0xA0)
    && (first == 0xF0 ==> second >= 0x90)
    && (first == 0xF4 ==> second < 0x90)
  }

  /* One character in UTF-8, sections 3 and 4 of RFC 3629. */
  predicate IsChar(c: seq<Byte>) {
    && |c| > 0 && |c| == Width(c[0])
    && (forall i | 1 <= i < |c| :: !RuneStart(c[i]))
    && (|c| > 1 ==> SecondByteOk(c[0], c[1]))
  }

  datatype Char = Char(bytes: seq<Byte>)

  // A text is a sequence of characters; the program works on its bytes.
  type Text = seq<Char>

  /* Section 3 of RFC 3629: valid UTF-8. */
  predicate Valid(text: Text) {
    forall i | 0 <= i < |text| :: IsChar(text[i].bytes)
  }

  function Bytes(text: Text): seq<Byte> {
    if text == [] then [] else text[0].bytes + Bytes(text[1..])
  }

  /* White space as Unicode defines it. */
  predicate IsSpace(c: seq<Byte>) {
    || (|c| == 1 && (0x09 <= c[0] <= 0x0D || c[0] == 0x20))
    || (|c| == 2 && c[0] == 0xC2 && (c[1] == 0x85 || c[1] == 0xA0))
    || (|c| == 3 && WideSpace(c[0], c[1], c[2]))
  }

  predicate WideSpace(a: Byte, b: Byte, c: Byte) {
    || (a == 0xE1 && b == 0x9A && c == 0x80)
    || (a == 0xE2 && b == 0x80 && (0x80 <= c <= 0x8A || c == 0xA8 || c == 0xA9 || c == 0xAF))
    || (a == 0xE2 && b == 0x81 && c == 0x9F)
    || (a == 0xE3 && b == 0x80 && c == 0x80)
  }

  /* The text without its white space. */
  function Dense(text: Text): Text {
    if text == [] then [] else (if IsSpace(text[0].bytes) then [] else [text[0]]) + Dense(text[1..])
  }

  lemma {:induction false} DenseConcat(a: Text, b: Text)
    ensures Dense(a + b) == Dense(a) + Dense(b)
  {
    if a == [] {
      assert a + b == b;
    } else {
      DenseConcat(a[1..], b);
      TailOfConcat(a, b);
      var first := if IsSpace(a[0].bytes) then [] else [a[0]];
      Assoc(first, Dense(a[1..]), Dense(b));
    }
  }

  lemma {:induction false} BytesConcat(a: Text, b: Text)
    ensures Bytes(a + b) == Bytes(a) + Bytes(b)
  {
    if a == [] {
      assert a + b == b;
    } else {
      BytesConcat(a[1..], b);
      TailOfConcat(a, b);
      Assoc(a[0].bytes, Bytes(a[1..]), Bytes(b));
    }
  }

  lemma CharShape(c: seq<Byte>)
    requires IsChar(c)
    ensures 0 < |c| <= 4 && RuneStart(c[0]) && forall i | 1 <= i < |c| :: !RuneStart(c[i])
  {
  }

  // ---------- bytes and characters ----------

  predicate Boundary(bytes: seq<Byte>, i: nat) {
    i == |bytes| || (i < |bytes| && RuneStart(bytes[i]))
  }

  lemma BoundaryInRest(c: seq<Byte>, rest: seq<Byte>, i: nat)
    requires IsChar(c) && Boundary(c + rest, i) && i > 0
    ensures |c| <= i && Boundary(rest, i - |c|)
  {
    CharShape(c);
    if i < |c + rest| {
      AtConcat(c, rest, i);
    }
  }

  /* The number of characters before a byte boundary. */
  function CharsBefore(text: Text, i: nat): (k: nat)
    requires Valid(text) && Boundary(Bytes(text), i)
    ensures k <= |text|
  {
    if i == 0 || text == [] then 0
    else
      BoundaryInRest(text[0].bytes, Bytes(text[1..]), i);
      1 + CharsBefore(text[1..], i - |text[0].bytes|)
  }

  lemma {:induction false} CharsBeforeCut(text: Text, i: nat)
    requires Valid(text) && Boundary(Bytes(text), i)
    ensures var k := CharsBefore(text, i);
            Bytes(text[..k]) == Bytes(text)[..i] && Bytes(text[k..]) == Bytes(text)[i..]
  {
    var k := CharsBefore(text, i);
    if i == 0 || text == [] {
      assert text[..0] == [] && text[0..] == text;
    } else {
      var c, rest := text[0].bytes, text[1..];
      BoundaryInRest(c, Bytes(rest), i);
      CharsBeforeCut(rest, i - |c|);
      TakeOfConcat(c, Bytes(rest), i);
      TakeOfTail(text, k);
    }
  }

  /* The last index up to `from` at which a character starts. */
  function LastStart(bytes: seq<Byte>, from: nat): (i: nat)
    requires from < |bytes|
    ensures i <= from && (i > 0 ==> RuneStart(bytes[i])) && forall j | i < j <= from :: !RuneStart(bytes[j])
  {
    if from == 0 || RuneStart(bytes[from]) then from else LastStart(bytes, from - 1)
  }

  lemma {:induction false} LastStartIs(bytes: seq<Byte>, from: nat, i: nat)
    requires i <= from < |bytes| && RuneStart(bytes[i]) && forall j | i < j <= from :: !RuneStart(bytes[j])
    ensures LastStart(bytes, from) == i
  {
    if i < from {
      LastStartIs(bytes, from - 1, i);
    }
  }

  lemma LastStartInRest(c: seq<Byte>, rest: seq<Byte>, from: nat)
    requires IsChar(c) && |c| <= from < |c| + |rest|
    requires RuneStart(rest[LastStart(rest, from - |c|)])
    ensures LastStart(c + rest, from) == |c| + LastStart(rest, from - |c|)
  {
    var j := LastStart(rest, from - |c|);
    assert (c + rest)[|c| + j] == rest[j];
    forall k | |c| + j < k <= from ensures !RuneStart((c + rest)[k]) {
      assert (c + rest)[k] == rest[k - |c|];
    }
    LastStartIs(c + rest, from, |c| + j);
  }

  lemma LastStartInFirst(c: seq<Byte>, rest: seq<Byte>, from: nat)
    requires IsChar(c) && from < |c|
    ensures LastStart(c + rest, from) == 0 && RuneStart((c + rest)[0])
  {
    CharShape(c);
    forall k | 0 < k <= from ensures !RuneStart((c + rest)[k]) {
      assert (c + rest)[k] == c[k];
    }
    LastStartIs(c + rest, from, 0);
  }

  /* Among four consecutive bytes one starts a character, and the first byte does. */
  lemma {:induction false} StartsAreClose(text: Text, from: nat)
    requires Valid(text) && from < |Bytes(text)|
    ensures RuneStart(Bytes(text)[LastStart(Bytes(text), from)]) && LastStart(Bytes(text), from) + 4 > from
  {
    var c, rest := text[0].bytes, text[1..];
    CharShape(c);
    if from < |c| {
      LastStartInFirst(c, Bytes(rest), from);
    } else {
      StartsAreClose(rest, from - |c|);
      LastStartInRest(c, Bytes(rest), from);
      var j := LastStart(Bytes(rest), from - |c|);
      assert (c + Bytes(rest))[|c| + j] == Bytes(rest)[j];
    }
  }

  // ---------- trimming ----------

  function TrimLeft(text: Text): Text {
    if text != [] && IsSpace(text[0].bytes) then TrimLeft(text[1..]) else text
  }

  function TrimRight(text: Text): Text {
    if text != [] && IsSpace(text[|text| - 1].bytes) then TrimRight(text[..|text| - 1]) else text
  }

  function TrimSpace(text: Text): Text { TrimRight(TrimLeft(text)) }

  lemma {:induction false} TrimLeftIsSuffix(text: Text)
    ensures |TrimLeft(text)| <= |text| && TrimLeft(text) == text[|text| - |TrimLeft(text)|..]
  {
    if text != [] {
      TrimLeftIsSuffix(text[1..]);
    }
  }

  lemma TrimRightIsPrefix(text: Text)
    ensures TrimRight(text) <= text
  {
  }

  lemma {:induction false} TrimLeftKeepsDense(text: Text)
    ensures Dense(TrimLeft(text)) == Dense(text) && |Bytes(TrimLeft(text))| <= |Bytes(text)|
  {
    if text != [] && IsSpace(text[0].bytes) {
      TrimLeftKeepsDense(text[1..]);
    }
  }

  lemma {:induction false} TrimRightKeepsDense(text: Text)
    ensures Dense(TrimRight(text)) == Dense(text) && |Bytes(TrimRight(text))| <= |Bytes(text)|
  {
    if text != [] && IsSpace(text[|text| - 1].bytes) {
      var front, last := text[..|text| - 1], text[|text| - 1];
      TrimRightKeepsDense(front);
      InitLast(text);
      DenseConcat(front, [last]);
      BytesConcat(front, [last]);
    }
  }

  /* Trimming on bytes, as far as the program sees it. */
  function TrimLeftBytes(bytes: seq<Byte>): seq<Byte> {
    if bytes != [] && 0 < Width(bytes[0]) <= |bytes| && IsSpace(bytes[..Width(bytes[0])])
    then TrimLeftBytes(bytes[Width(bytes[0])..]) else bytes
  }

  function TrimRightBytes(bytes: seq<Byte>): seq<Byte> {
    if bytes != [] && IsSpace(bytes[LastStart(bytes, |bytes| - 1)..])
    then TrimRightBytes(bytes[..LastStart(bytes, |bytes| - 1)]) else bytes
  }

  lemma {:induction false} TrimLeftOnBytes(text: Text)
    requires Valid(text)
    ensures TrimLeftBytes(Bytes(text)) == Bytes(TrimLeft(text))
  {
    if text != [] {
      TrimLeftOnBytes(text[1..]);
      TrimLeftStep(text[0].bytes, Bytes(text[1..]));
    }
  }

  lemma TrimLeftStep(c: seq<Byte>, rest: seq<Byte>)
    requires IsChar(c)
    ensures TrimLeftBytes(c + rest) == if IsSpace(c) then TrimLeftBytes(rest) else c + rest
  {
    CutOfConcat(c, rest);
    assert (c + rest)[0] == c[0];
  }

  lemma {:induction false} TrimRightOnBytes(text: Text)
    requires Valid(text)
    ensures TrimRightBytes(Bytes(text)) == Bytes(TrimRight(text))
  {
    if text != [] {
      var front, last := text[..|text| - 1], text[|text| - 1];
      InitLast(text);
      BytesConcat(front, [last]);
      OneCharBytes(last);
      TrimRightOnBytes(front);
      TrimRightStep(Bytes(front), last.bytes);
    }
  }

  lemma OneCharBytes(c: Char)
    ensures Bytes([c]) == c.bytes
  {
    assert c.bytes + [] == c.bytes;
  }

  lemma TrimRightStep(front: seq<Byte>, c: seq<Byte>)
    requires IsChar(c)
    ensures TrimRightBytes(front + c) == if IsSpace(c) then TrimRightBytes(front) else front + c
  {
    LastCharStart(front, c);
  }

  lemma LastCharStart(front: seq<Byte>, c: seq<Byte>)
    requires IsChar(c)
    ensures |front + c| > 0 && LastStart(front + c, |front + c| - 1) == |front|
    ensures (front + c)[|front|..] == c && (front + c)[..|front|] == front
  {
    CharShape(c);
    var bytes := front + c;
    forall j | |front| < j < |bytes| ensures !RuneStart(bytes[j]) {
      assert bytes[j] == c[j - |front|];
    }
    LastStartIs(bytes, |bytes| - 1, |front|);
  }

  // ---------- splitting ----------

  /* The last occurrence of a byte, -1 when there is none. */
  function LastIndex(bytes: seq<Byte>, b: Byte): (i: int)
    ensures -1 <= i < |bytes| && (i >= 0 ==> bytes[i] == b)
    ensures forall j | 0 <= j < |bytes| && j > i :: bytes[j] != b
  {
    if bytes == [] then -1
    else if bytes[|bytes| - 1] == b then |bytes| - 1
    else LastIndex(bytes[..|bytes| - 1], b)
  }

  /* Where a text that is too long is cut: before the last line break that fits, else before the last space,
     else at the last character boundary. */
  function CutPoint(bytes: seq<Byte>): nat
    requires |bytes| > MAX_BYTES
  {
    var limit := LastStart(bytes, MAX_BYTES);
    var newline := LastIndex(bytes[..limit], NEWLINE);
    var space := LastIndex(bytes[..limit], SPACE);
    if newline > 0 then newline else if space > 0 then space else limit
  }

  lemma CutPointIsBoundary(text: Text)
    requires Valid(text) && |Bytes(text)| > MAX_BYTES
    ensures 0 < CutPoint(Bytes(text)) <= MAX_BYTES && Boundary(Bytes(text), CutPoint(Bytes(text)))
  {
    StartsAreClose(text, MAX_BYTES);
    var limit, cut := LastStart(Bytes(text), MAX_BYTES), CutPoint(Bytes(text));
    if cut < limit {
      assert Bytes(text)[..limit][cut] == Bytes(text)[cut];
    }
  }

  lemma TrimmedIsShorter(text: Text)
    requires Valid(text)
    ensures Valid(TrimSpace(text)) && |Bytes(TrimSpace(text))| <= |Bytes(text)| && Dense(TrimSpace(text)) == Dense(text)
  {
    TrimLeftKeepsDense(text);
    TrimRightKeepsDense(TrimLeft(text));
    TrimLeftIsSuffix(text);
    TrimRightIsPrefix(TrimLeft(text));
  }

  /* The number of characters of the first part. */
  function Cut(text: Text): (k: nat)
    requires Valid(text) && |Bytes(text)| > MAX_BYTES
    ensures k <= |text|
  {
    CutPointIsBoundary(text);
    CharsBefore(text, CutPoint(Bytes(text)))
  }

  function Remainder(text: Text): Text
    requires Valid(text) && |Bytes(text)| > MAX_BYTES
  {
    TrimSpace(text[Cut(text)..])
  }

  /* The program's view of one cut. */
  lemma CutBytes(text: Text)
    requires Valid(text) && |Bytes(text)| > MAX_BYTES
    ensures 0 < CutPoint(Bytes(text)) <= MAX_BYTES
    ensures Bytes(text[..Cut(text)]) == Bytes(text)[..CutPoint(Bytes(text))]
    ensures Bytes(Remainder(text)) == TrimRightBytes(TrimLeftBytes(Bytes(text)[CutPoint(Bytes(text))..]))
    ensures Valid(Remainder(text)) && |Bytes(Remainder(text))| < |Bytes(text)|
  {
    CutPointIsBoundary(text);
    CharsBeforeCut(text, CutPoint(Bytes(text)));
    var back := text[Cut(text)..];
    TrimmedIsShorter(back);
    TrimLeftOnBytes(back);
    TrimLeftIsSuffix(back);
    TrimRightOnBytes(TrimLeft(back));
  }

  function Parts(text: Text): seq<Text>
    requires Valid(text)
    decreases |Bytes(text)|
  {
    if |Bytes(text)| > MAX_BYTES then
      CutBytes(text);
      [text[..Cut(text)]] + Parts(Remainder(text))
    else if text == [] then []
    else [text]
  }

  function AllBytes(parts: seq<Text>): seq<seq<Byte>> {
    seq(|parts|, i requires 0 <= i < |parts| => Bytes(parts[i]))
  }

  method FindCut(bytes: seq<Byte>) returns (end: nat)
    requires |bytes| > MAX_BYTES && RuneStart(bytes[LastStart(bytes, MAX_BYTES)])
    ensures end == CutPoint(bytes)
  {
    end := MAX_BYTES;
    while !RuneStart(bytes[end])
      invariant end <= MAX_BYTES
      invariant LastStart(bytes, end) == LastStart(bytes, MAX_BYTES)
      decreases end
    {
      end := end - 1;
    }
    var newline := LastIndex(bytes[..end], NEWLINE);
    if newline > 0 {
      end := newline;
    } else {
      var space := LastIndex(bytes[..end], SPACE);
      if space > 0 {
        end := space;
      }
    }
  }

  /** The loop over the bytes of a valid text cuts it into the bytes of its parts. */
  method SplitMessage(ghost message: Text, bytes: seq<Byte>) returns (chunks: seq<seq<Byte>>)
    requires Valid(message) && bytes == Bytes(message)
    ensures chunks == AllBytes(Parts(message))
  {
    ghost var text, done := message, [];
    var left := bytes;
    chunks := [];
    while |left| > MAX_BYTES
      invariant Valid(text) && left == Bytes(text)
      invariant done + Parts(text) == Parts(message) && chunks == AllBytes(done)
      decreases |left|
    {
      StartsAreClose(text, MAX_BYTES);
      var end := FindCut(left);
      CutBytes(text);
      Assoc(done, [text[..Cut(text)]], Parts(Remainder(text)));
      AllBytesGrows(done, text[..Cut(text)]);
      chunks := chunks + [left[..end]];
      left := TrimRightBytes(TrimLeftBytes(left[end..]));
      done, text := done + [text[..Cut(text)]], Remainder(text);
    }
    EmptyBytes(text);
    if left != [] {
      chunks := chunks + [left];
      AllBytesGrows(done, text);
    } else {
      assert done + [] == done;
    }
  }

  lemma AllBytesGrows(parts: seq<Text>, part: Text)
    ensures AllBytes(parts + [part]) == AllBytes(parts) + [Bytes(part)]
  {
  }

  lemma EmptyBytes(text: Text)
    requires Valid(text)
    ensures Bytes(text) == [] <==> text == []
  {
    if text != [] {
      CharShape(text[0].bytes);
    }
  }

  function Concat(parts: seq<Text>): Text {
    if parts == [] then [] else parts[0] + Concat(parts[1..])
  }

  /** Every part has between 1 and 3500 bytes and consists of whole characters, and together the parts are the
      text, white space aside. */
  lemma {:induction false} PartsCarryText(text: Text)
    requires Valid(text)
    ensures forall p | p in Parts(text) :: 0 < |Bytes(p)| <= MAX_BYTES && Valid(p)
    ensures Dense(Concat(Parts(text))) == Dense(text)
    decreases |Bytes(text)|
  {
    hide Dense;
    EmptyBytes(text);
    if |Bytes(text)| > MAX_BYTES {
      CutBytes(text);
      var front, rest := text[..Cut(text)], Remainder(text);
      PartsCarryText(rest);
      assert Parts(text)[1..] == Parts(rest);
      DenseConcat(front, Concat(Parts(rest)));
      DenseConcat(front, text[Cut(text)..]);
      Split(text, Cut(text));
      TrimmedIsShorterAt(text);
    } else if text != [] {
      assert Parts(text)[1..] == [];
      assert text + [] == text;
    }
  }

  lemma TrimmedIsShorterAt(text: Text)
    requires Valid(text) && |Bytes(text)| > MAX_BYTES
    ensures Dense(Remainder(text)) == Dense(text[Cut(text)..])
  {
    TrimmedIsShorter(text[Cut(text)..]);
  }

  /** When a line break fits behind the first byte, a part ends just before the last one that fits; so a line is
      broken only when it does not fit by itself. Without a fitting line break or space a part is as long as whole
      characters allow, which is at most three bytes short of the limit. */
  lemma CutsAtLines(text: Text)
    requires Valid(text) && |Bytes(text)| > MAX_BYTES
    ensures var bytes := Bytes(text);
            var limit := LastStart(bytes, MAX_BYTES);
            var size := |Bytes(Parts(text)[0])|;
            && limit + 4 > MAX_BYTES
            && size < |bytes| && Bytes(Parts(text)[0]) == bytes[..size]
            && ((exists i :: 0 < i < limit && bytes[i] == NEWLINE) ==>
                  bytes[size] == NEWLINE && forall i | size < i < limit :: bytes[i] != NEWLINE)
            && ((forall i | 0 < i < limit :: bytes[i] != NEWLINE && bytes[i] != SPACE) ==> size == limit)
            && (size != limit ==> bytes[size] == NEWLINE || bytes[size] == SPACE)
  {
    CutBytes(text);
    StartsAreClose(text, MAX_BYTES);
    CutPointLines(Bytes(text));
  }

  lemma CutPointLines(bytes: seq<Byte>)
    requires |bytes| > MAX_BYTES && 0 < LastStart(bytes, MAX_BYTES)
    ensures var limit, cut := LastStart(bytes, MAX_BYTES), CutPoint(bytes);
            && ((exists i :: 0 < i < limit && bytes[i] == NEWLINE) ==>
                  bytes[cut] == NEWLINE && forall i | cut < i < limit :: bytes[i] != NEWLINE)
            && ((forall i | 0 < i < limit :: bytes[i] != NEWLINE && bytes[i] != SPACE) ==> cut == limit)
            && (cut != limit ==> bytes[cut] == NEWLINE || bytes[cut] == SPACE)
  {
    var limit := LastStart(bytes, MAX_BYTES);
    forall i | 0 <= i < limit ensures bytes[..limit][i] == bytes[i] {
    }
  }
}
