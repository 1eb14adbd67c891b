/** The password-based key derivation of section 5.2 of RFC 8018. */
module Pbkdf2 {
  import opened Ratios

  type Octet = bv8
  type Octets = seq<Octet>

  /* A pseudorandom function under the password, with outputs of a fixed length. */
  type Prf = Octets -> Octets

  ghost predicate FixedLength(f: Prf, size: nat) { forall x :: |f(x)| == size }

  // ---------- the standard ----------

  /* A digit of a number to the base 256. */
  function Digit(i: nat, unit: nat): (d: nat)
    requires unit > 0
    ensures d < 256
  {
    i / unit % 256
  }

  /* INT(i): four octets, most significant first. */
  function BlockIndex(i: nat): Octets {
    [Digit(i, 0x1000000) as Octet, Digit(i, 0x10000) as Octet, Digit(i, 0x100) as Octet, Digit(i, 1) as Octet]
  }

  function Xor(a: Octets, b: Octets): (r: Octets)
    requires |a| == |b|
    ensures |r| == |a| && forall k | 0 <= k < |r| :: r[k] == a[k] ^ b[k]
  {
    seq(|a|, k requires 0 <= k < |a| => a[k] ^ b[k])
  }

  /* U_j of block i. */
  function U(f: Prf, salt: Octets, i: nat, j: nat): Octets
    requires j > 0
  {
    if j == 1 then f(salt + BlockIndex(i)) else f(U(f, salt, i, j - 1))
  }

  /* T_i = U_1 xor ... xor U_c. */
  ghost function T(f: Prf, size: nat, salt: Octets, c: nat, i: nat): (t: Octets)
    requires FixedLength(f, size) && c > 0
    ensures |t| == size
  {
    if c == 1 then U(f, salt, i, 1) else Xor(T(f, size, salt, c - 1, i), U(f, salt, i, c))
  }

  /* T_1 || ... || T_l. */
  ghost function Blocks(f: Prf, size: nat, salt: Octets, c: nat, l: nat): (r: Octets)
    requires FixedLength(f, size) && c > 0
    ensures |r| == l * size
  {
    if l == 0 then [] else Blocks(f, size, salt, c, l - 1) + T(f, size, salt, c, l)
  }

  /* The number of blocks, the ceiling of the quotient of the lengths. */
  function BlockCount(keyLen: nat, size: nat): nat
    requires size > 0
  {
    (keyLen + size - 1) / size
  }

  lemma BlockCountBounds(keyLen: nat, size: nat)
    requires size > 0
    ensures var l := BlockCount(keyLen, size);
            l * size >= keyLen && (l - 1) * size < keyLen && (keyLen > 0 <==> l > 0)
  {
    var n, l := keyLen + size - 1, BlockCount(keyLen, size);
    assert n == l * size + n % size;
    if keyLen == 0 { assert l == 0; }
  }

  /* The derived key: the last block is cut to the length that is still missing. */
  ghost function DerivedKey(f: Prf, size: nat, salt: Octets, c: nat, keyLen: nat): (key: Octets)
    requires FixedLength(f, size) && size > 0 && c > 0
    ensures |key| == keyLen
  {
    if keyLen == 0 then []
    else
      BlockCountBounds(keyLen, size);
      var l := BlockCount(keyLen, size);
      var r := keyLen - (l - 1) * size;
      Blocks(f, size, salt, c, l - 1) + T(f, size, salt, c, l)[..r]
  }

  /* The function applied so often. */
  function Times(f: Prf, x: Octets, n: nat): Octets { if n == 0 then x else f(Times(f, x, n - 1)) }

  /* Octet k of the exclusive or of the first c iterations of the function. */
  ghost function XorAt(f: Prf, size: nat, x: Octets, c: nat, k: nat): Octet
    requires FixedLength(f, size) && c > 0 && k < size
  {
    if c == 1 then f(x)[k] else XorAt(f, size, x, c - 1, k) ^ f(Times(f, x, c - 1))[k]
  }

  lemma {:induction false} UIsIteration(f: Prf, salt: Octets, i: nat, j: nat)
    requires j > 0
    ensures U(f, salt, i, j) == Times(f, salt + BlockIndex(i), j)
  {
    if j > 1 {
      UIsIteration(f, salt, i, j - 1);
    } else {
      assert Times(f, salt + BlockIndex(i), 0) == salt + BlockIndex(i);
    }
  }

  lemma {:induction false} OctetOfBlock(f: Prf, size: nat, salt: Octets, c: nat, i: nat, k: nat)
    requires FixedLength(f, size) && c > 0 && k < size
    ensures T(f, size, salt, c, i)[k] == XorAt(f, size, salt + BlockIndex(i), c, k)
  {
    UIsIteration(f, salt, i, c);
    if c > 1 {
      OctetOfBlock(f, size, salt, c - 1, i, k);
    } else {
      assert Times(f, salt + BlockIndex(i), 0) == salt + BlockIndex(i);
    }
  }

  lemma PlaceInBlocks(i: nat, l: nat, size: nat, k: nat)
    requires i < l && k < size
    ensures i * size + k < l * size && l * size == (l - 1) * size + size
  {
    assert (i + 1) * size <= l * size;
  }

  lemma {:induction false} OctetOfBlocks(f: Prf, size: nat, salt: Octets, c: nat, l: nat, i: nat, k: nat)
    requires FixedLength(f, size) && c > 0 && i < l && k < size
    ensures i * size + k < l * size && Blocks(f, size, salt, c, l)[i * size + k] == XorAt(f, size, salt + BlockIndex(i + 1), c, k)
  {
    hide T, XorAt;
    PlaceInBlocks(i, l, size, k);
    var head, last := Blocks(f, size, salt, c, l - 1), T(f, size, salt, c, l);
    if i == l - 1 {
      OctetOfBlock(f, size, salt, c, l, k);
      assert (head + last)[|head| + k] == last[k];
    } else {
      OctetOfBlocks(f, size, salt, c, l - 1, i, k);
      assert (head + last)[i * size + k] == head[i * size + k];
    }
  }

  /* The octets of a block index are the digits of its number, the most significant one first, and these make up every
     number within the limit of the standard. */
  lemma BlockIndexIsInt(i: nat)
    requires i < 0x1_0000_0000
    ensures var octets := BlockIndex(i);
            && |octets| == 4 && octets[0] == Digit(i, 0x1000000) as Octet && octets[1] == Digit(i, 0x10000) as Octet
            && octets[2] == Digit(i, 0x100) as Octet && octets[3] == Digit(i, 1) as Octet
    ensures Digit(i, 0x1000000) * 0x1000000 + Digit(i, 0x10000) * 0x10000 + Digit(i, 0x100) * 0x100 + Digit(i, 1) == i
  {
    assert i / 0x10000 == i / 0x100 / 0x100 && i / 0x1000000 == i / 0x10000 / 0x100;
    assert i == i / 0x100 * 0x100 + Digit(i, 1);
    assert i / 0x100 == i / 0x10000 * 0x100 + Digit(i, 0x100);
    assert i / 0x10000 == i / 0x1000000 * 0x100 + Digit(i, 0x10000);
  }

  // ---------- the program ----------

  /* A keyed hash that is fed piece by piece. */
  class Mac {
    const f: Prf
    var written: Octets

    constructor (f: Prf)
      ensures this.f == f && written == []
    {
      this.f := f;
      written := [];
    }

    method Reset()
      modifies this
      ensures written == []
    {
      written := [];
    }

    method Write(data: Octets)
      modifies this
      ensures written == old(written) + data
    {
      written := written + data;
    }

    method Sum() returns (out: Octets)
      ensures out == f(written)
    {
      out := f(written);
    }
  }

  /* The inner loop: one block into the array, in place. */
  method XorInto(t: array<Octet>, u: Octets)
    requires |u| == t.Length
    modifies t
    ensures t[..] == Xor(old(t[..]), u)
  {
    for x := 0 to t.Length
      invariant forall k | 0 <= k < x :: t[k] == old(t[k]) ^ u[k]
      invariant forall k | x <= k < t.Length :: t[k] == old(t[k])
    {
      t[x] := t[x] ^ u[x];
    }
  }

  method MacOf(prf: Mac, data: Octets) returns (out: Octets)
    modifies prf
    ensures out == prf.f(data)
  {
    prf.Reset();
    prf.Write(data);
    assert [] + data == data;
    out := prf.Sum();
  }

  method Copied(u: Octets) returns (t: array<Octet>)
    ensures fresh(t) && t[..] == u
  {
    t := new Octet[|u|](k requires 0 <= k < |u| => u[k]);
  }

  method DeriveBlock(prf: Mac, ghost size: nat, salt: Octets, iter: nat, block: nat) returns (t: array<Octet>)
    requires FixedLength(prf.f, size)
    modifies prf
    ensures fresh(t) && t[..] == T(prf.f, size, salt, if iter > 0 then iter else 1, block)
  {
    prf.Reset();
    prf.Write(salt);
    prf.Write(BlockIndex(block));
    assert prf.written == salt + BlockIndex(block);
    var u := prf.Sum();
    t := Copied(u);
    var i := 1;
    while i < iter
      invariant 1 <= i && (i <= iter || i == 1) && t.Length == size && |u| == size && fresh(t)
      invariant u == U(prf.f, salt, block, i)
      invariant t[..] == T(prf.f, size, salt, i, block)
    {
      u := MacOf(prf, u);
      XorInto(t, u);
      i := i + 1;
    }
  }

  lemma KeyIsCutOfBlocks(f: Prf, size: nat, salt: Octets, c: nat, keyLen: nat)
    requires FixedLength(f, size) && size > 0 && c > 0
    ensures var l := BlockCount(keyLen, size);
            keyLen <= |Blocks(f, size, salt, c, l)| && Blocks(f, size, salt, c, l)[..keyLen] == DerivedKey(f, size, salt, c, keyLen)
  {
    BlockCountBounds(keyLen, size);
    if keyLen > 0 {
      var l := BlockCount(keyLen, size);
      var r := keyLen - (l - 1) * size;
      assert l * size == (l - 1) * size + size;
      var head, last := Blocks(f, size, salt, c, l - 1), T(f, size, salt, c, l);
      assert (head + last)[..keyLen] == head + last[..r];
    }
  }

  lemma CeilOfQuotient(keyLen: nat, size: nat)
    requires size > 0
    ensures -((-(keyLen as real / size as real)).Floor) == BlockCount(keyLen, size)
  {
    var l := BlockCount(keyLen, size);
    var lt := l * size;
    BlockCountBounds(keyLen, size);
    OneBlockLess(l, size);
    ProductAsReal(l, size, lt);
    QuotientTimes(keyLen as real, size as real);
    CeilFromProducts(keyLen as real / size as real, l, size as real, keyLen as real, lt as real);
  }

  lemma OneBlockLess(l: int, size: nat)
    ensures (l - 1) * size == l * size - size
  {
  }

  /* Main result: the nested loops return the key of the standard, octet by octet the exclusive or of its iterations. */
  method DeriveKey(prf: Mac, size: nat, salt: Octets, iter: nat, keyLen: nat) returns (dk: Octets)
    requires FixedLength(prf.f, size) && size > 0
    modifies prf
    ensures dk == DerivedKey(prf.f, size, salt, if iter > 0 then iter else 1, keyLen)
  {
    ghost var c := if iter > 0 then iter else 1;
    var blocks := -((-(keyLen as real / size as real)).Floor);
    CeilOfQuotient(keyLen, size);
    dk := [];
    for block := 1 to blocks + 1
      invariant dk == Blocks(prf.f, size, salt, c, block - 1)
    {
      var t := DeriveBlock(prf, size, salt, iter, block);
      dk := dk + t[..];
    }
    KeyIsCutOfBlocks(prf.f, size, salt, c, keyLen);
    dk := dk[..keyLen];
  }

  lemma BlockOfOctet(i: nat, k: nat, keyLen: nat, size: nat)
    requires size > 0 && i * size + k < keyLen
    ensures i < BlockCount(keyLen, size)
  {
    var l := BlockCount(keyLen, size);
    BlockCountBounds(keyLen, size);
    if i >= l { TimesMonotone(l, i, size); }
  }

  lemma TimesMonotone(a: nat, b: nat, n: nat)
    requires a <= b
    ensures a * n <= b * n
  {
  }

  /* Every octet of the key, without blocks: its place alone says which iterations it combines. */
  lemma OctetOfKey(f: Prf, size: nat, salt: Octets, c: nat, keyLen: nat, i: nat, k: nat)
    requires FixedLength(f, size) && c > 0 && k < size && i * size + k < keyLen
    ensures DerivedKey(f, size, salt, c, keyLen)[i * size + k] == XorAt(f, size, salt + BlockIndex(i + 1), c, k)
  {
    KeyIsCutOfBlocks(f, size, salt, c, keyLen);
    BlockOfOctet(i, k, keyLen, size);
    OctetOfBlocks(f, size, salt, c, BlockCount(keyLen, size), i, k);
    var blocks := Blocks(f, size, salt, c, BlockCount(keyLen, size));
    assert blocks[..keyLen][i * size + k] == blocks[i * size + k];
  }
}
