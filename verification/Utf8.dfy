/** Well-formed UTF-8, as section 4 of RFC 3629 lays it out, and the places a Rust string
    may be cut. */
module Utf8 {
  import opened Basics

  predicate Cont(b: byte) {
    0x80 <= b < 0xC0
  }

  /** The length of the character at the front, or 0 if there is none. */
  function CharLen(b: seq<byte>): (n: nat)
    ensures n <= |b| && n <= 4
    ensures forall k | 1 <= k < n :: Cont(b[k])
    ensures n > 0 ==> !Cont(b[0])
    ensures n > 1 ==> b[0] >= 0x80
  {
    if |b| >= 1 && b[0] < 0x80 then 1
    else if |b| >= 2 && 0xC2 <= b[0] < 0xE0 && Cont(b[1]) then 2
    else if |b| >= 3 && 0xE0 <= b[0] < 0xF0 && Second(b[0], b[1]) && Cont(b[2]) then 3
    else if |b| >= 4 && 0xF0 <= b[0] < 0xF5 && Second(b[0], b[1]) && Cont(b[2]) && Cont(b[3]) then 4
    else 0
  }

  /** Overlong forms, surrogates and values past U+10FFFF show in the second byte. */
  predicate Second(lead: byte, b: byte) {
    && Cont(b)
    && (lead == 0xE0 ==> b >= 0xA0) && (lead == 0xED ==> b < 0xA0)
    && (lead == 0xF0 ==> b >= 0x90) && (lead == 0xF4 ==> b < 0x90)
  }

  predicate Valid(b: seq<byte>)
    decreases |b|
  {
    b == [] || (CharLen(b) > 0 && Valid(b[CharLen(b)..]))
  }

  /** Where a string may be cut. */
  predicate Boundary(b: seq<byte>, i: int) {
    i == 0 || i == |b| || (0 < i < |b| && !Cont(b[i]))
  }

  lemma CharLenOfFront(a: seq<byte>, b: seq<byte>)
    requires CharLen(a) > 0
    ensures CharLen(a + b) == CharLen(a)
  {
  }

  lemma {:induction false} ValidJoin(a: seq<byte>, b: seq<byte>)
    requires Valid(a) && Valid(b)
    ensures Valid(a + b)
    decreases |a|
  {
    if a == [] {
      assert a + b == b;
    } else {
      CharLenOfFront(a, b);
      ValidJoin(a[CharLen(a)..], b);
      assert (a + b)[CharLen(a)..] == a[CharLen(a)..] + b;
    }
  }

  lemma {:induction false} ValidSplit(b: seq<byte>, i: nat)
    requires Valid(b) && i <= |b| && Boundary(b, i)
    ensures Valid(b[..i]) && Valid(b[i..])
    decreases |b|
  {
    if i == 0 {
      assert b[0..] == b;
    } else {
      var n := CharLen(b);
      assert i >= n;
      var rest := b[n..];
      assert i < |b| ==> rest[i - n] == b[i];
      ValidSplit(rest, i - n);
      assert rest[i - n..] == b[i..];
      FrontIsChar(b);
      assert b[..i] == b[..n] + rest[..i - n];
      ValidJoin(b[..n], rest[..i - n]);
    }
  }

  lemma FrontIsChar(b: seq<byte>)
    requires CharLen(b) > 0
    ensures Valid(b[..CharLen(b)])
  {
    var n := CharLen(b);
    assert CharLen(b[..n]) == n && b[..n][n..] == [];
  }

  lemma ValidSlice(b: seq<byte>, i: nat, j: nat)
    requires Valid(b) && i <= j <= |b| && Boundary(b, i) && Boundary(b, j)
    ensures Valid(b[i..j])
  {
    ValidSplit(b, j);
    assert Boundary(b[..j], i);
    ValidSplit(b[..j], i);
    assert b[..j][i..] == b[i..j];
  }

  /** A string may be cut right after any ASCII byte. */
  lemma AfterAscii(b: seq<byte>, i: nat)
    requires Valid(b) && i < |b| && b[i] < 0x80
    ensures Boundary(b, i) && Boundary(b, i + 1)
  {
    ValidSplit(b, i);
    assert CharLen(b[i..]) == 1 && b[i..][1..] == b[i + 1..];
    assert Valid(b[i + 1..]);
  }

  /** What a scanner for ASCII words needs of UTF-8: no character continues past an ASCII byte. */
  predicate Cuttable(b: seq<byte>) {
    forall i | 0 <= i < |b| && b[i] < 0x80 :: Boundary(b, i + 1)
  }

  lemma ValidIsCuttable(b: seq<byte>)
    requires Valid(b)
    ensures Cuttable(b)
  {
    forall i | 0 <= i < |b| && b[i] < 0x80 ensures Boundary(b, i + 1) {
      AfterAscii(b, i);
    }
  }

  // ---- what well-formed UTF-8 stands for

  /** A Unicode scalar value: no surrogate, and nothing past U+10FFFF. */
  predicate Scalar(c: nat) {
    c < 0xD800 || 0xE000 <= c < 0x11_0000
  }

  /** The bits of a character spread over one to four bytes (section 3 of RFC 3629). */
  function Encoded(c: nat): seq<byte>
    requires Scalar(c)
  {
    if c < 0x80 then [c]
    else if c < 0x800 then [0xC0 + c / 64, 0x80 + c % 64]
    else if c < 0x1_0000 then [0xE0 + c / 4096, 0x80 + c / 64 % 64, 0x80 + c % 64]
    else [0xF0 + c / 0x4_0000, 0x80 + c / 4096 % 64, 0x80 + c / 64 % 64, 0x80 + c % 64]
  }

  function Text(cs: seq<nat>): seq<byte>
    requires forall k | 0 <= k < |cs| :: Scalar(cs[k])
  {
    if cs == [] then [] else Encoded(cs[0]) + Text(cs[1..])
  }

  lemma EncodedIsOne(c: nat)
    requires Scalar(c)
    ensures CharLen(Encoded(c)) == |Encoded(c)| > 0
  {
  }

  lemma Digits64(x: nat, y: nat, z: nat)
    requires y < 64 && z < 64
    ensures (x * 64 + y) / 64 == x && (x * 64 + y) % 64 == y
    ensures (x * 4096 + y * 64 + z) / 4096 == x && (x * 4096 + y * 64 + z) / 64 % 64 == y && (x * 4096 + y * 64 + z) % 64 == z
  {
    assert x * 4096 + y * 64 + z == (x * 64 + y) * 64 + z;
    assert (x * 4096 + y * 64 + z) / 64 == x * 64 + y;
  }

  // From here on `x`, `y` and `z` are the low six bits of the bytes after the first.

  lemma TwoBytes(lead: nat, x: nat)
    requires 2 <= lead < 32 && x < 64
    ensures Scalar(lead * 64 + x) && Encoded(lead * 64 + x) == [0xC0 + lead, 0x80 + x]
  {
  }

  lemma ThreeBytes(lead: nat, x: nat, y: nat)
    requires lead < 16 && x < 64 && y < 64 && (lead == 0 ==> x >= 32) && (lead == 13 ==> x < 32)
    ensures var c := lead * 4096 + x * 64 + y; Scalar(c) && Encoded(c) == [0xE0 + lead, 0x80 + x, 0x80 + y]
  {
    Digits64(lead, x, y);
  }

  lemma FourBytes(lead: nat, x: nat, y: nat, z: nat)
    requires lead < 5 && x < 64 && y < 64 && z < 64 && (lead == 0 ==> x >= 16) && (lead == 4 ==> x < 16)
    ensures var c := lead * 0x4_0000 + x * 4096 + y * 64 + z;
      Scalar(c) && Encoded(c) == [0xF0 + lead, 0x80 + x, 0x80 + y, 0x80 + z]
  {
    var c := lead * 0x4_0000 + x * 4096 + y * 64 + z;
    Digits64(lead * 64 + x, y, z);
    Digits64(lead, x, 0);
    assert c / 0x4_0000 == c / 4096 / 64;
  }

  lemma OneIsEncoded(b: seq<byte>) returns (c: nat)
    requires CharLen(b) > 0
    ensures Scalar(c) && Encoded(c) == b[..CharLen(b)]
  {
    var n := CharLen(b);
    var b0: int := b[0];
    var x: int := if n > 1 then b[1] as int - 0x80 else 0;
    var y: int := if n > 2 then b[2] as int - 0x80 else 0;
    var z: int := if n > 3 then b[3] as int - 0x80 else 0;
    if n == 1 {
      c := b0;
    } else if n == 2 {
      c := (b0 - 0xC0) * 64 + x;
      TwoBytes(b0 - 0xC0, x);
    } else if n == 3 {
      c := (b0 - 0xE0) * 4096 + x * 64 + y;
      ThreeBytes(b0 - 0xE0, x, y);
    } else {
      c := (b0 - 0xF0) * 0x4_0000 + x * 4096 + y * 64 + z;
      FourBytes(b0 - 0xF0, x, y, z);
    }
  }

  lemma {:induction false} TextIsValid(cs: seq<nat>)
    requires forall k | 0 <= k < |cs| :: Scalar(cs[k])
    ensures Valid(Text(cs))
  {
    if cs != [] {
      TextIsValid(cs[1..]);
      EncodedIsOne(cs[0]);
      FrontIsChar(Encoded(cs[0]));
      assert Encoded(cs[0])[..|Encoded(cs[0])|] == Encoded(cs[0]);
      ValidJoin(Encoded(cs[0]), Text(cs[1..]));
    }
  }

  lemma {:induction false} ValidIsText(b: seq<byte>) returns (cs: seq<nat>)
    requires Valid(b)
    ensures (forall k | 0 <= k < |cs| :: Scalar(cs[k])) && Text(cs) == b
    decreases |b|
  {
    if b == [] {
      cs := [];
    } else {
      var c := OneIsEncoded(b);
      var rest := ValidIsText(b[CharLen(b)..]);
      cs := [c] + rest;
      assert cs[1..] == rest;
      assert b == b[..CharLen(b)] + b[CharLen(b)..];
    }
  }

  /** Well-formed means exactly: the encoding of some characters. */
  lemma ValidExactlyWhen(b: seq<byte>)
    ensures Valid(b) <==> exists cs: seq<nat> :: (forall k | 0 <= k < |cs| :: Scalar(cs[k])) && Text(cs) == b
  {
    if Valid(b) {
      var cs := ValidIsText(b);
      assert Text(cs) == b;
    }
    if cs: seq<nat> :| (forall k | 0 <= k < |cs| :: Scalar(cs[k])) && Text(cs) == b {
      TextIsValid(cs);
    }
  }
}
