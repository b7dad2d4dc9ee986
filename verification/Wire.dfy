/** The agent protocol's wire format: big-endian words and length-prefixed strings, as
    section 5 of RFC 4251 defines them (daemon/src/wire.rs). */
module Wire {
  import opened Basics

  const TWO_32: nat := 0x1_0000_0000

  // ---- big-endian numbers

  /** The low `width` bytes of a number, most significant first. */
  function Be(n: nat, width: nat): (s: seq<byte>)
    ensures |s| == width
  {
    if width == 0 then [] else Be(n / 256, width - 1) + [n % 256]
  }

  function Value(s: seq<byte>): nat {
    if s == [] then 0 else Value(s[..|s| - 1]) * 256 + s[|s| - 1]
  }

  function Pow256(k: nat): (p: nat)
    ensures p > 0
  {
    if k == 0 then 1 else 256 * Pow256(k - 1)
  }

  lemma Pow4()
    ensures Pow256(4) == TWO_32
  {
    assert Pow256(1) == 256 && Pow256(2) == 0x1_0000 && Pow256(3) == 0x100_0000;
  }

  lemma {:induction false} ValueOfBe(n: nat, width: nat)
    requires n < Pow256(width)
    ensures Value(Be(n, width)) == n
  {
    if width > 0 {
      ValueOfBe(n / 256, width - 1);
      assert Be(n, width)[..width - 1] == Be(n / 256, width - 1);
    }
  }

  lemma {:induction false} ValueBound(s: seq<byte>)
    ensures Value(s) < Pow256(|s|)
  {
    if s != [] {
      ValueBound(s[..|s| - 1]);
    }
  }

  lemma {:induction false} BeOfValue(s: seq<byte>)
    ensures Be(Value(s), |s|) == s
  {
    if s != [] {
      BeOfValue(s[..|s| - 1]);
      assert s == s[..|s| - 1] + [s[|s| - 1]];
    }
  }

  // ---- words and strings

  /** A word as four bytes; a length that does not fit is cut to its low 32 bits. */
  function Be32(n: nat): (s: seq<byte>)
    ensures |s| == 4
  {
    Be(n, 4)
  }

  function Word(s: seq<byte>): (n: nat)
    requires |s| == 4
  {
    Value(s)
  }

  /** Most significant byte first. */
  lemma BigEndian(n: nat)
    ensures Be32(n) == [n / 0x100_0000 % 256, n / 0x1_0000 % 256, n / 0x100 % 256, n % 256]
  {
    assert n / 256 / 256 == n / 0x1_0000 && n / 256 / 256 / 256 == n / 0x100_0000;
    assert Be(n / 256, 3) == Be(n / 0x1_0000, 2) + [n / 256 % 256];
    assert Be(n / 0x1_0000, 2) == Be(n / 0x100_0000, 1) + [n / 0x1_0000 % 256];
    assert Be(n / 0x100_0000, 1) == Be(n / 0x100_0000 / 256, 0) + [n / 0x100_0000 % 256];
  }

  lemma WordOfBe32(n: nat)
    requires n < TWO_32
    ensures Word(Be32(n)) == n
  {
    Pow4();
    ValueOfBe(n, 4);
  }

  lemma Be32OfWord(s: seq<byte>)
    requires |s| == 4
    ensures Be32(Word(s)) == s && Word(s) < TWO_32
  {
    Pow4();
    ValueBound(s);
    BeOfValue(s);
  }

  function Str(v: seq<byte>): seq<byte> {
    Be32(|v|) + v
  }

  /** The string at the front of `rest`, with what follows it. */
  function ReadStr(rest: seq<byte>): Option<(seq<byte>, seq<byte>)> {
    if |rest| < 4 then None
    else
      var n := Word(rest[..4]);
      if |rest| - 4 < n then None else Some((rest[4..4 + n], rest[4 + n..]))
  }

  /** Where a string that cannot be read leaves the reader: past its length, if that was there. */
  function PastLength(rest: seq<byte>): seq<byte> {
    if |rest| < 4 then rest else rest[4..]
  }

  /** What was written is what is read, and nothing of what follows. */
  lemma StrRoundTrip(v: seq<byte>, rest: seq<byte>)
    requires |v| < TWO_32
    ensures ReadStr(Str(v) + rest) == Some((v, rest))
  {
    var t := Str(v) + rest;
    assert t[..4] == Be32(|v|);
    WordOfBe32(|v|);
    assert t[4..4 + |v|] == v;
    assert t[4 + |v|..] == rest;
  }

  /** What can be read was written: no other bytes stand for the same string. */
  lemma ReadStrIsStr(rest: seq<byte>)
    requires ReadStr(rest).Some?
    ensures var (v, after) := ReadStr(rest).value; |v| < TWO_32 && rest == Str(v) + after
  {
    var n := Word(rest[..4]);
    Be32OfWord(rest[..4]);
    assert rest == rest[..4] + rest[4..4 + n] + rest[4 + n..];
  }

  class Reader {
    const buf: seq<byte>
    var pos: nat

    ghost predicate Valid()
      reads this
    {
      pos <= |buf|
    }

    /** What has not been read yet. */
    ghost function Rest(): seq<byte>
      requires Valid()
      reads this
    {
      buf[pos..]
    }

    constructor (buf: seq<byte>)
      ensures this.buf == buf && pos == 0 && Valid() && Rest() == buf
    {
      this.buf := buf;
      pos := 0;
    }

    method U8() returns (b: Option<byte>)
      requires Valid()
      modifies `pos
      ensures Valid()
      ensures if old(Rest()) == [] then b == None && Rest() == old(Rest())
              else b == Some(old(Rest())[0]) && Rest() == old(Rest())[1..]
    {
      if pos >= |buf| {
        return None;
      }
      b := Some(buf[pos]);
      pos := pos + 1;
    }

    method U32() returns (n: Option<nat>)
      requires Valid()
      modifies `pos
      ensures Valid()
      ensures if |old(Rest())| < 4 then n == None && Rest() == old(Rest())
              else n == Some(Word(old(Rest())[..4])) && Rest() == old(Rest())[4..]
    {
      var end := pos + 4;
      if end > |buf| {
        return None;
      }
      assert buf[pos..end] == Rest()[..4];
      n := Some(Word(buf[pos..end]));
      pos := end;
    }

    method String() returns (s: Option<seq<byte>>)
      requires Valid()
      modifies `pos
      ensures Valid()
      ensures match ReadStr(old(Rest()))
        case None => s == None && Rest() == PastLength(old(Rest()))
        case Some((v, rest)) => s == Some(v) && Rest() == rest
    {
      ghost var was := Rest();
      var n := U32();
      if n.None? {
        return None;
      }
      var end := pos + n.value;
      if end > |buf| {
        return None;
      }
      assert buf[pos..end] == was[4..4 + n.value];
      s := Some(buf[pos..end]);
      pos := end;
    }
  }

  class Writer {
    var buf: seq<byte>

    constructor ()
      ensures buf == []
    {
      buf := [];
    }

    method U8(v: byte)
      modifies this
      ensures buf == old(buf) + [v]
    {
      buf := buf + [v];
    }

    method U32(v: nat)
      modifies this
      ensures buf == old(buf) + Be32(v)
    {
      buf := buf + Be32(v);
    }

    method String(v: seq<byte>)
      modifies this
      ensures buf == old(buf) + Str(v)
    {
      U32(|v|);
      buf := buf + v;
    }
  }

  method Frame(payload: seq<byte>) returns (out: seq<byte>)
    ensures out == Str(payload)
  {
    out := [];
    out := out + Be32(|payload|);
    out := out + payload;
  }
}
