/** The ECDSA signature encoding of section 3.1.2 of RFC 5656, whose integers are the
    `mpint`s of section 5 of RFC 4251 (daemon/src/enclave.rs). */
module Ecdsa {
  import opened Basics
  import opened Wire

  /** "ecdsa-sha2-nistp256" */
  const KEY_TYPE: seq<byte> := [101, 99, 100, 115, 97, 45, 115, 104, 97, 50, 45, 110, 105, 115, 116, 112, 50, 53, 54]

  function Trim(v: seq<byte>): seq<byte> {
    if v == [] || v[0] != 0 then v else Trim(v[1..])
  }

  function MpintOf(v: seq<byte>): seq<byte> {
    var trimmed := Trim(v);
    if trimmed != [] && trimmed[0] >= 0x80 then [0] + trimmed else trimmed
  }

  lemma {:induction false} TrimFrom(v: seq<byte>, first: nat)
    requires first <= |v| && (forall k | 0 <= k < first :: v[k] == 0) && (first < |v| ==> v[first] != 0)
    ensures Trim(v) == v[first..]
  {
    if first > 0 {
      TrimFrom(v[1..], first - 1);
      assert v[1..][first - 1..] == v[first..];
    } else {
      assert v[0..] == v;
    }
  }

  method Mpint(v: seq<byte>) returns (out: seq<byte>)
    ensures out == MpintOf(v)
  {
    var first := 0;
    while first < |v| && v[first] == 0
      invariant first <= |v| && forall k | 0 <= k < first :: v[k] == 0
    {
      first := first + 1;
    }
    TrimFrom(v, first);
    var trimmed := v[first..];
    if trimmed == [] {
      return [];
    }
    out := [];
    if trimmed[0] >= 0x80 {
      out := out + [0];
    }
    out := out + trimmed;
  }

  // ---- what an mpint is

  lemma {:induction false} ValueOfLeadingZero(v: seq<byte>)
    ensures Value([0] + v) == Value(v)
  {
    if v == [] {
      assert ([0] + v)[..0] == [];
    } else {
      ValueOfLeadingZero(v[..|v| - 1]);
      assert ([0] + v)[..|v|] == [0] + v[..|v| - 1];
    }
  }

  lemma {:induction false} TrimKeepsValue(v: seq<byte>)
    ensures Value(Trim(v)) == Value(v) && |Trim(v)| <= |v|
    ensures Trim(v) == [] || Trim(v)[0] != 0
  {
    if v != [] && v[0] == 0 {
      TrimKeepsValue(v[1..]);
      ValueOfLeadingZero(v[1..]);
      assert v == [0] + v[1..];
    }
  }

  /** The same number, never negative, and no shorter way to write it: nothing at all for
      zero, and a leading zero only in front of a byte that would read as a sign. */
  lemma MpintMeaning(v: seq<byte>)
    ensures var m := MpintOf(v);
      && Value(m) == Value(v)
      && (m != [] ==> m[0] < 0x80)
      && (m != [] && m[0] == 0 ==> |m| > 1 && m[1] >= 0x80)
  {
    TrimKeepsValue(v);
    ValueOfLeadingZero(Trim(v));
  }

  lemma {:induction false} TrimmedIsPositive(a: seq<byte>)
    requires a != [] && a[0] != 0
    ensures Value(a) > 0
  {
    if |a| > 1 {
      TrimmedIsPositive(a[..|a| - 1]);
    }
  }

  lemma {:induction false} TrimmedIsUnique(a: seq<byte>, b: seq<byte>)
    requires (a == [] || a[0] != 0) && (b == [] || b[0] != 0) && Value(a) == Value(b)
    ensures a == b
    decreases |a|
  {
    if a == [] {
      if b != [] {
        TrimmedIsPositive(b);
      }
    } else if b == [] {
      TrimmedIsPositive(a);
    } else {
      Digit(Value(a[..|a| - 1]), a[|a| - 1]);
      Digit(Value(b[..|b| - 1]), b[|b| - 1]);
      TrimmedIsUnique(a[..|a| - 1], b[..|b| - 1]);
      assert a == a[..|a| - 1] + [a[|a| - 1]] && b == b[..|b| - 1] + [b[|b| - 1]];
    }
  }

  lemma Digit(q: nat, d: byte)
    ensures (q * 256 + d) / 256 == q && (q * 256 + d) % 256 == d
  {
  }

  /** Equal numbers are written alike, however they came padded, and only they are. */
  lemma MpintIsCanonical(v: seq<byte>, w: seq<byte>)
    ensures MpintOf(v) == MpintOf(w) <==> Value(v) == Value(w)
  {
    TrimKeepsValue(v);
    TrimKeepsValue(w);
    MpintMeaning(v);
    MpintMeaning(w);
    if Value(v) == Value(w) {
      TrimmedIsUnique(Trim(v), Trim(w));
    }
  }

  function Zeros(n: nat): seq<byte> {
    if n == 0 then [] else [0] + Zeros(n - 1)
  }

  /** An integer read back, padded on the left to `width` bytes. */
  function Padded(m: seq<byte>, width: nat): Option<seq<byte>> {
    var t := Trim(m);
    if |t| > width then None else Some(Zeros(width - |t|) + t)
  }

  lemma {:induction false} PadTrim(v: seq<byte>)
    ensures |Trim(v)| <= |v| && Zeros(|v| - |Trim(v)|) + Trim(v) == v
  {
    if v != [] && v[0] == 0 {
      PadTrim(v[1..]);
      var n := |v[1..]| - |Trim(v[1..])|;
      assert Zeros(n + 1) + Trim(v) == [0] + (Zeros(n) + Trim(v));
    }
  }

  lemma PaddedMpint(v: seq<byte>)
    ensures Padded(MpintOf(v), |v|) == Some(v)
  {
    TrimKeepsValue(v);
    PadTrim(v);
    assert MpintOf(v) == Trim(v) || MpintOf(v)[1..] == Trim(v);
    assert Trim(MpintOf(v)) == Trim(v);
  }

  // ---- the signature

  function SignatureOf(r: seq<byte>, s: seq<byte>): seq<byte> {
    Str(KEY_TYPE) + Str(Str(MpintOf(r)) + Str(MpintOf(s)))
  }

  method SshSignature(r: seq<byte>, s: seq<byte>) returns (out: seq<byte>)
    ensures out == SignatureOf(r, s)
  {
    var inner := new Writer();
    var m := Mpint(r);
    inner.String(m);
    m := Mpint(s);
    inner.String(m);
    var whole := new Writer();
    whole.String(KEY_TYPE);
    whole.String(inner.buf);
    out := whole.buf;
  }

  /** Every signature names its kind in full. */
  lemma KeyTypeFirst(r: seq<byte>, s: seq<byte>)
    ensures Str(KEY_TYPE) <= SignatureOf(r, s) && Spelled(KEY_TYPE, "ecdsa-sha2-nistp256")
  {
  }

  /** A verifier's reading: both integers, 32 bytes each, and not a byte left over. */
  function Decode(sig: seq<byte>): Option<(seq<byte>, seq<byte>)> {
    var kind := ReadStr(sig);
    if kind.None? || kind.value.0 != KEY_TYPE then None
    else
      var inner := ReadStr(kind.value.1);
      if inner.None? || inner.value.1 != [] then None
      else DecodePair(inner.value.0)
  }

  function DecodePair(inner: seq<byte>): Option<(seq<byte>, seq<byte>)> {
    var r := ReadStr(inner);
    if r.None? then None
    else
      var s := ReadStr(r.value.1);
      if s.None? || s.value.1 != [] then None
      else match (Padded(r.value.0, 32), Padded(s.value.0, 32))
        case (Some(a), Some(b)) => Some((a, b))
        case _ => None
  }

  lemma PairRoundTrip(r: seq<byte>, s: seq<byte>)
    requires |r| == 32 && |s| == 32
    ensures DecodePair(Str(MpintOf(r)) + Str(MpintOf(s))) == Some((r, s))
    ensures |Str(MpintOf(r)) + Str(MpintOf(s))| <= 74
  {
    TrimKeepsValue(r);
    TrimKeepsValue(s);
    StrRoundTrip(MpintOf(r), Str(MpintOf(s)));
    StrRoundTrip(MpintOf(s), []);
    assert Str(MpintOf(s)) + [] == Str(MpintOf(s));
    PaddedMpint(r);
    PaddedMpint(s);
  }

  /** The encoding loses nothing: what a verifier reads is the pair the enclave returned. */
  lemma SignatureRoundTrip(r: seq<byte>, s: seq<byte>)
    requires |r| == 32 && |s| == 32
    ensures Decode(SignatureOf(r, s)) == Some((r, s))
  {
    var inner := Str(MpintOf(r)) + Str(MpintOf(s));
    PairRoundTrip(r, s);
    StrRoundTrip(KEY_TYPE, Str(inner));
    StrRoundTrip(inner, []);
    assert Str(inner) + [] == Str(inner);
  }
}
