/** The container that tells a sign-in key from a plain enclave handle, and so decides
    whether the screen is watched at all (daemon/kwse.swift). */
module SignInKeys {
  import opened Basics
  import opened Wire

  /** "keyward sign-in key 1\n" */
  const MAGIC: seq<byte> := [107, 101, 121, 119, 97, 114, 100, 32, 115, 105, 103, 110, 45, 105, 110, 32, 107, 101, 121, 32, 49, 10]

  datatype SignInKey = SignInKey(signing: seq<byte>, unlock: seq<byte>, peer: seq<byte>, pub: seq<byte>)

  function FieldsOf(k: SignInKey): seq<seq<byte>> {
    [k.signing, k.unlock, k.peer, k.pub]
  }

  function Written(fields: seq<seq<byte>>): seq<byte> {
    if fields == [] then [] else Str(fields[0]) + Written(fields[1..])
  }

  function Container(k: SignInKey): seq<byte> {
    MAGIC + Written(FieldsOf(k))
  }

  lemma {:induction false} WrittenAppend(fields: seq<seq<byte>>, last: seq<byte>)
    ensures Written(fields + [last]) == Written(fields) + Str(last)
  {
    if fields == [] {
      assert Written([last]) == Str(last) + Written([]);
    } else {
      assert (fields + [last])[1..] == fields[1..] + [last];
      WrittenAppend(fields[1..], last);
    }
  }

  method Data(k: SignInKey) returns (out: seq<byte>)
    ensures out == Container(k)
  {
    out := MAGIC;
    var fields := [k.signing, k.unlock, k.peer, k.pub];
    for i := 0 to |fields|
      invariant out == MAGIC + Written(fields[..i])
    {
      WrittenAppend(fields[..i], fields[i]);
      assert fields[..i] + [fields[i]] == fields[..i + 1];
      out := out + Be32(|fields[i]|);
      out := out + fields[i];
      assert Str(fields[i]) == Be32(|fields[i]|) + fields[i];
    }
    assert fields[..|fields|] == fields;
  }

  /** Length-prefixed fields to the very end of the bytes. */
  function Fields(rest: seq<byte>): Option<seq<seq<byte>>>
    decreases |rest|
  {
    if rest == [] then Some([])
    else match ReadStr(rest)
      case None => None
      case Some((field, after)) =>
        match Fields(after)
        case None => None
        case Some(more) => Some([field] + more)
  }

  function ParseOf(d: seq<byte>): Option<SignInKey> {
    if !(MAGIC <= d) then None
    else match Fields(d[|MAGIC|..])
      case None => None
      case Some(parts) => if |parts| == 4 then Some(SignInKey(parts[0], parts[1], parts[2], parts[3])) else None
  }

  function Prepend(parts: seq<seq<byte>>, more: Option<seq<seq<byte>>>): Option<seq<seq<byte>>> {
    match more
    case None => None
    case Some(m) => Some(parts + m)
  }

  lemma PrependNothing(more: Option<seq<seq<byte>>>)
    ensures Prepend([], more) == more
  {
    assert more.Some? ==> [] + more.value == more.value;
  }

  /** One turn of the parser: the length and the field come off the front together. */
  lemma FieldsStep(parts: seq<seq<byte>>, rest: seq<byte>)
    requires rest != []
    ensures |rest| < 4 ==> Fields(rest).None?
    ensures |rest| >= 4 ==>
      var (n, after) := (Word(rest[..4]), rest[4..]);
      if |after| < n then Fields(rest).None?
      else Prepend(parts, Fields(rest)) == Prepend(parts + [after[..n]], Fields(after[n..]))
  {
    if |rest| >= 4 && |rest| - 4 >= Word(rest[..4]) {
      var (n, after) := (Word(rest[..4]), rest[4..]);
      assert ReadStr(rest) == Some((after[..n], after[n..])) by {
        assert rest[4..4 + n] == after[..n] && rest[4 + n..] == after[n..];
      }
      var more := Fields(after[n..]);
      if more.Some? {
        assert parts + ([after[..n]] + more.value) == parts + [after[..n]] + more.value;
      }
    }
  }

  method Parse(d: seq<byte>) returns (k: Option<SignInKey>)
    ensures k == ParseOf(d)
  {
    if !(MAGIC <= d) {
      return None;
    }
    var rest := d[|MAGIC|..];
    ghost var all := Fields(rest);
    var parts := [];
    PrependNothing(all);
    while rest != []
      invariant all == Prepend(parts, Fields(rest))
      decreases |rest|
    {
      FieldsStep(parts, rest);
      if |rest| < 4 {
        return None;
      }
      var n := Word(rest[..4]);
      rest := rest[4..];
      if |rest| < n {
        return None;
      }
      parts := parts + [rest[..n]];
      rest := rest[n..];
    }
    if |parts| != 4 {
      return None;
    }
    return Some(SignInKey(parts[0], parts[1], parts[2], parts[3]));
  }

  predicate Short(fields: seq<seq<byte>>) {
    forall i | 0 <= i < |fields| :: |fields[i]| < TWO_32
  }

  lemma {:induction false} FieldsOfWritten(fields: seq<seq<byte>>, rest: seq<byte>)
    requires Short(fields)
    ensures Fields(Written(fields) + rest) == Prepend(fields, Fields(rest))
  {
    if fields == [] {
      assert Written(fields) + rest == rest;
      PrependNothing(Fields(rest));
    } else {
      var tail := Written(fields[1..]) + rest;
      assert Written(fields) + rest == Str(fields[0]) + tail;
      StrRoundTrip(fields[0], tail);
      FieldsOfWritten(fields[1..], rest);
      assert Fields(Written(fields) + rest) == Prepend([fields[0]], Fields(tail));
      assert Fields(rest).Some? ==> fields + Fields(rest).value == [fields[0]] + (fields[1..] + Fields(rest).value);
    }
  }

  lemma {:induction false} WrittenOfFields(rest: seq<byte>)
    requires Fields(rest).Some?
    ensures Short(Fields(rest).value) && Written(Fields(rest).value) == rest
    decreases |rest|
  {
    if rest != [] {
      ReadStrIsStr(rest);
      WrittenOfFields(ReadStr(rest).value.1);
      assert Fields(rest).value[1..] == Fields(ReadStr(rest).value.1).value;
    }
  }

  /** What is printed is read back. */
  lemma PrintThenParse(k: SignInKey)
    requires Short(FieldsOf(k))
    ensures ParseOf(Container(k)) == Some(k)
    ensures MAGIC <= Container(k) && Spelled(MAGIC, "keyward sign-in key 1\n")
  {
    FieldsOfWritten(FieldsOf(k), []);
    assert Written(FieldsOf(k)) + [] == Written(FieldsOf(k));
    assert Container(k)[|MAGIC|..] == Written(FieldsOf(k));
    assert FieldsOf(k) + [] == FieldsOf(k);
  }

  /** What is accepted is the print of what was read: one container to a key. */
  lemma ParseThenPrint(d: seq<byte>)
    requires ParseOf(d).Some?
    ensures Container(ParseOf(d).value) == d && Short(FieldsOf(ParseOf(d).value))
  {
    WrittenOfFields(d[|MAGIC|..]);
    var parts := Fields(d[|MAGIC|..]).value;
    assert FieldsOf(ParseOf(d).value) == parts;
    assert d == MAGIC + d[|MAGIC|..];
  }

  /** Nothing accepted is a proper beginning of anything else accepted. */
  lemma NoContainerIsAPrefix(d: seq<byte>, longer: seq<byte>)
    requires ParseOf(d).Some? && ParseOf(longer).Some? && d <= longer
    ensures d == longer
  {
    ParseThenPrint(d);
    var k := ParseOf(d).value;
    var x := longer[|d|..];
    assert longer[|MAGIC|..] == Written(FieldsOf(k)) + x;
    FieldsOfWritten(FieldsOf(k), x);
  }
}
