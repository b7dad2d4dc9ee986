/** The identities answer, written for ssh and read from the upstream agents
    (daemon/src/agent.rs, daemon/src/upstream.rs). A comment is kept as its bytes. */
module Identities {
  import opened Basics
  import opened Wire

  type Identity = (seq<byte>, seq<byte>)

  const IDENTITIES_ANSWER: byte := 12

  function Entries(ids: seq<Identity>): seq<byte> {
    if ids == [] then [] else Str(ids[0].0) + (Str(ids[0].1) + Entries(ids[1..]))
  }

  function Listing(ids: seq<Identity>): seq<byte> {
    [IDENTITIES_ANSWER] + (Be32(|ids|) + Entries(ids))
  }

  lemma {:induction false} EntriesAppend(ids: seq<Identity>, last: Identity)
    ensures Entries(ids + [last]) == Entries(ids) + Str(last.0) + Str(last.1)
  {
    if ids == [] {
      assert Entries([last]) == Str(last.0) + (Str(last.1) + Entries([]));
    } else {
      assert (ids + [last])[1..] == ids[1..] + [last];
      EntriesAppend(ids[1..], last);
    }
  }

  lemma Joined(a: seq<byte>, b: seq<byte>, c: seq<byte>, d: seq<byte>)
    ensures a + (b + c + d) == a + b + c + d
  {
  }

  method Answer(ids: seq<Identity>) returns (out: seq<byte>)
    ensures out == Listing(ids)
  {
    var w := new Writer();
    w.U8(IDENTITIES_ANSWER);
    w.U32(|ids|);
    ghost var head := w.buf;
    for i := 0 to |ids|
      invariant w.buf == head + Entries(ids[..i])
    {
      EntriesAppend(ids[..i], ids[i]);
      assert ids[..i] + [ids[i]] == ids[..i + 1];
      Joined(head, Entries(ids[..i]), Str(ids[i].0), Str(ids[i].1));
      w.String(ids[i].0);
      w.String(ids[i].1);
    }
    assert ids[..|ids|] == ids;
    assert head == [IDENTITIES_ANSWER] + Be32(|ids|);
    return w.buf;
  }

  /** The identity at the front of `rest`, if its key can be read; a comment that cannot is
      taken for an empty one. */
  function Next(rest: seq<byte>): Option<(Identity, seq<byte>)> {
    match ReadStr(rest)
    case None => None
    case Some((blob, rest1)) =>
      match ReadStr(rest1)
      case None => Some(((blob, []), PastLength(rest1)))
      case Some((comment, rest2)) => Some(((blob, comment), rest2))
  }

  /** At most `count` identities, stopping at the first that cannot be read. */
  function Parse(count: nat, rest: seq<byte>): seq<Identity> {
    if count == 0 || Next(rest).None? then []
    else [Next(rest).value.0] + Parse(count - 1, Next(rest).value.1)
  }

  function ParseReply(reply: seq<byte>): seq<Identity> {
    if reply == [] || reply[0] != IDENTITIES_ANSWER || |reply| < 5 then []
    else Parse(Word(reply[1..5]), reply[5..])
  }

  /** One turn of the loop leaves what is read in all as it was. */
  lemma ParseStep(out: seq<Identity>, count: nat, rest: seq<byte>)
    requires count > 0
    ensures Next(rest).None? ==> out + Parse(count, rest) == out
    ensures Next(rest).Some? ==>
      out + Parse(count, rest) == out + [Next(rest).value.0] + Parse(count - 1, Next(rest).value.1)
  {
  }

  lemma Header(reply: seq<byte>)
    requires reply != [] && reply[0] == IDENTITIES_ANSWER
    ensures ParseReply(reply) == if |reply[1..]| < 4 then [] else Parse(Word(reply[1..][..4]), reply[1..][4..])
  {
    if |reply| >= 5 {
      assert reply[1..][..4] == reply[1..5] && reply[1..][4..] == reply[5..];
    }
  }

  /** One turn of the loop: nothing when the key cannot be read. */
  method ReadNext(r: Reader) returns (id: Option<Identity>)
    requires r.Valid()
    modifies r`pos
    ensures r.Valid()
    ensures var next := Next(old(r.Rest()));
      if next.None? then id == None else id == Some(next.value.0) && r.Rest() == next.value.1
  {
    var blob := r.String();
    if blob.None? {
      return None;
    }
    var comment := r.String();
    id := Some((blob.value, match comment case None => [] case Some(c) => c));
  }

  method ReadReply(reply: seq<byte>) returns (out: seq<Identity>)
    ensures out == ParseReply(reply)
    ensures reply == [] || reply[0] != 12 ==> out == []
  {
    var r := new Reader(reply);
    var kind := r.U8();
    if kind != Some(IDENTITIES_ANSWER) {
      return [];
    }
    Header(reply);
    var declared := r.U32();
    var count := match declared case None => 0 case Some(n) => n;
    ghost var all := Parse(count, r.Rest());
    assert all == ParseReply(reply);
    out := [];
    for i := 0 to count
      invariant r.Valid()
      invariant all == out + Parse(count - i, r.Rest())
    {
      ParseStep(out, count - i, r.Rest());
      var id := ReadNext(r);
      if id.None? {
        return;
      }
      out := out + [id.value];
    }
  }

  predicate Fits(ids: seq<Identity>) {
    |ids| < TWO_32 && forall i | 0 <= i < |ids| :: |ids[i].0| < TWO_32 && |ids[i].1| < TWO_32
  }

  lemma NextOfEntry(id: Identity, rest: seq<byte>)
    requires |id.0| < TWO_32 && |id.1| < TWO_32
    ensures Next(Str(id.0) + (Str(id.1) + rest)) == Some((id, rest))
  {
    StrRoundTrip(id.0, Str(id.1) + rest);
    StrRoundTrip(id.1, rest);
  }

  lemma ParseOne(count: nat, id: Identity, tail: seq<byte>)
    requires count > 0 && |id.0| < TWO_32 && |id.1| < TWO_32
    ensures Parse(count, Str(id.0) + (Str(id.1) + tail)) == [id] + Parse(count - 1, tail)
  {
    NextOfEntry(id, tail);
  }

  lemma EntriesCons(ids: seq<Identity>, rest: seq<byte>)
    requires ids != []
    ensures Entries(ids) + rest == Str(ids[0].0) + (Str(ids[0].1) + (Entries(ids[1..]) + rest))
  {
  }

  lemma {:induction false} EntriesThen(ids: seq<Identity>, count: nat, rest: seq<byte>)
    requires Fits(ids) && count >= |ids|
    ensures Parse(count, Entries(ids) + rest) == ids + Parse(count - |ids|, rest)
  {
    if ids == [] {
      assert Entries(ids) + rest == rest;
      assert ids + Parse(count, rest) == Parse(count, rest);
    } else {
      EntriesCons(ids, rest);
      ParseOne(count, ids[0], Entries(ids[1..]) + rest);
      EntriesThen(ids[1..], count - 1, rest);
      HeadAndRest(ids, Parse(count - |ids|, rest));
    }
  }

  lemma HeadAndRest(ids: seq<Identity>, more: seq<Identity>)
    requires ids != []
    ensures [ids[0]] + (ids[1..] + more) == ids + more
  {
  }

  lemma EntriesRoundTrip(ids: seq<Identity>, rest: seq<byte>)
    requires Fits(ids)
    ensures Parse(|ids|, Entries(ids) + rest) == ids
  {
    EntriesThen(ids, |ids|, rest);
  }

  /** An answer cut short within a key, whatever count it declares: the identities before. */
  lemma CutInAKey(ids: seq<Identity>, count: nat, tail: seq<byte>)
    requires Fits(ids) && count >= |ids| && ReadStr(tail).None?
    ensures Parse(count, Entries(ids) + tail) == ids
  {
    EntriesThen(ids, count, tail);
  }

  /** Cut short within a comment: its key is listed with an empty one. */
  lemma CutInAComment(ids: seq<Identity>, blob: seq<byte>, tail: seq<byte>)
    requires Fits(ids) && |blob| < TWO_32 && ReadStr(tail).None?
    ensures Parse(|ids| + 1, Entries(ids) + (Str(blob) + tail)) == ids + [(blob, [])]
  {
    EntriesThen(ids, |ids| + 1, Str(blob) + tail);
    StrRoundTrip(blob, tail);
    assert Parse(0, PastLength(tail)) == [];
  }

  lemma ListingParts(ids: seq<Identity>)
    ensures var reply := Listing(ids);
      |reply| >= 5 && reply[0] == IDENTITIES_ANSWER && reply[1..5] == Be32(|ids|) && reply[5..] == Entries(ids) + []
  {
    ThreeParts([IDENTITIES_ANSWER], Be32(|ids|), Entries(ids));
  }

  lemma ThreeParts(a: seq<byte>, b: seq<byte>, c: seq<byte>)
    ensures var whole := a + (b + c);
      whole[..|a|] == a && whole[|a|..|a| + |b|] == b && whole[|a| + |b|..] == c + []
  {
  }

  /** What one daemon lists, another reads back. */
  lemma ListingRoundTrip(ids: seq<Identity>)
    requires Fits(ids)
    ensures ParseReply(Listing(ids)) == ids && Listing(ids)[0] == 12
  {
    EntriesRoundTrip(ids, []);
    ListingParts(ids);
    WordOfBe32(|ids|);
  }

  /** Bytes the identities themselves take. */
  function Weight(ids: seq<Identity>): nat {
    if ids == [] then 0 else 4 + |ids[0].0| + |ids[0].1| + Weight(ids[1..])
  }

  lemma WeightCons(id: Identity, ids: seq<Identity>)
    ensures Weight([id] + ids) == 4 + |id.0| + |id.1| + Weight(ids)
  {
    assert ([id] + ids)[1..] == ids;
  }

  lemma NextWeight(rest: seq<byte>)
    requires Next(rest).Some?
    ensures var (id, after) := Next(rest).value; 4 + |id.0| + |id.1| + |after| <= |rest|
  {
  }

  lemma {:induction false} ParseWeight(count: nat, rest: seq<byte>)
    ensures Weight(Parse(count, rest)) <= |rest| && |Parse(count, rest)| <= count
  {
    if count > 0 && Next(rest).Some? {
      NextWeight(rest);
      ParseWeight(count - 1, Next(rest).value.1);
      WeightCons(Next(rest).value.0, Parse(count - 1, Next(rest).value.1));
    }
  }

  /** Whatever count a reply declares, what is read out of it weighs no more than the reply
      does: four bytes and the key and comment for each, after the five that come first. */
  lemma ReplyBoundsItsIdentities(reply: seq<byte>)
    ensures ParseReply(reply) != [] ==> Weight(ParseReply(reply)) <= |reply| - 5
  {
    if |reply| >= 5 {
      ParseWeight(Word(reply[1..5]), reply[5..]);
    }
  }
}
