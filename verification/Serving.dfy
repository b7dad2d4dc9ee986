/** One connection: frames in, frames out (daemon/src/agent.rs, `serve`). What the daemon
    makes of a payload, and what it remembers between payloads, is left open. */
module Serving {
  import opened Basics
  import opened Wire

  const MAX_MSG: nat := 0x10_0000

  type Handler<!S> = (S, seq<byte>) -> (S, seq<byte>)

  /** The payload at the front of the stream, if a whole one of an accepted length is there. */
  function NextPayload(input: seq<byte>): Option<(seq<byte>, seq<byte>)> {
    if |input| < 4 then None
    else
      var n := Word(input[..4]);
      if n == 0 || n > MAX_MSG || |input| - 4 < n then None else Some((input[4..4 + n], input[4 + n..]))
  }

  function Served<S>(handle: Handler<S>, state: S, input: seq<byte>): seq<byte>
    decreases |input|
  {
    match NextPayload(input)
    case None => []
    case Some((payload, rest)) =>
      var (state', reply) := handle(state, payload);
      Str(reply) + Served(handle, state', rest)
  }

  method Serve<S>(handle: Handler<S>, start: S, input: seq<byte>) returns (output: seq<byte>)
    ensures output == Served(handle, start, input)
  {
    output := [];
    var state := start;
    var rest := input;
    while true
      invariant Served(handle, start, input) == output + Served(handle, state, rest)
      decreases |rest|
    {
      if |rest| < 4 {
        return;
      }
      var n := Word(rest[..4]);
      if n == 0 || n > MAX_MSG {
        return;
      }
      if |rest| - 4 < n {
        return;
      }
      var payload := rest[4..4 + n];
      var (state', reply) := handle(state, payload);
      var framed := Frame(reply);
      assert NextPayload(rest) == Some((payload, rest[4 + n..]));
      assert output + (framed + Served(handle, state', rest[4 + n..])) == output + framed + Served(handle, state', rest[4 + n..]);
      output := output + framed;
      state := state';
      rest := rest[4 + n..];
    }
  }

  predicate Accepted(payload: seq<byte>) {
    1 <= |payload| <= 1_048_576
  }

  function Frames(payloads: seq<seq<byte>>): seq<byte> {
    if payloads == [] then [] else Str(payloads[0]) + Frames(payloads[1..])
  }

  /** One framed reply for each payload, in order. */
  function Replies<S>(handle: Handler<S>, state: S, payloads: seq<seq<byte>>): seq<seq<byte>> {
    if payloads == [] then []
    else
      var (state', reply) := handle(state, payloads[0]);
      [reply] + Replies(handle, state', payloads[1..])
  }

  lemma PayloadOfFrame(payload: seq<byte>, rest: seq<byte>)
    requires Accepted(payload)
    ensures NextPayload(Str(payload) + rest) == Some((payload, rest))
  {
    var t := Str(payload) + rest;
    assert t[..4] == Be32(|payload|);
    WordOfBe32(|payload|);
    assert t[4..4 + |payload|] == payload && t[4 + |payload|..] == rest;
  }

  lemma FrameOfPayload(input: seq<byte>)
    requires NextPayload(input).Some?
    ensures var (payload, rest) := NextPayload(input).value; Accepted(payload) && input == Str(payload) + rest
  {
    var n := Word(input[..4]);
    Be32OfWord(input[..4]);
    assert input == input[..4] + input[4..4 + n] + input[4 + n..];
  }

  /** The loop undoes `frame`: over framed payloads it gives each its one framed reply, in
      order, and nothing for a stream that goes on with no whole accepted frame. */
  lemma {:induction false} ServesEachOnce<S>(handle: Handler<S>, state: S, payloads: seq<seq<byte>>, tail: seq<byte>)
    requires forall i | 0 <= i < |payloads| :: Accepted(payloads[i])
    requires NextPayload(tail).None?
    ensures Served(handle, state, Frames(payloads) + tail) == Frames(Replies(handle, state, payloads))
    ensures |Replies(handle, state, payloads)| == |payloads|
  {
    if payloads == [] {
      assert Frames(payloads) + tail == tail;
    } else {
      var (state', reply) := handle(state, payloads[0]);
      var after := Frames(payloads[1..]) + tail;
      assert Frames(payloads) + tail == Str(payloads[0]) + after;
      PayloadOfFrame(payloads[0], after);
      ServesEachOnce(handle, state', payloads[1..], tail);
      var replies := Replies(handle, state, payloads);
      assert replies[0] == reply && replies[1..] == Replies(handle, state', payloads[1..]);
    }
  }

  /** Every stream is some accepted frames and then a place where the loop stops: the reply
      stream depends on nothing after that place. */
  lemma {:induction false} EveryStreamIsFrames(input: seq<byte>) returns (payloads: seq<seq<byte>>, tail: seq<byte>)
    ensures input == Frames(payloads) + tail && NextPayload(tail).None?
    ensures forall i | 0 <= i < |payloads| :: Accepted(payloads[i])
    decreases |input|
  {
    if NextPayload(input).None? {
      payloads, tail := [], input;
    } else {
      var (payload, rest) := NextPayload(input).value;
      FrameOfPayload(input);
      var more;
      more, tail := EveryStreamIsFrames(rest);
      payloads := [payload] + more;
      assert payloads[1..] == more;
      assert Str(payload) + (Frames(more) + tail) == Str(payload) + Frames(more) + tail;
    }
  }

  /** A zero or oversize length ends the connection: no reply to it, nor to anything after. */
  lemma BadLengthEndsIt<S>(handle: Handler<S>, state: S, length: nat, rest: seq<byte>)
    requires length < TWO_32 && (length == 0 || length > 1_048_576)
    ensures Served(handle, state, Be32(length) + rest) == []
  {
    WordOfBe32(length);
    assert (Be32(length) + rest)[..4] == Be32(length);
  }
}
