/** Two readings of the same ssh command line: where it goes, and what it runs there
    (daemon/src/attrib.rs, daemon/src/purpose.rs). */
module SshArgs {
  import opened Basics

  /** The flags that take the next argument, as the attribution lists them. */
  const TAKES_ARG := [
    "-o", "-i", "-p", "-l", "-F", "-b", "-c", "-D", "-E", "-e", "-I", "-J", "-L", "-m", "-O",
    "-Q", "-R", "-S", "-W", "-w"]

  /** The same, as the purpose lists them. */
  const SSH_TAKES_ARG := [
    "-o", "-i", "-p", "-l", "-F", "-b", "-c", "-D", "-E", "-e", "-I", "-J", "-L", "-m", "-O", "-Q",
    "-R", "-S", "-W", "-w"]

  predicate IsFlag(a: string) {
    a != "" && a[0] == '-'
  }

  /** Where the destination stands, reading from `i`; flags in `taking` skip one more. */
  function Destination(args: seq<string>, i: nat, taking: seq<string>): (d: Option<nat>)
    ensures d.Some? ==> i <= d.value < |args| && args[d.value] !in taking && !IsFlag(args[d.value])
    decreases |args| - i
  {
    if i >= |args| then None
    else if args[i] in taking then Destination(args, i + 2, taking)
    else if IsFlag(args[i]) then Destination(args, i + 1, taking)
    else Some(i)
  }

  method DestinationFrom(args: seq<string>) returns (dest: Option<string>)
    ensures var d := Destination(args, 1, TAKES_ARG); dest == if d.None? then None else Some(args[d.value])
  {
    var it := if |args| == 0 then 0 else 1;
    while it < |args|
      invariant it <= |args| && Destination(args, 1, TAKES_ARG) == Destination(args, it, TAKES_ARG)
    {
      var a := args[it];
      it := it + 1;
      if a in TAKES_ARG {
        if it < |args| {
          it := it + 1;
        }
        continue;
      }
      if IsFlag(a) {
        continue;
      }
      return Some(a);
    }
    return None;
  }

  function Joined(words: seq<string>): string {
    if words == [] then ""
    else if |words| == 1 then words[0]
    else words[0] + " " + Joined(words[1..])
  }

  method SplitSsh(args: seq<string>) returns (dest: Option<string>, cmd: Option<string>)
    ensures var d := Destination(args, 1, SSH_TAKES_ARG);
      && dest == (if d.None? then None else Some(args[d.value]))
      && cmd == (if d.None? || d.value + 1 == |args| then None else Some(Joined(args[d.value + 1..])))
  {
    var i := 1;
    dest := None;
    ghost var d := Destination(args, 1, SSH_TAKES_ARG);
    while i < |args|
      invariant dest.None? ==> d == Destination(args, i, SSH_TAKES_ARG)
      invariant dest.Some? ==> d.Some? && dest.value == args[d.value] && i == d.value + 1
      decreases |args| - i
    {
      var a := args[i];
      if dest.None? {
        if a in SSH_TAKES_ARG {
          i := i + 2;
          continue;
        }
        if IsFlag(a) {
          i := i + 1;
          continue;
        }
        dest := Some(a);
        i := i + 1;
        continue;
      }
      break;
    }
    var rest := if i <= |args| then args[i..] else [];
    cmd := if rest == [] then None else Some(Joined(rest));
  }

  /** The flags that take an argument are the same on both lists. */
  lemma FlagsThatTake(f: string)
    ensures f in TAKES_ARG <==> |f| == 2 && f[0] == '-' && f[1] in "oiplFbcDEeIJLmOQRSWw"
    ensures f in SSH_TAKES_ARG <==> f in TAKES_ARG
  {
    if |f| == 2 && f[0] == '-' {
      assert f == ['-', f[1]];
    }
  }

  /** Reading from `i` a flag at a time, two words for one that takes an argument and one for
      any other, comes to `end`. */
  predicate ReadTo(args: seq<string>, i: nat, at: seq<nat>, end: nat, taking: seq<string>) {
    && |at| > 0 && at[0] == i && at[|at| - 1] == end
    && (forall k | 0 <= k < |at| - 1 :: at[k] < |args|)
    && (forall k | 0 <= k < |at| - 1 :: args[at[k]] in taking ==> at[k + 1] == at[k] + 2)
    && (forall k | 0 <= k < |at| - 1 :: args[at[k]] !in taking ==>
          args[at[k]] != "" && args[at[k]][0] == '-' && at[k + 1] == at[k] + 1)
  }

  predicate Operand(a: string, taking: seq<string>) {
    a !in taking && (a == "" || a[0] != '-')
  }

  lemma {:induction false} DestinationIsReadTo(args: seq<string>, i: nat, taking: seq<string>) returns (at: seq<nat>, end: nat)
    ensures ReadTo(args, i, at, end, taking)
    ensures Destination(args, i, taking) == if end < |args| then Some(end) else None
    ensures end < |args| ==> Operand(args[end], taking)
    decreases |args| - i
  {
    if i < |args| && !Operand(args[i], taking) {
      var rest;
      rest, end := DestinationIsReadTo(args, if args[i] in taking then i + 2 else i + 1, taking);
      at := [i] + rest;
    } else {
      at, end := [i], i;
    }
  }

  lemma {:induction false} ReadToIsDestination(args: seq<string>, i: nat, at: seq<nat>, end: nat, taking: seq<string>)
    requires ReadTo(args, i, at, end, taking) && (end < |args| ==> Operand(args[end], taking))
    ensures Destination(args, i, taking) == if end < |args| then Some(end) else None
    decreases |at|
  {
    if |at| > 1 {
      assert at[1..][|at| - 2] == end;
      ReadToIsDestination(args, at[1], at[1..], end, taking);
    }
  }

  /** The destination stands at `d` exactly if reading flag by flag comes to an operand there,
      and there is none exactly if it comes to the end. */
  lemma TheDestination(args: seq<string>, i: nat, taking: seq<string>, d: nat)
    ensures Destination(args, i, taking) == Some(d) <==>
      d < |args| && Operand(args[d], taking) && exists at :: ReadTo(args, i, at, d, taking)
    ensures Destination(args, i, taking) == None <==> exists at, end: nat :: end >= |args| && ReadTo(args, i, at, end, taking)
  {
    var at, end := DestinationIsReadTo(args, i, taking);
    if d < |args| && Operand(args[d], taking) && exists at :: ReadTo(args, i, at, d, taking) {
      var there :| ReadTo(args, i, there, d, taking);
      ReadToIsDestination(args, i, there, d, taking);
    }
    if there, last: nat :| last >= |args| && ReadTo(args, i, there, last, taking) {
      ReadToIsDestination(args, i, there, last, taking);
    }
  }

  /** Words are joined by one space each, and a single word is itself. */
  lemma {:induction false} WordsJoined(a: seq<string>, b: seq<string>)
    requires a != [] && b != []
    ensures Joined(a + b) == Joined(a) + " " + Joined(b)
    ensures |a| == 1 ==> Joined(a) == a[0]
  {
    assert (a + b)[1..] == a[1..] + b;
    if |a| > 1 {
      WordsJoined(a[1..], b);
      assert a[0] + " " + (Joined(a[1..]) + " " + Joined(b)) == a[0] + " " + Joined(a[1..]) + " " + Joined(b);
    }
  }

  /** What the destination is: the first word that is neither a flag nor the argument of a
      flag that takes one, and with no destination there is no such word. */
  lemma {:induction false} BeforeTheDestination(args: seq<string>, i: nat, taking: seq<string>)
    ensures var d := Destination(args, i, taking);
      forall k | i <= k < (if d.Some? then d.value else |args|) :: Passed(args, i, k, taking)
    decreases |args| - i
  {
    if i < |args| {
      var next := if args[i] in taking then i + 2 else i + 1;
      if args[i] in taking || IsFlag(args[i]) {
        BeforeTheDestination(args, next, taking);
        var d := Destination(args, i, taking);
        forall k | i <= k < (if d.Some? then d.value else |args|) ensures Passed(args, i, k, taking) {
          assert k >= next ==> Passed(args, next, k, taking);
        }
      }
    }
  }

  /** The word at `k` is a flag, or the argument of the flag before it. */
  predicate Passed(args: seq<string>, i: nat, k: nat, taking: seq<string>)
    requires k < |args|
  {
    args[k] in taking || IsFlag(args[k]) || (k > i && args[k - 1] in taking)
  }

  /** The two readings agree on every command line: the destination is the first operand,
      and the remote command is exactly the words after it, if there are any. */
  method BothReadings(args: seq<string>) returns (attributed: Option<string>, purposed: Option<string>, cmd: Option<string>)
    ensures attributed == purposed
    ensures var d := Destination(args, 1, TAKES_ARG);
      && (attributed.Some? <==> d.Some?) && (d.Some? ==> attributed.value == args[d.value])
      && (cmd.Some? <==> d.Some? && d.value + 1 < |args|)
      && (cmd.Some? ==> cmd.value == Joined(args[d.value + 1..]))
      && forall k | 1 <= k < (if d.Some? then d.value else |args|) :: Passed(args, 1, k, TAKES_ARG)
  {
    attributed := DestinationFrom(args);
    purposed, cmd := SplitSsh(args);
    BeforeTheDestination(args, 1, TAKES_ARG);
  }
}
