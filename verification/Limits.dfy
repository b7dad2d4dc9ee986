/** Where the promises stop, by runs that show it. */
module Limits {
  import opened Basics
  import opened Seconds
  import opened Approval
  import opened Protocol
  import opened Records
  import opened Cache
  import opened Runs

  const HERE := Scope(None, None, None)
  const THIS_PLACE := Place(HERE)

  const YES := Choice(true, Unlocked, true, Everywhere)
  const NO := Choice(true, Unlocked, false, Everywhere)
  const NO_CLOCK := Choice(false, Unlocked, true, Everywhere)
  const LOCKED := Choice(true, Locked, true, Everywhere)

  lemma Starts(c: Config) returns (o: State)
    ensures Reachable(c, o) && Leads(c, o, o) && Init(o) && o.m.now == 0.0 && o.m.looked.at == Val(0.0)
  {
    o := State(Memory(0.0, map[], 0, Look(Val(0.0), Unlocked), Nobody, Free, map[], map[], map[], []), map[], Sleeping);
    StartIsReachable(c, o);
    Here(c, o);
  }

  // ---- a plain key and a clock that once cannot be read

  /** Places approved one by one for five minutes. */
  const PLAIN := Config(true, ZERO, Val(300.0), false)

  /** Nobody past the gate, the clock at zero, and one approval, opened at zero. */
  ghost predicate OpenedHere(s: State) {
    && s.m.gate.Free? && s.m.looking.Nobody? && s.m.now == 0.0
    && s.m.approved == map[THIS_PLACE := Val(0.0)]
  }

  /** A request arrives, takes the gate, and is decided with `ch` as its clock. */
  lemma PlainIsDecided(o: State, s: State, id: nat, ch: Choice) returns (s': State)
    requires Leads(PLAIN, o, s) && id !in s.reqs && s.m.gate.Free?
    ensures Leads(PLAIN, o, s') && s'.reqs.Keys == s.reqs.Keys + {id} && s'.reqs[id].place == HERE
    ensures (s'.m, s'.reqs[id].pc) ==
      Decide(PLAIN, Log(s.m, Loaded(id)).(gate := Taken(Request(id))), id, HERE,
             Deciding(false, s.m.signOuts, |s.m.history|), Clock(s.m, ch))
  {
    s' := Arrives(PLAIN, o, s, id, HERE);
    s' := Moves(PLAIN, o, s', id, YES);
    s' := Moves(PLAIN, o, s', id, YES);
    s' := Moves(PLAIN, o, s', id, ch);
  }

  /** Decided as not covered, with nothing else to release: the context is dropped, made
      afresh, and Touch ID is asked. */
  lemma PlainAsks(o: State, s: State, id: nat) returns (s': State)
    requires Leads(PLAIN, o, s) && id in s.reqs && s.m.gate == Taken(Request(id))
    requires s.reqs[id].pc.Releasing? && s.reqs[id].pc.todo == {}
    requires var job := s.reqs[id].pc.job; !job.live && !job.refused && job.reach == THIS_PLACE
    ensures Leads(PLAIN, o, s') && s'.reqs.Keys == s.reqs.Keys && id in s'.reqs
    ensures s'.reqs[id].pc == InEnclave(s.reqs[id].pc.job, Asking)
    ensures s'.m == Log(s.m, Built(id, THIS_PLACE, false)).(held := s.m.held[THIS_PLACE := id], secrets := s'.m.secrets)
  {
    s' := Moves(PLAIN, o, s, id, YES);
    s' := Moves(PLAIN, o, s', id, YES);
    s' := Moves(PLAIN, o, s', id, YES);
    assert (s.m.held - {THIS_PLACE})[THIS_PLACE := id] == s.m.held[THIS_PLACE := id];
  }

  /** Its Touch ID is given, and it is admitted: an opening, stamped zero. */
  lemma PlainIsAdmitted(o: State, s: State, id: nat) returns (s': State)
    requires Leads(PLAIN, o, s) && id in s.reqs && s.reqs[id].pc.InEnclave? && s.reqs[id].pc.enclave == Asking
    requires s.m.looking.Nobody? && s.m.now == 0.0 && s.m.approved.Keys <= {THIS_PLACE}
    requires s.m.held.Keys == {THIS_PLACE}
    requires var job := s.reqs[id].pc.job; !job.live && job.reach == THIS_PLACE && job.counted == s.m.signOuts
    ensures Leads(PLAIN, o, s') && s'.reqs.Keys == s.reqs.Keys && OpenedHere(s') && s'.m.held.Keys == {THIS_PLACE}
    ensures var n := |s.m.history|; |s'.m.history| == n + 4 && s'.m.history[..n] == s.m.history
    ensures Opens(s'.m.history[|s.m.history| + 2], THIS_PLACE) && s'.m.history[|s.m.history| + 2].at == Val(0.0)
    ensures forall k | |s.m.history| <= k < |s'.m.history| :: !s'.m.history[k].Ended?
  {
    s' := Moves(PLAIN, o, s, id, YES);
    s' := Moves(PLAIN, o, s', id, YES);
    s' := Moves(PLAIN, o, s', id, YES);
    s' := Moves(PLAIN, o, s', id, YES);
  }

  lemma PlainBegins(o: State) returns (s: State)
    requires Leads(PLAIN, o, o) && Init(o) && o.m.now == 0.0
    ensures Leads(PLAIN, o, s) && s.reqs.Keys == {1} && s.reqs[1].pc.InEnclave? && s.reqs[1].pc.enclave == Asking
    ensures var job := s.reqs[1].pc.job; !job.live && job.reach == THIS_PLACE && job.counted == s.m.signOuts
    ensures s.m.looking.Nobody? && s.m.now == 0.0 && s.m.approved == map[] && s.m.held.Keys == {THIS_PLACE}
    ensures s.m.history == [Loaded(1), Decided(1, THIS_PLACE, Val(0.0), false), Built(1, THIS_PLACE, false)]
  {
    s := PlainIsDecided(o, o, 1, YES);
    assert s.reqs[1].pc.todo == {};
    s := PlainAsks(o, s, 1);
    assert s.m.approved == map[];
  }

  /** The first request finds nothing, asks, signs, and opens an approval. */
  lemma PlainOpens(o: State) returns (s: State)
    requires Leads(PLAIN, o, o) && Init(o) && o.m.now == 0.0
    ensures Leads(PLAIN, o, s) && s.reqs.Keys == {1} && OpenedHere(s) && s.m.held.Keys == {THIS_PLACE}
    ensures |s.m.history| == 7 && Opens(s.m.history[5], THIS_PLACE) && s.m.history[5].at == Val(0.0) && !s.m.history[6].Ended?
  {
    s := PlainBegins(o);
    s := PlainIsAdmitted(o, s, 1);
  }

  /** The second cannot read the clock, so it drops the context and asks. */
  lemma PlainCannotTell(o: State, s: State) returns (s': State)
    requires Leads(PLAIN, o, s) && s.reqs.Keys == {1} && OpenedHere(s) && s.m.held.Keys == {THIS_PLACE}
    ensures Leads(PLAIN, o, s') && s'.reqs.Keys == {1, 2} && s'.m.gate == Taken(Request(2))
    ensures s'.reqs[2].pc.InEnclave? && s'.reqs[2].pc.enclave == Asking
    ensures var job := s'.reqs[2].pc.job; !job.live && job.reach == THIS_PLACE && job.counted == s'.m.signOuts
    ensures s'.m.looking.Nobody? && s'.m.now == 0.0
    ensures s'.m.approved == map[THIS_PLACE := Val(0.0)] && s'.m.held.Keys == {THIS_PLACE}
    ensures s'.m.history == s.m.history + [Loaded(2), Decided(2, THIS_PLACE, NaN, false), Built(2, THIS_PLACE, false)]
  {
    s' := PlainIsDecided(o, s, 2, NO_CLOCK);
    assert s'.reqs[2].pc.todo == {};
    assert s'.m.approved == s.m.approved;
    s' := PlainAsks(o, s', 2);
  }

  /** It is declined: the approval stands, and its context is gone. */
  lemma PlainIsDeclined(o: State, s: State) returns (s': State)
    requires Leads(PLAIN, o, s) && s.reqs.Keys == {1, 2} && s.reqs[2].pc.InEnclave? && s.reqs[2].pc.enclave == Asking
    requires s.m.looking.Nobody? && s.m.now == 0.0
    requires s.m.approved == map[THIS_PLACE := Val(0.0)] && s.m.held.Keys == {THIS_PLACE}
    requires var job := s.reqs[2].pc.job; !job.live && job.reach == THIS_PLACE
    ensures Leads(PLAIN, o, s') && s'.reqs.Keys == {1, 2} && OpenedHere(s') && s'.m.held == map[]
  {
    s' := Moves(PLAIN, o, s, 2, NO);
    s' := Moves(PLAIN, o, s', 2, YES);
    s' := Moves(PLAIN, o, s', 2, YES);
    s' := Moves(PLAIN, o, s', 2, YES);
    s' := Moves(PLAIN, o, s', 2, YES);
  }

  /** The third reads the clock again, is counted as riding, and asks all the same. */
  lemma PlainAsksARider(o: State, s: State) returns (s': State)
    requires Leads(PLAIN, o, s) && s.reqs.Keys == {1, 2} && OpenedHere(s) && s.m.held == map[]
    ensures Leads(PLAIN, o, s') && |s'.m.history| > 0
    ensures s'.m.history[|s'.m.history| - 1] == Asked(3, THIS_PLACE, true, true)
  {
    s' := PlainIsDecided(o, s, 3, YES);
    assert s'.reqs[3].pc.todo == {};
    s' := RidingAsks(o, s', 3);
  }

  lemma RidingAsks(o: State, s: State, id: nat) returns (s': State)
    requires Leads(PLAIN, o, s) && id in s.reqs && THIS_PLACE !in s.m.held
    requires s.reqs[id].pc.Releasing? && s.reqs[id].pc.todo == {}
    requires var job := s.reqs[id].pc.job; job.live && !job.refused && job.reach == THIS_PLACE
    ensures Leads(PLAIN, o, s')
    ensures s'.m.history == s.m.history + [Built(id, THIS_PLACE, true), Asked(id, THIS_PLACE, true, true)]
  {
    s' := Moves(PLAIN, o, s, id, YES);
    s' := Moves(PLAIN, o, s', id, YES);
    s' := Moves(PLAIN, o, s', id, YES);
  }

  /** Why `RidersAreSilent` and `PlainHeldIsApproved` ask for a clock that reads: with a
      plain key, one reading that fails leaves an approval without its context, and then a
      request the log calls reused raises a sheet. */
  lemma AnUnreadableClockCanMakeARiderAsk()
    ensures exists s, r :: Reachable(PLAIN, s) && s.m.gate.Free? && r in s.m.approved && r !in s.m.held
    ensures exists s, k :: Reachable(PLAIN, s) && 0 <= k < |s.m.history| && s.m.history[k] == Asked(3, THIS_PLACE, true, true)
  {
    var o := Starts(PLAIN);
    var s := PlainOpens(o);
    s := PlainCannotTell(o, s);
    s := PlainIsDeclined(o, s);
    LeadsOn(PLAIN, o, s);
    assert THIS_PLACE in s.m.approved && THIS_PLACE !in s.m.held;
    s := PlainAsksARider(o, s);
    LeadsOn(PLAIN, o, s);
    var k := |s.m.history| - 1;
    assert s.m.history[k] == Asked(3, THIS_PLACE, true, true);
  }

  /** Why the prompt rate asks for one: two openings of the same reach at the same moment,
      with no sign-out between them. */
  lemma AnUnreadableClockCanOpenTwice()
    ensures exists s, i, j :: Reachable(PLAIN, s) && 0 <= i < j < |s.m.history| && NoEnd(s.m.history, i, j)
              && Opens(s.m.history[i], THIS_PLACE) && Opens(s.m.history[j], THIS_PLACE)
              && s.m.history[i].at == Val(0.0) && s.m.history[j].at == Val(0.0)
  {
    var o := Starts(PLAIN);
    var first := PlainOpens(o);
    var s := PlainCannotTell(o, first);
    var asked := s;
    s := PlainIsAdmitted(o, s, 2);
    LeadsOn(PLAIN, o, s);
    var j := |asked.m.history| + 2;
    assert s.m.history[5] == s.m.history[..|asked.m.history|][5] == first.m.history[5];
    forall k | 5 < k < j ensures !s.m.history[k].Ended? {
      if k < |asked.m.history| {
        assert s.m.history[k] == s.m.history[..|asked.m.history|][k];
      }
    }
    assert NoEnd(s.m.history, 5, j);
  }

  // ---- a sign-in key and a sign-out that is only half done

  /** Signed in for an hour, or until the screen locks. */
  const SIGN_IN := Config(true, Val(3600.0), ZERO, true)

  /** What stays so while the watch is between the two halves of its sign-out. */
  predicate HalfSignedOut(s: State) {
    && s.reqs.Keys == {1} && s.m.gate == Taken(Request(1)) && s.watch == WatchLooking
    && s.m.approved == map[] && s.m.held == map[] && s.m.now == 0.0
    && s.m.looking.Looker? && s.m.looking.who == Watch && s.m.looking.stage == Wiping
    && s.m.looked == Look(Val(0.0), Locked)
  }

  /** A request takes the gate and sees an unlocked screen. */
  lemma SignInEnters(o: State, s: State, id: nat) returns (s': State)
    requires Leads(SIGN_IN, o, s) && id !in s.reqs && s.m.gate.Free? && s.m.looking.Nobody? && s.m.now == 0.0
    requires s.m.looked == Look(Val(0.0), Unlocked)
    ensures Leads(SIGN_IN, o, s') && s'.reqs.Keys == s.reqs.Keys + {id} && s'.watch == s.watch
    ensures s'.reqs[id] == Req(HERE, Loading(false))
    ensures s'.m == Log(s.m, Looked(Request(id), Val(0.0), Val(0.0), Unlocked)).(gate := Taken(Request(id)))
  {
    s' := Arrives(SIGN_IN, o, s, id, HERE);
    s' := Moves(SIGN_IN, o, s', id, YES);
    s' := Moves(SIGN_IN, o, s', id, YES);
    assert s'.m.looking.stage == Leaving;
    s' := Moves(SIGN_IN, o, s', id, YES);
  }

  /** Before the first request reads the count, the watch sees a locked screen and ends the
      approvals. */
  lemma SignOutBegins(o: State) returns (s: State)
    requires Leads(SIGN_IN, o, o) && Init(o) && o.m.now == 0.0 && o.m.looked.at == Val(0.0)
    ensures Leads(SIGN_IN, o, s) && HalfSignedOut(s) && s.reqs[1] == Req(HERE, Loading(false)) && s.m.secrets == map[]
  {
    s := SignInEnters(o, o, 1);
    s := WatchMoves(SIGN_IN, o, s, YES);
    s := WatchMoves(SIGN_IN, o, s, LOCKED);
    s := WatchMoves(SIGN_IN, o, s, YES);
  }

  /** The request reads the count and is decided with `ch` as its clock; nothing has run out,
      and nothing covers it. */
  lemma SignInIsDecided(o: State, s: State, id: nat, ch: Choice) returns (s': State)
    requires Leads(SIGN_IN, o, s) && id in s.reqs && s.reqs[id] == Req(HERE, Loading(false)) && s.m.now == 0.0
    requires s.m.approved == map[] || (s.m.approved == map[Everywhere := Val(0.0)] && !ch.readable)
    ensures Leads(SIGN_IN, o, s') && s'.reqs.Keys == s.reqs.Keys && s'.watch == s.watch
    ensures s'.reqs[id].pc.InEnclave? && s'.reqs[id].pc.enclave == Reading
    ensures var job := s'.reqs[id].pc.job; !job.live && job.reach == Everywhere && job.counted == s'.m.signOuts
    ensures s'.m == s.m.(origin := s'.m.origin, held := s.m.held - {Everywhere}, secrets := s.m.secrets - {Everywhere},
                         history := s.m.history + [Loaded(id), Decided(id, Everywhere, Clock(s.m, ch), false)])
  {
    s' := Moves(SIGN_IN, o, s, id, YES);
    s' := Moves(SIGN_IN, o, s', id, ch);
    assert s'.reqs[id].pc.Releasing? && !s'.reqs[id].pc.job.live;
    assert s'.reqs[id].pc.todo == {};
    assert s'.m.approved == s.m.approved;
    s' := Moves(SIGN_IN, o, s', id, YES);
    s' := Moves(SIGN_IN, o, s', id, YES);
  }

  /** It signs in, and its secret is kept. */
  lemma SignInKeeps(o: State, s: State, id: nat) returns (s': State)
    requires Leads(SIGN_IN, o, s) && id in s.reqs && s.reqs[id].pc.InEnclave? && s.reqs[id].pc.enclave == Reading
    requires !s.reqs[id].pc.job.live && s.reqs[id].pc.job.reach == Everywhere && Everywhere !in s.m.secrets
    ensures Leads(SIGN_IN, o, s') && s'.reqs.Keys == s.reqs.Keys && s'.watch == s.watch
    ensures s'.reqs[id].pc == InEnclave(s.reqs[id].pc.job, Making)
    ensures s'.m == s.m.(secrets := s.m.secrets[Everywhere := id],
                         history := s.m.history + [Asked(id, Everywhere, false, true), Kept(id, Everywhere)])
  {
    s' := Moves(SIGN_IN, o, s, id, YES);
    s' := Moves(SIGN_IN, o, s', id, YES);
    s' := Moves(SIGN_IN, o, s', id, YES);
    s' := Moves(SIGN_IN, o, s', id, YES);
  }

  /** The second look finds the screen as it was, and the request goes on. */
  lemma SignInLooksAgain(o: State, s: State, id: nat) returns (s': State)
    requires Leads(SIGN_IN, o, s) && id in s.reqs && s.reqs[id].pc.SecondLook? && s.m.looking.Nobody? && s.m.now == 0.0
    requires s.m.looked.at == Val(0.0)
    ensures Leads(SIGN_IN, o, s') && s'.reqs.Keys == s.reqs.Keys && s'.watch == s.watch
    ensures s'.m == Log(s.m, Looked(Request(id), Val(0.0), Val(0.0), Unlocked)).(looked := Look(Val(0.0), Unlocked))
    ensures s'.reqs[id].pc == if s.reqs[id].pc.made then Admitting(s.reqs[id].pc.job.(lookedAt := |s.m.history|))
                              else Failing(s.reqs[id].pc.job)
  {
    s' := Moves(SIGN_IN, o, s, id, YES);
    assert s'.m.looking.stage == Leaving;
    s' := Moves(SIGN_IN, o, s', id, YES);
  }

  /** A signature is made, and the request is admitted. */
  lemma SignInIsAdmitted(o: State, s: State, id: nat) returns (s': State)
    requires Leads(SIGN_IN, o, s) && id in s.reqs && s.reqs[id].pc.InEnclave? && s.reqs[id].pc.enclave == Making
    requires s.m.looking.Nobody? && s.m.now == 0.0 && s.m.looked.at == Val(0.0) && s.m.approved == map[]
    requires var job := s.reqs[id].pc.job; !job.live && job.reach == Everywhere && job.counted == s.m.signOuts
    ensures Leads(SIGN_IN, o, s') && s'.reqs.Keys == s.reqs.Keys && s'.watch == s.watch
    ensures s'.m.gate.Free? && s'.m.looking.Nobody? && s'.m.now == 0.0 && s'.m.looked == Look(Val(0.0), Unlocked)
    ensures s'.m.approved == map[Everywhere := Val(0.0)] && s'.m.secrets == s.m.secrets && s'.m.held == s.m.held
    ensures s'.m.signOuts == s.m.signOuts
    ensures forall k | 0 <= k < |s'.m.history| && s'.m.history[k].Ended? :: k < |s.m.history| && s.m.history[k].Ended?
  {
    s' := Moves(SIGN_IN, o, s, id, YES);
    s' := SignInLooksAgain(o, s', id);
    s' := Moves(SIGN_IN, o, s', id, YES);
    s' := Moves(SIGN_IN, o, s', id, YES);
  }

  /** The wipe comes late and takes the new secret; the request is admitted without it. */
  lemma SignOutEnds(o: State, s: State) returns (s': State)
    requires Leads(SIGN_IN, o, s) && HalfSignedOut(s)
    ensures Leads(SIGN_IN, o, s') && s'.reqs == s.reqs && s'.m.looking.Nobody?
    ensures s'.m == s.m.(looking := Nobody, held := map[], secrets := map[], history := s.m.history + [Wiped])
  {
    s' := WatchMoves(SIGN_IN, o, s, YES);
    s' := WatchMoves(SIGN_IN, o, s', YES);
  }

  /** Why `HeldIsApproved` goes one way for a sign-in key: both locks free, somebody signed
      in, and nothing held for it, because the wipe of an earlier sign-out came late. */
  lemma ASignInCanBeLeftWithoutItsSecret()
    ensures exists s :: Reachable(SIGN_IN, s) && s.m.gate.Free? && s.m.looking.Nobody?
                        && Everywhere in s.m.approved && !Held(s.m, Everywhere)
  {
    var o := Starts(SIGN_IN);
    var s := SignOutBegins(o);
    s := SignInIsDecided(o, s, 1, YES);
    s := SignInKeeps(o, s, 1);
    s := SignOutEnds(o, s);
    s := SignInIsAdmitted(o, s, 1);
    LeadsOn(SIGN_IN, o, s);
  }

  // ---- a sign-in key and a clock that once cannot be read

  /** The first request signs in undisturbed. */
  lemma SignsIn(o: State) returns (s: State)
    requires Leads(SIGN_IN, o, o) && Init(o) && o.m.now == 0.0 && o.m.looked.at == Val(0.0)
    ensures Leads(SIGN_IN, o, s) && s.reqs.Keys == {1} && s.watch == Sleeping
    ensures s.m.gate.Free? && s.m.looking.Nobody? && s.m.now == 0.0 && s.m.looked == Look(Val(0.0), Unlocked)
    ensures s.m.approved == map[Everywhere := Val(0.0)] && s.m.held == map[] && s.m.signOuts == 0
    ensures forall k | 0 <= k < |s.m.history| :: !s.m.history[k].Ended?
  {
    s := SignInEnters(o, o, 1);
    s := SignInIsDecided(o, s, 1, YES);
    s := SignInKeeps(o, s, 1);
    s := SignInIsAdmitted(o, s, 1);
  }

  /** The second cannot read the clock, drops the secret, and is declined. */
  lemma SignInIsDeclined(o: State, s: State) returns (s': State)
    requires Leads(SIGN_IN, o, s) && 2 in s.reqs && s.reqs[2].pc.InEnclave? && s.reqs[2].pc.enclave == Reading
    requires !s.reqs[2].pc.job.live && s.reqs[2].pc.job.reach == Everywhere
    requires s.m.looking.Nobody? && s.m.now == 0.0 && s.m.looked.at == Val(0.0)
    requires s.m.approved == map[Everywhere := Val(0.0)] && s.m.held == map[] && Everywhere !in s.m.secrets
    ensures Leads(SIGN_IN, o, s') && s'.reqs.Keys == s.reqs.Keys
    ensures s'.m.gate.Free? && s'.m.looking.Nobody? && s'.m.now == 0.0 && s'.m.looked == Look(Val(0.0), Unlocked)
    ensures s'.m.approved == s.m.approved && !Held(s'.m, Everywhere) && s'.m.signOuts == s.m.signOuts
    ensures forall k | 0 <= k < |s'.m.history| && s'.m.history[k].Ended? :: k < |s.m.history| && s.m.history[k].Ended?
  {
    s' := Moves(SIGN_IN, o, s, 2, YES);
    s' := Moves(SIGN_IN, o, s', 2, NO);
    s' := SignInLooksAgain(o, s', 2);
    s' := Moves(SIGN_IN, o, s', 2, YES);
    s' := Moves(SIGN_IN, o, s', 2, YES);
    s' := Moves(SIGN_IN, o, s', 2, YES);
  }

  lemma SignInFindsNothing(o: State, s: State) returns (s': State)
    requires Leads(SIGN_IN, o, s) && 3 in s.reqs && s.reqs[3] == Req(HERE, Loading(false))
    requires s.m.now == 0.0 && s.m.approved == map[Everywhere := Val(0.0)] && !Held(s.m, Everywhere)
    ensures Leads(SIGN_IN, o, s') && 3 in s'.reqs && s'.reqs[3].pc.SecondLook? && !s'.reqs[3].pc.made
    ensures s'.reqs[3].pc.job.live && s'.reqs[3].pc.job.counted == s.m.signOuts
    ensures s'.m == s.m.(origin := s'.m.origin,
                         history := s.m.history + [Loaded(3), Decided(3, Everywhere, Val(0.0), true)])
  {
    s' := Moves(SIGN_IN, o, s, 3, YES);
    s' := Moves(SIGN_IN, o, s', 3, YES);
    assert s'.m.approved == s.m.approved && s'.reqs[3].pc.todo == {};
    s' := Moves(SIGN_IN, o, s', 3, YES);
    s' := Moves(SIGN_IN, o, s', 3, YES);
  }

  /** The third rides the sign-in, finds nothing held, and is turned away with the count as
      it read it and the approval still in the table. */
  lemma SignInTurnsARiderAway(o: State, s: State) returns (s': State)
    requires Leads(SIGN_IN, o, s) && 3 in s.reqs && s.reqs[3] == Req(HERE, Loading(false))
    requires s.m.looking.Nobody? && s.m.now == 0.0 && s.m.looked.at == Val(0.0)
    requires s.m.approved == map[Everywhere := Val(0.0)] && !Held(s.m, Everywhere)
    ensures Leads(SIGN_IN, o, s') && 3 in s'.reqs && s'.reqs[3].pc.Failing? && s'.reqs[3].pc.job.live
    ensures s'.m.signOuts == s'.reqs[3].pc.job.counted && s'.m.approved == s.m.approved
    ensures forall k | 0 <= k < |s'.m.history| && s'.m.history[k].Ended? :: k < |s.m.history| && s.m.history[k].Ended?
  {
    s' := SignInFindsNothing(o, s);
    s' := SignInLooksAgain(o, s', 3);
  }

  /** The other way a sign-in is left without its secret, with no sign-out in the whole run:
      a request that cannot read the clock drops the secret and is declined. */
  lemma AnUnreadableClockCanCostTheSecret() returns (o: State, s: State)
    ensures Reachable(SIGN_IN, o) && Leads(SIGN_IN, o, s) && Reachable(SIGN_IN, s) && s.reqs.Keys == {1, 2}
    ensures s.m.gate.Free? && s.m.looking.Nobody? && s.m.now == 0.0 && s.m.looked == Look(Val(0.0), Unlocked)
    ensures s.m.approved == map[Everywhere := Val(0.0)] && !Held(s.m, Everywhere) && s.m.signOuts == 0
    ensures forall k | 0 <= k < |s.m.history| :: !s.m.history[k].Ended?
  {
    o := Starts(SIGN_IN);
    s := SignsIn(o);
    s := SignInEnters(o, s, 2);
    s := SignInIsDecided(o, s, 2, NO_CLOCK);
    s := SignInIsDeclined(o, s);
    LeadsOn(SIGN_IN, o, s);
  }

  /** From then on a request that rides the sign-in is turned away, and the sign-in stands. */
  lemma AnUnreadableClockCanTurnARiderAway()
    ensures exists s :: Reachable(SIGN_IN, s) && 3 in s.reqs && s.reqs[3].pc.Failing? && s.reqs[3].pc.job.live
                        && s.m.signOuts == s.reqs[3].pc.job.counted && Everywhere in s.m.approved
                        && forall k | 0 <= k < |s.m.history| :: !s.m.history[k].Ended?
  {
    var o, s := AnUnreadableClockCanCostTheSecret();
    s := SignInEnters(o, s, 3);
    s := SignInTurnsARiderAway(o, s);
    LeadsOn(SIGN_IN, o, s);
  }
}
