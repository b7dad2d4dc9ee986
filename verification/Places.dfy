/** Where a request was made from, and what its approval covers. */
module Places {
  import opened Seconds
  import opened Approval
  import opened Protocol
  import opened Records
  import opened Invariant
  import opened Safety

  /** One approval covers everything, for as long as a sign-in lasts. */
  predicate SignInInForce(c: Config) {
    c.approve && c.signInSecs.Val? && c.signInSecs.v > 0.0
  }

  /** What a request from `place` can be covered by: with a sign-in in force the sign-in, and
      otherwise an approval of that very place. */
  predicate Covering(c: Config, place: Scope, reach: Reach) {
    reach == if SignInInForce(c) then Everywhere else Place(place)
  }

  ghost predicate PlacedOk(c: Config, s: State) {
    forall k | 0 <= k < |s.m.history| ::
      var e := s.m.history[k];
      && (e.Decided? ==> e.id in s.reqs && Covering(c, s.reqs[e.id].place, e.reach))
      && (e.Admitted? ==> e.id in s.reqs && Covering(c, s.reqs[e.id].place, e.job.reach))
  }

  lemma TheEnclaveDecidesNothing(c: Config, m: Memory, id: nat, job: Job, enclave: EnclavePc, ch: Choice)
    ensures var h' := EnclaveStep(c, m, id, job, enclave, ch).0.history;
      forall k | |m.history| <= k < |h'| :: !h'[k].Decided?
  {
  }

  lemma DecisionsOnRecord(c: Config, m: Memory, id: nat, place: Scope, pc: Pc, ch: Choice)
    requires RequestEnabled(m, id, pc, ch)
    ensures var h' := RequestStep(c, m, id, place, pc, ch).0.history;
      forall k | |m.history| <= k < |h'| && h'[k].Decided? :: h'[k].id == id && Covering(c, place, h'[k].reach)
  {
    match pc
    case InEnclave(job, enclave) => TheEnclaveDecidesNothing(c, m, id, job, enclave, ch);
    case FirstLook => LookHistory(m, Request(id), ch, RequestStep(c, m, id, place, pc, ch).0);
    case SecondLook(_, _) => LookHistory(m, Request(id), ch, RequestStep(c, m, id, place, pc, ch).0);
    case _ =>
  }

  lemma AdmissionsOnRecord(c: Config, m: Memory, id: nat, place: Scope, pc: Pc, ch: Choice)
    requires RequestEnabled(m, id, pc, ch) && PcOk(c, m, id, place, pc)
    ensures var h' := RequestStep(c, m, id, place, pc, ch).0.history;
      forall k | |m.history| <= k < |h'| && h'[k].Admitted? :: h'[k].id == id && Covering(c, place, h'[k].job.reach)
  {
    RequestEvents(c, m, id, place, pc, ch);
  }

  lemma PlacedByRequest(c: Config, s: State, id: nat, ch: Choice)
    requires Inv(c, s) && PlacedOk(c, s) && Enabled(c, s, Go(Request(id), ch))
    ensures PlacedOk(c, Apply(c, s, Go(Request(id), ch)))
  {
    var req := s.reqs[id];
    assert PcOk(c, s.m, id, req.place, req.pc);
    DecisionsOnRecord(c, s.m, id, req.place, req.pc, ch);
    AdmissionsOnRecord(c, s.m, id, req.place, req.pc, ch);
    RequestEvents(c, s.m, id, req.place, req.pc, ch);
  }

  lemma PlacedByWatch(c: Config, s: State, ch: Choice)
    requires PlacedOk(c, s) && Enabled(c, s, Go(Watch, ch))
    ensures PlacedOk(c, Apply(c, s, Go(Watch, ch)))
  {
    if s.watch.WatchLooking? {
      LookHistory(s.m, Watch, ch, WatchStep(c, s.m, s.watch, ch).0);
    }
  }

  lemma PlacedKept(c: Config, s: State, step: Step)
    requires Inv(c, s) && PlacedOk(c, s) && Enabled(c, s, step)
    ensures PlacedOk(c, Apply(c, s, step))
  {
    match step
    case Go(Request(id), ch) => PlacedByRequest(c, s, id, ch);
    case Go(Watch, ch) => PlacedByWatch(c, s, ch);
    case _ =>
  }

  lemma {:induction false} PlacedAlong(c: Config, states: seq<State>, k: nat)
    requires Run(c, states) && k < |states|
    ensures PlacedOk(c, states[k])
  {
    if k > 0 {
      PlacedAlong(c, states, k - 1);
      InvAlong(c, states, k - 1);
      assert Next(c, states[k - 1], states[k]);
      var step :| Enabled(c, states[k - 1], step) && states[k] == Apply(c, states[k - 1], step);
      PlacedKept(c, states[k - 1], step);
    }
  }

  /** In every reachable state, what a request was decided and admitted under is what covers
      the place it came from. */
  lemma ReachablePlaces(c: Config, s: State)
    requires Reachable(c, s)
    ensures PlacedOk(c, s)
  {
    var states :| Run(c, states) && states[|states| - 1] == s;
    PlacedAlong(c, states, |states| - 1);
  }

  /** Without a sign-in, no silent signature crosses from one place to another: the request
      signed for and the one whose Touch ID opened the approval it rode name the same
      directory, host and repository. */
  lemma NoApprovalLeavesItsPlace(c: Config, s: State, a: nat)
    requires Reachable(c, s) && !(c.approve && c.signInSecs.Val? && c.signInSecs.v > 0.0)
    requires a < |s.m.history| && s.m.history[a].Admitted? && s.m.history[a].job.live
    ensures var h, o := s.m.history, s.m.history[a].job.since;
      && RodeOpening(c, h, o, h[a].job.decidedAt, a)
      && h[o].Admitted? && !h[o].job.live
      && h[a].id in s.reqs && h[o].id in s.reqs && s.reqs[h[a].id].place == s.reqs[h[o].id].place
  {
    RidersRideAnOpening(c, s, a);
    ReachablePlaces(c, s);
  }

  /** The same of every request counted as covered, whatever becomes of it: the approval it
      was covered by was opened from its own place, after the last sign-out. */
  lemma CoveredFromItsOwnPlace(c: Config, s: State, d: nat) returns (o: nat)
    requires Reachable(c, s) && !(c.approve && c.signInSecs.Val? && c.signInSecs.v > 0.0)
    requires d < |s.m.history| && s.m.history[d].Decided? && s.m.history[d].live
    ensures o < d && s.m.history[o].Admitted? && !s.m.history[o].job.live && NoEnd(s.m.history, o, d)
    ensures s.m.history[d].id in s.reqs && s.m.history[o].id in s.reqs
    ensures s.reqs[s.m.history[d].id].place == s.reqs[s.m.history[o].id].place
  {
    var h := s.m.history;
    ReachablePlaces(c, s);
    DecidedByTheWholeHistory(c, s, d);
    o := LastOpeningIs(h[..d], h[d].reach);
    assert h[o] == h[..d][o];
    assert forall k | o < k < d :: h[k] == h[..d][k];
  }

  /** With a sign-in in force, every approval covers everything. */
  lemma OneSignInForEverything(c: Config, s: State, a: nat)
    requires Reachable(c, s) && c.approve && c.signInSecs.Val? && c.signInSecs.v > 0.0
    requires a < |s.m.history| && s.m.history[a].Admitted?
    ensures s.m.history[a].job.reach == Everywhere
  {
    ReachablePlaces(c, s);
  }
}
