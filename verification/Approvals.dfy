/** What one approval covers, how long it lasts, and the table of the live ones
    (daemon/src/agent.rs). */
module Approval {
  import opened Basics
  import opened Seconds

  datatype Scope = Scope(directory: Option<string>, host: Option<string>, repo: Option<string>)

  datatype Reach =
    | Everywhere
    | Place(scope: Scope)

  /** What is fixed for the life of the daemon and its key. */
  datatype Config = Config(
    approve: bool,
    signInSecs: Float,
    reuseSecs: Float,
    endsAtLock: bool)

  datatype Ends =
    | After(secs: Float)
    | AtScreenLock(secs: Float)

  datatype Plan = Plan(
    reach: Reach,
    window: Float,
    live: bool,
    expired: seq<Reach>,
    signingIn: Option<Ends>,
    unlockReuse: Float)

  type Table = map<Reach, Float>

  function Grant(signInSecs: Float, reuseSecs: Float, place: Scope): (Reach, Float) {
    if Positive(signInSecs) then (Everywhere, signInSecs) else (Place(place), reuseSecs)
  }

  /** With `approve` off there is no sign-in, whatever the configured length. */
  function GrantFor(c: Config, place: Scope): (Reach, Float) {
    Grant(if c.approve then c.signInSecs else ZERO, c.reuseSecs, place)
  }

  /** The window does not depend on the place: one per daemon. */
  function Window(c: Config): Float {
    if c.approve && Positive(c.signInSecs) then c.signInSecs else c.reuseSecs
  }

  predicate RunOut(at: Float, window: Float, now: Float) {
    Ge(Sub(now, at), window)
  }

  predicate Covers(approved: Table, reach: Reach, window: Float, now: Float) {
    Positive(window) && reach in approved && Lt(Sub(now, approved[reach]), window)
  }

  function Expired(approved: Table, window: Float, now: Float): set<Reach> {
    set r | r in approved && RunOut(approved[r], window, now)
  }

  function Pruned(approved: Table, window: Float, now: Float): Table {
    map r | r in approved && !RunOut(approved[r], window, now) :: approved[r]
  }

  function Opened(approved: Table, reach: Reach, window: Float, live: bool, now: Float): Table {
    if !live && Positive(window) then approved[reach := now] else approved
  }

  /** `listed` names every member of `them` exactly once. */
  ghost predicate Lists(listed: seq<Reach>, them: set<Reach>) {
    && (forall r :: r in listed <==> r in them)
    && (forall i, j :: 0 <= i < j < |listed| ==> listed[i] != listed[j])
  }

  /** Letting go of what has run out, at any moment, changes no answer given from then on. */
  lemma PruningIsInvisible(approved: Table, window: Float, pruneAt: Float, reach: Reach, now: Float)
    requires pruneAt.Val? && now.Val? ==> pruneAt.v <= now.v
    ensures Covers(Pruned(approved, window, pruneAt), reach, window, now) <==> Covers(approved, reach, window, now)
    ensures Expired(Pruned(approved, window, pruneAt), window, now)
         == Expired(approved, window, now) - Expired(approved, window, pruneAt)
  {
    var pruned := Pruned(approved, window, pruneAt);
    assert forall r :: r in pruned ==> r in approved && pruned[r] == approved[r];
  }

  /** The state the request threads and the screen watch share under the `approved` lock. */
  class Approvals {
    const config: Config
    var approved: Table
    var signOuts: nat

    constructor (config: Config)
      ensures this.config == config && approved == map[] && signOuts == 0
    {
      this.config := config;
      approved := map[];
      signOuts := 0;
    }

    /** Drops what has run out and names each entry dropped exactly once. */
    method Expire(window: Float, now: Float) returns (gone: seq<Reach>)
      modifies `approved
      ensures approved == Pruned(old(approved), window, now)
      ensures Lists(gone, Expired(old(approved), window, now))
      ensures forall r | r in old(approved) :: r in approved <==>
        !(now.Val? && old(approved)[r].Val? && window.Val? && now.v - old(approved)[r].v >= window.v)
      ensures forall r :: r in gone <==> r in old(approved) && r !in approved
    {
      gone := [];
      var todo := approved.Keys;
      while todo != {}
        invariant todo <= approved.Keys
        invariant Lists(gone, Expired(approved, window, now) - todo)
        decreases todo
      {
        var r :| r in todo;
        if RunOut(approved[r], window, now) {
          gone := gone + [r];
        }
        todo := todo - {r};
      }
      var i := 0;
      while i < |gone|
        invariant 0 <= i <= |gone|
        invariant forall r :: r in approved <==> r in old(approved) && r !in gone[..i]
        invariant forall r :: r in approved ==> approved[r] == old(approved)[r]
      {
        approved := approved - {gone[i]};
        i := i + 1;
      }
      assert gone[..i] == gone;
      assert approved.Keys == Pruned(old(approved), window, now).Keys;
    }

    /** With a sign-in in force one approval covers everything, for as long as a sign-in
        lasts; without one it covers the place asked from and no other, for the reuse window. */
    method Decide(place: Scope, now: Float) returns (plan: Plan)
      modifies `approved
      ensures config.approve && config.signInSecs.Val? && config.signInSecs.v > 0.0 ==>
        plan.reach == Everywhere && plan.window == config.signInSecs
      ensures !(config.approve && config.signInSecs.Val? && config.signInSecs.v > 0.0) ==>
        plan.reach == Place(place) && plan.window == config.reuseSecs
      ensures plan.live <==>
        && plan.reach in old(approved) && now.Val? && old(approved)[plan.reach].Val?
        && plan.window.Val? && plan.window.v > 0.0 && now.v - old(approved)[plan.reach].v < plan.window.v
      ensures approved == Pruned(old(approved), plan.window, now)
      ensures (plan.reach, plan.window) == GrantFor(config, place) && plan.window == Window(config)
      ensures plan.live <==> Covers(old(approved), plan.reach, plan.window, now)
      ensures Lists(plan.expired, Expired(old(approved), plan.window, now))
      ensures plan.signingIn.Some? <==> plan.reach == Everywhere && !plan.live
      ensures plan.signingIn.Some? ==>
        plan.signingIn.value == if config.endsAtLock then AtScreenLock(plan.window) else After(plan.window)
      ensures plan.reach == Everywhere ==> plan.unlockReuse == Val(0.0)
      ensures plan.reach != Everywhere ==> plan.unlockReuse == plan.window
    {
      var (reach, window) := Grant(if config.approve then config.signInSecs else ZERO, config.reuseSecs, place);
      PruningIsInvisible(approved, window, now, reach, now);
      var expired := Expire(window, now);
      var live := Positive(window) && reach in approved && Lt(Sub(now, approved[reach]), window);
      var everywhere := reach == Everywhere;
      var ends := if config.endsAtLock then AtScreenLock(window) else After(window);
      plan := Plan(reach, window, live, expired,
                   if everywhere && !live then Some(ends) else None,
                   if everywhere then ZERO else window);
    }

    method Open(plan: Plan, now: Float)
      modifies `approved
      ensures approved == Opened(old(approved), plan.reach, plan.window, plan.live, now)
      ensures approved == if !plan.live && plan.window.Val? && plan.window.v > 0.0 then old(approved)[plan.reach := now] else old(approved)
    {
      if !plan.live && Positive(plan.window) {
        approved := approved[plan.reach := now];
      }
    }

    method EndApprovals() returns (was: bool)
      modifies `approved, `signOuts
      ensures was <==> old(approved) != map[]
      ensures approved == map[] && signOuts == old(signOuts) + 1
    {
      signOuts := signOuts + 1;
      was := |approved| != 0;
      approved := map[];
    }

    /** `counted` is what the request read before it decided. */
    method Admit(plan: Plan, counted: nat, now: Float) returns (admitted: bool)
      modifies `approved
      ensures admitted <==> counted == signOuts
      ensures approved == if admitted then Opened(old(approved), plan.reach, plan.window, plan.live, now) else old(approved)
    {
      if signOuts != counted {
        return false;
      }
      Open(plan, now);
      return true;
    }
  }
}
