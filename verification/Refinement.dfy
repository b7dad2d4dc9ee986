/** The executable half against the step system: each method of the table of approvals is
    one step, each call into the enclave half is a run of its steps. */
module Refinement {
  import opened Seconds
  import opened Basics
  import opened Approval
  import opened Protocol
  import opened Locks
  import opened ReachKey
  import opened ContextCaches

  // ---- the table of approvals

  ghost predicate Shows(a: Approvals, c: Config, m: Memory)
    reads a
  {
    a.config == c && a.approved == m.approved && a.signOuts == m.signOuts
  }

  method DecideRefines(a: Approvals, ghost c: Config, ghost m: Memory, ghost id: nat, place: Scope, ghost pc: Pc, now: Float)
      returns (plan: Plan)
    requires Shows(a, c, m) && pc.Deciding?
    modifies a`approved
    ensures var (m', pc') := Decide(c, m, id, place, pc, now);
      && Shows(a, c, m') && plan.window == Window(c)
      && plan.reach == pc'.job.reach && plan.live == pc'.job.live && Lists(plan.expired, pc'.todo)
  {
    plan := a.Decide(place, now);
  }

  method ExpireRefines(a: Approvals, c: Config, ghost m: Memory, now: Float) returns (gone: seq<Reach>)
    requires Shows(a, c, m)
    modifies a`approved
    ensures Shows(a, c, Expire(c, m, now)) && Lists(gone, Expired(m.approved, Window(c), now))
  {
    gone := a.Expire(Window(c), now);
  }

  method EndApprovalsRefines(a: Approvals, ghost c: Config, ghost m: Memory) returns (was: bool)
    requires Shows(a, c, m)
    modifies a`approved, a`signOuts
    ensures Shows(a, c, EndApprovals(m)) && (was <==> m.approved != map[])
  {
    was := a.EndApprovals();
  }

  method AdmitRefines(a: Approvals, ghost c: Config, ghost m: Memory, ghost id: nat, ghost job: Job, plan: Plan, counted: nat, now: Float)
      returns (admitted: bool)
    requires Shows(a, c, m) && counted == job.counted
    requires plan.reach == job.reach && plan.live == job.live && plan.window == Window(c)
    modifies a`approved
    ensures var (m', pc') := Admit(c, m, id, job, now);
      Shows(a, c, m') && (admitted <==> pc'.Closing?) && (!admitted <==> pc'.Forgetting?)
  {
    admitted := a.Admit(plan, counted, now);
  }

  // ---- the enclave half

  ghost predicate Keyed(keys: set<string>, reaches: set<Reach>) {
    forall r :: Key(r) in keys <==> r in reaches
  }

  /** The cache holds, under each approval's key, what the step system holds for it. */
  ghost predicate Mirrors(cache: ContextCache, m: Memory)
    reads cache
  {
    && cache.Valid()
    && Keyed(cache.held.Keys, m.held.Keys)
    && Keyed(cache.secrets.Keys, m.secrets.Keys)
  }

  /** No other reach has the key of this one. */
  lemma KeyedStep(keys: set<string>, reaches: set<Reach>, reach: Reach)
    requires Keyed(keys, reaches)
    ensures Keyed(keys - {Key(reach)}, reaches - {reach}) && Keyed(keys + {Key(reach)}, reaches + {reach})
  {
    forall r ensures Key(r) == Key(reach) <==> r == reach {
      KeyInjective(r, reach);
    }
  }

  method ForgetRefines(cache: ContextCache, ghost m: Memory, reach: Reach)
    requires Mirrors(cache, m)
    modifies cache, (if Key(reach) in cache.secrets then {cache.secrets[Key(reach)]} else {})
    ensures Mirrors(cache, Forget(m, reach)) && cache.Buffers() <= old(cache.Buffers())
  {
    KeyedStep(cache.held.Keys, m.held.Keys, reach);
    KeyedStep(cache.secrets.Keys, m.secrets.Keys, reach);
    cache.Forget(Key(reach));
  }

  method ForgetAllRefines(cache: ContextCache, ghost m: Memory)
    requires Mirrors(cache, m)
    modifies cache, cache.Buffers()
    ensures Mirrors(cache, ForgetAll(m)) && cache.Buffers() == {}
    ensures cache.held == map[] && cache.secrets == map[]
    ensures forall scope | scope in old(cache.secrets) :: Zeroed(old(cache.secrets[scope]))
  {
    cache.ForgetAll();
    assert cache.secrets.Keys == cache.Contents().Keys;
  }

  /** A signature of the only length that is accepted. */
  predicate Whole(signed: Option<seq<byte>>) {
    signed.Some? && |signed.value| == 64
  }

  function Answer(enclave: EnclavePc, world: World): Choice {
    Choice(true, Unlocked,
           match enclave
           case Asking => world.touched
           case Agreeing => world.agreed.Some?
           case _ => Whole(world.signed),
           Everywhere)
  }

  /** The enclave's steps of one call, with nothing in between. */
  function Call(c: Config, m: Memory, id: nat, job: Job, enclave: EnclavePc, world: World): (Memory, Pc)
    decreases StageOf(InEnclave(job, enclave))
  {
    EnclaveIsFinite(c, m, id, job, enclave, Answer(enclave, world));
    var (m', pc') := EnclaveStep(c, m, id, job, enclave, Answer(enclave, world));
    if pc'.InEnclave? then Call(c, m', id, pc'.job, pc'.enclave, world) else (m', pc')
  }

  function If(b: bool, e: Event): seq<Event> {
    if b then [e] else []
  }

  /** What a call into the enclave half puts on record. */
  function Record(id: nat, job: Job, built: bool, asked: bool, touched: bool, kept: bool, made: bool, using: nat): seq<Event> {
    If(built, Built(id, job.reach, job.live)) + If(asked, Asked(id, job.reach, job.live, touched))
    + If(kept, Kept(id, job.reach)) + If(made, Made(id, using))
  }

  /** The call came back with a signature. */
  predicate Makes(pc: Pc) {
    pc.Admitting? || (pc.SecondLook? && pc.made)
  }

  /** What a call comes to: a signature or not, a sheet or none. */
  predicate Comes(m: Memory, id: nat, job: Job, built: bool, asked: bool, touched: bool, kept: bool, made: bool, m': Memory, pc': Pc) {
    && made == Makes(pc')
    && m'.history == m.history + Record(id, job, built, asked, touched, kept, made, if made then pc'.job.using else id)
  }

  // The calls again, last step first.

  lemma MakingCall(c: Config, m: Memory, id: nat, job: Job, world: World)
    ensures var (m', pc') := Call(c, m, id, job, Making, world);
      && m'.held == m.held && m'.secrets == m.secrets
      && Comes(m, id, job, false, false, false, false, Whole(world.signed), m', pc')
  {
  }

  lemma AgreeingCall(c: Config, m: Memory, id: nat, job: Job, world: World)
    ensures var (m', pc') := Call(c, m, id, job, Agreeing, world);
      var kept := world.agreed.Some? && Hold(c);
      && m'.held == m.held
      && m'.secrets == (if kept then m.secrets[job.reach := id] else m.secrets)
      && Comes(m, id, job, false, false, false, kept, world.agreed.Some? && Whole(world.signed), m', pc')
  {
    MakingCall(c, m, id, job, world);
    MakingCall(c, Log(m, Kept(id, job.reach)).(secrets := m.secrets[job.reach := id]), id, job, world);
  }

  lemma AskingCall(c: Config, m: Memory, id: nat, job: Job, world: World)
    requires c.endsAtLock
    ensures var (m', pc') := Call(c, m, id, job, Asking, world);
      var released := world.touched && world.agreed.Some?;
      && m'.held == m.held
      && m'.secrets == (if released && Hold(c) then m.secrets[job.reach := id] else m.secrets)
      && Comes(m, id, job, false, true, world.touched, released && Hold(c), released && Whole(world.signed), m', pc')
  {
    AgreeingCall(c, Log(m, Asked(id, job.reach, job.live, true)), id, job, world);
  }

  lemma SignInCall(c: Config, m: Memory, id: nat, job: Job, world: World)
    requires c.endsAtLock
    ensures var (m', pc') := Call(c, m, id, job, Reading, world);
      var found := Hold(c) && job.reach in m.secrets;
      var released := !found && !job.live && Released(c.approve, world);
      && m'.held == m.held
      && m'.secrets.Keys == (if released && Hold(c) then m.secrets.Keys + {job.reach} else m.secrets.Keys)
      && Comes(m, id, job, false, c.approve && !found && !job.live, world.touched, released && Hold(c),
               (found || released) && Whole(world.signed), m', pc')
  {
    if Hold(c) && job.reach in m.secrets {
      MakingCall(c, m, id, job.(using := m.secrets[job.reach]), world);
    } else if !job.live {
      if c.approve {
        AskingCall(c, m, id, job, world);
      } else {
        AgreeingCall(c, m, id, job, world);
      }
    }
  }

  lemma PlainAskingCall(c: Config, m: Memory, id: nat, job: Job, world: World)
    requires !c.endsAtLock
    ensures var (m', pc') := Call(c, m, id, job, Asking, world);
      && m'.held.Keys == (if world.touched then m.held.Keys else m.held.Keys - {job.reach})
      && m'.secrets.Keys == (if world.touched then m.secrets.Keys else m.secrets.Keys - {job.reach})
      && Comes(m, id, job, false, true, world.touched, false, world.touched && Whole(world.signed), m', pc')
  {
    if world.touched {
      MakingCall(c, Log(m, Asked(id, job.reach, job.live, true)), id, job, world);
    }
  }

  lemma PlainCall(c: Config, m: Memory, id: nat, job: Job, world: World)
    requires !c.endsAtLock
    ensures var (m', pc') := Call(c, m, id, job, Taking, world);
      var found := Hold(c) && job.reach in m.held;
      var asked := c.approve && !found;
      var declined := asked && !world.touched;
      && m'.held.Keys == (if declined then m.held.Keys - {job.reach} else if Hold(c) then m.held.Keys + {job.reach} else m.held.Keys)
      && m'.secrets.Keys == (if declined then m.secrets.Keys - {job.reach} else m.secrets.Keys)
      && Comes(m, id, job, !found, asked, world.touched, false, !declined && Whole(world.signed), m', pc')
  {
    if Hold(c) && job.reach in m.held {
      MakingCall(c, m, id, job.(using := m.held[job.reach]), world);
    } else {
      var taken := Log(m, Built(id, job.reach, job.live)).(held := if Hold(c) then m.held[job.reach := id] else m.held);
      if c.approve {
        PlainAskingCall(c, taken, id, job, world);
      } else {
        MakingCall(c, taken, id, job, world);
      }
    }
  }

  /** One call on a sign-in key, uninterrupted, is the step system's run of it. */
  method SignInRefines(cache: ContextCache, c: Config, ghost m: Memory, ghost id: nat, ghost job: Job,
                       reach: Reach, live: bool, unlockReuse: Float, world: World)
      returns (code: int, asked: bool, reuse: Float)
    requires Mirrors(cache, m) && c.endsAtLock && reach == job.reach && live == job.live
    modifies cache`secrets
    ensures var (m', pc') := Call(c, m, id, job, Reading, world);
      Mirrors(cache, m') && (code == 64) == Makes(pc')
    ensures asked == (c.approve && !(Hold(c) && reach in m.secrets) && !live)
    ensures asked ==> reuse == AllowedReuse(unlockReuse)
    ensures fresh(cache.Buffers() - old(cache.Buffers()))
  {
    KeyedStep(cache.secrets.Keys, m.secrets.Keys, reach);
    SignInCall(c, m, id, job, world);
    assert cache.Contents().Keys == cache.secrets.Keys;
    code, asked, reuse := SignIn(cache, Hold(c), unlockReuse, Key(reach), c.approve, live, world, 256);
    assert cache.Contents().Keys == cache.secrets.Keys;
  }

  method SignPlainRefines(cache: ContextCache, c: Config, ghost m: Memory, ghost id: nat, ghost job: Job,
                          reach: Reach, unlockReuse: Float, world: World)
      returns (code: int, asked: bool)
    requires Mirrors(cache, m) && !c.endsAtLock && reach == job.reach
    modifies cache, (if Key(reach) in cache.secrets then {cache.secrets[Key(reach)]} else {})
    ensures var (m', pc') := Call(c, m, id, job, Taking, world);
      Mirrors(cache, m') && (code == 64) == Makes(pc')
    ensures asked == (c.approve && !(Hold(c) && reach in m.held))
    ensures cache.Buffers() <= old(cache.Buffers())
  {
    KeyedStep(cache.held.Keys, m.held.Keys, reach);
    KeyedStep(cache.secrets.Keys, m.secrets.Keys, reach);
    PlainCall(c, m, id, job, world);
    assert cache.Contents().Keys == cache.secrets.Keys;
    code, asked := SignPlain(cache, Hold(c), unlockReuse, Key(reach), c.approve, world, 256);
    assert cache.Contents().Keys == cache.secrets.Keys;
    assert asked && !world.touched ==> cache.held.Keys == old(cache.held.Keys) - {Key(reach)};
  }
}
