/** The daemon's own-key path as the code runs it, one request or one turn of the watch at
    a time, on real objects: the table of approvals, the enclave half's cache, the last
    look. Each method leads the step system on from the state it was called in, wherever
    the run began, so everything proved of reachable states holds of what it leaves. */
module Daemons {
  import opened Seconds
  import opened Approval
  import opened Protocol
  import opened Locks
  import opened Cache
  import opened ReachKey
  import opened ContextCaches
  import opened Refinement
  import opened Runs
  import opened Uninterrupted
  import opened Invariant
  import opened Safety

  class Daemon {
    const config: Config
    const approvals: Approvals
    const cache: ContextCache
    var looked: Protocol.Look

    constructor (config: Config, now: Float)
      ensures this.config == config && looked == Protocol.Look(now, Unlocked)
      ensures approvals.config == config && approvals.approved == map[] && approvals.signOuts == 0
      ensures cache.Valid() && cache.held == map[] && cache.secrets == map[]
      ensures fresh(Owned())
      ensures forall m: Memory | m.approved == map[] && m.signOuts == 0 && m.looked == looked && m.held == map[] && m.secrets == map[] ::
        Holds(m)
    {
      this.config := config;
      approvals := new Approvals(config);
      cache := new ContextCache();
      looked := Protocol.Look(now, Unlocked);
      new;
      assert cache.secrets.Keys == cache.Contents().Keys;
    }

    ghost function Owned(): set<object>
      reads this, cache
    {
      {this, approvals, cache} + cache.Buffers()
    }

    /** The objects are in the state the step system's memory describes. */
    ghost predicate Holds(m: Memory)
      reads this, approvals, cache
    {
      Shows(approvals, config, m) && looked == m.looked && Mirrors(cache, m)
    }

    method SignOut(ghost m: Memory)
      requires Shows(approvals, config, m) && Mirrors(cache, m)
      modifies approvals, cache, cache.Buffers()
      ensures approvals.approved == map[] && approvals.signOuts == m.signOuts + 1
      ensures cache.held == map[] && cache.secrets == map[] && cache.Buffers() == {}
      ensures Mirrors(cache, ForgetAll(m))
    {
      var was := EndApprovalsRefines(approvals, config, m);
      ForgetAllRefines(cache, m);
    }

    method Forgets(ghost m: Memory, reach: Reach)
      requires Holds(m)
      modifies Owned()
      ensures Holds(Forget(m, reach)) && fresh(Owned() - old(Owned()))
    {
      ForgetRefines(cache, m, reach);
    }

    // ---- a request

    /** One look at the screen, with the sign-out it may call for: under an unlocked screen
        and less than three seconds after the look before, by a clock that read both times, it
        ends nothing, and any other look ends everything. */
    method Glance(ghost m: Memory, now: Float, saw: Screen)
      requires Holds(m)
      modifies Owned()
      ensures fresh(Owned() - old(Owned())) && looked == Protocol.Look(now, saw)
      ensures saw != Unlocked || old(looked.at).NaN? || now.NaN? || now.v - old(looked.at).v >= 3.0 ==>
        approvals.approved == map[] && approvals.signOuts == old(approvals.signOuts) + 1 && cache.held == map[] && cache.secrets == map[]
      ensures saw == Unlocked && old(looked.at).Val? && now.Val? && now.v - old(looked.at).v < 3.0 ==>
        && approvals.approved == old(approvals.approved) && approvals.signOuts == old(approvals.signOuts)
        && cache.held == old(cache.held) && cache.secrets == old(cache.secrets) && cache.Contents() == old(cache.Contents())
      ensures forall m': Memory | LookMade(m, now, saw, m') :: Holds(m')
    {
      var before := looked;
      looked := Protocol.Look(now, saw);
      if saw != Unlocked || Unseen(before.at, now) {
        SignOut(m);
      }
    }

    /** A look of a request's, first or second. */
    method TakeLook(ghost o: State, ghost s: State, ghost id: nat, now: Float, saw: Screen) returns (ghost s': State)
      requires Leads(config, o, s) && Alone(s, id) && Looks(s.reqs[id].pc)
      requires Later(s.m.now, now) && Holds(s.m)
      modifies Owned()
      ensures Holds(s'.m) && fresh(Owned() - old(Owned()))
      ensures Leads(config, o, s') && SameThreads(s, s', id) && Alone(s', id)
      ensures LookMade(s.m, now, saw, s'.m) && looked == Protocol.Look(now, saw)
      ensures saw != Unlocked || old(looked.at).NaN? || now.NaN? || now.v - old(looked.at).v >= 3.0 ==>
        approvals.approved == map[] && approvals.signOuts == old(approvals.signOuts) + 1 && cache.held == map[] && cache.secrets == map[]
      ensures saw == Unlocked && old(looked.at).Val? && now.Val? && now.v - old(looked.at).v < 3.0 ==>
        && approvals.approved == old(approvals.approved) && approvals.signOuts == old(approvals.signOuts)
        && cache.held == old(cache.held) && cache.secrets == old(cache.secrets) && cache.Contents() == old(cache.Contents())
      ensures s.reqs[id].pc.FirstLook? ==> s'.reqs[id].pc == Loading(saw != Unlocked)
      ensures s.reqs[id].pc.SecondLook? ==>
        s'.reqs[id].pc == if saw != Unlocked || !s.reqs[id].pc.made then Failing(s.reqs[id].pc.job)
                          else Admitting(s.reqs[id].pc.job.(lookedAt := |s.m.history|))
    {
      s' := LookRuns(config, o, s, id, now, saw);
      Glance(s.m, now, saw);
    }

    /** Lets the enclave half go of everything listed, and of nothing else. */
    method Release(ghost o: State, ghost s: State, ghost id: nat, ghost job: Job, gone: seq<Reach>) returns (ghost s': State)
      requires Leads(config, o, s) && Alone(s, id) && Holds(s.m)
      requires s.reqs[id].pc.Releasing? && s.reqs[id].pc.job == job && Lists(gone, s.reqs[id].pc.todo)
      modifies Owned()
      ensures Holds(s'.m) && fresh(Owned() - old(Owned()))
      ensures Leads(config, o, s') && SameThreads(s, s', id) && Alone(s', id) && s'.reqs[id].pc == Releasing(job, {})
      ensures s'.m == LetGoOf(s.m, s.reqs[id].pc.todo)
    {
      s' := s;
      ghost var all := s.reqs[id].pc.todo;
      LetGoOfNothing(s.m);
      for i := 0 to |gone|
        invariant Holds(s'.m) && fresh(Owned() - old(Owned()))
        invariant Leads(config, o, s') && SameThreads(s, s', id) && Alone(s', id)
        invariant s'.reqs[id].pc.Releasing? && s'.reqs[id].pc.job == job && Lists(gone[i..], s'.reqs[id].pc.todo)
        invariant s'.reqs[id].pc.todo <= all && s'.m == LetGoOf(s.m, all - s'.reqs[id].pc.todo)
      {
        assert gone[i] == gone[i..][0];
        Forgets(s'.m, gone[i]);
        ListsRest(gone[i..], s'.reqs[id].pc.todo);
        LetGoOfOneMore(s.m, all, s'.reqs[id].pc.todo, gone[i]);
        s' := Moves(config, o, s', id, Choice(true, Unlocked, true, gone[i]));
        assert gone[i..][1..] == gone[i + 1..];
      }
      ListsNothing(gone[|gone|..], s'.reqs[id].pc.todo);
      assert all - {} == all;
    }

    /** Takes the gate, and for a sign-in key the first look. */
    method Enter(ghost o: State, ghost s: State, ghost id: nat, place: Scope, e: Env) returns (refused: bool, ghost s': State)
      requires Leads(config, o, s) && id !in s.reqs && s.m.gate.Free? && s.m.looking.Nobody?
      requires Holds(s.m) && Later(s.m.now, e.firstAt)
      modifies Owned()
      ensures Holds(s'.m) && fresh(Owned() - old(Owned()))
      ensures Leads(config, o, s') && s'.reqs.Keys == s.reqs.Keys + {id} && s'.watch == s.watch && Alone(s', id)
      ensures s'.reqs[id] == Req(place, Loading(refused)) && s.m.now <= s'.m.now <= NowAt(s.m.now, e.firstAt)
      ensures refused == TurnedDown(config, e) && SameFor(config, s'.m, AfterFirst(config, s.m, e))
    {
      s' := EnterRuns(config, o, s, id, place);
      refused := false;
      if config.endsAtLock {
        s' := TakeLook(o, s', id, e.firstAt, e.firstSaw);
        refused := e.firstSaw != Unlocked;
        FirstLookMade(config, s.m, s.m.(gate := Taken(Request(id))), e, s'.m);
      }
    }

    /** Reads the count and decides. */
    method Settle(ghost o: State, ghost s: State, ghost id: nat, place: Scope, ghost refused: bool, now: Float)
        returns (plan: Plan, counted: nat, ghost s': State)
      requires Leads(config, o, s) && Alone(s, id) && s.reqs[id] == Req(place, Loading(refused))
      requires Holds(s.m) && Later(s.m.now, now)
      modifies approvals
      ensures Holds(s'.m)
      ensures Leads(config, o, s') && SameThreads(s, s', id) && Alone(s', id)
      ensures (s'.m, s'.reqs[id].pc) ==
        Decide(config, Counted(s.m, id, now), id, place, Deciding(refused, s.m.signOuts, |s.m.history|), now)
      ensures plan.window == Window(config) && Lists(plan.expired, s'.reqs[id].pc.todo)
      ensures GoesBy(s'.reqs[id].pc.job, plan, counted)
    {
      counted := approvals.signOuts;
      ghost var at := Counted(s.m, id, now);
      plan := DecideRefines(approvals, config, at, id, place, Deciding(refused, s.m.signOuts, |s.m.history|), now);
      s' := DecisionRuns(config, o, s, id, place, refused, now);
    }

    /** Lets go of what the decision leaves uncovered: the request's own scope too, if nothing
        covers it. */
    method LetGo(ghost o: State, ghost s: State, ghost id: nat, ghost job: Job, ghost counted: nat, plan: Plan) returns (ghost s': State)
      requires Leads(config, o, s) && Alone(s, id) && Holds(s.m) && GoesBy(job, plan, counted)
      requires s.reqs[id].pc.Releasing? && s.reqs[id].pc.job == job && Lists(plan.expired, s.reqs[id].pc.todo)
      modifies Owned()
      ensures Holds(s'.m) && fresh(Owned() - old(Owned()))
      ensures Leads(config, o, s') && SameThreads(s, s', id) && Alone(s', id) && s'.reqs[id].pc == Begin(config, job)
      ensures s'.m == LetGoOf(s.m, s.reqs[id].pc.todo + if plan.live then {} else {plan.reach})
    {
      s' := Release(o, s, id, job, plan.expired);
      ghost var todo := s.reqs[id].pc.todo;
      if !plan.live {
        Forgets(s'.m, plan.reach);
        LetGoOfMore(s.m, todo, {plan.reach});
      } else {
        assert todo + {} == todo;
      }
      s' := BeginRuns(config, o, s', id, job);
    }

    /** The call into the enclave half. */
    method CallEnclave(ghost o: State, ghost s: State, ghost id: nat, ghost job: Job, ghost counted: nat, plan: Plan, world: World)
        returns (made: bool, ghost s': State)
      requires Leads(config, o, s) && Alone(s, id) && GoesBy(job, plan, counted)
      requires s.reqs[id].pc == InEnclave(job, FirstPc(config)) && Holds(s.m)
      modifies Owned()
      ensures Holds(s'.m) && fresh(Owned() - old(Owned()))
      ensures Leads(config, o, s') && SameThreads(s, s', id) && Alone(s', id) && s'.m.now == s.m.now
      ensures (s'.m, s'.reqs[id].pc) == Call(config, s.m, id, job, FirstPc(config), world)
      ensures Returns(config, job, s'.reqs[id].pc)
      ensures made == Makes(s'.reqs[id].pc)
    {
      CallReturns(config, s.m, id, job, FirstPc(config), world);
      s' := CallRuns(config, o, s, id, job, FirstPc(config), world);
      var code, asked, reuse;
      if config.endsAtLock {
        code, asked, reuse := SignInRefines(cache, config, s.m, id, job, plan.reach, plan.live, plan.unlockReuse, world);
      } else {
        code, asked := SignPlainRefines(cache, config, s.m, id, job, plan.reach, plan.unlockReuse, world);
      }
      made := code == 64;
    }

    /** The call, and for a sign-in key the second look: a signature made while the screen
        locked stays here. */
    method Sign(ghost o: State, ghost s: State, ghost id: nat, ghost job: Job, ghost counted: nat, plan: Plan, e: Env)
        returns (made: bool, ghost s': State)
      requires Leads(config, o, s) && Alone(s, id) && GoesBy(job, plan, counted)
      requires s.reqs[id].pc == InEnclave(job, FirstPc(config))
      requires Holds(s.m) && Later(s.m.now, e.secondAt)
      modifies Owned()
      ensures Holds(s'.m) && fresh(Owned() - old(Owned()))
      ensures Leads(config, o, s') && SameThreads(s, s', id) && Alone(s', id)
      ensures s.m.now <= s'.m.now <= NowAt(s.m.now, e.secondAt)
      ensures if made then s'.reqs[id].pc.Admitting? else s'.reqs[id].pc.Failing?
      ensures GoesBy(s'.reqs[id].pc.job, plan, counted)
      ensures SignedAs(config, s.m, id, job, e, s'.m, made)
    {
      made, s' := CallEnclave(o, s, id, job, counted, plan, e.world);
      if config.endsAtLock {
        s' := TakeLook(o, s', id, e.secondAt, e.secondSaw);
        made := made && e.secondSaw == Unlocked;
      }
    }

    /** A signature is admitted or dropped. */
    method Check(ghost o: State, ghost s: State, ghost id: nat, plan: Plan, made: bool, counted: nat, now: Float)
        returns (ok: bool, leftover: bool, ghost s': State)
      requires Leads(config, o, s) && Alone(s, id) && plan.window == Window(config)
      requires if made then s.reqs[id].pc.Admitting? else s.reqs[id].pc.Failing?
      requires GoesBy(s.reqs[id].pc.job, plan, counted)
      requires Holds(s.m) && Later(s.m.now, now)
      modifies approvals
      ensures Holds(s'.m)
      ensures Leads(config, o, s') && SameThreads(s, s', id) && Alone(s', id)
      ensures if leftover then s'.reqs[id].pc.Forgetting? else s'.reqs[id].pc.Closing? && s'.reqs[id].pc.ok == ok
      ensures s'.reqs[id].pc.job.reach == plan.reach
      ensures ok == (made && s.m.signOuts == counted) && leftover == (!ok && (!plan.live || s.m.signOuts != counted))
      ensures s'.m.approved == if ok then Opened(s.m.approved, plan.reach, plan.window, plan.live, now) else s.m.approved
      ensures s'.m.held == s.m.held && s'.m.secrets == s.m.secrets
    {
      if made {
        s' := TicksTo(config, o, s, now);
        ok := AdmitRefines(approvals, config, s'.m, id, s'.reqs[id].pc.job, plan, counted, now);
        s' := Moves(config, o, s', id, At(now, Unlocked));
        leftover := !ok;
      } else {
        s' := Moves(config, o, s, id, ANY);
        ok, leftover := false, !plan.live || approvals.signOuts != counted;
      }
    }

    /** Whatever fails leaves nothing of its own behind. */
    method Finish(ghost o: State, ghost s: State, ghost id: nat, plan: Plan, made: bool, counted: nat, now: Float)
        returns (ok: bool, ghost s': State)
      requires Leads(config, o, s) && Alone(s, id) && plan.window == Window(config)
      requires if made then s.reqs[id].pc.Admitting? else s.reqs[id].pc.Failing?
      requires GoesBy(s.reqs[id].pc.job, plan, counted)
      requires Holds(s.m) && Later(s.m.now, now)
      modifies Owned()
      ensures Holds(s'.m) && fresh(Owned() - old(Owned()))
      ensures Leads(config, o, s') && SameThreads(s, s', id) && s'.reqs[id].pc == Done(ok)
      ensures s'.m.gate.Free? && s'.m.looking.Nobody?
      ensures FinishedAs(config, s.m, plan.reach, plan.live, counted, made, now, ok, s'.m)
    {
      var leftover;
      ok, leftover, s' := Check(o, s, id, plan, made, counted, now);
      if leftover {
        Forgets(s'.m, plan.reach);
      }
      s' := CloseRuns(config, o, s', id);
    }

    /** The decision, and everything it leaves uncovered let go of. */
    method Prepare(ghost o: State, ghost s: State, ghost id: nat, place: Scope, ghost refused: bool, e: Env)
        returns (plan: Plan, counted: nat, ghost s': State)
      requires Leads(config, o, s) && Alone(s, id) && s.reqs[id] == Req(place, Loading(refused)) && Holds(s.m)
      requires Later(s.m.now, e.decidedAt)
      modifies Owned()
      ensures Holds(s'.m) && fresh(Owned() - old(Owned()))
      ensures Leads(config, o, s') && SameThreads(s, s', id) && Alone(s', id) && s'.m.now == NowAt(s.m.now, e.decidedAt)
      ensures plan.window == Window(config)
      ensures if refused then s'.reqs[id].pc.Failing? else s'.reqs[id].pc.InEnclave? && s'.reqs[id].pc.enclave == FirstPc(config)
      ensures GoesBy(s'.reqs[id].pc.job, plan, counted) && SettledAs(config, s.m, place, e, s'.reqs[id].pc.job, s'.m)
    {
      plan, counted, s' := Settle(o, s, id, place, refused, e.decidedAt);
      Settles(config, s.m, id, place, refused, e);
      s' := LetGo(o, s', id, s'.reqs[id].pc.job, counted, plan);
    }

    /** The signature, and whatever comes of it. */
    method Deliver(ghost o: State, ghost m: Memory, ghost s: State, ghost id: nat, ghost job: Job, plan: Plan, counted: nat,
                   place: Scope, e: Env)
        returns (ok: bool, ghost s': State)
      requires Leads(config, o, s) && Alone(s, id) && GoesBy(job, plan, counted) && plan.window == Window(config)
      requires s.reqs[id].pc == InEnclave(job, FirstPc(config)) && Holds(s.m)
      requires Later(s.m.now, e.secondAt) && Later(NowAt(s.m.now, e.secondAt), e.admittedAt)
      requires !TurnedDown(config, e) && SettledAs(config, m, place, e, job, s.m)
      requires !Hold(config) ==> m.held == map[] && m.secrets == map[]
      modifies Owned()
      ensures Holds(s'.m) && fresh(Owned() - old(Owned()))
      ensures Leads(config, o, s') && SameThreads(s, s', id) && s'.reqs[id].pc == Done(ok)
      ensures s'.m.gate.Free? && s'.m.looking.Nobody? && ComesOut(config, m, place, e, ok, s'.m)
    {
      var made;
      made, s' := Sign(o, s, id, job, counted, plan, e);
      ghost var signed := s'.m;
      ok, s' := Finish(o, s', id, plan, made, counted, e.admittedAt);
      SignedComesOut(config, m, id, place, e, job, s.m, signed, made, ok, s'.m);
    }

    /** From the decision to the reply. */
    method Conclude(ghost o: State, ghost s: State, ghost id: nat, place: Scope, refused: bool, e: Env) returns (ok: bool, ghost s': State)
      requires Leads(config, o, s) && Alone(s, id) && s.reqs[id] == Req(place, Loading(refused)) && Holds(s.m)
      requires Later(s.m.now, e.decidedAt) && Later(NowAt(s.m.now, e.decidedAt), e.secondAt)
      requires Later(NowAt(NowAt(s.m.now, e.decidedAt), e.secondAt), e.admittedAt)
      requires refused == TurnedDown(config, e) && (refused ==> s.m.approved == map[])
      requires !Hold(config) ==> s.m.held == map[] && s.m.secrets == map[]
      modifies Owned()
      ensures Holds(s'.m) && fresh(Owned() - old(Owned()))
      ensures Leads(config, o, s') && SameThreads(s, s', id) && s'.reqs[id].pc == Done(ok)
      ensures s'.m.gate.Free? && s'.m.looking.Nobody? && ComesOut(config, s.m, place, e, ok, s'.m)
    {
      var plan, counted;
      plan, counted, s' := Prepare(o, s, id, place, refused, e);
      ghost var job := s'.reqs[id].pc.job;
      if refused {
        ghost var settled := s'.m;
        ok, s' := Finish(o, s', id, plan, false, counted, e.admittedAt);
        TurnedDownComesOut(config, s.m, place, e, job, settled, ok, s'.m);
      } else {
        ok, s' := Deliver(o, s.m, s', id, job, plan, counted, place, e);
      }
    }

    /** From taking the gate to letting it go. */
    method Handle(ghost s: State, ghost id: nat, place: Scope, e: Env) returns (ok: bool, ghost s': State)
      requires Reachable(config, s) && id !in s.reqs && s.m.gate.Free? && s.m.looking.Nobody?
      requires Holds(s.m) && Onward(s.m.now, e)
      modifies Owned()
      ensures Holds(s'.m) && fresh(Owned() - old(Owned()))
      ensures Leads(config, s, s')
      ensures s'.reqs.Keys == s.reqs.Keys + {id} && s'.reqs[id] == Req(place, Done(ok))
      ensures s'.m.gate.Free? && s'.m.looking.Nobody? && s'.watch == s.watch
      ensures ComesOut(config, AfterFirst(config, s.m, e), place, e, ok, s'.m)
    {
      Here(config, s);
      NothingWithoutAWindow(config, s);
      var refused;
      refused, s' := Enter(s, s, id, place, e);
      ghost var entered := s'.m;
      ok, s' := Conclude(s, s', id, place, refused, e);
      ComesOutAlike(config, entered, AfterFirst(config, s.m, e), place, e, ok, s'.m);
    }

    /** One request for the daemon's own key, from taking the gate to letting it go. What
        comes of it is settled by what was approved and held, the clock, the screen, the Touch
        ID and the enclave; and nothing is held afterwards that is not approved. */
    method HandleSign(ghost s: State, ghost id: nat, place: Scope, e: Env) returns (ok: bool, ghost s': State)
      requires Reachable(config, s) && id !in s.reqs && s.m.gate.Free? && s.m.looking.Nobody?
      requires Holds(s.m) && Onward(s.m.now, e)
      modifies Owned()
      ensures Holds(s'.m) && fresh(Owned() - old(Owned()))
      ensures Leads(config, s, s') && Reachable(config, s')
      ensures s'.reqs.Keys == s.reqs.Keys + {id} && s'.reqs[id] == Req(place, Done(ok))
      ensures s'.m.gate.Free? && s'.m.looking.Nobody? && s'.watch == s.watch
      ensures ok == Signs(config, AfterFirst(config, s.m, e), place, e)
      ensures approvals.approved == ApprovedAfter(config, AfterFirst(config, s.m, e), place, e)
      ensures AnswersForItself(config, old(approvals.approved), approvals.approved, place, e, ok)
      ensures forall r :: r in CachedAfter(config, AfterFirst(config, s.m, e), place, e)
                <==> if config.endsAtLock then Key(r) in cache.secrets else Key(r) in cache.held
      ensures forall r :: Key(r) in cache.held || Key(r) in cache.secrets ==> r in approvals.approved
    {
      ok, s' := Handle(s, id, place, e);
      LeadsOn(config, s, s');
      RestIsCovered(config, s');
      Covered(s'.m);
      OwnApprovalOnly(config, s.m, place, e);
    }

    /** What the objects hold is what the memory they show says. */
    lemma Covered(m: Memory)
      requires Holds(m) && forall r :: Held(m, r) ==> r in m.approved
      ensures forall r :: Key(r) in cache.held || Key(r) in cache.secrets ==> r in approvals.approved
      ensures forall r :: r in Cached(config, m) <==> if config.endsAtLock then Key(r) in cache.secrets else Key(r) in cache.held
    {
      forall r | Key(r) in cache.held || Key(r) in cache.secrets ensures r in approvals.approved {
        assert Held(m, r);
      }
    }

    // ---- the watch

    /** The watch's own look, as `TakeLook` is a request's. */
    method WatchLook(ghost o: State, ghost s: State, now: Float, saw: Screen) returns (ghost s': State)
      requires Leads(config, o, s) && config.endsAtLock && s.watch.Sleeping? && s.m.looking.Nobody?
      requires Later(s.m.now, now) && Holds(s.m)
      modifies Owned()
      ensures Holds(s'.m) && fresh(Owned() - old(Owned()))
      ensures Leads(config, o, s') && s'.reqs == s.reqs && s'.watch.Trying? && LookMade(s.m, now, saw, s'.m)
    {
      s' := WatchLookRuns(config, o, s, now, saw);
      Glance(s.m, now, saw);
    }

    method WatchReleases(ghost o: State, ghost s: State, gone: seq<Reach>) returns (ghost s': State)
      requires Leads(config, o, s) && config.endsAtLock && Holds(s.m)
      requires s.watch.WatchReleasing? && Lists(gone, s.watch.todo)
      modifies Owned()
      ensures Holds(s'.m) && fresh(Owned() - old(Owned()))
      ensures Leads(config, o, s') && s'.reqs == s.reqs && s'.watch == WatchReleasing({})
      ensures s'.m == LetGoOf(s.m, s.watch.todo)
    {
      s' := s;
      ghost var all := s.watch.todo;
      LetGoOfNothing(s.m);
      for i := 0 to |gone|
        invariant Holds(s'.m) && fresh(Owned() - old(Owned()))
        invariant Leads(config, o, s') && s'.reqs == s.reqs
        invariant s'.watch.WatchReleasing? && Lists(gone[i..], s'.watch.todo)
        invariant s'.watch.todo <= all && s'.m == LetGoOf(s.m, all - s'.watch.todo)
      {
        assert gone[i] == gone[i..][0];
        Forgets(s'.m, gone[i]);
        ListsRest(gone[i..], s'.watch.todo);
        LetGoOfOneMore(s.m, all, s'.watch.todo, gone[i]);
        s' := WatchMoves(config, o, s', Choice(true, Unlocked, true, gone[i]));
        assert gone[i..][1..] == gone[i + 1..];
      }
      ListsNothing(gone[|gone|..], s'.watch.todo);
      assert all - {} == all;
    }

    /** With the gate in hand, lets go of what ran out, and of nothing else. */
    method WatchExpires(ghost o: State, ghost s: State, now: Float) returns (ghost s': State)
      requires Leads(config, o, s) && config.endsAtLock && s.watch.Expiring? && Later(s.m.now, now) && Holds(s.m)
      modifies Owned()
      ensures Holds(s'.m) && fresh(Owned() - old(Owned()))
      ensures Leads(config, o, s') && s'.reqs == s.reqs && s'.watch.Sleeping? && s'.m.gate.Free?
      ensures s'.m.looking == s.m.looking && s'.m.looked == s.m.looked && s'.m.signOuts == s.m.signOuts
      ensures s'.m.approved == Pruned(s.m.approved, Window(config), now)
      ensures s'.m.held == s.m.held - Expired(s.m.approved, Window(config), now)
      ensures s'.m.secrets == s.m.secrets - Expired(s.m.approved, Window(config), now)
    {
      s' := TicksTo(config, o, s, now);
      var gone := ExpireRefines(approvals, config, s'.m, now);
      s' := WatchMoves(config, o, s', At(now, Unlocked));
      s' := WatchReleases(o, s', gone);
      s' := WatchMoves(config, o, s', ANY);
    }

    /** The look, and if the gate is idle what has run out. */
    method WatchRound(ghost o: State, ghost s: State, lookedAt: Float, saw: Screen, idle: bool, expiredAt: Float)
        returns (ghost s': State)
      requires Leads(config, o, s) && config.endsAtLock && s.watch.Sleeping? && s.m.looking.Nobody?
      requires Holds(s.m) && Later(s.m.now, lookedAt) && Later(NowAt(s.m.now, lookedAt), expiredAt)
      requires idle <==> s.m.gate.Free?
      modifies Owned()
      ensures Holds(s'.m) && fresh(Owned() - old(Owned()))
      ensures Leads(config, o, s') && s'.reqs == s.reqs && s'.watch.Sleeping?
      ensures s'.m.gate == s.m.gate && s'.m.looking.Nobody?
      ensures s'.m.looked == Protocol.Look(lookedAt, saw) && WatchedAs(config, s.m, lookedAt, saw, idle, expiredAt, s'.m)
    {
      s' := WatchLook(o, s, lookedAt, saw);
      ghost var seen := s'.m;
      s' := WatchMoves(config, o, s', ANY);
      if idle {
        s' := WatchExpires(o, s', expiredAt);
        WatchedAndExpired(config, s.m, lookedAt, saw, seen, expiredAt, s'.m);
      } else {
        WatchedOnly(config, s.m, lookedAt, saw, seen, expiredAt, s'.m);
      }
    }

    /** One turn of the screen watch. A bad look leaves nothing approved and nothing held; a
        good one takes away only what has run out, and not even that while a request is past
        the gate, for which the watch does not wait. */
    method WatchTurn(ghost s: State, lookedAt: Float, saw: Screen, idle: bool, expiredAt: Float) returns (ghost s': State)
      requires Reachable(config, s) && config.endsAtLock && s.watch.Sleeping? && s.m.looking.Nobody?
      requires Holds(s.m) && Later(s.m.now, lookedAt) && Later(NowAt(s.m.now, lookedAt), expiredAt)
      requires idle <==> s.m.gate.Free?
      modifies Owned()
      ensures Holds(s'.m) && fresh(Owned() - old(Owned()))
      ensures Leads(config, s, s') && Reachable(config, s') && s'.reqs == s.reqs && s'.watch.Sleeping?
      ensures s'.m.gate == s.m.gate && s'.m.looking.Nobody? && looked == Protocol.Look(lookedAt, saw)
      ensures saw != Unlocked || old(looked.at).NaN? || lookedAt.NaN? || lookedAt.v - old(looked.at).v >= 3.0 ==>
        && approvals.approved == map[] && approvals.signOuts == old(approvals.signOuts) + 1
        && forall r :: Key(r) !in cache.held && Key(r) !in cache.secrets
      ensures saw == Unlocked && old(looked.at).Val? && lookedAt.Val? && lookedAt.v - old(looked.at).v < 3.0 ==>
        && approvals.approved == (if idle then Pruned(old(approvals.approved), Window(config), expiredAt) else old(approvals.approved))
        && approvals.signOuts == old(approvals.signOuts)
        && (forall r :: Key(r) in cache.secrets <==> Key(r) in old(cache.secrets) && !(idle && r in Expired(old(approvals.approved), Window(config), expiredAt)))
        && (forall r :: Key(r) in cache.held <==> Key(r) in old(cache.held) && !(idle && r in Expired(old(approvals.approved), Window(config), expiredAt)))
    {
      Here(config, s);
      s' := WatchRound(s, s, lookedAt, saw, idle, expiredAt);
      LeadsOn(config, s, s');
    }
  }

  /** What a turn of the watch leaves. */
  ghost predicate WatchedAs(c: Config, m: Memory, lookedAt: Float, saw: Screen, idle: bool, expiredAt: Float, m': Memory) {
    if Bad(m.looked.at, lookedAt, saw) then
      m'.approved == map[] && m'.held == map[] && m'.secrets == map[] && m'.signOuts == m.signOuts + 1
    else
      var gone := if idle then Expired(m.approved, Window(c), expiredAt) else {};
      && m'.approved == (if idle then Pruned(m.approved, Window(c), expiredAt) else m.approved)
      && m'.held == m.held - gone && m'.secrets == m.secrets - gone && m'.signOuts == m.signOuts
  }

  lemma WatchedOnly(c: Config, m: Memory, lookedAt: Float, saw: Screen, looked: Memory, expiredAt: Float, m': Memory)
    requires LookMade(m, lookedAt, saw, looked) && m'.approved == looked.approved && m'.signOuts == looked.signOuts
    requires m'.held == looked.held && m'.secrets == looked.secrets
    ensures WatchedAs(c, m, lookedAt, saw, false, expiredAt, m')
  {
    assert m'.held - {} == m'.held && m'.secrets - {} == m'.secrets;
  }

  lemma WatchedAndExpired(c: Config, m: Memory, lookedAt: Float, saw: Screen, looked: Memory, expiredAt: Float, m': Memory)
    requires LookMade(m, lookedAt, saw, looked)
    requires m'.approved == Pruned(looked.approved, Window(c), expiredAt) && m'.signOuts == looked.signOuts
    requires m'.held == looked.held - Expired(looked.approved, Window(c), expiredAt)
    requires m'.secrets == looked.secrets - Expired(looked.approved, Window(c), expiredAt)
    ensures WatchedAs(c, m, lookedAt, saw, true, expiredAt, m')
  {
  }

  // ---- letting go

  lemma LetGoOfNothing(m: Memory)
    ensures forall all: set<Reach> :: LetGoOf(m, all - all) == m
  {
    assert m.held - {} == m.held && m.secrets - {} == m.secrets;
  }

  lemma LetGoOfMore(m: Memory, gone: set<Reach>, more: set<Reach>)
    ensures LetGoOf(LetGoOf(m, gone), more) == LetGoOf(m, gone + more)
  {
    assert m.held - gone - more == m.held - (gone + more);
    assert m.secrets - gone - more == m.secrets - (gone + more);
  }

  lemma LetGoOfOneMore(m: Memory, all: set<Reach>, todo: set<Reach>, r: Reach)
    requires r in todo && todo <= all
    ensures Forget(LetGoOf(m, all - todo), r) == LetGoOf(m, all - (todo - {r}))
  {
    LetGoOfMore(m, all - todo, {r});
    assert all - todo + {r} == all - (todo - {r});
  }

  /** As far as the rest of a request can tell, two memories are the same. */
  predicate SameFor(c: Config, m: Memory, m': Memory) {
    && m.approved == m'.approved && m.signOuts == m'.signOuts && m.looked == m'.looked
    && m.held == m'.held && m.secrets == m'.secrets
  }

  lemma FirstLookMade(c: Config, m: Memory, n: Memory, e: Env, m': Memory)
    requires c.endsAtLock && SameFor(c, m, n) && LookMade(n, e.firstAt, e.firstSaw, m')
    ensures SameFor(c, m', AfterFirst(c, m, e))
  {
  }

  lemma ListsNothing(gone: seq<Reach>, todo: set<Reach>)
    requires Lists(gone, todo) && gone == []
    ensures todo == {}
  {
    assert forall r :: r in todo <==> r in gone;
  }

  lemma ListsRest(gone: seq<Reach>, todo: set<Reach>)
    requires Lists(gone, todo) && gone != []
    ensures gone[0] in todo && Lists(gone[1..], todo - {gone[0]})
  {
    var rest := gone[1..];
    forall r ensures r in rest <==> r in todo - {gone[0]} {
      if r in rest {
        var k :| 0 <= k < |rest| && rest[k] == r;
        assert gone[k + 1] == r;
      }
      if r in todo - {gone[0]} {
        var k :| 0 <= k < |gone| && gone[k] == r;
        assert rest[k - 1] == r;
      }
    }
  }

  lemma RestIsCovered(c: Config, s: State)
    requires Reachable(c, s) && s.m.gate.Free? && s.m.looking.Nobody?
    ensures forall r :: Held(s.m, r) ==> r in s.m.approved
  {
    forall r ensures Held(s.m, r) ==> r in s.m.approved {
      HeldIsApproved(c, s, r);
    }
  }

  /** With a window of nothing, nothing is ever held. */
  lemma NothingWithoutAWindow(c: Config, s: State)
    requires Reachable(c, s)
    ensures !Hold(c) ==> s.m.held == map[] && s.m.secrets == map[]
  {
    ReachableInv(c, s);
  }

  lemma ComesOutAlike(c: Config, m: Memory, n: Memory, place: Scope, e: Env, ok: bool, m': Memory)
    requires SameFor(c, m, n) && ComesOut(c, m, place, e, ok, m')
    ensures ComesOut(c, n, place, e, ok, m')
  {
  }
}
