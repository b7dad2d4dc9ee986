/** One request, or one turn of the watch, with no other thread in between: the run of the
    step system it is, and what comes of it for what the world answers. */
module Uninterrupted {
  import opened Seconds
  import opened Approval
  import opened Protocol
  import opened Locks
  import opened ContextCaches
  import opened Refinement
  import opened Runs

  /** How the world answers one request: clock, screen, Touch ID, enclave. */
  datatype Env = Env(
    firstAt: Float, firstSaw: Screen,
    decidedAt: Float,
    world: World,
    secondAt: Float, secondSaw: Screen,
    admittedAt: Float)

  // ---- the clock does not run backwards

  predicate Later(now: real, t: Float) {
    t.Val? ==> now <= t.v
  }

  function NowAt(now: real, t: Float): real {
    if t.Val? then t.v else now
  }

  predicate Onward(now: real, e: Env) {
    var first := NowAt(now, e.firstAt);
    var decided := NowAt(first, e.decidedAt);
    var second := NowAt(decided, e.secondAt);
    && Later(now, e.firstAt) && Later(first, e.decidedAt) && Later(decided, e.secondAt) && Later(second, e.admittedAt)
  }

  // ---- runs of one request

  function At(t: Float, saw: Screen): Choice {
    Choice(t.Val?, saw, true, Everywhere)
  }

  const ANY := Choice(true, Unlocked, true, Everywhere)

  predicate Bad(last: Float, now: Float, saw: Screen) {
    saw != Unlocked || Unseen(last, now)
  }

  /** What a whole look leaves of the memory. */
  ghost predicate LookMade(m: Memory, now: Float, saw: Screen, m': Memory) {
    && m'.looking.Nobody? && m'.gate == m.gate && m'.now == NowAt(m.now, now) && m'.looked == Protocol.Look(now, saw)
    && (if Bad(m.looked.at, now, saw) then
          m'.approved == map[] && m'.signOuts == m.signOuts + 1 && m'.held == map[] && m'.secrets == map[]
        else
          m'.approved == m.approved && m'.signOuts == m.signOuts && m'.held == m.held && m'.secrets == m.secrets)
  }

  /** A sign-out under `looked`, both halves. */
  lemma SignOutRuns(c: Config, o: State, s: State, id: nat) returns (s': State)
    requires Leads(c, o, s) && id in s.reqs && Looks(s.reqs[id].pc)
    requires s.m.looking.Looker? && s.m.looking.who == Request(id) && s.m.looking.stage == Ending
    ensures Leads(c, o, s') && s'.reqs.Keys == s.reqs.Keys && s'.reqs[id] == s.reqs[id] && s'.watch == s.watch
    ensures s'.m == ForgetAll(EndApprovals(s.m)).(looking := s.m.looking.(stage := Leaving))
  {
    s' := Moves(c, o, s, id, ANY);
    s' := Moves(c, o, s', id, ANY);
  }

  /** The memory just before `looked` is let go of. */
  function Looking(m: Memory, who: Who, now: Float, saw: Screen): Memory
    requires m.looking.Nobody?
  {
    var m' := BeginLook(m.(now := NowAt(m.now, now)), who, At(now, saw));
    if m'.looking.stage == Leaving then m' else ForgetAll(EndApprovals(m')).(looking := m'.looking.(stage := Leaving))
  }

  lemma LookingMakesALook(m: Memory, who: Who, now: Float, saw: Screen)
    requires m.looking.Nobody? && Later(m.now, now)
    ensures var m' := Looking(m, who, now, saw);
      LookMade(m, now, saw, m'.(looking := Nobody)) && m'.looking == Looker(who, Leaving, saw, |m.history|)
  {
  }

  /** The look itself, up to letting go of `looked`. */
  lemma LookBeginsRun(c: Config, o: State, s: State, id: nat, now: Float, saw: Screen) returns (s': State)
    requires Leads(c, o, s) && id in s.reqs && Looks(s.reqs[id].pc)
    requires s.m.looking.Nobody? && Later(s.m.now, now)
    ensures Leads(c, o, s') && s'.reqs.Keys == s.reqs.Keys && s'.reqs[id] == s.reqs[id] && s'.watch == s.watch
    ensures s'.m == Looking(s.m, Request(id), now, saw)
  {
    s' := TicksTo(c, o, s, now);
    s' := Moves(c, o, s', id, At(now, saw));
    if s'.m.looking.stage == Ending {
      s' := SignOutRuns(c, o, s', id);
    }
  }

  lemma LookRuns(c: Config, o: State, s: State, id: nat, now: Float, saw: Screen) returns (s': State)
    requires Leads(c, o, s) && id in s.reqs && Looks(s.reqs[id].pc)
    requires s.m.looking.Nobody? && Later(s.m.now, now)
    ensures Leads(c, o, s') && s'.reqs.Keys == s.reqs.Keys && s'.reqs[id].place == s.reqs[id].place && s'.watch == s.watch
    ensures LookMade(s.m, now, saw, s'.m)
    ensures s.reqs[id].pc.FirstLook? ==> s'.reqs[id].pc == Loading(saw != Unlocked)
    ensures s.reqs[id].pc.SecondLook? ==>
      s'.reqs[id].pc == if saw != Unlocked || !s.reqs[id].pc.made then Failing(s.reqs[id].pc.job)
                        else Admitting(s.reqs[id].pc.job.(lookedAt := |s.m.history|))
  {
    LookingMakesALook(s.m, Request(id), now, saw);
    s' := LookBeginsRun(c, o, s, id, now, saw);
    s' := Moves(c, o, s', id, ANY);
  }

  lemma WatchSignOutRuns(c: Config, o: State, s: State) returns (s': State)
    requires Leads(c, o, s) && c.endsAtLock && s.watch.WatchLooking?
    requires s.m.looking.Looker? && s.m.looking.who == Watch && s.m.looking.stage == Ending
    ensures Leads(c, o, s') && s'.reqs == s.reqs && s'.watch == s.watch
    ensures s'.m == ForgetAll(EndApprovals(s.m)).(looking := s.m.looking.(stage := Leaving))
  {
    s' := WatchMoves(c, o, s, ANY);
    s' := WatchMoves(c, o, s', ANY);
  }

  lemma WatchLookBegins(c: Config, o: State, s: State, now: Float, saw: Screen) returns (s': State)
    requires Leads(c, o, s) && c.endsAtLock && s.watch.Sleeping? && s.m.looking.Nobody? && Later(s.m.now, now)
    ensures Leads(c, o, s') && s'.reqs == s.reqs && s'.watch.WatchLooking? && s'.m == Looking(s.m, Watch, now, saw)
  {
    s' := WatchMoves(c, o, s, ANY);
    s' := TicksTo(c, o, s', now);
    s' := WatchMoves(c, o, s', At(now, saw));
    if s'.m.looking.stage == Ending {
      s' := WatchSignOutRuns(c, o, s');
    }
  }

  /** The watch wakes, looks, and is about to try the gate. */
  lemma WatchLookRuns(c: Config, o: State, s: State, now: Float, saw: Screen) returns (s': State)
    requires Leads(c, o, s) && c.endsAtLock && s.watch.Sleeping? && s.m.looking.Nobody? && Later(s.m.now, now)
    ensures Leads(c, o, s') && s'.reqs == s.reqs && s'.watch.Trying? && LookMade(s.m, now, saw, s'.m)
  {
    LookingMakesALook(s.m, Watch, now, saw);
    s' := WatchLookBegins(c, o, s, now, saw);
    s' := WatchMoves(c, o, s', ANY);
  }

  lemma {:induction false} CallRuns(c: Config, o: State, s: State, id: nat, job: Job, enclave: EnclavePc, world: World) returns (s': State)
    requires Leads(c, o, s) && id in s.reqs && s.reqs[id].pc == InEnclave(job, enclave)
    ensures Leads(c, o, s') && s'.reqs.Keys == s.reqs.Keys && s'.reqs[id].place == s.reqs[id].place && s'.watch == s.watch
    ensures (s'.m, s'.reqs[id].pc) == Call(c, s.m, id, job, enclave, world)
    decreases StageOf(InEnclave(job, enclave))
  {
    EnclaveIsFinite(c, s.m, id, job, enclave, Refinement.Answer(enclave, world));
    s' := Moves(c, o, s, id, Refinement.Answer(enclave, world));
    if s'.reqs[id].pc.InEnclave? {
      s' := CallRuns(c, o, s', id, s'.reqs[id].pc.job, s'.reqs[id].pc.enclave, world);
    }
  }

  /** Where a call leaves its request. */
  predicate Returns(c: Config, job: Job, pc: Pc) {
    && (if c.endsAtLock then pc.SecondLook? else pc.Admitting? || pc.Failing?)
    && pc.job.reach == job.reach && pc.job.live == job.live && pc.job.counted == job.counted
  }

  lemma {:induction false} CallReturns(c: Config, m: Memory, id: nat, job: Job, enclave: EnclavePc, world: World)
    ensures var (m', pc') := Call(c, m, id, job, enclave, world);
      && Returns(c, job, pc')
      && m' == m.(held := m'.held, secrets := m'.secrets, history := m'.history)
    decreases StageOf(InEnclave(job, enclave))
  {
    EnclaveIsFinite(c, m, id, job, enclave, Refinement.Answer(enclave, world));
    var (m', pc') := EnclaveStep(c, m, id, job, enclave, Refinement.Answer(enclave, world));
    if pc'.InEnclave? {
      CallReturns(c, m', id, pc'.job, pc'.enclave, world);
    }
  }

  /** A request arrives and takes the gate. */
  lemma EnterRuns(c: Config, o: State, s: State, id: nat, place: Scope) returns (s': State)
    requires Leads(c, o, s) && id !in s.reqs && s.m.gate.Free?
    ensures Leads(c, o, s') && s'.reqs.Keys == s.reqs.Keys + {id} && s'.watch == s.watch
    ensures s'.m == s.m.(gate := Taken(Request(id)))
    ensures s'.reqs[id] == Req(place, if c.endsAtLock then FirstLook else Loading(false))
  {
    s' := Arrives(c, o, s, id, place);
    s' := Moves(c, o, s', id, ANY);
  }

  /** The memory a request decides on. */
  function Counted(m: Memory, id: nat, now: Float): Memory {
    Log(m, Loaded(id)).(now := NowAt(m.now, now))
  }

  lemma DecisionRuns(c: Config, o: State, s: State, id: nat, place: Scope, refused: bool, now: Float) returns (s': State)
    requires Leads(c, o, s) && Alone(s, id) && s.reqs[id] == Req(place, Loading(refused)) && Later(s.m.now, now)
    ensures Leads(c, o, s') && SameThreads(s, s', id)
    ensures (s'.m, s'.reqs[id].pc) ==
      Decide(c, Counted(s.m, id, now), id, place, Deciding(refused, s.m.signOuts, |s.m.history|), now)
  {
    s' := Moves(c, o, s, id, ANY);
    s' := TicksTo(c, o, s', now);
    s' := Moves(c, o, s', id, At(now, Unlocked));
  }

  lemma BeginRuns(c: Config, o: State, s: State, id: nat, job: Job) returns (s': State)
    requires Leads(c, o, s) && Alone(s, id) && s.reqs[id].pc == Releasing(job, {})
    ensures Leads(c, o, s') && SameThreads(s, s', id)
    ensures s'.m == (if job.live then s.m else Forget(s.m, job.reach)) && s'.reqs[id].pc == Begin(c, job)
  {
    s' := Moves(c, o, s, id, ANY);
    if !job.live {
      s' := Moves(c, o, s', id, ANY);
    }
  }

  /** The checks are over: whatever is to be forgotten is, and the gate is let go. */
  lemma CloseRuns(c: Config, o: State, s: State, id: nat) returns (s': State)
    requires Leads(c, o, s) && Alone(s, id) && (s.reqs[id].pc.Forgetting? || s.reqs[id].pc.Closing?)
    ensures Leads(c, o, s') && SameThreads(s, s', id)
    ensures var pc := s.reqs[id].pc;
      var (m, ok) := if pc.Forgetting? then (Forget(s.m, pc.job.reach), false) else (s.m, pc.ok);
      s'.m == Log(m, Replied(id, ok)).(gate := Free) && s'.reqs[id].pc == Done(ok)
  {
    s' := s;
    if s.reqs[id].pc.Forgetting? {
      s' := Moves(c, o, s', id, ANY);
    }
    s' := Moves(c, o, s', id, ANY);
  }

  function LetGoOf(m: Memory, gone: set<Reach>): Memory {
    m.(held := m.held - gone, secrets := m.secrets - gone)
  }

  /** The request past the gate goes on with `plan`, having read `counted`. */
  predicate GoesBy(job: Job, plan: Plan, counted: nat) {
    job.reach == plan.reach && job.live == plan.live && job.counted == counted
  }

  /** Request `id` is the only thread part-way through anything that excludes others. */
  predicate Alone(s: State, id: nat) {
    id in s.reqs && s.m.gate == Taken(Request(id)) && s.m.looking.Nobody?
  }

  /** The same threads, and the same place asked from. */
  predicate SameThreads(s: State, s': State, id: nat) {
    id in s.reqs && s'.reqs.Keys == s.reqs.Keys && s'.reqs[id].place == s.reqs[id].place && s'.watch == s.watch
  }

  function FirstPc(c: Config): EnclavePc {
    if c.endsAtLock then Reading else Taking
  }

  // ---- what comes of a request

  /** The first look's screen turns the request away before it can sign. */
  predicate TurnedDown(c: Config, e: Env) {
    c.endsAtLock && e.firstSaw != Unlocked
  }

  /** What the first look leaves, as far as the rest of the request can tell. */
  function AfterFirst(c: Config, m: Memory, e: Env): Memory {
    if !c.endsAtLock then m
    else
      var m' := m.(looked := Protocol.Look(e.firstAt, e.firstSaw));
      if Bad(m.looked.at, e.firstAt, e.firstSaw) then
        m'.(approved := map[], signOuts := m.signOuts + 1, held := map[], secrets := map[])
      else m'
  }

  function ReachFor(c: Config, place: Scope): Reach {
    GrantFor(c, place).0
  }

  function Cached(c: Config, m: Memory): set<Reach> {
    if c.endsAtLock then m.secrets.Keys else m.held.Keys
  }

  predicate Live(c: Config, m: Memory, place: Scope, e: Env) {
    Covers(m.approved, ReachFor(c, place), Window(c), e.decidedAt)
  }

  /** The request is covered, and something is held for it. */
  predicate Found(c: Config, m: Memory, place: Scope, e: Env) {
    Live(c, m, place, e) && ReachFor(c, place) in Cached(c, m)
  }

  /** The second look signs everybody out. */
  predicate SecondBad(c: Config, m: Memory, e: Env) {
    c.endsAtLock && Bad(m.looked.at, e.secondAt, e.secondSaw)
  }

  /** What the request signs with is there: it was held, or the world gives it up. */
  predicate Granted(c: Config, m: Memory, place: Scope, e: Env) {
    || Found(c, m, place, e)
    || (if c.endsAtLock then !Live(c, m, place, e) && Released(c.approve, e.world) else !c.approve || e.world.touched)
  }

  /** A signature goes back: no look was bad, the request had what it takes to sign, and the
      enclave signed. */
  predicate Signs(c: Config, m: Memory, place: Scope, e: Env) {
    !TurnedDown(c, e) && Granted(c, m, place, e) && Whole(e.world.signed) && !SecondBad(c, m, e)
  }

  function ApprovedAfter(c: Config, m: Memory, place: Scope, e: Env): Table {
    if !TurnedDown(c, e) && SecondBad(c, m, e) then map[]
    else
      var kept := Pruned(m.approved, Window(c), e.decidedAt);
      if Signs(c, m, place, e) then Opened(kept, ReachFor(c, place), Window(c), Live(c, m, place, e), e.admittedAt)
      else kept
  }

  /** The scopes something is held for: those it was held for before and that have not run
      out, and the request's own if it is covered, or has just been, and has what it takes. */
  function CachedAfter(c: Config, m: Memory, place: Scope, e: Env): set<Reach> {
    if !TurnedDown(c, e) && SecondBad(c, m, e) then {}
    else
      var own := {ReachFor(c, place)};
      var others := Cached(c, m) - Expired(m.approved, Window(c), e.decidedAt) - own;
      if Found(c, m, place, e) then others + own
      else if Hold(c) && Signs(c, m, place, e) then others + own
      else if Hold(c) && !c.endsAtLock && Live(c, m, place, e) && Granted(c, m, place, e) then others + own
      else others
  }

  /** A request answers for one approval and leaves every other as it was or lets it go: for
      its own place, or for everything when a sign-in is in force. With a sign-in key it
      succeeds only under an unlocked screen, seen twice less than three seconds apart. */
  predicate AnswersForItself(c: Config, before: Table, after: Table, place: Scope, e: Env, ok: bool) {
    var own := if c.approve && c.signInSecs.Val? && c.signInSecs.v > 0.0 then Everywhere else Place(place);
    && (forall r | r in after && r != own :: r in before && after[r] == before[r])
    && (own in after ==> (own in before && after[own] == before[own]) || (ok && after[own] == e.admittedAt))
    && (ok && Hold(c) ==> own in after)
    && (ok && c.endsAtLock ==>
          && e.firstSaw == Unlocked && e.secondSaw == Unlocked
          && e.firstAt.Val? && e.secondAt.Val? && e.secondAt.v - e.firstAt.v < 3.0)
  }

  lemma OwnApprovalOnly(c: Config, m: Memory, place: Scope, e: Env)
    ensures var n := AfterFirst(c, m, e);
      AnswersForItself(c, m.approved, ApprovedAfter(c, n, place, e), place, e, Signs(c, n, place, e))
  {
  }

  // ---- the pieces

  /** The call into the enclave half and, for a sign-in key, the second look. */
  ghost predicate SignedAs(c: Config, m: Memory, id: nat, job: Job, e: Env, m': Memory, made: bool) {
    var (m1, pc1) := Call(c, m, id, job, FirstPc(c), e.world);
    if c.endsAtLock then
      LookMade(m1, e.secondAt, e.secondSaw, m') && made == (pc1.SecondLook? && pc1.made && e.secondSaw == Unlocked)
    else m' == m1 && made == pc1.Admitting?
  }

  lemma SignInSigned(c: Config, m: Memory, id: nat, job: Job, e: Env, m': Memory, made: bool)
    requires SignedAs(c, m, id, job, e, m', made) && c.endsAtLock && (!Hold(c) ==> m.secrets == map[])
    ensures var found := job.reach in m.secrets;
      made <==> (found || (!job.live && Released(c.approve, e.world))) && Whole(e.world.signed) && e.secondSaw == Unlocked
    ensures if Bad(m.looked.at, e.secondAt, e.secondSaw) then
              m'.approved == map[] && m'.secrets == map[] && m'.signOuts == m.signOuts + 1
            else
              && m'.approved == m.approved && m'.signOuts == m.signOuts
              && m'.secrets.Keys == m.secrets.Keys
                 + (if job.reach !in m.secrets && !job.live && Released(c.approve, e.world) && Hold(c) then {job.reach} else {})
  {
    CallReturns(c, m, id, job, Reading, e.world);
    SignInCall(c, m, id, job, e.world);
  }

  lemma PlainSigned(c: Config, m: Memory, id: nat, job: Job, e: Env, m': Memory, made: bool)
    requires SignedAs(c, m, id, job, e, m', made) && !c.endsAtLock && (!Hold(c) ==> m.held == map[])
    ensures var found := job.reach in m.held;
      made <==> (found || !c.approve || e.world.touched) && Whole(e.world.signed)
    ensures m'.approved == m.approved && m'.signOuts == m.signOuts
    ensures m'.held.Keys ==
      if job.reach in m.held then m.held.Keys
      else if c.approve && !e.world.touched then m.held.Keys - {job.reach}
      else if Hold(c) then m.held.Keys + {job.reach}
      else m.held.Keys
  {
    CallReturns(c, m, id, job, Taking, e.world);
    PlainCall(c, m, id, job, e.world);
  }

  /** What the decision, and letting go after it, leave of `m`. */
  ghost predicate SettledAs(c: Config, m: Memory, place: Scope, e: Env, job: Job, m': Memory) {
    var gone := Expired(m.approved, Window(c), e.decidedAt) + if job.live then {} else {job.reach};
    && job.reach == ReachFor(c, place) && job.live == Live(c, m, place, e) && job.counted == m.signOuts
    && m'.approved == Pruned(m.approved, Window(c), e.decidedAt)
    && m'.signOuts == m.signOuts && m'.looked == m.looked
    && m'.held.Keys == m.held.Keys - gone && m'.secrets.Keys == m.secrets.Keys - gone
  }

  lemma Settles(c: Config, m: Memory, id: nat, place: Scope, refused: bool, e: Env)
    ensures var (m1, pc1) := Decide(c, Counted(m, id, e.decidedAt), id, place, Deciding(refused, m.signOuts, |m.history|), e.decidedAt);
      SettledAs(c, m, place, e, pc1.job, LetGoOf(m1, pc1.todo + if pc1.job.live then {} else {pc1.job.reach}))
  {
  }

  /** What the check at the end, and forgetting after it, leave of `m`. */
  ghost predicate FinishedAs(c: Config, m: Memory, reach: Reach, live: bool, counted: nat, made: bool, now: Float, ok: bool, m': Memory) {
    var spared := ok || (live && m.signOuts == counted);
    && ok == (made && m.signOuts == counted)
    && m'.approved == (if ok then Opened(m.approved, reach, Window(c), live, now) else m.approved)
    && m'.held == (if spared then m.held else m.held - {reach})
    && m'.secrets == (if spared then m.secrets else m.secrets - {reach})
  }

  ghost predicate ComesOut(c: Config, m: Memory, place: Scope, e: Env, ok: bool, m': Memory) {
    && ok == Signs(c, m, place, e)
    && m'.approved == ApprovedAfter(c, m, place, e)
    && Cached(c, m') == CachedAfter(c, m, place, e)
  }

  lemma TurnedDownComesOut(c: Config, m: Memory, place: Scope, e: Env, job: Job, m1: Memory, ok: bool, m': Memory)
    requires TurnedDown(c, e) && m.approved == map[]
    requires SettledAs(c, m, place, e, job, m1) && FinishedAs(c, m1, job.reach, job.live, job.counted, false, e.admittedAt, ok, m')
    ensures ComesOut(c, m, place, e, ok, m')
  {
  }

  lemma SignInComesOut(c: Config, m: Memory, id: nat, place: Scope, e: Env, job: Job, m1: Memory, m2: Memory, made: bool, ok: bool, m': Memory)
    requires c.endsAtLock && !TurnedDown(c, e) && (!Hold(c) ==> m.secrets == map[])
    requires SettledAs(c, m, place, e, job, m1) && SignedAs(c, m1, id, job, e, m2, made)
    requires FinishedAs(c, m2, job.reach, job.live, job.counted, made, e.admittedAt, ok, m')
    ensures ComesOut(c, m, place, e, ok, m')
  {
    SignInSigned(c, m1, id, job, e, m2, made);
  }

  lemma PlainComesOut(c: Config, m: Memory, id: nat, place: Scope, e: Env, job: Job, m1: Memory, m2: Memory, made: bool, ok: bool, m': Memory)
    requires !c.endsAtLock && (!Hold(c) ==> m.held == map[])
    requires SettledAs(c, m, place, e, job, m1) && SignedAs(c, m1, id, job, e, m2, made)
    requires FinishedAs(c, m2, job.reach, job.live, job.counted, made, e.admittedAt, ok, m')
    ensures ComesOut(c, m, place, e, ok, m')
  {
    PlainSigned(c, m1, id, job, e, m2, made);
  }

  lemma SignedComesOut(c: Config, m: Memory, id: nat, place: Scope, e: Env, job: Job, m1: Memory, m2: Memory, made: bool, ok: bool, m': Memory)
    requires !TurnedDown(c, e) && (!Hold(c) ==> m.held == map[] && m.secrets == map[])
    requires SettledAs(c, m, place, e, job, m1) && SignedAs(c, m1, id, job, e, m2, made)
    requires FinishedAs(c, m2, job.reach, job.live, job.counted, made, e.admittedAt, ok, m')
    ensures ComesOut(c, m, place, e, ok, m')
  {
    if c.endsAtLock {
      SignInComesOut(c, m, id, place, e, job, m1, m2, made, ok, m');
    } else {
      PlainComesOut(c, m, id, place, e, job, m1, m2, made, ok, m');
    }
  }
}
