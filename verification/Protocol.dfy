/** The daemon's own-key path as a step system: any number of request threads
    (`handle_sign`), the screen watch, and between them a clock, a screen and a Touch ID
    that answer as they please.

    One step is one critical section or one call into the enclave half. `looked` is held
    across several steps and so is `sign_gate`; `approved` and the enclave's cache are
    only ever locked for a single step, with no other lock taken inside. */
module Protocol {
  import opened Seconds
  import opened Approval

  datatype Screen = Unlocked | Locked | Away | Unreadable

  datatype Look = Look(at: Float, saw: Screen)

  datatype Who = Request(id: nat) | Watch

  /** What one request carries from its decision on. The last six are bookkeeping no
      branch reads: places in the history, and whose Touch ID the signature rests on. */
  datatype Job = Job(
    refused: bool,
    counted: nat,
    reach: Reach,
    live: bool,
    loadedAt: nat,
    decidedAt: nat,
    since: nat,
    using: nat,
    madeAt: nat,
    lookedAt: nat)

  /** What happened, in order. */
  datatype Event =
    | Looked(who: Who, before: Float, at: Float, saw: Screen)
    | Ended                                              // every approval, at once
    | Wiped                                              // the cache, at once
    | Loaded(id: nat)                                    // the count of sign-outs was read
    | Decided(id: nat, reach: Reach, at: Float, live: bool)
    | Asked(id: nat, reach: Reach, riding: bool, ok: bool) // the daemon's own Touch ID check
    | Built(id: nat, reach: Reach, riding: bool)         // a plain key's context was made
    | Kept(id: nat, reach: Reach)                        // a sign-in key's secret was kept
    | Made(id: nat, using: nat)                          // the enclave returned a signature
    | Admitted(id: nat, at: Float, job: Job)
    | Refused(id: nat, job: Job)                         // the count had moved
    | Failed(id: nat, job: Job)                          // the error branch ran
    | Replied(id: nat, ok: bool)

  datatype EnclavePc =
    | Reading      // sign-in key: look for the secret
    | Asking       // the daemon's own Touch ID check is up
    | Agreeing     // sign-in key: the unlock key reproduces the secret
    | Keeping      // sign-in key: keep it
    | Taking       // plain key: find or make a context
    | Unholding    // plain key: the check failed
    | Making       // the signature itself

  datatype Pc =
    | Arriving
    | FirstLook
    | Loading(refused: bool)
    | Deciding(refused: bool, counted: nat, loadedAt: nat)
    | Releasing(job: Job, todo: set<Reach>)
    | Dropping(job: Job)
    | InEnclave(job: Job, enclave: EnclavePc)
    | SecondLook(job: Job, made: bool)
    | Admitting(job: Job)
    | Failing(job: Job)
    | Forgetting(job: Job, checkedAt: nat)
    | Closing(job: Job, checkedAt: nat, ok: bool)
    | Done(ok: bool)

  datatype WatchPc =
    | Sleeping
    | WatchLooking
    | Trying
    | Expiring
    | WatchReleasing(todo: set<Reach>)

  datatype Stage = Ending | Wiping | Leaving

  /** Who holds `looked`, and how far the look made under it has come. */
  datatype Looking =
    | Nobody
    | Looker(who: Who, stage: Stage, saw: Screen, index: nat)

  datatype Gate = Free | Taken(who: Who)

  datatype Request = Req(place: Scope, pc: Pc)

  /** The memory the threads share. `held` maps a scope to the request that made its
      context, `secrets` to the request whose Touch ID released its secret, and `origin`
      an approval to the place in the history where it was opened. */
  datatype Memory = Memory(
    now: real,
    approved: Table,
    signOuts: nat,
    looked: Look,
    looking: Looking,
    gate: Gate,
    held: map<Reach, nat>,
    secrets: map<Reach, nat>,
    origin: map<Reach, nat>,
    history: seq<Event>)

  datatype State = State(m: Memory, reqs: map<nat, Request>, watch: WatchPc)

  /** How the world answers one step: whether the clock reads, what the screen shows,
      whether a Touch ID or an enclave call succeeds, which expired scope comes next. */
  datatype Choice = Choice(readable: bool, screen: Screen, ok: bool, pick: Reach)

  datatype Step =
    | Tick(elapsed: real)
    | Arrive(id: nat, place: Scope)
    | Go(who: Who, ch: Choice)

  function Clock(m: Memory, ch: Choice): Float {
    if ch.readable then Val(m.now) else NaN
  }

  /** A gap of three seconds or a clock that cannot be read hides a lock. */
  predicate Unseen(last: Float, now: Float) {
    !Lt(Sub(now, last), Val(3.0))
  }

  predicate Good(e: Event)
    requires e.Looked?
  {
    e.saw == Unlocked && !Unseen(e.before, e.at)
  }

  function Hold(c: Config): bool {
    Positive(Window(c))
  }

  function Log(m: Memory, e: Event): Memory {
    m.(history := m.history + [e])
  }

  // ---- what one step does to the shared memory

  /** Takes `looked`, reads the clock and the screen, and records the look. */
  function BeginLook(m: Memory, who: Who, ch: Choice): Memory
    requires m.looking.Nobody?
  {
    var now := Clock(m, ch);
    var e := Looked(who, m.looked.at, now, ch.screen);
    Log(m, e).(
      looked := Look(now, ch.screen),
      looking := Looker(who, if Good(e) then Leaving else Ending, ch.screen, |m.history|))
  }

  function EndApprovals(m: Memory): Memory {
    Log(m, Ended).(approved := map[], origin := map[], signOuts := m.signOuts + 1)
  }

  /** The two halves of a sign-out, one step each, with `looked` held throughout. */
  function ContinueLook(m: Memory): Memory
    requires m.looking.Looker? && m.looking.stage != Leaving
  {
    if m.looking.stage == Ending then
      EndApprovals(m).(looking := m.looking.(stage := Wiping))
    else
      ForgetAll(m).(looking := m.looking.(stage := Leaving))
  }

  function ForgetAll(m: Memory): Memory {
    Log(m, Wiped).(held := map[], secrets := map[])
  }

  function Forget(m: Memory, reach: Reach): Memory {
    m.(held := m.held - {reach}, secrets := m.secrets - {reach})
  }

  function Expire(c: Config, m: Memory, now: Float): Memory {
    var kept := Pruned(m.approved, Window(c), now);
    m.(approved := kept, origin := map r | r in m.origin && r in kept :: m.origin[r])
  }

  function Decide(c: Config, m: Memory, id: nat, place: Scope, pc: Pc, now: Float): (Memory, Pc)
    requires pc.Deciding?
  {
    var reach := GrantFor(c, place).0;
    var live := Covers(m.approved, reach, Window(c), now);
    var since := if live && reach in m.origin then m.origin[reach] else pc.loadedAt;
    var job := Job(pc.refused, pc.counted, reach, live, pc.loadedAt, |m.history|, since, id, 0, 0);
    (Log(Expire(c, m, now), Decided(id, reach, now, live)),
     Releasing(job, Expired(m.approved, Window(c), now)))
  }

  function Admit(c: Config, m: Memory, id: nat, job: Job, now: Float): (Memory, Pc) {
    if m.signOuts != job.counted then
      (Log(m, Refused(id, job)), Forgetting(job, |m.history|))
    else
      var m' := Log(m, Admitted(id, now, job)).(
        approved := Opened(m.approved, job.reach, Window(c), job.live, now),
        origin := if !job.live && Hold(c) then m.origin[job.reach := |m.history|] else m.origin);
      (m', Closing(job, |m.history|, true))
  }

  // ---- request threads

  /** Straight to the error branch for a refused request, into the enclave otherwise. */
  function Begin(c: Config, job: Job): Pc {
    if job.refused then Failing(job)
    else InEnclave(job, if c.endsAtLock then Reading else Taking)
  }

  function LeaveEnclave(c: Config, job: Job, made: bool): Pc {
    if c.endsAtLock then SecondLook(job, made)
    else if made then Admitting(job)
    else Failing(job)
  }

  function EnclaveStep(c: Config, m: Memory, id: nat, job: Job, pc: EnclavePc, ch: Choice): (Memory, Pc) {
    match pc
    case Reading =>
      if Hold(c) && job.reach in m.secrets then
        (m, InEnclave(job.(using := m.secrets[job.reach]), Making))
      else if job.live then
        (m, LeaveEnclave(c, job, false))
      else
        (m, InEnclave(job, if c.approve then Asking else Agreeing))
    case Asking =>
      (Log(m, Asked(id, job.reach, job.live, ch.ok)),
       if ch.ok then InEnclave(job, if c.endsAtLock then Agreeing else Making)
       else if c.endsAtLock then LeaveEnclave(c, job, false)
       else InEnclave(job, Unholding))
    case Agreeing =>
      (m, if !ch.ok then LeaveEnclave(c, job, false)
          else InEnclave(job, if Hold(c) then Keeping else Making))
    case Keeping =>
      (Log(m, Kept(id, job.reach)).(secrets := m.secrets[job.reach := id]), InEnclave(job, Making))
    case Taking =>
      if Hold(c) && job.reach in m.held then
        (m, InEnclave(job.(using := m.held[job.reach]), Making))
      else
        (Log(m, Built(id, job.reach, job.live)).(held := if Hold(c) then m.held[job.reach := id] else m.held),
         InEnclave(job, if c.approve then Asking else Making))
    case Unholding =>
      (Forget(m, job.reach), LeaveEnclave(c, job, false))
    case Making =>
      if ch.ok then
        (Log(m, Made(id, job.using)), LeaveEnclave(c, job.(madeAt := |m.history|), true))
      else
        (m, LeaveEnclave(c, job, false))
  }

  predicate Ready(m: Memory, who: Who) {
    m.looking.Nobody? || m.looking.who == who
  }

  /** False for a thread that waits for a lock another holds, or has finished. */
  predicate RequestEnabled(m: Memory, id: nat, pc: Pc, ch: Choice) {
    match pc
    case Arriving => m.gate.Free?
    case FirstLook => Ready(m, Request(id))
    case SecondLook(_, _) => Ready(m, Request(id))
    case Releasing(_, todo) => todo != {} ==> ch.pick in todo
    case Done(_) => false
    case _ => true
  }

  function RequestStep(c: Config, m: Memory, id: nat, place: Scope, pc: Pc, ch: Choice): (Memory, Pc)
    requires RequestEnabled(m, id, pc, ch)
  {
    match pc
    case Arriving =>
      (m.(gate := Taken(Request(id))), if c.endsAtLock then FirstLook else Loading(false))
    case FirstLook =>
      if m.looking.Nobody? then
        (BeginLook(m, Request(id), ch), pc)
      else if m.looking.stage != Leaving then
        (ContinueLook(m), pc)
      else
        (m.(looking := Nobody), Loading(m.looking.saw != Unlocked))
    case Loading(refused) =>
      (Log(m, Loaded(id)), Deciding(refused, m.signOuts, |m.history|))
    case Deciding(_, _, _) =>
      Decide(c, m, id, place, pc, Clock(m, ch))
    case Releasing(job, todo) =>
      if todo != {} then
        (Forget(m, ch.pick), Releasing(job, todo - {ch.pick}))
      else
        (m, if job.live then Begin(c, job) else Dropping(job))
    case Dropping(job) =>
      (Forget(m, job.reach), Begin(c, job))
    case InEnclave(job, enclave) =>
      EnclaveStep(c, m, id, job, enclave, ch)
    case SecondLook(job, made) =>
      if m.looking.Nobody? then
        (BeginLook(m, Request(id), ch), pc)
      else if m.looking.stage != Leaving then
        (ContinueLook(m), pc)
      else
        (m.(looking := Nobody),
         if m.looking.saw != Unlocked || !made then Failing(job)
         else Admitting(job.(lookedAt := m.looking.index)))
    case Admitting(job) =>
      Admit(c, m, id, job, Clock(m, ch))
    case Failing(job) =>
      (Log(m, Failed(id, job)),
       if !job.live || m.signOuts != job.counted then Forgetting(job, |m.history|)
       else Closing(job, |m.history|, false))
    case Forgetting(job, checkedAt) =>
      (Forget(m, job.reach), Closing(job, checkedAt, false))
    case Closing(_, _, ok) =>
      (Log(m, Replied(id, ok)).(gate := Free), Done(ok))
    case Done(_) => (m, pc)
  }

  // ---- the screen watch

  predicate WatchEnabled(c: Config, m: Memory, pc: WatchPc, ch: Choice) {
    && c.endsAtLock
    && (pc.WatchLooking? ==> Ready(m, Watch))
    && (pc.WatchReleasing? && pc.todo != {} ==> ch.pick in pc.todo)
  }

  function WatchStep(c: Config, m: Memory, pc: WatchPc, ch: Choice): (Memory, WatchPc)
    requires WatchEnabled(c, m, pc, ch)
  {
    match pc
    case Sleeping => (m, WatchLooking)
    case WatchLooking =>
      if m.looking.Nobody? then
        (BeginLook(m, Watch, ch), pc)
      else if m.looking.stage != Leaving then
        (ContinueLook(m), pc)
      else
        (m.(looking := Nobody), Trying)
    case Trying =>
      if m.gate.Free? then (m.(gate := Taken(Watch)), Expiring) else (m, Sleeping)
    case Expiring =>
      (Expire(c, m, Clock(m, ch)), WatchReleasing(Expired(m.approved, Window(c), Clock(m, ch))))
    case WatchReleasing(todo) =>
      if todo != {} then
        (Forget(m, ch.pick), WatchReleasing(todo - {ch.pick}))
      else
        (m.(gate := Free), Sleeping)
  }

  // ---- the whole daemon

  predicate Enabled(c: Config, s: State, step: Step) {
    match step
    case Tick(elapsed) => elapsed >= 0.0
    case Arrive(id, _) => id !in s.reqs
    case Go(Watch, ch) => WatchEnabled(c, s.m, s.watch, ch)
    case Go(Request(id), ch) => id in s.reqs && RequestEnabled(s.m, id, s.reqs[id].pc, ch)
  }

  function Apply(c: Config, s: State, step: Step): State
    requires Enabled(c, s, step)
  {
    match step
    case Tick(elapsed) => s.(m := s.m.(now := s.m.now + elapsed))
    case Arrive(id, place) => s.(reqs := s.reqs[id := Req(place, Arriving)])
    case Go(Watch, ch) =>
      var (m, pc) := WatchStep(c, s.m, s.watch, ch);
      s.(m := m, watch := pc)
    case Go(Request(id), ch) =>
      var req := s.reqs[id];
      var (m, pc) := RequestStep(c, s.m, id, req.place, req.pc, ch);
      s.(m := m, reqs := s.reqs[id := Req(req.place, pc)])
  }

  /** `Look::first`: the daemon starts as if it had just seen an unlocked screen. */
  predicate Init(s: State) {
    && s.m.approved == map[] && s.m.origin == map[] && s.m.signOuts == 0
    && s.m.looked.saw == Unlocked && (s.m.looked.at.Val? ==> s.m.looked.at.v == s.m.now)
    && s.m.looking == Nobody && s.m.gate == Free
    && s.m.held == map[] && s.m.secrets == map[] && s.m.history == []
    && s.reqs == map[] && s.watch == Sleeping
  }

  ghost predicate Next(c: Config, s: State, s': State) {
    exists step :: Enabled(c, s, step) && s' == Apply(c, s, step)
  }

  /** One state after another. */
  ghost predicate Path(c: Config, states: seq<State>) {
    states != [] && forall i :: 0 < i < |states| ==> Next(c, states[i - 1], states[i])
  }

  ghost predicate Run(c: Config, states: seq<State>) {
    Path(c, states) && Init(states[0])
  }

  /** The daemon can get from `o` to `s`. */
  ghost predicate Leads(c: Config, o: State, s: State) {
    exists states :: Path(c, states) && states[0] == o && states[|states| - 1] == s
  }

  /** Some run of the daemon arrives at `s`. */
  ghost predicate Reachable(c: Config, s: State) {
    exists states :: Run(c, states) && states[|states| - 1] == s
  }
}
