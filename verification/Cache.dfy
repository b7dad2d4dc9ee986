/** What the enclave half holds, against what the daemon has approved. */
module Cache {
  import opened Seconds
  import opened Approval
  import opened Protocol
  import opened Locks
  import opened Records
  import opened Jobs

  // ---- everything held is accounted for

  /** Scopes the request past the gate answers for itself. */
  function LooseOf(pc: Pc): set<Reach> {
    match pc
    case Releasing(job, todo) => todo + {job.reach}
    case Dropping(job) => {job.reach}
    case InEnclave(job, _) => {job.reach}
    case SecondLook(job, _) => {job.reach}
    case Admitting(job) => {job.reach}
    case Failing(job) => {job.reach}
    case Forgetting(job, _) => {job.reach}
    case _ => {}
  }

  /** What the thread past the gate has still to let go of or to get approved. */
  function Loose(s: State): set<Reach> {
    match s.m.gate
    case Free => {}
    case Taken(Watch) => if s.watch.WatchReleasing? then s.watch.todo else {}
    case Taken(Request(id)) => if id in s.reqs then LooseOf(s.reqs[id].pc) else {}
  }

  /** A sign-out has ended the approvals and is about to wipe the cache. */
  predicate AboutToWipe(m: Memory) {
    m.looking.Looker? && m.looking.stage == Wiping
  }

  predicate Held(m: Memory, r: Reach) {
    r in m.held || r in m.secrets
  }

  ghost predicate CoveredOk(c: Config, m: Memory, loose: set<Reach>) {
    && (AboutToWipe(m) || forall r | Held(m, r) :: r in m.approved || r in loose)
    && (!Hold(c) ==> m.held == map[] && m.secrets == map[])
    && (if c.endsAtLock then m.held == map[] else m.secrets == map[])
  }

  lemma LookCovers(c: Config, m: Memory, who: Who, ch: Choice, m': Memory, loose: set<Reach>)
    requires CoveredOk(c, m, loose)
    requires m' == if m.looking.Nobody? then BeginLook(m, who, ch)
                   else if m.looking.stage != Leaving then ContinueLook(m)
                   else m.(looking := Nobody)
    ensures CoveredOk(c, m', loose)
  {
  }

  lemma EnclaveCovers(c: Config, m: Memory, id: nat, place: Scope, job: Job, enclave: EnclavePc, ch: Choice)
    requires PcOk(c, m, id, place, InEnclave(job, enclave)) && CoveredOk(c, m, {job.reach})
    ensures var (m', pc') := EnclaveStep(c, m, id, job, enclave, ch);
      CoveredOk(c, m', {job.reach}) && LooseOf(pc') == {job.reach}
  {
  }

  lemma CheckCovers(c: Config, m: Memory, id: nat, place: Scope, pc: Pc, ch: Choice)
    requires PcOk(c, m, id, place, pc) && OriginsOk(c, m) && CoveredOk(c, m, LooseOf(pc))
    requires RequestEnabled(m, id, pc, ch) && (pc.Admitting? || pc.Failing? || pc.Forgetting? || pc.Closing?)
    ensures var (m', pc') := RequestStep(c, m, id, place, pc, ch); CoveredOk(c, m', LooseOf(pc'))
  {
    if pc.Admitting? {
      AdmissionCovers(c, m, id, place, pc.job, Clock(m, ch));
    } else if pc.Failing? {
      FailureCovers(c, m, id, place, pc.job, ch);
    }
  }

  lemma AdmissionCovers(c: Config, m: Memory, id: nat, place: Scope, job: Job, now: Float)
    requires PcOk(c, m, id, place, Admitting(job)) && CoveredOk(c, m, {job.reach})
    ensures var (m', pc') := Admit(c, m, id, job, now); CoveredOk(c, m', LooseOf(pc'))
  {
  }

  lemma FailureCovers(c: Config, m: Memory, id: nat, place: Scope, job: Job, ch: Choice)
    requires PcOk(c, m, id, place, Failing(job)) && CoveredOk(c, m, {job.reach})
    ensures var (m', pc') := RequestStep(c, m, id, place, Failing(job), ch); CoveredOk(c, m', LooseOf(pc'))
  {
  }

  lemma DecisionCovers(c: Config, m: Memory, id: nat, place: Scope, pc: Pc, now: Float)
    requires CoveredOk(c, m, {}) && pc.Deciding?
    ensures var (m', pc') := Decide(c, m, id, place, pc, now); CoveredOk(c, m', LooseOf(pc'))
  {
  }

  lemma ReleaseCovers(c: Config, m: Memory, id: nat, place: Scope, pc: Pc, ch: Choice)
    requires CoveredOk(c, m, LooseOf(pc)) && RequestEnabled(m, id, pc, ch)
    requires pc.Arriving? || pc.Loading? || pc.Releasing? || pc.Dropping? || pc.Done?
    ensures var (m', pc') := RequestStep(c, m, id, place, pc, ch); CoveredOk(c, m', LooseOf(pc'))
  {
  }

  lemma OwnLookCovers(c: Config, m: Memory, id: nat, place: Scope, pc: Pc, ch: Choice)
    requires Looks(pc) && CoveredOk(c, m, LooseOf(pc)) && RequestEnabled(m, id, pc, ch)
    ensures var (m', pc') := RequestStep(c, m, id, place, pc, ch); CoveredOk(c, m', LooseOf(pc'))
  {
    LookCovers(c, m, Request(id), ch, RequestStep(c, m, id, place, pc, ch).0, LooseOf(pc));
  }

  lemma RequestCovers(c: Config, m: Memory, id: nat, place: Scope, pc: Pc, ch: Choice)
    requires PcOk(c, m, id, place, pc) && OriginsOk(c, m) && CoveredOk(c, m, LooseOf(pc))
    requires RequestEnabled(m, id, pc, ch)
    ensures var (m', pc') := RequestStep(c, m, id, place, pc, ch); CoveredOk(c, m', LooseOf(pc'))
  {
    if Looks(pc) {
      OwnLookCovers(c, m, id, place, pc, ch);
    } else if pc.Deciding? {
      DecisionCovers(c, m, id, place, pc, Clock(m, ch));
    } else if pc.InEnclave? {
      EnclaveCovers(c, m, id, place, pc.job, pc.enclave, ch);
    } else if pc.Admitting? || pc.Failing? || pc.Forgetting? || pc.Closing? {
      CheckCovers(c, m, id, place, pc, ch);
    } else {
      ReleaseCovers(c, m, id, place, pc, ch);
    }
  }

  lemma WatchCovers(c: Config, m: Memory, pc: WatchPc, ch: Choice, loose: set<Reach>)
    requires WatchEnabled(c, m, pc, ch) && CoveredOk(c, m, loose)
    requires pc.WatchReleasing? ==> loose == pc.todo
    requires pc.Trying? && m.gate.Free? ==> loose == {}
    requires pc.Expiring? ==> loose == {}
    ensures var (m', pc') := WatchStep(c, m, pc, ch);
      CoveredOk(c, m', if pc'.WatchReleasing? then pc'.todo else loose - (if pc.WatchReleasing? then pc.todo else {}))
  {
    if pc.WatchLooking? {
      LookCovers(c, m, Watch, ch, WatchStep(c, m, pc, ch).0, loose);
    }
  }

  lemma CoveredKept(c: Config, s: State, step: Step)
    requires BooksOk(c, s) && CoveredOk(c, s.m, Loose(s)) && Enabled(c, s, step)
    ensures var s' := Apply(c, s, step); CoveredOk(c, s'.m, Loose(s'))
  {
    match step
    case Go(Request(id), ch) =>
      var req := s.reqs[id];
      RequestMoves(c, s.m, id, req.place, req.pc, ch);
      RequestCovers(c, s.m, id, req.place, req.pc, ch);
    case Go(Watch, ch) =>
      WatchCovers(c, s.m, s.watch, ch, Loose(s));
    case Arrive(_, _) =>
    case Tick(_) =>
  }
}
