/** The bookkeeping of every request, every live approval and every admission is kept by
    every step. */
module Jobs {
  import opened Seconds
  import opened Approval
  import opened Protocol
  import opened Locks
  import opened Records

  /** Nothing is admitted; the count moves exactly with a sign-out; until it does the
      approvals stand, and a look made is good or about to end them. */
  ghost predicate Evolves(m: Memory, m': Memory) {
    && (m'.history == m.history
        || (exists e :: m'.history == m.history + [e] && !e.Admitted?
              && (m'.signOuts == m.signOuts <==> !e.Ended?)
              && (e.Looked? ==> Good(e) || Pending(m', |m.history|))))
    && (m'.history == m.history ==> m'.signOuts == m.signOuts)
    && m.signOuts <= m'.signOuts
    && (m'.signOuts == m.signOuts ==> m'.approved == m.approved && m'.origin == m.origin)
    && (m'.signOuts == m.signOuts ==> forall k: nat :: Pending(m, k) ==> Pending(m', k))
    && (m'.signOuts != m.signOuts ==> m'.approved == map[] && m'.origin == map[])
  }

  lemma DecisionStable(c: Config, h: History, h': History, id: nat, place: Scope, job: Job)
    requires Decision(c, h, id, place, job) && h <= h'
    ensures Decision(c, h', id, place, job)
  {
  }

  lemma CountingStable(m: Memory, m': Memory, id: nat, counted: nat, loadedAt: nat)
    requires Counting(m, id, counted, loadedAt) && Evolves(m, m')
    ensures Counting(m', id, counted, loadedAt)
  {
    if m'.history != m.history && m'.history[|m.history|].Ended? {
      assert !NoEnd(m'.history, loadedAt, |m'.history|);
    }
    if !NoEnd(m.history, loadedAt, |m.history|) {
      var k :| loadedAt < k < |m.history| && m.history[k].Ended?;
      assert m'.history[k].Ended?;
    }
  }

  lemma JobStable(c: Config, m: Memory, m': Memory, id: nat, place: Scope, job: Job)
    requires JobOk(c, m, id, place, job) && Evolves(m, m')
    ensures JobOk(c, m', id, place, job)
  {
    CountingStable(m, m', id, job.counted, job.loadedAt);
    DecisionStable(c, m.history, m'.history, id, place, job);
  }

  lemma AdmissionStable(c: Config, h: History, h': History, a: nat)
    requires a < |h| && h[a].Admitted? && AdmissionOk(c, h, a) && h <= h'
    ensures AdmissionOk(c, h', a)
  {
    var place :| Decision(c, h, h[a].id, place, h[a].job);
    DecisionStable(c, h, h', h[a].id, place, h[a].job);
  }

  lemma OriginStable(m: Memory, m': Memory, r: Reach)
    requires r in m.approved && r in m.origin && OriginOk(m, r)
    requires Evolves(m, m') && m'.signOuts == m.signOuts
    ensures OriginOk(m', r)
  {
  }

  ghost predicate MemoryOk(c: Config, m: Memory) {
    LookerOk(m) && OriginsOk(c, m) && AdmissionsOk(c, m.history)
  }

  lemma MemoryStable(c: Config, m: Memory, m': Memory)
    requires MemoryOk(c, m) && Evolves(m, m') && LookerOk(m')
    ensures MemoryOk(c, m')
  {
    if m'.signOuts == m.signOuts {
      forall r | r in m'.approved ensures OriginOk(m', r) {
        OriginStable(m, m', r);
      }
    }
    AdmissionsStable(c, m.history, m'.history);
  }

  lemma AdmissionsStable(c: Config, h: History, h': History)
    requires AdmissionsOk(c, h) && h <= h'
    requires forall a | |h| <= a < |h'| :: !h'[a].Admitted?
    ensures AdmissionsOk(c, h')
  {
    forall a: nat | a < |h'| && h'[a].Admitted? ensures AdmissionOk(c, h', a) {
      AdmissionStable(c, h, h', a);
    }
  }

  // ---- the effects

  lemma LookBegins(m: Memory, who: Who, ch: Choice)
    requires m.looking.Nobody?
    ensures var m' := BeginLook(m, who, ch); Evolves(m, m') && LookerOk(m')
  {
    var m' := BeginLook(m, who, ch);
    assert m'.history == m.history + [m'.history[|m.history|]];
  }

  lemma LookContinues(m: Memory)
    requires LookerOk(m) && m.looking.Looker? && m.looking.stage != Leaving
    ensures var m' := ContinueLook(m); Evolves(m, m') && LookerOk(m')
  {
    assert ContinueLook(m).history == m.history + [if m.looking.stage == Ending then Ended else Wiped];
  }

  lemma LookLeaves(m: Memory)
    requires m.looking.Looker? && m.looking.stage == Leaving
    ensures Evolves(m, m.(looking := Nobody))
  {
  }

  /** One step of a look, wherever it has come to. */
  lemma LookEvolves(m: Memory, who: Who, ch: Choice, m': Memory)
    requires LookerOk(m)
    requires m' == if m.looking.Nobody? then BeginLook(m, who, ch)
                   else if m.looking.stage != Leaving then ContinueLook(m)
                   else m.(looking := Nobody)
    ensures Evolves(m, m') && LookerOk(m')
  {
    if m.looking.Nobody? {
      LookBegins(m, who, ch);
    } else if m.looking.stage != Leaving {
      LookContinues(m);
    } else {
      LookLeaves(m);
    }
  }

  /** Events that are neither a look, a sign-out nor an admission, and whatever happens to
      the gate and the enclave's cache. */
  lemma Notes(m: Memory, e: Event, m': Memory)
    requires LookerOk(m) && !e.Looked? && !e.Ended? && !e.Admitted?
    requires m' == Log(m, e).(gate := m'.gate, held := m'.held, secrets := m'.secrets)
    ensures Evolves(m, m') && LookerOk(m')
  {
    assert m'.history == m.history + [e];
  }

  lemma Quiet(m: Memory, m': Memory)
    requires LookerOk(m)
    requires m' == m.(now := m'.now, gate := m'.gate, held := m'.held, secrets := m'.secrets)
    ensures Evolves(m, m') && LookerOk(m')
  {
  }

  lemma Expires(c: Config, m: Memory, now: Float)
    requires OriginsOk(c, m)
    ensures OriginsOk(c, Expire(c, m, now))
  {
    var m' := Expire(c, m, now);
    assert m'.approved.Keys == m'.origin.Keys;
    forall r | r in m'.approved ensures OriginOk(m', r) {
      assert OriginOk(m, r);
      assert m'.origin[r] == m.origin[r] && m'.approved[r] == m.approved[r];
    }
  }

  // ---- one request's step, by where it stands

  ghost predicate StepOk(c: Config, m: Memory, id: nat, place: Scope, pc: Pc, ch: Choice) {
    && LookerOk(m)
    && PcOk(c, m, id, place, pc)
    && RequestEnabled(m, id, pc, ch)
    && (!c.endsAtLock ==> !Looks(pc))
    && (m.looking.Looker? && m.looking.who == Request(id) ==> Looks(pc))
  }

  /** Nothing in `JobOk` speaks of whose Touch ID it was, or of what came after. */
  lemma JobRelabelled(c: Config, m: Memory, id: nat, place: Scope, job: Job, job': Job)
    requires JobOk(c, m, id, place, job)
    requires job' == job.(using := job'.using, madeAt := job'.madeAt, lookedAt := job'.lookedAt)
    ensures JobOk(c, m, id, place, job')
  {
  }

  lemma ArrivingKeeps(c: Config, m: Memory, id: nat, place: Scope, pc: Pc, ch: Choice)
    requires StepOk(c, m, id, place, pc, ch) && (pc.Arriving? || pc.FirstLook? || pc.Loading? || pc.Done?)
    ensures var (m', pc') := RequestStep(c, m, id, place, pc, ch);
      PcOk(c, m', id, place, pc') && Evolves(m, m') && LookerOk(m')
  {
    var (m', pc') := RequestStep(c, m, id, place, pc, ch);
    match pc
    case Loading(_) => Notes(m, Loaded(id), m');
    case FirstLook => LookEvolves(m, Request(id), ch, m');
    case _ => Quiet(m, m');
  }

  /** A live decision rides an approval opened before the count was read: nobody else has
      been admitted since, and none is opened without the gate. */
  lemma RidesAnOpening(c: Config, m: Memory, id: nat, loadedAt: nat, counted: nat, reach: Reach, now: Float)
    requires OriginsOk(c, m) && Counting(m, id, counted, loadedAt)
    requires Covers(m.approved, reach, Window(c), now)
    ensures reach in m.origin && m.origin[reach] < loadedAt
    ensures Opens(m.history[m.origin[reach]], reach) && NoEnd(m.history, m.origin[reach], |m.history|)
    ensures Lt(Sub(now, m.history[m.origin[reach]].at), Window(c)) && WatchedSince(m, m.origin[reach])
    ensures var m' := Expire(c, m, now);
      reach in m'.approved && reach in m'.origin && m'.origin[reach] == m.origin[reach]
  {
    assert OriginOk(m, reach);
  }

  lemma DecidedLive(c: Config, m: Memory, id: nat, place: Scope, pc: Pc, now: Float)
    requires pc.Deciding? && OriginsOk(c, m) && Counting(m, id, pc.counted, pc.loadedAt)
    ensures var (m', pc') := Decide(c, m, id, place, pc, now); var job := pc'.job;
      job.live ==> (
        && Rides(c, m'.history, job) && WatchedSince(m', job.since)
        && job.reach in m'.approved && job.reach in m'.origin && m'.origin[job.reach] == job.since)
  {
    var (m', pc') := Decide(c, m, id, place, pc, now);
    var job := pc'.job;
    assert m'.history == m.history + [Decided(id, job.reach, now, job.live)];
    if job.live {
      RidesAnOpening(c, m, id, pc.loadedAt, pc.counted, job.reach, now);
    }
  }

  lemma DecidingKeeps(c: Config, m: Memory, id: nat, place: Scope, pc: Pc, now: Float)
    requires LookerOk(m) && PcOk(c, m, id, place, pc) && pc.Deciding? && OriginsOk(c, m)
    ensures var (m', pc') := Decide(c, m, id, place, pc, now);
      PcOk(c, m', id, place, pc') && LookerOk(m') && Evolves(Expire(c, m, now), m')
  {
    var (m', pc') := Decide(c, m, id, place, pc, now);
    var job := pc'.job;
    Notes(Expire(c, m, now), Decided(id, job.reach, now, job.live), m');
    CountingStable(Expire(c, m, now), m', id, pc.counted, pc.loadedAt);
    DecidedLive(c, m, id, place, pc, now);
    assert Decision(c, m'.history, id, place, job);
  }

  lemma DroppingKeeps(c: Config, m: Memory, id: nat, place: Scope, pc: Pc, ch: Choice)
    requires StepOk(c, m, id, place, pc, ch) && (pc.Releasing? || pc.Dropping?)
    ensures var (m', pc') := RequestStep(c, m, id, place, pc, ch);
      PcOk(c, m', id, place, pc') && Evolves(m, m') && LookerOk(m')
  {
    var (m', pc') := RequestStep(c, m, id, place, pc, ch);
    Quiet(m, m');
    JobStable(c, m, m', id, place, pc.job);
  }

  lemma Leaves(c: Config, m: Memory, id: nat, place: Scope, job: Job, made: bool)
    requires JobOk(c, m, id, place, job) && (made ==> MadeOk(m.history, id, job))
    requires m.looking.Looker? ==> m.looking.who != Request(id)
    ensures PcOk(c, m, id, place, LeaveEnclave(c, job, made))
  {
  }

  lemma MakingKeeps(c: Config, m: Memory, id: nat, place: Scope, job: Job, ch: Choice)
    requires StepOk(c, m, id, place, InEnclave(job, Making), ch)
    ensures var (m', pc') := EnclaveStep(c, m, id, job, Making, ch);
      PcOk(c, m', id, place, pc') && Evolves(m, m') && LookerOk(m')
  {
    if ch.ok {
      var m' := Log(m, Made(id, job.using));
      var job' := job.(madeAt := |m.history|);
      Notes(m, Made(id, job.using), m');
      JobStable(c, m, m', id, place, job);
      JobRelabelled(c, m', id, place, job, job');
      Leaves(c, m', id, place, job', true);
    } else {
      Leaves(c, m, id, place, job, false);
    }
  }

  lemma AskingKeeps(c: Config, m: Memory, id: nat, place: Scope, job: Job, ch: Choice)
    requires StepOk(c, m, id, place, InEnclave(job, Asking), ch)
    ensures var (m', pc') := EnclaveStep(c, m, id, job, Asking, ch);
      PcOk(c, m', id, place, pc') && Evolves(m, m') && LookerOk(m')
  {
    var m' := Log(m, Asked(id, job.reach, job.live, ch.ok));
    Notes(m, Asked(id, job.reach, job.live, ch.ok), m');
    JobStable(c, m, m', id, place, job);
    if !ch.ok && c.endsAtLock {
      Leaves(c, m', id, place, job, false);
    }
  }

  /** The cache and the record change, the rest of the memory does not. */
  lemma CachingEvolves(c: Config, m: Memory, id: nat, job: Job, enclave: EnclavePc, ch: Choice)
    requires LookerOk(m) && !enclave.Making? && !enclave.Asking?
    ensures var m' := EnclaveStep(c, m, id, job, enclave, ch).0; Evolves(m, m') && LookerOk(m')
  {
    var m' := EnclaveStep(c, m, id, job, enclave, ch).0;
    if enclave.Keeping? {
      Notes(m, Kept(id, job.reach), m');
    } else if m'.history != m.history {
      Notes(m, Built(id, job.reach, job.live), m');
    } else {
      Quiet(m, m');
    }
  }

  lemma CachingKeeps(c: Config, m: Memory, id: nat, place: Scope, job: Job, enclave: EnclavePc, ch: Choice)
    requires StepOk(c, m, id, place, InEnclave(job, enclave), ch) && !enclave.Making? && !enclave.Asking?
    ensures var (m', pc') := EnclaveStep(c, m, id, job, enclave, ch);
      PcOk(c, m', id, place, pc') && Evolves(m, m') && LookerOk(m')
  {
    var (m', pc') := EnclaveStep(c, m, id, job, enclave, ch);
    CachingEvolves(c, m, id, job, enclave, ch);
    JobStable(c, m, m', id, place, job);
    if pc'.InEnclave? {
      JobRelabelled(c, m', id, place, job, pc'.job);
    } else {
      Leaves(c, m', id, place, job, false);
    }
  }

  lemma EnclaveKeeps(c: Config, m: Memory, id: nat, place: Scope, job: Job, enclave: EnclavePc, ch: Choice)
    requires StepOk(c, m, id, place, InEnclave(job, enclave), ch)
    ensures var (m', pc') := EnclaveStep(c, m, id, job, enclave, ch);
      PcOk(c, m', id, place, pc') && Evolves(m, m') && LookerOk(m')
  {
    match enclave
    case Making => MakingKeeps(c, m, id, place, job, ch);
    case Asking => AskingKeeps(c, m, id, place, job, ch);
    case _ => CachingKeeps(c, m, id, place, job, enclave, ch);
  }

  lemma SecondLookEnds(c: Config, m: Memory, id: nat, place: Scope, job: Job)
    requires PcOk(c, m, id, place, SecondLook(job, true)) && LookerOk(m)
    requires m.looking.Looker? && m.looking.who == Request(id) && m.looking.stage == Leaving && m.looking.saw == Unlocked
    ensures PcOk(c, m.(looking := Nobody), id, place, Admitting(job.(lookedAt := m.looking.index)))
  {
    var m' := m.(looking := Nobody);
    var job' := job.(lookedAt := m.looking.index);
    LookLeaves(m);
    JobStable(c, m, m', id, place, job);
    JobRelabelled(c, m', id, place, job, job');
    assert LookedOk(m', id, job');
  }

  /** The second look begins, or goes on. */
  lemma SecondLookGoesOn(c: Config, m: Memory, id: nat, place: Scope, job: Job, made: bool, ch: Choice)
    requires StepOk(c, m, id, place, SecondLook(job, made), ch) && (m.looking.Looker? ==> m.looking.stage != Leaving)
    ensures var (m', pc') := RequestStep(c, m, id, place, SecondLook(job, made), ch);
      PcOk(c, m', id, place, pc') && Evolves(m, m') && LookerOk(m')
  {
    var m' := RequestStep(c, m, id, place, SecondLook(job, made), ch).0;
    LookEvolves(m, Request(id), ch, m');
    JobStable(c, m, m', id, place, job);
  }

  lemma SecondLookKeeps(c: Config, m: Memory, id: nat, place: Scope, job: Job, made: bool, ch: Choice)
    requires StepOk(c, m, id, place, SecondLook(job, made), ch)
    ensures var (m', pc') := RequestStep(c, m, id, place, SecondLook(job, made), ch);
      PcOk(c, m', id, place, pc') && Evolves(m, m') && LookerOk(m')
  {
    if m.looking.Nobody? || m.looking.stage != Leaving {
      SecondLookGoesOn(c, m, id, place, job, made, ch);
    } else {
      LookLeaves(m);
      JobStable(c, m, m.(looking := Nobody), id, place, job);
      if made && m.looking.saw == Unlocked {
        SecondLookEnds(c, m, id, place, job);
      }
    }
  }

  lemma FailingKeeps(c: Config, m: Memory, id: nat, place: Scope, job: Job, ch: Choice)
    requires StepOk(c, m, id, place, Failing(job), ch)
    ensures var (m', pc') := RequestStep(c, m, id, place, Failing(job), ch);
      PcOk(c, m', id, place, pc') && Evolves(m, m') && LookerOk(m')
  {
    var m' := Log(m, Failed(id, job));
    Notes(m, Failed(id, job), m');
    DecisionStable(c, m.history, m'.history, id, place, job);
    assert m'.history[|m.history|] == Failed(id, job);
    if job.live && m.signOuts == job.counted {
      assert !Cut(m'.history, job, |m.history|);
    }
  }

  lemma ClosingKeeps(c: Config, m: Memory, id: nat, place: Scope, pc: Pc, ch: Choice)
    requires StepOk(c, m, id, place, pc, ch) && (pc.Forgetting? || pc.Closing?)
    ensures var (m', pc') := RequestStep(c, m, id, place, pc, ch);
      PcOk(c, m', id, place, pc') && Evolves(m, m') && LookerOk(m')
  {
    var (m', pc') := RequestStep(c, m, id, place, pc, ch);
    if pc.Closing? {
      Notes(m, Replied(id, pc.ok), m');
    } else {
      Quiet(m, m');
    }
  }

  lemma RefusedKeeps(c: Config, m: Memory, id: nat, place: Scope, job: Job, ch: Choice)
    requires StepOk(c, m, id, place, Admitting(job), ch) && m.signOuts != job.counted
    ensures var (m', pc') := RequestStep(c, m, id, place, Admitting(job), ch);
      PcOk(c, m', id, place, pc') && Evolves(m, m') && LookerOk(m')
  {
    var m' := Log(m, Refused(id, job));
    Notes(m, Refused(id, job), m');
    DecisionStable(c, m.history, m'.history, id, place, job);
  }

  /** The approval an admission opens is as fresh as its own record. */
  lemma AdmittedOrigins(c: Config, m: Memory, id: nat, job: Job, now: Float)
    requires OriginsOk(c, m) && m.signOuts == job.counted
    ensures OriginsOk(c, Admit(c, m, id, job, now).0)
  {
    var m' := Admit(c, m, id, job, now).0;
    assert m'.history == m.history + [Admitted(id, now, job)];
    assert m'.approved.Keys == m'.origin.Keys;
    forall r | r in m'.approved ensures OriginOk(m', r) {
      if m'.origin[r] < |m.history| {
        assert r in m.approved && OriginOk(m, r);
      }
    }
  }

  lemma AdmittedOnRecord(c: Config, m: Memory, id: nat, place: Scope, job: Job, now: Float)
    requires AdmissionsOk(c, m.history) && PcOk(c, m, id, place, Admitting(job)) && m.signOuts == job.counted
    ensures AdmissionsOk(c, Admit(c, m, id, job, now).0.history)
  {
    var h' := Admit(c, m, id, job, now).0.history;
    assert h' == m.history + [Admitted(id, now, job)];
    forall a: nat | a < |h'| && h'[a].Admitted? ensures AdmissionOk(c, h', a) {
      if a < |m.history| {
        AdmissionStable(c, m.history, h', a);
      } else {
        DecisionStable(c, m.history, h', id, place, job);
      }
    }
  }

  lemma AdmittedKeeps(c: Config, m: Memory, id: nat, place: Scope, job: Job, ch: Choice)
    requires StepOk(c, m, id, place, Admitting(job), ch) && m.signOuts == job.counted
    ensures var (m', pc') := RequestStep(c, m, id, place, Admitting(job), ch);
      PcOk(c, m', id, place, pc') && LookerOk(m')
  {
    var m' := Admit(c, m, id, job, Clock(m, ch)).0;
    DecisionStable(c, m.history, m'.history, id, place, job);
  }

  // ---- any step

  /** What the bookkeeping of requests and approvals comes to. */
  ghost predicate BooksOk(c: Config, s: State) {
    LocksOk(c, s) && MemoryOk(c, s.m) && JobsOk(c, s)
  }

  lemma RequestKeepsBooks(c: Config, m: Memory, id: nat, place: Scope, pc: Pc, ch: Choice)
    requires StepOk(c, m, id, place, pc, ch) && MemoryOk(c, m)
    ensures var (m', pc') := RequestStep(c, m, id, place, pc, ch);
      PcOk(c, m', id, place, pc') && MemoryOk(c, m')
  {
    var (m', pc') := RequestStep(c, m, id, place, pc, ch);
    match pc
    case Deciding(_, _, _) =>
      DecidingKeeps(c, m, id, place, pc, Clock(m, ch));
      Expires(c, m, Clock(m, ch));
      MemoryStable(c, Expire(c, m, Clock(m, ch)), m');
    case Admitting(job) =>
      if m.signOuts == job.counted {
        AdmittedKeeps(c, m, id, place, job, ch);
        AdmittedOrigins(c, m, id, job, Clock(m, ch));
        AdmittedOnRecord(c, m, id, place, job, Clock(m, ch));
      } else {
        RefusedKeeps(c, m, id, place, job, ch);
        MemoryStable(c, m, m');
      }
    case _ =>
      OtherStepsKeep(c, m, id, place, pc, ch);
      MemoryStable(c, m, m');
  }

  lemma OtherStepsKeep(c: Config, m: Memory, id: nat, place: Scope, pc: Pc, ch: Choice)
    requires StepOk(c, m, id, place, pc, ch) && !pc.Deciding? && !pc.Admitting?
    ensures var (m', pc') := RequestStep(c, m, id, place, pc, ch);
      PcOk(c, m', id, place, pc') && Evolves(m, m') && LookerOk(m')
  {
    match pc
    case Releasing(_, _) => DroppingKeeps(c, m, id, place, pc, ch);
    case Dropping(_) => DroppingKeeps(c, m, id, place, pc, ch);
    case InEnclave(job, enclave) => EnclaveKeeps(c, m, id, place, job, enclave, ch);
    case SecondLook(job, made) => SecondLookKeeps(c, m, id, place, job, made, ch);
    case Failing(job) => FailingKeeps(c, m, id, place, job, ch);
    case Forgetting(_, _) => ClosingKeeps(c, m, id, place, pc, ch);
    case Closing(_, _, _) => ClosingKeeps(c, m, id, place, pc, ch);
    case _ => ArrivingKeeps(c, m, id, place, pc, ch);
  }

  lemma BooksKeptByRequest(c: Config, s: State, id: nat, ch: Choice)
    requires BooksOk(c, s) && Enabled(c, s, Go(Request(id), ch))
    ensures BooksOk(c, Apply(c, s, Go(Request(id), ch)))
  {
    var req := s.reqs[id];
    var s' := Apply(c, s, Go(Request(id), ch));
    LocksKept(c, s, Go(Request(id), ch));
    RequestKeepsBooks(c, s.m, id, req.place, req.pc, ch);
    forall other | other in s'.reqs ensures PcOk(c, s'.m, other, s'.reqs[other].place, s'.reqs[other].pc) {
      if other != id && Inside(s.reqs[other].pc) {
        BlockedByGate(c, s, id, other);
      }
    }
  }

  /** With one request past the gate, only one waiting for it can have a step to take. */
  lemma BlockedByGate(c: Config, s: State, id: nat, other: nat)
    requires LocksOk(c, s) && id in s.reqs && other in s.reqs && id != other && Inside(s.reqs[other].pc)
    ensures !Inside(s.reqs[id].pc) && s.m.gate.Taken?
  {
  }

  lemma WatchKeepsBooks(c: Config, m: Memory, pc: WatchPc, ch: Choice)
    requires MemoryOk(c, m) && WatchEnabled(c, m, pc, ch)
    ensures MemoryOk(c, WatchStep(c, m, pc, ch).0)
    ensures !pc.Expiring? ==> Evolves(m, WatchStep(c, m, pc, ch).0)
  {
    var m' := WatchStep(c, m, pc, ch).0;
    match pc
    case Expiring => Expires(c, m, Clock(m, ch));
    case WatchLooking =>
      LookEvolves(m, Watch, ch, m');
      MemoryStable(c, m, m');
    case _ =>
      Quiet(m, m');
      MemoryStable(c, m, m');
  }

  /** A request waiting for its second look, or to be admitted. */
  lemma CheckingStable(c: Config, m: Memory, m': Memory, id: nat, place: Scope, pc: Pc)
    requires PcOk(c, m, id, place, pc) && Evolves(m, m') && (pc.SecondLook? || pc.Admitting?)
    requires m'.looking.Looker? && m'.looking.who == Request(id) ==> m'.looking == m.looking
    ensures PcOk(c, m', id, place, pc)
  {
    JobStable(c, m, m', id, place, pc.job);
  }

  lemma ClosingStable(c: Config, m: Memory, m': Memory, id: nat, place: Scope, pc: Pc)
    requires PcOk(c, m, id, place, pc) && m.history <= m'.history && (pc.Forgetting? || pc.Closing?)
    requires m'.held.Keys <= m.held.Keys && m'.secrets.Keys <= m.secrets.Keys
    ensures PcOk(c, m', id, place, pc)
  {
    DecisionStable(c, m.history, m'.history, id, place, pc.job);
  }

  /** The watch's looks and releases leave a request's bookkeeping standing. */
  lemma PcStable(c: Config, m: Memory, m': Memory, id: nat, place: Scope, pc: Pc)
    requires PcOk(c, m, id, place, pc) && Evolves(m, m')
    requires m'.held.Keys <= m.held.Keys && m'.secrets.Keys <= m.secrets.Keys
    requires m'.looking.Looker? && m'.looking.who == Request(id) ==> m'.looking == m.looking
    ensures PcOk(c, m', id, place, pc)
  {
    match pc
    case Deciding(_, counted, loadedAt) => CountingStable(m, m', id, counted, loadedAt);
    case Releasing(job, _) => JobStable(c, m, m', id, place, job);
    case Dropping(job) => JobStable(c, m, m', id, place, job);
    case InEnclave(job, _) => JobStable(c, m, m', id, place, job);
    case SecondLook(_, _) => CheckingStable(c, m, m', id, place, pc);
    case Admitting(_) => CheckingStable(c, m, m', id, place, pc);
    case Failing(job) => JobStable(c, m, m', id, place, job);
    case Forgetting(_, _) => ClosingStable(c, m, m', id, place, pc);
    case Closing(_, _, _) => ClosingStable(c, m, m', id, place, pc);
    case _ =>
  }

  lemma BooksKeptByWatch(c: Config, s: State, ch: Choice)
    requires BooksOk(c, s) && Enabled(c, s, Go(Watch, ch))
    ensures BooksOk(c, Apply(c, s, Go(Watch, ch)))
  {
    var s' := Apply(c, s, Go(Watch, ch));
    LocksKept(c, s, Go(Watch, ch));
    WatchKeepsBooks(c, s.m, s.watch, ch);
    forall id | id in s'.reqs ensures PcOk(c, s'.m, id, s'.reqs[id].place, s'.reqs[id].pc) {
      if Inside(s.reqs[id].pc) {
        PcStable(c, s.m, s'.m, id, s.reqs[id].place, s.reqs[id].pc);
      }
    }
  }

  lemma BooksKept(c: Config, s: State, step: Step)
    requires BooksOk(c, s) && Enabled(c, s, step)
    ensures BooksOk(c, Apply(c, s, step))
  {
    match step
    case Go(Request(id), ch) => BooksKeptByRequest(c, s, id, ch);
    case Go(Watch, ch) => BooksKeptByWatch(c, s, ch);
    case Arrive(_, _) => LocksKept(c, s, step);
    case Tick(_) =>
      var s' := Apply(c, s, step);
      LocksKept(c, s, step);
      Quiet(s.m, s'.m);
      MemoryStable(c, s.m, s'.m);
      forall id | id in s'.reqs ensures PcOk(c, s'.m, id, s'.reqs[id].place, s'.reqs[id].pc) {
        PcStable(c, s.m, s'.m, id, s.reqs[id].place, s.reqs[id].pc);
      }
  }
}
