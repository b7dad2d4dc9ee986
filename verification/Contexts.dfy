/** A plain key's contexts, at every moment and whatever the clock does: which approvals
    still have one, whose Touch ID it carries, and so exactly when a request that rides an
    approval raises a sheet after all. */
module Contexts {
  import opened Seconds
  import opened Basics
  import opened Approval
  import opened Protocol
  import opened Records
  import opened Jobs
  import opened Timeline
  import opened Cache
  import opened Riders
  import opened Invariant
  import opened Turns

  /** A request that rides an approval of `reach` got itself a context after all: by its own
      Touch ID, or for the asking where the daemon has no check of its own. */
  predicate Regains(c: Config, e: Event, reach: Reach) {
    if c.approve then e.Asked? && e.reach == reach && e.riding && e.ok
    else e.Built? && e.reach == reach && e.riding
  }

  /** The approval of `reach` was given a context by this event. */
  predicate Gives(c: Config, e: Event, reach: Reach) {
    Opens(e, reach) || Regains(c, e, reach)
  }

  /** The context of `reach` was dropped for a request nothing covered. */
  predicate Drops(e: Event, reach: Reach) {
    e.Decided? && e.reach == reach && !e.live
  }

  /** Whose Touch ID the approval of `reach` carries, by the history alone. */
  function Holder(c: Config, h: History, reach: Reach): Option<nat> {
    if h == [] then None
    else
      var e := h[|h| - 1];
      if Gives(c, e, reach) then Some(e.id)
      else if Drops(e, reach) then None
      else Holder(c, h[..|h| - 1], reach)
  }

  lemma HolderStep(c: Config, h: History, e: Event, reach: Reach)
    ensures Holder(c, h + [e], reach)
         == if Gives(c, e, reach) then Some(e.id) else if Drops(e, reach) then None else Holder(c, h, reach)
  {
    assert (h + [e])[..|h|] == h;
  }

  // ---- the cache is what the history says

  /** The cache holds a context for `r` exactly when `r` is approved and the history leaves
      it one, and it is the one the history names. */
  predicate Settled(c: Config, m: Memory, r: Reach) {
    && (r in m.held <==> r in m.approved && Holder(c, m.history, r).Some?)
    && (r in m.held ==> Holder(c, m.history, r) == Some(m.held[r]))
  }

  ghost predicate SettledBut(c: Config, m: Memory, them: set<Reach>) {
    forall r | r !in them :: Settled(c, m, r)
  }

  /** The request in flight has a context of its own, approved or not yet. */
  predicate OwnContext(c: Config, m: Memory, id: nat, job: Job) {
    if job.live then Settled(c, m, job.reach) && Holder(c, m.history, job.reach) == Some(job.using)
    else (job.reach in m.held <==> Hold(c)) && (job.reach in m.held ==> m.held[job.reach] == id)
  }

  ghost predicate ContextsOk(c: Config, m: Memory, id: nat, pc: Pc) {
    match pc
    case Releasing(job, todo) =>
      && SettledBut(c, m, if job.live then todo else todo + {job.reach}) && todo !! m.approved.Keys
      && (!job.live ==> Holder(c, m.history, job.reach).None?)
    case Dropping(job) =>
      SettledBut(c, m, {job.reach}) && Holder(c, m.history, job.reach).None?
    case InEnclave(job, enclave) =>
      && SettledBut(c, m, if enclave.Taking? then {} else {job.reach})
      && (!job.live || enclave.Asking? || enclave.Unholding? ==> Holder(c, m.history, job.reach).None?)
      && (enclave.Asking? ==> c.approve && (job.reach in m.held <==> Hold(c)) && (job.reach in m.held ==> m.held[job.reach] == id))
      && (enclave.Making? ==> OwnContext(c, m, id, job))
    case Admitting(job) => SettledBut(c, m, {job.reach}) && OwnContext(c, m, id, job)
    case Failing(job) =>
      && SettledBut(c, m, if job.live then {} else {job.reach})
      && (!job.live ==> Holder(c, m.history, job.reach).None?)
    case Forgetting(job, _) => SettledBut(c, m, {job.reach}) && Holder(c, m.history, job.reach).None?
    case _ => SettledBut(c, m, {})
  }

  // ---- steps

  /** `e`, if anything, was put on record, and it says nothing about a context of `r`. */
  ghost predicate Untold(c: Config, m: Memory, m': Memory, r: Reach) {
    m'.history == m.history
    || exists e :: m'.history == m.history + [e] && !Gives(c, e, r) && !Drops(e, r)
  }

  lemma HolderUntold(c: Config, m: Memory, m': Memory, r: Reach)
    requires Untold(c, m, m', r)
    ensures Holder(c, m'.history, r) == Holder(c, m.history, r)
  {
    if m'.history != m.history {
      var e :| m'.history == m.history + [e] && !Gives(c, e, r) && !Drops(e, r);
      HolderStep(c, m.history, e, r);
    }
  }

  /** What is untouched stays settled. */
  lemma StaysSettled(c: Config, m: Memory, m': Memory, them: set<Reach>, them': set<Reach>)
    requires SettledBut(c, m, them) && them <= them'
    requires forall r | r !in them' ::
      && Untold(c, m, m', r)
      && (r in m'.held <==> r in m.held) && (r in m.held ==> m'.held[r] == m.held[r])
      && (r in m'.approved <==> r in m.approved)
    ensures SettledBut(c, m', them')
  {
    forall r | r !in them' ensures Settled(c, m', r) {
      HolderUntold(c, m, m', r);
    }
  }

  lemma Tells(c: Config, m: Memory, e: Event, m': Memory)
    requires m'.history == m.history + [e]
    ensures forall r | !Gives(c, e, r) && !Drops(e, r) :: Untold(c, m, m', r)
  {
  }

  lemma DecideSettles(c: Config, m: Memory, id: nat, place: Scope, pc: Pc, now: Float)
    requires pc.Deciding? && ContextsOk(c, m, id, pc)
    ensures var (m', pc') := Decide(c, m, id, place, pc, now); ContextsOk(c, m', id, pc')
  {
    var (m', pc') := Decide(c, m, id, place, pc, now);
    var job := pc'.job;
    var e := Decided(id, job.reach, now, job.live);
    Tells(c, m, e, m');
    HolderStep(c, m.history, e, job.reach);
    StaysSettled(c, m, m', {}, if job.live then pc'.todo else pc'.todo + {job.reach});
  }

  lemma ReleaseSettles(c: Config, m: Memory, id: nat, place: Scope, pc: Pc, ch: Choice)
    requires (pc.Releasing? || pc.Dropping?) && ContextsOk(c, m, id, pc) && PcOk(c, m, id, place, pc)
    requires RequestEnabled(m, id, pc, ch) && !c.endsAtLock
    ensures var (m', pc') := RequestStep(c, m, id, place, pc, ch); ContextsOk(c, m', id, pc')
  {
    var (m', pc') := RequestStep(c, m, id, place, pc, ch);
    var them := if pc.Dropping? then {pc.job.reach} else if pc.job.live then pc.todo else pc.todo + {pc.job.reach};
    StaysSettled(c, m, m', them, them);
  }

  lemma TakingSettles(c: Config, m: Memory, id: nat, job: Job, ch: Choice)
    requires ContextsOk(c, m, id, InEnclave(job, Taking)) && (job.live ==> job.reach in m.approved && Hold(c))
    requires job.using == id && (!Hold(c) ==> m.held == map[])
    ensures var (m', pc') := EnclaveStep(c, m, id, job, Taking, ch); ContextsOk(c, m', id, pc')
  {
    var (m', pc') := EnclaveStep(c, m, id, job, Taking, ch);
    if m'.history != m.history {
      var e := Built(id, job.reach, job.live);
      Tells(c, m, e, m');
      HolderStep(c, m.history, e, job.reach);
    }
    assert Settled(c, m, job.reach);
    StaysSettled(c, m, m', {}, {job.reach});
  }

  lemma AskingSettles(c: Config, m: Memory, id: nat, job: Job, ch: Choice)
    requires ContextsOk(c, m, id, InEnclave(job, Asking)) && !c.endsAtLock && job.using == id
    requires job.live ==> job.reach in m.approved && Hold(c)
    ensures var (m', pc') := EnclaveStep(c, m, id, job, Asking, ch); ContextsOk(c, m', id, pc')
  {
    var (m', pc') := EnclaveStep(c, m, id, job, Asking, ch);
    var e := Asked(id, job.reach, job.live, ch.ok);
    Tells(c, m, e, m');
    HolderStep(c, m.history, e, job.reach);
    StaysSettled(c, m, m', {job.reach}, {job.reach});
  }

  lemma UnholdingSettles(c: Config, m: Memory, id: nat, job: Job, ch: Choice)
    requires ContextsOk(c, m, id, InEnclave(job, Unholding)) && !c.endsAtLock
    ensures var (m', pc') := EnclaveStep(c, m, id, job, Unholding, ch); ContextsOk(c, m', id, pc')
  {
    var (m', pc') := EnclaveStep(c, m, id, job, Unholding, ch);
    StaysSettled(c, m, m', {job.reach}, {job.reach});
  }

  lemma MakingSettles(c: Config, m: Memory, id: nat, job: Job, ch: Choice)
    requires ContextsOk(c, m, id, InEnclave(job, Making)) && !c.endsAtLock
    ensures var (m', pc') := EnclaveStep(c, m, id, job, Making, ch); ContextsOk(c, m', id, pc')
  {
    var (m', pc') := EnclaveStep(c, m, id, job, Making, ch);
    if ch.ok {
      Tells(c, m, Made(id, job.using), m');
      HolderUntold(c, m, m', job.reach);
    }
    StaysSettled(c, m, m', {job.reach}, {job.reach});
  }

  lemma AdmitSettles(c: Config, m: Memory, id: nat, job: Job, now: Float)
    requires ContextsOk(c, m, id, Admitting(job)) && m.signOuts == job.counted
    requires !Hold(c) ==> m.held == map[] && m.approved == map[]
    requires job.live ==> job.reach in m.approved
    ensures var (m', pc') := Admit(c, m, id, job, now); ContextsOk(c, m', id, pc')
  {
    var (m', pc') := Admit(c, m, id, job, now);
    var e := Admitted(id, now, job);
    Tells(c, m, e, m');
    HolderStep(c, m.history, e, job.reach);
    StaysSettled(c, m, m', {job.reach}, {job.reach});
    assert Settled(c, m', job.reach);
  }

  lemma FailureSettles(c: Config, m: Memory, id: nat, place: Scope, pc: Pc, ch: Choice)
    requires ContextsOk(c, m, id, pc) && (pc.Failing? || pc.Forgetting?)
    requires pc.Failing? && pc.job.live ==> m.signOuts == pc.job.counted
    ensures var (m', pc') := RequestStep(c, m, id, place, pc, ch); ContextsOk(c, m', id, pc')
  {
    var (m', pc') := RequestStep(c, m, id, place, pc, ch);
    if pc.Failing? {
      var them := if pc.job.live then {} else {pc.job.reach};
      Tells(c, m, Failed(id, pc.job), m');
      HolderUntold(c, m, m', pc.job.reach);
      StaysSettled(c, m, m', them, them);
    } else {
      StaysSettled(c, m, m', {pc.job.reach}, {pc.job.reach});
    }
  }

  lemma OtherSettles(c: Config, m: Memory, id: nat, place: Scope, pc: Pc, ch: Choice)
    requires ContextsOk(c, m, id, pc) && RequestEnabled(m, id, pc, ch) && !c.endsAtLock
    requires pc.Arriving? || pc.Loading? || pc.Closing? || pc.Done?
    ensures var (m', pc') := RequestStep(c, m, id, place, pc, ch); ContextsOk(c, m', id, pc')
  {
    var (m', pc') := RequestStep(c, m, id, place, pc, ch);
    if m'.history != m.history {
      Tells(c, m, m'.history[|m.history|], m');
    }
    StaysSettled(c, m, m', {}, {});
  }

  /** A plain key's count never moves: nothing signs it out. */
  lemma PlainCount(c: Config, m: Memory, id: nat, place: Scope, job: Job)
    requires JobOk(c, m, id, place, job) && PlainOk(c, m) && !c.endsAtLock
    ensures m.signOuts == job.counted
    ensures job.live ==> job.reach in m.approved && Hold(c)
  {
    assert NoEnd(m.history, job.loadedAt, |m.history|);
  }

  lemma EnclaveSettles(c: Config, m: Memory, id: nat, place: Scope, job: Job, enclave: EnclavePc, ch: Choice)
    requires PcOk(c, m, id, place, InEnclave(job, enclave)) && UsesOk(c, m, id, InEnclave(job, enclave))
    requires ContextsOk(c, m, id, InEnclave(job, enclave)) && !c.endsAtLock
    requires job.live ==> job.reach in m.approved && Hold(c)
    requires !Hold(c) ==> m.held == map[]
    ensures var (m', pc') := EnclaveStep(c, m, id, job, enclave, ch); ContextsOk(c, m', id, pc')
  {
    match enclave
    case Taking => TakingSettles(c, m, id, job, ch);
    case Asking => AskingSettles(c, m, id, job, ch);
    case Unholding => UnholdingSettles(c, m, id, job, ch);
    case Making => MakingSettles(c, m, id, job, ch);
    case _ =>
  }

  lemma RequestSettles(c: Config, m: Memory, id: nat, place: Scope, pc: Pc, ch: Choice)
    requires StepOk(c, m, id, place, pc, ch) && RiderFacts(c, m, id, pc) && ContextsOk(c, m, id, pc)
    requires OriginsOk(c, m) && CoveredOk(c, m, LooseOf(pc)) && !c.endsAtLock && PlainOk(c, m)
    ensures var (m', pc') := RequestStep(c, m, id, place, pc, ch); ContextsOk(c, m', id, pc')
  {
    match pc
    case Deciding(_, _, _) => DecideSettles(c, m, id, place, pc, Clock(m, ch));
    case Releasing(_, _) => ReleaseSettles(c, m, id, place, pc, ch);
    case Dropping(_) => ReleaseSettles(c, m, id, place, pc, ch);
    case InEnclave(job, enclave) =>
      PlainCount(c, m, id, place, job);
      EnclaveSettles(c, m, id, place, job, enclave, ch);
    case Admitting(job) =>
      PlainCount(c, m, id, place, job);
      AdmitSettles(c, m, id, job, Clock(m, ch));
    case Failing(job) =>
      PlainCount(c, m, id, place, job);
      FailureSettles(c, m, id, place, pc, ch);
    case Forgetting(_, _) => FailureSettles(c, m, id, place, pc, ch);
    case _ => OtherSettles(c, m, id, place, pc, ch);
  }

  /** Nothing another thread does touches a plain key's contexts. */
  lemma TickSettles(c: Config, m: Memory, id: nat, pc: Pc, now: real)
    requires ContextsOk(c, m, id, pc)
    ensures ContextsOk(c, m.(now := now), id, pc)
  {
    assert forall r :: Settled(c, m.(now := now), r) == Settled(c, m, r);
  }

  // ---- what a missing context means

  /** At `k` a request nothing covered dropped the context of `reach`, and no event since
      gave the approval another. */
  ghost predicate LostAt(c: Config, h: History, reach: Reach, k: int) {
    && 0 <= k < |h| && Drops(h[k], reach)
    && forall j | 0 <= j < |h| && k < j :: !Gives(c, h[j], reach)
  }

  lemma {:induction false} NoHolderMeansLost(c: Config, h: History, reach: Reach, o: nat)
    requires o < |h| && Opens(h[o], reach)
    ensures Holder(c, h, reach).None? <==> exists k :: o < k && LostAt(c, h, reach, k)
  {
    var n := |h| - 1;
    var front := h[..n];
    if Gives(c, h[n], reach) {
    } else if Drops(h[n], reach) {
      assert LostAt(c, h, reach, n);
    } else {
      assert front[o] == h[o];
      NoHolderMeansLost(c, front, reach, o);
      if k :| o < k && LostAt(c, front, reach, k) {
        assert forall j | 0 <= j < |h| && k < j && j < n :: h[j] == front[j];
        assert LostAt(c, h, reach, k);
      }
      if k :| o < k && LostAt(c, h, reach, k) {
        assert front[k] == h[k];
        assert forall j | 0 <= j < |front| && k < j :: front[j] == h[j];
        assert LostAt(c, front, reach, k);
      }
    }
  }

  /** Since the opening a live request rides, only a request that could not read the clock
      has dropped its context. */
  lemma DroppedBlind(c: Config, m: Memory, id: nat, place: Scope, pc: Pc, k: nat)
    requires Undecided(pc) && JobOk(c, m, id, place, pc.job) && pc.job.live && m.signOuts == pc.job.counted
    requires TurnsOk(m, pc) && DecisionsOk(c, m.history) && Ordered(m.history)
    requires pc.job.since < k < |m.history| && Drops(m.history[k], pc.job.reach)
    ensures m.history[k].at.NaN? && k < pc.job.decidedAt
  {
    var h, job := m.history, pc.job;
    assert Rides(c, h, job);
    assert NoOpening(h, job.reach, job.since, |h|);
    assert k < job.decidedAt;
    OnlyTheClock(c, h, job.reach, job.since, k, job.decidedAt);
  }

  // ---- on record

  /** A request of `reach` decided before `hi` could not read the clock. */
  ghost predicate BlindBefore(h: History, reach: Reach, hi: int) {
    exists k :: 0 <= k < |h| && k < hi && h[k].Decided? && h[k].reach == reach && h[k].at.NaN?
  }

  /** What is known where `e` comes after `h`: a rider is given a context only where the
      approval has none, and what it signs with is what the approval carries. */
  ghost predicate RecordOk(c: Config, h: History, e: Event) {
    && ((e.Asked? || e.Built?) && e.riding ==> Holder(c, h, e.reach).None?)
    && (e.Asked? && e.riding ==> BlindBefore(h, e.reach, |h|))
    && (e.Admitted? && e.job.live ==> Holder(c, h, e.job.reach) == Some(e.job.using))
  }

  ghost predicate RecordsOk(c: Config, h: History) {
    forall k | 0 <= k < |h| :: RecordOk(c, h[..k], h[k])
  }

  lemma RecordAdded(c: Config, h: History, e: Event)
    requires RecordsOk(c, h) && RecordOk(c, h, e)
    ensures RecordsOk(c, h + [e])
  {
    var h' := h + [e];
    forall k | 0 <= k < |h'| ensures RecordOk(c, h'[..k], h'[k]) {
      assert h'[..k] == h[..k] && h[..|h|] == h;
    }
  }

  lemma AskingRecords(c: Config, m: Memory, id: nat, place: Scope, job: Job, enclave: EnclavePc, ok: bool)
    requires PcOk(c, m, id, place, InEnclave(job, enclave)) && ContextsOk(c, m, id, InEnclave(job, enclave))
    requires TurnsOk(m, InEnclave(job, enclave)) && DecisionsOk(c, m.history) && Ordered(m.history)
    requires PlainOk(c, m) && !c.endsAtLock && enclave.Asking?
    ensures RecordOk(c, m.history, Asked(id, job.reach, job.live, ok))
  {
    PlainCount(c, m, id, place, job);
    if job.live {
      NoHolderMeansLost(c, m.history, job.reach, job.since);
      var k :| job.since < k && LostAt(c, m.history, job.reach, k);
      DroppedBlind(c, m, id, place, InEnclave(job, enclave), k);
    }
  }

  lemma EnclaveRecords(c: Config, m: Memory, id: nat, place: Scope, job: Job, enclave: EnclavePc, ch: Choice)
    requires PcOk(c, m, id, place, InEnclave(job, enclave)) && ContextsOk(c, m, id, InEnclave(job, enclave))
    requires TurnsOk(m, InEnclave(job, enclave)) && DecisionsOk(c, m.history) && Ordered(m.history)
    requires PlainOk(c, m) && !c.endsAtLock && RecordsOk(c, m.history)
    ensures RecordsOk(c, EnclaveStep(c, m, id, job, enclave, ch).0.history)
  {
    var h' := EnclaveStep(c, m, id, job, enclave, ch).0.history;
    if h' != m.history {
      var e := h'[|m.history|];
      assert h' == m.history + [e];
      if enclave.Asking? {
        AskingRecords(c, m, id, place, job, enclave, ch.ok);
      } else if enclave.Taking? {
        PlainCount(c, m, id, place, job);
        assert Settled(c, m, job.reach);
      }
      RecordAdded(c, m.history, e);
    }
  }

  lemma RequestRecords(c: Config, m: Memory, id: nat, place: Scope, pc: Pc, ch: Choice)
    requires StepOk(c, m, id, place, pc, ch) && ContextsOk(c, m, id, pc)
    requires TurnsOk(m, pc) && DecisionsOk(c, m.history) && Ordered(m.history)
    requires PlainOk(c, m) && !c.endsAtLock && RecordsOk(c, m.history)
    ensures RecordsOk(c, RequestStep(c, m, id, place, pc, ch).0.history)
  {
    var h' := RequestStep(c, m, id, place, pc, ch).0.history;
    if pc.InEnclave? {
      EnclaveRecords(c, m, id, place, pc.job, pc.enclave, ch);
    } else if h' != m.history {
      var e := h'[|m.history|];
      assert h' == m.history + [e];
      RecordAdded(c, m.history, e);
    }
  }

  // ---- whose Touch ID

  /** Between the opening and the rider nobody of the same reach misread the clock, so the
      approval still carries the opener's own. */
  lemma {:induction false} StillTheOpeners(c: Config, h: History, reach: Reach, o: nat, hi: nat)
    requires RecordsOk(c, h) && o < hi <= |h| && Opens(h[o], reach) && NoOpening(h, reach, o, hi)
    requires forall k | o < k < hi :: !Drops(h[k], reach)
    ensures Holder(c, h[..hi], reach) == Some(h[o].id)
  {
    var n := hi - 1;
    assert h[..hi][..n] == h[..n];
    if n > o {
      StillTheOpeners(c, h, reach, o, n);
      assert RecordOk(c, h[..n], h[n]);
    }
  }
}
