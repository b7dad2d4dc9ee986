/** Turns, contexts and secrets in every reachable state, and what they say of a request
    that rides. */
module Ledger {
  import opened Seconds
  import opened Basics
  import opened Approval
  import opened Protocol
  import opened Locks
  import opened Records
  import opened Jobs
  import opened Timeline
  import opened Cache
  import opened Invariant
  import opened Turns
  import opened Contexts
  import opened Secrets

  ghost predicate EntriesOk(c: Config, m: Memory, id: nat, pc: Pc) {
    && TurnsOk(m, pc)
    && (if c.endsAtLock then SecretsOk(c, m, id, pc) && KeptOk(c, m.history)
        else ContextsOk(c, m, id, pc) && RecordsOk(c, m.history))
  }

  ghost predicate LedgerOk(c: Config, s: State) {
    EntriesOk(c, s.m, ActiveId(s), ActivePc(s)) && WatchOk(s.m, s.watch)
  }

  /** With nobody past the gate it does not matter which request stands for nobody. */
  lemma NobodysEntries(c: Config, m: Memory, id: nat, pc: Pc, id': nat, pc': Pc)
    requires EntriesOk(c, m, id, pc) && !Inside(pc) && !Inside(pc')
    ensures EntriesOk(c, m, id', pc')
  {
  }

  lemma KeptByAdmission(c: Config, m: Memory, id: nat, job: Job, now: Float)
    requires SecretsOk(c, m, id, Admitting(job)) && KeptOk(c, m.history)
    ensures KeptOk(c, Admit(c, m, id, job, now).0.history)
  {
    KeptOkLater(c, m.history, if m.signOuts != job.counted then Refused(id, job) else Admitted(id, now, job));
  }

  lemma KeptByOthers(c: Config, m: Memory, id: nat, place: Scope, pc: Pc, ch: Choice)
    requires RequestEnabled(m, id, pc, ch) && KeptOk(c, m.history) && !pc.Admitting?
    ensures KeptOk(c, RequestStep(c, m, id, place, pc, ch).0.history)
  {
    var h' := RequestStep(c, m, id, place, pc, ch).0.history;
    RequestEvents(c, m, id, place, pc, ch);
    if h' != m.history {
      assert h' == m.history + [h'[|m.history|]];
      KeptOkLater(c, m.history, h'[|m.history|]);
    }
  }

  lemma KeptByRequest(c: Config, m: Memory, id: nat, place: Scope, pc: Pc, ch: Choice)
    requires StepOk(c, m, id, place, pc, ch) && SecretsOk(c, m, id, pc) && KeptOk(c, m.history)
    ensures KeptOk(c, RequestStep(c, m, id, place, pc, ch).0.history)
  {
    if pc.Admitting? {
      KeptByAdmission(c, m, id, pc.job, Clock(m, ch));
    } else {
      KeptByOthers(c, m, id, place, pc, ch);
    }
  }

  lemma EntriesByRequest(c: Config, m: Memory, id: nat, place: Scope, pc: Pc, ch: Choice)
    requires StepOk(c, m, id, place, pc, ch) && RiderFacts(c, m, id, pc) && EntriesOk(c, m, id, pc)
    requires OriginsOk(c, m) && CoveredOk(c, m, LooseOf(pc)) && PlainOk(c, m) && TimelineOk(c, m)
    ensures var (m', pc') := RequestStep(c, m, id, place, pc, ch); EntriesOk(c, m', id, pc')
  {
    RequestTurns(c, m, id, place, pc, ch);
    if c.endsAtLock {
      RequestKeepsSecrets(c, m, id, place, pc, ch);
      KeptByRequest(c, m, id, place, pc, ch);
    } else {
      RequestSettles(c, m, id, place, pc, ch);
      RequestRecords(c, m, id, place, pc, ch);
    }
  }

  lemma LedgerByRequest(c: Config, s: State, id: nat, ch: Choice)
    requires Inv(c, s) && LedgerOk(c, s) && Enabled(c, s, Go(Request(id), ch))
    ensures LedgerOk(c, Apply(c, s, Go(Request(id), ch)))
  {
    var s' := Apply(c, s, Go(Request(id), ch));
    var req := s.reqs[id];
    MoverIsActive(c, s, id, ch);
    if !Inside(req.pc) {
      NobodyActive(c, s.m, ActiveId(s), ActivePc(s), id, req.pc);
      NobodysEntries(c, s.m, ActiveId(s), ActivePc(s), id, req.pc);
    }
    EntriesByRequest(c, s.m, id, req.place, req.pc, ch);
    RequestMoves(c, s.m, id, req.place, req.pc, ch);
    if !Inside(s'.reqs[id].pc) {
      NobodysEntries(c, s'.m, id, s'.reqs[id].pc, ActiveId(s'), ActivePc(s'));
    }
  }

  lemma EntriesByWatch(c: Config, m: Memory, w: WatchPc, ch: Choice, id: nat, pc: Pc)
    requires WatchEnabled(c, m, w, ch) && EntriesOk(c, m, id, pc) && WatchOk(m, w)
    requires w.Expiring? || w.WatchReleasing? ==> !Inside(pc)
    ensures var (m', w') := WatchStep(c, m, w, ch); EntriesOk(c, m', id, pc) && WatchOk(m', w')
  {
    WatchTurns(c, m, w, ch, pc);
    WatchKeepsSecrets(c, m, w, ch, id, pc);
    WatchIsMute(c, m, w, ch);
    var h' := WatchStep(c, m, w, ch).0.history;
    if h' != m.history {
      var e := h'[|m.history|];
      assert h' == m.history + [e];
      KeptOkLater(c, m.history, e);
    }
  }

  lemma LedgerByWatch(c: Config, s: State, ch: Choice)
    requires Inv(c, s) && LedgerOk(c, s) && Enabled(c, s, Go(Watch, ch))
    ensures LedgerOk(c, Apply(c, s, Go(Watch, ch)))
  {
    var s' := Apply(c, s, Go(Watch, ch));
    EntriesByWatch(c, s.m, s.watch, ch, ActiveId(s), ActivePc(s));
    if s'.m.gate != s.m.gate {
      NobodysEntries(c, s'.m, ActiveId(s), ActivePc(s), ActiveId(s'), ActivePc(s'));
    }
  }

  lemma EntriesByTick(c: Config, m: Memory, id: nat, pc: Pc, now: real)
    requires EntriesOk(c, m, id, pc)
    ensures EntriesOk(c, m.(now := now), id, pc)
  {
    if c.endsAtLock {
      SameSecrets(c, m, m.(now := now), id, pc);
    } else {
      TickSettles(c, m, id, pc, now);
    }
  }

  lemma LedgerByTick(c: Config, s: State, elapsed: real)
    requires LedgerOk(c, s) && Enabled(c, s, Tick(elapsed))
    ensures LedgerOk(c, Apply(c, s, Tick(elapsed)))
  {
    var s' := Apply(c, s, Tick(elapsed));
    assert ActiveId(s') == ActiveId(s) && ActivePc(s') == ActivePc(s);
    EntriesByTick(c, s.m, ActiveId(s), ActivePc(s), s.m.now + elapsed);
  }

  lemma LedgerByArrival(c: Config, s: State, id: nat, place: Scope)
    requires LocksOk(c, s) && LedgerOk(c, s) && Enabled(c, s, Arrive(id, place))
    ensures LedgerOk(c, Apply(c, s, Arrive(id, place)))
  {
    var s' := Apply(c, s, Arrive(id, place));
    assert ActiveId(s') == ActiveId(s) && ActivePc(s') == ActivePc(s);
  }

  lemma LedgerKept(c: Config, s: State, step: Step)
    requires Inv(c, s) && LedgerOk(c, s) && Enabled(c, s, step)
    ensures LedgerOk(c, Apply(c, s, step))
  {
    match step
    case Go(Request(id), ch) => LedgerByRequest(c, s, id, ch);
    case Go(Watch, ch) => LedgerByWatch(c, s, ch);
    case Arrive(id, place) => LedgerByArrival(c, s, id, place);
    case Tick(elapsed) => LedgerByTick(c, s, elapsed);
  }

  lemma {:induction false} LedgerAlong(c: Config, states: seq<State>, k: nat)
    requires Run(c, states) && k < |states|
    ensures LedgerOk(c, states[k])
  {
    if k > 0 {
      LedgerAlong(c, states, k - 1);
      InvAlong(c, states, k - 1);
      assert Next(c, states[k - 1], states[k]);
      var step :| Enabled(c, states[k - 1], step) && states[k] == Apply(c, states[k - 1], step);
      LedgerKept(c, states[k - 1], step);
    }
  }

  lemma ReachableLedger(c: Config, s: State)
    requires Reachable(c, s)
    ensures LedgerOk(c, s)
  {
    var states :| Run(c, states) && states[|states| - 1] == s;
    LedgerAlong(c, states, |states| - 1);
  }

  /** What every reachable state says of the request past the gate. */
  lemma ActiveFacts(c: Config, s: State, id: nat)
    requires Reachable(c, s) && id in s.reqs && Inside(s.reqs[id].pc)
    ensures PcOk(c, s.m, id, s.reqs[id].place, s.reqs[id].pc) && EntriesOk(c, s.m, id, s.reqs[id].pc)
    ensures DecisionsOk(c, s.m.history) && Ordered(s.m.history) && PlainOk(c, s.m)
  {
    ReachableInv(c, s);
    ReachableLedger(c, s);
    assert ActiveId(s) == id && ActivePc(s) == s.reqs[id].pc;
  }

  // ---- a plain key

  /** With the gate free, the contexts held are those of the approvals the history leaves
      one, each the one it names: no condition on the clock. */
  lemma HeldByTheHistory(c: Config, s: State, r: Reach)
    requires Reachable(c, s) && !c.endsAtLock && s.m.gate.Free?
    ensures r in s.m.held <==> r in s.m.approved && Holder(c, s.m.history, r).Some?
    ensures r in s.m.held ==> Holder(c, s.m.history, r) == Some(s.m.held[r])
  {
    ReachableLedger(c, s);
    assert Settled(c, s.m, r);
  }

  lemma RiderTaking(c: Config, m: Memory, id: nat, place: Scope, job: Job)
    requires PcOk(c, m, id, place, InEnclave(job, Taking)) && EntriesOk(c, m, id, InEnclave(job, Taking))
    requires DecisionsOk(c, m.history) && Ordered(m.history) && PlainOk(c, m) && !c.endsAtLock && job.live
    ensures job.reach in m.held && Hold(c) <==>
      !exists k :: job.since < k && LostAt(c, m.history, job.reach, k) && m.history[k].at.NaN?
  {
    PlainCount(c, m, id, place, job);
    assert Settled(c, m, job.reach);
    NoHolderMeansLost(c, m.history, job.reach, job.since);
    forall k | job.since < k && LostAt(c, m.history, job.reach, k) ensures m.history[k].at.NaN? {
      DroppedBlind(c, m, id, place, InEnclave(job, Taking), k);
    }
  }

  /** With a plain key, exactly when a request the daemon counts as covered raises a sheet:
      some request of its reach, since the approval was opened, could not read the clock,
      and no rider's own Touch ID has given the approval a context since. */
  lemma RiderAsksExactlyWhen(c: Config, s: State, id: nat, job: Job, ch: Choice)
    requires Reachable(c, s) && c.approve && !c.endsAtLock
    requires id in s.reqs && s.reqs[id].pc == InEnclave(job, Taking) && job.live
    ensures RequestStep(c, s.m, id, s.reqs[id].place, s.reqs[id].pc, ch).1.enclave.Asking?
      <==> exists k :: job.since < k && LostAt(c, s.m.history, job.reach, k) && s.m.history[k].at.NaN?
  {
    ActiveFacts(c, s, id);
    RiderTaking(c, s.m, id, s.reqs[id].place, job);
  }

  lemma {:induction false} HolderWasGiven(c: Config, h: History, reach: Reach)
    requires Holder(c, h, reach).Some?
    ensures exists k :: 0 <= k < |h| && Gives(c, h[k], reach) && h[k].id == Holder(c, h, reach).value
              && forall j | 0 <= j < |h| && k < j :: !Gives(c, h[j], reach) && !Drops(h[j], reach)
  {
    var n := |h| - 1;
    if !Gives(c, h[n], reach) {
      HolderWasGiven(c, h[..n], reach);
      var k :| 0 <= k < n && Gives(c, h[..n][k], reach) && h[..n][k].id == Holder(c, h, reach).value
               && forall j | 0 <= j < n && k < j :: !Gives(c, h[..n][j], reach) && !Drops(h[..n][j], reach);
      assert forall j | 0 <= j < n :: h[..n][j] == h[j];
      assert Gives(c, h[k], reach);
    }
  }

  /** Whose Touch ID a plain key's silent signature rests on, whatever the clock did: the
      one of the request that opened the approval, or of the last rider that was asked. */
  lemma PlainRiderRestsOn(c: Config, s: State, id: nat)
    requires Reachable(c, s) && !c.endsAtLock
    requires id in s.reqs && s.reqs[id].pc.Admitting? && s.reqs[id].pc.job.live
    ensures var job, h := s.reqs[id].pc.job, s.m.history;
      exists k :: 0 <= k < |h| && Gives(c, h[k], job.reach) && h[k].id == job.using
        && forall j | 0 <= j < |h| && k < j :: !Gives(c, h[j], job.reach) && !Drops(h[j], job.reach)
  {
    ActiveFacts(c, s, id);
    HolderWasGiven(c, s.m.history, s.reqs[id].pc.job.reach);
  }

  // ---- a sign-in key

  lemma SecretsHeld(c: Config, m: Memory, id: nat, pc: Pc, r: Reach)
    requires SecretsOk(c, m, id, pc) && !Inside(pc) && CoveredOk(c, m, {}) && m.looking.Nobody?
    ensures r in m.secrets <==> r in m.approved && SecretHolder(m.history, r).Some?
    ensures r in m.secrets ==> SecretHolder(m.history, r) == Some(m.secrets[r])
  {
    assert Sealed(m, r);
    assert r in m.approved ==> Backed(m, r);
    assert Held(m, r) ==> r in m.approved;
  }

  /** With both locks free, the secrets held are those of the sign-ins the history leaves
      one, each the one it names: no condition on the clock. */
  lemma SecretsByTheHistory(c: Config, s: State, r: Reach)
    requires Reachable(c, s) && c.endsAtLock && s.m.gate.Free? && s.m.looking.Nobody?
    ensures r in s.m.secrets <==> r in s.m.approved && SecretHolder(s.m.history, r).Some?
    ensures r in s.m.secrets ==> SecretHolder(s.m.history, r) == Some(s.m.secrets[r])
  {
    CoveredAtRest(c, s);
    ReachableLedger(c, s);
    SecretsHeld(c, s.m, ActiveId(s), ActivePc(s), r);
  }

  lemma CoveredAtRest(c: Config, s: State)
    requires Reachable(c, s) && s.m.gate.Free?
    ensures CoveredOk(c, s.m, {})
  {
    ReachableInv(c, s);
  }

  lemma RiderReading(c: Config, m: Memory, id: nat, place: Scope, job: Job) returns (q: nat)
    requires PcOk(c, m, id, place, InEnclave(job, Reading)) && EntriesOk(c, m, id, InEnclave(job, Reading))
    requires DecisionsOk(c, m.history) && Ordered(m.history) && c.endsAtLock && job.live && m.signOuts == job.counted
    ensures q < job.since < |m.history| && m.history[job.since].Admitted? && Hold(c)
    ensures m.history[q] == Kept(m.history[job.since].id, job.reach)
    ensures job.reach in m.secrets <==>
      !exists k :: q < k && SpoiltAt(m.history, job.reach, k) && (m.history[k].Wiped? || Blind(m.history, k))
  {
    var h := m.history;
    assert Opens(h[job.since], job.reach) && NoEnd(h, job.since, job.decidedAt);
    assert KeptBetween(h, h[job.since].id, job.reach, h[job.since].job.decidedAt, job.since);
    q :| 0 <= q < |h| && h[job.since].job.decidedAt < q < job.since && h[q] == Kept(h[job.since].id, job.reach);
    assert Sealed(m, job.reach) && Backed(m, job.reach);
    NoSecretMeansSpoilt(h, job.reach, q);
    assert NoOpening(h, job.reach, job.since, job.decidedAt);
    forall k | q < k && SpoiltAt(h, job.reach, k) ensures h[k].Wiped? || Blind(h, k) {
      SpoiltBlind(c, h, job.reach, job.since, job.decidedAt, q, k);
    }
  }

  /** With a sign-in key, exactly when a request that rides a standing sign-in finds nothing
      held and is turned away without asking anybody: since the opener kept its secret, a
      wipe came, or a request of the same reach could not read the clock, and no secret was
      kept since. */
  lemma RiderTurnedAwayExactlyWhen(c: Config, s: State, id: nat, job: Job, ch: Choice) returns (q: nat)
    requires Reachable(c, s) && c.endsAtLock && s.m.signOuts == job.counted
    requires id in s.reqs && s.reqs[id].pc == InEnclave(job, Reading) && job.live
    ensures q < job.since < |s.m.history| && s.m.history[job.since].Admitted?
    ensures s.m.history[q] == Kept(s.m.history[job.since].id, job.reach)
    ensures RequestStep(c, s.m, id, s.reqs[id].place, s.reqs[id].pc, ch).1 == SecondLook(job, false)
      <==> exists k :: q < k && SpoiltAt(s.m.history, job.reach, k) && (s.m.history[k].Wiped? || Blind(s.m.history, k))
  {
    ActiveFacts(c, s, id);
    q := RiderReading(c, s.m, id, s.reqs[id].place, job);
  }
}
