/** Requests take turns. From its decision to the check at the end of it, nobody but the
    request past the gate decides, is admitted or fails; and the opening a request rides is
    the last one of its reach. */
module Turns {
  import opened Seconds
  import opened Basics
  import opened Approval
  import opened Protocol
  import opened Locks
  import opened Records
  import opened Jobs
  import opened Timeline
  import opened Invariant

  /** What only the request past the gate puts on record, outside its call into the enclave. */
  predicate Turn(e: Event) {
    e.Loaded? || e.Decided? || e.Admitted? || e.Refused? || e.Failed? || e.Replied?
  }

  ghost predicate Exclusive(h: History, lo: int, hi: int) {
    forall k | 0 <= k < |h| && lo < k < hi :: !Turn(h[k])
  }

  ghost predicate NoOpening(h: History, reach: Reach, lo: int, hi: int) {
    forall k | 0 <= k < |h| && lo < k < hi :: !Opens(h[k], reach)
  }

  /** Decided, and not yet checked. */
  predicate Undecided(pc: Pc) {
    pc.Releasing? || pc.Dropping? || pc.InEnclave? || pc.SecondLook? || pc.Admitting? || pc.Failing?
  }

  ghost predicate TurnOk(h: History, pc: Pc) {
    Undecided(pc) ==> pc.job.decidedAt < |h| && Exclusive(h, pc.job.decidedAt, |h|)
  }

  predicate Checks(e: Event) {
    e.Admitted? || e.Refused? || e.Failed?
  }

  /** The turn that ends with the check at `k` has one decision in it, its own. */
  ghost predicate CheckOk(h: History, k: nat)
    requires k < |h| && Checks(h[k])
  {
    var job := h[k].job;
    && job.decidedAt < k && h[job.decidedAt].Decided?
    && h[job.decidedAt].reach == job.reach && h[job.decidedAt].live == job.live
    && Exclusive(h, job.decidedAt, k)
    && (h[k].Admitted? && job.live ==> NoOpening(h, job.reach, job.since, k))
  }

  ghost predicate ChecksOk(h: History) {
    forall k | 0 <= k < |h| && Checks(h[k]) :: CheckOk(h, k)
  }

  /** An approval in the table is the last opening of its reach. */
  ghost predicate OriginLast(m: Memory) {
    forall r | r in m.origin :: NoOpening(m.history, r, m.origin[r], |m.history|)
  }

  ghost predicate TurnsOk(m: Memory, pc: Pc) {
    TurnOk(m.history, pc) && ChecksOk(m.history) && OriginLast(m)
  }

  // ---- steps

  /** At most one event, and no check among them. */
  ghost predicate Unchecked(m: Memory, m': Memory) {
    && (m'.history == m.history || exists e :: m'.history == m.history + [e] && !Checks(e))
    && (forall r | r in m'.origin :: r in m.origin && m'.origin[r] == m.origin[r])
  }

  lemma UncheckedKeeps(m: Memory, m': Memory)
    requires ChecksOk(m.history) && OriginLast(m) && Unchecked(m, m')
    ensures ChecksOk(m'.history) && OriginLast(m')
  {
    forall k: nat | k < |m'.history| && Checks(m'.history[k]) ensures CheckOk(m'.history, k) {
      assert CheckOk(m.history, k);
    }
  }

  lemma ReleaseTurns(c: Config, m: Memory, id: nat, place: Scope, pc: Pc, ch: Choice)
    requires RequestEnabled(m, id, pc, ch) && TurnOk(m.history, pc) && (pc.Releasing? || pc.Dropping?)
    ensures var (m', pc') := RequestStep(c, m, id, place, pc, ch); Unchecked(m, m') && TurnOk(m'.history, pc')
  {
    var (m', pc') := RequestStep(c, m, id, place, pc, ch);
    assert m'.history == m.history && m'.origin == m.origin;
  }

  lemma EnclaveTurns(c: Config, m: Memory, id: nat, job: Job, enclave: EnclavePc, ch: Choice)
    requires TurnOk(m.history, InEnclave(job, enclave))
    ensures var (m', pc') := EnclaveStep(c, m, id, job, enclave, ch); Unchecked(m, m') && TurnOk(m'.history, pc')
  {
    var (m', pc') := EnclaveStep(c, m, id, job, enclave, ch);
    assert m'.origin == m.origin;
    assert Undecided(pc') && pc'.job.decidedAt == job.decidedAt;
    if m'.history != m.history {
      assert m'.history == m.history + [m'.history[|m.history|]] && !Turn(m'.history[|m.history|]);
    }
  }

  lemma LookTurns(c: Config, m: Memory, id: nat, place: Scope, pc: Pc, ch: Choice)
    requires RequestEnabled(m, id, pc, ch) && TurnOk(m.history, pc) && Looks(pc)
    ensures var (m', pc') := RequestStep(c, m, id, place, pc, ch); Unchecked(m, m') && TurnOk(m'.history, pc')
  {
    LookUnchecked(m, Request(id), ch, RequestStep(c, m, id, place, pc, ch).0);
  }

  lemma LookUnchecked(m: Memory, who: Who, ch: Choice, m': Memory)
    requires m' == if m.looking.Nobody? then BeginLook(m, who, ch)
                   else if m.looking.stage != Leaving then ContinueLook(m)
                   else m.(looking := Nobody)
    ensures Unchecked(m, m')
    ensures forall k | |m.history| <= k < |m'.history| :: !Turn(m'.history[k])
  {
    LookHistory(m, who, ch, m');
  }

  lemma DecideTurns(c: Config, m: Memory, id: nat, place: Scope, pc: Pc, now: Float)
    requires pc.Deciding?
    ensures var (m', pc') := Decide(c, m, id, place, pc, now); Unchecked(m, m') && TurnOk(m'.history, pc')
  {
    var (m', pc') := Decide(c, m, id, place, pc, now);
    assert m'.history == m.history + [Decided(id, pc'.job.reach, now, pc'.job.live)];
  }

  lemma RestTurns(c: Config, m: Memory, id: nat, place: Scope, pc: Pc, ch: Choice)
    requires RequestEnabled(m, id, pc, ch)
    requires pc.Arriving? || pc.Loading? || pc.Forgetting? || pc.Closing?
    ensures var (m', pc') := RequestStep(c, m, id, place, pc, ch); Unchecked(m, m') && TurnOk(m'.history, pc')
  {
    var m' := RequestStep(c, m, id, place, pc, ch).0;
    if m'.history != m.history {
      assert m'.history == m.history + [m'.history[|m.history|]];
    }
  }

  lemma CheckAdded(h: History, e: Event)
    requires ChecksOk(h) && Checks(e) && CheckOk(h + [e], |h|)
    ensures ChecksOk(h + [e])
  {
    var h' := h + [e];
    forall k: nat | k < |h'| && Checks(h'[k]) ensures CheckOk(h', k) {
      if k < |h| {
        assert CheckOk(h, k);
      }
    }
  }

  /** The check at the end of the turn finds the decision it began with. */
  lemma CheckEnds(c: Config, m: Memory, id: nat, place: Scope, job: Job, e: Event)
    requires JobOk(c, m, id, place, job) && TurnOk(m.history, Failing(job)) && OriginLast(m)
    requires Checks(e) && e.job == job && (e.Admitted? ==> m.signOuts == job.counted)
    ensures CheckOk(m.history + [e], |m.history|)
  {
    var h' := m.history + [e];
    assert Decision(c, m.history, id, place, job);
    if e.Admitted? && job.live {
      assert NoOpening(m.history, job.reach, job.since, |m.history|);
      assert NoOpening(h', job.reach, job.since, |m.history|);
    }
  }

  lemma AdmitLast(c: Config, m: Memory, id: nat, job: Job, now: Float)
    requires OriginLast(m) && m.signOuts == job.counted && (!Hold(c) ==> m.origin == map[])
    ensures OriginLast(Admit(c, m, id, job, now).0)
  {
    var m' := Admit(c, m, id, job, now).0;
    var e := Admitted(id, now, job);
    assert m'.history == m.history + [e];
    forall r | r in m'.origin ensures NoOpening(m'.history, r, m'.origin[r], |m'.history|) {
      if m'.origin[r] < |m.history| {
        assert NoOpening(m.history, r, m'.origin[r], |m.history|) && !Opens(e, r);
      }
    }
  }

  /** A turn that ends without an admission. */
  lemma DropTurns(c: Config, m: Memory, id: nat, place: Scope, job: Job, e: Event, m': Memory)
    requires JobOk(c, m, id, place, job) && TurnsOk(m, Failing(job))
    requires (e.Refused? || e.Failed?) && e.job == job && m' == Log(m, e)
    ensures ChecksOk(m'.history) && OriginLast(m')
  {
    CheckEnds(c, m, id, place, job, e);
    CheckAdded(m.history, e);
  }

  lemma AdmitTurns(c: Config, m: Memory, id: nat, place: Scope, job: Job, now: Float)
    requires JobOk(c, m, id, place, job) && TurnsOk(m, Failing(job)) && (!Hold(c) ==> m.origin == map[])
    requires m.signOuts == job.counted
    ensures var m' := Admit(c, m, id, job, now).0; ChecksOk(m'.history) && OriginLast(m')
  {
    var e := Admitted(id, now, job);
    CheckEnds(c, m, id, place, job, e);
    CheckAdded(m.history, e);
    AdmitLast(c, m, id, job, now);
  }

  lemma AdmittingTurns(c: Config, m: Memory, id: nat, place: Scope, job: Job, now: Float)
    requires JobOk(c, m, id, place, job) && OriginsOk(c, m) && TurnsOk(m, Admitting(job))
    ensures var (m', pc') := Admit(c, m, id, job, now); TurnsOk(m', pc')
  {
    if m.signOuts == job.counted {
      AdmitTurns(c, m, id, place, job, now);
    } else {
      DropTurns(c, m, id, place, job, Refused(id, job), Log(m, Refused(id, job)));
    }
  }

  lemma CheckTurns(c: Config, m: Memory, id: nat, place: Scope, pc: Pc, ch: Choice)
    requires PcOk(c, m, id, place, pc) && OriginsOk(c, m) && TurnsOk(m, pc) && (pc.Admitting? || pc.Failing?)
    requires RequestEnabled(m, id, pc, ch)
    ensures var (m', pc') := RequestStep(c, m, id, place, pc, ch); TurnsOk(m', pc')
  {
    if pc.Failing? {
      DropTurns(c, m, id, place, pc.job, Failed(id, pc.job), Log(m, Failed(id, pc.job)));
    } else {
      AdmittingTurns(c, m, id, place, pc.job, Clock(m, ch));
    }
  }

  lemma RequestTurns(c: Config, m: Memory, id: nat, place: Scope, pc: Pc, ch: Choice)
    requires StepOk(c, m, id, place, pc, ch) && OriginsOk(c, m) && TurnsOk(m, pc)
    ensures var (m', pc') := RequestStep(c, m, id, place, pc, ch); TurnsOk(m', pc')
  {
    var m' := RequestStep(c, m, id, place, pc, ch).0;
    if pc.Admitting? || pc.Failing? {
      CheckTurns(c, m, id, place, pc, ch);
    } else {
      if pc.Deciding? {
        DecideTurns(c, m, id, place, pc, Clock(m, ch));
      } else if Looks(pc) {
        LookTurns(c, m, id, place, pc, ch);
      } else if pc.InEnclave? {
        EnclaveTurns(c, m, id, pc.job, pc.enclave, ch);
      } else if Undecided(pc) {
        ReleaseTurns(c, m, id, place, pc, ch);
      } else {
        RestTurns(c, m, id, place, pc, ch);
      }
      UncheckedKeeps(m, m');
    }
  }

  lemma WatchTurns(c: Config, m: Memory, pc: WatchPc, ch: Choice, active: Pc)
    requires WatchEnabled(c, m, pc, ch) && TurnsOk(m, active)
    ensures TurnsOk(WatchStep(c, m, pc, ch).0, active)
  {
    var m' := WatchStep(c, m, pc, ch).0;
    if pc.WatchLooking? {
      LookUnchecked(m, Watch, ch, m');
    }
    UncheckedKeeps(m, m');
  }

  // ---- what the turns say of riders

  /** Between the opening a rider rides and the rider's decision, the last opening is that
      one, so a request nothing covered can only have failed to read the clock. */
  lemma {:induction false} SameLastOpening(h: History, k: nat, d: nat, reach: Reach)
    requires k <= d <= |h| && NoOpening(h, reach, k - 1, d) && NoEnd(h, k - 1, d)
    ensures LastOpening(h[..d], reach) == LastOpening(h[..k], reach)
  {
    if k < d {
      SameLastOpening(h, k, d - 1, reach);
      assert h[..d][..d - 1] == h[..d - 1];
    }
  }

  lemma OnlyTheClock(c: Config, h: History, reach: Reach, o: nat, k: nat, d: nat)
    requires DecisionsOk(c, h) && Ordered(h)
    requires o < k < d < |h| && NoOpening(h, reach, o, d) && NoEnd(h, o, d)
    requires h[k].Decided? && h[k].reach == reach && !h[k].live
    requires h[d].Decided? && h[d].reach == reach && h[d].live
    ensures h[k].at.NaN?
  {
    SameLastOpening(h, k, d, reach);
    assert Approves(c, h[..d], reach, h[d].at) && !Approves(c, h[..k], reach, h[k].at);
    assert Stamp(h[k]) == h[k].at && Stamp(h[d]) == h[d].at;
  }

  lemma StillTheLast(h: History, reach: Reach, o: nat, k: nat)
    requires o < k <= |h| && Opens(h[o], reach) && NoOpening(h, reach, o, |h|) && NoEnd(h, o, |h|)
    ensures LastOpening(h[..k], reach) == Some(h[o].at)
  {
    SameLastOpening(h, o + 1, k, reach);
    assert h[..o + 1] == h[..o] + [h[o]];
    LastOpeningStep(h[..o], h[o], reach);
  }

  /** The same for an approval still in the table: its own stamp may be unreadable too. */
  lemma OnlyTheClockNow(c: Config, m: Memory, r: Reach, k: nat)
    requires DecisionsOk(c, m.history) && OriginsOk(c, m) && OriginLast(m) && FreshOk(c, m)
    requires r in m.approved && r in m.origin && m.origin[r] < k < |m.history|
    requires m.history[k].Decided? && m.history[k].reach == r && !m.history[k].live
    ensures m.history[k].at.NaN? || m.approved[r].NaN?
  {
    assert OriginOk(m, r);
    StillTheLast(m.history, r, m.origin[r], k);
    assert !Approves(c, m.history[..k], r, m.history[k].at);
  }
}
