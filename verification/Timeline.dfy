/** The clock and the table of approvals against the history. Approvals are dropped at
    whatever moments the requests and the watch happen to run; what is decided is what the
    whole, never pruned history says. */
module Timeline {
  import opened Seconds
  import opened Basics
  import opened Approval
  import opened Protocol
  import opened Records

  /** What a clock read at this moment may return. */
  predicate Reads(m: Memory, t: Float) {
    t.Val? ==> t.v == m.now
  }

  /** What each kind of event does to the approvals and to the last look. */
  ghost predicate EventEffect(c: Config, m: Memory, e: Event, m': Memory) {
    match e
    case Looked(_, before, at, saw) =>
      Reads(m, at) && before == m.looked.at && m'.looked == Look(at, saw) && m'.approved == m.approved
    case Ended =>
      m'.looked == m.looked && m'.approved == map[]
    case Decided(_, reach, at, live) =>
      && Reads(m, at) && m'.looked == m.looked
      && live == Covers(m.approved, reach, Window(c), at)
      && m'.approved == Pruned(m.approved, Window(c), at)
    case Admitted(_, at, job) =>
      && Reads(m, at) && m'.looked == m.looked
      && m'.approved == Opened(m.approved, job.reach, Window(c), job.live, at)
    case _ =>
      m'.looked == m.looked && m'.approved == m.approved
  }

  ghost predicate Effect(c: Config, m: Memory, m': Memory) {
    && m.now <= m'.now
    && ((m'.history == m.history && m'.looked == m.looked
          && (m'.approved == m.approved
              || exists t :: Reads(m, t) && m'.approved == Pruned(m.approved, Window(c), t)))
        || (exists e :: m'.history == m.history + [e] && EventEffect(c, m, e, m')))
  }

  lemma HasEffect(c: Config, m: Memory, e: Event, m': Memory)
    requires m.now <= m'.now && m'.history == m.history + [e] && EventEffect(c, m, e, m')
    ensures Effect(c, m, m')
  {
  }

  lemma LookEffect(c: Config, m: Memory, who: Who, ch: Choice, m': Memory)
    requires m' == if m.looking.Nobody? then BeginLook(m, who, ch)
                   else if m.looking.stage != Leaving then ContinueLook(m)
                   else m.(looking := Nobody)
    ensures Effect(c, m, m')
  {
    if m.looking.Nobody? {
      HasEffect(c, m, Looked(who, m.looked.at, Clock(m, ch), ch.screen), m');
    } else if m.looking.stage == Ending {
      HasEffect(c, m, Ended, m');
    } else if m.looking.stage == Wiping {
      HasEffect(c, m, Wiped, m');
    }
  }

  lemma EnclaveEffect(c: Config, m: Memory, id: nat, job: Job, enclave: EnclavePc, ch: Choice)
    ensures Effect(c, m, EnclaveStep(c, m, id, job, enclave, ch).0)
  {
    var m' := EnclaveStep(c, m, id, job, enclave, ch).0;
    if enclave.Asking? {
      HasEffect(c, m, Asked(id, job.reach, job.live, ch.ok), m');
    } else if enclave.Keeping? {
      HasEffect(c, m, Kept(id, job.reach), m');
    } else if enclave.Taking? && m'.history != m.history {
      HasEffect(c, m, Built(id, job.reach, job.live), m');
    } else if enclave.Making? && ch.ok {
      HasEffect(c, m, Made(id, job.using), m');
    }
  }

  lemma RequestEffect(c: Config, m: Memory, id: nat, place: Scope, pc: Pc, ch: Choice)
    requires RequestEnabled(m, id, pc, ch)
    ensures Effect(c, m, RequestStep(c, m, id, place, pc, ch).0)
  {
    var (m', pc') := RequestStep(c, m, id, place, pc, ch);
    match pc
    case FirstLook => LookEffect(c, m, Request(id), ch, m');
    case SecondLook(_, _) => LookEffect(c, m, Request(id), ch, m');
    case Loading(_) => HasEffect(c, m, Loaded(id), m');
    case Deciding(_, _, _) => HasEffect(c, m, Decided(id, pc'.job.reach, Clock(m, ch), pc'.job.live), m');
    case InEnclave(job, enclave) => EnclaveEffect(c, m, id, job, enclave, ch);
    case Admitting(job) =>
      HasEffect(c, m, if m.signOuts != job.counted then Refused(id, job) else Admitted(id, Clock(m, ch), job), m');
    case Failing(job) => HasEffect(c, m, Failed(id, job), m');
    case Closing(_, _, ok) => HasEffect(c, m, Replied(id, ok), m');
    case _ =>
  }

  lemma WatchEffect(c: Config, m: Memory, pc: WatchPc, ch: Choice)
    requires WatchEnabled(c, m, pc, ch)
    ensures Effect(c, m, WatchStep(c, m, pc, ch).0)
  {
    var m' := WatchStep(c, m, pc, ch).0;
    match pc
    case WatchLooking => LookEffect(c, m, Watch, ch, m');
    case Expiring => assert Reads(m, Clock(m, ch)) && m'.approved == Pruned(m.approved, Window(c), Clock(m, ch));
    case _ =>
  }

  lemma StepEffect(c: Config, s: State, step: Step)
    requires Enabled(c, s, step)
    ensures Effect(c, s.m, Apply(c, s, step).m)
  {
    match step
    case Go(Request(id), ch) => RequestEffect(c, s.m, id, s.reqs[id].place, s.reqs[id].pc, ch);
    case Go(Watch, ch) => WatchEffect(c, s.m, s.watch, ch);
    case _ =>
  }

  // ---- the clock

  function Stamp(e: Event): Float {
    match e
    case Looked(_, _, at, _) => at
    case Decided(_, _, at, _) => at
    case Admitted(_, at, _) => at
    case _ => NaN
  }

  ghost predicate Ordered(h: History) {
    forall i, j | 0 <= i <= j < |h| && Stamp(h[i]).Val? && Stamp(h[j]).Val? :: Stamp(h[i]).v <= Stamp(h[j]).v
  }

  ghost predicate TimesOk(m: Memory) {
    && Ordered(m.history)
    && (forall i | 0 <= i < |m.history| && Stamp(m.history[i]).Val? :: Stamp(m.history[i]).v <= m.now)
  }

  lemma TimesKept(c: Config, m: Memory, m': Memory)
    requires TimesOk(m) && Effect(c, m, m')
    ensures TimesOk(m')
  {
  }

  // ---- looks follow one another

  ghost predicate NoLook(h: History, lo: int, hi: int) {
    forall k | 0 <= k < |h| && lo < k < hi :: !h[k].Looked?
  }

  /** Each look measures the gap from the look before it. */
  ghost predicate Chained(h: History) {
    forall i, j | 0 <= i < j < |h| && h[i].Looked? && h[j].Looked? && NoLook(h, i, j) :: h[j].before == h[i].at
  }

  ghost predicate ChainOk(m: Memory) {
    && Chained(m.history)
    && (forall i | 0 <= i < |m.history| && m.history[i].Looked? && NoLook(m.history, i, |m.history|) ::
          m.looked.at == m.history[i].at)
  }

  lemma ChainKept(c: Config, m: Memory, m': Memory)
    requires ChainOk(m) && Effect(c, m, m')
    ensures ChainOk(m')
  {
    if m'.history != m.history {
      assert m'.history == m.history + [m'.history[|m.history|]];
      forall i, j | 0 <= i < j < |m'.history| && m'.history[i].Looked? && m'.history[j].Looked? && NoLook(m'.history, i, j)
        ensures m'.history[j].before == m'.history[i].at
      {
        assert forall k | i < k < j :: m'.history[k] == m.history[k];
        assert NoLook(m.history, i, j);
      }
      forall i | 0 <= i < |m'.history| && m'.history[i].Looked? && NoLook(m'.history, i, |m'.history|)
        ensures m'.looked.at == m'.history[i].at
      {
        if i < |m.history| {
          assert forall k | i < k < |m.history| :: m'.history[k] == m.history[k];
          assert NoLook(m.history, i, |m.history|);
        }
      }
    }
  }

  // ---- the last opening

  /** When `reach` was last opened after the last sign-out, by the whole history. */
  function LastOpening(h: History, reach: Reach): Option<Float> {
    if h == [] then None
    else
      var e := h[|h| - 1];
      if e.Ended? then None
      else if Opens(e, reach) then Some(e.at)
      else LastOpening(h[..|h| - 1], reach)
  }

  lemma LastOpeningStep(h: History, e: Event, reach: Reach)
    ensures LastOpening(h + [e], reach)
         == if e.Ended? then None else if Opens(e, reach) then Some(e.at) else LastOpening(h, reach)
  {
    assert (h + [e])[..|h|] == h;
  }

  /** An approval in the table is the last opening; one that is not has run out for good. */
  ghost predicate OpeningOk(c: Config, m: Memory, r: Reach) {
    var last := LastOpening(m.history, r);
    && (r in m.approved ==> last == Some(m.approved[r]))
    && (r !in m.approved && last.Some? ==> RunOut(last.value, Window(c), Val(m.now)))
  }

  ghost predicate OpeningsOk(c: Config, m: Memory) {
    if Hold(c) then forall r :: OpeningOk(c, m, r) else m.approved == map[]
  }

  lemma OpeningKept(c: Config, m: Memory, m': Memory, r: Reach)
    requires Hold(c) && OpeningOk(c, m, r) && Effect(c, m, m')
    ensures OpeningOk(c, m', r)
  {
    if m'.history != m.history {
      var e := m'.history[|m.history|];
      assert m'.history == m.history + [e];
      LastOpeningStep(m.history, e, r);
    }
  }

  lemma OpeningsKept(c: Config, m: Memory, m': Memory)
    requires OpeningsOk(c, m) && Effect(c, m, m')
    ensures OpeningsOk(c, m')
  {
    if Hold(c) {
      forall r ensures OpeningOk(c, m', r) {
        OpeningKept(c, m, m', r);
      }
    } else if m'.history != m.history {
      assert m'.history == m.history + [m'.history[|m.history|]];
    }
  }

  /** What is in the table, no decision so far found run out. */
  ghost predicate FreshOk(c: Config, m: Memory) {
    Hold(c) ==> forall r, k | r in m.approved && 0 <= k < |m.history| && m.history[k].Decided? ::
      !RunOut(m.approved[r], Window(c), m.history[k].at)
  }

  lemma FreshKept(c: Config, m: Memory, m': Memory)
    requires FreshOk(c, m) && TimesOk(m) && Effect(c, m, m')
    ensures FreshOk(c, m')
  {
    if Hold(c) {
      forall r, k | r in m'.approved && 0 <= k < |m'.history| && m'.history[k].Decided?
        ensures !RunOut(m'.approved[r], Window(c), m'.history[k].at)
      {
        if k < |m.history| {
          assert m'.history[k] == m.history[k] && Stamp(m.history[k]) == m.history[k].at;
        }
      }
    }
  }

  // ---- what is decided

  /** The whole history says yes: an opening after the last sign-out, less than one
      window old. */
  predicate Approves(c: Config, h: History, reach: Reach, now: Float) {
    Hold(c) && var last := LastOpening(h, reach); last.Some? && Lt(Sub(now, last.value), Window(c))
  }

  lemma TableAgrees(c: Config, m: Memory, reach: Reach, now: Float)
    requires OpeningsOk(c, m) && Reads(m, now)
    ensures Covers(m.approved, reach, Window(c), now) <==> Approves(c, m.history, reach, now)
  {
    if Hold(c) {
      assert OpeningOk(c, m, reach);
    }
  }

  ghost predicate DecisionsOk(c: Config, h: History) {
    forall d | 0 <= d < |h| && h[d].Decided? :: h[d].live <==> Approves(c, h[..d], h[d].reach, h[d].at)
  }

  lemma DecisionsKept(c: Config, m: Memory, m': Memory)
    requires DecisionsOk(c, m.history) && OpeningsOk(c, m) && Effect(c, m, m')
    ensures DecisionsOk(c, m'.history)
  {
    if m'.history != m.history {
      var e := m'.history[|m.history|];
      assert m'.history == m.history + [e];
      forall d | 0 <= d < |m'.history| && m'.history[d].Decided?
        ensures m'.history[d].live <==> Approves(c, m'.history[..d], m'.history[d].reach, m'.history[d].at)
      {
        assert m'.history[..d] == m.history[..d];
        assert m.history[..|m.history|] == m.history;
        if d == |m.history| {
          TableAgrees(c, m, e.reach, e.at);
        }
      }
    }
  }
}
