/** One invariant over every reachable state. */
module Invariant {
  import opened Basics
  import opened Approval
  import opened Protocol
  import opened Locks
  import opened Records
  import opened Jobs
  import opened Timeline
  import opened Cache
  import opened Riders

  // ---- the request past the gate, if one is

  function ActiveId(s: State): nat {
    if s.m.gate.Taken? && s.m.gate.who.Request? then s.m.gate.who.id else 0
  }

  function ActivePc(s: State): Pc {
    if s.m.gate.Taken? && s.m.gate.who.Request? && s.m.gate.who.id in s.reqs then s.reqs[s.m.gate.who.id].pc else Arriving
  }

  ghost predicate RiderFacts(c: Config, m: Memory, id: nat, pc: Pc) {
    HoldersOk(m, id, pc) && UsesOk(c, m, id, pc) && (c.approve ==> PassedOk(c, m, id, pc))
  }

  /** Nothing signs a plain key out. */
  ghost predicate PlainOk(c: Config, m: Memory) {
    !c.endsAtLock ==> forall k | 0 <= k < |m.history| :: !m.history[k].Ended?
  }

  lemma NobodyActive(c: Config, m: Memory, id: nat, pc: Pc, id': nat, pc': Pc)
    requires RiderFacts(c, m, id, pc) && !Inside(pc) && !Inside(pc')
    ensures RiderFacts(c, m, id', pc')
  {
  }

  lemma RequestKeepsRiders(c: Config, m: Memory, id: nat, place: Scope, pc: Pc, ch: Choice)
    requires StepOk(c, m, id, place, pc, ch) && OriginsOk(c, m)
    requires RiderFacts(c, m, id, pc) && (!Hold(c) ==> m.held == map[])
    ensures var (m', pc') := RequestStep(c, m, id, place, pc, ch); RiderFacts(c, m', id, pc')
  {
    HoldersRequest(c, m, id, place, pc, ch);
    UsesRequest(c, m, id, place, pc, ch);
    if c.approve {
      PassedRequest(c, m, id, place, pc, ch);
    }
  }

  /** The watch only lets go of things. */
  lemma WatchLessens(c: Config, m: Memory, pc: WatchPc, ch: Choice)
    requires WatchEnabled(c, m, pc, ch)
    ensures Shrinks(m, WatchStep(c, m, pc, ch).0)
    ensures m.signOuts <= WatchStep(c, m, pc, ch).0.signOuts
  {
    if pc.WatchLooking? {
      LookShrinks(m, Watch, ch, WatchStep(c, m, pc, ch).0);
    }
  }

  lemma UsesLessened(c: Config, m: Memory, m': Memory, id: nat, place: Scope, pc: Pc)
    requires UsesOk(c, m, id, pc) && PcOk(c, m, id, place, pc) && Shrinks(m, m') && m.signOuts <= m'.signOuts
    ensures UsesOk(c, m', id, pc)
  {
    match pc
    case InEnclave(job, enclave) =>
      if enclave.Making? {
        UsesStable(c, m, m', id, job);
      }
    case SecondLook(job, made) =>
      if made {
        UsesStable(c, m, m', id, job);
      }
    case Admitting(job) => UsesStable(c, m, m', id, job);
    case _ =>
  }

  lemma PassedLessened(c: Config, m: Memory, m': Memory, id: nat, pc: Pc)
    requires PassedOk(c, m, id, pc) && Lessens(m, m')
    ensures PassedOk(c, m', id, pc)
  {
    forall id': nat, hi: int, hi': int | PassedBefore(m.history, hi, id') && hi <= hi'
      ensures PassedBefore(m'.history, hi', id')
    {
      PassedStable(m.history, m'.history, hi, hi', id');
    }
  }

  lemma RidersLessened(c: Config, m: Memory, m': Memory, id: nat, place: Scope, pc: Pc)
    requires RiderFacts(c, m, id, pc) && PcOk(c, m, id, place, pc)
    requires Shrinks(m, m') && m.signOuts <= m'.signOuts
    ensures RiderFacts(c, m', id, pc)
  {
    HoldersShrink(c, m, m', id, pc, pc);
    UsesLessened(c, m, m', id, place, pc);
    if c.approve {
      PassedLessened(c, m, m', id, pc);
    }
  }

  // ---- the history of uses

  lemma UsesOnRecordLater(c: Config, h: History, h': History)
    requires UsesOnRecord(c, h) && h <= h' && forall a | |h| <= a < |h'| :: !h'[a].Admitted?
    ensures UsesOnRecord(c, h')
  {
    forall a: nat | a < |h'| && h'[a].Admitted? ensures UseOk(c, h', a) {
      UseStable(c, h, h', a);
    }
  }

  lemma SilentLater(c: Config, h: History, h': History)
    requires RidersSilent(c, h) && h <= h' && forall k | |h| <= k < |h'| :: !h'[k].Asked?
    ensures RidersSilent(c, h')
  {
  }

  ghost predicate UseHistory(c: Config, h: History) {
    UsesOnRecord(c, h) && RidersSilent(c, h)
  }

  lemma SilentAsking(c: Config, m: Memory, id: nat, place: Scope, job: Job, ok: bool)
    requires RidersSilent(c, m.history) && PcOk(c, m, id, place, InEnclave(job, Asking))
    ensures RidersSilent(c, m.history + [Asked(id, job.reach, job.live, ok)])
  {
  }

  /** Admissions, replies and prompts are put on record by the request they name, where
      it stands for that. */
  ghost predicate OwnEvents(m: Memory, m': Memory, id: nat, pc: Pc, pc': Pc) {
    && |m.history| <= |m'.history| <= |m.history| + 1 && m.history <= m'.history
    && (forall k | |m.history| <= k < |m'.history| ::
          && (m'.history[k].Admitted? ==> m'.history[k].id == id && pc.Admitting? && Succeeds(pc'))
          && (m'.history[k].Replied? ==> m'.history[k].id == id && pc.Closing? && pc' == Done(pc.ok) && m'.history[k].ok == pc.ok)
          && (m'.history[k].Asked? ==> pc.InEnclave? && pc.enclave.Asking?))
    && (Succeeds(pc) ==> Succeeds(pc'))
    && !pc.Done?
  }

  predicate Succeeds(pc: Pc) {
    (pc.Closing? || pc.Done?) && pc.ok
  }

  lemma EnclaveEvents(c: Config, m: Memory, id: nat, job: Job, enclave: EnclavePc, ch: Choice)
    ensures var (m', pc') := EnclaveStep(c, m, id, job, enclave, ch);
      OwnEvents(m, m', id, InEnclave(job, enclave), pc')
  {
  }

  /** A step of a look puts at most one thing on record: the look, or a half of a sign-out. */
  lemma LookHistory(m: Memory, who: Who, ch: Choice, m': Memory)
    requires m' == if m.looking.Nobody? then BeginLook(m, who, ch)
                   else if m.looking.stage != Leaving then ContinueLook(m)
                   else m.(looking := Nobody)
    ensures m'.history == m.history
         || (|m'.history| == |m.history| + 1 && m'.history == m.history + [m'.history[|m.history|]]
             && (m'.history[|m.history|].Looked? || m'.history[|m.history|].Ended? || m'.history[|m.history|].Wiped?))
  {
  }

  lemma LookEvents(c: Config, m: Memory, id: nat, place: Scope, pc: Pc, ch: Choice)
    requires RequestEnabled(m, id, pc, ch) && Looks(pc)
    ensures var (m', pc') := RequestStep(c, m, id, place, pc, ch); OwnEvents(m, m', id, pc, pc')
  {
    LookHistory(m, Request(id), ch, RequestStep(c, m, id, place, pc, ch).0);
  }

  lemma RequestEvents(c: Config, m: Memory, id: nat, place: Scope, pc: Pc, ch: Choice)
    requires RequestEnabled(m, id, pc, ch)
    ensures var (m', pc') := RequestStep(c, m, id, place, pc, ch); OwnEvents(m, m', id, pc, pc')
  {
    match pc
    case InEnclave(job, enclave) => EnclaveEvents(c, m, id, job, enclave, ch);
    case FirstLook => LookEvents(c, m, id, place, pc, ch);
    case SecondLook(_, _) => LookEvents(c, m, id, place, pc, ch);
    case _ =>
  }

  lemma RequestKeepsUses(c: Config, m: Memory, id: nat, place: Scope, pc: Pc, ch: Choice)
    requires StepOk(c, m, id, place, pc, ch) && RiderFacts(c, m, id, pc) && UseHistory(c, m.history)
    ensures UseHistory(c, RequestStep(c, m, id, place, pc, ch).0.history)
  {
    var m' := RequestStep(c, m, id, place, pc, ch).0;
    if pc.Admitting? {
      UsesRecorded(c, m, id, place, pc, ch);
      SilentLater(c, m.history, m'.history);
    } else {
      RequestEvents(c, m, id, place, pc, ch);
      UsesOnRecordLater(c, m.history, m'.history);
      if pc.InEnclave? && pc.enclave.Asking? {
        SilentAsking(c, m, id, place, pc.job, ch.ok);
      } else {
        SilentLater(c, m.history, m'.history);
      }
    }
  }

  // ---- replies

  ghost predicate NoAdmissionOf(h: History, id: nat) {
    forall a | 0 <= a < |h| && h[a].Admitted? :: h[a].id != id
  }

  ghost predicate AdmittedBefore(h: History, hi: int, id: nat) {
    exists a :: 0 <= a < |h| && a < hi && h[a].Admitted? && h[a].id == id
  }

  /** A signature goes back exactly to the requests that were admitted. */
  ghost predicate RepliesOk(s: State) {
    && (forall id | id !in s.reqs || !Succeeds(s.reqs[id].pc) :: NoAdmissionOf(s.m.history, id))
    && (forall k | 0 <= k < |s.m.history| && s.m.history[k].Replied? ::
          && s.m.history[k].id in s.reqs && s.reqs[s.m.history[k].id].pc == Done(s.m.history[k].ok)
          && (s.m.history[k].ok ==> AdmittedBefore(s.m.history, k, s.m.history[k].id)))
  }

  lemma RepliesKept(s: State, s': State, id: nat)
    requires RepliesOk(s) && id in s.reqs && id in s'.reqs
    requires OwnEvents(s.m, s'.m, id, s.reqs[id].pc, s'.reqs[id].pc)
    requires s'.reqs.Keys == s.reqs.Keys && forall other | other in s.reqs && other != id :: s'.reqs[other] == s.reqs[other]
    requires s.reqs[id].pc.Closing? && s.reqs[id].pc.ok ==> AdmittedBefore(s.m.history, |s.m.history|, id)
    ensures RepliesOk(s')
  {
    var h, h' := s.m.history, s'.m.history;
    forall k | 0 <= k < |h'| && h'[k].Replied?
      ensures h'[k].id in s'.reqs && s'.reqs[h'[k].id].pc == Done(h'[k].ok)
      ensures h'[k].ok ==> AdmittedBefore(h', k, h'[k].id)
    {
      if h'[k].ok {
        var upTo := if k < |h| then k else |h|;
        assert AdmittedBefore(h, upTo, h'[k].id);
        var a :| 0 <= a < |h| && a < upTo && h[a].Admitted? && h[a].id == h'[k].id;
        assert h'[a] == h[a];
      }
    }
  }

  // ---- all of it

  ghost predicate TimelineOk(c: Config, m: Memory) {
    TimesOk(m) && ChainOk(m) && OpeningsOk(c, m) && FreshOk(c, m) && DecisionsOk(c, m.history)
  }

  ghost predicate Inv(c: Config, s: State) {
    && BooksOk(c, s)
    && TimelineOk(c, s.m)
    && CoveredOk(c, s.m, Loose(s))
    && PlainOk(c, s.m)
    && RiderFacts(c, s.m, ActiveId(s), ActivePc(s))
    && UseHistory(c, s.m.history)
    && RepliesOk(s)
  }

  lemma InvHolds(c: Config, s: State)
    requires Init(s)
    ensures Inv(c, s)
  {
  }

  lemma TimelineKept(c: Config, s: State, step: Step)
    requires TimelineOk(c, s.m) && Enabled(c, s, step)
    ensures TimelineOk(c, Apply(c, s, step).m)
  {
    var m' := Apply(c, s, step).m;
    StepEffect(c, s, step);
    TimesKept(c, s.m, m');
    ChainKept(c, s.m, m');
    OpeningsKept(c, s.m, m');
    FreshKept(c, s.m, m');
    DecisionsKept(c, s.m, m');
  }

  /** A request that can move is the one past the gate, or nobody is. */
  lemma MoverIsActive(c: Config, s: State, id: nat, ch: Choice)
    requires BooksOk(c, s) && Enabled(c, s, Go(Request(id), ch))
    ensures var req := s.reqs[id];
      && StepOk(c, s.m, id, req.place, req.pc, ch)
      && (if Inside(req.pc) then ActiveId(s) == id && ActivePc(s) == req.pc else !Inside(ActivePc(s)))
      && Loose(s) == LooseOf(req.pc)
  {
  }

  lemma RidersKeptByRequest(c: Config, s: State, id: nat, ch: Choice)
    requires Inv(c, s) && Enabled(c, s, Go(Request(id), ch))
    ensures var s' := Apply(c, s, Go(Request(id), ch));
      RiderFacts(c, s'.m, ActiveId(s'), ActivePc(s')) && UseHistory(c, s'.m.history)
  {
    var s' := Apply(c, s, Go(Request(id), ch));
    var req := s.reqs[id];
    MoverIsActive(c, s, id, ch);
    if !Inside(req.pc) {
      NobodyActive(c, s.m, ActiveId(s), ActivePc(s), id, req.pc);
    }
    RequestKeepsRiders(c, s.m, id, req.place, req.pc, ch);
    RequestKeepsUses(c, s.m, id, req.place, req.pc, ch);
    RequestMoves(c, s.m, id, req.place, req.pc, ch);
    if !Inside(s'.reqs[id].pc) {
      NobodyActive(c, s'.m, id, s'.reqs[id].pc, ActiveId(s'), ActivePc(s'));
    }
  }

  lemma RepliesKeptByRequest(c: Config, s: State, id: nat, ch: Choice)
    requires Inv(c, s) && Enabled(c, s, Go(Request(id), ch))
    ensures RepliesOk(Apply(c, s, Go(Request(id), ch)))
  {
    var req := s.reqs[id];
    RequestEvents(c, s.m, id, req.place, req.pc, ch);
    if req.pc.Closing? && req.pc.ok {
      assert PcOk(c, s.m, id, req.place, req.pc);
      assert AdmittedBefore(s.m.history, |s.m.history|, id);
    }
    RepliesKept(s, Apply(c, s, Go(Request(id), ch)), id);
  }

  lemma RidersKeptByWatch(c: Config, s: State, ch: Choice)
    requires Inv(c, s) && Enabled(c, s, Go(Watch, ch))
    ensures var s' := Apply(c, s, Go(Watch, ch)); RiderFacts(c, s'.m, ActiveId(s'), ActivePc(s'))
  {
    var s' := Apply(c, s, Go(Watch, ch));
    var id, pc := ActiveId(s), ActivePc(s);
    WatchLessens(c, s.m, s.watch, ch);
    var place := if id in s.reqs then s.reqs[id].place else Scope(None, None, None);
    assert PcOk(c, s.m, id, place, pc);
    RidersLessened(c, s.m, s'.m, id, place, pc);
    if s'.m.gate != s.m.gate {
      NobodyActive(c, s'.m, id, pc, ActiveId(s'), ActivePc(s'));
    }
  }

  /** The watch admits, asks and answers nobody. */
  lemma WatchIsMute(c: Config, m: Memory, pc: WatchPc, ch: Choice)
    requires WatchEnabled(c, m, pc, ch)
    ensures var h' := WatchStep(c, m, pc, ch).0.history;
      && m.history <= h'
      && forall k | |m.history| <= k < |h'| :: !h'[k].Admitted? && !h'[k].Asked? && !h'[k].Replied?
  {
    if pc.WatchLooking? {
      LookHistory(m, Watch, ch, WatchStep(c, m, pc, ch).0);
    }
  }

  lemma HistoryKeptByWatch(c: Config, s: State, ch: Choice)
    requires Inv(c, s) && Enabled(c, s, Go(Watch, ch))
    ensures var s' := Apply(c, s, Go(Watch, ch)); UseHistory(c, s'.m.history) && RepliesOk(s')
  {
    var s' := Apply(c, s, Go(Watch, ch));
    WatchIsMute(c, s.m, s.watch, ch);
    UsesOnRecordLater(c, s.m.history, s'.m.history);
    SilentLater(c, s.m.history, s'.m.history);
    forall k | 0 <= k < |s'.m.history| && s'.m.history[k].Replied? && s'.m.history[k].ok
      ensures AdmittedBefore(s'.m.history, k, s'.m.history[k].id)
    {
      assert AdmittedBefore(s.m.history, k, s.m.history[k].id);
      var a :| 0 <= a < |s.m.history| && a < k && s.m.history[a].Admitted? && s.m.history[a].id == s.m.history[k].id;
      assert s'.m.history[a] == s.m.history[a];
    }
  }

  lemma PlainKept(c: Config, s: State, step: Step)
    requires LocksOk(c, s) && PlainOk(c, s.m) && Enabled(c, s, step)
    ensures PlainOk(c, Apply(c, s, step).m)
  {
    if !c.endsAtLock && step.Go? && step.who.Request? {
      var id := step.who.id;
      PlainHistory(c, s.m, id, s.reqs[id].place, s.reqs[id].pc, step.ch);
    }
  }

  lemma PlainHistory(c: Config, m: Memory, id: nat, place: Scope, pc: Pc, ch: Choice)
    requires RequestEnabled(m, id, pc, ch) && !Looks(pc) && forall k | 0 <= k < |m.history| :: !m.history[k].Ended?
    ensures var h' := RequestStep(c, m, id, place, pc, ch).0.history; forall k | 0 <= k < |h'| :: !h'[k].Ended?
  {
    if pc.InEnclave? {
      PlainEnclaveHistory(c, m, id, pc.job, pc.enclave, ch);
    }
  }

  lemma PlainEnclaveHistory(c: Config, m: Memory, id: nat, job: Job, enclave: EnclavePc, ch: Choice)
    requires forall k | 0 <= k < |m.history| :: !m.history[k].Ended?
    ensures var h' := EnclaveStep(c, m, id, job, enclave, ch).0.history; forall k | 0 <= k < |h'| :: !h'[k].Ended?
  {
  }

  lemma InvKept(c: Config, s: State, step: Step)
    requires Inv(c, s) && Enabled(c, s, step)
    ensures Inv(c, Apply(c, s, step))
  {
    BooksKept(c, s, step);
    TimelineKept(c, s, step);
    CoveredKept(c, s, step);
    PlainKept(c, s, step);
    match step
    case Go(Request(id), ch) =>
      RidersKeptByRequest(c, s, id, ch);
      RepliesKeptByRequest(c, s, id, ch);
    case Go(Watch, ch) =>
      RidersKeptByWatch(c, s, ch);
      HistoryKeptByWatch(c, s, ch);
    case Arrive(id, place) => ArrivalKeeps(c, s, id, place);
    case Tick(elapsed) => TickKeeps(c, s, elapsed);
  }

  lemma ArrivalKeeps(c: Config, s: State, id: nat, place: Scope)
    requires Inv(c, s) && Enabled(c, s, Arrive(id, place))
    ensures var s' := Apply(c, s, Arrive(id, place));
      RiderFacts(c, s'.m, ActiveId(s'), ActivePc(s')) && UseHistory(c, s'.m.history) && RepliesOk(s')
  {
  }

  lemma TickKeeps(c: Config, s: State, elapsed: real)
    requires RiderFacts(c, s.m, ActiveId(s), ActivePc(s)) && UseHistory(c, s.m.history) && RepliesOk(s)
    requires Enabled(c, s, Tick(elapsed))
    ensures var s' := Apply(c, s, Tick(elapsed));
      RiderFacts(c, s'.m, ActiveId(s'), ActivePc(s')) && UseHistory(c, s'.m.history) && RepliesOk(s')
  {
    var s' := Apply(c, s, Tick(elapsed));
    RidersTick(c, s.m, ActiveId(s), ActivePc(s), s.m.now + elapsed);
    assert ActiveId(s') == ActiveId(s) && ActivePc(s') == ActivePc(s);
    RepliesTick(s, s');
  }

  lemma RepliesTick(s: State, s': State)
    requires RepliesOk(s) && s'.reqs == s.reqs && s'.m.history == s.m.history
    ensures RepliesOk(s')
  {
  }

  /** Nothing said of the riders depends on the time it is. */
  lemma RidersTick(c: Config, m: Memory, id: nat, pc: Pc, now: real)
    requires RiderFacts(c, m, id, pc)
    ensures RiderFacts(c, m.(now := now), id, pc)
  {
    var m' := m.(now := now);
    HoldersShrink(c, m, m', id, pc, pc);
    if c.approve {
      PassedLessened(c, m, m', id, pc);
    }
  }

  lemma {:induction false} InvAlong(c: Config, states: seq<State>, k: nat)
    requires Run(c, states) && k < |states|
    ensures Inv(c, states[k])
  {
    if k == 0 {
      InvHolds(c, states[0]);
    } else {
      InvAlong(c, states, k - 1);
      assert Next(c, states[k - 1], states[k]);
      var step :| Enabled(c, states[k - 1], step) && states[k] == Apply(c, states[k - 1], step);
      InvKept(c, states[k - 1], step);
    }
  }

  lemma ReachableInv(c: Config, s: State)
    requires Reachable(c, s)
    ensures Inv(c, s)
  {
    var states :| Run(c, states) && states[|states| - 1] == s;
    InvAlong(c, states, |states| - 1);
  }
}
