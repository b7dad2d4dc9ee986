/** Who holds what. Mutual exclusion under `sign_gate` and `looked`, the order in which
    locks are taken, and the absence of deadlock. */
module Locks {
  import opened Approval
  import opened Protocol

  predicate Inside(pc: Pc) {
    !pc.Arriving? && !pc.Done?
  }

  predicate Looks(pc: Pc) {
    pc.FirstLook? || pc.SecondLook?
  }

  /** The thread `who` is at a point of its program where it may hold `looked`. */
  predicate InLook(s: State, who: Who) {
    match who
    case Watch => s.watch.WatchLooking?
    case Request(id) => id in s.reqs && Looks(s.reqs[id].pc)
  }

  ghost predicate LocksOk(c: Config, s: State) {
    && (forall id | id in s.reqs :: Inside(s.reqs[id].pc) <==> s.m.gate == Taken(Request(id)))
    && (s.m.gate.Taken? && s.m.gate.who.Request? ==> s.m.gate.who.id in s.reqs)
    && (s.m.gate == Taken(Watch) <==> s.watch.Expiring? || s.watch.WatchReleasing?)
    && (s.m.looking.Looker? ==> InLook(s, s.m.looking.who))
    && (!c.endsAtLock ==> s.watch.Sleeping? && s.m.looking.Nobody?)
    && (!c.endsAtLock ==> forall id | id in s.reqs :: !Looks(s.reqs[id].pc))
  }

  // ---- one request's step

  /** What a request's step does to the two locks it holds across steps. */
  ghost predicate Moved(c: Config, m: Memory, id: nat, pc: Pc, m': Memory, pc': Pc) {
    && (pc.Arriving? ==> m.gate.Free? && m'.gate == Taken(Request(id)) && Inside(pc'))
    && (pc.Closing? ==> m'.gate.Free? && pc'.Done?)
    && (Inside(pc) && !pc.Closing? ==> m'.gate == m.gate && Inside(pc'))
    && (m'.looking.Looker? && m'.looking.who == Request(id) ==> Looks(pc'))
    && (m'.looking.Looker? && m'.looking.who != Request(id) ==> m'.looking == m.looking)
    && (m'.looking.Nobody? && m.looking.Looker? ==> m.looking.who == Request(id))
    && (!c.endsAtLock && !Looks(pc) ==> m'.looking == m.looking && !Looks(pc'))
  }

  lemma EnclaveMoves(c: Config, m: Memory, id: nat, job: Job, enclave: EnclavePc, ch: Choice)
    requires m.looking.Looker? ==> m.looking.who != Request(id)
    ensures var (m', pc') := EnclaveStep(c, m, id, job, enclave, ch); Moved(c, m, id, InEnclave(job, enclave), m', pc')
  {
  }

  lemma RequestMoves(c: Config, m: Memory, id: nat, place: Scope, pc: Pc, ch: Choice)
    requires RequestEnabled(m, id, pc, ch)
    requires m.looking.Looker? && m.looking.who == Request(id) ==> Looks(pc)
    ensures var (m', pc') := RequestStep(c, m, id, place, pc, ch); Moved(c, m, id, pc, m', pc')
  {
    if pc.InEnclave? {
      EnclaveMoves(c, m, id, pc.job, pc.enclave, ch);
    }
  }

  lemma LocksKeptByRequest(c: Config, s: State, id: nat, ch: Choice)
    requires LocksOk(c, s) && Enabled(c, s, Go(Request(id), ch))
    ensures LocksOk(c, Apply(c, s, Go(Request(id), ch)))
  {
    RequestMoves(c, s.m, id, s.reqs[id].place, s.reqs[id].pc, ch);
  }

  lemma LocksKeptByWatch(c: Config, s: State, ch: Choice)
    requires LocksOk(c, s) && Enabled(c, s, Go(Watch, ch))
    ensures LocksOk(c, Apply(c, s, Go(Watch, ch)))
  {
  }

  lemma LocksKept(c: Config, s: State, step: Step)
    requires LocksOk(c, s) && Enabled(c, s, step)
    ensures LocksOk(c, Apply(c, s, step))
  {
    match step
    case Go(Request(id), ch) => LocksKeptByRequest(c, s, id, ch);
    case Go(Watch, ch) => LocksKeptByWatch(c, s, ch);
    case Arrive(id, place) =>
    case Tick(elapsed) =>
  }

  // ---- what follows

  /** At most one request is past the gate, so at most one is ever inside the enclave. */
  lemma OneInside(c: Config, s: State, id: nat, other: nat)
    requires LocksOk(c, s)
    requires id in s.reqs && Inside(s.reqs[id].pc) && other in s.reqs && Inside(s.reqs[other].pc)
    ensures id == other && !s.watch.Expiring? && !s.watch.WatchReleasing?
  {
    assert s.m.gate == Taken(Request(id)) && s.m.gate == Taken(Request(other));
  }

  predicate HoldsGate(s: State, who: Who) {
    s.m.gate == Taken(who)
  }

  predicate HoldsLooked(s: State, who: Who) {
    s.m.looking.Looker? && s.m.looking.who == who
  }

  /** `sign_gate` comes before `looked`: nobody takes the gate with `looked` in hand. */
  lemma GateBeforeLooked(c: Config, s: State, who: Who, ch: Choice)
    requires LocksOk(c, s) && Enabled(c, s, Go(who, ch))
    requires !HoldsGate(s, who) && HoldsGate(Apply(c, s, Go(who, ch)), who)
    ensures !HoldsLooked(s, who) && !HoldsLooked(Apply(c, s, Go(who, ch)), who)
  {
    if who.Request? {
      RequestMoves(c, s.m, who.id, s.reqs[who.id].place, s.reqs[who.id].pc, ch);
    }
  }

  predicate Unfinished(s: State, id: nat) {
    id in s.reqs && !s.reqs[id].pc.Done?
  }

  ghost predicate CanRun(c: Config, s: State, who: Who) {
    exists ch :: Enabled(c, s, Go(who, ch))
  }

  lemma Runs(c: Config, s: State, who: Who, ch: Choice)
    requires Enabled(c, s, Go(who, ch))
    ensures CanRun(c, s, who)
  {
  }

  /** The holder of `looked` never waits. */
  lemma LookerRuns(c: Config, s: State)
    requires LocksOk(c, s) && s.m.looking.Looker?
    ensures CanRun(c, s, s.m.looking.who)
  {
    Runs(c, s, s.m.looking.who, Choice(true, Unlocked, true, Everywhere));
  }

  /** The holder of `sign_gate` waits for nothing but `looked`. */
  lemma GateHolderRuns(c: Config, s: State)
    requires LocksOk(c, s) && s.m.gate.Taken?
    ensures CanRun(c, s, s.m.gate.who) || s.m.looking.Looker?
  {
    var who := s.m.gate.who;
    if s.m.looking.Nobody? {
      var todo := match who
        case Watch => if s.watch.WatchReleasing? then s.watch.todo else {}
        case Request(id) => if s.reqs[id].pc.Releasing? then s.reqs[id].pc.todo else {};
      var pick :| todo != {} ==> pick in todo;
      Runs(c, s, who, Choice(true, Unlocked, true, pick));
    }
  }

  /** A request, or the holder of a lock: the watch going round on its own is neither. */
  predicate Counts(s: State, who: Who) {
    HoldsLooked(s, who) || HoldsGate(s, who) || (who.Request? && Unfinished(s, who.id))
  }

  /** While any request is unfinished, some thread that is not waiting for a lock can
      move. */
  lemma NoDeadlock(c: Config, s: State, id: nat)
    requires LocksOk(c, s) && Unfinished(s, id)
    ensures exists who :: CanRun(c, s, who) && Counts(s, who)
  {
    if s.m.looking.Looker? {
      LookerRuns(c, s);
    } else if s.m.gate.Taken? {
      GateHolderRuns(c, s);
    } else {
      Runs(c, s, Request(id), Choice(true, Unlocked, true, Everywhere));
    }
  }

  // ---- every request is finite

  function StageOf(pc: Pc): nat {
    match pc
    case Arriving => 19
    case FirstLook => 18
    case Loading(_) => 17
    case Deciding(_, _, _) => 16
    case Releasing(_, _) => 15
    case Dropping(_) => 14
    case InEnclave(_, Reading) => 13
    case InEnclave(_, Taking) => 12
    case InEnclave(_, Asking) => 11
    case InEnclave(_, Agreeing) => 10
    case InEnclave(_, Keeping) => 9
    case InEnclave(_, Unholding) => 8
    case InEnclave(_, Making) => 7
    case SecondLook(_, _) => 6
    case Admitting(_) => 5
    case Failing(_) => 4
    case Forgetting(_, _) => 3
    case Closing(_, _, _) => 2
    case Done(_) => 0
  }

  /** Steps left within one stage: no other thread's step changes it. */
  function Within(m: Memory, id: nat, pc: Pc): nat {
    match pc
    case Releasing(_, todo) => |todo|
    case FirstLook => LookLeft(m, id)
    case SecondLook(_, _) => LookLeft(m, id)
    case _ => 0
  }

  function LookLeft(m: Memory, id: nat): nat {
    if m.looking.Nobody? || m.looking.who != Request(id) then 3
    else match m.looking.stage
      case Ending => 2
      case Wiping => 1
      case Leaving => 0
  }

  ghost predicate Closer(m: Memory, id: nat, pc: Pc, m': Memory, pc': Pc) {
    || StageOf(pc') < StageOf(pc)
    || (StageOf(pc') == StageOf(pc) && Within(m', id, pc') < Within(m, id, pc))
  }

  /** Each step of its own brings a request closer to its reply: none can repeat forever. */
  lemma EveryRequestIsFinite(c: Config, m: Memory, id: nat, place: Scope, pc: Pc, ch: Choice)
    requires RequestEnabled(m, id, pc, ch)
    ensures var (m', pc') := RequestStep(c, m, id, place, pc, ch); Closer(m, id, pc, m', pc')
  {
    match pc
    case InEnclave(job, enclave) => EnclaveIsFinite(c, m, id, job, enclave, ch);
    case FirstLook => LookIsFinite(c, m, id, place, pc, ch);
    case SecondLook(_, _) => LookIsFinite(c, m, id, place, pc, ch);
    case Releasing(_, _) =>
    case _ =>
  }

  lemma LookIsFinite(c: Config, m: Memory, id: nat, place: Scope, pc: Pc, ch: Choice)
    requires RequestEnabled(m, id, pc, ch) && Looks(pc)
    ensures var (m', pc') := RequestStep(c, m, id, place, pc, ch); Closer(m, id, pc, m', pc')
  {
  }

  lemma EnclaveIsFinite(c: Config, m: Memory, id: nat, job: Job, enclave: EnclavePc, ch: Choice)
    ensures StageOf(EnclaveStep(c, m, id, job, enclave, ch).1) < StageOf(InEnclave(job, enclave))
  {
  }

  /** Nothing another thread does moves a request or changes how far it has to go. */
  lemma OthersDoNotDelay(c: Config, s: State, id: nat, step: Step)
    requires LocksOk(c, s) && Enabled(c, s, step) && id in s.reqs
    requires !(step.Go? && step.who == Request(id))
    ensures var s' := Apply(c, s, step);
      id in s'.reqs && s'.reqs[id] == s.reqs[id] && Within(s'.m, id, s.reqs[id].pc) == Within(s.m, id, s.reqs[id].pc)
  {
    match step
    case Go(Request(other), ch) =>
      RequestMoves(c, s.m, other, s.reqs[other].place, s.reqs[other].pc, ch);
    case _ =>
  }
}
