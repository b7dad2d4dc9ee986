/** Whose Touch ID a signature rests on. */
module Riders {
  import opened Seconds
  import opened Approval
  import opened Protocol
  import opened Locks
  import opened Records

  // ---- a request that rides nothing answers for what it puts in the cache

  /** The request past the gate has let go of `r` and is getting it approved afresh. */
  predicate Renews(pc: Pc, r: Reach) {
    (pc.InEnclave? || pc.SecondLook? || pc.Admitting? || pc.Failing? || pc.Forgetting?)
    && !pc.job.live && pc.job.reach == r
  }

  ghost predicate OpenedBy(m: Memory, r: Reach, id: nat) {
    r in m.origin && m.origin[r] < |m.history| && m.history[m.origin[r]].Admitted? && m.history[m.origin[r]].id == id
  }

  /** The signature is, or will be, made with what the opening's own request put there. */
  ghost predicate UsesOpening(c: Config, m: Memory, id: nat, job: Job) {
    if !job.live then job.using == id
    else c.endsAtLock && m.signOuts == job.counted ==>
      job.since < |m.history| && m.history[job.since].Admitted? && m.history[job.since].id == job.using
  }

  ghost predicate HoldersOk(m: Memory, id: nat, pc: Pc) {
    && (forall r | r in m.approved && r in m.secrets && !Renews(pc, r) :: OpenedBy(m, r, m.secrets[r]))
    && (forall r | r in m.secrets && Renews(pc, r) :: m.secrets[r] == id)
    && (forall r | r in m.held && Renews(pc, r) :: m.held[r] == id)
  }

  ghost predicate UsesOk(c: Config, m: Memory, id: nat, pc: Pc) {
    match pc
    case Releasing(job, _) => job.using == id
    case Dropping(job) => job.using == id
    case InEnclave(job, enclave) => if enclave.Making? then UsesOpening(c, m, id, job) else job.using == id
    case SecondLook(job, made) => made ==> UsesOpening(c, m, id, job)
    case Admitting(job) => UsesOpening(c, m, id, job)
    case _ => true
  }

  // ---- who put it there

  /** Nothing new is held, and nothing held changes hands. */
  ghost predicate Lessens(m: Memory, m': Memory) {
    && m.history <= m'.history
    && (forall r | r in m'.secrets :: r in m.secrets && m'.secrets[r] == m.secrets[r])
    && (forall r | r in m'.held :: r in m.held && m'.held[r] == m.held[r])
  }

  /** Nothing new is approved either. */
  ghost predicate Shrinks(m: Memory, m': Memory) {
    && Lessens(m, m')
    && (forall r | r in m'.approved :: r in m.approved)
    && (forall r | r in m'.approved && r in m.origin :: r in m'.origin && m'.origin[r] == m.origin[r])
  }

  lemma HoldersShrink(c: Config, m: Memory, m': Memory, id: nat, pc: Pc, pc': Pc)
    requires HoldersOk(m, id, pc) && Shrinks(m, m')
    requires forall r | r in m'.secrets || r in m'.held :: Renews(pc, r) == Renews(pc', r)
    ensures HoldersOk(m', id, pc')
  {
  }

  lemma HoldersEnclave(c: Config, m: Memory, id: nat, place: Scope, job: Job, enclave: EnclavePc, ch: Choice)
    requires PcOk(c, m, id, place, InEnclave(job, enclave)) && HoldersOk(m, id, InEnclave(job, enclave))
    ensures var (m', pc') := EnclaveStep(c, m, id, job, enclave, ch); HoldersOk(m', id, pc')
  {
    var (m', pc') := EnclaveStep(c, m, id, job, enclave, ch);
    assert forall r :: Renews(InEnclave(job, enclave), r) == Renews(pc', r);
    if !enclave.Keeping? && !enclave.Taking? {
      HoldersShrink(c, m, m', id, InEnclave(job, enclave), pc');
    }
  }

  /** The request whose admission opens an approval is the one that put there what is held
      for it. */
  lemma HoldersAdmit(c: Config, m: Memory, id: nat, job: Job, now: Float)
    requires OriginsOk(c, m) && HoldersOk(m, id, Admitting(job)) && m.signOuts == job.counted
    ensures var (m', pc') := Admit(c, m, id, job, now); HoldersOk(m', id, pc')
  {
    var (m', pc') := Admit(c, m, id, job, now);
    assert m'.history == m.history + [Admitted(id, now, job)];
    forall r | r in m'.approved && r in m'.secrets ensures OpenedBy(m', r, m'.secrets[r]) {
      assert job.live || r != job.reach ==> OpenedBy(m, r, m.secrets[r]);
    }
  }

  lemma LookShrinks(m: Memory, who: Who, ch: Choice, m': Memory)
    requires m' == if m.looking.Nobody? then BeginLook(m, who, ch)
                   else if m.looking.stage != Leaving then ContinueLook(m)
                   else m.(looking := Nobody)
    ensures Shrinks(m, m')
  {
  }

  lemma HoldersLook(c: Config, m: Memory, id: nat, pc: Pc, pc': Pc, who: Who, ch: Choice, m': Memory)
    requires HoldersOk(m, id, pc)
    requires m' == if m.looking.Nobody? then BeginLook(m, who, ch)
                   else if m.looking.stage != Leaving then ContinueLook(m)
                   else m.(looking := Nobody)
    requires forall r :: Renews(pc, r) == Renews(pc', r)
    ensures HoldersOk(m', id, pc')
  {
    LookShrinks(m, who, ch, m');
    HoldersShrink(c, m, m', id, pc, pc');
  }

  lemma HoldersCheck(c: Config, m: Memory, id: nat, place: Scope, pc: Pc, ch: Choice)
    requires HoldersOk(m, id, pc) && (pc.Failing? || pc.Forgetting? || pc.Closing?)
    ensures var (m', pc') := RequestStep(c, m, id, place, pc, ch); HoldersOk(m', id, pc')
  {
    var (m', pc') := RequestStep(c, m, id, place, pc, ch);
    HoldersShrink(c, m, m', id, pc, pc');
  }

  lemma HoldersBefore(c: Config, m: Memory, id: nat, place: Scope, pc: Pc, ch: Choice)
    requires HoldersOk(m, id, pc) && RequestEnabled(m, id, pc, ch)
    requires pc.Arriving? || pc.Loading? || pc.Releasing? || pc.Dropping? || pc.Done?
    ensures var (m', pc') := RequestStep(c, m, id, place, pc, ch); HoldersOk(m', id, pc')
  {
    var (m', pc') := RequestStep(c, m, id, place, pc, ch);
    HoldersShrink(c, m, m', id, pc, pc');
  }

  lemma HoldersRequest(c: Config, m: Memory, id: nat, place: Scope, pc: Pc, ch: Choice)
    requires PcOk(c, m, id, place, pc) && OriginsOk(c, m) && HoldersOk(m, id, pc) && RequestEnabled(m, id, pc, ch)
    ensures var (m', pc') := RequestStep(c, m, id, place, pc, ch); HoldersOk(m', id, pc')
  {
    match pc
    case InEnclave(job, enclave) => HoldersEnclave(c, m, id, place, job, enclave, ch);
    case Deciding(_, _, _) =>
      var (m', pc') := Decide(c, m, id, place, pc, Clock(m, ch));
      HoldersShrink(c, m, m', id, pc, pc');
    case FirstLook =>
      var (m', pc') := RequestStep(c, m, id, place, pc, ch);
      HoldersLook(c, m, id, pc, pc', Request(id), ch, m');
    case SecondLook(_, _) =>
      var (m', pc') := RequestStep(c, m, id, place, pc, ch);
      HoldersLook(c, m, id, pc, pc', Request(id), ch, m');
    case Admitting(job) =>
      if m.signOuts == job.counted {
        HoldersAdmit(c, m, id, job, Clock(m, ch));
      } else {
        HoldersShrink(c, m, Log(m, Refused(id, job)), id, pc, Forgetting(job, |m.history|));
      }
    case Failing(_) => HoldersCheck(c, m, id, place, pc, ch);
    case Forgetting(_, _) => HoldersCheck(c, m, id, place, pc, ch);
    case Closing(_, _, _) => HoldersCheck(c, m, id, place, pc, ch);
    case _ => HoldersBefore(c, m, id, place, pc, ch);
  }

  // ---- what the signature is made with

  lemma UsesEnclave(c: Config, m: Memory, id: nat, place: Scope, job: Job, enclave: EnclavePc, ch: Choice)
    requires PcOk(c, m, id, place, InEnclave(job, enclave)) && OriginsOk(c, m)
    requires HoldersOk(m, id, InEnclave(job, enclave)) && UsesOk(c, m, id, InEnclave(job, enclave))
    ensures var (m', pc') := EnclaveStep(c, m, id, job, enclave, ch); UsesOk(c, m', id, pc')
  {
    var (m', pc') := EnclaveStep(c, m, id, job, enclave, ch);
  }

  lemma UsesStable(c: Config, m: Memory, m': Memory, id: nat, job: Job)
    requires UsesOpening(c, m, id, job) && m.history <= m'.history
    requires job.counted <= m.signOuts <= m'.signOuts
    ensures UsesOpening(c, m', id, job)
  {
  }

  lemma UsesSecondLook(c: Config, m: Memory, id: nat, place: Scope, job: Job, made: bool, ch: Choice)
    requires PcOk(c, m, id, place, SecondLook(job, made)) && UsesOk(c, m, id, SecondLook(job, made))
    requires RequestEnabled(m, id, SecondLook(job, made), ch)
    ensures var (m', pc') := RequestStep(c, m, id, place, SecondLook(job, made), ch); UsesOk(c, m', id, pc')
  {
    if m.looking.Nobody? || m.looking.stage != Leaving {
      UsesLook(c, m, Request(id), ch, if m.looking.Nobody? then BeginLook(m, Request(id), ch) else ContinueLook(m), id, job, made);
    }
  }

  lemma UsesLook(c: Config, m: Memory, who: Who, ch: Choice, m': Memory, id: nat, job: Job, made: bool)
    requires made ==> UsesOpening(c, m, id, job)
    requires job.counted <= m.signOuts && (m.looking.Looker? ==> m.looking.stage != Leaving)
    requires m' == if m.looking.Nobody? then BeginLook(m, who, ch) else ContinueLook(m)
    ensures made ==> UsesOpening(c, m', id, job)
  {
    LookShrinks(m, who, ch, m');
    if made {
      UsesStable(c, m, m', id, job);
    }
  }

  lemma UsesRequest(c: Config, m: Memory, id: nat, place: Scope, pc: Pc, ch: Choice)
    requires PcOk(c, m, id, place, pc) && OriginsOk(c, m)
    requires HoldersOk(m, id, pc) && UsesOk(c, m, id, pc) && RequestEnabled(m, id, pc, ch)
    ensures var (m', pc') := RequestStep(c, m, id, place, pc, ch); UsesOk(c, m', id, pc')
  {
    if pc.InEnclave? {
      UsesEnclave(c, m, id, place, pc.job, pc.enclave, ch);
    } else if pc.SecondLook? {
      UsesSecondLook(c, m, id, place, pc.job, pc.made, ch);
    } else {
      UsesOutside(c, m, id, place, pc, ch);
    }
  }

  lemma UsesOutside(c: Config, m: Memory, id: nat, place: Scope, pc: Pc, ch: Choice)
    requires UsesOk(c, m, id, pc) && RequestEnabled(m, id, pc, ch) && !pc.InEnclave? && !pc.SecondLook?
    ensures var (m', pc') := RequestStep(c, m, id, place, pc, ch); UsesOk(c, m', id, pc')
  {
  }

  // ---- a Touch ID came first

  /** A plain key's context is in the cache before its Touch ID is answered. */
  predicate Unproven(c: Config, pc: Pc, r: Reach) {
    !c.endsAtLock && pc.InEnclave? && (pc.enclave.Asking? || pc.enclave.Unholding?) && pc.job.reach == r
  }

  ghost predicate PassedOk(c: Config, m: Memory, id: nat, pc: Pc) {
    && (forall r | r in m.secrets :: PassedBefore(m.history, |m.history|, m.secrets[r]))
    && (forall r | r in m.held && !Unproven(c, pc, r) :: PassedBefore(m.history, |m.history|, m.held[r]))
    && (forall r | r in m.held && Unproven(c, pc, r) :: m.held[r] == id)
    && match pc
       case InEnclave(job, enclave) =>
         && (enclave.Making? ==> PassedBefore(m.history, |m.history|, job.using))
         && (enclave.Agreeing? || enclave.Keeping? ==> PassedBefore(m.history, |m.history|, id))
       case SecondLook(job, made) => made ==> PassedBefore(m.history, job.madeAt, job.using)
       case Admitting(job) => PassedBefore(m.history, job.madeAt, job.using)
       case _ => true
  }

  lemma PassedStable(h: History, h': History, hi: int, hi': int, id: nat)
    requires PassedBefore(h, hi, id) && h <= h' && hi <= hi'
    ensures PassedBefore(h', hi', id)
  {
    var k, reach, riding :| 0 <= k < |h| && k < hi && h[k] == Asked(id, reach, riding, true);
    assert h'[k] == Asked(id, reach, riding, true);
  }

  lemma PassedShrink(c: Config, m: Memory, m': Memory, id: nat, pc: Pc, pc': Pc)
    requires PassedOk(c, m, id, pc) && Lessens(m, m')
    requires forall r | r in m'.held :: Unproven(c, pc, r) == Unproven(c, pc', r)
    requires pc'.InEnclave? ==> !pc'.enclave.Making? && !pc'.enclave.Agreeing? && !pc'.enclave.Keeping?
    requires pc'.SecondLook? && pc'.made ==> PassedBefore(m.history, pc'.job.madeAt, pc'.job.using)
    requires pc'.Admitting? ==> PassedBefore(m.history, pc'.job.madeAt, pc'.job.using)
    ensures PassedOk(c, m', id, pc')
  {
    forall r | r in m'.secrets ensures PassedBefore(m'.history, |m'.history|, m'.secrets[r]) {
      PassedStable(m.history, m'.history, |m.history|, |m'.history|, m'.secrets[r]);
    }
    forall r | r in m'.held && !Unproven(c, pc', r) ensures PassedBefore(m'.history, |m'.history|, m'.held[r]) {
      PassedStable(m.history, m'.history, |m.history|, |m'.history|, m'.held[r]);
    }
    if pc'.Admitting? || (pc'.SecondLook? && pc'.made) {
      PassedStable(m.history, m'.history, pc'.job.madeAt, pc'.job.madeAt, pc'.job.using);
    }
  }

  lemma PassedAsking(c: Config, m: Memory, id: nat, job: Job, ch: Choice)
    requires PassedOk(c, m, id, InEnclave(job, Asking)) && job.using == id
    ensures var (m', pc') := EnclaveStep(c, m, id, job, Asking, ch); PassedOk(c, m', id, pc')
  {
    var (m', pc') := EnclaveStep(c, m, id, job, Asking, ch);
    var e := Asked(id, job.reach, job.live, ch.ok);
    assert m'.history == m.history + [e];
    if ch.ok {
      assert m'.history[|m.history|] == Asked(id, job.reach, job.live, true);
      assert PassedBefore(m'.history, |m'.history|, id);
    }
    forall r | r in m'.secrets ensures PassedBefore(m'.history, |m'.history|, m'.secrets[r]) {
      PassedStable(m.history, m'.history, |m.history|, |m'.history|, m'.secrets[r]);
    }
    forall r | r in m'.held && !Unproven(c, pc', r) ensures PassedBefore(m'.history, |m'.history|, m'.held[r]) {
      if !Unproven(c, InEnclave(job, Asking), r) {
        PassedStable(m.history, m'.history, |m.history|, |m'.history|, m'.held[r]);
      }
    }
  }

  lemma PassedMaking(c: Config, m: Memory, id: nat, job: Job, ch: Choice)
    requires PassedOk(c, m, id, InEnclave(job, Making))
    ensures var (m', pc') := EnclaveStep(c, m, id, job, Making, ch); PassedOk(c, m', id, pc')
  {
    var (m', pc') := EnclaveStep(c, m, id, job, Making, ch);
    if ch.ok {
      PassedStable(m.history, m'.history, |m.history|, |m.history|, job.using);
      forall r | r in m'.secrets ensures PassedBefore(m'.history, |m'.history|, m'.secrets[r]) {
        PassedStable(m.history, m'.history, |m.history|, |m'.history|, m'.secrets[r]);
      }
      forall r | r in m'.held ensures PassedBefore(m'.history, |m'.history|, m'.held[r]) {
        PassedStable(m.history, m'.history, |m.history|, |m'.history|, m'.held[r]);
      }
    }
  }

  /** Everything put in the cache before still rests on the Touch ID it rested on. */
  lemma PassedLater(m: Memory, m': Memory, them: map<Reach, nat>)
    requires m.history <= m'.history
    ensures forall r | r in them && PassedBefore(m.history, |m.history|, them[r]) :: PassedBefore(m'.history, |m'.history|, them[r])
  {
    forall r | r in them && PassedBefore(m.history, |m.history|, them[r]) ensures PassedBefore(m'.history, |m'.history|, them[r]) {
      PassedStable(m.history, m'.history, |m.history|, |m'.history|, them[r]);
    }
  }

  lemma PassedKeeping(c: Config, m: Memory, id: nat, job: Job, ch: Choice)
    requires PassedOk(c, m, id, InEnclave(job, Keeping)) && job.using == id && c.endsAtLock
    ensures var (m', pc') := EnclaveStep(c, m, id, job, Keeping, ch); PassedOk(c, m', id, pc')
  {
    var m' := EnclaveStep(c, m, id, job, Keeping, ch).0;
    PassedLater(m, m', m.secrets);
    PassedLater(m, m', m.held);
    PassedStable(m.history, m'.history, |m.history|, |m'.history|, id);
  }

  lemma PassedTaking(c: Config, m: Memory, id: nat, job: Job, ch: Choice)
    requires PassedOk(c, m, id, InEnclave(job, Taking)) && job.using == id && !c.endsAtLock && c.approve
    requires !Hold(c) ==> m.held == map[]
    ensures var (m', pc') := EnclaveStep(c, m, id, job, Taking, ch); PassedOk(c, m', id, pc')
  {
    var m' := EnclaveStep(c, m, id, job, Taking, ch).0;
    PassedLater(m, m', m.secrets);
    PassedLater(m, m', m.held);
  }

  lemma PassedCaching(c: Config, m: Memory, id: nat, place: Scope, job: Job, enclave: EnclavePc, ch: Choice)
    requires PcOk(c, m, id, place, InEnclave(job, enclave)) && c.approve
    requires PassedOk(c, m, id, InEnclave(job, enclave)) && UsesOk(c, m, id, InEnclave(job, enclave))
    requires enclave.Reading? || enclave.Agreeing? || enclave.Unholding?
    ensures var (m', pc') := EnclaveStep(c, m, id, job, enclave, ch); PassedOk(c, m', id, pc')
  {
  }

  lemma PassedLook(c: Config, m: Memory, id: nat, place: Scope, pc: Pc, ch: Choice)
    requires PassedOk(c, m, id, pc) && RequestEnabled(m, id, pc, ch) && Looks(pc)
    ensures var (m', pc') := RequestStep(c, m, id, place, pc, ch); PassedOk(c, m', id, pc')
  {
    var (m', pc') := RequestStep(c, m, id, place, pc, ch);
    LookShrinks(m, Request(id), ch, m');
    PassedShrink(c, m, m', id, pc, pc');
  }

  lemma PassedOther(c: Config, m: Memory, id: nat, place: Scope, pc: Pc, ch: Choice)
    requires PassedOk(c, m, id, pc) && RequestEnabled(m, id, pc, ch) && !Looks(pc) && !pc.InEnclave?
    ensures var (m', pc') := RequestStep(c, m, id, place, pc, ch); PassedOk(c, m', id, pc')
  {
    var (m', pc') := RequestStep(c, m, id, place, pc, ch);
    assert Lessens(m, m');
    PassedShrink(c, m, m', id, pc, pc');
  }

  lemma PassedRequest(c: Config, m: Memory, id: nat, place: Scope, pc: Pc, ch: Choice)
    requires PcOk(c, m, id, place, pc) && UsesOk(c, m, id, pc) && PassedOk(c, m, id, pc) && c.approve
    requires RequestEnabled(m, id, pc, ch) && (!Hold(c) ==> m.held == map[])
    ensures var (m', pc') := RequestStep(c, m, id, place, pc, ch); PassedOk(c, m', id, pc')
  {
    match pc
    case InEnclave(job, Asking) => PassedAsking(c, m, id, job, ch);
    case InEnclave(job, Making) => PassedMaking(c, m, id, job, ch);
    case InEnclave(job, Keeping) => PassedKeeping(c, m, id, job, ch);
    case InEnclave(job, Taking) => PassedTaking(c, m, id, job, ch);
    case InEnclave(job, enclave) => PassedCaching(c, m, id, place, job, enclave, ch);
    case FirstLook => PassedLook(c, m, id, place, pc, ch);
    case SecondLook(_, _) => PassedLook(c, m, id, place, pc, ch);
    case _ => PassedOther(c, m, id, place, pc, ch);
  }

  // ---- every admission on record

  ghost predicate UseOk(c: Config, h: History, a: nat)
    requires a < |h| && h[a].Admitted?
  {
    var job := h[a].job;
    && (c.approve ==> PassedBefore(h, job.madeAt, job.using))
    && (!job.live ==> job.using == h[a].id)
    && (job.live && c.endsAtLock ==>
          job.since < |h| && h[job.since].Admitted? && h[job.since].id == job.using)
  }

  ghost predicate UsesOnRecord(c: Config, h: History) {
    forall a | 0 <= a < |h| && h[a].Admitted? :: UseOk(c, h, a)
  }

  /** With a sign-in key no riding request raises a sheet. */
  ghost predicate RidersSilent(c: Config, h: History) {
    c.endsAtLock ==> forall k | 0 <= k < |h| && h[k].Asked? :: !h[k].riding
  }

  lemma UseStable(c: Config, h: History, h': History, a: nat)
    requires a < |h| && h[a].Admitted? && UseOk(c, h, a) && h <= h'
    ensures UseOk(c, h', a)
  {
    if c.approve {
      PassedStable(h, h', h[a].job.madeAt, h[a].job.madeAt, h[a].job.using);
    }
  }

  lemma UsesRecorded(c: Config, m: Memory, id: nat, place: Scope, pc: Pc, ch: Choice)
    requires PcOk(c, m, id, place, pc) && UsesOk(c, m, id, pc) && (c.approve ==> PassedOk(c, m, id, pc))
    requires UsesOnRecord(c, m.history) && RequestEnabled(m, id, pc, ch) && pc.Admitting?
    ensures UsesOnRecord(c, Admit(c, m, id, pc.job, Clock(m, ch)).0.history)
  {
    var h' := Admit(c, m, id, pc.job, Clock(m, ch)).0.history;
    forall a: nat | a < |h'| && h'[a].Admitted? ensures UseOk(c, h', a) {
      if a < |m.history| {
        UseStable(c, m.history, h', a);
      } else {
        if c.approve {
          PassedStable(m.history, h', pc.job.madeAt, pc.job.madeAt, pc.job.using);
        }
      }
    }
  }
}
