/** A sign-in key's secrets, at every moment and whatever the clock does: which sign-ins
    still have one, and so exactly when a request that rides a sign-in is turned away with
    nothing held for it. */
module Secrets {
  import opened Seconds
  import opened Basics
  import opened Approval
  import opened Protocol
  import opened Locks
  import opened Records
  import opened Jobs
  import opened Timeline
  import opened Cache
  import opened Turns

  predicate Keeps(e: Event, reach: Reach) {
    e.Kept? && e.reach == reach
  }

  /** What costs `reach` its secret: a wipe, a request nothing covered, and the failure of
      one that had kept a new one. */
  predicate Spoils(e: Event, reach: Reach) {
    || e.Wiped?
    || (e.Decided? && e.reach == reach && !e.live)
    || ((e.Refused? || e.Failed?) && e.job.reach == reach && !e.job.live)
  }

  /** Whose Touch ID released the secret held for `reach`, by the history alone. */
  function SecretHolder(h: History, reach: Reach): Option<nat> {
    if h == [] then None
    else
      var e := h[|h| - 1];
      if Keeps(e, reach) then Some(e.id)
      else if Spoils(e, reach) then None
      else SecretHolder(h[..|h| - 1], reach)
  }

  lemma SecretHolderStep(h: History, e: Event, reach: Reach)
    ensures SecretHolder(h + [e], reach)
         == if Keeps(e, reach) then Some(e.id) else if Spoils(e, reach) then None else SecretHolder(h, reach)
  {
    assert (h + [e])[..|h|] == h;
  }

  // ---- the cache is what the history says

  /** What is kept is what the history names. */
  predicate Sealed(m: Memory, r: Reach) {
    r in m.secrets ==> SecretHolder(m.history, r) == Some(m.secrets[r])
  }

  /** What the history names is kept. */
  predicate Backed(m: Memory, r: Reach) {
    SecretHolder(m.history, r).Some? ==> r in m.secrets
  }

  /** The scope the request past the gate is about to forget. */
  function Owed(pc: Pc): set<Reach> {
    if (pc.Releasing? || pc.Dropping? || pc.Forgetting?) && !pc.job.live then {pc.job.reach} else {}
  }

  /** The scope the request past the gate is getting approved afresh. */
  function Renewed(pc: Pc): set<Reach> {
    if (pc.InEnclave? || pc.SecondLook? || pc.Admitting? || pc.Failing?) && !pc.job.live then {pc.job.reach} else {}
  }

  ghost predicate KeptBetween(h: History, id: nat, reach: Reach, lo: int, hi: int) {
    exists q :: 0 <= q < |h| && lo < q < hi && h[q] == Kept(id, reach)
  }

  ghost predicate OwnSecret(c: Config, m: Memory, id: nat, pc: Pc) {
    match pc
    case Releasing(job, todo) => todo !! m.approved.Keys && (!job.live ==> SecretHolder(m.history, job.reach).None?)
    case Dropping(job) => !job.live && SecretHolder(m.history, job.reach).None?
    case InEnclave(job, enclave) =>
      !job.live ==>
        if enclave.Making? then Hold(c) ==> KeptBetween(m.history, id, job.reach, job.decidedAt, |m.history|)
        else SecretHolder(m.history, job.reach).None?
    case SecondLook(job, made) =>
      !job.live && made && Hold(c) ==> KeptBetween(m.history, id, job.reach, job.decidedAt, |m.history|)
    case Admitting(job) =>
      !job.live && Hold(c) ==> KeptBetween(m.history, id, job.reach, job.decidedAt, |m.history|)
    case Forgetting(job, _) =>
      if job.live then job.reach !in m.approved else SecretHolder(m.history, job.reach).None?
    case _ => true
  }

  ghost predicate SecretsOk(c: Config, m: Memory, id: nat, pc: Pc) {
    && (forall r | r !in Owed(pc) :: Sealed(m, r))
    && (forall r | r in m.approved || r in Renewed(pc) :: Backed(m, r))
    && OwnSecret(c, m, id, pc)
  }

  // ---- steps

  /** `e`, if anything, was put on record, and it says nothing about the secret of `r`. */
  ghost predicate Unsaid(m: Memory, m': Memory, r: Reach) {
    m'.history == m.history
    || exists e :: m'.history == m.history + [e] && !Keeps(e, r) && !Spoils(e, r)
  }

  lemma HolderUnsaid(m: Memory, m': Memory, r: Reach)
    requires Unsaid(m, m', r)
    ensures SecretHolder(m'.history, r) == SecretHolder(m.history, r)
  {
    if m'.history != m.history {
      var e :| m'.history == m.history + [e] && !Keeps(e, r) && !Spoils(e, r);
      SecretHolderStep(m.history, e, r);
    }
  }

  /** A step that puts nothing on record about secrets, and lets go of `gone` at most. */
  ghost predicate LetsGo(m: Memory, m': Memory, gone: set<Reach>) {
    && (forall r :: Unsaid(m, m', r))
    && m'.secrets == m.secrets - gone
    && m'.approved.Keys <= m.approved.Keys
  }

  lemma LetsGoKeeps(c: Config, m: Memory, m': Memory, id: nat, pc: Pc, pc': Pc, gone: set<Reach>)
    requires SecretsOk(c, m, id, pc) && LetsGo(m, m', gone)
    requires gone !! m'.approved.Keys && Owed(pc) <= Owed(pc') + gone
    requires forall r | r in Renewed(pc') :: r !in gone && Backed(m, r)
    ensures forall r | r !in Owed(pc') :: Sealed(m', r)
    ensures forall r | r in m'.approved || r in Renewed(pc') :: Backed(m', r)
  {
    forall r | r !in Owed(pc') ensures Sealed(m', r) {
      HolderUnsaid(m, m', r);
    }
    forall r | r in m'.approved || r in Renewed(pc') ensures Backed(m', r) {
      HolderUnsaid(m, m', r);
    }
  }

  lemma Says(m: Memory, e: Event, m': Memory)
    requires m'.history == m.history + [e]
    ensures forall r | !Keeps(e, r) && !Spoils(e, r) :: Unsaid(m, m', r)
  {
  }

  lemma KeptLater(h: History, e: Event, id: nat, reach: Reach, lo: int)
    requires KeptBetween(h, id, reach, lo, |h|)
    ensures KeptBetween(h + [e], id, reach, lo, |h| + 1)
  {
    var q :| 0 <= q < |h| && lo < q < |h| && h[q] == Kept(id, reach);
    assert (h + [e])[q] == Kept(id, reach);
  }

  lemma DecideKeepsSecrets(c: Config, m: Memory, id: nat, place: Scope, pc: Pc, now: Float)
    requires pc.Deciding? && SecretsOk(c, m, id, pc)
    ensures var (m', pc') := Decide(c, m, id, place, pc, now); SecretsOk(c, m', id, pc')
  {
    var (m', pc') := Decide(c, m, id, place, pc, now);
    var job := pc'.job;
    var e := Decided(id, job.reach, now, job.live);
    Says(m, e, m');
    SecretHolderStep(m.history, e, job.reach);
    forall r | r !in Owed(pc') ensures Sealed(m', r) {
      assert Sealed(m, r);
      HolderUnsaid(m, m', r);
    }
    forall r | r in m'.approved ensures Backed(m', r) {
      if job.live || r != job.reach {
        HolderUnsaid(m, m', r);
      }
    }
  }

  lemma ReleaseKeepsSecrets(c: Config, m: Memory, id: nat, place: Scope, pc: Pc, ch: Choice)
    requires (pc.Releasing? || pc.Dropping?) && SecretsOk(c, m, id, pc) && c.endsAtLock
    requires RequestEnabled(m, id, pc, ch)
    ensures var (m', pc') := RequestStep(c, m, id, place, pc, ch); SecretsOk(c, m', id, pc')
  {
    var (m', pc') := RequestStep(c, m, id, place, pc, ch);
    if pc.Dropping? {
      forall r | r != pc.job.reach ensures Sealed(m', r) && (r in m.approved ==> Backed(m', r)) {
      assert Sealed(m, r);
        HolderUnsaid(m, m', r);
      }
    } else {
      LetsGoKeeps(c, m, m', id, pc, pc', if pc.todo != {} then {ch.pick} else {});
    }
  }

  lemma KeepingKeepsSecrets(c: Config, m: Memory, id: nat, job: Job, ch: Choice)
    requires SecretsOk(c, m, id, InEnclave(job, Keeping)) && job.decidedAt < |m.history|
    ensures var (m', pc') := EnclaveStep(c, m, id, job, Keeping, ch); SecretsOk(c, m', id, pc')
  {
    var (m', pc') := EnclaveStep(c, m, id, job, Keeping, ch);
    var e := Kept(id, job.reach);
    Says(m, e, m');
    SecretHolderStep(m.history, e, job.reach);
    assert m'.history[|m.history|] == e;
    forall r | r != job.reach ensures Sealed(m', r) && (r in m.approved ==> Backed(m', r)) {
      assert Sealed(m, r);
      HolderUnsaid(m, m', r);
    }
  }

  lemma MakingKeepsSecrets(c: Config, m: Memory, id: nat, job: Job, ch: Choice)
    requires SecretsOk(c, m, id, InEnclave(job, Making)) && c.endsAtLock
    ensures var (m', pc') := EnclaveStep(c, m, id, job, Making, ch); SecretsOk(c, m', id, pc')
  {
    var (m', pc') := EnclaveStep(c, m, id, job, Making, ch);
    var e := Made(id, job.using);
    if ch.ok {
      Says(m, e, m');
      if !job.live && Hold(c) {
        KeptLater(m.history, e, id, job.reach, job.decidedAt);
      }
    }
    LetsGoKeeps(c, m, m', id, InEnclave(job, Making), pc', {});
  }

  lemma EnclaveKeepsSecrets(c: Config, m: Memory, id: nat, place: Scope, job: Job, enclave: EnclavePc, ch: Choice)
    requires PcOk(c, m, id, place, InEnclave(job, enclave)) && c.endsAtLock
    requires SecretsOk(c, m, id, InEnclave(job, enclave)) && CoveredOk(c, m, {job.reach})
    ensures var (m', pc') := EnclaveStep(c, m, id, job, enclave, ch); SecretsOk(c, m', id, pc')
  {
    if enclave.Keeping? {
      KeepingKeepsSecrets(c, m, id, job, ch);
    } else if enclave.Making? {
      MakingKeepsSecrets(c, m, id, job, ch);
    } else {
      var (m', pc') := EnclaveStep(c, m, id, job, enclave, ch);
      if m'.history != m.history {
        Says(m, Asked(id, job.reach, job.live, ch.ok), m');
      }
      assert Sealed(m, job.reach);
      LetsGoKeeps(c, m, m', id, InEnclave(job, enclave), pc', {});
    }
  }

  /** The wipe takes everything, on record and off. */
  lemma WipeKeepsSecrets(c: Config, m: Memory, id: nat, pc: Pc)
    requires SecretsOk(c, m, id, pc)
    ensures SecretsOk(c, ForgetAll(m), id, pc)
  {
    var m' := ForgetAll(m);
    forall r ensures SecretHolder(m'.history, r).None? {
      SecretHolderStep(m.history, Wiped, r);
    }
    if Undecided(pc) && KeptBetween(m.history, id, pc.job.reach, pc.job.decidedAt, |m.history|) {
      KeptLater(m.history, Wiped, id, pc.job.reach, pc.job.decidedAt);
    }
  }

  /** Something else is put on record while the request stands where it is. */
  lemma NoteKeepsSecrets(c: Config, m: Memory, e: Event, m': Memory, id: nat, pc: Pc)
    requires SecretsOk(c, m, id, pc) && m'.history == m.history + [e] && (forall r :: !Keeps(e, r) && !Spoils(e, r))
    requires m'.secrets == m.secrets && m'.approved.Keys <= m.approved.Keys
    ensures SecretsOk(c, m', id, pc)
  {
    Says(m, e, m');
    if Undecided(pc) && KeptBetween(m.history, id, pc.job.reach, pc.job.decidedAt, |m.history|) {
      KeptLater(m.history, e, id, pc.job.reach, pc.job.decidedAt);
    }
    LetsGoKeeps(c, m, m', id, pc, pc, {});
    OwnUnsaid(c, m, m', id, pc);
  }

  /** One step of a look, whoever makes it. */
  lemma LookKeepsSecrets(c: Config, m: Memory, id: nat, pc: Pc, who: Who, ch: Choice, m': Memory)
    requires SecretsOk(c, m, id, pc)
    requires m' == if m.looking.Nobody? then BeginLook(m, who, ch)
                   else if m.looking.stage != Leaving then ContinueLook(m)
                   else m.(looking := Nobody)
    ensures SecretsOk(c, m', id, pc)
  {
    if m.looking.Nobody? {
      NoteKeepsSecrets(c, m, Looked(who, m.looked.at, Clock(m, ch), ch.screen), m', id, pc);
    } else if m.looking.stage == Ending {
      NoteKeepsSecrets(c, m, Ended, m', id, pc);
    } else if m.looking.stage == Wiping {
      WipeKeepsSecrets(c, m, id, pc);
      SameSecrets(c, ForgetAll(m), m', id, pc);
    } else {
      SameSecrets(c, m, m', id, pc);
    }
  }

  lemma SameSecrets(c: Config, m: Memory, m': Memory, id: nat, pc: Pc)
    requires SecretsOk(c, m, id, pc)
    requires m'.secrets == m.secrets && m'.history == m.history && m'.approved.Keys <= m.approved.Keys
    ensures SecretsOk(c, m', id, pc)
  {
    LetsGoKeeps(c, m, m', id, pc, pc, {});
    OwnUnsaid(c, m, m', id, pc);
  }

  lemma OwnUnsaid(c: Config, m: Memory, m': Memory, id: nat, pc: Pc)
    requires OwnSecret(c, m, id, pc) && (forall r :: Unsaid(m, m', r)) && m'.approved.Keys <= m.approved.Keys
    requires Undecided(pc) && KeptBetween(m.history, id, pc.job.reach, pc.job.decidedAt, |m.history|) ==>
      KeptBetween(m'.history, id, pc.job.reach, pc.job.decidedAt, |m'.history|)
    ensures OwnSecret(c, m', id, pc)
  {
    if Undecided(pc) || pc.Forgetting? {
      HolderUnsaid(m, m', pc.job.reach);
    }
  }

  lemma SecondLookKeepsSecrets(c: Config, m: Memory, id: nat, place: Scope, pc: Pc, ch: Choice)
    requires Looks(pc) && SecretsOk(c, m, id, pc) && RequestEnabled(m, id, pc, ch)
    ensures var (m', pc') := RequestStep(c, m, id, place, pc, ch); SecretsOk(c, m', id, pc')
  {
    var (m', pc') := RequestStep(c, m, id, place, pc, ch);
    LookKeepsSecrets(c, m, id, pc, Request(id), ch, m');
    assert Owed(pc') == Owed(pc) && Renewed(pc') == Renewed(pc);
  }

  /** Whatever is approved while a request is under way was approved before it read the
      count, so the count still stands. */
  lemma ApprovedMeansCounted(c: Config, m: Memory, id: nat, place: Scope, job: Job, r: Reach)
    requires JobOk(c, m, id, place, job) && OriginsOk(c, m) && r in m.approved
    ensures m.signOuts == job.counted
  {
    assert OriginOk(m, r);
    assert m.origin[r] <= job.loadedAt;
  }

  /** The request has failed: what it kept is as good as forgotten. */
  lemma FailKeepsSecrets(c: Config, m: Memory, id: nat, place: Scope, pc: Pc, pc': Pc, job: Job, e: Event)
    requires SecretsOk(c, m, id, pc) && (pc == Admitting(job) || pc == Failing(job))
    requires JobOk(c, m, id, place, job) && OriginsOk(c, m)
    requires (e.Refused? || e.Failed?) && e.job == job
    requires pc'.Forgetting? || pc'.Closing?
    requires pc'.Closing? ==> job.live
    requires pc'.Forgetting? ==> pc'.job == job && (job.live ==> m.signOuts != job.counted)
    ensures SecretsOk(c, Log(m, e), id, pc')
  {
    var m' := Log(m, e);
    Says(m, e, m');
    SecretHolderStep(m.history, e, job.reach);
    if job.reach in m.approved {
      ApprovedMeansCounted(c, m, id, place, job, job.reach);
    }
    forall r | r !in Owed(pc') ensures Sealed(m', r) {
      assert Sealed(m, r);
      HolderUnsaid(m, m', r);
    }
    forall r | r in m'.approved ensures Backed(m', r) {
      if job.live || r != job.reach {
        HolderUnsaid(m, m', r);
      }
    }
  }

  lemma AdmitKeepsSecrets(c: Config, m: Memory, id: nat, job: Job, now: Float)
    requires SecretsOk(c, m, id, Admitting(job)) && m.signOuts == job.counted
    ensures var (m', pc') := Admit(c, m, id, job, now); SecretsOk(c, m', id, pc')
  {
    var (m', pc') := Admit(c, m, id, job, now);
    Says(m, Admitted(id, now, job), m');
    forall r ensures Sealed(m', r) {
      assert Sealed(m, r);
      HolderUnsaid(m, m', r);
    }
    forall r | r in m'.approved ensures Backed(m', r) {
      assert r in m.approved || r in Renewed(Admitting(job));
      HolderUnsaid(m, m', r);
    }
  }

  lemma CheckKeepsSecrets(c: Config, m: Memory, id: nat, place: Scope, pc: Pc, ch: Choice)
    requires PcOk(c, m, id, place, pc) && OriginsOk(c, m) && SecretsOk(c, m, id, pc)
    requires (pc.Admitting? || pc.Failing?) && RequestEnabled(m, id, pc, ch)
    ensures var (m', pc') := RequestStep(c, m, id, place, pc, ch); SecretsOk(c, m', id, pc')
  {
    if pc.Admitting? && m.signOuts == pc.job.counted {
      AdmitKeepsSecrets(c, m, id, pc.job, Clock(m, ch));
    } else {
      var (m', pc') := RequestStep(c, m, id, place, pc, ch);
      var e := if pc.Admitting? then Refused(id, pc.job) else Failed(id, pc.job);
      FailKeepsSecrets(c, m, id, place, pc, pc', pc.job, e);
    }
  }

  lemma ForgettingKeepsSecrets(c: Config, m: Memory, id: nat, place: Scope, pc: Pc, ch: Choice)
    requires pc.Forgetting? && SecretsOk(c, m, id, pc)
    ensures var (m', pc') := RequestStep(c, m, id, place, pc, ch); SecretsOk(c, m', id, pc')
  {
    var m' := Forget(m, pc.job.reach);
    forall r ensures Sealed(m', r) && (r in m.approved ==> Backed(m', r)) {
      assert r != pc.job.reach ==> Sealed(m, r);
    }
  }

  lemma RestKeepsSecrets(c: Config, m: Memory, id: nat, place: Scope, pc: Pc, ch: Choice)
    requires SecretsOk(c, m, id, pc) && RequestEnabled(m, id, pc, ch)
    requires pc.Arriving? || pc.Loading? || pc.Closing?
    ensures var (m', pc') := RequestStep(c, m, id, place, pc, ch); SecretsOk(c, m', id, pc')
  {
    var (m', pc') := RequestStep(c, m, id, place, pc, ch);
    if m'.history != m.history {
      Says(m, m'.history[|m.history|], m');
    }
    LetsGoKeeps(c, m, m', id, pc, pc', {});
  }

  lemma RequestKeepsSecrets(c: Config, m: Memory, id: nat, place: Scope, pc: Pc, ch: Choice)
    requires StepOk(c, m, id, place, pc, ch) && OriginsOk(c, m) && SecretsOk(c, m, id, pc)
    requires CoveredOk(c, m, LooseOf(pc)) && c.endsAtLock
    ensures var (m', pc') := RequestStep(c, m, id, place, pc, ch); SecretsOk(c, m', id, pc')
  {
    match pc
    case Deciding(_, _, _) => DecideKeepsSecrets(c, m, id, place, pc, Clock(m, ch));
    case Releasing(_, _) => ReleaseKeepsSecrets(c, m, id, place, pc, ch);
    case Dropping(_) => ReleaseKeepsSecrets(c, m, id, place, pc, ch);
    case InEnclave(job, enclave) => EnclaveKeepsSecrets(c, m, id, place, job, enclave, ch);
    case FirstLook => SecondLookKeepsSecrets(c, m, id, place, pc, ch);
    case SecondLook(_, _) => SecondLookKeepsSecrets(c, m, id, place, pc, ch);
    case Admitting(_) => CheckKeepsSecrets(c, m, id, place, pc, ch);
    case Failing(_) => CheckKeepsSecrets(c, m, id, place, pc, ch);
    case Forgetting(_, _) => ForgettingKeepsSecrets(c, m, id, place, pc, ch);
    case _ => RestKeepsSecrets(c, m, id, place, pc, ch);
  }

  // ---- the watch

  /** What the watch is releasing is no longer approved. */
  predicate WatchOk(m: Memory, pc: WatchPc) {
    pc.WatchReleasing? ==> pc.todo !! m.approved.Keys
  }

  lemma WatchKeepsSecrets(c: Config, m: Memory, w: WatchPc, ch: Choice, id: nat, pc: Pc)
    requires WatchEnabled(c, m, w, ch) && SecretsOk(c, m, id, pc) && WatchOk(m, w)
    requires w.Expiring? || w.WatchReleasing? ==> !Inside(pc)
    ensures var (m', w') := WatchStep(c, m, w, ch); SecretsOk(c, m', id, pc) && WatchOk(m', w')
  {
    var (m', w') := WatchStep(c, m, w, ch);
    match w
    case WatchLooking => LookKeepsSecrets(c, m, id, pc, Watch, ch, m');
    case WatchReleasing(todo) =>
      if todo != {} {
        LetsGoKeeps(c, m, m', id, pc, pc, {ch.pick});
      } else {
        SameSecrets(c, m, m', id, pc);
      }
    case _ => SameSecrets(c, m, m', id, pc);
  }

  // ---- on record

  /** A sign-in that was admitted had kept its secret in the same turn. */
  ghost predicate KeptOk(c: Config, h: History) {
    forall a | 0 <= a < |h| && h[a].Admitted? && !h[a].job.live ::
      Hold(c) ==> KeptBetween(h, h[a].id, h[a].job.reach, h[a].job.decidedAt, a)
  }

  lemma KeptOkLater(c: Config, h: History, e: Event)
    requires KeptOk(c, h)
    requires e.Admitted? && !e.job.live && Hold(c) ==> KeptBetween(h, e.id, e.job.reach, e.job.decidedAt, |h|)
    ensures KeptOk(c, h + [e])
  {
    var h' := h + [e];
    forall a | 0 <= a < |h'| && h'[a].Admitted? && !h'[a].job.live && Hold(c)
      ensures KeptBetween(h', h'[a].id, h'[a].job.reach, h'[a].job.decidedAt, a)
    {
      assert KeptBetween(h, h'[a].id, h'[a].job.reach, h'[a].job.decidedAt, a);
      var q :| 0 <= q < |h| && h'[a].job.decidedAt < q < a && h[q] == Kept(h'[a].id, h'[a].job.reach);
      assert h'[q] == h[q];
    }
  }

  // ---- what a missing secret means

  /** At `k` the secret of `reach` was lost, and none was kept for it since. */
  ghost predicate SpoiltAt(h: History, reach: Reach, k: int) {
    && 0 <= k < |h| && Spoils(h[k], reach)
    && forall j | 0 <= j < |h| && k < j :: !Keeps(h[j], reach)
  }

  lemma {:induction false} NoSecretMeansSpoilt(h: History, reach: Reach, q: nat)
    requires q < |h| && Keeps(h[q], reach)
    ensures SecretHolder(h, reach).None? <==> exists k :: q < k && SpoiltAt(h, reach, k)
  {
    var n := |h| - 1;
    var front := h[..n];
    if Keeps(h[n], reach) {
    } else if Spoils(h[n], reach) {
      assert SpoiltAt(h, reach, n);
    } else {
      assert front[q] == h[q];
      NoSecretMeansSpoilt(front, reach, q);
      if k :| q < k && SpoiltAt(front, reach, k) {
        assert forall j | 0 <= j < |h| && k < j && j < n :: h[j] == front[j];
        assert SpoiltAt(h, reach, k);
      }
      if k :| q < k && SpoiltAt(h, reach, k) {
        assert front[k] == h[k];
        assert forall j | 0 <= j < |front| && k < j :: front[j] == h[j];
        assert SpoiltAt(front, reach, k);
      }
    }
  }

  /** A request, decided or failed at `k`, that could not read the clock when it was decided. */
  predicate Blind(h: History, k: nat)
    requires k < |h|
  {
    match h[k]
    case Decided(_, _, at, _) => at.NaN?
    case Refused(_, job) => job.decidedAt < |h| && h[job.decidedAt].Decided? && h[job.decidedAt].at.NaN?
    case Failed(_, job) => job.decidedAt < |h| && h[job.decidedAt].Decided? && h[job.decidedAt].at.NaN?
    case _ => false
  }

  /** A sign-in that still covers a request has lost its secret to a wipe, or to a request
      that could not read the clock. */
  lemma SpoiltBlind(c: Config, h: History, reach: Reach, o: nat, d: nat, q: nat, k: nat)
    requires DecisionsOk(c, h) && Ordered(h) && ChecksOk(h)
    requires o < d < |h| && Opens(h[o], reach) && NoOpening(h, reach, o, d) && NoEnd(h, o, d)
    requires h[d].Decided? && h[d].reach == reach && h[d].live && Exclusive(h, d, |h|)
    requires h[o].job.decidedAt < q < o && q < k < |h| && Spoils(h[k], reach)
    ensures h[k].Wiped? || Blind(h, k)
  {
    if !h[k].Wiped? {
      assert CheckOk(h, o);
      assert Turn(h[k]) && o < k && k < d;
      if h[k].Decided? {
        OnlyTheClock(c, h, reach, o, k, d);
      } else {
        assert CheckOk(h, k);
        var decided := h[k].job.decidedAt;
        assert decided > o;
        OnlyTheClock(c, h, reach, o, decided, d);
      }
    }
  }
}
