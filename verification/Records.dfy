/** What the history says, and what ties the shared memory and each request to it. */
module Records {
  import opened Seconds
  import opened Approval
  import opened Protocol

  type History = seq<Event>

  // ---- reading the history

  /** No sign-out strictly between two places. */
  ghost predicate NoEnd(h: History, lo: int, hi: int) {
    forall k | 0 <= k < |h| && lo < k < hi :: !h[k].Ended?
  }

  ghost predicate NoAdmission(h: History, lo: int, hi: int) {
    forall k | 0 <= k < |h| && lo < k < hi :: !h[k].Admitted?
  }

  /** Every look after `lo`, up to and including `hi`, vouches for the screen. */
  ghost predicate Watched(h: History, lo: int, hi: int) {
    forall k | 0 <= k < |h| && lo < k <= hi && h[k].Looked? :: Good(h[k])
  }

  /** `e` opened an approval of `reach`. */
  predicate Opens(e: Event, reach: Reach) {
    e.Admitted? && !e.job.live && e.job.reach == reach
  }

  /** The daemon's own Touch ID check was passed by request `id` before place `hi`. */
  ghost predicate PassedBefore(h: History, hi: int, id: nat) {
    exists k, reach, riding :: 0 <= k < |h| && k < hi && h[k] == Asked(id, reach, riding, true)
  }

  // ---- one request's decision

  /** A live decision rode the approval opened at `job.since`, which was younger than one
      window then and had seen no sign-out. */
  ghost predicate Rides(c: Config, h: History, job: Job) {
    && Hold(c)
    && job.since < job.loadedAt < job.decidedAt < |h|
    && Opens(h[job.since], job.reach)
    && h[job.decidedAt].Decided?
    && Lt(Sub(h[job.decidedAt].at, h[job.since].at), Window(c))
    && NoEnd(h, job.since, job.decidedAt)
  }

  ghost predicate Decision(c: Config, h: History, id: nat, place: Scope, job: Job) {
    && job.loadedAt < job.decidedAt < |h|
    && h[job.loadedAt] == Loaded(id)
    && h[job.decidedAt].Decided?
    && h[job.decidedAt].id == id && h[job.decidedAt].reach == job.reach && h[job.decidedAt].live == job.live
    && job.reach == GrantFor(c, place).0
    && (if job.live then Rides(c, h, job) else job.since == job.loadedAt)
  }

  /** The look `k` was bad and the sign-out it calls for has not begun. */
  predicate Pending(m: Memory, k: int) {
    m.looking.Looker? && m.looking.stage == Ending && m.looking.index == k
  }

  ghost predicate WatchedSince(m: Memory, lo: int) {
    forall k | 0 <= k < |m.history| && lo < k && m.history[k].Looked? :: Good(m.history[k]) || Pending(m, k)
  }

  /** From reading the count on: it still stands exactly while no sign-out has come. */
  ghost predicate Counting(m: Memory, id: nat, counted: nat, loadedAt: nat) {
    && loadedAt < |m.history|
    && m.history[loadedAt] == Loaded(id)
    && counted <= m.signOuts
    && (m.signOuts == counted <==> NoEnd(m.history, loadedAt, |m.history|))
    && NoAdmission(m.history, loadedAt, |m.history|)
    && (m.signOuts == counted ==> WatchedSince(m, loadedAt))
  }

  ghost predicate JobOk(c: Config, m: Memory, id: nat, place: Scope, job: Job) {
    && Counting(m, id, job.counted, job.loadedAt)
    && Decision(c, m.history, id, place, job)
    && (m.signOuts == job.counted ==> WatchedSince(m, job.since))
    && (job.live && m.signOuts == job.counted ==>
          job.reach in m.approved && job.reach in m.origin && m.origin[job.reach] == job.since)
  }

  ghost predicate MadeOk(h: History, id: nat, job: Job) {
    job.decidedAt < job.madeAt < |h| && h[job.madeAt] == Made(id, job.using)
  }

  ghost predicate LookedOk(m: Memory, id: nat, job: Job) {
    && job.madeAt < job.lookedAt < |m.history|
    && m.history[job.lookedAt].Looked? && m.history[job.lookedAt].who == Request(id)
    && m.history[job.lookedAt].saw == Unlocked
    && (m.signOuts == job.counted ==> Watched(m.history, job.since, job.lookedAt))
  }

  /** The checks are over; what they found is on record. */
  ghost predicate CheckedOk(c: Config, h: History, id: nat, place: Scope, job: Job, checkedAt: nat, ok: bool) {
    && Decision(c, h, id, place, job)
    && job.decidedAt < checkedAt < |h|
    && (if ok then h[checkedAt].Admitted? && h[checkedAt].id == id && h[checkedAt].job == job
        else h[checkedAt] == Refused(id, job) || h[checkedAt] == Failed(id, job))
  }

  /** A request that fails with its approval cut off, or with none, forgets its scope. */
  ghost predicate Cut(h: History, job: Job, checkedAt: nat) {
    !job.live || !NoEnd(h, job.loadedAt, checkedAt)
  }

  ghost predicate PcOk(c: Config, m: Memory, id: nat, place: Scope, pc: Pc) {
    match pc
    case Deciding(_, counted, loadedAt) => Counting(m, id, counted, loadedAt)
    case Releasing(job, _) => JobOk(c, m, id, place, job)
    case Dropping(job) => JobOk(c, m, id, place, job) && !job.live
    case InEnclave(job, enclave) =>
      && JobOk(c, m, id, place, job)
      && (enclave.Reading? || enclave.Agreeing? || enclave.Keeping? ==> c.endsAtLock)
      && (enclave.Taking? || enclave.Unholding? ==> !c.endsAtLock)
      && (enclave.Keeping? ==> Hold(c))
      && (c.endsAtLock && !enclave.Reading? && !enclave.Making? ==> !job.live)
    case SecondLook(job, made) =>
      && JobOk(c, m, id, place, job) && c.endsAtLock
      && (made ==> MadeOk(m.history, id, job))
      && (made && m.looking.Looker? && m.looking.who == Request(id) ==> job.madeAt < m.looking.index)
    case Admitting(job) =>
      && JobOk(c, m, id, place, job)
      && MadeOk(m.history, id, job)
      && (c.endsAtLock ==> LookedOk(m, id, job))
    case Failing(job) => JobOk(c, m, id, place, job)
    case Forgetting(job, checkedAt) =>
      CheckedOk(c, m.history, id, place, job, checkedAt, false)
    case Closing(job, checkedAt, ok) =>
      && CheckedOk(c, m.history, id, place, job, checkedAt, ok)
      && (!ok && Cut(m.history, job, checkedAt) ==> job.reach !in m.held && job.reach !in m.secrets)
    case _ => true
  }

  ghost predicate JobsOk(c: Config, s: State) {
    forall id | id in s.reqs :: PcOk(c, s.m, id, s.reqs[id].place, s.reqs[id].pc)
  }

  // ---- the shared memory

  ghost predicate LookerOk(m: Memory) {
    m.looking.Looker? ==>
      && m.looking.index < |m.history|
      && m.history[m.looking.index].Looked?
      && m.history[m.looking.index].who == m.looking.who
      && m.history[m.looking.index].saw == m.looking.saw
  }

  ghost predicate OriginOk(m: Memory, reach: Reach)
    requires reach in m.approved && reach in m.origin
  {
    var o := m.origin[reach];
    && o < |m.history|
    && Opens(m.history[o], reach)
    && m.history[o].at == m.approved[reach]
    && NoEnd(m.history, o, |m.history|)
    && WatchedSince(m, o)
  }

  ghost predicate OriginsOk(c: Config, m: Memory) {
    && m.approved.Keys == m.origin.Keys
    && (forall r | r in m.approved :: OriginOk(m, r))
    && (!Hold(c) ==> m.approved == map[])
  }

  // ---- every admission on record

  ghost predicate AdmissionOk(c: Config, h: History, a: nat)
    requires a < |h| && h[a].Admitted?
  {
    var job := h[a].job;
    && (exists place :: Decision(c, h, h[a].id, place, job))
    && MadeOk(h, h[a].id, job)
    && job.madeAt < a
    && NoEnd(h, job.loadedAt, a)
    && NoAdmission(h, job.loadedAt, a)
    && (c.endsAtLock ==>
          && job.madeAt < job.lookedAt < a
          && h[job.lookedAt].Looked? && h[job.lookedAt].who == Request(h[a].id) && h[job.lookedAt].saw == Unlocked
          && Watched(h, job.since, job.lookedAt))
  }

  ghost predicate AdmissionsOk(c: Config, h: History) {
    forall a | 0 <= a < |h| && h[a].Admitted? :: AdmissionOk(c, h, a)
  }
}
