/** What the protocol promises, over every run. */
module Safety {
  import opened Seconds
  import opened Basics
  import opened Approval
  import opened Protocol
  import opened Locks
  import opened Records
  import opened Timeline
  import opened Cache
  import opened Riders
  import opened Invariant
  import opened Turns
  import opened Contexts
  import opened Ledger

  // ---- every signature that goes back

  /** A signature is returned to a request exactly once it has been admitted, and a failure
      exactly when it never is. */
  lemma OnlyTheAdmittedAreAnswered(c: Config, s: State, k: nat)
    requires Reachable(c, s) && k < |s.m.history| && s.m.history[k].Replied?
    ensures s.m.history[k].ok ==> AdmittedBefore(s.m.history, k, s.m.history[k].id)
    ensures !s.m.history[k].ok ==> NoAdmissionOf(s.m.history, s.m.history[k].id)
  {
    ReachableInv(c, s);
  }

  /** The opening at `o` is what the live request admitted at `a` rode: decided at `d`, when
      the opening was less than one window old. No sign-out falls between the two. */
  ghost predicate RodeOpening(c: Config, h: History, o: int, d: int, a: int) {
    && 0 <= o < d < a < |h| && h[a].Admitted?
    && Opens(h[o], h[a].job.reach)
    && h[d].Decided? && h[d].id == h[a].id && h[d].reach == h[a].job.reach && h[d].live
    && h[d].at.Val? && h[o].at.Val? && Window(c).Val? && h[d].at.v - h[o].at.v < Window(c).v
    && NoEnd(h, o, a)
  }

  /** The record an admission leaves, with the decision it came from. */
  lemma AdmissionRecord(c: Config, s: State, a: nat) returns (place: Scope)
    requires Reachable(c, s) && a < |s.m.history| && s.m.history[a].Admitted?
    ensures AdmissionOk(c, s.m.history, a) && UseOk(c, s.m.history, a)
    ensures Decision(c, s.m.history, s.m.history[a].id, place, s.m.history[a].job)
  {
    ReachableInv(c, s);
    assert AdmissionOk(c, s.m.history, a) && UseOk(c, s.m.history, a);
    place :| Decision(c, s.m.history, s.m.history[a].id, place, s.m.history[a].job);
  }

  lemma HistoryInOrder(c: Config, s: State)
    requires Reachable(c, s)
    ensures Ordered(s.m.history) && Chained(s.m.history) && DecisionsOk(c, s.m.history)
  {
    ReachableInv(c, s);
  }

  /** A silent signature rests on an opening of its own reach, less than one window old when
      the request was decided, with both clocks readable and no sign-out since. */
  lemma RidersRideAnOpening(c: Config, s: State, a: nat)
    requires Reachable(c, s) && a < |s.m.history| && s.m.history[a].Admitted? && s.m.history[a].job.live
    ensures exists o, d :: RodeOpening(c, s.m.history, o, d, a)
    ensures RodeOpening(c, s.m.history, s.m.history[a].job.since, s.m.history[a].job.decidedAt, a)
  {
    var place := AdmissionRecord(c, s, a);
    var h, job := s.m.history, s.m.history[a].job;
    assert Rides(c, h, job);
    assert NoEnd(h, job.since, a) by {
      forall k | 0 <= k < |h| && job.since < k < a ensures !h[k].Ended? {
        assert k < job.decidedAt || job.loadedAt < k;
      }
    }
    assert RodeOpening(c, s.m.history, job.since, job.decidedAt, a);
  }

  /** At `l`, after its signature was made at `m`, request `id` took its own second look and
      saw an unlocked screen; so did every look after `o` up to it, none of them three
      seconds or more after the look before. */
  ghost predicate Vouched(h: History, id: nat, o: int, m: int, l: int, a: int) {
    && 0 <= m < l < a < |h|
    && h[m].Made? && h[m].id == id
    && h[l].Looked? && h[l].who == Request(id) && h[l].saw == Unlocked
    && (forall k | 0 <= k < |h| && o < k <= l && h[k].Looked? ::
          h[k].saw == Unlocked && h[k].before.Val? && h[k].at.Val? && h[k].at.v - h[k].before.v < 3.0)
    && Chained(h)
  }

  /** With a sign-in key, no silent signature crosses a lock that any look, or any gap
      between looks, could have shown since the sign-in it rides. */
  lemma SilentSignaturesWereWatched(c: Config, s: State, a: nat)
    requires Reachable(c, s) && c.endsAtLock
    requires a < |s.m.history| && s.m.history[a].Admitted? && s.m.history[a].job.live
    ensures exists o, d, m, l :: d < m && RodeOpening(c, s.m.history, o, d, a)
                                 && Vouched(s.m.history, s.m.history[a].id, o, m, l, a)
  {
    RidersRideAnOpening(c, s, a);
    HistoryInOrder(c, s);
    var place := AdmissionRecord(c, s, a);
    var h, job := s.m.history, s.m.history[a].job;
    assert Vouched(h, h[a].id, job.since, job.madeAt, job.lookedAt, a);
  }

  /** The request that signs in is held to the same screen, from reading the count of
      sign-outs on. */
  lemma SignInsWereWatched(c: Config, s: State, a: nat)
    requires Reachable(c, s) && c.endsAtLock
    requires a < |s.m.history| && s.m.history[a].Admitted? && !s.m.history[a].job.live
    ensures exists l0, m, l :: 0 <= l0 < m && Vouched(s.m.history, s.m.history[a].id, l0, m, l, a)
              && s.m.history[l0] == Loaded(s.m.history[a].id) && NoEnd(s.m.history, l0, a)
  {
    HistoryInOrder(c, s);
    var place := AdmissionRecord(c, s, a);
    var h, job := s.m.history, s.m.history[a].job;
    assert Vouched(h, h[a].id, job.loadedAt, job.madeAt, job.lookedAt, a);
  }

  /** Request `id` returned a signature made with what request `opener` put in the enclave
      half, after a Touch ID answered for `opener` when the daemon asks at all. */
  ghost predicate MadeWith(c: Config, h: History, id: nat, opener: nat, a: int) {
    exists m :: 0 <= m < |h| && m < a && h[m] == Made(id, opener) && (c.approve ==> PassedBefore(h, m, opener))
  }

  /** Every request of `reach` decided between two places could read the clock. */
  ghost predicate Sighted(h: History, reach: Reach, lo: int, hi: int) {
    forall k | 0 <= k < |h| && lo < k < hi && h[k].Decided? && h[k].reach == reach :: h[k].at.Val?
  }

  /** Nothing drops a plain key's context between the opening and the check of a rider, if
      the requests of that reach in between could read the clock. */
  lemma NothingDropped(c: Config, h: History, a: nat)
    requires DecisionsOk(c, h) && Ordered(h) && a < |h| && h[a].Admitted? && h[a].job.live && CheckOk(h, a)
    requires RodeOpening(c, h, h[a].job.since, h[a].job.decidedAt, a)
    requires Sighted(h, h[a].job.reach, h[a].job.since, h[a].job.decidedAt)
    ensures forall k | h[a].job.since < k < a :: !Drops(h[k], h[a].job.reach)
  {
    var job := h[a].job;
    forall k | job.since < k < a ensures !Drops(h[k], job.reach) {
      if Drops(h[k], job.reach) {
        OnlyTheClock(c, h, job.reach, job.since, k, job.decidedAt);
      }
    }
  }

  /** With a plain key, a rider nobody of its reach misread the clock before signs with what
      the opener put there. */
  lemma PlainRiderUsesTheOpeners(c: Config, s: State, a: nat)
    requires Reachable(c, s) && !c.endsAtLock
    requires a < |s.m.history| && s.m.history[a].Admitted? && s.m.history[a].job.live
    requires var job := s.m.history[a].job; Sighted(s.m.history, job.reach, job.since, job.decidedAt)
    ensures s.m.history[a].job.since < a && s.m.history[s.m.history[a].job.since].Admitted?
    ensures s.m.history[s.m.history[a].job.since].id == s.m.history[a].job.using
  {
    var h, job := s.m.history, s.m.history[a].job;
    RidersRideAnOpening(c, s, a);
    HistoryInOrder(c, s);
    ReachableLedger(c, s);
    assert CheckOk(h, a);
    NothingDropped(c, h, a);
    assert RecordOk(c, h[..a], h[a]);
    StillTheOpeners(c, h, job.reach, job.since, a);
  }

  /** Whose Touch ID a silent signature rests on: the one answered in the very request whose
      admission opened the approval. For a plain key that takes a clock that read for the
      requests of that reach since. */
  lemma OneTouchPerOpening(c: Config, s: State, a: nat)
    requires Reachable(c, s) && a < |s.m.history| && s.m.history[a].Admitted?
    requires var job := s.m.history[a].job;
      c.endsAtLock || (job.live ==> Sighted(s.m.history, job.reach, job.since, job.decidedAt))
    ensures !s.m.history[a].job.live ==> MadeWith(c, s.m.history, s.m.history[a].id, s.m.history[a].id, a)
    ensures s.m.history[a].job.live ==>
      exists o, d :: RodeOpening(c, s.m.history, o, d, a)
        && MadeWith(c, s.m.history, s.m.history[a].id, s.m.history[o].id, a)
  {
    var place := AdmissionRecord(c, s, a);
    var h, job := s.m.history, s.m.history[a].job;
    assert h[job.madeAt] == Made(h[a].id, job.using);
    assert MadeWith(c, h, h[a].id, job.using, a);
    if job.live {
      RidersRideAnOpening(c, s, a);
      if !c.endsAtLock {
        PlainRiderUsesTheOpeners(c, s, a);
      }
      assert h[job.since].id == job.using;
    }
  }

  /** Every signature that goes back with `approve` on was made with something a Touch ID
      released first, in whatever state the clock was. */
  lemma NothingWithoutATouch(c: Config, s: State, a: nat)
    requires Reachable(c, s) && c.approve && a < |s.m.history| && s.m.history[a].Admitted?
    ensures exists opener :: MadeWith(c, s.m.history, s.m.history[a].id, opener, a)
  {
    var place := AdmissionRecord(c, s, a);
    var job := s.m.history[a].job;
    assert s.m.history[job.madeAt] == Made(s.m.history[a].id, job.using);
    assert MadeWith(c, s.m.history, s.m.history[a].id, job.using, a);
  }

  /** A request the daemon counts as covered raises no sheet of its own: never with a
      sign-in key, and with a plain one not before a request of its reach has misread the
      clock. */
  lemma RidersAreSilent(c: Config, s: State, k: nat)
    requires Reachable(c, s) && k < |s.m.history| && s.m.history[k].Asked?
    requires c.endsAtLock || !BlindBefore(s.m.history, s.m.history[k].reach, k)
    ensures !s.m.history[k].riding
  {
    var h := s.m.history;
    ReachableInv(c, s);
    ReachableLedger(c, s);
    if !c.endsAtLock && h[k].riding {
      assert RecordOk(c, h[..k], h[k]);
    }
  }

  /** Riding moves no stamp: whatever has happened since, an approval in the table bears the
      stamp of its own opening, the last of its reach, with no sign-out after it. */
  lemma RidingExtendsNothing(c: Config, s: State, r: Reach)
    requires Reachable(c, s) && r in s.m.approved
    ensures exists o: nat :: o < |s.m.history| && Opens(s.m.history[o], r) && s.m.history[o].at == s.m.approved[r]
              && NoOpening(s.m.history, r, o, |s.m.history|) && NoEnd(s.m.history, o, |s.m.history|)
  {
    ReachableInv(c, s);
    ReachableLedger(c, s);
    assert OriginOk(s.m, r);
    assert NoOpening(s.m.history, r, s.m.origin[r], |s.m.history|);
  }

  // ---- sign-outs

  /** No sign-out falls between reading the count and being admitted. */
  lemma AdmittedUncut(c: Config, s: State, id: nat)
    requires Reachable(c, s) && id in s.reqs && s.reqs[id].pc.Closing? && s.reqs[id].pc.ok
    ensures NoEnd(s.m.history, s.reqs[id].pc.job.loadedAt, s.reqs[id].pc.checkedAt)
  {
    ReachableInv(c, s);
    assert PcOk(c, s.m, id, s.reqs[id].place, s.reqs[id].pc);
    assert AdmissionOk(c, s.m.history, s.reqs[id].pc.checkedAt);
  }

  /** A sign-out between reading the count and the check against it: the request fails, it
      never opens anything, and the enclave holds nothing of it when the gate is let go. */
  lemma SignOutLeavesNothingBehind(c: Config, s: State, id: nat)
    requires Reachable(c, s) && id in s.reqs && s.reqs[id].pc.Closing?
    requires var pc := s.reqs[id].pc; !NoEnd(s.m.history, pc.job.loadedAt, pc.checkedAt)
    ensures var pc := s.reqs[id].pc;
      && pc.job.loadedAt < |s.m.history| && s.m.history[pc.job.loadedAt] == Loaded(id)
      && !pc.ok && NoAdmissionOf(s.m.history, id)
      && !Held(s.m, pc.job.reach)
      && (forall r | r in s.m.approved :: !OpenedBy(s.m, r, id))
  {
    var pc := s.reqs[id].pc;
    if pc.ok {
      AdmittedUncut(c, s, id);
    }
    ReachableInv(c, s);
    assert PcOk(c, s.m, id, s.reqs[id].place, pc);
  }

  /** A request that failed without riding anything leaves nothing behind either. */
  lemma FailureLeavesNothingBehind(c: Config, s: State, id: nat)
    requires Reachable(c, s) && id in s.reqs && s.reqs[id].pc.Closing?
    requires var pc := s.reqs[id].pc; !pc.ok && !pc.job.live
    ensures !Held(s.m, s.reqs[id].pc.job.reach) && NoAdmissionOf(s.m.history, id)
  {
    ReachableInv(c, s);
    assert PcOk(c, s.m, id, s.reqs[id].place, s.reqs[id].pc);
  }

  /** Whatever the enclave half holds is approved, unless a sign-out is about to wipe it or
      the thread past the gate answers for it. */
  lemma HeldIsAccountedFor(c: Config, s: State, r: Reach)
    requires Reachable(c, s) && Held(s.m, r)
    ensures r in s.m.approved || r in Loose(s) || AboutToWipe(s.m)
  {
    ReachableInv(c, s);
  }

  /** With `sign_gate` and `looked` both free, held means approved. */
  lemma HeldIsApproved(c: Config, s: State, r: Reach)
    requires Reachable(c, s) && s.m.gate.Free? && s.m.looking.Nobody?
    ensures Held(s.m, r) ==> r in s.m.approved
  {
    ReachableInv(c, s);
  }

  lemma StandingIsHeld(c: Config, m: Memory, r: Reach)
    requires Settled(c, m, r) && OriginsOk(c, m) && OriginLast(m)
    requires DecisionsOk(c, m.history) && FreshOk(c, m) && r in m.approved && m.approved[r].Val?
    requires Sighted(m.history, r, m.origin[r], |m.history|)
    ensures r in m.held
  {
    assert OriginOk(m, r);
    NoHolderMeansLost(c, m.history, r, m.origin[r]);
    if k :| m.origin[r] < k && LostAt(c, m.history, r, k) {
      OnlyTheClockNow(c, m, r, k);
    }
  }

  /** With a plain key, held means approved; and an approval whose own stamp could be read
      is held, if every request of its reach since could read the clock. */
  lemma PlainHeldIsApproved(c: Config, s: State, r: Reach)
    requires Reachable(c, s) && !c.endsAtLock && s.m.gate.Free?
    ensures r in s.m.held ==> r in s.m.approved
    ensures r in s.m.approved ==> r in s.m.origin
    ensures r in s.m.approved && s.m.approved[r].Val? && Sighted(s.m.history, r, s.m.origin[r], |s.m.history|) ==> r in s.m.held
  {
    ReachableInv(c, s);
    HeldByTheHistory(c, s, r);
    ReachableLedger(c, s);
    if r in s.m.approved && s.m.approved[r].Val? && Sighted(s.m.history, r, s.m.origin[r], |s.m.history|) {
      StandingIsHeld(c, s.m, r);
    }
  }

  // ---- time

  /** A clock that cannot be read covers nobody, at either end. */
  lemma UnreadableCoversNobody(c: Config, s: State, d: nat)
    requires Reachable(c, s) && d < |s.m.history| && s.m.history[d].Decided? && s.m.history[d].live
    ensures s.m.history[d].at.Val?
    ensures var last := LastOpening(s.m.history[..d], s.m.history[d].reach); last.Some? && last.value.Val?
  {
    DecidedByTheWholeHistory(c, s, d);
  }

  /** What the last opening since the last sign-out is. */
  lemma {:induction false} LastOpeningIs(h: History, reach: Reach) returns (o: nat)
    requires LastOpening(h, reach).Some?
    ensures o < |h| && Opens(h[o], reach) && h[o].at == LastOpening(h, reach).value
    ensures NoEnd(h, o, |h|) && NoOpening(h, reach, o, |h|)
  {
    var n := |h| - 1;
    if Opens(h[n], reach) {
      o := n;
    } else {
      o := LastOpeningIs(h[..n], reach);
      assert h[o] == h[..n][o];
      assert forall k | o < k < n :: h[k] == h[..n][k];
    }
  }

  lemma {:induction false} LastOpeningAfter(h: History, i: nat, reach: Reach)
    requires i < |h| && Opens(h[i], reach) && NoEnd(h, i, |h|)
    ensures exists j :: i <= j < |h| && Opens(h[j], reach) && LastOpening(h, reach) == Some(h[j].at)
  {
    var e := h[|h| - 1];
    if Opens(e, reach) {
      assert LastOpening(h, reach) == Some(h[|h| - 1].at);
    } else {
      var front := h[..|h| - 1];
      LastOpeningAfter(front, i, reach);
      var j :| i <= j < |front| && Opens(front[j], reach) && LastOpening(front, reach) == Some(front[j].at);
      assert h[j] == front[j];
    }
  }

  /** `o` opened `reach`, last of all since the last sign-out, less than one window before `now`. */
  ghost predicate CoversAt(c: Config, h: History, reach: Reach, o: int, now: Float) {
    && 0 <= o < |h| && Opens(h[o], reach) && NoEnd(h, o, |h|) && NoOpening(h, reach, o, |h|)
    && now.Val? && h[o].at.Val? && Window(c).Val? && Window(c).v > 0.0 && now.v - h[o].at.v < Window(c).v
  }

  /** The pruned table answers as the whole history would: a request is live exactly when
      the last opening of its reach came after the last sign-out and is less than one
      window old. */
  lemma DecidedByTheWholeHistory(c: Config, s: State, d: nat)
    requires Reachable(c, s) && d < |s.m.history| && s.m.history[d].Decided?
    ensures var e := s.m.history[d];
      e.live <==> Approves(c, s.m.history[..d], e.reach, e.at)
    ensures var e := s.m.history[d];
      e.live <==> exists o :: CoversAt(c, s.m.history[..d], e.reach, o, e.at)
  {
    ReachableInv(c, s);
    ApprovesByAnOpening(c, s.m.history[..d], s.m.history[d].reach, s.m.history[d].at);
  }

  lemma ApprovesByAnOpening(c: Config, h: History, reach: Reach, now: Float)
    ensures Approves(c, h, reach, now) <==> exists o :: CoversAt(c, h, reach, o, now)
  {
    if Approves(c, h, reach, now) {
      var o := LastOpeningIs(h, reach);
      assert CoversAt(c, h, reach, o, now);
    }
    if o: nat :| CoversAt(c, h, reach, o, now) {
      LastOpeningAfter(h, o, reach);
    }
  }

  /** Every opening of `reach`, and every request of it, from `lo` to `hi` has a readable
      stamp. */
  ghost predicate Legible(h: History, reach: Reach, lo: int, hi: int) {
    forall k | 0 <= k < |h| && lo <= k <= hi && (Opens(h[k], reach) || (h[k].Decided? && h[k].reach == reach)) :: h[k].at.Val?
  }

  /** Two openings of the same reach with no sign-out between them are at least one window
      apart, however many requests run at once. */
  lemma OpeningsAreAWindowApart(c: Config, s: State, i: nat, j: nat, reach: Reach)
    requires Reachable(c, s) && Hold(c)
    requires i < j < |s.m.history| && Opens(s.m.history[i], reach) && Opens(s.m.history[j], reach)
    requires NoEnd(s.m.history, i, j) && Legible(s.m.history, reach, i, j)
    ensures s.m.history[j].at.v - s.m.history[i].at.v >= Window(c).v
  {
    var h, job := s.m.history, s.m.history[j].job;
    var place := AdmissionRecord(c, s, j);
    HistoryInOrder(c, s);
    assert i < job.loadedAt;
    LaterThanAWindow(c, h, i, job.decidedAt, reach);
    assert Stamp(h[job.decidedAt]).v <= Stamp(h[j]).v;
  }

  /** A request that is not live although its reach was opened and nobody signed out comes a
      whole window later. */
  lemma LaterThanAWindow(c: Config, h: History, i: nat, d: nat, reach: Reach)
    requires DecisionsOk(c, h) && Ordered(h) && Legible(h, reach, i, d) && Hold(c)
    requires i < d < |h| && Opens(h[i], reach) && NoEnd(h, i, d)
    requires h[d].Decided? && h[d].reach == reach && !h[d].live
    ensures h[d].at.v - h[i].at.v >= Window(c).v
  {
    var before := h[..d];
    assert forall k | 0 <= k < d :: before[k] == h[k];
    LastOpeningAfter(before, i, reach);
    var k :| i <= k < d && Opens(before[k], reach) && LastOpening(before, reach) == Some(before[k].at);
    assert h[k] == before[k] && h[k].Admitted?;
    assert h[k].at.Val? && h[d].at.Val?;
    assert Stamp(h[i]).v <= Stamp(h[k]).v;
  }

  /** A request or an opening of `reach` that could not read the clock. */
  predicate Unreadable(e: Event, reach: Reach) {
    (Opens(e, reach) || (e.Decided? && e.reach == reach)) && e.at.NaN?
  }

  /** The one way two openings come closer: a reading of that reach between them failed. */
  lemma CloserThanAWindow(c: Config, s: State, i: nat, j: nat, reach: Reach)
    requires Reachable(c, s) && Hold(c)
    requires i < j < |s.m.history| && Opens(s.m.history[i], reach) && Opens(s.m.history[j], reach)
    requires s.m.history[i].at.Val? && s.m.history[j].at.Val? && NoEnd(s.m.history, i, j)
    requires s.m.history[j].at.v - s.m.history[i].at.v < Window(c).v
    ensures exists k :: i < k < j && Unreadable(s.m.history[k], reach)
  {
    if forall k | i < k < j :: !Unreadable(s.m.history[k], reach) {
      OpeningsAreAWindowApart(c, s, i, j, reach);
    }
  }

  function Openings(h: History, reach: Reach, lo: nat, hi: nat): nat
    requires lo <= hi <= |h|
  {
    if lo == hi then 0 else Openings(h, reach, lo, hi - 1) + (if Opens(h[hi - 1], reach) then 1 else 0)
  }

  /** `n` windows end to end. */
  function Windows(n: nat, w: real): real {
    if n == 0 then 0.0 else Windows(n - 1, w) + w
  }

  lemma {:induction false} WindowsAre(n: nat, w: real)
    ensures Windows(n, w) == n as real * w
  {
    if n > 0 {
      WindowsAre(n - 1, w);
    }
  }

  /** The last of `n` openings comes at least `n - 1` windows after the first. */
  lemma {:induction false} OpeningsSpread(c: Config, s: State, reach: Reach, lo: nat, hi: nat) returns (first: nat, last: nat)
    requires Reachable(c, s) && Hold(c)
    requires lo <= hi <= |s.m.history| && NoEnd(s.m.history, lo - 1, hi) && Legible(s.m.history, reach, lo, hi - 1)
    requires Openings(s.m.history, reach, lo, hi) > 0
    ensures lo <= first <= last < hi && Opens(s.m.history[first], reach) && Opens(s.m.history[last], reach)
    ensures s.m.history[last].at.v - s.m.history[first].at.v >= Windows(Openings(s.m.history, reach, lo, hi) - 1, Window(c).v)
    decreases hi
  {
    var h := s.m.history;
    if !Opens(h[hi - 1], reach) {
      first, last := OpeningsSpread(c, s, reach, lo, hi - 1);
    } else if Openings(h, reach, lo, hi - 1) == 0 {
      first, last := hi - 1, hi - 1;
    } else {
      first, last := OpeningsSpread(c, s, reach, lo, hi - 1);
      OpeningsAreAWindowApart(c, s, last, hi - 1, reach);
      last := hi - 1;
    }
  }

  /** The prompt rate: a stretch without a sign-out, whose readings span `stretch` seconds,
      opens one reach at most once more than the whole windows that fit in it. */
  lemma PromptRate(c: Config, s: State, reach: Reach, lo: nat, hi: nat, start: real, stretch: real)
    requires Reachable(c, s) && Hold(c) && stretch >= 0.0
    requires lo <= hi <= |s.m.history| && NoEnd(s.m.history, lo - 1, hi) && Legible(s.m.history, reach, lo, hi - 1)
    requires forall k | lo <= k < hi && Opens(s.m.history[k], reach) :: start <= s.m.history[k].at.v <= start + stretch
    ensures Openings(s.m.history, reach, lo, hi) <= (stretch / Window(c).v).Floor + 1
  {
    if Openings(s.m.history, reach, lo, hi) > 0 {
      var first, last := OpeningsSpread(c, s, reach, lo, hi);
      WindowsAre(Openings(s.m.history, reach, lo, hi) - 1, Window(c).v);
      WindowsFit(Openings(s.m.history, reach, lo, hi) - 1, Window(c).v,
                 s.m.history[last].at.v - s.m.history[first].at.v, stretch);
    }
  }

  lemma WindowsFit(n: nat, w: real, gap: real, stretch: real)
    requires w > 0.0 && n as real * w <= gap <= stretch
    ensures n <= (stretch / w).Floor
  {
    var q := stretch / w;
    assert q * w == stretch;
    assert (q - n as real) * w >= 0.0;
    assert q - n as real >= 0.0;
  }

  // ---- locks

  /** However many requests run, one at most is past the gate, and one at most in the
      enclave. */
  lemma OneInTheEnclave(c: Config, s: State, id: nat, other: nat)
    requires Reachable(c, s) && id in s.reqs && other in s.reqs
    requires s.reqs[id].pc.InEnclave? && s.reqs[other].pc.InEnclave?
    ensures id == other
  {
    ReachableInv(c, s);
    OneInside(c, s, id, other);
  }

  /** No reachable state is stuck. */
  lemma NeverStuck(c: Config, s: State, id: nat)
    requires Reachable(c, s) && Unfinished(s, id)
    ensures exists who :: CanRun(c, s, who) && Counts(s, who)
  {
    ReachableInv(c, s);
    NoDeadlock(c, s, id);
  }
}
