/** Runs taken one step at a time, from wherever they begin. */
module Runs {
  import opened Seconds
  import opened Approval
  import opened Protocol

  lemma Here(c: Config, s: State)
    ensures Leads(c, s, s)
  {
    assert Path(c, [s]);
  }

  lemma StepLeads(c: Config, o: State, s: State, step: Step)
    requires Leads(c, o, s) && Enabled(c, s, step)
    ensures Leads(c, o, Apply(c, s, step))
  {
    var states :| Path(c, states) && states[0] == o && states[|states| - 1] == s;
    var s' := Apply(c, s, step);
    var longer := states + [s'];
    assert Next(c, s, s');
    forall i | 0 < i < |longer| ensures Next(c, longer[i - 1], longer[i]) {
      assert longer[i - 1] == states[i - 1];
    }
    assert longer[|longer| - 1] == s';
  }

  /** What the daemon gets to from a state it can be in, it can be in. */
  lemma LeadsOn(c: Config, o: State, s: State)
    requires Reachable(c, o) && Leads(c, o, s)
    ensures Reachable(c, s)
  {
    var first :| Run(c, first) && first[|first| - 1] == o;
    var later :| Path(c, later) && later[0] == o && later[|later| - 1] == s;
    var n := |first|;
    var whole := first + later[1..];
    forall i | 0 < i < |whole| ensures Next(c, whole[i - 1], whole[i]) {
      if i >= n {
        assert whole[i] == later[i - n + 1] && whole[i - 1] == later[i - n];
      }
    }
    assert whole[|whole| - 1] == s;
    assert Run(c, whole);
  }

  lemma StartIsReachable(c: Config, s: State)
    requires Init(s)
    ensures Reachable(c, s)
  {
    assert Run(c, [s]);
  }

  /** Request `id` takes its next step. */
  lemma Moves(c: Config, o: State, s: State, id: nat, ch: Choice) returns (s': State)
    requires Leads(c, o, s) && id in s.reqs && RequestEnabled(s.m, id, s.reqs[id].pc, ch)
    ensures Leads(c, o, s') && s'.watch == s.watch && id in s'.reqs && s'.reqs[id].place == s.reqs[id].place
    ensures (s'.m, s'.reqs[id].pc) == RequestStep(c, s.m, id, s.reqs[id].place, s.reqs[id].pc, ch)
    ensures s'.reqs.Keys == s.reqs.Keys
  {
    s' := Apply(c, s, Go(Request(id), ch));
    StepLeads(c, o, s, Go(Request(id), ch));
  }

  /** The screen watch takes its next step. */
  lemma WatchMoves(c: Config, o: State, s: State, ch: Choice) returns (s': State)
    requires Leads(c, o, s) && WatchEnabled(c, s.m, s.watch, ch)
    ensures Leads(c, o, s') && s'.reqs == s.reqs
    ensures (s'.m, s'.watch) == WatchStep(c, s.m, s.watch, ch)
  {
    s' := Apply(c, s, Go(Watch, ch));
    StepLeads(c, o, s, Go(Watch, ch));
  }

  lemma Arrives(c: Config, o: State, s: State, id: nat, place: Scope) returns (s': State)
    requires Leads(c, o, s) && id !in s.reqs
    ensures Leads(c, o, s') && s'.m == s.m && s'.watch == s.watch && s'.reqs == s.reqs[id := Req(place, Arriving)]
  {
    s' := Apply(c, s, Arrive(id, place));
    StepLeads(c, o, s, Arrive(id, place));
  }

  /** Time goes on to what the clock is about to read. */
  lemma TicksTo(c: Config, o: State, s: State, t: Float) returns (s': State)
    requires Leads(c, o, s) && (t.Val? ==> t.v >= s.m.now)
    ensures Leads(c, o, s') && s' == s.(m := s.m.(now := if t.Val? then t.v else s.m.now))
  {
    s' := s;
    if t.Val? {
      s' := Apply(c, s, Tick(t.v - s.m.now));
      StepLeads(c, o, s, Tick(t.v - s.m.now));
    }
  }
}
