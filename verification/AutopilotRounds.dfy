/** Integrations of one goal: within a process no two that complete build a branch of the same round. */
module AutopilotRounds {
  import opened Families
  import opened AutopilotState
  import opened AutopilotRuns

  /** This tick takes the result of an integration that built its branch, even one that is discarded as stale. */
  predicate Builds(r: Run, step: Step) { step.Ticks? && r.job && step.view.integration == Some(true) }

  /** This tick starts an integration. */
  predicate Integrates(r: Run, step: Step) {
    step.Ticks? && Tick(r, step.view).0.job && !PollIntegration(r, step.view).job
  }

  /** The round that named the branch of the latest integration, read from the record when it was started. */
  function JobRound(w: World, moves: seq<Move>): nat {
    if |moves| == 0 then 0
    else
      var n := |moves| - 1;
      var r, step := Play(w, moves[..n]).run, moves[n].step;
      if Integrates(r, step) && Do(r, step).saved.Some? then Do(r, step).saved.value.round else JobRound(w, moves[..n])
  }

  /** The rounds of the branches built in these moves, in order. */
  function BuiltRounds(w: World, moves: seq<Move>): seq<nat> {
    if |moves| == 0 then []
    else
      var n := |moves| - 1;
      BuiltRounds(w, moves[..n])
      + (if Builds(Play(w, moves[..n]).run, moves[n].step) then [JobRound(w, moves[..n])] else [])
  }

  predicate Ascending(ns: seq<nat>) { forall i, j | 0 <= i < j < |ns| :: ns[i] < ns[j] }

  predicate AllBelow(ns: seq<nat>, n: nat) { forall i | 0 <= i < |ns| :: ns[i] < n }

  /** The rounds built so far lie below the next one to build; `job` is the round of the running integration. */
  predicate RoundsKept(r: Run, built: seq<nat>, job: nat) {
    && Ascending(built)
    && (r.job ==>
          && r.saved.Some? && AllBelow(built, job)
          && r.saved.value.round == job + (if r.saved.value.stale then 1 else 0))
    && (r.saved.Some? && !r.job && !r.saved.value.phase.Finishing? ==>
          AllBelow(built, r.saved.value.round + (if r.Finished() && r.saved.value.branch.Some? then 1 else 0)))
  }

  lemma {:induction false} BelowGrows(ns: seq<nat>, n: nat, m: nat)
    requires AllBelow(ns, n) && n <= m
    ensures AllBelow(ns, m)
  {
  }

  lemma {:induction false} OneMoreBuilt(ns: seq<nat>, n: nat)
    requires Ascending(ns) && AllBelow(ns, n)
    ensures Ascending(ns + [n]) && AllBelow(ns + [n], n + 1)
  {
  }

  lemma {:induction false} PollKeepsRounds(r: Run, v: View, built: seq<nat>, job: nat)
    requires Sound(r) && RoundsKept(r, built, job)
    ensures RoundsKept(PollIntegration(r, v), built + (if Builds(r, Ticks(v)) then [job] else []), job)
  {
    if r.job && v.integration.Some? {
      if v.integration.value { OneMoreBuilt(built, job); } else { BelowGrows(built, job, job + 1); assert built + [] == built; }
    } else {
      assert built + [] == built;
    }
  }

  lemma {:induction false} ReenterKeepsRounds(r: Run, v: View, built: seq<nat>, job: nat)
    requires Sound(r) && RoundsKept(r, built, job)
    ensures RoundsKept(Reenter(r, v), built, job) && Reenter(r, v).job == r.job
  {
  }

  /** What an active run's decision leaves: the same round, and a job only in the finishing phase. */
  predicate SameRound(r: Run, c: Run) {
    && r.saved.Some? && c.saved.Some? && c.saved.value.round == r.saved.value.round
    && c.saved.value.stale == r.saved.value.stale && (r.job ==> c.job)
    && (c.saved.value.branch.None? || c.saved.value.branch == r.saved.value.branch)
  }

  lemma {:induction false} FailKeepsRound(r: Run, s: Snapshot, reentrant: bool)
    requires r.Active()
    ensures var c := Fail(r, s, reentrant); SameRound(r, c) && c.job == r.job && c.saved.value.phase.Failed?
  {
  }

  lemma {:induction false} AdvanceKeepsRound(r: Run, phase: Phase)
    requires r.Active() && !phase.Done? && !phase.Failed?
    ensures var c := Advance(r, phase); SameRound(r, c) && c.job == r.job && c.saved.value.phase == phase
  {
  }

  lemma {:induction false} PlannedKeepsRound(r: Run, first: nat, count: nat)
    requires r.Active()
    ensures var c := Advance(r.(saved := Some(r.saved.value.(first := Some(first), count := count))), Phase.Running);
            SameRound(r, c) && c.job == r.job && c.saved.value.phase.Running?
  {
    AdvanceKeepsRound(r.(saved := Some(r.saved.value.(first := Some(first), count := count))), Phase.Running);
  }

  lemma {:induction false} GoingOnKeepsRound(r: Run, v: View)
    requires r.Active() && v.snapshot.Some? && !r.saved.value.phase.Running? && !r.saved.value.phase.Finishing? && v.early.GoOn?
    ensures SameRound(r, EarlyStep(r, v).0) && EarlyStep(r, v).0.job == r.job
    ensures !EarlyStep(r, v).0.saved.value.phase.Finishing?
  {
    if r.saved.value.phase.Scoping? {
      AdvanceKeepsRound(r, Phase.Planning);
    } else if r.saved.value.phase.Planning? {
      AdvanceKeepsRound(r, Phase.Saving);
    } else {
      PlannedKeepsRound(r, v.early.first, v.early.count);
    }
  }

  lemma {:induction false} EarlyKeepsRound(r: Run, v: View)
    requires r.Active() && v.snapshot.Some? && !r.saved.value.phase.Running? && !r.saved.value.phase.Finishing?
    ensures SameRound(r, EarlyStep(r, v).0) && EarlyStep(r, v).0.job == r.job
    ensures !EarlyStep(r, v).0.saved.value.phase.Finishing?
  {
    if v.early.GoOn? {
      GoingOnKeepsRound(r, v);
    } else if v.early.GiveUp? {
      FailKeepsRound(r, v.snapshot.value, false);
    } else {
      assert EarlyStep(r, v).0 == r;
    }
  }

  lemma {:induction false} IntegrateKeepsRound(r: Run, v: View, fs: seq<Family>)
    requires r.Active() && v.snapshot.Some? && !r.saved.value.phase.Finishing?
    ensures SameRound(r, Integrate(r, v, fs))
    ensures Integrate(r, v, fs).saved.value.phase.Finishing? ==> Integrate(r, v, fs).job
    ensures !Integrate(r, v, fs).saved.value.phase.Finishing? ==> Integrate(r, v, fs).job == r.job
  {
  }

  lemma {:induction false} RecoveredKeepsRound(r: Run, s: Snapshot, c: Run)
    requires r.Active() && SameRound(SettleRecovered(r, s), c)
    ensures SameRound(r, c) && SettleRecovered(r, s).Active() && SettleRecovered(r, s).job == r.job
    ensures SettleRecovered(r, s).saved.value.phase == r.saved.value.phase
  {
  }

  lemma {:induction false} RunningKeepsRound(r: Run, v: View)
    requires r.Active() && v.snapshot.Some? && r.saved.value.phase.Running?
    ensures SameRound(r, RunningStep(r, v).0)
    ensures var c := RunningStep(r, v).0;
            if c.saved.value.phase.Finishing? then c.job else c.job == r.job
  {
    var s := v.snapshot.value;
    var settled := SettleRecovered(r, s);
    assert SameRound(settled, settled);
    RecoveredKeepsRound(r, s, settled);
    var fs := FamiliesOf(s, v.control, settled.saved.value);
    DecidedKeepsRound(settled, v, fs, RunningStep(r, v).0);
    RecoveredKeepsRound(r, s, RunningStep(r, v).0);
  }

  /** A decision ends the run, starts the integration, or changes at most what is being recovered. */
  lemma {:induction false} DecidedKeepsRound(r: Run, v: View, fs: seq<Family>, c: Run)
    requires r.Active() && v.snapshot.Some? && r.saved.value.phase.Running?
    requires (v.stop.Some? && c == Fail(r, v.snapshot.value, v.stop.value)) || c == Integrate(r, v, fs)
             || c == r.(recovering := c.recovering)
    ensures SameRound(r, c) && (if c.saved.value.phase.Finishing? then c.job else c.job == r.job)
  {
    IntegrateKeepsRound(r, v, fs);
    if v.stop.Some? { FailKeepsRound(r, v.snapshot.value, v.stop.value); }
  }

  lemma {:induction false} AdmitKeepsRound(r: Run, key: Key, refused: bool)
    requires r.saved.Some?
    ensures var c := Admit(r, key, refused).0;
            && SameRound(r, c) && c.job == r.job && c.saved.value.phase == r.saved.value.phase
            && c.saved.value.branch == r.saved.value.branch
  {
  }

  lemma {:induction false} ChosenKeepsRound(r: Run, v: View)
    requires Sound(r) && !Waits(r, v)
    ensures var c := Choose(r, v).0;
            SameRound(r, c) && (if c.saved.value.phase.Finishing? then c.job else c.job == r.job)
  {
    if r.saved.value.phase.Running? { RunningKeepsRound(r, v); } else { EarlyKeepsRound(r, v); }
    var (next, decision) := if r.saved.value.phase.Running? then RunningStep(r, v) else EarlyStep(r, v);
    if decision.Submit? { AdmitKeepsRound(next, decision.key, v.refused); }
  }

  /** The round of the running job after a step: the record's, if the step started it. */
  function JobAfter(r: Run, c: Run, job: nat): nat {
    if c.job && !r.job && c.saved.Some? then c.saved.value.round else job
  }

  lemma {:induction false} ChooseKeepsRounds(r: Run, v: View, built: seq<nat>, job: nat)
    requires Sound(r) && RoundsKept(r, built, job)
    ensures RoundsKept(Choose(r, v).0, built, JobAfter(r, Choose(r, v).0, job))
  {
    if !Waits(r, v) { ChosenKeepsRound(r, v); }
  }

  lemma {:induction false} TickKeepsRounds(r: Run, v: View, built: seq<nat>, job: nat)
    requires Sound(r) && RoundsKept(r, built, job)
    ensures RoundsKept(Tick(r, v).0, built + (if Builds(r, Ticks(v)) then [job] else []),
                       JobAfter(PollIntegration(r, v), Tick(r, v).0, job))
  {
    var p := PollIntegration(r, v);
    var more := built + (if Builds(r, Ticks(v)) then [job] else []);
    PollFacts(r, v);
    PollKeepsRounds(r, v, built, job);
    if !(v.contended && p.Live()) {
      ReenterFacts(p, v);
      ReenterKeepsRounds(p, v, more, job);
      ChooseKeepsRounds(Reenter(p, v), v, more, job);
    }
  }

  lemma {:induction false} HandKeepsRounds(r: Run, step: Step, built: seq<nat>, job: nat)
    requires Sound(r) && RoundsKept(r, built, job) && !step.Ticks? && !step.Starts? && !step.Restarts?
    ensures RoundsKept(Do(r, step), built, job)
  {
  }

  predicate SameGoal(moves: seq<Move>) { forall i | 0 <= i < |moves| :: !moves[i].step.Starts? && !moves[i].step.Restarts? }

  /** The branch that exists when the moves begin, named by an earlier round. */
  function Existing(r: Run): seq<nat> {
    if r.saved.Some? && r.saved.value.branch.Some? then [r.saved.value.branch.value] else []
  }

  lemma {:induction false} StepKeepsRounds(w: World, m: Move, built: seq<nat>, job: nat)
    requires WorldSound(w) && RoundsKept(w.run, built, job) && SameGoal([m])
    ensures var next := Do(w.run, m.step);
            RoundsKept(Next(w, m).run,
                       built + (if Builds(w.run, m.step) then [job] else []),
                       if Integrates(w.run, m.step) && next.saved.Some? then next.saved.value.round else job)
  {
    assert !([m][0].step.Starts? || [m][0].step.Restarts?);
    if m.step.Ticks? {
      TickKeepsRounds(w.run, m.step.view, built, job);
    } else {
      HandKeepsRounds(w.run, m.step, built, job);
      assert built + [] == built;
    }
  }

  lemma {:induction false} MovesKeepRounds(w: World, moves: seq<Move>)
    requires WorldSound(w) && SameGoal(moves) && RoundsKept(w.run, Existing(w.run), 0) && !w.run.job
    ensures RoundsKept(Play(w, moves).run, Existing(w.run) + BuiltRounds(w, moves), JobRound(w, moves))
  {
    if |moves| == 0 {
      assert Existing(w.run) + [] == Existing(w.run);
    } else {
      var n := |moves| - 1;
      MovesKeepRounds(w, moves[..n]);
      PlayFacts(w, moves[..n]);
      StepKeepsRounds(Play(w, moves[..n]), moves[n], Existing(w.run) + BuiltRounds(w, moves[..n]), JobRound(w, moves[..n]));
      var more := if Builds(Play(w, moves[..n]).run, moves[n].step) then [JobRound(w, moves[..n])] else [];
      assert (Existing(w.run) + BuiltRounds(w, moves[..n])) + more == Existing(w.run) + BuiltRounds(w, moves);
    }
  }

  /** A record's branch was named by an earlier round, or by this one if the run has finished with it. */
  predicate Behind(sv: Saved) {
    sv.branch.Some? ==> sv.branch.value < sv.round + (if sv.Active() then 0 else 1)
  }

  predicate BehindIn(saved: Option<Saved>) { saved.Some? ==> Behind(saved.value) }

  lemma {:induction false} TickStaysBehind(r: Run, v: View)
    requires Sound(r) && BehindIn(r.saved)
    ensures BehindIn(Tick(r, v).0.saved)
  {
    var p := PollIntegration(r, v);
    PollFacts(r, v);
    assert BehindIn(p.saved);
    if !(v.contended && p.Live()) {
      ReenterFacts(p, v);
      assert BehindIn(Reenter(p, v).saved);
      if !Waits(Reenter(p, v), v) { ChosenKeepsRound(Reenter(p, v), v); }
    }
  }

  lemma {:induction false} HandStaysBehind(r: Run, step: Step)
    requires Sound(r) && BehindIn(r.saved) && !step.Ticks?
    ensures BehindIn(Do(r, step).saved)
  {
  }

  /** From the first start on, through every save, loss and restart, every record satisfies this. */
  lemma {:induction false} BranchStaysBehind(w: World, moves: seq<Move>)
    requires WorldSound(w) && BehindIn(w.run.saved) && BehindIn(w.disk)
    ensures BehindIn(Play(w, moves).run.saved) && BehindIn(Play(w, moves).disk)
  {
    if |moves| > 0 {
      var n := |moves| - 1;
      BranchStaysBehind(w, moves[..n]);
      PlayFacts(w, moves[..n]);
      var mid, step := Play(w, moves[..n]), moves[n].step;
      if step.Ticks? { TickStaysBehind(mid.run, step.view); } else { HandStaysBehind(mid.run, step); }
    }
  }

  /**
   * Within one process the branches built for one goal, stale ones included, have strictly increasing rounds,
   * all after the branch that existed before: no integration reuses the name of another one's branch.
   */
  lemma {:induction false} RoundsNeverRepeat(w: World, moves: seq<Move>)
    requires WorldSound(w) && BehindIn(w.run.saved) && !w.run.job && SameGoal(moves)
    ensures Ascending(Existing(w.run) + BuiltRounds(w, moves))
  {
    MovesKeepRounds(w, moves);
  }
}
