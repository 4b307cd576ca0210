/** What bounds a run: repeated decisions, owner repairs, and the size of the state file. */
module AutopilotLimits {
  import opened Families
  import opened AutopilotState
  import opened AutopilotRuns
  import L = Liveness
  import P = Progress

  // -------------------------------------------------------------- repeated decisions

  function Count(attempts: map<Key, nat>, key: Key): nat { if key in attempts then attempts[key] else 0 }

  function Total(attempts: map<Key, nat>, keys: seq<Key>): nat {
    if |keys| == 0 then 0 else Count(attempts, keys[0]) + Total(attempts, keys[1..])
  }

  predicate Distinct(keys: seq<Key>) { forall i, j | 0 <= i < j < |keys| :: keys[i] != keys[j] }

  lemma {:induction false} TotalSame(a: map<Key, nat>, key: Key, n: nat, keys: seq<Key>)
    requires key !in keys
    ensures Total(a[key := n], keys) == Total(a, keys)
  {
    if |keys| > 0 { TotalSame(a, key, n, keys[1..]); }
  }

  lemma {:induction false} TotalUpdate(a: map<Key, nat>, key: Key, n: nat, keys: seq<Key>)
    requires Distinct(keys) && key in keys
    ensures Total(a[key := n], keys) == Total(a, keys) - Count(a, key) + n
  {
    if keys[0] == key {
      assert key !in keys[1..];
      TotalSame(a, key, n, keys[1..]);
    } else {
      TotalUpdate(a, key, n, keys[1..]);
    }
  }

  lemma {:induction false} TotalAtMost(a: map<Key, nat>, keys: seq<Key>, most: nat)
    requires forall key | key in a :: a[key] <= most
    ensures Total(a, keys) <= most * |keys|
  {
    if |keys| > 0 { TotalAtMost(a, keys[1..], most); }
  }

  /** The counters of a run that was not paused for repeating itself. */
  predicate Counting(r: Run, keys: seq<Key>) {
    && (forall key | key in r.attempts :: key in keys && r.attempts[key] <= ATTEMPTS)
    && r.transient < TRANSIENT_LIMIT
    && (r.lastKey.Some? && r.lastKey.value in r.attempts ==> r.attempts[r.lastKey.value] > 0)
  }

  /** Grows with every submission: five times the attempts counted, plus the refusals in a row. */
  function Spending(r: Run, keys: seq<Key>): nat { TRANSIENT_LIMIT * Total(r.attempts, keys) + r.transient }

  lemma {:induction false} AdmitSpends(r: Run, key: Key, refused: bool, keys: seq<Key>)
    requires Counting(r, keys) && Distinct(keys) && key in keys && r.saved.Some?
    requires Admit(r, key, refused).1.Some?
    ensures Counting(Admit(r, key, refused).0, keys)
    ensures Spending(Admit(r, key, refused).0, keys) > Spending(r, keys)
    ensures r.attempts == map[] ==> Spending(Admit(r, key, refused).0, keys) >= TRANSIENT_LIMIT
  {
    var again := r.lastKey.Some? && refused;
    if again && r.lastKey.value in r.attempts && r.attempts[r.lastKey.value] > 0 {
      TotalUpdate(r.attempts, r.lastKey.value, r.attempts[r.lastKey.value] - 1, keys);
      var lowered := r.attempts[r.lastKey.value := r.attempts[r.lastKey.value] - 1];
      TotalUpdate(lowered, key, Count(lowered, key) + 1, keys);
    } else {
      TotalUpdate(r.attempts, key, Count(r.attempts, key) + 1, keys);
    }
    EmptyTotal(keys);
  }

  lemma {:induction false} EmptyTotal(keys: seq<Key>)
    ensures Total(map[], keys) == 0
  {
    if |keys| > 0 { EmptyTotal(keys[1..]); }
  }

  /** A tick without effect: the run stays in its phase, with no integration, and finishes nothing. */
  predicate Stalled(r: Run, v: View) {
    && r.Active() && !r.saved.value.phase.Finishing? && !r.job
    && Tick(r, v).0.saved.Some? && Tick(r, v).0.saved.value.phase == r.saved.value.phase
  }

  function TickAll(r: Run, views: seq<View>): Run
    decreases |views|
  {
    if |views| == 0 then r else TickAll(Tick(r, views[0]).0, views[1..])
  }

  function Submissions(r: Run, views: seq<View>): nat
    decreases |views|
  {
    if |views| == 0 then 0
    else (if Tick(r, views[0]).1.Some? then 1 else 0) + Submissions(Tick(r, views[0]).0, views[1..])
  }

  predicate AllStalled(r: Run, views: seq<View>)
    decreases |views|
  {
    |views| == 0 || (Stalled(r, views[0]) && AllStalled(Tick(r, views[0]).0, views[1..]))
  }

  /** Every decision taken is one of these. */
  predicate AllAmong(r: Run, views: seq<View>, keys: seq<Key>)
    decreases |views|
  {
    |views| == 0
    || ((Tick(r, views[0]).1.Some? ==> Tick(r, views[0]).1.value in keys) && AllAmong(Tick(r, views[0]).0, views[1..], keys))
  }

  function Chosen(r: Run, v: View): (Run, Decision)
    requires r.saved.Some? && v.snapshot.Some?
  {
    if r.saved.value.phase.Running? then RunningStep(r, v) else EarlyStep(r, v)
  }

  predicate SameCounters(a: Run, b: Run) {
    a.attempts == b.attempts && a.transient == b.transient && a.lastKey == b.lastKey
  }

  predicate CountersFollowPhase(r: Run, c: (Run, Decision))
    requires r.saved.Some?
  {
    && c.0.saved.Some?
    && (!c.1.Idle? ==> SameCounters(c.0, r) && c.0.Live())
    && (c.0.saved.value.phase == r.saved.value.phase ==> SameCounters(c.0, r))
  }

  lemma {:induction false} FinishingChangesPhase(r: Run, v: View, fs: seq<Family>, reentrant: bool)
    requires r.saved.Some? && v.snapshot.Some?
    ensures Integrate(r, v, fs).saved.Some?
    ensures Integrate(r, v, fs).saved.value.phase.Done? || Integrate(r, v, fs).saved.value.phase.Finishing?
    ensures Fail(r, v.snapshot.value, reentrant).saved.Some? && Fail(r, v.snapshot.value, reentrant).saved.value.phase.Failed?
  {
  }

  lemma {:induction false} EarlyKeepsCounters(r: Run, v: View)
    requires r.Live() && v.snapshot.Some? && !r.saved.value.phase.Running? && !r.saved.value.phase.Finishing?
    ensures CountersFollowPhase(r, EarlyStep(r, v))
  {
    FinishingChangesPhase(r, v, [], false);
  }

  lemma {:induction false} RunningKeepsCounters(r: Run, v: View)
    requires r.Live() && v.snapshot.Some? && r.saved.value.phase.Running?
    ensures CountersFollowPhase(r, RunningStep(r, v))
  {
    var settled := SettleRecovered(r, v.snapshot.value);
    var fs := FamiliesOf(v.snapshot.value, v.control, settled.saved.value);
    FinishingChangesPhase(settled, v, fs, v.stop.Some? && v.stop.value);
    assert SameCounters(settled, r) && settled.Live();
    if v.stop.None? {
      var command := NextCommand(v.snapshot.value, v.control, fs);
      if command.None? && v.control.workers == {} && !Open(fs) {
        assert RunningStep(r, v) == (Integrate(settled, v, fs), Decision.Idle);
      }
    } else {
      assert RunningStep(r, v) == (Fail(settled, v.snapshot.value, v.stop.value), Decision.Idle);
    }
  }

  /** While the phase stays, only a submission touches the counters. */
  lemma {:induction false} ChosenKeepsCounters(r: Run, v: View)
    requires r.Live() && v.snapshot.Some? && !r.saved.value.phase.Finishing?
    ensures CountersFollowPhase(r, Chosen(r, v))
  {
    if r.saved.value.phase.Running? { RunningKeepsCounters(r, v); } else { EarlyKeepsCounters(r, v); }
  }

  lemma {:induction false} StalledIsChosen(r: Run, v: View)
    requires Stalled(r, v) && Sound(r)
    ensures v.contended && r.Live() ==> Tick(r, v) == (Halt(r), None)
    ensures !(v.contended && r.Live()) ==> Tick(r, v) == Choose(r, v)
  {
    assert PollIntegration(r, v) == r && Reenter(r, v) == r;
  }

  /** A stalled tick either leaves the counters alone, or pauses the run, or counts one submission. */
  lemma {:induction false} StalledTick(r: Run, v: View, keys: seq<Key>)
    requires Stalled(r, v) && Sound(r) && Counting(r, keys) && Distinct(keys)
    requires Tick(r, v).1.Some? ==> Tick(r, v).1.value in keys
    ensures Tick(r, v).1.Some? ==>
              && Counting(Tick(r, v).0, keys)
              && Spending(Tick(r, v).0, keys) > Spending(r, keys)
              && (r.attempts == map[] ==> Spending(Tick(r, v).0, keys) >= TRANSIENT_LIMIT)
    ensures Tick(r, v).1.None? && Tick(r, v).0.Live() ==> SameCounters(Tick(r, v).0, r)
  {
    StalledIsChosen(r, v);
    if !(v.contended && r.Live()) && !Waits(r, v) {
      ChosenKeepsCounters(r, v);
      var (next, decision) := Chosen(r, v);
      if decision.Submit? {
        assert Tick(r, v) == Admit(next, decision.key, v.refused);
        if Tick(r, v).1.Some? { AdmitSpends(next, decision.key, v.refused, keys); }
      }
    }
  }

  lemma {:induction false} PausedSubmitsNothing(r: Run, views: seq<View>)
    requires AllStalled(r, views) && r.Active() && r.saved.value.paused
    ensures Submissions(r, views) == 0
  {
    if |views| > 0 {
      assert PollIntegration(r, views[0]) == r && Reenter(r, views[0]) == r;
      PausedSubmitsNothing(Tick(r, views[0]).0, views[1..]);
    }
  }

  lemma {:induction false} SubmissionsSpend(r: Run, views: seq<View>, keys: seq<Key>)
    requires AllStalled(r, views) && AllAmong(r, views, keys) && Sound(r) && Counting(r, keys) && Distinct(keys)
    ensures Submissions(r, views) + Spending(r, keys) <= TRANSIENT_LIMIT * ATTEMPTS * |keys| + TRANSIENT_LIMIT - 1
    ensures r.attempts == map[] ==> Submissions(r, views) <= TRANSIENT_LIMIT * ATTEMPTS * |keys|
    decreases |views|
  {
    TotalAtMost(r.attempts, keys, ATTEMPTS);
    if |views| > 0 {
      var v := views[0];
      StalledTick(r, v, keys);
      TickFacts(r, v);
      var next := Tick(r, v).0;
      if next.Live() {
        SubmissionsSpend(next, views[1..], keys);
      } else {
        PausedSubmitsNothing(next, views[1..]);
      }
    }
  }

  /** One decision without effect is submitted at most fifteen times before the loop pauses. */
  lemma {:induction false} OneDecisionRepeatsFifteenTimes(r: Run, views: seq<View>, key: Key)
    requires Sound(r) && r.attempts == map[] && r.transient < TRANSIENT_LIMIT
    requires AllStalled(r, views) && AllAmong(r, views, [key])
    ensures Submissions(r, views) <= 15
  {
    SubmissionsSpend(r, views, [key]);
  }

  /** Submissions of one decision until the loop pauses, given what became of each one before it. */
  function Repeats(r: Run, key: Key, refusals: seq<bool>): nat
    decreases |refusals|
  {
    if |refusals| == 0 || Admit(r, key, refusals[0]).1.None? then 0
    else 1 + Repeats(Admit(r, key, refusals[0]).0, key, refusals[1..])
  }

  /** Four refusals in a row for every attempt that counts. */
  function Worst(attempts: nat, transient: nat): seq<bool>
    requires attempts <= ATTEMPTS && transient < TRANSIENT_LIMIT
    decreases ATTEMPTS - attempts, TRANSIENT_LIMIT - transient
  {
    if transient + 1 < TRANSIENT_LIMIT then [true] + Worst(attempts, transient + 1)
    else if attempts < ATTEMPTS then [false] + Worst(attempts + 1, 0)
    else []
  }

  /** A run that has counted this decision only. */
  predicate Counts(r: Run, key: Key, attempts: nat, transient: nat) {
    r.attempts == map[key := attempts] && r.lastKey == Some(key) && r.transient == transient
  }

  lemma {:induction false} WorstStep(r: Run, key: Key, attempts: nat, transient: nat)
    requires 1 <= attempts <= ATTEMPTS && transient < TRANSIENT_LIMIT && Counts(r, key, attempts, transient)
    ensures transient + 1 < TRANSIENT_LIMIT ==>
              Admit(r, key, true).1.Some? && Counts(Admit(r, key, true).0, key, attempts, transient + 1)
    ensures attempts < ATTEMPTS ==> Admit(r, key, false).1.Some? && Counts(Admit(r, key, false).0, key, attempts + 1, 0)
  {
    assert map[key := attempts][key := attempts - 1][key := attempts] == map[key := attempts];
    assert map[key := attempts][key := attempts + 1] == map[key := attempts + 1];
  }

  lemma {:induction false} WorstIsAdmitted(r: Run, key: Key, attempts: nat, transient: nat)
    requires 1 <= attempts <= ATTEMPTS && transient < TRANSIENT_LIMIT && Counts(r, key, attempts, transient)
    ensures Repeats(r, key, Worst(attempts, transient)) == TRANSIENT_LIMIT * (ATTEMPTS - attempts) + TRANSIENT_LIMIT - 1 - transient
    decreases ATTEMPTS - attempts, TRANSIENT_LIMIT - transient
  {
    var refusals := Worst(attempts, transient);
    WorstStep(r, key, attempts, transient);
    if transient + 1 < TRANSIENT_LIMIT {
      assert refusals[1..] == Worst(attempts, transient + 1);
      WorstIsAdmitted(Admit(r, key, true).0, key, attempts, transient + 1);
    } else if attempts < ATTEMPTS {
      assert refusals[1..] == Worst(attempts + 1, 0);
      WorstIsAdmitted(Admit(r, key, false).0, key, attempts + 1, 0);
    }
  }

  /** Fifteen is reached, so the bound is exact. */
  lemma {:induction false} FifteenIsReached(r: Run, key: Key)
    requires r.attempts == map[] && r.lastKey.None?
    ensures Repeats(r, key, [false] + Worst(1, 0)) == 15
  {
    var next := Admit(r, key, false).0;
    assert Counts(next, key, 1, 0);
    assert ([false] + Worst(1, 0))[1..] == Worst(1, 0);
    WorstIsAdmitted(next, key, 1, 0);
  }

  // ------------------------------------------------------------------ owner repairs

  /** The store moved on, no failure was undone and no repair was cancelled before it started. */
  predicate Keeps(s: Snapshot, t: Snapshot) {
    && P.SameLineage(s, t)
    && forall id | 1 <= id <= |s.tasks| ::
         && (At(s, id).status.Failed? ==> At(t, id).status.Failed?)
         && (At(t, id).status.Cancelled? && !At(t, id).run ==> At(s, id).status.Cancelled? && !At(s, id).run)
  }

  lemma {:induction false} RepairsOnlyGrow(s: Snapshot, t: Snapshot, root: nat, n: nat)
    requires Keeps(s, t) && n <= |s.tasks|
    ensures RepairsUpto(t, root, n) >= RepairsUpto(s, root, n)
  {
    if n > 0 {
      RepairsOnlyGrow(s, t, root, n - 1);
      P.RootUnchanged(s, t, n);
    }
  }

  lemma {:induction false} RepairsCountUp(t: Snapshot, root: nat, n: nat, m: nat)
    requires n <= m
    ensures RepairsUpto(t, root, n) <= RepairsUpto(t, root, m)
    decreases m
  {
    if n < m { RepairsCountUp(t, root, n, m - 1); }
  }

  /** The family's limit is spent already, and every family of the run exists. */
  predicate Exhausted(s: Snapshot, sv: Saved, root: nat) {
    && Has(s, root) && At(s, root).repairOf.None?
    && Limit(sv.AsPlan(), root) <= Repairs(s, root)
    && (forall k | 0 <= k < |Roots(sv.AsPlan())| :: Has(s, Roots(sv.AsPlan())[k]) && At(s, Roots(sv.AsPlan())[k]).repairOf.None?)
  }

  /** A family whose limit is spent is asked for no automatic repair. */
  lemma {:induction false} ExhaustedIsNotRepaired(s: Snapshot, c: Control, sv: Saved, root: nat, h: nat)
    requires Exhausted(s, sv, root) && RepairRoot(s, h) == Some(root)
    ensures NextCommand(s, c, FamiliesOf(s, c, sv)) != Some(RepairTask(h))
  {
    var fs := FamiliesOf(s, c, sv);
    if NextCommand(s, c, fs) == Some(RepairTask(h)) {
      assert FirstCommand(s, c, fs, 0) == Some(RepairTask(h));
      L.RepairsStayBelowLimit(s, sv.AsPlan(), c, h);
      var other :| other in Roots(sv.AsPlan()) && Head(s, other) == h && Repairs(s, other) < Limit(sv.AsPlan(), other);
      L.HeadExists(s, other, |s.tasks|);
    }
  }

  /** The run holds the owner's limit for this family: what was counted in `s0`. */
  predicate Holds(r: Run, s0: Snapshot, root: nat) {
    && r.Active() && Has(s0, root) && At(s0, root).repairOf.None?
    && root in r.saved.value.limits && r.saved.value.limits[root] == Repairs(s0, root)
  }

  predicate RootsPresent(s: Snapshot, sv: Saved) {
    forall k | 0 <= k < |Roots(sv.AsPlan())| :: Has(s, Roots(sv.AsPlan())[k]) && At(s, Roots(sv.AsPlan())[k]).repairOf.None?
  }

  /** No automatic repair of this family. */
  ghost predicate Spares(s: Snapshot, key: Option<Key>, root: nat) {
    forall h | RepairRoot(s, h) == Some(root) :: key != Some(OnTask(RepairTask(h)))
  }

  lemma {:induction false} LimitStaysExhausted(s0: Snapshot, t: Snapshot, sv: Saved, root: nat)
    requires Has(s0, root) && At(s0, root).repairOf.None? && Keeps(s0, t) && RootsPresent(t, sv)
    requires root in sv.limits && sv.limits[root] == Repairs(s0, root)
    ensures Exhausted(t, sv, root)
  {
    RepairsOnlyGrow(s0, t, root, |s0.tasks|);
    RepairsCountUp(t, root, |s0.tasks|, |t.tasks|);
  }

  lemma {:induction false} RunningSpares(r: Run, v: View, s0: Snapshot, root: nat)
    requires Holds(r, s0, root) && r.saved.value.phase.Running? && v.snapshot.Some?
    requires Keeps(s0, v.snapshot.value) && RootsPresent(v.snapshot.value, r.saved.value)
    ensures RunningStep(r, v).1.Submit? ==> Spares(v.snapshot.value, Some(RunningStep(r, v).1.key), root)
  {
    var s := v.snapshot.value;
    var settled := SettleRecovered(r, s);
    assert settled.saved.value.limits == r.saved.value.limits && Roots(settled.saved.value.AsPlan()) == Roots(r.saved.value.AsPlan());
    LimitStaysExhausted(s0, s, settled.saved.value, root);
    if RunningStep(r, v).1.Submit? {
      var command := NextCommand(s, v.control, FamiliesOf(s, v.control, settled.saved.value)).value;
      forall h | RepairRoot(s, h) == Some(root) ensures RunningStep(r, v).1.key != OnTask(RepairTask(h)) {
        ExhaustedIsNotRepaired(s, v.control, settled.saved.value, root, h);
      }
    }
  }

  lemma {:induction false} ChooseSpares(r: Run, v: View, s0: Snapshot, root: nat)
    requires Holds(r, s0, root) && Sound(r)
    requires v.snapshot.Some? ==> Keeps(s0, v.snapshot.value) && RootsPresent(v.snapshot.value, r.saved.value)
    ensures v.snapshot.Some? ==> Spares(v.snapshot.value, Choose(r, v).1, root)
    ensures Choose(r, v).0.Active() ==> Holds(Choose(r, v).0, s0, root)
  {
    ChooseKeepsLimits(r, v);
    if !Waits(r, v) {
      if r.saved.value.phase.Running? { RunningSpares(r, v, s0, root); }
      SubmittedIsChosen(r, v);
    }
  }

  lemma {:induction false} SubmittedIsChosen(r: Run, v: View)
    requires !Waits(r, v)
    ensures Choose(r, v).1.Some? ==> Chosen(r, v).1 == Submit(Choose(r, v).1.value)
    ensures r.saved.value.phase.Running? || !Chosen(r, v).1.Submit? || Chosen(r, v).1.key.Stage?
  {
  }

  lemma {:induction false} AdmitKeepsTerms(r: Run, key: Key, refused: bool)
    requires r.saved.Some?
    ensures SameTerms(Admit(r, key, refused).0, r) && SameTerms(Halt(r), r)
  {
  }

  /** One choice, in terms of what the phase decided. */
  lemma {:induction false} ChoiceMade(r: Run, v: View)
    requires !Waits(r, v)
    ensures var (next, decision) := Chosen(r, v);
            Choose(r, v) == match decision
                            case Idle => (next, None)
                            case Error => (Halt(next), None)
                            case Submit(key) => Admit(next, key, v.refused)
  {
  }

  lemma {:induction false} ChooseKeepsLimits(r: Run, v: View)
    requires r.saved.Some?
    ensures SameTerms(Choose(r, v).0, r)
  {
    if !Waits(r, v) {
      ChosenKeepsTerms(r, v);
      ChoiceMade(r, v);
      var (next, decision) := Chosen(r, v);
      if decision.Submit? { AdmitKeepsTerms(next, decision.key, v.refused); } else { AdmitKeepsTerms(next, Stage(0), false); }
    }
  }

  predicate SameTerms(c: Run, r: Run) {
    && c.saved.Some? && r.saved.Some?
    && c.saved.value.limits == r.saved.value.limits
    && c.saved.value.maxRepairs == r.saved.value.maxRepairs
  }

  lemma {:induction false} FinishingKeepsTerms(r: Run, v: View, fs: seq<Family>, reentrant: bool)
    requires r.saved.Some? && v.snapshot.Some?
    ensures SameTerms(Integrate(r, v, fs), r)
    ensures SameTerms(Fail(r, v.snapshot.value, reentrant), r)
  {
  }

  lemma {:induction false} EarlyKeepsTerms(r: Run, v: View)
    requires r.saved.Some? && v.snapshot.Some?
    ensures SameTerms(EarlyStep(r, v).0, r)
  {
    match v.early
    case GiveUp => FinishingKeepsTerms(r, v, [], false);
    case GoOn(first, count) =>
      var planned := r.(saved := Some(r.saved.value.(first := Some(first), count := count)));
      AdvanceKeepsTerms(r, Phase.Planning);
      AdvanceKeepsTerms(r, Phase.Saving);
      AdvanceKeepsTerms(planned, Phase.Running);
    case _ =>
  }

  lemma {:induction false} AdvanceKeepsTerms(r: Run, phase: Phase)
    requires r.saved.Some?
    ensures SameTerms(Advance(r, phase), r)
  {
  }

  lemma {:induction false} RunningKeepsTerms(r: Run, v: View)
    requires r.saved.Some? && v.snapshot.Some?
    ensures SameTerms(RunningStep(r, v).0, r)
  {
    var settled := SettleRecovered(r, v.snapshot.value);
    var fs := FamiliesOf(v.snapshot.value, v.control, settled.saved.value);
    FinishingKeepsTerms(settled, v, fs, v.stop.Some? && v.stop.value);
    assert SameTerms(settled, r);
    if v.stop.Some? {
      assert RunningStep(r, v).0 == Fail(settled, v.snapshot.value, v.stop.value);
    }
  }

  lemma {:induction false} ChosenKeepsTerms(r: Run, v: View)
    requires r.saved.Some? && v.snapshot.Some?
    ensures SameTerms(Chosen(r, v).0, r)
  {
    if r.saved.value.phase.Running? { RunningKeepsTerms(r, v); } else { EarlyKeepsTerms(r, v); }
  }

  lemma {:induction false} WakingTick(r: Run, v: View)
    requires Sound(r) && Wakes(r, v)
    ensures Tick(r, v) == Choose(Reenter(r, v), v) && Sound(Reenter(r, v)) && Reenter(r, v).Active()
  {
    PollFacts(r, v);
    ReenterFacts(r, v);
  }

  lemma {:induction false} ReentryLimits(r: Run, v: View, root: nat)
    requires Wakes(r, v) && r.saved.value.phase.Done?
    requires root in Limited(v.snapshot.value, r.saved.value, r.saved.value.finishedThrough.value)
    requires At(v.snapshot.value, root).repairOf.None?
    ensures Holds(Reenter(r, v), v.snapshot.value, root)
    ensures Roots(Reenter(r, v).saved.value.AsPlan()) == Roots(r.saved.value.AsPlan())
  {
    var s, sv := v.snapshot.value, r.saved.value;
    var limited := Limited(s, sv, sv.finishedThrough.value);
    assert Reenter(r, v).saved.value.limits == NewLimits(s, sv, sv.finishedThrough.value) == LimitsFor(s, sv, limited);
    LimitTaken(s, sv, limited, root);
  }

  lemma {:induction false} LimitTaken(s: Snapshot, sv: Saved, roots: set<nat>, root: nat)
    requires root in roots && sv.phase.Done?
    ensures root in LimitsFor(s, sv, roots) && LimitsFor(s, sv, roots)[root] == Repairs(s, root)
  {
  }

  /** The owner's repair of a done run sets the family's limit to what is counted, and this tick already spares it. */
  lemma {:induction false} OwnerRepairIsLimited(r: Run, v: View, root: nat)
    requires Sound(r) && Wakes(r, v) && r.saved.value.phase.Done?
    requires root in Limited(v.snapshot.value, r.saved.value, r.saved.value.finishedThrough.value)
    requires At(v.snapshot.value, root).repairOf.None? && RootsPresent(v.snapshot.value, r.saved.value)
    ensures Holds(Reenter(r, v), v.snapshot.value, root)
    ensures Spares(v.snapshot.value, Tick(r, v).1, root)
    ensures Tick(r, v).0.Active() ==> Holds(Tick(r, v).0, v.snapshot.value, root)
  {
    var s := v.snapshot.value;
    WakingTick(r, v);
    var back := Reenter(r, v);
    ReentryLimits(r, v, root);
    assert Keeps(s, s);
    ChooseSpares(back, v, s, root);
  }

  lemma {:induction false} TickSpares(r: Run, v: View, s0: Snapshot, root: nat)
    requires Holds(r, s0, root) && Sound(r)
    requires v.snapshot.Some? ==> Keeps(s0, v.snapshot.value) && RootsPresent(v.snapshot.value, r.saved.value)
    ensures v.snapshot.Some? ==> Spares(v.snapshot.value, Tick(r, v).1, root)
    ensures Tick(r, v).0.Active() ==> Holds(Tick(r, v).0, s0, root)
  {
    PollFacts(r, v);
    var p := PollIntegration(r, v);
    if p.Active() {
      assert Holds(p, s0, root) && Roots(p.saved.value.AsPlan()) == Roots(r.saved.value.AsPlan());
      if !(v.contended && p.Live()) { ChooseSpares(p, v, s0, root); }
    } else {
      FreshFinishSleeps(p, v);
    }
  }

  /** The store this tick reads grew out of `s0`, and has every family of the run. */
  predicate KeptBy(r: Run, step: Step, s0: Snapshot)
    requires r.Active()
  {
    step.Ticks? && step.view.snapshot.Some? ==>
      Keeps(s0, step.view.snapshot.value) && RootsPresent(step.view.snapshot.value, r.saved.value)
  }

  /** The run was active before each of these moves, and the store kept what `s0` held. */
  predicate AllKept(w: World, moves: seq<Move>, s0: Snapshot) {
    |moves| == 0
    || (var n := |moves| - 1;
        && AllKept(w, moves[..n], s0)
        && Play(w, moves[..n]).run.Active()
        && KeptBy(Play(w, moves[..n]).run, moves[n].step, s0)
        && !moves[n].step.Starts? && !moves[n].step.Restarts?)
  }

  /** None of these moves submits an automatic repair of this family. */
  ghost predicate AllSpared(w: World, moves: seq<Move>, root: nat) {
    |moves| == 0
    || (var n := |moves| - 1;
        && AllSpared(w, moves[..n], root)
        && (moves[n].step.Ticks? && moves[n].step.view.snapshot.Some? ==>
              Spares(moves[n].step.view.snapshot.value, Emits(Play(w, moves[..n]).run, moves[n].step), root)))
  }

  /**
   * After an owner repair re-entered a done run, no automatic repair of that family is submitted while the
   * run stays active, whatever else happens: the owner's attempt was the one beyond the budget.
   */
  lemma {:induction false} OwnerRepairIsTheLast(w: World, moves: seq<Move>, s0: Snapshot, root: nat)
    requires WorldSound(w) && Holds(w.run, s0, root)
    requires AllKept(w, moves, s0)
    ensures AllSpared(w, moves, root)
    ensures Play(w, moves).run.Active() ==> Holds(Play(w, moves).run, s0, root)
  {
    if |moves| > 0 {
      var n := |moves| - 1;
      OwnerRepairIsTheLast(w, moves[..n], s0, root);
      PlayFacts(w, moves[..n]);
      var before := Play(w, moves[..n]);
      if moves[n].step.Ticks? { TickSpares(before.run, moves[n].step.view, s0, root); }
      if Next(before, moves[n]).run.Active() { StepHolds(before, moves[n], s0, root); }
    }
  }

  lemma {:induction false} StepHolds(w: World, m: Move, s0: Snapshot, root: nat)
    requires Sound(w.run) && Holds(w.run, s0, root) && !m.step.Starts? && !m.step.Restarts?
    requires m.step.Ticks? && Tick(w.run, m.step.view).0.Active() ==> Holds(Tick(w.run, m.step.view).0, s0, root)
    requires Next(w, m).run.Active()
    ensures Holds(Next(w, m).run, s0, root)
  {
    DoFacts(w.run, m.step);
  }

  // ------------------------------------------------------------------ the state file

  /** Limits belong to tasks the store can hold, so a saved run can always be opened again. */
  predicate LimitsFit(sv: Saved) {
    && sv.maxRepairs <= MAX_REPAIRS
    && forall root | root in sv.limits :: 1 <= root <= TASK_BOUND && sv.limits[root] <= MAX_REPAIRS + TASK_BOUND
  }

  lemma {:induction false} SmallSet(ids: set<nat>, n: nat)
    requires forall id | id in ids :: 1 <= id <= n
    ensures |ids| <= n
  {
    if n == 0 {
      assert ids == {};
    } else {
      SmallSet(ids - {n}, n - 1);
    }
  }

  lemma {:induction false} LimitsFitOpens(sv: Saved)
    requires LimitsFit(sv)
    ensures sv.Fits()
  {
    SmallSet(sv.limits.Keys, TASK_BOUND);
    assert |sv.limits| == |sv.limits.Keys|;
  }

  lemma {:induction false} RepairsAtMost(s: Snapshot, root: nat, n: nat)
    ensures RepairsUpto(s, root, n) <= n
  {
    if n > 0 { RepairsAtMost(s, root, n - 1); }
  }

  lemma {:induction false} ReenterFits(r: Run, v: View)
    requires r.saved.Some? && LimitsFit(r.saved.value)
    requires v.snapshot.Some? ==> |v.snapshot.value.tasks| <= TASK_BOUND
    ensures Reenter(r, v).saved.Some? && LimitsFit(Reenter(r, v).saved.value)
  {
    if v.snapshot.Some? && !r.saved.value.Active() && r.saved.value.first.Some? && r.saved.value.finishedThrough.Some? {
      var s := v.snapshot.value;
      var sv := r.saved.value;
      var limits := NewLimits(s, sv, sv.finishedThrough.value);
      forall root | root in limits ensures 1 <= root <= TASK_BOUND && limits[root] <= MAX_REPAIRS + TASK_BOUND {
        RepairsAtMost(s, root, |s.tasks|);
      }
    }
  }

  /** Every operation keeps the record within what `open` accepts, as long as the store holds at most 256 tasks. */
  lemma {:induction false} StepFits(r: Run, step: Step)
    requires Sound(r)
    requires r.saved.Some? ==> LimitsFit(r.saved.value)
    requires step.Ticks? && step.view.snapshot.Some? ==> |step.view.snapshot.value.tasks| <= TASK_BOUND
    ensures Do(r, step).saved.Some? ==> LimitsFit(Do(r, step).saved.value) && Do(r, step).saved.value.Fits()
  {
    if step.Ticks? && r.saved.Some? {
      var p := PollIntegration(r, step.view);
      assert LimitsFit(p.saved.value);
      if !(step.view.contended && p.Live()) {
        ReenterFits(p, step.view);
        var back := Reenter(p, step.view);
        ChooseFits(back, step.view);
      }
    }
    if Do(r, step).saved.Some? { LimitsFitOpens(Do(r, step).saved.value); }
  }

  lemma {:induction false} ChooseFits(r: Run, v: View)
    requires r.saved.Some? && LimitsFit(r.saved.value)
    ensures Choose(r, v).0.saved.Some? && LimitsFit(Choose(r, v).0.saved.value)
  {
    ChooseKeepsLimits(r, v);
  }

  // ------------------------------------------------------------- idle means finishing

  /** A live running loop that has nothing left to do ends or integrates, exactly if no open family is held up by the owner, the review or the scope. */
  lemma {:induction false} IdleLoopFinishes(r: Run, v: View)
    requires Sound(r) && r.Live() && r.saved.value.phase.Running? && r.saved.value.first.Some? && r.recovering == {}
    requires v.snapshot.Some? && !v.waiting && !v.contended && v.stop.None?
    requires L.StoreSound(v.snapshot.value) && L.RunSound(v.snapshot.value, r.saved.value.AsPlan())
    requires L.Idle(v.snapshot.value, r.saved.value.AsPlan(), v.control)
    ensures Tick(r, v).1.None?
    ensures var fs := FamiliesOf(v.snapshot.value, v.control, r.saved.value);
            var next := Tick(r, v).0.saved.value.phase;
            if exists k | 0 <= k < |fs| :: L.Held(v.snapshot.value, v.control, fs, k) then next.Running?
            else next == if Succeeded(fs) && v.baseline then Phase.Finishing else Phase.Done
  {
    var s := v.snapshot.value;
    var settled := SettleRecovered(r, s);
    assert settled.saved.value.retryCancelled == r.saved.value.retryCancelled;
    assert settled.saved.value == r.saved.value;
    L.IdleMeansSettled(s, r.saved.value.AsPlan(), v.control);
    assert PollIntegration(r, v) == r && Reenter(r, v) == r;
    var fs := FamiliesOf(s, v.control, r.saved.value);
    assert Open(fs) <==> exists k | 0 <= k < |fs| :: L.Held(s, v.control, fs, k);
    assert RunningStep(r, v) == (if Open(fs) then settled else Integrate(settled, v, fs), Decision.Idle);
  }
}
