/** Whole runs of the autopilot: finishing, re-entry, the finish hook, restarts and repeated decisions. */
module AutopilotRuns {
  import opened Families
  import opened AutopilotState
  import L = Liveness

  datatype Step =
    | Ticks(view: View) | Starts(maxRepairs: nat, draft: bool, ids: seq<nat>, workers: set<nat>)
    | Pauses | Resumes(view: View) | Adopts(task: nat) | Reopens | Revises(unsaved: bool) | Restarts(hook: bool)

  /** A step and whether the save it makes reaches the disk. */
  datatype Move = Move(step: Step, kept: bool)

  datatype World = World(run: Run, disk: Option<Saved>)

  function Do(r: Run, step: Step): Run {
    match step
    case Ticks(v) => Tick(r, v).0
    case Starts(maxRepairs, draft, ids, workers) => Start(r, maxRepairs, draft, ids, workers)
    case Pauses => Pause(r)
    case Resumes(v) => Resume(r, v)
    case Adopts(task) => Adopt(r, task)
    case Reopens => Reopen(r)
    case Revises(unsaved) => Revise(r, unsaved)
    case Restarts(_) => r
  }

  function Emits(r: Run, step: Step): Option<Key> {
    if step.Ticks? then Tick(r, step.view).1 else None
  }

  /** A save that fails pauses an active run and leaves the disk as it was. */
  function Next(w: World, m: Move): World {
    if m.step.Restarts? then World(OpenRun(w.disk, m.step.hook), w.disk)
    else
      var run := Do(w.run, m.step);
      if run.saved == w.run.saved then World(run, w.disk)
      else if m.kept then World(run, run.saved)
      else World(if run.Active() then Halt(run) else run, w.disk)
  }

  function Play(w: World, moves: seq<Move>): World {
    if |moves| == 0 then w else Next(Play(w, moves[..|moves| - 1]), moves[|moves| - 1])
  }

  // ------------------------------------------------------------------ soundness

  predicate SavedSound(sv: Saved) {
    && (sv.finished <==> !sv.Active())
    && (sv.Active() ==> !sv.hookFired)
    && (sv.stale ==> sv.phase.Finishing?)
  }

  /** What holds of a run in memory: an integration job exists only while finishing. */
  predicate Sound(r: Run) {
    && (r.saved.Some? ==> SavedSound(r.saved.value))
    && (r.job ==> r.saved.Some? && r.saved.value.phase.Finishing?)
  }

  predicate WorldSound(w: World) { Sound(w.run) && (w.disk.Some? ==> SavedSound(w.disk.value)) }

  lemma {:induction false} PollFacts(r: Run, v: View)
    requires Sound(r)
    ensures var p := PollIntegration(r, v);
            && Sound(p) && p.hook == r.hook
            && (r.Finished() ==> p == r)
            && (p.Finished() && !r.Finished() ==>
                  r.Active() && v.snapshot.Some? && p.saved.value.finishedThrough == Some(Highest(v.snapshot.value)))
            && p.hooks == r.hooks + (if p.Finished() && !r.Finished() && r.hook then 1 else 0)
            && (r.saved.None? ==> p == r)
  {
  }

  /** An active run after one decision: still sound, and the hook ran exactly if the run ended. */
  predicate Decided(r: Run, c: Run, s: Snapshot) {
    && Sound(c) && c.hook == r.hook && c.saved.Some?
    && (c.Finished() ==> c.saved.value.finishedThrough == Some(Highest(s)))
    && c.hooks == r.hooks + (if c.Finished() && r.hook then 1 else 0)
  }

  lemma {:induction false} EarlyFacts(r: Run, v: View)
    requires Sound(r) && r.Active() && v.snapshot.Some? && !r.saved.value.phase.Running? && !r.saved.value.phase.Finishing?
    ensures Decided(r, EarlyStep(r, v).0, v.snapshot.value)
    ensures !EarlyStep(r, v).1.Idle? ==> EarlyStep(r, v).0 == r
  {
  }

  lemma {:induction false} RunningFacts(r: Run, v: View)
    requires Sound(r) && r.Active() && v.snapshot.Some? && r.saved.value.phase.Running?
    ensures Decided(r, RunningStep(r, v).0, v.snapshot.value)
    ensures !RunningStep(r, v).1.Idle? ==> RunningStep(r, v).0.Active()
  {
    var s := v.snapshot.value;
    var settled := SettleRecovered(r, s);
    assert Sound(settled) && settled.Active();
    var fs := FamiliesOf(s, v.control, settled.saved.value);
    assert Decided(r, Integrate(settled, v, fs), s);
  }

  lemma {:induction false} AdmitFacts(r: Run, key: Key, refused: bool)
    requires Sound(r) && r.Active()
    ensures var c := Admit(r, key, refused).0;
            Sound(c) && c.Active() && c.hook == r.hook && c.hooks == r.hooks && c.saved.value.phase == r.saved.value.phase
  {
  }

  lemma {:induction false} ChooseFacts(r: Run, v: View)
    requires Sound(r)
    ensures !r.Active() ==> Choose(r, v) == (r, None)
    ensures r.Active() && v.snapshot.None? ==> Choose(r, v) == (r, None)
    ensures r.Active() && v.snapshot.Some? ==> Decided(r, Choose(r, v).0, v.snapshot.value)
  {
    if !Waits(r, v) {
      var (next, decision) := if r.saved.value.phase.Running? then RunningStep(r, v) else EarlyStep(r, v);
      if r.saved.value.phase.Running? { RunningFacts(r, v); } else { EarlyFacts(r, v); }
      if decision.Submit? { AdmitFacts(next, decision.key, v.refused); }
    }
  }

  /** A finished run has a repair to follow: saved after the finish, in one of its families, from a stop that allows it. */
  predicate Wakes(r: Run, v: View) {
    && r.Finished() && v.snapshot.Some?
    && r.saved.value.first.Some? && r.saved.value.finishedThrough.Some?
    && Reenterable(r.saved.value)
    && Repaired(v.snapshot.value, r.saved.value, r.saved.value.finishedThrough.value) != {}
  }

  lemma {:induction false} ReenterFacts(r: Run, v: View)
    requires Sound(r)
    ensures var e := Reenter(r, v);
            && Sound(e) && e.hook == r.hook && e.hooks == r.hooks
            && (r.Finished() ==> (e.Active() <==> Wakes(r, v)))
            && (!r.Finished() ==> e == r)
            && (e.saved.Some? <==> r.saved.Some?)
            && (r.Finished() && v.snapshot.Some? && r.saved.value.first.Some? ==>
                  e.saved.value.finishedThrough == Some(Highest(v.snapshot.value)))
            && (r.Finished() && !e.Active() ==> e.saved.value == r.saved.value.(finishedThrough := e.saved.value.finishedThrough))
  {
  }

  /** Right after finishing there is nothing to re-enter for. */
  lemma {:induction false} FreshFinishSleeps(r: Run, v: View)
    requires r.Finished() && v.snapshot.Some? && r.saved.value.finishedThrough == Some(Highest(v.snapshot.value))
    ensures Reenter(r, v) == r && !Wakes(r, v)
  {
    var s := v.snapshot.value;
    assert Repaired(s, r.saved.value, Highest(s)) == {};
  }

  /** This tick ends the run: it was active, or just woken, and is finished now. */
  predicate Ends(r: Run, v: View) { (r.Active() || Wakes(r, v)) && Tick(r, v).0.Finished() }

  lemma {:induction false} TickFacts(r: Run, v: View)
    requires Sound(r)
    ensures var t := Tick(r, v).0;
            && Sound(t) && t.hook == r.hook
            && t.hooks == r.hooks + (if Ends(r, v) && r.hook then 1 else 0)
            && (Ends(r, v) ==> t.saved.value.finishedThrough == Some(Highest(v.snapshot.value)) && v.snapshot.Some?)
            && (r.Finished() && !Wakes(r, v) ==> t == Reenter(r, v) && Tick(r, v).1.None?)
            && (t.saved.Some? <==> r.saved.Some?)
  {
    var p := PollIntegration(r, v);
    PollFacts(r, v);
    if !(v.contended && p.Live()) {
      ReenterFacts(p, v);
      ChooseFacts(Reenter(p, v), v);
      if p.Finished() && !r.Finished() { FreshFinishSleeps(p, v); }
    }
  }

  lemma {:induction false} DoFacts(r: Run, step: Step)
    requires Sound(r)
    ensures Sound(Do(r, step)) && Do(r, step).hook == r.hook
    ensures Do(r, step).hooks == r.hooks + (if step.Ticks? && Ends(r, step.view) && r.hook then 1 else 0)
  {
    if step.Ticks? { TickFacts(r, step.view); }
  }

  lemma {:induction false} NextFacts(w: World, m: Move)
    requires WorldSound(w)
    ensures WorldSound(Next(w, m))
  {
    DoFacts(w.run, m.step);
  }

  lemma {:induction false} PlayFacts(w: World, moves: seq<Move>)
    requires WorldSound(w)
    ensures WorldSound(Play(w, moves))
  {
    if |moves| > 0 {
      PlayFacts(w, moves[..|moves| - 1]);
      NextFacts(Play(w, moves[..|moves| - 1]), moves[|moves| - 1]);
    }
  }

  // ------------------------------------------------------- a finish stays a finish

  /** The owner's work that makes a finished run active again. */
  predicate Revives(r: Run, step: Step) {
    match step
    case Ticks(v) => Wakes(r, v)
    case Starts(maxRepairs, _, _, workers) => MayStart(r, maxRepairs, workers)
    case Adopts(task) => r.saved.Some? && r.saved.value.phase.Done? && r.saved.value.first.Some? && task !in r.saved.value.adopted
    case Reopens => r.saved.Some? && r.saved.value.phase.Done?
    case _ => false
  }

  /** The run is finished as before. */
  predicate StillFinished(r: Run, next: Run) {
    && r.saved.Some? && next.Finished()
    && next.saved.value.phase == r.saved.value.phase && next.saved.value.limits == r.saved.value.limits
  }

  lemma {:induction false} FinishedTicks(r: Run, v: View)
    requires Sound(r) && !r.Active()
    ensures Wakes(r, v) <==> Tick(r, v).0.Active() || Ends(r, v)
    ensures !Wakes(r, v) ==> Tick(r, v).1.None? && Tick(r, v).0.hooks == r.hooks
    ensures !Wakes(r, v) && r.Finished() ==> StillFinished(r, Tick(r, v).0)
  {
    TickFacts(r, v);
    ReenterFacts(r, v);
  }

  lemma {:induction false} FinishedHand(r: Run, step: Step)
    requires Sound(r) && !r.Active() && !step.Ticks? && !step.Restarts?
    ensures Revives(r, step) <==> Do(r, step).Active()
    ensures !Revives(r, step) && r.Finished() ==> StillFinished(r, Do(r, step))
    ensures Do(r, step).hooks == r.hooks
  {
  }

  /** This move makes the run active, even if the same tick ends it again. */
  predicate Awakens(w: World, m: Move) {
    Next(w, m).run.Active() || (m.step.Ticks? && Ends(w.run, m.step.view))
  }

  predicate DiskActive(w: World) { w.disk.Some? && w.disk.value.Active() }

  /** Owner work, or a restart that finds the record of an unfinished run because the save of its finish was lost. */
  predicate Cause(w: World, m: Move) {
    if m.step.Restarts? then DiskActive(w) else Revives(w.run, m.step)
  }

  /**
   * A run that is not active becomes active exactly by a new goal, by owner work on a done run, by an owner
   * repair, or by a restart onto an unfinished record; every other move leaves its finish as it was.
   */
  lemma {:induction false} FinishedRunRevives(w: World, m: Move)
    requires WorldSound(w) && !w.run.Active()
    ensures Awakens(w, m) <==> Cause(w, m)
    ensures !Cause(w, m) && !m.step.Restarts? ==>
              && Emits(w.run, m.step).None? && Next(w, m).run.hooks == w.run.hooks
              && (w.run.Finished() ==> StillFinished(w.run, Next(w, m).run))
  {
    if m.step.Ticks? {
      FinishedTicks(w.run, m.step.view);
    } else if !m.step.Restarts? {
      FinishedHand(w.run, m.step);
    }
  }

  /** No move of these makes the run active. */
  predicate Undisturbed(w: World, moves: seq<Move>) {
    |moves| == 0
    || (var n := |moves| - 1; Undisturbed(w, moves[..n]) && !Awakens(Play(w, moves[..n]), moves[n]))
  }

  predicate Uncaused(w: World, moves: seq<Move>) {
    |moves| == 0
    || (var n := |moves| - 1; Uncaused(w, moves[..n]) && !Cause(Play(w, moves[..n]), moves[n]))
  }

  predicate Unrevived(w: World, moves: seq<Move>) {
    |moves| == 0
    || (var n := |moves| - 1; Unrevived(w, moves[..n]) && !Revives(Play(w, moves[..n]).run, moves[n].step))
  }

  /** Over every run of moves: a finish is disturbed exactly by the first of them that is a cause. */
  lemma {:induction false} FinishStandsUntilCaused(w: World, moves: seq<Move>)
    requires WorldSound(w) && !w.run.Active()
    ensures Undisturbed(w, moves) <==> Uncaused(w, moves)
    ensures Uncaused(w, moves) ==> !Play(w, moves).run.Active()
  {
    if |moves| > 0 {
      var n := |moves| - 1;
      FinishStandsUntilCaused(w, moves[..n]);
      PlayFacts(w, moves[..n]);
      if Uncaused(w, moves[..n]) { FinishedRunRevives(Play(w, moves[..n]), moves[n]); }
    }
  }

  /** Neither memory nor disk holds an active run. */
  predicate Asleep(w: World) { !w.run.Active() && !DiskActive(w) }

  lemma {:induction false} AsleepStays(w: World, m: Move)
    requires WorldSound(w) && Asleep(w) && !Revives(w.run, m.step)
    ensures Asleep(Next(w, m)) && !Awakens(w, m) && Emits(w.run, m.step).None?
    ensures Next(w, m).run.hooks == if m.step.Restarts? then 0 else w.run.hooks
  {
    FinishedRunRevives(w, m);
  }

  /** A finish that was saved is disturbed exactly by the owner's work, whatever saves fail and restarts come after it. */
  lemma {:induction false} SavedFinishStands(w: World, moves: seq<Move>)
    requires WorldSound(w) && Asleep(w)
    ensures Undisturbed(w, moves) <==> Unrevived(w, moves)
    ensures Unrevived(w, moves) ==>
              Asleep(Play(w, moves)) && Silent(w, moves) && Play(w, moves).run.hooks <= w.run.hooks
  {
    if |moves| > 0 {
      var n := |moves| - 1;
      SavedFinishStands(w, moves[..n]);
      PlayFacts(w, moves[..n]);
      if Unrevived(w, moves[..n]) {
        var mid := Play(w, moves[..n]);
        FinishedRunRevives(mid, moves[n]);
        if !Revives(mid.run, moves[n].step) { AsleepStays(mid, moves[n]); }
      }
    }
  }

  // ------------------------------------------------------------ hooks and finishes

  /** The number of times the run ended in these moves. */
  function Endings(w: World, moves: seq<Move>): nat {
    if |moves| == 0 then 0
    else
      var before := Play(w, moves[..|moves| - 1]).run;
      var step := moves[|moves| - 1].step;
      Endings(w, moves[..|moves| - 1]) + (if step.Ticks? && Ends(before, step.view) then 1 else 0)
  }

  /** Within one process a configured hook runs exactly once per finish, and without one nothing is ever started. */
  lemma {:induction false} HooksMatchEndings(w: World, moves: seq<Move>)
    requires WorldSound(w)
    requires forall i | 0 <= i < |moves| :: !moves[i].step.Restarts?
    ensures Play(w, moves).run.hook == w.run.hook
    ensures Play(w, moves).run.hooks == w.run.hooks + (if w.run.hook then Endings(w, moves) else 0)
  {
    if |moves| > 0 {
      var earlier := moves[..|moves| - 1];
      HooksMatchEndings(w, earlier);
      PlayFacts(w, earlier);
      DoFacts(Play(w, earlier).run, moves[|moves| - 1].step);
    }
  }

  // ------------------------------------------------------------- restored is quiet

  predicate Quiet(w: World) {
    && w.run.Active() && w.run.saved.value.paused && !w.run.saved.value.phase.Finishing? && !w.run.job
    && w.disk.Some? && w.disk.value.Active()
  }

  lemma {:induction false} QuietTick(r: Run, v: View)
    requires r.Active() && r.saved.value.paused && !r.saved.value.phase.Finishing? && !r.job
    ensures Tick(r, v) == (r, None)
  {
  }

  predicate QuietRun(r: Run) { r.Active() && r.saved.value.paused && !r.saved.value.phase.Finishing? && !r.job }

  lemma {:induction false} QuietHand(r: Run, step: Step)
    requires QuietRun(r) && !step.Starts? && !step.Resumes? && !step.Ticks?
    ensures QuietRun(Do(r, step)) && Do(r, step).hooks == r.hooks
  {
  }

  lemma {:induction false} QuietStep(w: World, m: Move)
    requires Quiet(w) && !m.step.Starts? && !m.step.Resumes?
    ensures Quiet(Next(w, m)) && Emits(w.run, m.step).None?
    ensures Next(w, m).run.hooks == if m.step.Restarts? then 0 else w.run.hooks
  {
    if m.step.Ticks? {
      QuietTick(w.run, m.step.view);
    } else if !m.step.Restarts? {
      QuietHand(w.run, m.step);
    }
  }

  /** None of these moves submits anything. */
  predicate Silent(w: World, moves: seq<Move>) {
    |moves| == 0
    || (var n := |moves| - 1;
        Silent(w, moves[..n]) && Emits(Play(w, moves[..n]).run, moves[n].step).None?)
  }

  lemma {:induction false} QuietStays(w: World, moves: seq<Move>)
    requires Quiet(w) && w.run.hooks == 0
    requires forall i | 0 <= i < |moves| :: !moves[i].step.Starts? && !moves[i].step.Resumes?
    ensures Quiet(Play(w, moves)) && Play(w, moves).run.hooks == 0 && Silent(w, moves)
  {
    if |moves| > 0 {
      var n := |moves| - 1;
      QuietStays(w, moves[..n]);
      QuietStep(Play(w, moves[..n]), moves[n]);
    }
  }

  /** A run restored active submits nothing, finishes nothing and calls no hook until it is resumed or replaced. */
  lemma {:induction false} RestoredRunIsQuiet(w: World, hook: bool, moves: seq<Move>, kept: bool)
    requires w.disk.Some? && w.disk.value.Active()
    requires forall i | 0 <= i < |moves| :: !moves[i].step.Starts? && !moves[i].step.Resumes?
    ensures var restored := Next(w, Move(Restarts(hook), kept));
            && Quiet(Play(restored, moves)) && Play(restored, moves).run.hooks == 0
            && Silent(restored, moves)
  {
    QuietStays(Next(w, Move(Restarts(hook), kept)), moves);
  }

  // ---------------------------------------------------------- a repair is spent once

  /** This step re-enters the run, and the repair `id` is one of its reasons. */
  predicate Consumes(r: Run, step: Step, id: nat) {
    && step.Ticks? && Wakes(r, step.view)
    && id in Repaired(step.view.snapshot.value, r.saved.value, r.saved.value.finishedThrough.value)
  }

  /** No later finish can be re-entered for this repair: it is not newer than the watermark. */
  predicate Spent(sv: Saved, id: nat) {
    !sv.Active() && sv.finishedThrough.Some? ==> id <= sv.finishedThrough.value
  }

  predicate SpentInRun(r: Run, id: nat) { r.saved.Some? ==> Spent(r.saved.value, id) }

  /** The store never forgets a task. */
  predicate Reaches(step: Step, id: nat) {
    step.Ticks? && step.view.snapshot.Some? ==> id <= Highest(step.view.snapshot.value)
  }

  lemma {:induction false} SpentStays(r: Run, step: Step, id: nat)
    requires Sound(r) && SpentInRun(r, id) && Reaches(step, id)
    ensures SpentInRun(Do(r, step), id)
    ensures !Consumes(r, step, id)
  {
    if step.Ticks? {
      TickFacts(r, step.view);
      ReenterFacts(r, step.view);
      if r.Finished() && !Wakes(r, step.view) {
        assert Do(r, step) == Reenter(r, step.view);
      }
    }
  }

  lemma {:induction false} ConsumingSpends(r: Run, step: Step, id: nat)
    requires Sound(r) && Consumes(r, step, id)
    ensures SpentInRun(Do(r, step), id)
    ensures id <= Highest(step.view.snapshot.value)
  {
    TickFacts(r, step.view);
  }

  lemma {:induction false} ConsumingIsSaved(w: World, m: Move, id: nat)
    requires Sound(w.run) && Consumes(w.run, m.step, id) && m.kept
    ensures Next(w, m).disk == Do(w.run, m.step).saved
  {
    TickFacts(w.run, m.step.view);
    assert Do(w.run, m.step).saved != w.run.saved;
  }

  predicate SpentOnDisk(w: World, id: nat) { w.disk.Some? ==> Spent(w.disk.value, id) }

  lemma {:induction false} SpentNext(w: World, m: Move, id: nat)
    requires WorldSound(w) && SpentInRun(w.run, id) && Reaches(m.step, id)
    requires SpentOnDisk(w, id) || !m.step.Restarts?
    ensures SpentInRun(Next(w, m).run, id)
    ensures SpentOnDisk(w, id) ==> SpentOnDisk(Next(w, m), id)
  {
    SpentStays(w.run, m.step, id);
  }

  lemma {:induction false} ConsumingNext(w: World, m: Move, id: nat)
    requires WorldSound(w) && Consumes(w.run, m.step, id)
    ensures SpentInRun(Next(w, m).run, id)
    ensures m.kept ==> SpentOnDisk(Next(w, m), id)
  {
    ConsumingSpends(w.run, m.step, id);
    if m.kept { ConsumingIsSaved(w, m, id); }
  }

  /** The repair is spent in memory, and on disk too if its re-entry was saved. */
  predicate SpentSince(w: World, id: nat, kept: bool) { SpentInRun(w.run, id) && (kept ==> SpentOnDisk(w, id)) }

  lemma {:induction false} SpentSinceStays(w: World, m: Move, id: nat, kept: bool)
    requires WorldSound(w) && SpentSince(w, id, kept) && Reaches(m.step, id)
    requires kept || !m.step.Restarts?
    ensures SpentSince(Next(w, m), id, kept)
  {
    SpentNext(w, m, id);
  }

  /** Once consumed, a repair stays spent: for good if that save was kept, else as long as no restart comes. */
  lemma {:induction false} SpentForGood(w: World, later: seq<Move>, id: nat, kept: bool)
    requires WorldSound(w) && SpentSince(w, id, kept)
    requires forall k | 0 <= k < |later| :: Reaches(later[k].step, id) && (kept || !later[k].step.Restarts?)
    ensures SpentSince(Play(w, later), id, kept)
  {
    if |later| > 0 {
      var n := |later| - 1;
      SpentForGood(w, later[..n], id, kept);
      PlayFacts(w, later[..n]);
      SpentSinceStays(Play(w, later[..n]), later[n], id, kept);
    }
  }

  lemma {:induction false} SpentIsNotConsumed(w: World, later: seq<Move>, last: Step, id: nat, kept: bool)
    requires WorldSound(w) && SpentSince(w, id, kept) && Reaches(last, id)
    requires forall k | 0 <= k < |later| :: Reaches(later[k].step, id) && (kept || !later[k].step.Restarts?)
    ensures !Consumes(Play(w, later).run, last, id)
  {
    SpentForGood(w, later, id, kept);
    PlayFacts(w, later);
    SpentStays(Play(w, later).run, last, id);
  }

  lemma {:induction false} ReentrySpends(w: World, m: Move, id: nat)
    requires WorldSound(w) && Consumes(w.run, m.step, id)
    ensures WorldSound(Next(w, m)) && SpentSince(Next(w, m), id, m.kept)
  {
    ConsumingNext(w, m, id);
    NextFacts(w, m);
  }

  /**
   * An owner repair re-enters a run at most once: after the re-entry `m`, what a later tick consumes is another
   * repair, if the save of that re-entry reached the disk, and in the same process in any case.
   */
  lemma {:induction false} RepairConsumedOnce(w: World, m: Move, later: seq<Move>, last: Step, id: nat, other: nat)
    requires WorldSound(w) && Consumes(w.run, m.step, id)
    requires forall k | 0 <= k < |later| :: Reaches(later[k].step, id) && (m.kept || !later[k].step.Restarts?)
    requires Reaches(last, id) && Consumes(Play(Next(w, m), later).run, last, other)
    ensures other != id
  {
    ReentrySpends(w, m, id);
    SpentIsNotConsumed(Next(w, m), later, last, id, m.kept);
  }

  // -------------------------------------------------- what a lost save can repeat

  lemma {:induction false} PlayTwo(w: World, a: Move, b: Move)
    ensures Play(w, [a, b]) == Next(Next(w, a), b)
    ensures Play(w, [a]) == Next(w, a)
  {
    assert [a, b][..1] == [a] && [a][..0] == [];
    assert Play(w, []) == w;
  }

  /** A view in which any stage of a run gives up. */
  const ENDING: View :=
    View(Some(Snapshot([], [])), Control({}, {}, {}, false, map[], {}), false, false, false, None, Early.GiveUp, Some(false), true, true)

  lemma {:induction false} EndingEnds(r: Run)
    requires Sound(r) && r.Live() && !r.saved.value.phase.Finishing?
    ensures Ends(r, ENDING)
  {
  }

  /** Without any owner work that revives a finish, the hook may run. */
  ghost predicate MayCall(w: World) {
    exists moves :: Unrevived(w, moves) && Play(w, moves).run.hooks > 0
  }

  lemma {:induction false} ActiveMayCall(w: World)
    requires WorldSound(w) && w.run.hook && w.run.Active() && !w.run.saved.value.phase.Finishing?
    ensures MayCall(w)
  {
    var resume, tick := Move(Resumes(ENDING), true), Move(Ticks(ENDING), true);
    var resumed := Next(w, resume);
    NextFacts(w, resume);
    assert resumed.run.Live() && resumed.run.hook && !resumed.run.saved.value.phase.Finishing?;
    EndingEnds(resumed.run);
    DoFacts(resumed.run, tick.step);
    PlayTwo(w, resume, tick);
    assert [resume, tick][..1] == [resume] && [resume][..0] == [];
    assert Unrevived(w, [resume]);
    assert Unrevived(w, [resume, tick]);
  }

  lemma {:induction false} AsleepMayNotCall(w: World)
    requires WorldSound(w) && Asleep(w) && w.run.hooks == 0
    ensures !MayCall(w)
  {
    forall moves | Unrevived(w, moves) ensures Play(w, moves).run.hooks == 0 {
      SavedFinishStands(w, moves);
    }
  }

  lemma {:induction false} EndingIsSaved(w: World, m: Move)
    requires WorldSound(w) && w.run.hook && m.step.Ticks? && Ends(w.run, m.step.view)
    ensures var run := Do(w.run, m.step);
            && run.Finished() && run.saved != w.run.saved && run.saved.value.hookFired
            && run.hooks == w.run.hooks + 1 && Next(w, m) == World(run, if m.kept then run.saved else w.disk)
  {
    TickFacts(w.run, m.step.view);
    TickFires(w.run, m.step.view);
    if Wakes(w.run, m.step.view) {
      var sv, s := w.run.saved.value, m.step.view.snapshot.value;
      var id :| id in Repaired(s, sv, sv.finishedThrough.value);
      assert sv.finishedThrough.value < id <= Highest(s);
    }
  }

  /** A tick that ends a run with a hook has fired it. */
  lemma {:induction false} TickFires(r: Run, v: View)
    requires Sound(r) && r.hook && Ends(r, v)
    ensures Tick(r, v).0.saved.value.hookFired
  {
    var p := PollIntegration(r, v);
    PollFacts(r, v);
    if !(v.contended && p.Live()) {
      ReenterFacts(p, v);
      if p.Finished() && !r.Finished() { FreshFinishSleeps(p, v); }
      if Reenter(p, v).Active() { ChooseFires(Reenter(p, v), v); }
    }
  }

  lemma {:induction false} ChooseFires(r: Run, v: View)
    requires Sound(r) && r.hook && r.Active()
    ensures Choose(r, v).0.Finished() ==> Choose(r, v).0.saved.value.hookFired
  {
    if !Waits(r, v) {
      if r.saved.value.phase.Running? { RunningFires(r, v); } else { EarlyFacts(r, v); }
      ChooseFacts(r, v);
    }
  }

  lemma {:induction false} RunningFires(r: Run, v: View)
    requires Sound(r) && r.hook && r.Active() && v.snapshot.Some? && r.saved.value.phase.Running?
    ensures RunningStep(r, v).0.Finished() ==> RunningStep(r, v).0.saved.value.hookFired
    ensures !RunningStep(r, v).1.Idle? ==> RunningStep(r, v).0.Active()
  {
    RunningFacts(r, v);
  }

  /**
   * The hook starts before the finish is saved. After a finish and a restart the hook may run again without any
   * owner work exactly if the save of the finish was lost and the disk still holds the unfinished run; a finish
   * that was saved comes back finished, with its hook spent.
   */
  lemma {:induction false} FinishCallsAgainIffLost(w: World, m: Move, kept: bool)
    requires WorldSound(w) && w.run.hook && m.step.Ticks? && Ends(w.run, m.step.view)
    ensures var restarted := Next(Next(w, m), Move(Restarts(true), kept));
            && Next(w, m).run.hooks == w.run.hooks + 1
            && (MayCall(restarted) <==> !m.kept && DiskActive(w))
            && (m.kept ==> restarted.run.Finished() && restarted.run.saved.value.hookFired)
  {
    EndingIsSaved(w, m);
    NextFacts(w, m);
    var restart := Move(Restarts(true), kept);
    var restarted := Next(Next(w, m), restart);
    NextFacts(Next(w, m), restart);
    if DiskActive(Next(w, m)) { ActiveMayCall(restarted); } else { AsleepMayNotCall(restarted); }
  }

  // ------------------------------------------------- a re-entry whose save is lost

  /** This record, opened again, is woken by the repair `id`. */
  predicate RecordWakes(sv: Saved, v: View, id: nat) {
    && !sv.Active() && Reenterable(sv) && sv.first.Some? && sv.finishedThrough.Some? && v.snapshot.Some?
    && id in Repaired(v.snapshot.value, sv, sv.finishedThrough.value)
  }

  lemma {:induction false} SpentSleeps(sv: Saved, v: View, id: nat)
    requires Spent(sv, id)
    ensures !RecordWakes(sv, v, id)
  {
  }

  lemma {:induction false} OpenedConsumes(disk: Option<Saved>, hook: bool, v: View, id: nat)
    ensures Consumes(OpenRun(disk, hook), Ticks(v), id) <==> disk.Some? && RecordWakes(disk.value, v, id)
  {
  }

  /**
   * After a re-entry and a restart the same repair is consumed again exactly if the save of the re-entry was
   * lost and the record on the disk still wakes for it.
   */
  lemma {:induction false} RestartConsumesIffLost(w: World, m: Move, hook: bool, v: View, id: nat)
    requires WorldSound(w) && Consumes(w.run, m.step, id) && Reaches(Ticks(v), id)
    ensures Consumes(Next(Next(w, m), Move(Restarts(hook), true)).run, Ticks(v), id)
            <==> !m.kept && w.disk.Some? && RecordWakes(w.disk.value, v, id)
  {
    ReentrySpends(w, m, id);
    ConsumingIsWritten(w, m, id);
    var disk := Next(w, m).disk;
    OpenedConsumes(disk, hook, v, id);
    if m.kept && disk.Some? { SpentSleeps(disk.value, v, id); }
  }

  lemma {:induction false} ConsumingIsWritten(w: World, m: Move, id: nat)
    requires WorldSound(w) && Consumes(w.run, m.step, id)
    ensures !m.kept ==> Next(w, m).disk == w.disk
  {
  }

  predicate AllReach(moves: seq<Move>, id: nat) { forall k | 0 <= k < |moves| :: Reaches(moves[k].step, id) }

  /** After these moves the repair is consumed again. */
  predicate ConsumedAgain(w: World, later: seq<Move>, last: Step, id: nat) {
    AllReach(later, id) && Reaches(last, id) && Consumes(Play(w, later).run, last, id)
  }

  lemma {:induction false} LostReentryIsRepeated(w: World, m: Move, id: nat)
    requires WorldSound(w) && Consumes(w.run, m.step, id) && w.disk == w.run.saved && !m.kept
    ensures ConsumedAgain(Next(w, m), [Move(Restarts(w.run.hook), true)], m.step, id)
  {
    var restart := Move(Restarts(w.run.hook), true);
    RestartConsumesIffLost(w, m, w.run.hook, m.step.view, id);
    PlayTwo(Next(w, m), restart, restart);
  }

  /** When the finish it wakes was saved, an owner repair can be consumed again, at any later time, exactly if the save of its re-entry was lost. */
  lemma {:induction false} RepairConsumedAgainIffLost(w: World, m: Move, id: nat)
    requires WorldSound(w) && Consumes(w.run, m.step, id) && w.disk == w.run.saved
    ensures (exists later, last :: ConsumedAgain(Next(w, m), later, last, id)) <==> !m.kept
  {
    if m.kept {
      forall later, last ensures !ConsumedAgain(Next(w, m), later, last, id) {
        if ConsumedAgain(Next(w, m), later, last, id) { RepairConsumedOnce(w, m, later, last, id, id); }
      }
    } else {
      LostReentryIsRepeated(w, m, id);
    }
  }

  const LINE: Snapshot := Snapshot([Task([], Status.Failed, true, true, None), Task([], Status.Proposed, true, false, Some(1))], [])

  const PEEK: View := View(Some(LINE), Control({}, {}, {}, false, map[], {}), false, true, false, None, Early.Nothing, None, true, true)

  /** A done run whose only family failed and was then repaired by the owner. */
  const STOPPED: Saved :=
    Saved(Phase.Done, false, 0, true, Some(1), 0, [1], {}, None, 0, false, false, Some(1), map[], false)

  /** Such a run exists: its re-entry is not saved, and after a restart the same repair is consumed again. */
  lemma {:induction false} LostReentryRepeats()
    ensures var w := World(OpenRun(Some(STOPPED), false), Some(STOPPED));
            var moves := [Move(Ticks(PEEK), false), Move(Restarts(false), true), Move(Ticks(PEEK), true)];
            && WorldSound(w)
            && Consumes(w.run, moves[0].step, 2)
            && Consumes(Play(w, moves[..2]).run, moves[2].step, 2)
  {
    var w := World(OpenRun(Some(STOPPED), false), Some(STOPPED));
    var moves := [Move(Ticks(PEEK), false), Move(Restarts(false), true), Move(Ticks(PEEK), true)];
    WakesStopped(w.run);
    assert moves[..2] == [moves[0], moves[1]];
    assert moves[..2][..1] == [moves[0]];
    assert [moves[0]][..0] == [];
    assert Play(w, [moves[0]]).disk == w.disk;
    assert Play(w, moves[..2]).run == OpenRun(Some(STOPPED), false);
  }

  lemma {:induction false} WakesStopped(r: Run)
    requires r.saved == Some(STOPPED)
    ensures Wakes(r, PEEK) && Consumes(r, Ticks(PEEK), 2)
  {
    assert RepairRoot(LINE, 1) == Some(1);
    assert Above([1], 1) == [1] by { assert Above([], 1) == []; assert [1][..0] == []; }
    assert Roots(STOPPED.AsPlan())[0] == 1;
    assert IsRepaired(LINE, STOPPED, 1, 2);
    assert 2 in Repaired(LINE, STOPPED, 1);
  }
}
