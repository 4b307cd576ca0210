/** What one tick makes of a live run: which command it submits, when it stops or pauses, and how it goes on. */
module AutopilotChoices {
  import opened Families
  import opened AutopilotState
  import opened AutopilotRuns
  import L = Liveness
  import P = Progress

  /** Nothing keeps a live run from deciding in this tick. */
  predicate Decides(r: Run, v: View) {
    && r.Live() && !r.job && !r.saved.value.phase.Finishing? && !v.contended && !v.waiting && v.snapshot.Some?
  }

  lemma {:induction false} DecidingTick(r: Run, v: View)
    requires Decides(r, v)
    ensures Tick(r, v) == Choose(r, v) && !Waits(r, v)
  {
  }

  /** Contention pauses a live run without a submission; while a command is unanswered, or without a snapshot, nothing is submitted. */
  lemma {:induction false} NoChoiceWhileBusy(r: Run, v: View)
    requires r.Live() && !r.job
    ensures v.contended ==> Tick(r, v) == (r.(saved := Some(r.saved.value.(paused := true))), None)
    ensures !v.contended && (v.waiting || v.snapshot.None?) ==> Tick(r, v) == (r, None)
  {
  }

  /** A cause that no repair can help ends the run at once, re-entrant exactly if the model server was out of reach. */
  lemma {:induction false} StopEndsTheRun(r: Run, v: View)
    requires Decides(r, v) && r.saved.value.phase.Running? && v.stop.Some?
    ensures var (next, submitted) := Tick(r, v);
            && submitted.None? && next.Finished() && next.saved.value.phase.Failed?
            && next.saved.value.reentrant == v.stop.value
            && next.saved.value.finishedThrough == Some(|v.snapshot.value.tasks|)
  {
    DecidingTick(r, v);
  }

  /** The stages before the tasks run follow each other one by one, and the last one says which tasks to run. */
  lemma {:induction false} StagesFollow(r: Run, v: View)
    requires Decides(r, v) && v.early.GoOn? && (r.saved.value.phase.Scoping? || r.saved.value.phase.Planning? || r.saved.value.phase.Saving?)
    ensures var (next, submitted) := Tick(r, v);
            && submitted.None? && next.Live() && next.attempts == map[]
            && match r.saved.value.phase
               case Scoping => next.saved == Some(r.saved.value.(phase := Phase.Planning))
               case Planning => next.saved == Some(r.saved.value.(phase := Phase.Saving))
               case _ => next.saved == Some(r.saved.value.(phase := Phase.Running, first := Some(v.early.first), count := v.early.count))
  {
    DecidingTick(r, v);
  }

  /** What the stages before do otherwise: wait, pause on what they cannot read, end the run for good, or ask for their request. */
  lemma {:induction false} StagesMayFail(r: Run, v: View)
    requires Decides(r, v) && (r.saved.value.phase.Scoping? || r.saved.value.phase.Planning? || r.saved.value.phase.Saving?)
    ensures var (next, submitted) := Tick(r, v);
            match v.early
            case Nothing => next == r && submitted.None?
            case Broken => submitted.None? && next == r.(saved := Some(r.saved.value.(paused := true)))
            case GiveUp =>
              && submitted.None? && next.Finished() && next.saved.value.phase.Failed? && !next.saved.value.reentrant
              && next.saved.value.finishedThrough == Some(|v.snapshot.value.tasks|)
            case Ask(name) =>
              && next.Active() && next.saved.value.phase == r.saved.value.phase
              && (submitted == Some(Stage(name)) || (submitted.None? && next.saved.value.paused))
              && (!v.refused && Stage(name) !in r.attempts ==> submitted.Some? && next.Live())
            case GoOn(_, _) => true
  {
    DecidingTick(r, v);
    if v.early.Ask? { AskIsAdmitted(r, v); }
  }

  lemma {:induction false} AskIsAdmitted(r: Run, v: View)
    requires !Waits(r, v) && !r.saved.value.phase.Running? && v.early.Ask?
    ensures Choose(r, v) == Admit(r, Stage(v.early.name), v.refused)
    ensures var (next, submitted) := Admit(r, Stage(v.early.name), v.refused);
            && next.Active() && next.saved.value.phase == r.saved.value.phase
            && (submitted == Some(Stage(v.early.name)) || (submitted.None? && next.saved.value.paused))
            && (!v.refused && Stage(v.early.name) !in r.attempts ==> submitted.Some? && next.Live())
  {
  }

  /** A revision by the owner before the draft is saved takes the run back to planning, and changes nothing else of it. */
  lemma {:induction false} RevisionIsPlanned(r: Run, unsaved: bool)
    requires r.saved.Some?
    ensures var sv := r.saved.value;
            var next := Revise(r, unsaved);
            && next.saved.Some?
            && next.saved.value.phase == (if unsaved && sv.phase.Saving? then Phase.Planning else sv.phase)
            && next == r.(saved := Some(sv.(phase := next.saved.value.phase)))
  {
  }

  /** Coming back from a finish, the run is live in its running phase, with its counters cleared and its hook unspent. */
  lemma {:induction false} RevivedIsLive(r: Run, step: Step)
    requires Sound(r) && !r.Active() && Revives(r, step)
    ensures var back := if step.Ticks? then Reenter(r, step.view) else Do(r, step);
            && back.Live() && !back.saved.value.hookFired && back.attempts == map[]
            && (!step.Starts? ==>
                  && r.saved.Some? && back.saved.value.phase.Running?
                  && back.saved.value.branch == r.saved.value.branch && back.saved.value.first == r.saved.value.first)
            && back.saved.value.reentrant == (step.Ticks? && r.saved.value.reentrant)
            && (step.Starts? ==> back.saved.value.finishedThrough.None? && back.saved.value.branch.None? && back.saved.value.limits == map[])
  {
  }

  /** After a recovery is submitted, the run that it records as cancelled is run again without the owner. */
  lemma {:induction false} RecoveredRunGoesOn(r: Run, v: View, h: nat, later: Snapshot)
    requires Decides(r, v) && r.saved.value.phase.Running? && Tick(r, v).1 == Some(OnTask(RecoverTask(h)))
    requires Has(later, h) && At(later, h).status.Cancelled?
    ensures Tick(r, v).0.saved.Some? && h in Tick(r, v).0.recovering
    ensures h in SettleRecovered(Tick(r, v).0, later).saved.value.retryCancelled
  {
    DecidingTick(r, v);
    var s := v.snapshot.value;
    var settled := SettleRecovered(r, s);
    var fs := FamiliesOf(s, v.control, settled.saved.value);
    assert v.stop.None?;
    var command := NextCommand(s, v.control, fs);
    assert command.Some? && v.prepared && KeyOf(s, command.value) == OnTask(RecoverTask(h));
  }

  /** The families of a run settle root by root. */
  lemma {:induction false} SettledFrom(s: Snapshot, p: Plan, c: Control, roots: seq<nat>, f: Family)
    requires f in Settle(s, p, c, roots)
    ensures Has(s, f.root) && f.head == Head(s, f.root)
    ensures exists earlier :: f.settled == SettleFamily(s, p, c, earlier, f.root)
  {
    if |roots| > 0 && f in Settle(s, p, c, roots[..|roots| - 1]) { SettledFrom(s, p, c, roots[..|roots| - 1], f); }
  }

  /** The heads of a run's families do not depend on what was resumed. */
  lemma {:induction false} SameHeads(s: Snapshot, p: Plan, q: Plan, c: Control, roots: seq<nat>)
    ensures |Settle(s, p, c, roots)| == |Settle(s, q, c, roots)|
    ensures forall k | 0 <= k < |Settle(s, p, c, roots)| ::
              Settle(s, p, c, roots)[k].root == Settle(s, q, c, roots)[k].root
              && Settle(s, p, c, roots)[k].head == Settle(s, q, c, roots)[k].head
  {
    if |roots| > 0 { SameHeads(s, p, q, c, roots[..|roots| - 1]); }
  }

  /** A resume leaves no family waiting for a resume: every cancelled run may be run again, and the run is live with fresh counters. */
  lemma {:induction false} ResumeReopensCancelled(r: Run, v: View, f: Family)
    requires r.Active() && v.snapshot.Some? && r.saved.value.first.Some?
    requires f in FamiliesOf(v.snapshot.value, v.control, Resume(r, v).saved.value)
    ensures Resume(r, v).Live() && Resume(r, v).saved.value.phase == r.saved.value.phase
    ensures Resume(r, v).attempts == map[] && Resume(r, v).transient == 0 && Resume(r, v).lastKey.None? && Resume(r, v).recovering == {}
    ensures !f.settled.CancelledRun?
  {
    var s, c := v.snapshot.value, v.control;
    var old_, new_ := r.saved.value, Resume(r, v).saved.value;
    var roots := Roots(old_.AsPlan());
    assert Roots(new_.AsPlan()) == roots;
    SettledFrom(s, new_.AsPlan(), c, roots, f);
    SameHeads(s, old_.AsPlan(), new_.AsPlan(), c, roots);
    var fs := FamiliesOf(s, c, new_);
    var k :| 0 <= k < |fs| && fs[k] == f;
    if Has(s, f.head) && At(s, f.head).status.Cancelled? && At(s, f.head).run {
      assert FamiliesOf(s, c, old_)[k].head == f.head;
      assert f.head in new_.retryCancelled;
    }
  }

  /**
   * A running step submits the next command of the run and nothing else, dispatch once for each state of the ledger;
   * it pauses instead if the command cannot be prepared or has been tried too often without effect.
   */
  lemma {:induction false} NextCommandIsSubmitted(r: Run, v: View)
    requires Decides(r, v) && r.saved.value.phase.Running? && r.saved.value.first.Some? && r.recovering == {} && v.stop.None?
    requires NextCommand(v.snapshot.value, v.control, FamiliesOf(v.snapshot.value, v.control, r.saved.value)).Some?
    ensures var command := NextCommand(v.snapshot.value, v.control, FamiliesOf(v.snapshot.value, v.control, r.saved.value)).value;
            var key := if command.DispatchOn? then Dispatching(|v.snapshot.value.receipts|) else OnTask(command);
            var (next, submitted) := Tick(r, v);
            && next.Active() && next.saved.value.phase.Running?
            && (submitted == Some(key) || (submitted.None? && next.saved.value.paused))
            && (!v.prepared ==> submitted.None?)
            && (v.prepared && !v.refused && key !in r.attempts ==> submitted.Some? && next.Live())
  {
    DecidingTick(r, v);
    var settled := SettleRecovered(r, v.snapshot.value);
    assert settled.saved.value.retryCancelled == r.saved.value.retryCancelled;
    assert settled.saved.value == r.saved.value;
  }

  // ------------------------------------------------------------ ends of a run

  /** An integration that comes back ends the run, which names its branch exactly if it was built; a stale one is only discarded. */
  lemma {:induction false} IntegrationEndsTheRun(r: Run, v: View)
    requires Sound(r) && r.job && v.integration.Some? && v.snapshot.Some?
    ensures var p := PollIntegration(r, v);
            && !p.job && p.saved.Some? && p.saved.value.round == r.saved.value.round
            && (if r.saved.value.stale then p.Active() && p.saved.value.phase.Running? && !p.saved.value.stale && p.attempts == map[]
                else
                  && p.Finished() && p.saved.value.phase.Done?
                  && p.saved.value.branch == (if v.integration.value then Some(r.saved.value.round) else None)
                  && p.saved.value.finishedThrough == Some(|v.snapshot.value.tasks|))
  {
  }

  /** The owner's work that arrives while the branch is built is not lost: the integration is discarded and the run goes on in a new round. */
  lemma {:induction false} LateWorkIsNotLost(r: Run, v: View)
    requires Sound(r) && r.job && v.integration.Some?
    ensures var late := PollIntegration(Reopen(r), v);
            && late.Active() && late.saved.value.phase.Running?
            && late.saved.value.round == r.saved.value.round + (if r.saved.value.stale then 0 else 1)
  {
  }

  lemma {:induction false} InsertedIsIn(ids: seq<nat>, id: nat)
    ensures id in Insert(ids, id) && forall x | x in ids :: x in Insert(ids, id)
  {
    var all := multiset(ids) + multiset{id};
    assert multiset(Insert(ids, id)) == all && id in all;
    forall x | x in ids ensures x in Insert(ids, id) {
      assert x in multiset(ids);
      assert x in multiset(Insert(ids, id));
    }
  }

  /** An adopted follow-up is one of the run's families from then on, none is lost, and a done run is live again. */
  lemma {:induction false} AdoptedIsAFamily(r: Run, task: nat, root: nat)
    requires Sound(r) && r.saved.Some? && r.saved.value.first.Some?
    requires task >= r.saved.value.first.value + r.saved.value.count
    ensures var next := Adopt(r, task);
            && next.saved.Some? && task in Roots(next.saved.value.AsPlan())
            && (root in Roots(r.saved.value.AsPlan()) ==> root in Roots(next.saved.value.AsPlan()))
            && (r.saved.value.phase.Done? && task !in r.saved.value.adopted ==> next.Live())
  {
    AdoptedPlan(r, task);
    AdoptedRoots(r.saved.value.AsPlan(), task, root);
  }

  lemma {:induction false} AdoptedPlan(r: Run, task: nat)
    requires Sound(r) && r.saved.Some? && r.saved.value.first.Some?
    ensures var next := Adopt(r, task);
            && next.saved.Some?
            && next.saved.value.AsPlan() == (if task in r.saved.value.adopted then r.saved.value.AsPlan()
                                             else r.saved.value.AsPlan().(adopted := Insert(r.saved.value.adopted, task)))
            && (r.saved.value.phase.Done? && task !in r.saved.value.adopted ==> next.Live())
  {
  }

  lemma {:induction false} AdoptedRoots(p: Plan, task: nat, root: nat)
    requires task >= p.first + p.count
    ensures task in p.adopted ==> task in Roots(p)
    ensures var more := p.(adopted := Insert(p.adopted, task)); task in Roots(more) && (root in Roots(p) ==> root in Roots(more))
  {
    InsertedIsIn(p.adopted, task);
    L.RootsAre(p, root);
    L.RootsAre(p, task);
    L.RootsAre(p.(adopted := Insert(p.adopted, task)), root);
    L.RootsAre(p.(adopted := Insert(p.adopted, task)), task);
  }

  /** The owner's repair moves only the limits of the repaired families: to what is counted, and after a stop for the model server to one more than a run may repair by itself. */
  lemma {:induction false} OnlyRepairedAreLimited(s: Snapshot, sv: Saved, through: nat, root: nat)
    ensures var limits := NewLimits(s, sv, through);
            if root in RepairedRoots(s, sv, through) && Has(s, root)
            then
              && root in limits && limits[root] >= Repairs(s, root)
              && (sv.phase.Failed? && sv.reentrant ==> limits[root] >= sv.maxRepairs + 1)
              && (limits[root] == Repairs(s, root) || (sv.phase.Failed? && sv.reentrant && limits[root] == sv.maxRepairs + 1))
            else (root in limits <==> root in sv.limits) && (root in limits ==> limits[root] == sv.limits[root])
  {
  }

  /** A run that starts is live with nothing of an earlier one: on the tasks it is given, or from the first stage, or at saving an open draft. */
  lemma {:induction false} StartsAfresh(r: Run, maxRepairs: nat, draft: bool, ids: seq<nat>, workers: set<nat>)
    requires maxRepairs <= MAX_REPAIRS && (r.Active() ==> r.saved.value.paused && workers == {})
    ensures var next := Start(r, maxRepairs, draft, ids, workers);
            && next.Live() && !next.job && next.attempts == map[] && next.transient == 0 && next.lastKey.None?
            && next.saved.value.maxRepairs == maxRepairs && !next.saved.value.hookFired && next.saved.value.round == 0
            && (if |ids| > 0 then next.saved.value.phase.Running? && next.saved.value.first == Some(ids[0]) && next.saved.value.adopted == ids
                else next.saved.value.first.None? && (if draft then next.saved.value.phase.Saving? else next.saved.value.phase.Scoping?))
  {
  }

  /** While a run is active and not paused, or workers still run, no other starts. */
  lemma {:induction false} NoStartBeside(r: Run, maxRepairs: nat, draft: bool, ids: seq<nat>, workers: set<nat>)
    requires maxRepairs > MAX_REPAIRS || (r.Active() && (!r.saved.value.paused || workers != {}))
    ensures Start(r, maxRepairs, draft, ids, workers) == r
  {
  }

  /** The run leaves its running phase, other than by a stop, exactly when there is no command, no worker and no open family. */
  lemma {:induction false} LeavesExactlyWhenDone(r: Run, v: View)
    requires Decides(r, v) && r.saved.value.phase.Running? && r.saved.value.first.Some? && r.recovering == {} && v.stop.None?
    ensures var fs := FamiliesOf(v.snapshot.value, v.control, r.saved.value);
            var next := Tick(r, v).0.saved.value.phase;
            (next.Finishing? || next.Done?) <==>
              && NextCommand(v.snapshot.value, v.control, fs).None? && v.control.workers == {}
              && forall i | 0 <= i < |fs| :: !fs[i].settled.Active?
    ensures !Tick(r, v).0.saved.value.phase.Failed?
  {
    DecidingTick(r, v);
    RunningLeaves(r, v);
    ChoiceKeepsPhase(r, v);
    IntegrationLeaves(r, v, FamiliesOf(v.snapshot.value, v.control, r.saved.value));
  }

  lemma {:induction false} RunningLeaves(r: Run, v: View)
    requires r.Live() && v.snapshot.Some? && r.saved.value.phase.Running? && r.saved.value.first.Some? && r.recovering == {} && v.stop.None?
    ensures var fs := FamiliesOf(v.snapshot.value, v.control, r.saved.value);
            if NextCommand(v.snapshot.value, v.control, fs).None? && v.control.workers == {} && !Open(fs)
            then RunningStep(r, v) == (Integrate(r, v, fs), Decision.Idle)
            else RunningStep(r, v).0.saved == r.saved
  {
    NothingRecovered(r, v.snapshot.value);
  }

  lemma {:induction false} NothingRecovered(r: Run, s: Snapshot)
    requires r.saved.Some? && r.recovering == {}
    ensures SettleRecovered(r, s) == r
  {
    assert SettleRecovered(r, s).saved.value.retryCancelled == r.saved.value.retryCancelled;
    assert SettleRecovered(r, s).recovering == {};
  }

  lemma {:induction false} IntegrationLeaves(r: Run, v: View, fs: seq<Family>)
    requires r.saved.Some? && v.snapshot.Some?
    ensures Integrate(r, v, fs).saved.Some?
    ensures Integrate(r, v, fs).saved.value.phase.Finishing? || Integrate(r, v, fs).saved.value.phase.Done?
  {
  }

  lemma {:induction false} ChoiceKeepsPhase(r: Run, v: View)
    requires !Waits(r, v) && r.saved.value.phase.Running?
    ensures var next := RunningStep(r, v).0;
            Choose(r, v).0.saved.Some? == next.saved.Some?
            && (next.saved.Some? ==> Choose(r, v).0.saved.value.phase == next.saved.value.phase)
  {
  }

  /** A repair in the store, newer than the finish and not cancelled, that goes back to a family of the run. */
  predicate NewerRepair(s: Snapshot, sv: Saved, id: nat) {
    && 1 <= id <= |s.tasks| && sv.finishedThrough.Some? && id > sv.finishedThrough.value
    && s.tasks[id - 1].repairOf.Some? && !s.tasks[id - 1].status.Cancelled?
    && RepairRoot(s, s.tasks[id - 1].repairOf.value).Some?
    && RepairRoot(s, s.tasks[id - 1].repairOf.value).value in Roots(sv.AsPlan())
  }

  /** What wakes a finished run is a newer repair, after a finish that was done or failed for the model server alone. */
  lemma {:induction false} WakesExactlyWhen(r: Run, v: View)
    requires r.Finished() && v.snapshot.Some? && r.saved.value.first.Some? && r.saved.value.finishedThrough.Some?
    ensures var s, sv := v.snapshot.value, r.saved.value;
            Wakes(r, v) <==> (sv.phase.Done? || sv.reentrant) && exists id: nat :: NewerRepair(s, sv, id)
  {
    var s, sv := v.snapshot.value, r.saved.value;
    var through := sv.finishedThrough.value;
    assert forall id: nat :: NewerRepair(s, sv, id) <==> id in Repaired(s, sv, through);
  }
}
