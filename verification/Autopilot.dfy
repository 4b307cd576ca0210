/** The autopilot object: its methods update the saved record and the loop's counters in place. */
module Autopilot {
  import opened Families
  import opened AutopilotState

  /** Settlement has one family for every root that exists, with its counted repairs. */
  lemma {:induction false} SettleCovers(s: Snapshot, p: Plan, c: Control, roots: seq<nat>)
    ensures var fs := Settle(s, p, c, roots);
            && (forall i | 0 <= i < |fs| :: fs[i].root in roots && Has(s, fs[i].root) && fs[i].repairs == Repairs(s, fs[i].root))
            && (forall root | root in roots && Has(s, root) :: exists i | 0 <= i < |fs| :: fs[i].root == root)
  {
    if |roots| > 0 {
      var n := |roots| - 1;
      SettleCovers(s, p, c, roots[..n]);
      var earlier := Settle(s, p, c, roots[..n]);
      var fs := Settle(s, p, c, roots);
      forall root | root in roots && Has(s, root) ensures exists i | 0 <= i < |fs| :: fs[i].root == root {
        if root in roots[..n] {
          var i :| 0 <= i < |earlier| && earlier[i].root == root;
          assert fs[i].root == root;
        } else {
          assert fs[|earlier|].root == root;
        }
      }
    }
  }

  /** The families of these that were repaired. */
  function RootsAmong(fs: seq<Family>, repaired: set<nat>): set<nat> {
    if |fs| == 0 then {}
    else RootsAmong(fs[..|fs| - 1], repaired) + (if fs[|fs| - 1].root in repaired then {fs[|fs| - 1].root} else {})
  }

  lemma {:induction false} AmongMeans(fs: seq<Family>, repaired: set<nat>, root: nat)
    ensures root in RootsAmong(fs, repaired) <==> root in repaired && exists i | 0 <= i < |fs| :: fs[i].root == root
  {
    if |fs| > 0 {
      var n := |fs| - 1;
      AmongMeans(fs[..n], repaired, root);
      if root in repaired && (exists i | 0 <= i < |fs| :: fs[i].root == root) {
        var i :| 0 <= i < |fs| && fs[i].root == root;
        if i < n { assert fs[..n][i].root == root; }
      }
    }
  }

  lemma {:induction false} LimitInserted(s: Snapshot, sv: Saved, roots: set<nat>, root: nat)
    ensures LimitsFor(s, sv, roots)[root := OwnerLimit(s, sv, root)] == LimitsFor(s, sv, roots + {root})
  {
  }

  lemma {:induction false} AllLimited(s: Snapshot, c: Control, sv: Saved, through: nat, fs: seq<Family>)
    requires fs == Settle(s, sv.AsPlan(), c, Roots(sv.AsPlan()))
    ensures RootsAmong(fs, RepairedRoots(s, sv, through)) == Limited(s, sv, through)
  {
    SettleCovers(s, sv.AsPlan(), c, Roots(sv.AsPlan()));
    var repaired := RepairedRoots(s, sv, through);
    forall root ensures root in RootsAmong(fs, repaired) <==> root in Limited(s, sv, through) {
      AmongMeans(fs, repaired, root);
    }
  }

  class Autopilot {
    var saved: Option<Saved>
    var lastKey: Option<Key>
    var attempts: map<Key, nat>
    var transient: nat
    var recovering: set<nat>
    var job: bool
    var onFinish: bool
    var hooks: nat

    function Value(): Run
      reads this
    {
      Run(saved, lastKey, attempts, transient, recovering, job, onFinish, hooks)
    }

    /** A saved active run comes back paused, without its job or counters. */
    constructor (disk: Option<Saved>, hook: bool)
      ensures Value() == OpenRun(disk, hook)
    {
      saved := if disk.None? then None else Some(Restored(disk.value));
      lastKey, attempts, transient := None, map[], 0;
      recovering, job, onFinish, hooks := {}, false, hook, 0;
    }

    method StartHook()
      modifies this`saved, this`hooks
      ensures Value() == FireHook(old(Value()))
    {
      if !onFinish || saved.None? { return; }
      if saved.value.hookFired { return; }
      saved := Some(saved.value.(hookFired := true));
      hooks := hooks + 1;
    }

    method FailWithNext(s: Snapshot, reentrant: bool)
      requires saved.Some?
      modifies this`saved, this`hooks
      ensures Value() == Fail(old(Value()), s, reentrant)
    {
      saved := Some(saved.value.(phase := Phase.Failed, reentrant := reentrant, finished := true));
      saved := Some(saved.value.(finishedThrough := Some(Highest(s))));
      StartHook();
    }

    method CompleteRun(s: Snapshot, built: bool)
      requires saved.Some?
      modifies this`saved, this`hooks
      ensures Value() == Complete(old(Value()), s, built)
    {
      var branch := if built then Some(saved.value.round) else None;
      saved := Some(saved.value.(phase := Phase.Done, finished := true));
      saved := Some(saved.value.(finishedThrough := Some(Highest(s)), branch := branch));
      StartHook();
    }

    method PollJob(v: View)
      modifies this
      ensures Value() == PollIntegration(old(Value()), v)
    {
      if !job || v.integration.None? { return; }
      job := false;
      if saved.Some? && saved.value.stale {
        saved := Some(saved.value.(stale := false, phase := Phase.Running));
        attempts := map[];
        return;
      }
      if saved.Some? && v.snapshot.Some? { CompleteRun(v.snapshot.value, v.integration.value); }
    }

    method HaltLoop()
      modifies this`saved
      ensures Value() == Halt(old(Value()))
    {
      if saved.Some? { saved := Some(saved.value.(paused := true)); }
    }

    method ResumeRunning()
      requires saved.Some?
      modifies this`saved, this`attempts
      ensures Value() == old(Value()).(saved := Some(Reopened(old(saved).value)), attempts := map[])
    {
      saved := Some(saved.value.(phase := Phase.Running, paused := false, finished := false, hookFired := false));
      if saved.value.branch.Some? { saved := Some(saved.value.(round := saved.value.round + 1)); }
      attempts := map[];
    }

    /** The roots of this run with a repair saved after the finish. */
    method RootsRepaired(s: Snapshot, sv: Saved, through: nat) returns (roots: set<nat>, found: bool)
      ensures roots == RepairedRoots(s, sv, through)
      ensures found <==> Repaired(s, sv, through) != {}
    {
      roots, found := {}, false;
      var mine := Roots(sv.AsPlan());
      for id := 1 to |s.tasks| + 1
        invariant roots == set k | 1 <= k < id && IsRepaired(s, sv, through, k) :: RepairRoot(s, At(s, k).repairOf.value).value
        invariant found <==> exists k | 1 <= k < id :: IsRepaired(s, sv, through, k)
      {
        var task := s.tasks[id - 1];
        if id > through && !task.status.Cancelled? && task.repairOf.Some? {
          var root := RepairRoot(s, task.repairOf.value);
          if root.Some? && root.value in mine {
            assert IsRepaired(s, sv, through, id);
            roots := roots + {root.value};
            found := true;
          }
        }
      }
      if found {
        var k :| 1 <= k <= |s.tasks| && IsRepaired(s, sv, through, k);
        assert k in Repaired(s, sv, through);
      }
    }

    /** One entry per repaired family, inserted family by family. */
    method LimitFamilies(s: Snapshot, c: Control, sv: Saved, through: nat, repaired: set<nat>) returns (limits: map<nat, nat>)
      requires repaired == RepairedRoots(s, sv, through) && sv.first.Some?
      ensures limits == NewLimits(s, sv, through)
    {
      var families := SettleAll(s, sv.AsPlan(), c);
      SettleCovers(s, sv.AsPlan(), c, Roots(sv.AsPlan()));
      var reentrant := sv.phase.Failed? && sv.reentrant;
      limits := sv.limits;
      ghost var done: set<nat> := {};
      for k := 0 to |families|
        invariant done == RootsAmong(families[..k], repaired)
        invariant limits == LimitsFor(s, sv, done)
      {
        var f := families[k];
        assert families[..k + 1] == families[..k] + [f];
        if f.root in repaired {
          var limit := if reentrant && f.repairs < sv.maxRepairs + 1 then sv.maxRepairs + 1 else f.repairs;
          assert limit == OwnerLimit(s, sv, f.root);
          LimitInserted(s, sv, done, f.root);
          limits := limits[f.root := limit];
          done := done + {f.root};
        }
      }
      assert families[..|families|] == families;
      AllLimited(s, c, sv, through, families);
    }

    method ReenterForRepair(v: View)
      modifies this`saved, this`attempts
      ensures Value() == Reenter(old(Value()), v)
    {
      if saved.None? || v.snapshot.None? { return; }
      if saved.value.Active() || saved.value.first.None? { return; }
      var s := v.snapshot.value;
      var sv := saved.value;
      saved := Some(sv.(finishedThrough := Some(Highest(s))));
      if sv.finishedThrough.None? { return; }
      var through := sv.finishedThrough.value;
      var repaired, found := RootsRepaired(s, sv, through);
      if !found || !Reenterable(sv) { return; }
      var limits := LimitFamilies(s, v.control, sv, through, repaired);
      saved := Some(saved.value.(limits := limits));
      ResumeRunning();
    }

    method ReopenRun()
      modifies this`saved, this`attempts
      ensures Value() == Reopen(old(Value()))
    {
      if saved.None? { return; }
      if saved.value.phase.Finishing? && !saved.value.stale {
        saved := Some(saved.value.(stale := true, round := saved.value.round + 1));
        return;
      }
      if !saved.value.phase.Done? { return; }
      saved := Some(saved.value.(reentrant := false));
      ResumeRunning();
    }

    method AdoptTask(task: nat) returns (adopted: bool)
      modifies this`saved, this`attempts
      ensures Value() == Adopt(old(Value()), task)
      ensures adopted <==> old(saved).Some? && old(saved).value.first.Some? && task !in old(saved).value.adopted
    {
      if saved.None? || saved.value.first.None? || task in saved.value.adopted { return false; }
      saved := Some(saved.value.(adopted := Insert(saved.value.adopted, task)));
      ReopenRun();
      attempts := map[];
      return true;
    }

    method PauseRun()
      modifies this`saved
      ensures Value() == Pause(old(Value()))
    {
      if saved.Some? && saved.value.Active() { saved := Some(saved.value.(paused := true)); }
    }

    method ResumeRun(v: View) returns (ok: bool)
      modifies this
      ensures Value() == Resume(old(Value()), v)
      ensures ok <==> old(Value()).Active()
    {
      if saved.None? || !saved.value.Active() { return false; }
      var retry: set<nat> := {};
      if v.snapshot.Some? {
        var s := v.snapshot.value;
        var families: seq<Family> := [];
        if saved.value.first.Some? { families := SettleAll(s, saved.value.AsPlan(), v.control); }
        for k := 0 to |families|
          invariant retry == CancelledHeads(s, families[..k])
          invariant Value() == old(Value())
        {
          assert families[..k + 1] == families[..k] + [families[k]];
          var head := families[k].head;
          if Has(s, head) && At(s, head).status.Cancelled? && At(s, head).run { retry := retry + {head}; }
          CancelledHeadsStep(s, families, k);
        }
        assert families[..|families|] == families;
      }
      saved := Some(saved.value.(paused := false, retryCancelled := saved.value.retryCancelled + retry));
      recovering, attempts, lastKey, transient := {}, map[], None, 0;
      return true;
    }

    method StartRun(maxRepairs: nat, draft: bool, ids: seq<nat>, workers: set<nat>) returns (ok: bool)
      modifies this
      ensures Value() == Start(old(Value()), maxRepairs, draft, ids, workers)
      ensures ok <==> MayStart(old(Value()), maxRepairs, workers)
    {
      if maxRepairs > MAX_REPAIRS { return false; }
      if saved.Some? && saved.value.Active() && (!saved.value.paused || workers != {}) { return false; }
      var phase := if |ids| > 0 then Phase.Running else if draft then Phase.Saving else Phase.Scoping;
      saved := Some(Fresh(maxRepairs, phase, ids));
      lastKey, attempts, transient, job := None, map[], 0, false;
      return true;
    }

    method SettleRecoveredRuns(s: Snapshot)
      requires saved.Some?
      modifies this`saved, this`recovering
      ensures Value() == SettleRecovered(old(Value()), s)
    {
      var retry := set id | id in recovering && Has(s, id) && At(s, id).status.Cancelled?;
      recovering := set id | id in recovering && Has(s, id) && At(s, id).status.Running?;
      saved := Some(saved.value.(retryCancelled := saved.value.retryCancelled + retry));
    }

    method DecideRunning(v: View) returns (decision: Decision)
      requires saved.Some? && v.snapshot.Some?
      modifies this
      ensures (Value(), decision) == RunningStep(old(Value()), v)
    {
      var s := v.snapshot.value;
      SettleRecoveredRuns(s);
      if v.stop.Some? {
        FailWithNext(s, v.stop.value);
        return Decision.Idle;
      }
      var families: seq<Family> := [];
      if saved.value.first.Some? { families := SettleAll(s, saved.value.AsPlan(), v.control); }
      var command := NextCommand(s, v.control, families);
      if command.Some? {
        if !v.prepared { return Error; }
        recovering := recovering + (if command.value.RecoverTask? then {command.value.task} else {});
        return Submit(KeyOf(s, command.value));
      }
      if v.control.workers == {} && !Open(families) {
        if !Succeeded(families) || !v.baseline {
          CompleteRun(s, false);
        } else {
          job := true;
          AdvanceTo(Phase.Finishing);
        }
      }
      return Decision.Idle;
    }

    method AdvanceTo(phase: Phase)
      requires saved.Some?
      modifies this`saved, this`attempts
      ensures Value() == Advance(old(Value()), phase)
    {
      saved := Some(saved.value.(phase := phase));
      attempts := map[];
    }

    method DecideEarly(v: View) returns (decision: Decision)
      requires saved.Some? && v.snapshot.Some?
      modifies this
      ensures (Value(), decision) == EarlyStep(old(Value()), v)
    {
      match v.early
      case Nothing => return Decision.Idle;
      case Ask(name) => return Submit(Stage(name));
      case Broken => return Error;
      case GiveUp =>
        FailWithNext(v.snapshot.value, false);
        return Decision.Idle;
      case GoOn(first, count) =>
        if saved.value.phase.Scoping? {
          AdvanceTo(Phase.Planning);
        } else if saved.value.phase.Planning? {
          AdvanceTo(Phase.Saving);
        } else {
          saved := Some(saved.value.(first := Some(first), count := count));
          AdvanceTo(Phase.Running);
        }
        return Decision.Idle;
    }

    method AdmitDecision(key: Key, refused: bool) returns (submitted: Option<Key>)
      modifies this
      ensures (Value(), submitted) == Admit(old(Value()), key, refused)
    {
      if lastKey.Some? && refused {
        if lastKey.value in attempts && attempts[lastKey.value] > 0 {
          attempts := attempts[lastKey.value := attempts[lastKey.value] - 1];
        }
        transient := transient + 1;
        if transient >= TRANSIENT_LIMIT {
          HaltLoop();
          return None;
        }
      } else {
        transient := 0;
      }
      var count := (if key in attempts then attempts[key] else 0) + 1;
      attempts := attempts[key := count];
      if count > ATTEMPTS {
        HaltLoop();
        return None;
      }
      lastKey := Some(key);
      return Some(key);
    }

    /** Choose at most one next decision. */
    method TickOnce(v: View) returns (submitted: Option<Key>)
      modifies this
      ensures (Value(), submitted) == Tick(old(Value()), v)
    {
      PollJob(v);
      if v.contended && saved.Some? && saved.value.Active() && !saved.value.paused {
        HaltLoop();
        return None;
      }
      ReenterForRepair(v);
      if saved.None? || saved.value.paused || !saved.value.Active() || saved.value.phase.Finishing? { return None; }
      if v.waiting || v.snapshot.None? { return None; }
      var decision;
      if saved.value.phase.Running? { decision := DecideRunning(v); } else { decision := DecideEarly(v); }
      match decision {
        case Idle => return None;
        case Error => HaltLoop(); return None;
        case Submit(key) => submitted := AdmitDecision(key, v.refused);
      }
    }
  }

  lemma {:induction false} CancelledHeadsStep(s: Snapshot, fs: seq<Family>, k: nat)
    requires k < |fs|
    ensures CancelledHeads(s, fs[..k + 1]) ==
            CancelledHeads(s, fs[..k])
            + (if Has(s, fs[k].head) && At(s, fs[k].head).status.Cancelled? && At(s, fs[k].head).run then {fs[k].head} else {})
  {
    assert fs[..k + 1] == fs[..k] + [fs[k]];
    forall h | h in CancelledHeads(s, fs[..k]) ensures h in CancelledHeads(s, fs[..k + 1]) {
      var i :| 0 <= i < k && fs[..k][i].head == h && Has(s, fs[..k][i].head) && At(s, h).status.Cancelled? && At(s, h).run;
      assert fs[..k + 1][i].head == h;
    }
    if Has(s, fs[k].head) && At(s, fs[k].head).status.Cancelled? && At(s, fs[k].head).run {
      assert fs[..k + 1][k].head == fs[k].head;
    }
    forall h | h in CancelledHeads(s, fs[..k + 1]) ensures h == fs[k].head || h in CancelledHeads(s, fs[..k]) {
      var i :| 0 <= i < k + 1 && fs[..k + 1][i].head == h && Has(s, h) && At(s, h).status.Cancelled? && At(s, h).run;
      if i < k { assert fs[..k][i].head == h; }
    }
  }
}
