/** One autopilot run: its saved record, the loop's own counters, and what each operation makes of them. */
module AutopilotState {
  import opened Families

  const MAX_REPAIRS: nat := 16
  const TASK_BOUND: nat := 256
  const ATTEMPTS: nat := 3
  const TRANSIENT_LIMIT: nat := 5

  datatype Phase = Scoping | Planning | Saving | Running | Finishing | Done | Failed

  /** The state file. `branch` is the round whose integration branch exists. */
  datatype Saved = Saved(
    phase: Phase, paused: bool, maxRepairs: nat, finished: bool,
    first: Option<nat>, count: nat, adopted: seq<nat>, retryCancelled: set<nat>,
    branch: Option<nat>, round: nat, stale: bool, hookFired: bool,
    finishedThrough: Option<nat>, limits: map<nat, nat>, reentrant: bool)
  {
    predicate Active() { !phase.Done? && !phase.Failed? }

    function AsPlan(): Plan {
      Plan(if first.Some? then first.value else 0, count, adopted, maxRepairs, limits, retryCancelled)
    }

    /** What `open` accepts. */
    predicate Fits() {
      && maxRepairs <= MAX_REPAIRS
      && |limits| <= TASK_BOUND
      && forall root | root in limits :: limits[root] <= MAX_REPAIRS + TASK_BOUND
    }
  }

  /** What makes two submissions the same decision. */
  datatype Key = OnTask(command: Command) | Dispatching(revision: nat) | Stage(name: nat)

  datatype Run = Run(
    saved: Option<Saved>, lastKey: Option<Key>, attempts: map<Key, nat>, transient: nat,
    recovering: set<nat>, job: bool, hook: bool, hooks: nat)
  {
    predicate Active() { saved.Some? && saved.value.Active() }

    predicate Finished() { saved.Some? && !saved.value.Active() }

    /** The loop may act. */
    predicate Live() { Active() && !saved.value.paused }
  }

  /** What the stages before the running phase found. */
  datatype Early = Nothing | Ask(name: nat) | GoOn(first: nat, count: nat) | GiveUp | Broken

  /** All that one tick reads besides its own state. */
  datatype View = View(
    snapshot: Option<Snapshot>, control: Control, contended: bool, waiting: bool, refused: bool,
    integration: Option<bool>, early: Early, stop: Option<bool>, baseline: bool, prepared: bool)

  datatype Decision = Idle | Submit(key: Key) | Error

  function Highest(s: Snapshot): nat { |s.tasks| }

  function FamiliesOf(s: Snapshot, c: Control, sv: Saved): seq<Family> {
    if sv.first.None? then [] else Settle(s, sv.AsPlan(), c, Roots(sv.AsPlan()))
  }

  // ------------------------------------------------------------------ finishing

  function FireHook(r: Run): Run {
    if !r.hook || r.saved.None? || r.saved.value.hookFired then r
    else r.(saved := Some(r.saved.value.(hookFired := true)), hooks := r.hooks + 1)
  }

  function Fail(r: Run, s: Snapshot, reentrant: bool): Run
    requires r.saved.Some?
  {
    FireHook(r.(saved := Some(r.saved.value.(
      phase := Phase.Failed, reentrant := reentrant, finished := true, finishedThrough := Some(Highest(s))))))
  }

  function Complete(r: Run, s: Snapshot, built: bool): Run
    requires r.saved.Some?
  {
    var sv := r.saved.value;
    FireHook(r.(saved := Some(sv.(
      phase := Phase.Done, finished := true, finishedThrough := Some(Highest(s)),
      branch := if built then Some(sv.round) else None))))
  }

  function PollIntegration(r: Run, v: View): Run {
    if !r.job || v.integration.None? then r
    else
      var polled := r.(job := false);
      if r.saved.Some? && r.saved.value.stale then
        polled.(saved := Some(r.saved.value.(stale := false, phase := Phase.Running)), attempts := map[])
      else if r.saved.None? || v.snapshot.None? then polled
      else Complete(polled, v.snapshot.value, v.integration.value)
  }

  function Halt(r: Run): Run {
    if r.saved.None? then r else r.(saved := Some(r.saved.value.(paused := true)))
  }

  // ------------------------------------------------------------------- re-entry

  /** Clear the finish; an existing branch is kept and the next one is named anew. */
  function Reopened(sv: Saved): Saved {
    sv.(phase := Phase.Running, paused := false, finished := false, hookFired := false,
        round := if sv.branch.Some? then sv.round + 1 else sv.round)
  }

  /** An unfinished or finished repair of the run's families, saved after the finish. */
  predicate IsRepaired(s: Snapshot, sv: Saved, through: nat, id: nat) {
    && through < id
    && Has(s, id)
    && !At(s, id).status.Cancelled?
    && At(s, id).repairOf.Some?
    && RepairRoot(s, At(s, id).repairOf.value).Some?
    && RepairRoot(s, At(s, id).repairOf.value).value in Roots(sv.AsPlan())
  }

  function Repaired(s: Snapshot, sv: Saved, through: nat): set<nat> {
    set id | 1 <= id <= |s.tasks| && IsRepaired(s, sv, through, id)
  }

  function RepairedRoots(s: Snapshot, sv: Saved, through: nat): set<nat> {
    set id | id in Repaired(s, sv, through) :: RepairRoot(s, At(s, id).repairOf.value).value
  }

  /** A stop that the owner's repair may re-enter. */
  predicate Reenterable(sv: Saved) { sv.phase.Done? || (sv.phase.Failed? && sv.reentrant) }

  function OwnerLimit(s: Snapshot, sv: Saved, root: nat): nat {
    var repairs := Repairs(s, root);
    if sv.phase.Failed? && sv.reentrant && repairs < sv.maxRepairs + 1 then sv.maxRepairs + 1 else repairs
  }

  /** The repaired families of this run, which the re-entry limits. */
  function Limited(s: Snapshot, sv: Saved, through: nat): set<nat> {
    set root | root in RepairedRoots(s, sv, through) && Has(s, root)
  }

  /** These families get the owner's limit; the others keep theirs. */
  function LimitsFor(s: Snapshot, sv: Saved, roots: set<nat>): map<nat, nat> {
    map root | root in sv.limits.Keys + roots :: if root in roots then OwnerLimit(s, sv, root) else sv.limits[root]
  }

  function NewLimits(s: Snapshot, sv: Saved, through: nat): map<nat, nat> {
    LimitsFor(s, sv, Limited(s, sv, through))
  }

  function Reenter(r: Run, v: View): Run {
    if r.saved.None? || v.snapshot.None? || r.saved.value.Active() || r.saved.value.first.None? then r
    else
      var sv := r.saved.value;
      var s := v.snapshot.value;
      if sv.finishedThrough.None? then r.(saved := Some(sv.(finishedThrough := Some(Highest(s)))))
      else
        var through := sv.finishedThrough.value;
        var marked := sv.(finishedThrough := Some(Highest(s)));
        if Repaired(s, sv, through) == {} || !Reenterable(sv) then r.(saved := Some(marked))
        else r.(saved := Some(Reopened(marked.(limits := NewLimits(s, sv, through)))), attempts := map[])
  }

  function Reopen(r: Run): Run {
    if r.saved.None? then r
    else
      var sv := r.saved.value;
      if sv.phase.Finishing? && !sv.stale then r.(saved := Some(sv.(stale := true, round := sv.round + 1)))
      else if !sv.phase.Done? then r
      else r.(saved := Some(Reopened(sv).(reentrant := false)), attempts := map[])
  }

  function Insert(ids: seq<nat>, id: nat): (result: seq<nat>)
    ensures multiset(result) == multiset(ids) + multiset{id}
  {
    if |ids| == 0 || ids[|ids| - 1] < id then ids + [id]
    else
      assert ids == ids[..|ids| - 1] + [ids[|ids| - 1]];
      Insert(ids[..|ids| - 1], id) + [ids[|ids| - 1]]
  }

  function Adopt(r: Run, task: nat): Run {
    if r.saved.None? || r.saved.value.first.None? || task in r.saved.value.adopted then r
    else Reopen(r.(saved := Some(r.saved.value.(adopted := Insert(r.saved.value.adopted, task))))).(attempts := map[])
  }

  // ------------------------------------------------------------------ decisions

  function Advance(r: Run, phase: Phase): Run
    requires r.saved.Some?
  {
    r.(saved := Some(r.saved.value.(phase := phase)), attempts := map[])
  }

  function EarlyStep(r: Run, v: View): (Run, Decision)
    requires r.saved.Some? && v.snapshot.Some?
  {
    match v.early
    case Nothing => (r, Idle)
    case Ask(name) => (r, Submit(Stage(name)))
    case GiveUp => (Fail(r, v.snapshot.value, false), Idle)
    case Broken => (r, Error)
    case GoOn(first, count) =>
      match r.saved.value.phase
      case Scoping => (Advance(r, Phase.Planning), Idle)
      case Planning => (Advance(r, Phase.Saving), Idle)
      case _ => (Advance(r.(saved := Some(r.saved.value.(first := Some(first), count := count))), Phase.Running), Idle)
  }

  /** Runs recorded cancelled by a recovery are retried by this resume. */
  function SettleRecovered(r: Run, s: Snapshot): Run
    requires r.saved.Some?
  {
    var retry := set id | id in r.recovering && Has(s, id) && At(s, id).status.Cancelled?;
    var going := set id | id in r.recovering && Has(s, id) && At(s, id).status.Running?;
    r.(recovering := going,
       saved := Some(r.saved.value.(retryCancelled := r.saved.value.retryCancelled + retry)))
  }

  function KeyOf(s: Snapshot, command: Command): Key {
    if command.DispatchOn? then Dispatching(|s.receipts|) else OnTask(command)
  }

  predicate Succeeded(fs: seq<Family>) { exists i | 0 <= i < |fs| :: fs[i].settled.Success? }

  predicate Open(fs: seq<Family>) { exists i | 0 <= i < |fs| :: fs[i].settled.Active? }

  function Integrate(r: Run, v: View, fs: seq<Family>): Run
    requires r.saved.Some? && v.snapshot.Some?
  {
    if !Succeeded(fs) || !v.baseline then Complete(r, v.snapshot.value, false)
    else Advance(r.(job := true), Phase.Finishing)
  }

  function RunningStep(r: Run, v: View): (Run, Decision)
    requires r.saved.Some? && v.snapshot.Some?
  {
    var s := v.snapshot.value;
    var settled := SettleRecovered(r, s);
    var fs := FamiliesOf(s, v.control, settled.saved.value);
    if v.stop.Some? then (Fail(settled, s, v.stop.value), Idle)
    else
      var command := NextCommand(s, v.control, fs);
      if command.Some? then
        if !v.prepared then (settled, Error)
        else
          (settled.(recovering := settled.recovering + (if command.value.RecoverTask? then {command.value.task} else {})),
           Submit(KeyOf(s, command.value)))
      else if v.control.workers == {} && !Open(fs) then (Integrate(settled, v, fs), Idle)
      else (settled, Idle)
  }

  /** Count one submission of a decision; too many without effect pause the loop. */
  function Admit(r: Run, key: Key, refused: bool): (Run, Option<Key>) {
    var again := r.lastKey.Some? && refused;
    var attempts :=
      if again && r.lastKey.value in r.attempts && r.attempts[r.lastKey.value] > 0
      then r.attempts[r.lastKey.value := r.attempts[r.lastKey.value] - 1] else r.attempts;
    var transient := if again then r.transient + 1 else 0;
    if transient >= TRANSIENT_LIMIT then (Halt(r.(attempts := attempts, transient := transient)), None)
    else
      var count := (if key in attempts then attempts[key] else 0) + 1;
      var counted := r.(attempts := attempts[key := count], transient := transient);
      if count > ATTEMPTS then (Halt(counted), None) else (counted.(lastKey := Some(key)), Some(key))
  }

  /** Nothing may be chosen now. */
  predicate Waits(r: Run, v: View) {
    r.saved.None? || r.saved.value.paused || !r.saved.value.Active() || r.saved.value.phase.Finishing?
    || v.waiting || v.snapshot.None?
  }

  function Choose(r: Run, v: View): (Run, Option<Key>) {
    if Waits(r, v) then (r, None)
    else
      var (next, decision) := if r.saved.value.phase.Running? then RunningStep(r, v) else EarlyStep(r, v);
      match decision
      case Idle => (next, None)
      case Error => (Halt(next), None)
      case Submit(key) => Admit(next, key, v.refused)
  }

  function Tick(r: Run, v: View): (Run, Option<Key>) {
    var polled := PollIntegration(r, v);
    if v.contended && polled.Live() then (Halt(polled), None) else Choose(Reenter(polled, v), v)
  }

  // ------------------------------------------------------------ the owner's hand

  function Pause(r: Run): Run { if r.Active() then Halt(r) else r }

  /** Heads whose run was cancelled: this resume runs them again. */
  function CancelledHeads(s: Snapshot, fs: seq<Family>): set<nat> {
    set i | 0 <= i < |fs| && Has(s, fs[i].head) && At(s, fs[i].head).status.Cancelled? && At(s, fs[i].head).run :: fs[i].head
  }

  function Resume(r: Run, v: View): Run {
    if !r.Active() then r
    else
      var sv := r.saved.value;
      var retry := if v.snapshot.None? then {} else CancelledHeads(v.snapshot.value, FamiliesOf(v.snapshot.value, v.control, sv));
      r.(saved := Some(sv.(paused := false, retryCancelled := sv.retryCancelled + retry)),
         recovering := {}, attempts := map[], lastKey := None, transient := 0)
  }

  /** A new run may begin: nothing is active, or it is paused with no worker. */
  predicate MayStart(r: Run, maxRepairs: nat, workers: set<nat>) {
    maxRepairs <= MAX_REPAIRS && !(r.Active() && (!r.saved.value.paused || workers != {}))
  }

  function Fresh(maxRepairs: nat, phase: Phase, ids: seq<nat>): Saved {
    Saved(phase, false, maxRepairs, false, if |ids| == 0 then None else Some(ids[0]), 0, ids, {},
          None, 0, false, false, None, map[], false)
  }

  /** Without ids a goal is planned, or an open draft saved; with ids saved tasks run. */
  function Start(r: Run, maxRepairs: nat, draft: bool, ids: seq<nat>, workers: set<nat>): Run {
    if !MayStart(r, maxRepairs, workers) then r
    else
      var phase := if |ids| > 0 then Phase.Running else if draft then Phase.Saving else Phase.Scoping;
      Run(Some(Fresh(maxRepairs, phase, ids)), None, map[], 0, r.recovering, false, r.hook, r.hooks)
  }

  /** The owner's own revision of the draft is the one to wait for. */
  function Revise(r: Run, unsaved: bool): Run {
    if r.saved.Some? && (r.saved.value.phase.Planning? || r.saved.value.phase.Saving?) && unsaved
    then r.(saved := Some(r.saved.value.(phase := Phase.Planning))) else r
  }

  /** A saved active run always comes back paused. */
  function Restored(sv: Saved): Saved {
    if !sv.Active() then sv
    else if sv.phase.Finishing? then sv.(paused := true, phase := Phase.Running, stale := false)
    else sv.(paused := true)
  }

  function OpenRun(disk: Option<Saved>, hook: bool): Run {
    Run(if disk.None? then None else Some(Restored(disk.value)), None, map[], 0, {}, false, hook, 0)
  }
}
