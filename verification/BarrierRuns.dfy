/** Runs that never resubmit an intent which a saved copy still remembers: one launch per attempt, nothing lost. */
module BarrierRuns {
  import opened Commands
  import opened History
  import opened Numbering
  import opened Eviction
  import opened Admission
  import opened Barrier
  import opened BarrierSafety
  import opened BarrierRepeat

  predicate Holds(sessions: Option<Snapshot>, s: nat, id: Id) {
    sessions.Some? && exists c | c in Entries(sessions.value, s) :: c.id == id
  }

  function JobSnapshot(saves: Saves): Option<Snapshot> {
    if saves.job.Some? then Some(saves.job.value.snapshot) else None
  }

  /** The last acknowledged save, the save in flight or the disk still holds the id live. */
  predicate Remembered(w: World, s: nat, id: Id) {
    Holds(w.saves.saved, s, id) || Holds(JobSnapshot(w.saves), s, id) || Holds(w.disk, s, id)
  }

  /** A submission of a new entry is of an intent no saved copy remembers. */
  predicate NoReuse(w: World, step: Step) {
    step.On? && Enters(step.edit) ==> !Remembered(w, step.session, Id(step.edit.intent))
  }

  predicate Careful(steps: seq<Step>)
    decreases |steps|
  {
    |steps| == 0
    || (var front := steps[..|steps| - 1];
        Careful(front) && NoReuse(Play(Start(), front), steps[|steps| - 1]))
  }

  // ------------------------------------------------------- copies are in order

  /** Where both hold an id in a session, the second holds it at no earlier attempt. */
  ghost predicate Older(a: Snapshot, b: Snapshot) {
    forall s: nat, c, d | c in Entries(a, s) && d in Entries(b, s) && c.id == d.id && !c.id.intent.SelectionArrival? ::
      c.attempt <= d.attempt
  }

  lemma {:induction false} SameSnapshotOlder(a: Snapshot)
    requires AllValid(a)
    ensures Older(a, a)
  {
    forall s: nat, c, d | c in Entries(a, s) && d in Entries(a, s) && c.id == d.id ensures c == d {
      var i :| 0 <= i < |a[s].commands| && a[s].commands[i] == c;
      var j :| 0 <= j < |a[s].commands| && a[s].commands[j] == d;
      IdIsFound(a[s], i);
      IdIsFound(a[s], j);
    }
  }

  lemma {:induction false} SameEntriesOlder(a: Snapshot, b: Snapshot, c: Snapshot, d: Snapshot)
    requires Older(a, b)
    requires forall s: nat :: Entries(c, s) == Entries(a, s)
    requires forall s: nat :: Entries(d, s) == Entries(b, s)
    ensures Older(c, d)
  {
  }

  lemma {:induction false} CaptureKeepsEntries(app: Snapshot)
    ensures forall s: nat :: Entries(Capture(app), s) == Entries(app, s)
  {
  }

  lemma {:induction false} RestoredOlder(a: Snapshot)
    requires AllValid(a)
    ensures Older(a, RestoreAll(a))
  {
    SameSnapshotOlder(a);
    forall s: nat, c, d | c in Entries(a, s) && d in Entries(RestoreAll(a), s) && c.id == d.id && !c.id.intent.SelectionArrival?
      ensures c.attempt <= d.attempt
    {
      var j :| 0 <= j < |RestoreAll(a)[s].commands| && RestoreAll(a)[s].commands[j] == d;
      assert a[s].commands[j] in Entries(a, s);
    }
  }

  ghost predicate OlderIn(a: Option<Snapshot>, b: Option<Snapshot>) {
    a.Some? && b.Some? ==> Older(a.value, b.value)
  }

  /** Saved, written, stored and in memory: each no newer than the next. */
  ghost predicate Ordered(app: Snapshot, saves: Saves, disk: Option<Snapshot>) {
    && OlderIn(saves.saved, Some(app))
    && OlderIn(saves.saved, disk)
    && OlderIn(saves.saved, JobSnapshot(saves))
    && OlderIn(disk, Some(app))
    && OlderIn(JobSnapshot(saves), Some(app))
    && (saves.job.Some? && saves.job.value.finished && saves.job.value.ok ==> disk == Some(saves.job.value.snapshot))
  }

  ghost predicate InOrder(w: World) { Ordered(w.app, w.saves, w.disk) }

  lemma {:induction false} EvolvingStaysNewer(w: World, step: Step, copy: Snapshot)
    requires WorldValid(w) && !step.Crash? && Older(copy, w.app)
    requires step.On? && Enters(step.edit) ==> !Holds(Some(copy), step.session, Id(step.edit.intent))
    ensures Older(copy, Effect(w, step).app)
  {
    StepKeepsApp(w, step);
    forall s: nat, c, d | c in Entries(copy, s) && d in Entries(Effect(w, step).app, s) && c.id == d.id && !c.id.intent.SelectionArrival?
      ensures c.attempt <= d.attempt
    {
      var h := Effect(w, step).app[s];
      var i :| 0 <= i < |h.commands| && h.commands[i] == d;
      IdIsFound(h, i);
      assert Holds(Some(copy), s, d.id);
      StepEvolves(w, step, s, d);
    }
  }

  lemma {:induction false} CapturedOlder(app: Snapshot)
    requires AllValid(app)
    ensures Older(Capture(app), app) && Older(Capture(app), Capture(app))
  {
    CaptureKeepsEntries(app);
    SameSnapshotOlder(app);
    SameEntriesOlder(app, app, Capture(app), app);
    SameEntriesOlder(app, app, Capture(app), Capture(app));
  }

  lemma {:induction false} OlderThanCaptured(a: Snapshot, app: Snapshot)
    requires Older(a, app)
    ensures Older(a, Capture(app))
  {
    CaptureKeepsEntries(app);
    SameEntriesOlder(a, app, a, Capture(app));
  }

  /** A finished save is taken before the next one starts. */
  function Acknowledged(saves: Saves): Saves {
    if saves.job.Some? && saves.job.value.finished
    then Saves(None, if saves.job.value.ok then Some(saves.job.value.snapshot) else saves.saved)
    else saves
  }

  lemma {:induction false} AcknowledgingKeepsOrder(app: Snapshot, saves: Saves, disk: Option<Snapshot>)
    requires AllValid(app) && (disk.Some? ==> AllValid(disk.value)) && Ordered(app, saves, disk)
    ensures Ordered(app, Acknowledged(saves), disk)
  {
    if disk.Some? { SameSnapshotOlder(disk.value); }
  }

  lemma {:induction false} StartingKeepsOrder(app: Snapshot, saves: Saves, disk: Option<Snapshot>)
    requires AllValid(app) && Ordered(app, saves, disk)
    ensures Ordered(app, if saves.job.None? then saves.(job := Some(Job(Capture(app), false, false))) else saves, disk)
  {
    CapturedOlder(app);
    if saves.saved.Some? { OlderThanCaptured(saves.saved.value, app); }
  }

  lemma {:induction false} CheckpointKeepsOrder(app: Snapshot, saves: Saves, disk: Option<Snapshot>)
    requires AllValid(app) && (disk.Some? ==> AllValid(disk.value)) && Ordered(app, saves, disk)
    ensures Ordered(app, Checkpoint(saves, Capture(app)), disk)
  {
    var acknowledged := Acknowledged(saves);
    AcknowledgingKeepsOrder(app, saves, disk);
    StartingKeepsOrder(app, acknowledged, disk);
  }

  /** A failed save withdraws what waited for it, and no new one starts. */
  lemma {:induction false} PollKeepsOrder(w: World)
    requires WorldValid(w) && InOrder(w)
    ensures InOrder(Apply(w, Poll))
  {
    if SaveFailed(w.saves) {
      EditKeepsOrder(w, Withdraw);
      assert Apply(w, Poll).app == Apply(w, Withdraw).app;
    } else {
      CheckpointKeepsOrder(w.app, w.saves, w.disk);
    }
  }

  lemma {:induction false} SaveEndKeepsOrder(w: World, landed: bool, ok: bool)
    requires InOrder(w) && (w.saves.job.Some? ==> AllValid(w.saves.job.value.snapshot))
    ensures InOrder(Apply(w, SaveEnds(landed, ok)))
  {
    if w.saves.job.Some? { SameSnapshotOlder(w.saves.job.value.snapshot); }
  }

  lemma {:induction false} FinalSaveKeepsOrder(w: World, landed: bool, written: bool)
    requires AllValid(w.app) && InOrder(w)
    ensures InOrder(Apply(w, FinalSave(landed, written)))
  {
    CapturedOlder(w.app);
    var next := Apply(w, FinalSave(landed, written));
    if written {
      assert next.app == w.app && next.saves == Saves(None, Some(Capture(w.app))) && next.disk == Some(Capture(w.app));
    } else {
      assert next.app == w.app && next.saves == w.saves.(job := None);
      assert next.disk == w.disk || next.disk == JobSnapshot(w.saves);
    }
  }

  lemma {:induction false} EditKeepsOrder(w: World, step: Step)
    requires WorldValid(w) && InOrder(w) && NoReuse(w, step)
    requires step.On? || step.Withdraw? || step.Dispatch? || step.Open?
    ensures InOrder(Apply(w, step))
  {
    assert Apply(w, step).saves == w.saves && Apply(w, step).disk == w.disk;
    if w.saves.saved.Some? { EvolvingStaysNewer(w, step, w.saves.saved.value); }
    if w.disk.Some? { EvolvingStaysNewer(w, step, w.disk.value); }
    if w.saves.job.Some? { EvolvingStaysNewer(w, step, w.saves.job.value.snapshot); }
  }

  lemma {:induction false} StepKeepsOrder(w: World, step: Step)
    requires WorldValid(w) && InOrder(w) && NoReuse(w, step)
    ensures InOrder(Apply(w, step))
  {
    match step {
      case Crash =>
        if w.disk.Some? { RestoredOlder(w.disk.value); } else { assert forall s: nat :: Entries([FRESH], s) == []; }
      case Poll => PollKeepsOrder(w);
      case SaveEnds(landed, ok) => SaveEndKeepsOrder(w, landed, ok);
      case FinalSave(landed, written) => FinalSaveKeepsOrder(w, landed, written);
      case On(_, _) => EditKeepsOrder(w, step);
      case Withdraw => EditKeepsOrder(w, step);
      case Dispatch(_) => EditKeepsOrder(w, step);
      case Open => EditKeepsOrder(w, step);
    }
  }

  /** An entry the barrier lets through is stale in no copy. */
  lemma {:induction false} OrderedIsNotStale(w: World)
    requires WorldValid(w) && InOrder(w) && SavedPending(w).Some?
    ensures !Stale(w, SavedPending(w).value.0, SavedPending(w).value.1)
  {
    var (s, c) := SavedPending(w).value;
    NotAnArrival(w);
    if w.disk.Some? {
      forall d | d in Entries(w.disk.value, s) && d.id == c.id ensures Covers(d, c.attempt) {}
    }
    if Running(w) {
      forall d | d in Entries(w.saves.job.value.snapshot, s) && d.id == c.id ensures Covers(d, c.attempt) {}
    }
  }

  // ------------------------------------------------------- one launch per attempt

  predicate AllTracked(w: World) {
    forall i | 0 <= i < |w.log| :: Tracked(w, w.log[i].session, w.log[i].entry.id, w.log[i].entry.attempt, i)
  }

  predicate NoArrivals(log: seq<Launch>) {
    forall i | 0 <= i < |log| :: !log[i].entry.id.intent.SelectionArrival?
  }

  /** Two launches of one attempt of one id: in between, memory did not know the id. */
  predicate Apart(log: seq<Launch>) {
    forall i, j | 0 <= i < j < |log| ::
      (log[i].session == log[j].session && log[i].entry.id == log[j].entry.id
       && log[i].entry.attempt == log[j].entry.attempt) ==> log[j].since > i
  }

  lemma {:induction false} LaunchStaysApart(w: World, accepted: bool)
    requires AllTracked(w) && Apart(w.log) && SavedPending(w).Some?
    ensures Apart(Apply(w, Step.Dispatch(accepted)).log)
  {
    var (s, c) := SavedPending(w).value;
    var log := w.log + [Launch(s, c, w.gone(s, c.id))];
    forall i | 0 <= i < |w.log| && w.log[i].session == s && w.log[i].entry.id == c.id && w.log[i].entry.attempt == c.attempt
      ensures w.gone(s, c.id) > i
    {
      if w.gone(s, c.id) <= i { TrackedLaunchIsLater(w, accepted, s, c.id, c.attempt, i); }
    }
    assert Apply(w, Step.Dispatch(accepted)).log == log;
  }

  lemma {:induction false} StepKeepsAllTracked(w: World, step: Step)
    requires Sound(w) && InOrder(w) && AllTracked(w) && NoArrivals(w.log)
    ensures AllTracked(Apply(w, step)) && NoArrivals(Apply(w, step).log)
  {
    var next := Apply(w, step);
    forall i | 0 <= i < |w.log|
      ensures Tracked(next, w.log[i].session, w.log[i].entry.id, w.log[i].entry.attempt, i)
    {
      StepKeepsTracked(w, step, w.log[i].session, w.log[i].entry.id, w.log[i].entry.attempt, i);
    }
    if step.Dispatch? && SavedPending(w).Some? {
      var (s, c) := SavedPending(w).value;
      OrderedIsNotStale(w);
      LaunchIsTracked(w, step.accepted);
      NotAnArrival(w);
      assert next.log == w.log + [Launch(s, c, w.gone(s, c.id))];
    } else {
      assert next.log == w.log;
    }
  }

  ghost predicate CarefulSound(w: World) {
    Sound(w) && InOrder(w) && AllTracked(w) && NoArrivals(w.log) && Apart(w.log) && NothingLost(w)
  }

  // ------------------------------------------------------------- nothing is lost

  /** What memory still knows to be saved, and whatever was submitted, is in every copy a crash could restore. */
  ghost predicate NothingLost(w: World) {
    forall s: nat, c | c in Entries(w.app, s) && !c.intent.SelectionArrival?
                       && (Holds(w.saves.saved, s, c.id) || c.state.Submitted?) ::
      Holds(w.disk, s, c.id) && (Running(w) ==> Holds(JobSnapshot(w.saves), s, c.id))
  }

  lemma {:induction false} WithdrawingSubmitsNothing(w: World, s: nat, d: Command)
    requires d in Entries(Withdrawn(w).app, s) && d.state.Submitted?
    ensures s < |w.app| && WasSubmitted(w.app[s], d)
  {
    if w.token.Some? && w.token.value.0 == s && s < |w.app| {
      SettledOthersUnchanged(w.app[s], w.token.value.1, WITHDRAWN, d);
    }
  }

  lemma {:induction false} DispatchSubmitsItsOwn(w: World, accepted: bool, s: nat, d: Command)
    requires d in Entries(Effect(w, Step.Dispatch(accepted)).app, s) && d.state.Submitted?
    ensures (s < |w.app| && WasSubmitted(w.app[s], d))
            || (SavedPending(w).Some? && SavedPending(w).value.0 == s && SavedPending(w).value.1.id == d.id)
  {
    if SavedPending(w).Some? && SavedPending(w).value.0 == s {
      SettledOthersUnchanged(w.app[s], SavedPending(w).value.1.id, if accepted then Submitted else WITHDRAWN, d);
    }
  }

  lemma {:induction false} CrashSubmitsNothing(w: World, s: nat, d: Command)
    requires d in Entries(Effect(w, Crash).app, s) && !d.intent.SelectionArrival?
    ensures !d.state.Submitted?
  {
    if w.disk.Some? && s < |w.disk.value| {
      var cs := RestoreAll(w.disk.value)[s].commands;
      var i :| 0 <= i < |cs| && cs[i] == d;
      assert cs[i] == Interrupted(w.disk.value[s].commands[i]);
    }
  }

  lemma {:induction false} OnSubmitsNothing(w: World, s: nat, edit: Edit, d: Command)
    requires WorldValid(w) && s < |w.app| && d in Entries(Effect(w, On(s, edit)).app, s) && d.state.Submitted?
    ensures WasSubmitted(w.app[s], d)
  {
    if !(Asks(edit) && w.token.Some?) { EditSubmitsNothing(w.app[s], edit, d); }
  }

  /** An entry is submitted only by the barrier. */
  lemma {:induction false} SubmittedComesFromDispatch(w: World, step: Step, s: nat, d: Command)
    requires WorldValid(w) && d in Entries(Effect(w, step).app, s) && d.state.Submitted? && !d.intent.SelectionArrival?
    ensures (s < |w.app| && WasSubmitted(w.app[s], d))
            || (step.Dispatch? && SavedPending(w).Some? && SavedPending(w).value.0 == s && SavedPending(w).value.1.id == d.id)
  {
    match step {
      case On(t, edit) =>
        if t == s && s < |w.app| { OnSubmitsNothing(w, s, edit, d); }
      case Withdraw => WithdrawingSubmitsNothing(w, s, d);
      case Dispatch(accepted) => DispatchSubmitsItsOwn(w, accepted, s, d);
      case Crash => CrashSubmitsNothing(w, s, d);
      case Open =>
      case Poll => if SaveFailed(w.saves) { WithdrawingSubmitsNothing(w, s, d); }
      case SaveEnds(_, _) =>
      case FinalSave(_, _) =>
    }
  }

  lemma {:induction false} SettledOthersUnchanged(h: Log, id: Id, state: CommandState, d: Command)
    requires d in SettlePending(h, id, state).commands
    ensures d in h.commands || (d.id == id && d.state == state)
  {
    var cs := SettlePending(h, id, state).commands;
    var i :| 0 <= i < |cs| && cs[i] == d;
    assert d == h.commands[i] || d.id == id;
  }

  predicate WasSubmitted(h: Log, d: Command) {
    exists c | c in h.commands :: c.id == d.id && c.intent == d.intent && c.state.Submitted?
  }

  lemma {:induction false} RetrySubmitsNothing(h: Log, id: Id, d: Command)
    requires d in EditLog(h, RetryEntry(id)).commands && d.state.Submitted?
    ensures WasSubmitted(h, d)
  {
    var cs := EditLog(h, RetryEntry(id)).commands;
    var i :| 0 <= i < |cs| && cs[i] == d;
    assert h.commands[i] in h.commands;
  }

  lemma {:induction false} SettlingSubmitsNothing(h: Log, id: Id, state: CommandState, d: Command)
    requires d in EditLog(h, Settle(id, state)).commands && d.state.Submitted?
    ensures WasSubmitted(h, d)
  {
    var cs := EditLog(h, Settle(id, state)).commands;
    var i :| 0 <= i < |cs| && cs[i] == d;
    assert h.commands[i] in h.commands;
  }

  lemma {:induction false} ObservingSubmitsNothing(h: Log, r: Receipt, d: Command)
    requires d in EditLog(h, ObserveReceipt(r)).commands && d.state.Submitted?
    ensures WasSubmitted(h, d)
  {
    var cs := EditLog(h, ObserveReceipt(r)).commands;
    var i :| 0 <= i < |cs| && cs[i] == d;
    if Observe(h, r).Some? { assert cs == Numbered(h).commands; }
    assert h.commands[i] in h.commands;
  }

  lemma {:induction false} NotingSubmitsNothing(h: Log, note: Option<nat>, d: Command)
    requires Valid(h) && d in EndSummary(h, note).commands && d.state.Submitted?
    ensures WasSubmitted(h, d)
  {
    NoteKeepsValid(h, note);
    var cs := EndSummary(h, note).commands;
    var i :| 0 <= i < |cs| && cs[i] == d;
    assert h.commands[i] in h.commands;
  }

  lemma {:induction false} DecliningSubmitsNothing(h: Log, text: Text, intent: Intent, after: Option<nat>, d: Command)
    requires d in EditLog(h, Decline(text, intent, after)).commands && d.state.Submitted?
    ensures WasSubmitted(h, d)
  {
    var r := Admit(h, text, intent, false, after, Pending);
    if r.Ok? {
      SettledOthersUnchanged(r.value, Id(intent), WITHDRAWN, d);
      AdmissionAddsOne(h, text, intent, false, after, Pending, d);
    }
  }

  lemma {:induction false} EditSubmitsNothing(h: Log, edit: Edit, d: Command)
    requires Valid(h) && d in EditLog(h, edit).commands && d.state.Submitted?
    ensures WasSubmitted(h, d)
  {
    match edit {
      case Submit(text, intent, follow, after) =>
        if Admit(h, text, intent, follow, after, Pending).Ok? {
          AdmissionAddsOne(h, text, intent, follow, after, Pending, d);
        }
      case Arrival(text, request, phase, failure) =>
        if Arrive(h, text, request, phase, failure).Ok? {
          ArrivalAddsOneOrSelecting(h, text, request, phase, failure, d);
        }
      case Decline(text, intent, after) => DecliningSubmitsNothing(h, text, intent, after, d);
      case RetryEntry(id) => RetrySubmitsNothing(h, id, d);
      case Settle(id, state) => SettlingSubmitsNothing(h, id, state, d);
      case ObserveReceipt(r) => ObservingSubmitsNothing(h, r, d);
      case ClearSession =>
      case Chat(_) =>
      case Stream =>
      case Summarise =>
      case Summarised(note) => NotingSubmitsNothing(h, note, d);
      case Protect(_) =>
    }
  }

  lemma {:induction false} ArrivalAddsOneOrSelecting(h: Log, text: Text, request: SelectionRequest, phase: Phase, failure: Reason, d: Command)
    requires Arrive(h, text, request, phase, failure).Ok?
    requires d in Arrive(h, text, request, phase, failure).value.commands
    ensures d.state.Selecting? || exists c | c in h.commands :: Same(c, d)
  {
    var kept := h.(commands := Without(h.commands, Superseded(h.commands, request)));
    AdmissionAddsOne(kept, text, SelectionArrival(request), false, None, Selecting(phase, failure), d);
    if i :| 0 <= i < |kept.commands| && Same(kept.commands[i], d) {
      var ks := Survivors(|h.commands|, Superseded(h.commands, request));
      assert kept.commands[i] == h.commands[ks[i]];
      assert h.commands[ks[i]] in h.commands;
    }
  }

  lemma {:induction false} LaunchedWasHeld(w: World)
    ensures SavedPending(w).Some? ==> Holds(w.saves.saved, SavedPending(w).value.0, SavedPending(w).value.1.id)
  {
    if SavedPending(w).Some? {
      var (s, c) := SavedPending(w).value;
      assert c in Entries(w.saves.saved.value, s);
    }
  }

  /** In a step that keeps the id saved, its descendant's ancestor was already held everywhere. */
  lemma {:induction false} AncestorHeld(w: World, step: Step, s: nat, d: Command)
    requires WorldValid(w) && NothingLost(w) && NoReuse(w, step) && !step.Crash?
    requires d in Entries(Effect(w, step).app, s) && !d.intent.SelectionArrival?
    requires Holds(w.saves.saved, s, d.id) || d.state.Submitted?
    ensures Holds(w.disk, s, d.id) && (Running(w) ==> Holds(JobSnapshot(w.saves), s, d.id))
  {
    LaunchedWasHeld(w);
    if Holds(w.saves.saved, s, d.id) {
      StepEvolves(w, step, s, d);
      var c :| c in Entries(w.app, s) && Evolved(c, d);
    } else {
      SubmittedComesFromDispatch(w, step, s, d);
      if s < |w.app| && WasSubmitted(w.app[s], d) {
        var c :| c in w.app[s].commands && c.id == d.id && c.intent == d.intent && c.state.Submitted?;
        assert c in Entries(w.app, s);
      }
    }
  }

  lemma {:induction false} MemoryIsCaptured(app: Snapshot, s: nat, c: Command)
    requires c in Entries(app, s)
    ensures Holds(Some(Capture(app)), s, c.id)
  {
    CaptureKeepsEntries(app);
  }

  lemma {:induction false} PollKeepsHolding(w: World, s: nat, c: Command)
    requires NothingLost(w) && InOrder(w) && c in Entries(w.app, s) && !c.intent.SelectionArrival?
    requires Holds(Checkpoint(w.saves, Capture(w.app)).saved, s, c.id) || c.state.Submitted?
    ensures Holds(w.disk, s, c.id)
    ensures var saves := Checkpoint(w.saves, Capture(w.app));
            saves.job.Some? && !saves.job.value.finished ==> Holds(JobSnapshot(saves), s, c.id)
  {
    MemoryIsCaptured(w.app, s, c);
  }

  lemma {:induction false} FailureLosesNothing(w: World)
    requires WorldValid(w) && NothingLost(w) && SaveFailed(w.saves)
    ensures NothingLost(Apply(w, Poll))
  {
    var next := Apply(w, Poll);
    assert next.app == Effect(w, Withdraw).app && next.saves == w.saves.(job := None) && next.disk == w.disk;
    forall s: nat, d | d in Entries(next.app, s) && !d.intent.SelectionArrival?
                       && (Holds(next.saves.saved, s, d.id) || d.state.Submitted?)
      ensures Holds(next.disk, s, d.id)
    {
      AncestorHeld(w, Withdraw, s, d);
    }
  }

  lemma {:induction false} PollLosesNothing(w: World)
    requires NothingLost(w) && InOrder(w) && !SaveFailed(w.saves)
    ensures NothingLost(Apply(w, Poll))
  {
    var next := Apply(w, Poll);
    forall s: nat, c | c in Entries(next.app, s) && !c.intent.SelectionArrival?
                       && (Holds(next.saves.saved, s, c.id) || c.state.Submitted?)
      ensures Holds(next.disk, s, c.id) && (Running(next) ==> Holds(JobSnapshot(next.saves), s, c.id))
    {
      PollKeepsHolding(w, s, c);
    }
  }

  lemma {:induction false} SaveLosesNothing(w: World, step: Step)
    requires NothingLost(w) && (step.SaveEnds? || step.FinalSave?)
    ensures NothingLost(Apply(w, step))
  {
    var next := Apply(w, step);
    forall s: nat, c | c in Entries(next.app, s) && !c.intent.SelectionArrival?
                       && (Holds(next.saves.saved, s, c.id) || c.state.Submitted?)
      ensures Holds(next.disk, s, c.id) && (Running(next) ==> Holds(JobSnapshot(next.saves), s, c.id))
    {
      MemoryIsCaptured(w.app, s, c);
    }
  }

  lemma {:induction false} StepLosesNothing(w: World, step: Step)
    requires WorldValid(w) && NothingLost(w) && InOrder(w) && NoReuse(w, step)
    ensures NothingLost(Apply(w, step))
  {
    var next := Apply(w, step);
    match step {
      case Poll => if SaveFailed(w.saves) { FailureLosesNothing(w); } else { PollLosesNothing(w); }
      case SaveEnds(_, _) => SaveLosesNothing(w, step);
      case FinalSave(_, _) => SaveLosesNothing(w, step);
      case Crash => CrashLosesNothing(w);
      case _ =>
        assert next.saves == w.saves && next.disk == w.disk;
        forall s: nat, d | d in Entries(next.app, s) && !d.intent.SelectionArrival?
                           && (Holds(next.saves.saved, s, d.id) || d.state.Submitted?)
          ensures Holds(next.disk, s, d.id) && (Running(next) ==> Holds(JobSnapshot(next.saves), s, d.id))
        {
          AncestorHeld(w, step, s, d);
        }
    }
  }

  lemma {:induction false} CrashLosesNothing(w: World)
    ensures NothingLost(Apply(w, Crash))
  {
    var next := Apply(w, Crash);
    forall s: nat, c | c in Entries(next.app, s) ensures !c.state.Submitted? {
      if w.disk.Some? {
        var i :| 0 <= i < |next.app[s].commands| && next.app[s].commands[i] == c;
        assert next.app[s].commands[i] == Interrupted(w.disk.value[s].commands[i]);
      }
    }
  }

  // ------------------------------------------------------------------- theorems

  /** Only a launch grows the log. */
  lemma {:induction false} StepStaysApart(w: World, step: Step)
    requires AllTracked(w) && Apart(w.log)
    ensures Apart(Apply(w, step).log)
  {
    if step.Dispatch? && SavedPending(w).Some? {
      LaunchStaysApart(w, step.accepted);
    } else {
      assert Apply(w, step).log == w.log;
    }
  }

  lemma {:induction false} CarefulRunsAreSound(steps: seq<Step>)
    requires Careful(steps)
    ensures CarefulSound(Play(Start(), steps))
    decreases |steps|
  {
    if |steps| > 0 {
      var front, step := steps[..|steps| - 1], steps[|steps| - 1];
      var mid := Play(Start(), front);
      CarefulRunsAreSound(front);
      ReachableIsSound(steps);
      StepKeepsOrder(mid, step);
      StepKeepsAllTracked(mid, step);
      StepLosesNothing(mid, step);
      StepStaysApart(mid, step);
    }
  }

  /**
   * No attempt of a known entry is launched twice, over every interleaving of submissions, saves,
   * failures, crashes and retries in which no intent that a saved copy remembers is submitted anew.
   */
  lemma {:induction false} NoAttemptIsLaunchedTwice(steps: seq<Step>, i: nat, j: nat)
    requires Careful(steps)
    requires var log := Play(Start(), steps).log;
             i < j < |log| && log[i].session == log[j].session && log[i].entry.id == log[j].entry.id
             && log[i].entry.attempt == log[j].entry.attempt
    ensures Play(Start(), steps).log[j].since > i
  {
    CarefulRunsAreSound(steps);
  }

  lemma {:induction false} HeldComesBack(w: World, s: nat, id: Id)
    requires Holds(w.disk, s, id)
    ensures exists d | d in Entries(Apply(w, Crash).app, s) :: d.id == id && !d.state.Live()
  {
    var e :| e in Entries(w.disk.value, s) && e.id == id;
    var k :| 0 <= k < |w.disk.value[s].commands| && w.disk.value[s].commands[k] == e;
    var d := Restore(w.disk.value[s]).commands[k];
    assert d == Interrupted(e) && Apply(w, Crash).app[s].commands == Restore(w.disk.value[s]).commands;
    assert d in Entries(Apply(w, Crash).app, s);
  }

  lemma {:induction false} EntryFitsItsId(w: World, s: nat, c: Command)
    requires WorldValid(w) && c in Entries(w.app, s)
    ensures c.id == Id(c.intent) && StateFits(c.intent, c.state)
  {
    var i :| 0 <= i < |w.app[s].commands| && w.app[s].commands[i] == c;
    assert ValidCommand(w.app[s].commands[i], |w.app[s].messages|);
  }

  /** A crash at any moment brings every submitted entry back, as an entry that will not run by itself. */
  lemma {:induction false} SubmittedSurvivesCrash(steps: seq<Step>, s: nat, c: Command)
    requires Careful(steps)
    requires c in Entries(Play(Start(), steps).app, s) && c.state.Submitted?
    ensures exists d | d in Entries(Apply(Play(Start(), steps), Crash).app, s) :: d.id == c.id && !d.state.Live()
  {
    CarefulRunsAreSound(steps);
    var w := Play(Start(), steps);
    EntryFitsItsId(w, s, c);
    HeldComesBack(w, s, c.id);
  }

  predicate Touches(edit: Edit, id: Id) {
    || (edit.RetryEntry? && edit.id == id)
    || (edit.Settle? && edit.id == id)
  }

  /** The entry is still there in this state, wherever it stands now. */
  predicate Kept(cs: seq<Command>, c: Command) { exists d | d in cs :: d.id == c.id && d.state == c.state }

  lemma {:induction false} StayedIsKept(c: Command, cs: seq<Command>)
    requires Stays(c, cs)
    ensures Kept(cs, c)
  {
    var j :| 0 <= j < |cs| && Same(c, cs[j]);
    assert cs[j] in cs;
  }

  lemma {:induction false} AdmissionKeepsLive(h: Log, text: Text, intent: Intent, follow: bool, after: Option<nat>, i: nat)
    requires Valid(h) && i < |h.commands| && h.commands[i].state.Live()
    requires Admit(h, text, intent, follow, after, Pending).Ok?
    ensures Kept(Admit(h, text, intent, follow, after, Pending).value.commands, h.commands[i])
  {
    AdmissionKeepsHistory(h, text, intent, follow, after, Pending);
    assert Stays(h.commands[i], Admit(h, text, intent, follow, after, Pending).value.commands);
    StayedIsKept(h.commands[i], Admit(h, text, intent, follow, after, Pending).value.commands);
  }

  lemma {:induction false} ArrivalKeepsLive(h: Log, text: Text, request: SelectionRequest, phase: Phase, failure: Reason, i: nat)
    requires Valid(h) && i < |h.commands| && h.commands[i].state.Live()
    requires Arrive(h, text, request, phase, failure).Ok?
    ensures Kept(Arrive(h, text, request, phase, failure).value.commands, h.commands[i])
  {
    ArrivalKeepsHistory(h, text, request, phase, failure);
    assert Stays(h.commands[i], Arrive(h, text, request, phase, failure).value.commands);
    StayedIsKept(h.commands[i], Arrive(h, text, request, phase, failure).value.commands);
  }

  lemma {:induction false} SettlingOthersKeeps(h: Log, id: Id, state: CommandState, c: Command)
    requires Kept(h.commands, c) && c.id != id
    ensures Kept(SettlePending(h, id, state).commands, c)
  {
    var d :| d in h.commands && d.id == c.id && d.state == c.state;
    var j :| 0 <= j < |h.commands| && h.commands[j] == d;
    var cs := SettlePending(h, id, state).commands;
    assert cs[j] == d && cs[j] in cs;
  }

  lemma {:induction false} RewritingKeepsLive(h: Log, edit: Edit, i: nat)
    requires i < |h.commands| && (edit.RetryEntry? || edit.Settle?)
    ensures if Touches(edit, h.commands[i].id) then exists d | d in EditLog(h, edit).commands :: d.id == h.commands[i].id
            else Kept(EditLog(h, edit).commands, h.commands[i])
  {
    var cs := EditLog(h, edit).commands;
    assert |cs| == |h.commands| && cs[i] in cs;
  }

  lemma {:induction false} MovingKeepsLive(h: Log, edit: Edit, i: nat)
    requires Valid(h) && i < |h.commands| && (edit.ObserveReceipt? || edit.Summarised?)
    ensures Kept(EditLog(h, edit).commands, h.commands[i])
  {
    if edit.Summarised? { NoteKeepsValid(h, edit.note); }
    var cs := EditLog(h, edit).commands;
    assert |cs| == |h.commands| && cs[i] in cs;
  }

  /** Declining a new intent leaves every live entry alone: its id is new. */
  lemma {:induction false} DecliningKeeps(h: Log, text: Text, intent: Intent, after: Option<nat>, i: nat)
    requires Valid(h) && i < |h.commands| && h.commands[i].state.Live()
    requires Admit(h, text, intent, false, after, Pending).Ok?
    ensures Kept(EditLog(h, Decline(text, intent, after)).commands, h.commands[i])
  {
    AdmissionKeepsLive(h, text, intent, false, after, i);
    AdmittedWasUnknown(h, text, intent, false, after, Pending);
    SettlingOthersKeeps(Admit(h, text, intent, false, after, Pending).value, Id(intent), WITHDRAWN, h.commands[i]);
  }

  /** No admission, eviction, arrival, compaction or /clear loses or rewrites a live entry. */
  lemma {:induction false} LiveEntryIsKept(h: Log, edit: Edit, i: nat)
    requires Valid(h) && i < |h.commands| && h.commands[i].state.Live()
    ensures if Touches(edit, h.commands[i].id) then exists d | d in EditLog(h, edit).commands :: d.id == h.commands[i].id
            else Kept(EditLog(h, edit).commands, h.commands[i])
  {
    var c := h.commands[i];
    assert c in h.commands && Kept(h.commands, c);
    match edit {
      case Submit(text, intent, follow, after) =>
        if Admit(h, text, intent, follow, after, Pending).Ok? { AdmissionKeepsLive(h, text, intent, follow, after, i); }
      case Arrival(text, request, phase, failure) =>
        if Arrive(h, text, request, phase, failure).Ok? { ArrivalKeepsLive(h, text, request, phase, failure, i); }
      case Decline(text, intent, after) =>
        if Admit(h, text, intent, false, after, Pending).Ok? { DecliningKeeps(h, text, intent, after, i); }
      case RetryEntry(_) => RewritingKeepsLive(h, edit, i);
      case Settle(_, _) => RewritingKeepsLive(h, edit, i);
      case ObserveReceipt(_) => MovingKeepsLive(h, edit, i);
      case Summarised(_) => MovingKeepsLive(h, edit, i);
      case _ =>
    }
  }

  /** After a restart nothing is launched until the owner submits or retries something. */
  lemma {:induction false} RestartLaunchesNothing(w: World, steps: seq<Step>)
    requires forall k | 0 <= k < |steps| :: !(steps[k].On? && Asks(steps[k].edit))
    ensures Play(Apply(w, Crash), steps).log == w.log
    ensures Play(Apply(w, Crash), steps).token == None
    decreases |steps|
  {
    if |steps| > 0 {
      var front := steps[..|steps| - 1];
      assert forall k | 0 <= k < |front| :: front[k] == steps[k];
      RestartLaunchesNothing(w, front);
    }
  }

  // -------------------------------------------------- why the premise is needed

  /**
   * The autopilot's scope request: its correlation names the run and the scope's revision, so it is submitted
   * again unchanged after `/clear`. `/retry-task` and `/scope-retry` repeat a retained request in the same way.
   */
  const GOAL := Scope(ScopeRequest(1, 1, 1))
  const TYPED := Text(0, true, true, 100)

  function Entry(attempt: nat, state: CommandState): Command {
    Command(Id(GOAL), 1, 0, attempt, TYPED, GOAL, state)
  }

  function One(attempt: nat, state: CommandState): Log { FRESH.(commands := [Entry(attempt, state)]) }

  const SUBMIT := On(0, Submit(TYPED, GOAL, false, None))
  const RETRY := On(0, RetryEntry(Id(GOAL)))
  const CLEAR := On(0, ClearSession)

  lemma {:induction false} FirstEntryFits()
    ensures WithinBudget([Entry(1, Pending)]) && Structure([Entry(1, Pending)], [], [])
  {
    var c := Entry(1, Pending);
    assert TotalSize([c][..0]) == 0 && TotalSize([c]) == Size(c) == 1126;
  }

  lemma {:induction false} SubmitFirst()
    ensures Admit(FRESH, TYPED, GOAL, false, None, Pending) == Ok(One(1, Pending))
  {
    FirstEntryFits();
    assert NewCommand(FRESH, TYPED, GOAL, None, Pending) == Entry(1, Pending);
    assert FRESH.commands + [Entry(1, Pending)] == [Entry(1, Pending)];
  }

  lemma {:induction false} FindOne(attempt: nat, state: CommandState)
    ensures Find([Entry(attempt, state)], Id(GOAL)) == Some(0)
  {
  }

  predicate Looks(w: World, app: Log, token: bool, job: Option<Job>, saved: Option<Snapshot>, disk: Option<Snapshot>) {
    && w.app == [app] && w.token == (if token then Some((0, Id(GOAL))) else None)
    && w.saves == Saves(job, saved) && w.disk == disk
  }

  lemma {:induction false} SubmittedAgain(w: World)
    requires Looks(w, FRESH, false, None, w.saves.saved, w.disk)
    ensures Looks(Apply(w, SUBMIT), One(1, Pending), true, None, w.saves.saved, w.disk)
  {
    SubmitFirst();
  }

  lemma {:induction false} FirstSaveFails(w: World, landed: bool)
    requires Looks(w, One(1, Pending), true, None, w.saves.saved, w.disk) && w.saves.saved != Some([One(1, Pending)])
    ensures Looks(Apply(Apply(Apply(w, Poll), SaveEnds(landed, false)), Poll),
                  One(1, WITHDRAWN), false, None, w.saves.saved, if landed then Some([One(1, Pending)]) else w.disk)
  {
    FindOne(1, Pending);
    assert Capture(w.app) == [One(1, Pending)];
    var a := Apply(w, Poll);
    assert Looks(a, One(1, Pending), true, Some(Job([One(1, Pending)], false, false)), w.saves.saved, w.disk);
    assert [Entry(1, Pending)][0 := Entry(1, WITHDRAWN)] == [Entry(1, WITHDRAWN)];
  }

  /** Submit the intent; its save fails, whether or not it reached the disk, and the entry is refused. */
  lemma {:induction false} SubmitFails(w: World, landed: bool)
    requires Looks(w, FRESH, false, None, w.saves.saved, w.disk) && w.saves.saved != Some([One(1, Pending)])
    ensures Looks(Play(w, [SUBMIT, Poll, SaveEnds(landed, false), Poll]),
                  One(1, WITHDRAWN), false, None, w.saves.saved, if landed then Some([One(1, Pending)]) else w.disk)
  {
    SubmittedAgain(w);
    FirstSaveFails(Apply(w, SUBMIT), landed);
    PlayFour(w, SUBMIT, Poll, SaveEnds(landed, false), Poll);
  }

  lemma {:induction false} RetryRefused(w: World)
    requires Looks(w, One(1, WITHDRAWN), false, None, w.saves.saved, w.disk)
    ensures Looks(Apply(w, RETRY), One(2, Pending), true, None, w.saves.saved, w.disk)
  {
    FindOne(1, WITHDRAWN);
    assert [Entry(1, WITHDRAWN)][0 := Entry(2, Pending)] == [Entry(2, Pending)];
  }

  lemma {:induction false} RetriedIsSaved(w: World)
    requires Looks(w, One(2, Pending), true, None, None, w.disk)
    ensures Looks(Apply(Apply(Apply(w, Poll), SaveEnds(true, true)), Poll),
                  One(2, Pending), true, None, Some([One(2, Pending)]), Some([One(2, Pending)]))
  {
    assert Capture(w.app) == [One(2, Pending)];
    assert Looks(Apply(w, Poll), One(2, Pending), true, Some(Job([One(2, Pending)], false, false)), None, w.disk);
  }

  lemma {:induction false} SavedIsRefused(w: World)
    requires Looks(w, One(2, Pending), true, None, Some([One(2, Pending)]), Some([One(2, Pending)]))
    ensures Looks(Apply(w, Step.Dispatch(false)), One(2, WITHDRAWN), false, None, Some([One(2, Pending)]), Some([One(2, Pending)]))
  {
    FindOne(2, Pending);
    assert Entry(2, Pending) in Entries(w.saves.saved.value, 0);
    assert [Entry(2, Pending)][0 := Entry(2, WITHDRAWN)] == [Entry(2, WITHDRAWN)];
  }

  /** The retried entry is saved; its dispatch is refused at the door, and the conversation is cleared. */
  lemma {:induction false} SavedRefusedAndCleared(w: World)
    requires Looks(w, One(2, Pending), true, None, None, w.disk)
    ensures Looks(Play(w, [Poll, SaveEnds(true, true), Poll, Step.Dispatch(false)] + [CLEAR]),
                  FRESH, false, None, Some([One(2, Pending)]), Some([One(2, Pending)]))
  {
    RetriedIsSaved(w);
    SavedIsRefused(Apply(Apply(Apply(w, Poll), SaveEnds(true, true)), Poll));
    PlayFour(w, Poll, SaveEnds(true, true), Poll, Step.Dispatch(false));
    PlaySnoc(w, [Poll, SaveEnds(true, true), Poll, Step.Dispatch(false)], CLEAR);
  }

  const FIRST := [SUBMIT, Poll, SaveEnds(false, false), Poll] + [RETRY]
  const SECOND := [Poll, SaveEnds(true, true), Poll, Step.Dispatch(false)] + [CLEAR]
  const THIRD := [SUBMIT, Poll, SaveEnds(true, false), Poll] + [RETRY]

  lemma {:induction false} FirstPart(w: World)
    requires Looks(w, FRESH, false, None, None, None)
    ensures Looks(Play(w, FIRST), One(2, Pending), true, None, None, None)
  {
    SubmitFails(w, false);
    PlaySnoc(w, [SUBMIT, Poll, SaveEnds(false, false), Poll], RETRY);
    RetryRefused(Play(w, [SUBMIT, Poll, SaveEnds(false, false), Poll]));
  }

  lemma {:induction false} ThirdPart(w: World)
    requires Looks(w, FRESH, false, None, Some([One(2, Pending)]), w.disk)
    ensures Looks(Play(w, THIRD), One(2, Pending), true, None, Some([One(2, Pending)]), Some([One(1, Pending)]))
  {
    assert One(2, Pending).commands[0] != One(1, Pending).commands[0];
    assert [One(2, Pending)][0] != [One(1, Pending)][0];
    SubmitFails(w, true);
    PlaySnoc(w, [SUBMIT, Poll, SaveEnds(true, false), Poll], RETRY);
    RetryRefused(Play(w, [SUBMIT, Poll, SaveEnds(true, false), Poll]));
  }

  /**
   * Every step is one the program takes. A save fails, so the entry is refused; it is retried, saved, and refused
   * at its dispatch; the conversation is cleared before the next save; the same intent is submitted again, its
   * save reaches the disk but is reported as failed (the directory was not synced), and it is retried. Now the
   * last acknowledged save holds this very entry, so it is let through, but the disk holds it one attempt earlier.
   */
  lemma {:induction false} StaleWorldIsReachable()
    ensures var w := Play(Start(), FIRST + SECOND + THIRD);
            && Sound(w)
            && SavedPending(w) == Some((0, Entry(2, Pending)))
            && Stale(w, 0, Entry(2, Pending))
  {
    FirstPart(Start());
    var a := Play(Start(), FIRST);
    SavedRefusedAndCleared(a);
    var b := Play(a, SECOND);
    ThirdPart(b);
    PlayThen(Start(), FIRST, SECOND);
    PlayThen(Start(), FIRST + SECOND, THIRD);
    StaleWorldIsStale(Play(Start(), FIRST + SECOND + THIRD));
    ReachableIsSound(FIRST + SECOND + THIRD);
  }

  lemma {:induction false} StaleWorldIsStale(w: World)
    requires Looks(w, One(2, Pending), true, None, Some([One(2, Pending)]), Some([One(1, Pending)]))
    ensures SavedPending(w) == Some((0, Entry(2, Pending)))
    ensures Stale(w, 0, Entry(2, Pending))
  {
    FindOne(2, Pending);
    assert Entry(2, Pending) in Entries(w.saves.saved.value, 0);
    assert Entry(1, Pending) in Entries(w.disk.value, 0);
    assert !Covers(Entry(1, Pending), 2);
  }

  lemma {:induction false} StepGrowsLog(w: World, step: Step)
    ensures w.log <= Apply(w, step).log
  {
  }

  lemma {:induction false} LogGrows(w: World, steps: seq<Step>)
    ensures w.log <= Play(w, steps).log
    decreases |steps|
  {
    if |steps| > 0 {
      var front := Play(w, steps[..|steps| - 1]);
      LogGrows(w, steps[..|steps| - 1]);
      StepGrowsLog(front, steps[|steps| - 1]);
      PrefixOfPrefix(w.log, front.log, Play(w, steps).log);
    }
  }

  lemma {:induction false} PrefixOfPrefix(a: seq<Launch>, b: seq<Launch>, c: seq<Launch>)
    requires a <= b && b <= c
    ensures a <= c
  {
  }

  /** Two launches of one attempt of one id that was known all the time in between. */
  predicate LaunchedTwice(log: seq<Launch>, i: nat, j: nat) {
    && i < j < |log| && log[i].session == log[j].session && log[i].entry.id == log[j].entry.id
    && log[i].entry.attempt == log[j].entry.attempt && log[j].since <= i
  }

  lemma {:induction false} LaunchIsLogged(w: World, accepted: bool)
    requires SavedPending(w).Some?
    ensures var (s, c) := SavedPending(w).value;
            Apply(w, Step.Dispatch(accepted)).log == w.log + [Launch(s, c, w.gone(s, c.id))]
  {
  }

  lemma {:induction false} AgainIsTwice(w: World, rest: seq<Step>, j: nat)
    requires SavedPending(w).Some?
    requires var (s, c) := SavedPending(w).value; Again(Apply(w, Step.Dispatch(true)), rest, j, |w.log|, s, c.id, c.attempt)
    ensures LaunchedTwice(Play(Apply(w, Step.Dispatch(true)), rest).log, |w.log|, j)
  {
    LogGrows(Apply(w, Step.Dispatch(true)), rest);
    LaunchIsLogged(w, true);
  }

  lemma {:induction false} StaleIsTwice(w: World)
    requires Sound(w) && SavedPending(w).Some?
    requires var (s, c) := SavedPending(w).value; Stale(w, s, c)
    ensures exists rest, j: nat :: LaunchedTwice(Play(Apply(w, Step.Dispatch(true)), rest).log, |w.log|, j)
  {
    var (s, c) := SavedPending(w).value;
    RepeatIffStale(w, true);
    var rest, j: nat :| Again(Apply(w, Step.Dispatch(true)), rest, j, |w.log|, s, c.id, c.attempt);
    AgainIsTwice(w, rest, j);
  }

  lemma {:induction false} PlayAround(prefix: seq<Step>, step: Step, rest: seq<Step>)
    ensures Play(Start(), prefix + [step] + rest) == Play(Apply(Play(Start(), prefix), step), rest)
  {
    PlaySnoc(Start(), prefix, step);
    PlayThen(Start(), prefix + [step], rest);
  }

  lemma {:induction false} StaleLaunchRepeats(prefix: seq<Step>)
    requires Sound(Play(Start(), prefix)) && SavedPending(Play(Start(), prefix)).Some?
    requires var (s, c) := SavedPending(Play(Start(), prefix)).value; Stale(Play(Start(), prefix), s, c)
    ensures exists steps, i: nat, j: nat :: LaunchedTwice(Play(Start(), steps).log, i, j)
  {
    StaleIsTwice(Play(Start(), prefix));
    TwiceFromStart(prefix, Play(Start(), prefix));
  }

  lemma {:induction false} TwiceFromStart(prefix: seq<Step>, w: World)
    requires w == Play(Start(), prefix)
    requires exists rest, j: nat :: LaunchedTwice(Play(Apply(w, Step.Dispatch(true)), rest).log, |w.log|, j)
    ensures exists steps, i: nat, j: nat :: LaunchedTwice(Play(Start(), steps).log, i, j)
  {
    var rest, j: nat :| LaunchedTwice(Play(Apply(w, Step.Dispatch(true)), rest).log, |w.log|, j);
    PlayAround(prefix, Step.Dispatch(true), rest);
    assert LaunchedTwice(Play(Start(), prefix + [Step.Dispatch(true)] + rest).log, |w.log|, j);
  }

  /** Without the premise the claim fails: the reused intent is launched, and after a crash the same attempt once more. */
  lemma {:induction false} ReusedIntentIsLaunchedTwice()
    ensures exists steps, i: nat, j: nat :: LaunchedTwice(Play(Start(), steps).log, i, j)
  {
    StaleWorldIsReachable();
    StaleLaunchRepeats(FIRST + SECOND + THIRD);
  }
}
