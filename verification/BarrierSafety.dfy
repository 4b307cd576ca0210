/** What the write-ahead barrier guarantees over every run. */
module BarrierSafety {
  import opened Commands
  import opened History
  import opened Numbering
  import opened Admission
  import opened Barrier

  // ------------------------------------------------------------------ validity

  predicate AllValid(sessions: Snapshot) {
    forall s | 0 <= s < |sessions| :: Valid(sessions[s])
  }

  predicate WorldValid(w: World) {
    && AllValid(w.app)
    && (w.disk.Some? ==> AllValid(w.disk.value))
    && (w.saves.job.Some? ==> AllValid(w.saves.job.value.snapshot))
  }

  lemma {:induction false} ChatKeepsValid(h: Log, prompt: Token)
    requires Valid(h)
    ensures Valid(h.(messages := h.messages + [Message(true, prompt), Message(false, 0)]))
  {
    var more := h.messages + [Message(true, prompt), Message(false, 0)];
    forall i | 0 <= i < |h.commands| ensures TurnBound(h.commands[i], more) {
      assert TurnBound(h.commands[i], h.messages);
    }
  }

  lemma {:induction false} OutcomeKeepsValid(h: Log, id: Id, state: CommandState)
    requires Valid(h) && Find(h.commands, id).Some? && Outcome(h, Find(h.commands, id).value, state)
    ensures Valid(SetState(h, id, state))
  {
    SettingStateKeepsValid(h, id, state);
  }

  /** A Pending entry names no launch that relies on its outcome, so it may be submitted or refused. */
  lemma {:induction false} PendingMaySettle(h: Log, id: Id, state: CommandState)
    requires Valid(h) && (state.Submitted? || state == WITHDRAWN)
    ensures Valid(SettlePending(h, id, state))
  {
    var at := Find(h.commands, id);
    if at.Some? && h.commands[at.value].state.Pending? {
      var k := at.value;
      assert ValidCommand(h.commands[k], |h.messages|);
      forall i | 0 <= i < |h.commands| && h.commands[i].intent.DispatchRun?
        ensures !NamedBy(h.commands[k], h.commands[i])
      {
        assert HasParent(h.commands, i);
        var j :| 0 <= j < |h.commands| && NamedBy(h.commands[j], h.commands[i]) && Enabling(h.commands[j]);
        if h.commands[j].intent == h.commands[k].intent { SameIntentSameEntry(h, j, k); }
      }
      SettingStateKeepsValid(h, id, state);
    }
  }

  lemma {:induction false} EntryKeepsValid(h: Log, edit: Edit)
    requires Valid(h) && (edit.Submit? || edit.Decline? || edit.Arrival?)
    ensures Valid(EditLog(h, edit))
  {
    match edit {
      case Submit(text, intent, follow, after) =>
        if Admit(h, text, intent, follow, after, Pending).Ok? {
          AdmissionKeepsHistory(h, text, intent, follow, after, Pending);
        }
      case Decline(text, intent, after) =>
        if Admit(h, text, intent, false, after, Pending).Ok? {
          AdmissionKeepsHistory(h, text, intent, false, after, Pending);
          PendingMaySettle(Admit(h, text, intent, false, after, Pending).value, Id(intent), WITHDRAWN);
        }
      case Arrival(text, request, phase, failure) =>
        if Arrive(h, text, request, phase, failure).Ok? { ArrivalKeepsHistory(h, text, request, phase, failure); }
    }
  }

  lemma {:induction false} EditKeepsValid(h: Log, edit: Edit)
    requires Valid(h)
    ensures Valid(EditLog(h, edit))
  {
    match edit {
      case Submit(_, _, _, _) => EntryKeepsValid(h, edit);
      case Decline(_, _, _) => EntryKeepsValid(h, edit);
      case Arrival(_, _, _, _) => EntryKeepsValid(h, edit);
      case RetryEntry(id) =>
        if Retry(h, id).Ok? { RetryKeepsValid(h, id); }
      case Settle(id, state) =>
        if Find(h.commands, id).Some? && Outcome(h, Find(h.commands, id).value, state) {
          OutcomeKeepsValid(h, id, state);
        }
      case ObserveReceipt(receipt) => ObservationKeepsValid(h, receipt);
      case Chat(prompt) => ChatKeepsValid(h, prompt);
      case Summarised(note) => NoteKeepsValid(h, note);
      case _ =>
    }
  }

  lemma {:induction false} WithdrawKeepsApp(w: World)
    requires WorldValid(w)
    ensures AllValid(Withdrawn(w).app)
  {
    if w.token.Some? && w.token.value.0 < |w.app| {
      PendingMaySettle(w.app[w.token.value.0], w.token.value.1, WITHDRAWN);
    }
  }

  lemma {:induction false} DispatchKeepsApp(w: World, accepted: bool)
    requires WorldValid(w)
    ensures AllValid(Effect(w, Step.Dispatch(accepted)).app)
  {
    if SavedPending(w).Some? {
      var (s, c) := SavedPending(w).value;
      PendingMaySettle(w.app[s], c.id, if accepted then Submitted else WITHDRAWN);
    }
  }

  lemma {:induction false} StepKeepsApp(w: World, step: Step)
    requires WorldValid(w) && !step.Crash?
    ensures AllValid(Effect(w, step).app)
  {
    match step {
      case On(s, edit) =>
        if s < |w.app| { EditKeepsValid(w.app[s], edit); }
      case Withdraw => WithdrawKeepsApp(w);
      case Poll => WithdrawKeepsApp(w);
      case Dispatch(accepted) => DispatchKeepsApp(w, accepted);
      case _ =>
    }
  }

  lemma {:induction false} RestoredAreValid(disk: Snapshot)
    requires AllValid(disk)
    ensures AllValid(RestoreAll(disk))
  {
    forall s | 0 <= s < |disk| ensures Valid(RestoreAll(disk)[s]) {
      RestoreKeepsValid(disk[s]);
    }
  }

  lemma {:induction false} StepKeepsValid(w: World, step: Step)
    requires WorldValid(w)
    ensures WorldValid(Apply(w, step))
  {
    if step.Crash? {
      if w.disk.Some? { RestoredAreValid(w.disk.value); }
    } else {
      StepKeepsApp(w, step);
    }
  }

  lemma {:induction false} RunsStayValid(w: World, steps: seq<Step>)
    requires WorldValid(w)
    ensures WorldValid(Play(w, steps))
    decreases |steps|
  {
    if |steps| > 0 {
      RunsStayValid(w, steps[..|steps| - 1]);
      StepKeepsValid(Play(w, steps[..|steps| - 1]), steps[|steps| - 1]);
    }
  }

  // --------------------------------------------------- launched only when saved

  /** Every launch was of a Pending entry that a completed save held in that very session. */
  predicate LaunchesWereSaved(w: World) {
    && (w.saves.saved.Some? ==> w.saves.saved.value in w.completed)
    && (w.saves.job.Some? && w.saves.job.value.finished && w.saves.job.value.ok
        ==> w.saves.job.value.snapshot in w.completed)
    && forall i | 0 <= i < |w.log| ::
         w.log[i].entry.state.Pending?
         && exists saved | saved in w.completed :: w.log[i].entry in Entries(saved, w.log[i].session)
  }

  lemma {:induction false} StepKeepsSaved(w: World, step: Step)
    requires LaunchesWereSaved(w)
    ensures LaunchesWereSaved(Apply(w, step))
    ensures w.completed <= Apply(w, step).completed
  {
    var next := Apply(w, step);
    assert forall x | x in w.completed :: x in next.completed;
    forall i | 0 <= i < |next.log|
      ensures next.log[i].entry.state.Pending?
      ensures exists saved | saved in next.completed :: next.log[i].entry in Entries(saved, next.log[i].session)
    {
      if i < |w.log| {
        assert next.log[i] == w.log[i];
        var saved :| saved in w.completed && w.log[i].entry in Entries(saved, w.log[i].session);
        assert saved in next.completed;
      } else {
        assert step.Dispatch? && SavedPending(w).Some?;
        var (s, c) := SavedPending(w).value;
        assert next.log[i].entry == c && next.log[i].session == s;
        assert w.saves.saved.value in next.completed && c in Entries(w.saves.saved.value, s);
      }
    }
  }

  lemma {:induction false} LaunchesOnlyFromCompletedSaves(steps: seq<Step>)
    ensures LaunchesWereSaved(Play(Start(), steps))
    decreases |steps|
  {
    if |steps| > 0 {
      LaunchesOnlyFromCompletedSaves(steps[..|steps| - 1]);
      StepKeepsSaved(Play(Start(), steps[..|steps| - 1]), steps[|steps| - 1]);
    }
  }

  // ------------------------------------------------------- how one entry evolves

  /** What any step may do to an entry: attempts never fall, Pending needs a new attempt, outcomes stay. */
  predicate Evolved(c: Command, d: Command) {
    && d.id == c.id && d.intent == c.intent
    && d.attempt >= c.attempt
    && (d.attempt == c.attempt && d.state.Pending? ==> c.state.Pending?)
    && (Recorded(c) ==> Recorded(d) && d.attempt == c.attempt)
  }

  predicate Descends(cs: seq<Command>, d: Command) {
    exists c | c in cs :: Evolved(c, d)
  }

  lemma {:induction false} SetStateEvolves(h: Log, id: Id, state: CommandState, d: Command)
    requires d in SetState(h, id, state).commands
    requires Find(h.commands, id).Some? ==>
               var c := h.commands[Find(h.commands, id).value];
               Evolved(c, c.(state := state))
    ensures Descends(h.commands, d)
  {
    var cs := SetState(h, id, state).commands;
    var i :| 0 <= i < |cs| && cs[i] == d;
    assert Evolved(h.commands[i], d);
  }

  lemma {:induction false} RetryEvolves(h: Log, id: Id, d: Command)
    requires Retry(h, id).Ok? && d in Retry(h, id).value.commands
    ensures Descends(h.commands, d)
  {
    var cs := Retry(h, id).value.commands;
    var i :| 0 <= i < |cs| && cs[i] == d;
    assert Evolved(h.commands[i], d);
  }

  lemma {:induction false} AdmitEvolves(h: Log, text: Text, intent: Intent, follow: bool, after: Option<nat>, state: CommandState, d: Command)
    requires Admit(h, text, intent, follow, after, state).Ok?
    requires d in Admit(h, text, intent, follow, after, state).value.commands
    ensures Descends(h.commands, d) || d.id == Id(intent)
  {
    AdmissionAddsOne(h, text, intent, follow, after, state, d);
    if i :| 0 <= i < |h.commands| && Same(h.commands[i], d) {
      assert Evolved(h.commands[i], d);
    }
  }

  lemma {:induction false} AdmittedWasUnknown(h: Log, text: Text, intent: Intent, follow: bool, after: Option<nat>, state: CommandState)
    requires Admit(h, text, intent, follow, after, state).Ok?
    ensures IdKey(Id(intent)) !in h.retired
    ensures forall i | 0 <= i < |h.commands| :: h.commands[i].id != Id(intent)
  {
    var c := NewCommand(h, text, intent, after, state);
    assert RetirementKeys(c)[0] == IdKey(Id(intent));
    if Repeats(h, c) { AdmissionRefusesRepeats(h, text, intent, follow, after, state); }
    forall i | 0 <= i < |h.commands| ensures h.commands[i].id != Id(intent) {
      assert RetirementKeys(h.commands[i])[0] == IdKey(h.commands[i].id);
    }
  }

  lemma {:induction false} SubmitEvolves(h: Log, text: Text, intent: Intent, follow: bool, after: Option<nat>, d: Command)
    requires d in EditLog(h, Submit(text, intent, follow, after)).commands
    ensures Descends(h.commands, d)
            || (d.id == Id(intent) && IdKey(d.id) !in h.retired && forall c | c in h.commands :: c.id != d.id)
  {
    if Admit(h, text, intent, follow, after, Pending).Ok? {
      AdmitEvolves(h, text, intent, follow, after, Pending, d);
      AdmittedWasUnknown(h, text, intent, follow, after, Pending);
    } else {
      assert Evolved(d, d);
    }
  }

  lemma {:induction false} DeclineEvolves(h: Log, text: Text, intent: Intent, after: Option<nat>, d: Command)
    requires d in EditLog(h, Decline(text, intent, after)).commands
    ensures Descends(h.commands, d)
            || (d.id == Id(intent) && IdKey(d.id) !in h.retired && forall c | c in h.commands :: c.id != d.id)
  {
    var r := Admit(h, text, intent, false, after, Pending);
    if r.Ok? {
      SettlePendingEvolves(r.value, Id(intent), WITHDRAWN, d);
      var c :| c in r.value.commands && Evolved(c, d);
      AdmitEvolves(h, text, intent, false, after, Pending, c);
      AdmittedWasUnknown(h, text, intent, false, after, Pending);
      if b :| b in h.commands && Evolved(b, c) { assert Evolved(b, d); }
    } else {
      assert Evolved(d, d);
    }
  }

  lemma {:induction false} NoteEvolves(h: Log, note: Option<nat>, d: Command)
    requires Valid(h) && d in EndSummary(h, note).commands
    ensures Descends(h.commands, d)
  {
    NoteKeepsValid(h, note);
    var cs := EndSummary(h, note).commands;
    var i :| 0 <= i < |cs| && cs[i] == d;
    assert Evolved(h.commands[i], d);
  }

  predicate Enters(edit: Edit) { edit.Submit? || edit.Decline? }

  lemma {:induction false} EditEvolves(h: Log, edit: Edit, d: Command)
    requires Valid(h) && d in EditLog(h, edit).commands && !d.intent.SelectionArrival?
    ensures Descends(h.commands, d)
            || (Enters(edit) && d.id == Id(edit.intent)
                && IdKey(d.id) !in h.retired && forall c | c in h.commands :: c.id != d.id)
  {
    assert Evolved(d, d);
    match edit {
      case Submit(text, intent, follow, after) => SubmitEvolves(h, text, intent, follow, after, d);
      case Decline(text, intent, after) => DeclineEvolves(h, text, intent, after, d);
      case Arrival(text, request, phase, failure) =>
        if Arrive(h, text, request, phase, failure).Ok? { ArrivalEvolves(h, text, request, phase, failure, d); }
      case RetryEntry(id) =>
        if Retry(h, id).Ok? { RetryEvolves(h, id, d); }
      case Settle(id, state) =>
        if Find(h.commands, id).Some? && Outcome(h, Find(h.commands, id).value, state) {
          SettleEvolves(h, id, state, d);
        }
      case ObserveReceipt(receipt) => ObserveEvolves(h, receipt, d);
      case ClearSession =>
      case Chat(_) =>
      case Stream =>
      case Summarise =>
      case Summarised(note) => NoteEvolves(h, note, d);
      case Protect(_) =>
    }
  }

  lemma {:induction false} ObserveEvolves(h: Log, r: Receipt, d: Command)
    requires d in EditLog(h, ObserveReceipt(r)).commands
    ensures Descends(h.commands, d)
  {
    assert Evolved(d, d);
    if Observe(h, r).Some? {
      var cs := Observe(h, r).value.commands;
      assert cs == Numbered(h).commands;
      var i :| 0 <= i < |cs| && cs[i] == d;
      assert Evolved(h.commands[i], d);
    }
  }

  /** A recorded outcome stays recorded: no event turns a result back into a question. */
  lemma {:induction false} SettleEvolves(h: Log, id: Id, state: CommandState, d: Command)
    requires Valid(h) && Find(h.commands, id).Some? && Outcome(h, Find(h.commands, id).value, state)
    requires d in SetState(h, id, state).commands
    ensures Descends(h.commands, d)
  {
    var k := Find(h.commands, id).value;
    assert ValidCommand(h.commands[k], |h.messages|);
    SetStateEvolves(h, id, state, d);
  }

  lemma {:induction false} ArrivalEvolves(h: Log, text: Text, request: SelectionRequest, phase: Phase, failure: Reason, d: Command)
    requires Arrive(h, text, request, phase, failure).Ok? && !d.intent.SelectionArrival?
    requires d in Arrive(h, text, request, phase, failure).value.commands
    ensures Descends(h.commands, d)
  {
    var kept := h.(commands := Without(h.commands, Superseded(h.commands, request)));
    AdmissionAddsOne(kept, text, SelectionArrival(request), false, None, Selecting(phase, failure), d);
    var i :| 0 <= i < |kept.commands| && Same(kept.commands[i], d);
    var ks := Survivors(|h.commands|, Superseded(h.commands, request));
    assert kept.commands[i] == h.commands[ks[i]];
    assert Evolved(h.commands[ks[i]], d);
  }

  lemma {:induction false} SettlePendingEvolves(h: Log, id: Id, state: CommandState, d: Command)
    requires d in SettlePending(h, id, state).commands && !state.Pending?
    ensures Descends(h.commands, d)
  {
    var k := Find(h.commands, id);
    if k.Some? && h.commands[k.value].state.Pending? {
      SetStateEvolves(h, id, state, d);
    } else {
      assert Evolved(d, d);
    }
  }

  predicate Submits(step: Step, s: nat, id: Id) {
    step.On? && step.session == s && Enters(step.edit) && Id(step.edit.intent) == id
  }

  lemma {:induction false} WithdrawnEvolves(w: World, s: nat, d: Command)
    requires d in Entries(Withdrawn(w).app, s)
    ensures Descends(Entries(w.app, s), d)
  {
    assert Evolved(d, d);
    if w.token.Some? && w.token.value.0 == s && s < |w.app| {
      SettlePendingEvolves(w.app[s], w.token.value.1, WITHDRAWN, d);
    }
  }

  lemma {:induction false} DispatchEvolves(w: World, accepted: bool, s: nat, d: Command)
    requires d in Entries(Effect(w, Step.Dispatch(accepted)).app, s)
    ensures Descends(Entries(w.app, s), d)
  {
    assert Evolved(d, d);
    if SavedPending(w).Some? && SavedPending(w).value.0 == s {
      SettlePendingEvolves(w.app[s], SavedPending(w).value.1.id, if accepted then Submitted else WITHDRAWN, d);
    }
  }

  lemma {:induction false} OnEvolves(w: World, s: nat, edit: Edit, d: Command)
    requires WorldValid(w) && s < |w.app|
    requires d in Entries(Effect(w, On(s, edit)).app, s) && !d.intent.SelectionArrival?
    ensures Descends(Entries(w.app, s), d) || (Submits(On(s, edit), s, d.id) && !Known(w.app, s, d.id))
  {
    if Asks(edit) && w.token.Some? {
      assert Evolved(d, d);
    } else {
      EditEvolves(w.app[s], edit, d);
    }
  }

  /** Every entry after a step other than a crash descends from one before it, or its id was unknown. */
  lemma {:induction false} StepEvolves(w: World, step: Step, s: nat, d: Command)
    requires WorldValid(w) && !step.Crash? && d in Entries(Effect(w, step).app, s) && !d.intent.SelectionArrival?
    ensures Descends(Entries(w.app, s), d) || (Submits(step, s, d.id) && !Known(w.app, s, d.id))
  {
    assert Evolved(d, d);
    match step {
      case On(t, edit) =>
        if t == s && s < |w.app| { OnEvolves(w, s, edit, d); }
      case Withdraw => WithdrawnEvolves(w, s, d);
      case Poll => if SaveFailed(w.saves) { WithdrawnEvolves(w, s, d); }
      case Dispatch(accepted) => DispatchEvolves(w, accepted, s, d);
      case _ =>
    }
  }

  // ---------------------------------------------------- one launch per attempt

  /** No state this entry can reach launches attempt `a` again. */
  predicate Spent(c: Command, a: nat) {
    c.attempt > a || (c.attempt == a && !c.state.Pending?) || Recorded(c)
  }

  /** Restoring this copy gives a spent entry. */
  predicate Covers(c: Command, a: nat) { c.attempt >= a || Recorded(c) }

  predicate AllSpent(sessions: Snapshot, s: nat, id: Id, a: nat) {
    forall c | c in Entries(sessions, s) && c.id == id :: Spent(c, a)
  }

  predicate AllCover(sessions: Snapshot, s: nat, id: Id, a: nat) {
    forall c | c in Entries(sessions, s) && c.id == id :: Covers(c, a)
  }

  predicate Running(w: World) { w.saves.job.Some? && !w.saves.job.value.finished }

  /** Every copy a crash could bring back: the disk, and the save still being written. */
  predicate CopiesCover(w: World, s: nat, id: Id, a: nat) {
    && (w.disk.Some? ==> AllCover(w.disk.value, s, id, a))
    && (Running(w) ==> AllCover(w.saves.job.value.snapshot, s, id, a))
  }

  /** The record of unknown ids is exact for the present and never ahead of the log. */
  ghost predicate GoneExact(w: World) {
    forall s: nat, id: Id :: w.gone(s, id) <= |w.log| && (!Known(w.app, s, id) ==> w.gone(s, id) == |w.log|)
  }

  /** While the id has been known since before launch `n`, attempt `a` is spent everywhere. */
  predicate Tracked(w: World, s: nat, id: Id, a: nat, n: nat) {
    w.gone(s, id) <= n ==> AllSpent(w.app, s, id, a) && CopiesCover(w, s, id, a)
  }

  lemma {:induction false} StepKeepsGone(w: World, step: Step)
    requires GoneExact(w)
    ensures GoneExact(Apply(w, step))
    ensures w.log <= Apply(w, step).log
    ensures forall s: nat, id: Id :: w.gone(s, id) <= Apply(w, step).gone(s, id)
  {
    var next := Effect(w, step);
    assert w.log <= next.log;
  }

  lemma {:induction false} CrashRestoresSpent(w: World, s: nat, id: Id, a: nat)
    requires CopiesCover(w, s, id, a)
    ensures AllSpent(Effect(w, Crash).app, s, id, a)
  {
    forall c | c in Entries(Effect(w, Crash).app, s) && c.id == id ensures Spent(c, a) {
      if w.disk.Some? && s < |w.disk.value| {
        var old_ := w.disk.value[s].commands;
        var i :| 0 <= i < |old_| && Interrupted(old_[i]) == c;
        assert old_[i] in Entries(w.disk.value, s);
      }
    }
  }

  lemma {:induction false} StepKeepsSpent(w: World, step: Step, s: nat, id: Id, a: nat, n: nat)
    requires WorldValid(w) && GoneExact(w) && n < |w.log| && !id.intent.SelectionArrival?
    requires Tracked(w, s, id, a, n) && w.gone(s, id) <= n
    ensures AllSpent(Effect(w, step).app, s, id, a)
  {
    if step.Crash? {
      CrashRestoresSpent(w, s, id, a);
    } else {
      forall d | d in Entries(Effect(w, step).app, s) && d.id == id ensures Spent(d, a) {
        StepKeepsApp(w, step);
        DescendantIsSpent(w, step, s, a, d);
      }
    }
  }

  lemma {:induction false} DescendantIsSpent(w: World, step: Step, s: nat, a: nat, d: Command)
    requires WorldValid(w) && !step.Crash? && AllValid(Effect(w, step).app)
    requires d in Entries(Effect(w, step).app, s) && !d.id.intent.SelectionArrival?
    requires Known(w.app, s, d.id) && AllSpent(w.app, s, d.id, a)
    ensures Spent(d, a)
  {
    var h := Effect(w, step).app[s];
    var i :| 0 <= i < |h.commands| && h.commands[i] == d;
    assert ValidCommand(h.commands[i], |h.messages|);
    StepEvolves(w, step, s, d);
    var c :| c in Entries(w.app, s) && Evolved(c, d);
    assert Spent(c, a);
  }

  lemma {:induction false} StepKeepsCopies(w: World, step: Step, s: nat, id: Id, a: nat)
    requires AllSpent(w.app, s, id, a) && CopiesCover(w, s, id, a)
    ensures CopiesCover(Effect(w, step), s, id, a)
  {
    forall c | c in Entries(Capture(w.app), s) && c.id == id ensures Covers(c, a) {
      assert c in Entries(w.app, s);
    }
  }

  lemma {:induction false} StepKeepsTracked(w: World, step: Step, s: nat, id: Id, a: nat, n: nat)
    requires WorldValid(w) && GoneExact(w) && n < |w.log| && !id.intent.SelectionArrival?
    requires Tracked(w, s, id, a, n)
    ensures Tracked(Apply(w, step), s, id, a, n)
  {
    StepKeepsGone(w, step);
    if Apply(w, step).gone(s, id) <= n {
      StepKeepsSpent(w, step, s, id, a, n);
      StepKeepsCopies(w, step, s, id, a);
    }
  }

  /** A later launch of a tracked id, known all along, is of a later attempt. */
  lemma {:induction false} TrackedLaunchIsLater(w: World, accepted: bool, s: nat, id: Id, a: nat, n: nat)
    requires Tracked(w, s, id, a, n) && SavedPending(w).Some?
    requires SavedPending(w).value.0 == s && SavedPending(w).value.1.id == id
    requires w.gone(s, id) <= n
    ensures SavedPending(w).value.1.attempt > a
  {
    var c := SavedPending(w).value.1;
    assert c in Entries(w.app, s);
    assert Spent(c, a);
  }

  /** From position `from` on, launches of this id known since before `n` are of attempts after `a`. */
  predicate LaterOnly(log: seq<Launch>, from: nat, s: nat, id: Id, a: nat, n: nat) {
    forall j | from <= j < |log| ::
      log[j].session == s && log[j].entry.id == id && log[j].since <= n ==> log[j].entry.attempt > a
  }

  lemma {:induction false} StepKeepsLaterOnly(w: World, step: Step, from: nat, s: nat, id: Id, a: nat, n: nat)
    requires Tracked(w, s, id, a, n) && LaterOnly(w.log, from, s, id, a, n)
    ensures LaterOnly(Apply(w, step).log, from, s, id, a, n)
  {
    if step.Dispatch? && SavedPending(w).Some? {
      var (t, c) := SavedPending(w).value;
      assert Apply(w, step).log == w.log + [Launch(t, c, w.gone(t, c.id))];
      if t == s && c.id == id && w.gone(s, id) <= n { TrackedLaunchIsLater(w, step.accepted, s, id, a, n); }
    } else {
      assert Apply(w, step).log == w.log;
    }
  }

  lemma {:induction false} NoRepeatWhileTracked(w: World, steps: seq<Step>, s: nat, id: Id, a: nat, n: nat)
    requires WorldValid(w) && GoneExact(w) && n < |w.log| && !id.intent.SelectionArrival?
    requires Tracked(w, s, id, a, n)
    ensures var end := Play(w, steps);
            && WorldValid(end) && GoneExact(end) && Tracked(end, s, id, a, n)
            && |w.log| <= |end.log| && LaterOnly(end.log, |w.log|, s, id, a, n)
    decreases |steps|
  {
    if |steps| > 0 {
      var mid, step := Play(w, steps[..|steps| - 1]), steps[|steps| - 1];
      NoRepeatWhileTracked(w, steps[..|steps| - 1], s, id, a, n);
      StepKeepsValid(mid, step);
      StepKeepsGone(mid, step);
      StepKeepsTracked(mid, step, s, id, a, n);
      StepKeepsLaterOnly(mid, step, |w.log|, s, id, a, n);
    }
  }
}
