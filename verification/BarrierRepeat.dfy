/** Exactly when one attempt can be launched twice, and why the program's own use never does. */
module BarrierRepeat {
  import opened Commands
  import opened History
  import opened Admission
  import opened Barrier
  import opened BarrierSafety

  /** A copy that a crash could bring back still holds this id at an earlier, unrecorded attempt. */
  predicate Stale(w: World, s: nat, c: Command) { !CopiesCover(w, s, c.id, c.attempt) }

  /** Retried entries are of the kinds that may be retried. */
  predicate Retryable(intent: Intent) {
    intent.SelectionRequest().None? && !intent.DispatchRun? && !intent.ArchitectDraft?
  }

  predicate RetriesSound(sessions: Snapshot) {
    forall s | 0 <= s < |sessions| ::
      forall c | c in sessions[s].commands :: c.attempt > 1 ==> Retryable(c.intent)
  }

  lemma {:induction false} RetriedIsRetryable(h: Log, id: Id, d: Command)
    requires d in EditLog(h, RetryEntry(id)).commands && d.attempt > 1
    requires forall c | c in h.commands :: c.attempt > 1 ==> Retryable(c.intent)
    ensures Retryable(d.intent)
  {
    var cs := EditLog(h, RetryEntry(id)).commands;
    var i :| 0 <= i < |cs| && cs[i] == d;
    assert h.commands[i] in h.commands;
  }

  lemma {:induction false} SettledIsRetryable(h: Log, id: Id, state: CommandState, d: Command)
    requires d in EditLog(h, Settle(id, state)).commands && d.attempt > 1
    requires forall c | c in h.commands :: c.attempt > 1 ==> Retryable(c.intent)
    ensures Retryable(d.intent)
  {
    var cs := EditLog(h, Settle(id, state)).commands;
    var i :| 0 <= i < |cs| && cs[i] == d;
    assert h.commands[i] in h.commands;
  }

  lemma {:induction false} ObservedIsRetryable(h: Log, r: Receipt, d: Command)
    requires d in EditLog(h, ObserveReceipt(r)).commands && d.attempt > 1
    requires forall c | c in h.commands :: c.attempt > 1 ==> Retryable(c.intent)
    ensures Retryable(d.intent)
  {
    var cs := EditLog(h, ObserveReceipt(r)).commands;
    var i :| 0 <= i < |cs| && cs[i] == d;
    if Observe(h, r).Some? { assert cs == Numbered(h).commands; }
    assert h.commands[i] in h.commands;
  }

  lemma {:induction false} NotedIsRetryable(h: Log, note: Option<nat>, d: Command)
    requires Valid(h) && d in EndSummary(h, note).commands && d.attempt > 1
    requires forall c | c in h.commands :: c.attempt > 1 ==> Retryable(c.intent)
    ensures Retryable(d.intent)
  {
    NoteKeepsValid(h, note);
    var cs := EndSummary(h, note).commands;
    var i :| 0 <= i < |cs| && cs[i] == d;
    assert h.commands[i] in h.commands;
  }

  lemma {:induction false} DeclinedIsRetryable(h: Log, text: Text, intent: Intent, after: Option<nat>, d: Command)
    requires d in EditLog(h, Decline(text, intent, after)).commands && d.attempt > 1
    requires forall c | c in h.commands :: c.attempt > 1 ==> Retryable(c.intent)
    ensures Retryable(d.intent)
  {
    var r := Admit(h, text, intent, false, after, Pending);
    if r.Ok? {
      SettlePendingEvolves(r.value, Id(intent), WITHDRAWN, d);
      var cs := SettlePending(r.value, Id(intent), WITHDRAWN).commands;
      var i :| 0 <= i < |cs| && cs[i] == d;
      var c := r.value.commands[i];
      assert c in r.value.commands && c.attempt == d.attempt && c.intent == d.intent;
      AdmissionAddsOne(h, text, intent, false, after, Pending, c);
    }
  }

  lemma {:induction false} EvolvedFromRetryable(h: Log, edit: Edit, d: Command)
    requires Valid(h) && d in EditLog(h, edit).commands && d.attempt > 1
    requires forall c | c in h.commands :: c.attempt > 1 ==> Retryable(c.intent)
    ensures Retryable(d.intent)
  {
    match edit {
      case Submit(text, intent, follow, after) =>
        if Admit(h, text, intent, follow, after, Pending).Ok? {
          AdmissionAddsOne(h, text, intent, follow, after, Pending, d);
        }
      case Arrival(text, request, phase, failure) =>
        if Arrive(h, text, request, phase, failure).Ok? { ArrivalAddsOne(h, text, request, phase, failure, d); }
      case Decline(text, intent, after) => DeclinedIsRetryable(h, text, intent, after, d);
      case RetryEntry(id) => RetriedIsRetryable(h, id, d);
      case Settle(id, state) => SettledIsRetryable(h, id, state, d);
      case ObserveReceipt(r) => ObservedIsRetryable(h, r, d);
      case ClearSession =>
      case Chat(_) =>
      case Stream =>
      case Summarise =>
      case Summarised(note) => NotedIsRetryable(h, note, d);
      case Protect(_) =>
    }
  }

  lemma {:induction false} ArrivalAddsOne(h: Log, text: Text, request: SelectionRequest, phase: Phase, failure: Reason, d: Command)
    requires Arrive(h, text, request, phase, failure).Ok?
    requires d in Arrive(h, text, request, phase, failure).value.commands
    ensures d.attempt == 1 || exists c | c in h.commands :: Same(c, d)
  {
    var kept := h.(commands := Without(h.commands, Superseded(h.commands, request)));
    AdmissionAddsOne(kept, text, SelectionArrival(request), false, None, Selecting(phase, failure), d);
    if i :| 0 <= i < |kept.commands| && Same(kept.commands[i], d) {
      var ks := Survivors(|h.commands|, Superseded(h.commands, request));
      assert kept.commands[i] == h.commands[ks[i]];
      assert h.commands[ks[i]] in h.commands;
    }
  }

  lemma {:induction false} PendingKeepsRetries(h: Log, id: Id, state: CommandState)
    requires forall c | c in h.commands :: c.attempt > 1 ==> Retryable(c.intent)
    ensures forall c | c in SettlePending(h, id, state).commands :: c.attempt > 1 ==> Retryable(c.intent)
  {
    var cs := SettlePending(h, id, state).commands;
    forall c | c in cs && c.attempt > 1 ensures Retryable(c.intent) {
      var i :| 0 <= i < |cs| && cs[i] == c;
      assert h.commands[i] in h.commands;
    }
  }

  predicate RetriesSoundIn(w: World) {
    && RetriesSound(w.app)
    && (w.disk.Some? ==> RetriesSound(w.disk.value))
    && (w.saves.job.Some? ==> RetriesSound(w.saves.job.value.snapshot))
  }

  lemma {:induction false} RestoreKeepsRetries(h: Log)
    requires forall c | c in h.commands :: c.attempt > 1 ==> Retryable(c.intent)
    ensures forall c | c in Restore(h).commands :: c.attempt > 1 ==> Retryable(c.intent)
  {
    var cs := Restore(h).commands;
    forall c | c in cs && c.attempt > 1 ensures Retryable(c.intent) {
      var i :| 0 <= i < |cs| && cs[i] == c;
      assert h.commands[i] in h.commands;
    }
  }

  lemma {:induction false} RestoreAllKeepsRetries(disk: Snapshot)
    requires RetriesSound(disk)
    ensures RetriesSound(RestoreAll(disk))
  {
    forall s | 0 <= s < |disk|
      ensures forall c | c in RestoreAll(disk)[s].commands :: c.attempt > 1 ==> Retryable(c.intent)
    {
      RestoreKeepsRetries(disk[s]);
    }
  }

  lemma {:induction false} EditKeepsRetries(w: World, s: nat, edit: Edit)
    requires WorldValid(w) && RetriesSound(w.app)
    ensures RetriesSound(Effect(w, On(s, edit)).app)
  {
    if s < |w.app| {
      forall d | d in EditLog(w.app[s], edit).commands && d.attempt > 1 ensures Retryable(d.intent) {
        EvolvedFromRetryable(w.app[s], edit, d);
      }
    }
  }

  lemma {:induction false} WithdrawKeepsRetries(w: World)
    requires RetriesSound(w.app)
    ensures RetriesSound(Withdrawn(w).app)
  {
    if w.token.Some? && w.token.value.0 < |w.app| {
      PendingKeepsRetries(w.app[w.token.value.0], w.token.value.1, WITHDRAWN);
    }
  }

  lemma {:induction false} DispatchKeepsRetries(w: World, accepted: bool)
    requires RetriesSound(w.app)
    ensures RetriesSound(Effect(w, Step.Dispatch(accepted)).app)
  {
    if SavedPending(w).Some? {
      var (s, c) := SavedPending(w).value;
      PendingKeepsRetries(w.app[s], c.id, if accepted then Submitted else WITHDRAWN);
    }
  }

  lemma {:induction false} AppKeepsRetries(w: World, step: Step)
    requires WorldValid(w) && RetriesSoundIn(w)
    ensures RetriesSound(Effect(w, step).app)
  {
    match step {
      case On(s, edit) => EditKeepsRetries(w, s, edit);
      case Withdraw => WithdrawKeepsRetries(w);
      case Dispatch(accepted) => DispatchKeepsRetries(w, accepted);
      case Crash => if w.disk.Some? { RestoreAllKeepsRetries(w.disk.value); }
      case Poll => WithdrawKeepsRetries(w);
      case SaveEnds(_, _) =>
      case FinalSave(_, _) =>
      case Open =>
    }
  }

  lemma {:induction false} CaptureKeepsRetries(app: Snapshot)
    requires RetriesSound(app)
    ensures RetriesSound(Capture(app))
  {
  }

  lemma {:induction false} StepKeepsRetries(w: World, step: Step)
    requires WorldValid(w) && RetriesSoundIn(w)
    ensures RetriesSoundIn(Apply(w, step))
  {
    AppKeepsRetries(w, step);
    CaptureKeepsRetries(w.app);
  }

  /** What every reachable world satisfies. */
  ghost predicate Sound(w: World) {
    WorldValid(w) && RetriesSoundIn(w) && GoneExact(w) && LaunchesWereSaved(w)
  }

  lemma {:induction false} ReachableIsSound(steps: seq<Step>)
    ensures Sound(Play(Start(), steps))
    decreases |steps|
  {
    if |steps| > 0 {
      var mid, step := Play(Start(), steps[..|steps| - 1]), steps[|steps| - 1];
      ReachableIsSound(steps[..|steps| - 1]);
      StepKeepsValid(mid, step);
      StepKeepsRetries(mid, step);
      StepKeepsGone(mid, step);
      StepKeepsSaved(mid, step);
    }
  }

  // -------------------------------------------------------- not stale: no repeat

  lemma {:induction false} SettledIsSpent(h: Log, id: Id, state: CommandState, a: nat)
    requires Valid(h) && Find(h.commands, id).Some? && h.commands[Find(h.commands, id).value].attempt == a
    requires h.commands[Find(h.commands, id).value].state.Pending? && !state.Pending?
    ensures forall c | c in SettlePending(h, id, state).commands && c.id == id :: Spent(c, a)
  {
    var k := Find(h.commands, id).value;
    var cs := SettlePending(h, id, state).commands;
    forall c | c in cs && c.id == id ensures Spent(c, a) {
      var i :| 0 <= i < |cs| && cs[i] == c;
      assert h.commands[i].id == h.commands[k].id;
      if i != k { assert Clash(h.commands[i], h.commands[k]) && Clash(h.commands[k], h.commands[i]); }
    }
  }

  lemma {:induction false} LaunchIsTracked(w: World, accepted: bool)
    requires WorldValid(w) && SavedPending(w).Some?
    requires !Stale(w, SavedPending(w).value.0, SavedPending(w).value.1)
    ensures var (s, c) := SavedPending(w).value;
            Tracked(Apply(w, Step.Dispatch(accepted)), s, c.id, c.attempt, |w.log|)
  {
    var (s, c) := SavedPending(w).value;
    var k := Find(w.app[s].commands, w.token.value.1).value;
    assert w.app[s].commands[k] == c;
    SettledIsSpent(w.app[s], c.id, if accepted then Submitted else WITHDRAWN, c.attempt);
  }

  // --------------------------------------------------------- stale: a repeat run

  /** One retry whose save fails: the entry is refused and the barrier is free for the next one. */
  function FailedRetry(s: nat, id: Id): seq<Step> {
    [On(s, RetryEntry(id)), Poll, SaveEnds(false, false), Poll]
  }

  function FailedRetries(s: nat, id: Id, m: nat): seq<Step> {
    if m == 0 then [] else FailedRetries(s, id, m - 1) + FailedRetry(s, id)
  }

  /** Entry `k` alone may have moved to this attempt and state; nothing is being saved and nothing was launched. */
  predicate Retried(w: World, end: World, s: nat, id: Id, k: nat, attempt: nat)
    requires s < |w.app| && k < |w.app[s].commands|
  {
    && |end.app| == |w.app|
    && Find(end.app[s].commands, id) == Some(k)
    && end.app[s].commands[k].attempt == attempt && end.app[s].commands[k].intent == w.app[s].commands[k].intent
    && !Recorded(end.app[s].commands[k])
    && end.saves == Saves(None, None) && end.disk == w.disk && end.log == w.log && end.gone(s, id) == w.gone(s, id)
  }

  /** The barrier is free, and this entry may be retried. */
  predicate MayRetry(w: World, s: nat, id: Id, k: nat) {
    && s < |w.app| && Find(w.app[s].commands, id) == Some(k) && w.token.None?
    && Retryable(w.app[s].commands[k].intent) && !Recorded(w.app[s].commands[k])
    && w.app[s].commands[k].attempt + 1 < U64_MAX
  }

  lemma {:induction false} RetryOnce(w: World, s: nat, id: Id, k: nat)
    requires MayRetry(w, s, id, k) && w.saves == Saves(None, None)
    ensures var end := Apply(w, On(s, RetryEntry(id)));
            && Retried(w, end, s, id, k, w.app[s].commands[k].attempt + 1)
            && end.app[s].commands[k].state.Pending? && end.token == Some((s, id))
  {
    var h := w.app[s];
    var next := Retry(h, id).value;
    FindAfterRewrite(h.commands, next.commands, id);
    assert next.commands[k] in next.commands;
    var end := Apply(w, On(s, RetryEntry(id)));
    assert end.app[s] == next;
    assert Known(end.app, s, id);
  }

  /** A save that starts, fails without reaching the disk and is reported. */
  lemma {:induction false} SaveFails(w: World, s: nat, id: Id)
    requires w.saves == Saves(None, None) && Known(w.app, s, id)
    ensures var c := Apply(Apply(w, Poll), SaveEnds(false, false));
            && SaveFailed(c.saves) && c.saves.saved.None? && c.app == w.app && c.token == w.token && c.log == w.log
            && c.disk == w.disk && c.gone(s, id) == w.gone(s, id)
  {
    var a := Apply(w, Poll);
    assert a.saves == Saves(Some(Job(Capture(w.app), false, false)), None) && a.gone(s, id) == w.gone(s, id);
  }

  lemma {:induction false} FailureWithdraws(w: World, s: nat, id: Id, k: nat)
    requires SaveFailed(w.saves) && w.saves.saved.None? && w.token == Some((s, id)) && s < |w.app|
    requires Find(w.app[s].commands, id) == Some(k) && w.app[s].commands[k].state.Pending?
    ensures var end := Apply(w, Poll);
            && Retried(w, end, s, id, k, w.app[s].commands[k].attempt) && end.token.None?
  {
    var end := Apply(w, Poll);
    FindAfterRewrite(w.app[s].commands, end.app[s].commands, id);
    assert end.app[s].commands[k] in end.app[s].commands;
    assert Known(end.app, s, id);
  }

  lemma {:induction false} RetryFails(w: World, s: nat, id: Id, k: nat)
    requires MayRetry(w, s, id, k) && w.saves == Saves(None, None)
    ensures var end := Play(w, FailedRetry(s, id));
            Retried(w, end, s, id, k, w.app[s].commands[k].attempt + 1) && end.token.None?
  {
    RetryOnce(w, s, id, k);
    var a := Apply(w, On(s, RetryEntry(id)));
    assert a.app[s].commands[k] in a.app[s].commands && Known(a.app, s, id);
    SaveFails(a, s, id);
    FailureWithdraws(Apply(Apply(a, Poll), SaveEnds(false, false)), s, id, k);
    PlayFour(w, On(s, RetryEntry(id)), Poll, SaveEnds(false, false), Poll);
  }

  /** As many failed retries as it takes. */
  lemma {:induction false} RetriesFail(w: World, s: nat, id: Id, k: nat, m: nat)
    requires MayRetry(w, s, id, k) && w.saves == Saves(None, None)
    requires w.app[s].commands[k].attempt + m + 1 < U64_MAX
    ensures var end := Play(w, FailedRetries(s, id, m));
            Retried(w, end, s, id, k, w.app[s].commands[k].attempt + m) && MayRetry(end, s, id, k)
    decreases m
  {
    if m > 0 {
      var before := FailedRetries(s, id, m - 1);
      RetriesFail(w, s, id, k, m - 1);
      RetryFails(Play(w, before), s, id, k);
      PlayThen(w, before, FailedRetry(s, id));
    }
  }

  lemma {:induction false} FindAfterRewrite(a: seq<Command>, b: seq<Command>, id: Id)
    requires |a| == |b| && forall i | 0 <= i < |a| :: a[i].id == b[i].id
    ensures Find(a, id) == Find(b, id)
  {
    if |a| > 0 { FindAfterRewrite(a[..|a| - 1], b[..|b| - 1], id); }
  }

  lemma {:induction false} PlayFour(w: World, a: Step, b: Step, c: Step, d: Step)
    ensures Play(w, [a, b, c, d]) == Apply(Apply(Apply(Apply(w, a), b), c), d)
  {
    PlaySnoc(w, [], a);
    PlaySnoc(w, [a], b);
    PlaySnoc(w, [a, b], c);
    PlaySnoc(w, [a, b, c], d);
    assert [] + [a] == [a] && [a] + [b] == [a, b] && [a, b] + [c] == [a, b, c] && [a, b, c] + [d] == [a, b, c, d];
  }

  /** A save of what memory holds, from its start to its acknowledgement. */
  lemma {:induction false} SaveLands(w: World, s: nat, id: Id)
    requires w.saves == Saves(None, None) && Known(w.app, s, id)
    ensures var c := Apply(Apply(Apply(w, Poll), SaveEnds(true, true)), Poll);
            && c.saves == Saves(None, Some(Capture(w.app))) && c.app == w.app && c.token == w.token && c.log == w.log
            && c.gone(s, id) == w.gone(s, id)
  {
    var a := Apply(w, Poll);
    assert a.saves == Saves(Some(Job(Capture(w.app), false, false)), None) && a.gone(s, id) == w.gone(s, id);
    var b := Apply(a, SaveEnds(true, true));
    assert b.saves == Saves(Some(Job(Capture(w.app), true, true)), None) && b.gone(s, id) == w.gone(s, id);
  }

  lemma {:induction false} SavedIsLaunched(w: World, s: nat, id: Id, k: nat)
    requires w.token == Some((s, id)) && s < |w.app| && w.saves.saved == Some(Capture(w.app))
    requires Find(w.app[s].commands, id) == Some(k) && w.app[s].commands[k].state.Pending?
    ensures Apply(w, Step.Dispatch(true)).log == w.log + [Launch(s, w.app[s].commands[k], w.gone(s, id))]
  {
    assert ContainsSaved(w.saves, s, w.app[s].commands[k]);
    assert SavedPending(w) == Some((s, w.app[s].commands[k]));
  }

  /** Save what memory holds, acknowledge it, and launch the token's Pending entry. */
  lemma {:induction false} SaveAndLaunch(w: World, s: nat, id: Id, k: nat)
    requires w.token == Some((s, id)) && w.saves == Saves(None, None) && s < |w.app|
    requires Find(w.app[s].commands, id) == Some(k) && w.app[s].commands[k].state.Pending?
    ensures Play(w, [Poll, SaveEnds(true, true), Poll, Step.Dispatch(true)]).log
            == w.log + [Launch(s, w.app[s].commands[k], w.gone(s, id))]
  {
    assert w.app[s].commands[k] in w.app[s].commands && Known(w.app, s, id);
    SaveLands(w, s, id);
    SavedIsLaunched(Apply(Apply(Apply(w, Poll), SaveEnds(true, true)), Poll), s, id, k);
    PlayFour(w, Poll, SaveEnds(true, true), Poll, Step.Dispatch(true));
  }

  lemma {:induction false} RestoredInPlace(h: Log, d: Command) returns (k: nat)
    requires Valid(h) && d in h.commands
    ensures Find(Restore(h).commands, d.id) == Some(k) && Restore(h).commands[k] == Interrupted(d)
    ensures Restore(h).commands[k].id == d.id && d.intent == d.id.intent
  {
    k :| 0 <= k < |h.commands| && h.commands[k] == d;
    IdIsFound(h, k);
    FindAfterRewrite(h.commands, Restore(h).commands, d.id);
  }

  lemma {:induction false} CrashBringsBack(w: World, s: nat, d: Command) returns (k: nat)
    requires WorldValid(w) && w.disk.Some? && d in Entries(w.disk.value, s) && Known(w.app, s, d.id)
    ensures var up := Apply(w, Crash);
            && s < |up.app| && Find(up.app[s].commands, d.id) == Some(k) && up.app[s].commands[k] == Interrupted(d)
            && up.token.None? && up.saves == Saves(None, None) && up.log == w.log && up.gone(s, d.id) == w.gone(s, d.id)
    ensures d.intent == d.id.intent
  {
    k := RestoredInPlace(w.disk.value[s], d);
    var up := Apply(w, Crash);
    assert up.app == RestoreAll(w.disk.value) && up.app[s].commands == Restore(w.disk.value[s]).commands;
    assert up.app[s].commands[k] in up.app[s].commands;
    assert Known(up.app, s, d.id);
  }

  lemma {:induction false} IdIsFound(h: Log, k: nat)
    requires Valid(h) && k < |h.commands|
    ensures Find(h.commands, h.commands[k].id) == Some(k)
    ensures h.commands[k].id == Id(h.commands[k].intent)
  {
    var found := Find(h.commands, h.commands[k].id).value;
    assert ValidCommand(h.commands[k], |h.messages|) && ValidCommand(h.commands[found], |h.messages|);
    SameIntentSameEntry(h, found, k);
  }

  /** A disk that still holds the id earlier and unrecorded lets a crash, retries and a save launch it again. */
  lemma {:induction false} StaleDiskRepeats(w: World, s: nat, d: Command, a: nat) returns (steps: seq<Step>)
    requires WorldValid(w) && w.disk.Some? && d in Entries(w.disk.value, s) && Known(w.app, s, d.id)
    requires d.attempt < a < U64_MAX && !Recorded(d) && Retryable(d.intent)
    ensures Repeats(w, steps, s, d.id, a)
  {
    var up := Apply(w, Crash);
    var k := CrashBringsBack(w, s, d);
    var m: nat := a - d.attempt - 1;
    var retries := FailedRetries(s, d.id, m);
    var retry, tail := On(s, RetryEntry(d.id)), [Poll, SaveEnds(true, true), Poll, Step.Dispatch(true)];
    RetriesFail(up, s, d.id, k, m);
    var mid := Play(up, retries);
    RetryOnce(mid, s, d.id, k);
    SaveAndLaunch(Apply(mid, retry), s, d.id, k);
    steps := [Crash] + (retries + ([retry] + tail));
    PlayThen(w, [Crash], retries + ([retry] + tail));
    PlayThen(up, retries, [retry] + tail);
    PlayThen(mid, [retry], tail);
    PlayOne(w, Crash);
    PlayOne(mid, retry);
  }

  /** `steps` end with exactly one more launch: this id at attempt `a`, known all the time since. */
  predicate Repeats(w: World, steps: seq<Step>, s: nat, id: Id, a: nat) {
    var log := Play(w, steps).log;
    && |log| == |w.log| + 1
    && log[|w.log|].session == s && log[|w.log|].entry.id == id && log[|w.log|].entry.attempt == a
    && log[|w.log|].since == w.gone(s, id)
  }

  lemma {:induction false} CopyIsRetryable(w: World, sessions: Snapshot, s: nat, c: Command, d: Command)
    requires AllValid(w.app) && AllValid(sessions) && RetriesSound(w.app)
    requires c in Entries(w.app, s) && d in Entries(sessions, s) && d.id == c.id && d.attempt < c.attempt
    ensures Retryable(d.intent) && c.attempt < U64_MAX && 0 < d.attempt
  {
    var i :| 0 <= i < |w.app[s].commands| && w.app[s].commands[i] == c;
    var j :| 0 <= j < |sessions[s].commands| && sessions[s].commands[j] == d;
    assert ValidCommand(w.app[s].commands[i], |w.app[s].messages|);
    assert ValidCommand(sessions[s].commands[j], |sessions[s].messages|);
  }

  /** Once the running save has landed, its stale copy is the disk's. */
  lemma {:induction false} StaleJobRepeats(w: World, s: nat, d: Command, a: nat) returns (steps: seq<Step>)
    requires WorldValid(w) && w.saves.job.Some? && !w.saves.job.value.finished
    requires d in Entries(w.saves.job.value.snapshot, s) && Known(w.app, s, d.id)
    requires d.attempt < a < U64_MAX && !Recorded(d) && Retryable(d.intent)
    ensures Repeats(w, steps, s, d.id, a)
  {
    var land := SaveEnds(true, true);
    var landed := Apply(w, land);
    StepKeepsValid(w, land);
    assert landed.disk == Some(w.saves.job.value.snapshot) && landed.app == w.app && landed.log == w.log;
    assert landed.gone(s, d.id) == w.gone(s, d.id);
    var rest := StaleDiskRepeats(landed, s, d, a);
    steps := [land] + rest;
    PlayThen(w, [land], rest);
    PlayOne(w, land);
  }

  lemma {:induction false} PlayOne(w: World, step: Step)
    ensures Play(w, [step]) == Apply(w, step)
  {
    assert [step][..0] == [];
  }

  /** The launch itself keeps the copies, so a stale copy is still stale after it. */
  lemma {:induction false} StaleRepeats(w: World, accepted: bool) returns (steps: seq<Step>)
    requires Sound(w) && SavedPending(w).Some?
    requires Stale(w, SavedPending(w).value.0, SavedPending(w).value.1)
    ensures var (s, c) := SavedPending(w).value;
            Repeats(Apply(w, Step.Dispatch(accepted)), steps, s, c.id, c.attempt)
  {
    var (s, c) := SavedPending(w).value;
    var w1 := Apply(w, Step.Dispatch(accepted));
    StepKeepsValid(w, Step.Dispatch(accepted));
    LaunchedStaysKnown(w, accepted);
    assert c in Entries(w.app, s);
    if w.disk.Some? && !AllCover(w.disk.value, s, c.id, c.attempt) {
      var d :| d in Entries(w.disk.value, s) && d.id == c.id && !Covers(d, c.attempt);
      CopyIsRetryable(w, w.disk.value, s, c, d);
      steps := StaleDiskRepeats(w1, s, d, c.attempt);
    } else {
      var job := w.saves.job.value;
      var d :| d in Entries(job.snapshot, s) && d.id == c.id && !Covers(d, c.attempt);
      CopyIsRetryable(w, job.snapshot, s, c, d);
      steps := StaleJobRepeats(w1, s, d, c.attempt);
    }
  }

  lemma {:induction false} LaunchedStaysKnown(w: World, accepted: bool)
    requires SavedPending(w).Some?
    ensures var (s, c) := SavedPending(w).value;
            var w1 := Apply(w, Step.Dispatch(accepted));
            && Known(w1.app, s, c.id) && w1.disk == w.disk && w1.saves == w.saves
            && w1.gone(s, c.id) == w.gone(s, c.id) && |w1.log| == |w.log| + 1
  {
    var (s, c) := SavedPending(w).value;
    var h := w.app[s];
    var cs := SettlePending(h, c.id, if accepted then Submitted else WITHDRAWN).commands;
    var k := Find(h.commands, c.id).value;
    assert cs[k].id == c.id && cs[k] in cs;
  }

  /** After `steps`, launch `j`, later than `n`, is of this id and attempt, known since `n` or before. */
  predicate Again(w: World, steps: seq<Step>, j: nat, n: nat, s: nat, id: Id, a: nat) {
    var log := Play(w, steps).log;
    && n < j < |log|
    && log[j].session == s && log[j].entry.id == id && log[j].entry.attempt == a && log[j].since <= n
  }

  /**
   * The same attempt can be launched again, with its id live or retired all the time in between,
   * exactly when at the first launch a restorable copy was stale.
   */
  lemma {:induction false} RepeatIffStale(w: World, accepted: bool)
    requires Sound(w) && SavedPending(w).Some?
    ensures var (s, c) := SavedPending(w).value;
            Stale(w, s, c) <==>
            exists steps, j: nat :: Again(Apply(w, Step.Dispatch(accepted)), steps, j, |w.log|, s, c.id, c.attempt)
  {
    var (s, c) := SavedPending(w).value;
    var w1, n := Apply(w, Step.Dispatch(accepted)), |w.log|;
    LaunchedStaysKnown(w, accepted);
    if Stale(w, s, c) {
      var steps := StaleRepeats(w, accepted);
      assert Again(w1, steps, n + 1, n, s, c.id, c.attempt);
    } else {
      LaunchIsTracked(w, accepted);
      StepKeepsValid(w, Step.Dispatch(accepted));
      StepKeepsGone(w, Step.Dispatch(accepted));
      NotAnArrival(w);
      forall steps, j: nat ensures !Again(w1, steps, j, n, s, c.id, c.attempt) {
        NoRepeatWhileTracked(w1, steps, s, c.id, c.attempt, n);
      }
    }
  }

  lemma {:induction false} NotAnArrival(w: World)
    requires WorldValid(w) && SavedPending(w).Some?
    ensures !SavedPending(w).value.1.id.intent.SelectionArrival?
  {
    var (s, c) := SavedPending(w).value;
    var k := Find(w.app[s].commands, w.token.value.1).value;
    assert ValidCommand(w.app[s].commands[k], |w.app[s].messages|);
  }
}
