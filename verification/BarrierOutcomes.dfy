/** What one step of the barrier leaves behind: which entry changed, to what, and what stayed. */
module BarrierOutcomes {
  import opened Commands
  import opened History
  import opened Admission
  import opened Barrier
  import opened BarrierSafety
  import opened BarrierRepeat
  import opened BarrierRuns

  /** Only this entry of session `s` changed, and only in its state. */
  predicate OnlyStateOf(before: Snapshot, after: Snapshot, s: nat, k: nat, state: CommandState) {
    && s < |before| && k < |before[s].commands|
    && |after| == |before| && (forall t | 0 <= t < |before| && t != s :: after[t] == before[t])
    && after[s] == before[s].(commands := before[s].commands[k := before[s].commands[k].(state := state)])
  }

  /**
   * What is let through is exactly the waiting entry: an accepted dispatch leaves it Submitted, a refused one
   * Refused, and either frees the barrier, is logged once and touches nothing else.
   */
  lemma {:induction false} DispatchSettles(w: World, accepted: bool) returns (k: nat)
    requires SavedPending(w).Some?
    ensures var (s, c) := SavedPending(w).value;
            var next := Apply(w, Step.Dispatch(accepted));
            && s < |w.app| && k < |w.app[s].commands| && w.app[s].commands[k] == c && c.state.Pending?
            && w.token == Some((s, c.id)) && next.token.None?
            && next.saves == w.saves && next.disk == w.disk && next.completed == w.completed
            && next.log == w.log + [Launch(s, c, w.gone(s, c.id))]
            && s < |next.app| && k < |next.app[s].commands|
            && OnlyStateOf(w.app, next.app, s, k, next.app[s].commands[k].state)
            && (if accepted then next.app[s].commands[k].state.Submitted? else next.app[s].commands[k].state.Refused?)
  {
    var (s, c) := SavedPending(w).value;
    k := Find(w.app[s].commands, w.token.value.1).value;
  }

  /** Nothing is let through while nothing waits, while it is not saved as it stands, or while it is settled. */
  lemma {:induction false} NothingElseIsDispatched(w: World, accepted: bool)
    requires SavedPending(w).None?
    ensures var next := Apply(w, Step.Dispatch(accepted)); next.app == w.app && next.log == w.log && next.token == w.token
  {
  }

  /** The barrier lets an entry through exactly if it waits there and the last acknowledged save holds it as it stands. */
  lemma {:induction false} LetThroughExactlyWhenSaved(w: World, s: nat, k: nat)
    requires WorldValid(w) && s < |w.app| && k < |w.app[s].commands| && w.app[s].commands[k].state.Pending?
    ensures SavedPending(w) == Some((s, w.app[s].commands[k])) <==>
            && w.token == Some((s, w.app[s].commands[k].id))
            && w.saves.saved.Some? && s < |w.saves.saved.value|
            && w.app[s].commands[k] in w.saves.saved.value[s].commands
  {
    IdIsFound(w.app[s], k);
  }

  /** A withdrawal, by hand or because the save failed, refuses the waiting entry and frees the barrier. */
  lemma {:induction false} WithdrawalRefuses(w: World, step: Step, s: nat, k: nat)
    requires WorldValid(w) && s < |w.app| && k < |w.app[s].commands|
    requires w.token == Some((s, w.app[s].commands[k].id)) && w.app[s].commands[k].state.Pending?
    requires step.Withdraw? || (step.Poll? && w.saves.job.Some? && w.saves.job.value.finished && !w.saves.job.value.ok)
    ensures var next := Apply(w, step);
            && next.token.None? && next.log == w.log && next.disk == w.disk && next.saves.saved == w.saves.saved
            && s < |next.app| && k < |next.app[s].commands|
            && OnlyStateOf(w.app, next.app, s, k, next.app[s].commands[k].state)
            && next.app[s].commands[k].state.Refused?
  {
    IdIsFound(w.app[s], k);
  }

  /** While an entry waits nothing else is asked for, and a submission that the history refuses changes nothing. */
  lemma {:induction false} OneWaitsAtATime(w: World, s: nat, text: Text, intent: Intent, follow: bool, after: Option<nat>)
    requires w.token.Some? || s >= |w.app| || Admit(w.app[s], text, intent, follow, after, Pending).Err?
    ensures var next := Apply(w, On(s, Submit(text, intent, follow, after))); next.app == w.app && next.token == w.token
  {
  }

  /** A submission that is accepted leaves its entry Pending, the last of its conversation, and waiting at the barrier. */
  lemma {:induction false} SubmissionWaits(w: World, s: nat, text: Text, intent: Intent, follow: bool, after: Option<nat>)
    requires WorldValid(w) && s < |w.app| && w.token.None? && Admit(w.app[s], text, intent, follow, after, Pending).Ok?
    ensures var next := Apply(w, On(s, Submit(text, intent, follow, after)));
            && next.token == Some((s, Id(intent))) && |next.app| == |w.app| && |next.app[s].commands| > 0
            && IsNew(next.app[s].commands[|next.app[s].commands| - 1], text, intent)
  {
    SubmissionIsTaken(w, s, text, intent, follow, after);
    LastIsTheNew(w.app[s], text, intent, follow, after);
  }

  lemma {:induction false} SubmissionIsTaken(w: World, s: nat, text: Text, intent: Intent, follow: bool, after: Option<nat>)
    requires s < |w.app| && w.token.None? && Admit(w.app[s], text, intent, follow, after, Pending).Ok?
    ensures var next := Apply(w, On(s, Submit(text, intent, follow, after)));
            && next.token == Some((s, Id(intent)))
            && next.app == w.app[s := Admit(w.app[s], text, intent, follow, after, Pending).value]
  {
  }

  predicate IsNew(c: Command, text: Text, intent: Intent) {
    c.state.Pending? && c.attempt == 1 && c.intent == intent && c.text == text && c.id == Id(intent)
  }

  lemma {:induction false} LastIsTheNew(h: Log, text: Text, intent: Intent, follow: bool, after: Option<nat>)
    requires Valid(h) && Admit(h, text, intent, follow, after, Pending).Ok?
    ensures var cs := Admit(h, text, intent, follow, after, Pending).value.commands;
            |cs| > 0 && IsNew(cs[|cs| - 1], text, intent)
  {
    AdmissionKeepsHistory(h, text, intent, follow, after, Pending);
  }

  /** A retry makes its entry Pending under the next attempt and waiting, exactly if nothing waits, it may be retried and has no outcome. */
  lemma {:induction false} RetryWaits(w: World, s: nat, k: nat)
    requires WorldValid(w) && s < |w.app| && k < |w.app[s].commands|
    ensures var c := w.app[s].commands[k];
            var next := Apply(w, On(s, RetryEntry(c.id)));
            if w.token.None? && Retryable(c.intent) && !Recorded(c) && c.attempt + 1 < U64_MAX
            then next.token == Some((s, c.id))
                 && next.app == w.app[s := w.app[s].(commands := w.app[s].commands[k := c.(attempt := c.attempt + 1, state := Pending)])]
            else next.app == w.app && next.token == w.token
  {
    IdIsFound(w.app[s], k);
  }

  /** The other edits neither let anything through nor touch what waits at the barrier. */
  lemma {:induction false} EditsLeaveTheBarrier(w: World, s: nat, edit: Edit)
    requires !edit.Submit? && !edit.RetryEntry?
    ensures var next := Apply(w, On(s, edit));
            next.token == w.token && next.log == w.log && next.saves == w.saves && next.disk == w.disk
  {
  }

  /** A session as it comes back: what was live has an unknown outcome, a reply that ran has failed, all else is as saved. */
  predicate ComesBack(saved: Log, back: Log) {
    && back.messages == saved.messages && back.receipts == saved.receipts && back.retired == saved.retired
    && back.anchor == saved.anchor && !back.streaming
    && |back.commands| == |saved.commands|
    && forall i | 0 <= i < |saved.commands| ::
         if saved.commands[i].state.Pending? || saved.commands[i].state.Submitted?
         then back.commands[i].state.Unknown? && back.commands[i] == saved.commands[i].(state := back.commands[i].state)
         else back.commands[i] == saved.commands[i]
  }

  /** After a crash there is what the disk held, or one empty session, and nothing waits. */
  lemma {:induction false} DiskComesBack(w: World)
    ensures var next := Apply(w, Crash);
            && next.token.None? && next.saves == Saves(None, None) && next.log == w.log && next.disk == w.disk
            && (w.disk.None? ==> |next.app| == 1 && next.app[0] == Log([], [], [], [], None, None, false, false))
            && (w.disk.Some? ==>
                  |next.app| == |w.disk.value| && forall s | 0 <= s < |next.app| :: ComesBack(w.disk.value[s], next.app[s]))
  {
  }

  /** A session that is opened is empty and leaves the others as they are. */
  lemma {:induction false} OpenedIsEmpty(w: World)
    ensures var next := Apply(w, Open);
            && |next.app| == |w.app| + 1 && next.app[..|w.app|] == w.app && next.token == w.token
            && next.app[|w.app|] == Log([], [], [], [], None, None, false, false)
  {
  }

  // ------------------------------------------------------------ a whole course

  const ACCEPTED := [SUBMIT, Poll, SaveEnds(true, true), Poll] + [Step.Dispatch(true)]

  /** A submission is saved, dispatched and accepted: it is Submitted, and after a crash it comes back Unknown. */
  lemma {:induction false} AcceptedComesBackUnknown()
    ensures var w := Play(Start(), ACCEPTED);
            && w.app == [One(1, Submitted)] && w.token.None? && |w.log| == 1 && w.log[0].entry == Entry(1, Pending)
            && Apply(w, Crash).app == [One(1, Unknown(INTERRUPTED))]
  {
    var start := Start();
    SubmittedAgain(start);
    var a := Apply(start, SUBMIT);
    FirstSaveLands(a);
    var b := Apply(Apply(Apply(a, Poll), SaveEnds(true, true)), Poll);
    PlayFour(start, SUBMIT, Poll, SaveEnds(true, true), Poll);
    PlaySnoc(start, [SUBMIT, Poll, SaveEnds(true, true), Poll], Step.Dispatch(true));
    FirstIsAccepted(b);
  }

  lemma {:induction false} FirstSaveLands(w: World)
    requires Looks(w, One(1, Pending), true, None, None, None)
    ensures var end := Apply(Apply(Apply(w, Poll), SaveEnds(true, true)), Poll);
            Looks(end, One(1, Pending), true, None, Some([One(1, Pending)]), Some([One(1, Pending)])) && end.log == w.log
  {
    assert Capture(w.app) == [One(1, Pending)];
    var a := Apply(w, Poll);
    assert Looks(a, One(1, Pending), true, Some(Job([One(1, Pending)], false, false)), None, None);
  }

  lemma {:induction false} FirstIsAccepted(w: World)
    requires Looks(w, One(1, Pending), true, None, Some([One(1, Pending)]), Some([One(1, Pending)])) && w.log == []
    ensures var next := Apply(w, Step.Dispatch(true));
            && next.app == [One(1, Submitted)] && next.token.None? && |next.log| == 1 && next.log[0].entry == Entry(1, Pending)
            && Apply(next, Crash).app == [One(1, Unknown(INTERRUPTED))]
  {
    FindOne(1, Pending);
    assert Entry(1, Pending) in Entries(w.saves.saved.value, 0);
    assert [Entry(1, Pending)][0 := Entry(1, Submitted)] == [Entry(1, Submitted)];
    var next := Apply(w, Step.Dispatch(true));
    assert next.disk == Some([One(1, Pending)]);
    assert RestoreAll([One(1, Pending)])[0].commands == [Entry(1, Unknown(INTERRUPTED))];
  }

  // ------------------------------------------------------------- other edits

  /** An operation on a conversation takes effect as the history says, and a refused one leaves the conversation as it was. */
  lemma {:induction false} EditsAct(w: World, s: nat, edit: Edit)
    requires s < |w.app| && !edit.Submit? && !edit.RetryEntry?
    ensures var h, next := w.app[s], Apply(w, On(s, edit)).app;
            && |next| == |w.app| && (forall t | 0 <= t < |w.app| && t != s :: next[t] == w.app[t])
            && match edit
               case Arrival(text, request, phase, failure) =>
                 if Arrive(h, text, request, phase, failure).Ok?
                 then next[s] == Arrive(h, text, request, phase, failure).value else next[s] == h
               case ClearSession => if Clear(h).Ok? then next[s] == Clear(h).value else next[s] == h
               case ObserveReceipt(r) => if Observe(h, r).Some? then next[s] == Observe(h, r).value else next[s] == h
               case Chat(prompt) =>
                 next[s] == (if |h.messages| % 2 == 0 then h.(messages := h.messages + [Message(true, prompt), Message(false, 0)]) else h)
               case Stream => next[s] == h.(streaming := !h.streaming)
               case Summarise => next[s] == StartSummary(h)
               case Summarised(note) => next[s] == EndSummary(h, note)
               case Protect(origin) => next[s] == h.(planOrigin := origin)
               case _ => true
  {
  }

  /** What became of a submitted entry is recorded, whatever it was, as long as it fits the intent and no launch relies on the entry. */
  lemma {:induction false} OutcomesAreRecorded(w: World, s: nat, k: nat, state: CommandState)
    requires WorldValid(w) && s < |w.app| && k < |w.app[s].commands| && w.app[s].commands[k].state.Submitted?
    requires StateFits(w.app[s].commands[k].intent, state) && !state.Pending? && !state.Submitted?
    requires forall i | 0 <= i < |w.app[s].commands| :: !NamedBy(w.app[s].commands[k], w.app[s].commands[i])
    ensures OnlyStateOf(w.app, Apply(w, On(s, Settle(w.app[s].commands[k].id, state))).app, s, k, state)
  {
    IdIsFound(w.app[s], k);
  }

  /** An intent declined while another waits is kept as refused, at the end of its conversation, and never waits itself. */
  lemma {:induction false} DeclinedIsRefused(w: World, s: nat, text: Text, intent: Intent, after: Option<nat>)
    requires WorldValid(w) && s < |w.app| && Admit(w.app[s], text, intent, false, after, Pending).Ok?
    ensures var next := Apply(w, On(s, Decline(text, intent, after)));
            && next.token == w.token && |next.app| == |w.app| && |next.app[s].commands| > 0
            && var last := next.app[s].commands[|next.app[s].commands| - 1];
               last.intent == intent && last.text == text && last.attempt == 1 && last.state.Refused?
  {
    AdmissionKeepsHistory(w.app[s], text, intent, false, after, Pending);
    var h := Admit(w.app[s], text, intent, false, after, Pending).value;
    IdIsFound(h, |h.commands| - 1);
  }

  /** A save that ends well is on the disk; one that fails may have reached it or not; memory and what waits are untouched. */
  lemma {:induction false} SaveEndsOnDisk(w: World, landed: bool, ok: bool)
    requires w.saves.job.Some? && !w.saves.job.value.finished
    ensures var next := Apply(w, SaveEnds(landed, ok));
            && next.app == w.app && next.token == w.token && next.log == w.log && next.saves.saved == w.saves.saved
            && next.disk == (if landed then Some(w.saves.job.value.snapshot) else w.disk)
            && next.saves.job == Some(Job(w.saves.job.value.snapshot, true, landed && ok))
  {
  }

  /** A poll acknowledges a good save and starts the next one as soon as memory differs from what is saved. */
  lemma {:induction false} PollAcknowledges(w: World)
    requires !SaveFailed(w.saves)
    ensures var next := Apply(w, Poll);
            var finished := w.saves.job.Some? && w.saves.job.value.finished;
            && next.app == w.app && next.token == w.token && next.disk == w.disk
            && next.saves.saved == (if finished then Some(w.saves.job.value.snapshot) else w.saves.saved)
            && next.saves.job == (if w.saves.job.Some? && !finished then w.saves.job
                                  else if next.saves.saved == Some(Capture(w.app)) then None
                                  else Some(Job(Capture(w.app), false, false)))
  {
  }
}
