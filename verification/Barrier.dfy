/** The write-ahead command barrier: an entry is handed to dispatch only from a completed save that holds it. */
module Barrier {
  import opened Commands
  import opened History

  /** What one save writes: the sessions as they stood when it was captured. */
  type Snapshot = seq<Log>

  /** The single background save. */
  datatype Job = Job(snapshot: Snapshot, finished: bool, ok: bool)
  datatype Saves = Saves(job: Option<Job>, saved: Option<Snapshot>)

  /** An entry handed to dispatch, with the length of the log when its id was last unknown to memory. */
  datatype Launch = Launch(session: nat, entry: Command, since: nat)

  /** What may happen inside one session. */
  datatype Edit =
    | Submit(text: Text, intent: Intent, follow: bool, after: Option<nat>)
    | Decline(text: Text, intent: Intent, after: Option<nat>)
    | Arrival(text: Text, request: SelectionRequest, phase: Phase, failure: Reason)
    | RetryEntry(id: Id)
    | Settle(id: Id, state: CommandState)
    | ClearSession
    | ObserveReceipt(receipt: Receipt)
    | Chat(prompt: Token)
    | Stream
    | Summarise
    | Summarised(note: Option<nat>)
    | Protect(origin: Option<PlannerRequest>)

  datatype Step =
    | On(session: nat, edit: Edit)
    | Withdraw
    | Poll
    | SaveEnds(landed: bool, ok: bool)
    | FinalSave(landed: bool, written: bool)
    | Dispatch(accepted: bool)
    | Open
    | Crash

  /**
   * Memory, the pending token, the autosave, the disk, and three histories kept for the statements:
   * what was launched, which snapshots were saved, and since when each id has been known.
   */
  datatype World = World(
    app: Snapshot,
    token: Option<(nat, Id)>,
    saves: Saves,
    disk: Option<Snapshot>,
    log: seq<Launch>,
    completed: seq<Snapshot>,
    gone: (nat, Id) -> nat)

  function Entries(sessions: Snapshot, s: nat): seq<Command> {
    if s < |sessions| then sessions[s].commands else []
  }

  /** Live or retired in its session. */
  predicate Known(sessions: Snapshot, s: nat, id: Id) {
    && s < |sessions|
    && ((exists c | c in sessions[s].commands :: c.id == id) || IdKey(id) in sessions[s].retired)
  }

  /** The plan origin and an awaited summary are runtime state and are never saved. */
  function Capture(app: Snapshot): (out: Snapshot)
    ensures |out| == |app|
    ensures forall s | 0 <= s < |app| :: out[s] == app[s].(planOrigin := None, summarising := false)
  {
    seq(|app|, s requires 0 <= s < |app| => app[s].(planOrigin := None, summarising := false))
  }

  /** A reply that was running when it was saved has failed. */
  function RestoreAll(disk: Snapshot): (out: Snapshot)
    ensures |out| == |disk|
    ensures forall s | 0 <= s < |disk| :: out[s] == Restore(disk[s]).(streaming := false)
  {
    seq(|disk|, s requires 0 <= s < |disk| => Restore(disk[s]).(streaming := false))
  }

  /** Take a finished result, then start the next save if memory differs from what is saved. */
  function Checkpoint(saves: Saves, snapshot: Snapshot): Saves {
    if SaveFailed(saves) then saves.(job := None)
    else
      var acknowledged :=
        if saves.job.Some? && saves.job.value.finished then Saves(None, Some(saves.job.value.snapshot)) else saves;
      if acknowledged.job.None? && acknowledged.saved != Some(snapshot)
      then acknowledged.(job := Some(Job(snapshot, false, false)))
      else acknowledged
  }

  /** Only the exact Pending entry in a completed save of that session qualifies. */
  predicate ContainsSaved(saves: Saves, s: nat, c: Command) {
    c.state.Pending? && saves.saved.Some? && c in Entries(saves.saved.value, s)
  }

  /** The token's entry, when the barrier lets it through. */
  function SavedPending(w: World): (r: Option<(nat, Command)>)
    ensures r.Some? ==> r.value.0 < |w.app|
  {
    if w.token.None? || w.token.value.0 >= |w.app| then None
    else
      var (s, id) := w.token.value;
      match Find(w.app[s].commands, id)
      case None => None
      case Some(k) =>
        if ContainsSaved(w.saves, s, w.app[s].commands[k]) then Some((s, w.app[s].commands[k])) else None
  }

  predicate Recorded(c: Command) { c.state.Planned? || c.state.Controlled? }

  /** Outcomes that events and reconciliation may record: only a submitted entry becomes Unknown or Refused. */
  predicate Outcome(h: Log, k: nat, state: CommandState)
    requires k < |h.commands|
  {
    var c := h.commands[k];
    && StateFits(c.intent, state)
    && ((exists i | 0 <= i < |h.commands| :: h.commands[i].intent.DispatchRun? && NamedBy(c, h.commands[i]))
        ==> state == Controlled(DispatchChanged(true)))
    && match state {
         case Controlled(_) => true
         case Planned(_) => true
         case Selecting(_, _) => true
         case Unknown(_) => c.state.Submitted?
         case Refused(_) => c.state.Submitted?
         case Pending => false
         case Submitted => false
       }
  }

  const WITHDRAWN := Refused(Reason(1, true))

  function SettlePending(h: Log, id: Id, state: CommandState): Log {
    var k := Find(h.commands, id);
    if k.Some? && h.commands[k.value].state.Pending? then SetState(h, id, state) else h
  }

  /** The session after an edit; a refused one changes nothing. A declined intent is recorded as withdrawn at once. */
  function EditLog(h: Log, edit: Edit): Log {
    match edit
    case Submit(text, intent, follow, after) =>
      var r := Admit(h, text, intent, follow, after, Pending);
      if r.Ok? then r.value else h
    case Decline(text, intent, after) =>
      var r := Admit(h, text, intent, false, after, Pending);
      if r.Ok? then SettlePending(r.value, Id(intent), WITHDRAWN) else h
    case Arrival(text, request, phase, failure) =>
      var r := Arrive(h, text, request, phase, failure);
      if r.Ok? then r.value else h
    case RetryEntry(id) =>
      var r := Retry(h, id);
      if r.Ok? then r.value else h
    case Settle(id, state) =>
      if Find(h.commands, id).Some? && Outcome(h, Find(h.commands, id).value, state) then SetState(h, id, state) else h
    case ClearSession =>
      var r := Clear(h);
      if r.Ok? then r.value else h
    case ObserveReceipt(receipt) =>
      var r := Observe(h, receipt);
      if r.Some? then r.value else h
    case Chat(prompt) =>
      if |h.messages| % 2 == 0 then h.(messages := h.messages + [Message(true, prompt), Message(false, 0)]) else h
    case Stream => h.(streaming := !h.streaming)
    case Summarise => StartSummary(h)
    case Summarised(note) => EndSummary(h, note)
    case Protect(origin) => h.(planOrigin := origin)
  }

  /** The entry an accepted submission or retry puts behind the barrier. */
  function Staged(h: Log, edit: Edit): Option<Id> {
    match edit
    case Submit(text, intent, follow, after) =>
      if Admit(h, text, intent, follow, after, Pending).Ok? then Some(Id(intent)) else None
    case RetryEntry(id) => if Retry(h, id).Ok? then Some(id) else None
    case _ => None
  }

  /** Whatever asks for a dispatch waits until the barrier is free. */
  predicate Asks(edit: Edit) { edit.Submit? || edit.RetryEntry? }

  predicate SaveFailed(saves: Saves) { saves.job.Some? && saves.job.value.finished && !saves.job.value.ok }

  /** The token's entry is refused and the barrier is free again. */
  function Withdrawn(w: World): World {
    if w.token.None? || w.token.value.0 >= |w.app| then w
    else
      var (s, id) := w.token.value;
      w.(app := w.app[s := SettlePending(w.app[s], id, WITHDRAWN)], token := None)
  }

  function Effect(w: World, step: Step): World {
    match step
    case On(s, edit) =>
      if s >= |w.app| || (Asks(edit) && w.token.Some?) then w
      else
        var staged := Staged(w.app[s], edit);
        w.(app := w.app[s := EditLog(w.app[s], edit)],
           token := if staged.Some? then Some((s, staged.value)) else w.token)
    case Withdraw => Withdrawn(w)
    case Poll =>
      (if SaveFailed(w.saves) then Withdrawn(w) else w).(saves := Checkpoint(w.saves, Capture(w.app)))
    case SaveEnds(landed, ok) =>
      if w.saves.job.None? || w.saves.job.value.finished then w
      else
        var job := w.saves.job.value;
        w.(saves := w.saves.(job := Some(job.(finished := true, ok := landed && ok))),
           disk := if landed then Some(job.snapshot) else w.disk,
           completed := if landed && ok then w.completed + [job.snapshot] else w.completed)
    case FinalSave(landed, written) =>
      var older := if w.saves.job.Some? && !w.saves.job.value.finished && landed
                   then Some(w.saves.job.value.snapshot) else w.disk;
      if written
      then w.(saves := Saves(None, Some(Capture(w.app))), disk := Some(Capture(w.app)),
              completed := w.completed + [Capture(w.app)])
      else w.(saves := w.saves.(job := None), disk := older)
    case Dispatch(accepted) =>
      (match SavedPending(w)
       case None => w
       case Some((s, c)) =>
         w.(app := w.app[s := SettlePending(w.app[s], c.id, if accepted then Submitted else WITHDRAWN)],
            token := None,
            log := w.log + [Launch(s, c, w.gone(s, c.id))]))
    case Open => w.(app := w.app + [FRESH])
    case Crash =>
      w.(app := if w.disk.Some? then RestoreAll(w.disk.value) else [FRESH], token := None, saves := Saves(None, None))
  }

  /** One step, and the record of which ids memory does not know after it. */
  function Apply(w: World, step: Step): World {
    var next := Effect(w, step);
    next.(gone := (s, id) => if Known(next.app, s, id) then w.gone(s, id) else |next.log|)
  }

  function Start(): World {
    World([FRESH], None, Saves(None, None), None, [], [], (s, id) => 0)
  }

  function Play(w: World, steps: seq<Step>): World
    decreases |steps|
  {
    if |steps| == 0 then w else Apply(Play(w, steps[..|steps| - 1]), steps[|steps| - 1])
  }

  lemma {:induction false} PlaySnoc(w: World, steps: seq<Step>, step: Step)
    ensures Play(w, steps + [step]) == Apply(Play(w, steps), step)
  {
    assert (steps + [step])[..|steps|] == steps;
  }

  lemma {:induction false} SameThenSame(w: World, a: seq<Step>, front: seq<Step>, last: Step)
    requires Play(w, a + front) == Play(Play(w, a), front)
    ensures Play(w, (a + front) + [last]) == Play(Play(w, a), front + [last])
  {
    PlaySnoc(w, a + front, last);
    PlaySnoc(Play(w, a), front, last);
  }

  lemma {:induction false} PlayThen(w: World, a: seq<Step>, b: seq<Step>)
    ensures Play(w, a + b) == Play(Play(w, a), b)
    decreases |b|
  {
    if |b| == 0 {
      assert a + b == a;
    } else {
      var front, last := b[..|b| - 1], b[|b| - 1];
      assert a + b == (a + front) + [last] && b == front + [last];
      PlayThen(w, a, front);
      SameThenSame(w, a, front, last);
    }
  }

  /** The autosave object: one background save at a time, and the last one acknowledged. */
  class Autosave {
    var pending: Option<Job>
    var saved: Option<Snapshot>

    function State(): Saves
      reads this
    {
      Saves(pending, saved)
    }

    constructor ()
      ensures State() == Saves(None, None)
    {
      pending, saved := None, None;
    }

    method ContainsSavedCommand(session: nat, command: Command) returns (found: bool)
      ensures found == ContainsSaved(State(), session, command)
    {
      if !command.state.Pending? || saved.None? || session >= |saved.value| { return false; }
      var commands := saved.value[session].commands;
      found := false;
      for i := 0 to |commands|
        invariant found == (command in commands[..i])
      {
        found := found || commands[i] == command;
      }
      assert commands[..|commands|] == commands;
    }

    /** Err when the finished save failed; otherwise whether a save was acknowledged by this call. */
    method CheckpointNow(app: Snapshot) returns (outcome: Result<bool, ()>)
      modifies this
      ensures State() == Checkpoint(old(State()), Capture(app))
      ensures outcome.Ok? && outcome.value ==> old(pending).Some? && saved == Some(old(pending).value.snapshot)
      ensures outcome.Ok? && !outcome.value ==> saved == old(saved)
      ensures outcome.Err? <==> old(pending).Some? && old(pending).value.finished && !old(pending).value.ok
    {
      var acknowledged := false;
      if pending.Some? && pending.value.finished {
        var job := pending.value;
        pending := None;
        if !job.ok { return Err(()); }
        saved := Some(job.snapshot);
        acknowledged := true;
      }
      if pending.None? {
        var snapshot := Capture(app);
        if saved != Some(snapshot) { pending := Some(Job(snapshot, false, false)); }
      }
      return Ok(acknowledged);
    }

    /**
     * Join the older save before the final one, so that it cannot overwrite it: `stored` is what the disk
     * holds in the end, given what it held, whether the older save lands and whether the final one is written.
     */
    method Finish(app: Snapshot, disk: Option<Snapshot>, landed: bool, written: bool)
      returns (outcome: Result<(), ()>, stored: Option<Snapshot>)
      modifies this
      ensures pending == None
      ensures saved == if written then Some(Capture(app)) else old(saved)
      ensures outcome.Ok? == written
      ensures forall w: World | w.app == app && w.saves == old(State()) && w.disk == disk ::
                Effect(w, FinalSave(landed, written)).saves == State() && Effect(w, FinalSave(landed, written)).disk == stored
    {
      stored := disk;
      if pending.Some? {
        if !pending.value.finished && landed { stored := Some(pending.value.snapshot); }
        pending := None;
      }
      var snapshot := Capture(app);
      if !written { return Err(()), stored; }
      saved := Some(snapshot);
      return Ok(()), Some(snapshot);
    }
  }
}
