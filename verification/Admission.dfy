/** Every operation on a command history keeps its rules, and says exactly what it changes. */
module Admission {
  import opened Commands
  import opened History
  import opened Numbering
  import opened Eviction

  /** The same entry, up to a reassigned sequence number. */
  predicate Same(c: Command, d: Command) { d == c.(sequence := d.sequence) }

  /** `c` is still in `cs`, up to its number. */
  predicate Stays(c: Command, cs: seq<Command>) {
    exists j | 0 <= j < |cs| :: Same(c, cs[j])
  }

  /** `c` was evicted: settled, and all its keys refused from now on. */
  predicate RetiredFrom(c: Command, h: Log) {
    !c.state.Live() && forall key | key in RetirementKeys(c) :: key in h.retired
  }

  // ---------------------------------------------------------------- admission

  lemma {:induction false} PushedIsLast(h: Log, c: Command)
    requires Evict(h.(commands := h.commands + [c])).Some?
    ensures var out := Evict(h.(commands := h.commands + [c])).value.commands;
            |out| > 0 && out[|out| - 1] == c
  {
    var pushed := h.(commands := h.commands + [c]);
    var n, drop := |h.commands|, Candidates(pushed)[..LeastFrom(pushed, 0)];
    assert n !in drop;
    assert Survivors(n + 1, drop) == Survivors(n, drop) + [n];
  }

  lemma {:induction false} JudgeKeepsValid(h: Log, c: Command)
    requires Valid(h) && Judge(h, c).Ok?
    ensures Valid(Judge(h, c).value)
    ensures |Judge(h, c).value.commands| > 0
    ensures Judge(h, c).value.commands[|Judge(h, c).value.commands| - 1] == c
  {
    var pushed := h.(commands := h.commands + [c]);
    if !WithinBudget(pushed.commands) {
      EvictKeepsStructure(pushed);
      EvictFits(pushed);
      PushedIsLast(h, c);
    }
  }

  lemma {:induction false} JudgeKeepsEntry(h: Log, c: Command, i: nat)
    requires Valid(h) && Judge(h, c).Ok? && i < |h.commands|
    ensures h.commands[i] in Judge(h, c).value.commands || RetiredFrom(h.commands[i], Judge(h, c).value)
  {
    var pushed := h.(commands := h.commands + [c]);
    assert pushed.commands[i] == h.commands[i];
    if !WithinBudget(pushed.commands) && h.commands[i] !in Judge(h, c).value.commands {
      EvictionDropsOnlySettled(pushed, i);
      forall key | key in RetirementKeys(h.commands[i]) ensures key in Judge(h, c).value.retired {
        EvictedKeysAreRetired(pushed, i, key);
      }
    }
  }

  lemma {:induction false} JudgeAddsOne(h: Log, c: Command, d: Command)
    requires Judge(h, c).Ok? && d in Judge(h, c).value.commands
    ensures d == c || d in h.commands
  {
    var pushed := h.(commands := h.commands + [c]);
    if !WithinBudget(pushed.commands) {
      NothingAppears(pushed.commands, Candidates(pushed)[..LeastFrom(pushed, 0)], d);
    }
  }

  /**
   * A successful admission keeps every rule, appends the entry with attempt 1, and loses nothing
   * live: each earlier entry is still there, or was settled and is refused from now on.
   */
  lemma {:induction false} NumberedStays(c: Command, d: Command, judged: Log, next: Log)
    requires Same(c, d) && (d in judged.commands || RetiredFrom(d, judged))
    requires next.commands == judged.commands && next.retired == judged.retired
    ensures Stays(c, next.commands) || RetiredFrom(c, next)
  {
    if d in judged.commands {
      var j :| 0 <= j < |judged.commands| && judged.commands[j] == d;
      assert Same(c, next.commands[j]);
    } else {
      assert RetirementKeys(d) == RetirementKeys(c);
    }
  }

  lemma {:induction false} AdmissionKeepsHistory(h: Log, text: Text, intent: Intent, follow: bool, after: Option<nat>, state: CommandState)
    requires Valid(h) && Admit(h, text, intent, follow, after, state).Ok?
    ensures var next := Admit(h, text, intent, follow, after, state).value;
            && Valid(next)
            && |next.commands| > 0
            && Same(NewCommand(h, text, intent, after, state), next.commands[|next.commands| - 1])
            && (forall i | 0 <= i < |h.commands| :: Stays(h.commands[i], next.commands) || RetiredFrom(h.commands[i], next))
  {
    var numbered := Numbered(h);
    var c := NewCommand(numbered, text, intent, after, state);
    NumberedKeepsValid(h);
    JudgeKeepsValid(numbered, c);
    var judged := Judge(numbered, c).value;
    var next := Admit(h, text, intent, follow, after, state).value;
    assert next.commands == judged.commands && next.retired == judged.retired;
    forall i | 0 <= i < |h.commands|
      ensures Stays(h.commands[i], next.commands) || RetiredFrom(h.commands[i], next)
    {
      JudgeKeepsEntry(numbered, c, i);
      NumberedStays(h.commands[i], numbered.commands[i], judged, next);
    }
  }

  /** Nothing but the new entry appears. */
  lemma {:induction false} AdmissionAddsOne(h: Log, text: Text, intent: Intent, follow: bool, after: Option<nat>, state: CommandState, d: Command)
    requires Admit(h, text, intent, follow, after, state).Ok?
    requires d in Admit(h, text, intent, follow, after, state).value.commands
    ensures Same(NewCommand(h, text, intent, after, state), d) || exists i | 0 <= i < |h.commands| :: Same(h.commands[i], d)
  {
    var numbered := Numbered(h);
    var c := NewCommand(numbered, text, intent, after, state);
    JudgeAddsOne(numbered, c, d);
    if d != c {
      var i :| 0 <= i < |numbered.commands| && numbered.commands[i] == d;
      assert Same(h.commands[i], d);
    }
  }

  /** The entry repeats a live or retired id, or a live or retired scope or planner correlation. */
  predicate Repeats(h: Log, c: Command) {
    || (exists i | 0 <= i < |h.commands| :: exists key | key in RetirementKeys(h.commands[i]) :: key in RetirementKeys(c))
    || (exists key | key in h.retired :: key in RetirementKeys(c))
  }

  lemma {:induction false} JudgeRefusesRepeats(h: Log, c: Command)
    requires Repeats(h, c)
    ensures Judge(h, c).Err?
  {
    if i, key :| 0 <= i < |h.commands| && key in RetirementKeys(h.commands[i]) && key in RetirementKeys(c) {
      SharedKeyBreaksStructure(h, c, i, key);
    } else {
      var key :| key in h.retired && key in RetirementKeys(c);
      assert key == RetirementKeys(c)[0] || key in RetirementKeys(c)[1..];
    }
  }

  /** A live or retired id is refused, and so is a live or retired scope or planner correlation. */
  lemma {:induction false} AdmissionRefusesRepeats(h: Log, text: Text, intent: Intent, follow: bool, after: Option<nat>, state: CommandState)
    requires Repeats(h, NewCommand(h, text, intent, after, state))
    ensures Admit(h, text, intent, follow, after, state).Err?
  {
    var numbered := Numbered(h);
    var c, d := NewCommand(h, text, intent, after, state), NewCommand(numbered, text, intent, after, state);
    assert RetirementKeys(c) == RetirementKeys(d) && numbered.retired == h.retired;
    if i, key :| 0 <= i < |h.commands| && key in RetirementKeys(h.commands[i]) && key in RetirementKeys(c) {
      assert RetirementKeys(numbered.commands[i]) == RetirementKeys(h.commands[i]);
    }
    JudgeRefusesRepeats(numbered, d);
  }

  lemma {:induction false} SharedKeyBreaksStructure(h: Log, c: Command, i: nat, key: Key)
    requires i < |h.commands| && key in RetirementKeys(h.commands[i]) && key in RetirementKeys(c)
    ensures !Structure((h.commands + [c]), h.receipts, h.messages)
  {
    var cs := h.commands + [c];
    assert cs[i] == h.commands[i] && cs[|h.commands|] == c;
    assert Clash(cs[i], cs[|h.commands|]);
  }

  // ----------------------------------------------------------------- arrivals

  lemma {:induction false} SupersededKeepsStructure(h: Log, request: SelectionRequest)
    requires Valid(h)
    ensures Structure(Without(h.commands, Superseded(h.commands, request)), h.receipts, h.messages)
  {
    var drop := Superseded(h.commands, request);
    forall d, k | d in drop && d < |h.commands| && 0 <= k < |h.commands|
      ensures !NamedBy(h.commands[d], h.commands[k])
    {
      var x :| 0 <= x < |drop| && drop[x] == d;
      assert h.commands[d].intent.SelectionArrival?;
    }
    WithoutKeepsStructure(h.commands, h.receipts, h.messages, drop);
  }

  lemma {:induction false} DroppingShrinks(cs: seq<Command>, n: nat, drop: seq<nat>)
    requires n <= |cs|
    ensures |Survivors(n, drop)| <= n
    ensures TotalSize(At(cs, Survivors(n, drop))) <= TotalSize(cs[..n])
  {
    if n > 0 {
      DroppingShrinks(cs, n - 1, drop);
      assert cs[..n][..n - 1] == cs[..n - 1];
      if n - 1 !in drop {
        AtSnoc(cs, Survivors(n - 1, drop), n - 1);
      } else {
        assert Survivors(n, drop) == Survivors(n - 1, drop);
      }
    }
  }

  lemma {:induction false} SupersedingKeepsValid(h: Log, request: SelectionRequest)
    requires Valid(h)
    ensures Valid(h.(commands := Without(h.commands, Superseded(h.commands, request))))
  {
    SupersededKeepsStructure(h, request);
    DroppingShrinks(h.commands, |h.commands|, Superseded(h.commands, request));
    assert h.commands[..|h.commands|] == h.commands;
  }

  lemma {:induction false} SupersedingKeepsOthers(h: Log, request: SelectionRequest, i: nat)
    requires Valid(h) && i < |h.commands|
    ensures
      || h.commands[i] in Without(h.commands, Superseded(h.commands, request))
      || (h.commands[i].intent.SelectionArrival? && !h.commands[i].state.Live())
  {
    var drop := Superseded(h.commands, request);
    if i in drop {
      var x :| 0 <= x < |drop| && drop[x] == i;
      assert ValidCommand(h.commands[i], |h.messages|);
    } else {
      SurvivorStays(h.commands, drop, i);
    }
  }

  /** A new arrival supersedes only earlier arrivals of its workspace and mission; a live entry is never one. */
  lemma {:induction false} ArrivalKeepsHistory(h: Log, text: Text, request: SelectionRequest, phase: Phase, failure: Reason)
    requires Valid(h) && Arrive(h, text, request, phase, failure).Ok?
    ensures Valid(Arrive(h, text, request, phase, failure).value)
    ensures forall i | 0 <= i < |h.commands| ::
              || Stays(h.commands[i], Arrive(h, text, request, phase, failure).value.commands)
              || RetiredFrom(h.commands[i], Arrive(h, text, request, phase, failure).value)
              || (h.commands[i].intent.SelectionArrival? && !h.commands[i].state.Live())
  {
    var kept := h.(commands := Without(h.commands, Superseded(h.commands, request)));
    SupersedingKeepsValid(h, request);
    AdmissionKeepsHistory(kept, text, SelectionArrival(request), false, None, Selecting(phase, failure));
    var next := Arrive(h, text, request, phase, failure).value;
    forall i | 0 <= i < |h.commands|
      ensures || Stays(h.commands[i], next.commands)
              || RetiredFrom(h.commands[i], next)
              || (h.commands[i].intent.SelectionArrival? && !h.commands[i].state.Live())
    {
      SupersedingKeepsOthers(h, request, i);
      if h.commands[i] in kept.commands {
        var k :| 0 <= k < |kept.commands| && kept.commands[k] == h.commands[i];
        assert Stays(kept.commands[k], next.commands) || RetiredFrom(kept.commands[k], next);
      }
    }
  }

  // ------------------------------------------------------ in-place rewriting

  /** Entries rewritten in state and attempt only, each still valid, with enabling parents left enabling. */
  predicate Rewritten(a: seq<Command>, b: seq<Command>, messages: nat) {
    && |a| == |b|
    && forall i | 0 <= i < |a| ::
         && b[i] == a[i].(state := b[i].state, attempt := b[i].attempt)
         && ValidCommand(b[i], messages)
         && (Enabling(a[i]) && (exists k | 0 <= k < |a| :: a[k].intent.DispatchRun? && NamedBy(a[i], a[k])) ==> Enabling(b[i]))
  }

  lemma {:induction false} RewritingKeepsParents(a: seq<Command>, b: seq<Command>, messages: nat)
    requires ParentsPresent(a) && Rewritten(a, b, messages)
    ensures ParentsPresent(b)
  {
    forall i | 0 <= i < |b| ensures HasParent(b, i) {
      if b[i].intent.ArchitectDraft? || b[i].intent.DispatchRun? {
        assert HasParent(a, i);
        var j :| 0 <= j < |a| && a[j].sequence < a[i].sequence && NamedBy(a[j], a[i])
          && (a[i].intent.DispatchRun? ==> Enabling(a[j]));
        assert b[j].sequence < b[i].sequence && NamedBy(b[j], b[i]);
      }
    }
  }

  lemma {:induction false} RewritingKeepsPairs(a: seq<Command>, b: seq<Command>, rs: seq<Receipt>, messages: seq<Message>)
    requires Structure(a, rs, messages) && Rewritten(a, b, |messages|)
    ensures EntriesValid(b, |messages|) && Increasing(b) && NoSharedSequence(b, rs)
    ensures NoClash(b) && TurnsBound(b, messages) && Chronological(b)
  {
    assert NoClash(b) by {
      forall i, j | 0 <= i < j < |b| ensures !Clash(b[i], b[j]) {
        assert !Clash(a[i], a[j]);
      }
    }
    assert TurnsBound(b, messages) by {
      forall i | 0 <= i < |b| ensures TurnBound(b[i], messages) {
        assert TurnBound(a[i], messages);
      }
    }
  }

  lemma {:induction false} RewritingKeepsSize(a: seq<Command>, b: seq<Command>, messages: nat)
    requires |a| == |b| && forall i | 0 <= i < |a| :: b[i] == a[i].(state := b[i].state, attempt := b[i].attempt)
    ensures TotalSize(a) == TotalSize(b)
  {
    if |a| > 0 { RewritingKeepsSize(a[..|a| - 1], b[..|b| - 1], messages); }
  }

  /** Terminal metadata is counted once, so no rewrite of states and attempts can break the budget. */
  lemma {:induction false} RewritingKeepsValid(h: Log, b: seq<Command>)
    requires Valid(h) && Rewritten(h.commands, b, |h.messages|)
    ensures Valid(h.(commands := b))
  {
    RewritingKeepsPairs(h.commands, b, h.receipts, h.messages);
    RewritingKeepsParents(h.commands, b, |h.messages|);
    RewritingKeepsSize(h.commands, b, |h.messages|);
  }

  /** A state change that may not be made: it does not fit the intent, or a launch still needs the old one. */
  predicate StateAllowed(h: Log, k: nat, state: CommandState)
    requires k < |h.commands|
  {
    && StateFits(h.commands[k].intent, state)
    && ((exists i | 0 <= i < |h.commands| :: h.commands[i].intent.DispatchRun? && NamedBy(h.commands[k], h.commands[i]))
        ==> state == Controlled(DispatchChanged(true)))
  }

  /** Setting a state keeps the history valid exactly when the state is allowed there. */
  lemma {:induction false} SettingStateKeepsValid(h: Log, id: Id, state: CommandState)
    requires Valid(h)
    ensures Valid(SetState(h, id, state)) <==>
            Find(h.commands, id).None? || StateAllowed(h, Find(h.commands, id).value, state)
  {
    if Find(h.commands, id).Some? {
      var k := Find(h.commands, id).value;
      var b := SetState(h, id, state).commands;
      if StateAllowed(h, k, state) {
        SettingStateRewrites(h, id, state);
        RewritingKeepsValid(h, b);
      } else if Valid(SetState(h, id, state)) {
        assert ValidCommand(b[k], |h.messages|);
        var i :| 0 <= i < |h.commands| && h.commands[i].intent.DispatchRun? && NamedBy(h.commands[k], h.commands[i]);
        DisallowedBreaksParent(h, k, i, state);
      }
    }
  }

  lemma {:induction false} SettingStateRewrites(h: Log, id: Id, state: CommandState)
    requires Valid(h) && Find(h.commands, id).Some? && StateAllowed(h, Find(h.commands, id).value, state)
    ensures Rewritten(h.commands, SetState(h, id, state).commands, |h.messages|)
  {
    var k := Find(h.commands, id).value;
    var a, b := h.commands, SetState(h, id, state).commands;
    forall i | 0 <= i < |a|
      ensures && b[i] == a[i].(state := b[i].state, attempt := b[i].attempt)
              && ValidCommand(b[i], |h.messages|)
              && (Enabling(a[i]) && (exists c | 0 <= c < |a| :: a[c].intent.DispatchRun? && NamedBy(a[i], a[c])) ==> Enabling(b[i]))
    {
      assert ValidCommand(a[i], |h.messages|);
    }
  }

  lemma {:induction false} DisallowedBreaksParent(h: Log, k: nat, i: nat, state: CommandState)
    requires Valid(h) && k < |h.commands| && i < |h.commands|
    requires h.commands[i].intent.DispatchRun? && NamedBy(h.commands[k], h.commands[i])
    requires state != Controlled(DispatchChanged(true))
    ensures !ParentsPresent(h.commands[k := h.commands[k].(state := state)])
  {
    var a := h.commands;
    var b := a[k := a[k].(state := state)];
    assert i != k && b[i] == a[i];
    forall j | 0 <= j < |b| && NamedBy(b[j], b[i]) ensures !Enabling(b[j]) {
      assert a[j].intent == a[k].intent;
      SameIntentSameEntry(h, j, k);
    }
    assert !HasParent(b, i);
  }

  lemma {:induction false} SameIntentSameEntry(h: Log, j: nat, k: nat)
    requires Valid(h) && j < |h.commands| && k < |h.commands| && h.commands[j].intent == h.commands[k].intent
    ensures j == k
  {
    assert ValidCommand(h.commands[j], |h.messages|) && ValidCommand(h.commands[k], |h.messages|);
  }

  /** Retrying an entry makes it Pending again under a new attempt and keeps every rule. */
  lemma {:induction false} RetryKeepsValid(h: Log, id: Id)
    requires Valid(h) && Retry(h, id).Ok?
    ensures Valid(Retry(h, id).value)
    ensures var k := Find(h.commands, id).value;
            && Retry(h, id).value.commands[k].state == Pending
            && Retry(h, id).value.commands[k].attempt == h.commands[k].attempt + 1
  {
    var k := Find(h.commands, id).value;
    var a, b := h.commands, Retry(h, id).value.commands;
    forall i | 0 <= i < |a|
      ensures && b[i] == a[i].(state := b[i].state, attempt := b[i].attempt)
              && ValidCommand(b[i], |h.messages|)
              && (Enabling(a[i]) && (exists c | 0 <= c < |a| :: a[c].intent.DispatchRun? && NamedBy(a[i], a[c])) ==> Enabling(b[i]))
    {
      assert ValidCommand(a[i], |h.messages|);
    }
    RewritingKeepsValid(h, b);
  }

  /** A restart turns every live entry into Unknown, keeps every rule, and leaves nothing to dispatch. */
  lemma {:induction false} RestoreKeepsValid(h: Log)
    requires Valid(h)
    ensures Valid(Restore(h))
    ensures forall i | 0 <= i < |h.commands| :: !Restore(h).commands[i].state.Live()
    ensures Restore(Restore(h)) == Restore(h)
  {
    var a, b := h.commands, Restore(h).commands;
    forall i | 0 <= i < |a|
      ensures && b[i] == a[i].(state := b[i].state, attempt := b[i].attempt)
              && ValidCommand(b[i], |h.messages|)
              && (Enabling(a[i]) && (exists c | 0 <= c < |a| :: a[c].intent.DispatchRun? && NamedBy(a[i], a[c])) ==> Enabling(b[i]))
    {
      assert ValidCommand(a[i], |h.messages|);
    }
    RewritingKeepsValid(h, b);
    assert RestoreCommands(b) == b;
  }

  // ------------------------------------------------------------ observations

  lemma {:induction false} AppendKeepsStructure(h: Log, r: Receipt)
    requires Structure(h.commands, h.receipts, h.messages) && r.sequence == NextSequence(h) <= MAX_SEQUENCE
    ensures Structure(h.commands, h.receipts + [r], h.messages)
  {
    NextIsFresh(h);
    var rs := h.receipts + [r];
    assert ReceiptOrder(rs);
    assert NoSharedSequence(h.commands, rs);
  }

  /** Observing a receipt keeps every rule; only the stated conditions can refuse it, never the sequence cap. */
  lemma {:induction false} ObservationKeepsValid(h: Log, r: Receipt)
    requires Valid(h)
    ensures Observe(h, r).Some? <==> Observable(h, r)
    ensures Observe(h, r).Some? ==> Valid(Observe(h, r).value)
  {
    CapNeverRefuses(h);
    NumberedKeepsValid(h);
    if Observable(h, r) {
      var numbered := Numbered(h);
      var numberedReceipt := r.(sequence := NextSequence(numbered));
      AppendKeepsStructure(numbered, numberedReceipt);
      AppendKeepsReceipts(h, numbered.receipts, numberedReceipt);
    }
  }

  lemma {:induction false} AppendKeepsReceipts(h: Log, rs: seq<Receipt>, r: Receipt)
    requires ValidReceipts(rs, |h.messages|) && Observable(h, r)
    requires |rs| == |h.receipts| && forall i | 0 <= i < |rs| :: rs[i] == h.receipts[i].(sequence := rs[i].sequence)
    ensures ValidReceipts(rs + [r], |h.messages|)
  {
  }

  // ---------------------------------------------------- compaction keeps the rules

  lemma {:induction false} NoteKeepsBudget(cs: seq<Command>, cut: nat)
    requires WithinBudget(cs)
    ensures WithinBudget(BackCommands(cs, cut))
  {
    forall i | 0 <= i < |cs| ensures Size(BackCommands(cs, cut)[i]) <= Size(cs[i]) {
      DigitsMonotone(Back(cs[i].afterMessages, cut), cs[i].afterMessages);
    }
    TotalSizeMonotone(BackCommands(cs, cut), cs);
  }

  lemma {:induction false} NoteKeepsParents(cs: seq<Command>, cut: nat)
    requires Increasing(cs) && ParentsPresent(cs)
    ensures Increasing(BackCommands(cs, cut)) && ParentsPresent(BackCommands(cs, cut))
  {
    var ts := BackCommands(cs, cut);
    forall i, j | 0 <= i < j < |ts| ensures ts[i].sequence < ts[j].sequence { assert cs[i].sequence < cs[j].sequence; }
    forall i | 0 <= i < |ts| ensures HasParent(ts, i) {
      assert HasParent(cs, i);
      ParentCarriesOver(cs, ts, i);
    }
  }

  lemma {:induction false} NoteKeepsEntries(cs: seq<Command>, n: nat, cut: nat)
    requires EntriesValid(cs, n) && cut % 2 == 0 && cut <= n
    ensures EntriesValid(BackCommands(cs, cut), n - cut)
  {
    var ts := BackCommands(cs, cut);
    forall i | 0 <= i < |ts| ensures ValidCommand(ts[i], n - cut) && ts[i].sequence <= MAX_SEQUENCE {
      assert ValidCommand(cs[i], n);
    }
  }

  lemma {:induction false} NoteKeepsOrder(cs: seq<Command>, messages: seq<Message>, cut: nat)
    requires NoClash(cs) && Chronological(cs) && NoScopeTurn(cs)
    ensures NoClash(BackCommands(cs, cut)) && Chronological(BackCommands(cs, cut)) && TurnsBound(BackCommands(cs, cut), messages)
  {
    var ts := BackCommands(cs, cut);
    forall i, j | 0 <= i < j < |ts| ensures !Clash(ts[i], ts[j]) && ts[i].afterMessages <= ts[j].afterMessages {
      assert !Clash(cs[i], cs[j]) && cs[i].afterMessages <= cs[j].afterMessages;
    }
  }

  lemma {:induction false} NoteKeepsReceipts(rs: seq<Receipt>, n: nat, cut: nat)
    requires ReceiptOrder(rs) && ValidReceipts(rs, n) && cut % 2 == 0 && cut <= n
    ensures ReceiptOrder(BackReceipts(rs, cut)) && ValidReceipts(BackReceipts(rs, cut), n - cut)
  {
  }

  /** A note in place of the oldest turns keeps every rule: positions stay even, in order and in range, and no entry grows. */
  lemma {:induction false} NoteKeepsValid(h: Log, note: Option<nat>)
    requires Valid(h)
    ensures Valid(EndSummary(h, note))
    ensures |EndSummary(h, note).commands| == |h.commands|
    ensures forall i | 0 <= i < |h.commands| ::
              EndSummary(h, note).commands[i] == h.commands[i].(afterMessages := EndSummary(h, note).commands[i].afterMessages)
  {
    if note.Some? && NoteInTime(h, note.value) {
      var cut := note.value;
      NoteKeepsBudget(h.commands, cut);
      NoteKeepsParents(h.commands, cut);
      NoteKeepsEntries(h.commands, |h.messages|, cut);
      NoteKeepsOrder(h.commands, h.messages[cut..], cut);
      NoteKeepsReceipts(h.receipts, |h.messages|, cut);
    }
  }
}
