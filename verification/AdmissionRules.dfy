/** When a command history takes a new entry, and exactly what each operation leaves in it. */
module AdmissionRules {
  import opened Commands
  import opened History
  import opened Numbering
  import opened Eviction
  import opened Admission

  // ------------------------------------------------------------- taking an entry

  /** An automatic entry has the entry it was started from; a launch has it enabling. */
  predicate HasOrigin(cs: seq<Command>, c: Command) {
    c.intent.ArchitectDraft? || c.intent.DispatchRun? ==>
      exists j | 0 <= j < |cs| :: NamedBy(cs[j], c) && (c.intent.DispatchRun? ==> Enabling(cs[j]))
  }

  /** No scope turn aside, entries follow the conversation. */
  predicate InTurn(cs: seq<Command>, c: Command) {
    c.intent.Wayfinder? || forall i | 0 <= i < |cs| && !cs[i].intent.Wayfinder? :: cs[i].afterMessages <= c.afterMessages
  }

  /** The entry obeys every rule next to those already there. */
  predicate Belongs(h: Log, c: Command) {
    && ValidCommand(c, |h.messages|)
    && (forall i | 0 <= i < |h.commands| :: !Clash(h.commands[i], c))
    && TurnBound(c, h.messages) && HasOrigin(h.commands, c) && InTurn(h.commands, c)
  }

  /** It fits, if need be beside nothing but the entries that must stay. */
  predicate HasRoom(h: Log, c: Command) {
    var pushed := h.(commands := h.commands + [c]);
    WithinBudget(pushed.commands) || WithinBudget(OnlyNeeded(pushed, |pushed.commands|))
  }

  lemma {:induction false} PushKeepsParents(cs: seq<Command>, c: Command)
    requires ParentsPresent(cs) && HasOrigin(cs, c) && forall i | 0 <= i < |cs| :: cs[i].sequence < c.sequence
    ensures ParentsPresent(cs + [c])
  {
    var ts := cs + [c];
    forall i | 0 <= i < |ts| ensures HasParent(ts, i) {
      if ts[i].intent.ArchitectDraft? || ts[i].intent.DispatchRun? {
        if i < |cs| {
          assert HasParent(cs, i);
          var j :| 0 <= j < |cs| && cs[j].sequence < cs[i].sequence && NamedBy(cs[j], cs[i])
            && (cs[i].intent.DispatchRun? ==> Enabling(cs[j]));
          assert ts[j] == cs[j] && ts[i] == cs[i];
        } else {
          var j :| 0 <= j < |cs| && NamedBy(cs[j], c) && (c.intent.DispatchRun? ==> Enabling(cs[j]));
          assert ts[j] == cs[j] && ts[i] == c;
        }
      }
    }
  }

  lemma {:induction false} PushKeepsPairs(cs: seq<Command>, messages: seq<Message>, c: Command)
    requires NoClash(cs) && TurnsBound(cs, messages) && Chronological(cs)
    requires (forall i | 0 <= i < |cs| :: !Clash(cs[i], c)) && TurnBound(c, messages) && InTurn(cs, c)
    ensures NoClash(cs + [c]) && TurnsBound(cs + [c], messages) && Chronological(cs + [c])
  {
    var ts := cs + [c];
    assert NoClash(ts) by {
      forall i, j | 0 <= i < j < |ts| ensures !Clash(ts[i], ts[j]) { assert ts[i] == cs[i]; }
    }
    assert TurnsBound(ts, messages) by {
      forall i | 0 <= i < |ts| ensures TurnBound(ts[i], messages) { if i < |cs| { assert TurnBound(cs[i], messages); } }
    }
  }

  lemma {:induction false} BelongingKeepsStructure(h: Log, c: Command)
    requires Valid(h) && Belongs(h, c) && c.sequence == NextSequence(h) <= MAX_SEQUENCE
    ensures Structure(h.commands + [c], h.receipts, h.messages)
  {
    NextIsFresh(h);
    PushKeepsParents(h.commands, c);
    PushKeepsPairs(h.commands, h.messages, c);
  }

  lemma {:induction false} StructureMeansBelonging(h: Log, c: Command)
    requires Structure(h.commands + [c], h.receipts, h.messages)
    ensures Belongs(h, c)
  {
    var n, ts := |h.commands|, h.commands + [c];
    assert ts[n] == c && ValidCommand(ts[n], |h.messages|) && TurnBound(ts[n], h.messages) && HasParent(ts, n);
    forall i | 0 <= i < n ensures !Clash(h.commands[i], c) { assert !Clash(ts[i], ts[n]); }
    if c.intent.ArchitectDraft? || c.intent.DispatchRun? {
      var j :| 0 <= j < |ts| && ts[j].sequence < ts[n].sequence && NamedBy(ts[j], ts[n])
        && (ts[n].intent.DispatchRun? ==> Enabling(ts[j]));
      assert j < n && ts[j] == h.commands[j];
    }
    assert forall i | 0 <= i < n :: ts[i] == h.commands[i];
  }

  lemma {:induction false} JudgedExactlyWhen(h: Log, c: Command)
    requires Valid(h) && c.sequence == NextSequence(h) <= MAX_SEQUENCE
    ensures Judge(h, c).Ok? <==> Belongs(h, c) && !Repeats(h, c) && HasRoom(h, c)
  {
    var pushed := h.(commands := h.commands + [c]);
    RefusedExactlyWhenNeeded(pushed);
    if Repeats(h, c) {
      JudgeRefusesRepeats(h, c);
    } else if Belongs(h, c) {
      BelongingKeepsStructure(h, c);
      JudgeTakes(h, c);
    } else if Judge(h, c).Ok? {
      StructureMeansBelonging(h, c);
    }
  }

  lemma {:induction false} JudgeTakes(h: Log, c: Command)
    requires !Repeats(h, c) && Belongs(h, c) && Structure(h.commands + [c], h.receipts, h.messages)
    ensures var pushed := h.(commands := h.commands + [c]);
            Judge(h, c).Ok? <==> WithinBudget(pushed.commands) || Evict(pushed).Some?
  {
    assert RetirementKeys(c)[0] in RetirementKeys(c);
    forall key | key in RetirementKeys(c)[1..] ensures key !in h.retired { assert key in RetirementKeys(c); }
    forall i | 0 <= i < |h.commands| ensures h.commands[i].id != c.id { assert !Clash(h.commands[i], c); }
  }

  /**
   * A new entry is taken exactly if it obeys every rule beside the present ones, repeats nothing live or retired,
   * and fits when every entry that may go has gone; the sequence cap never refuses one.
   */
  lemma {:induction false} AdmittedExactlyWhen(h: Log, text: Text, intent: Intent, follow: bool, after: Option<nat>, state: CommandState)
    requires Valid(h)
    ensures var now := Numbered(h);
            var c := Command(Id(intent), NextSequence(now), if after.Some? then after.value else |h.messages|, 1, text, intent, state);
            Admit(h, text, intent, follow, after, state).Ok? <==> Belongs(now, c) && !Repeats(now, c) && HasRoom(now, c)
  {
    NumberedKeepsValid(h);
    CapNeverRefuses(h);
    JudgedExactlyWhen(Numbered(h), NewCommand(Numbered(h), text, intent, after, state));
  }

  // ------------------------------------------------------------- why it is refused

  /** Two requests to the scope writer, or two to the planner, under one correlation. */
  predicate SameCorrelation(a: Intent, b: Intent) {
    || ((a.Scope? || a.Wayfinder?) && (b.Scope? || b.Wayfinder?) && a.scope.correlation == b.scope.correlation)
    || ((a.Planner? || a.ArchitectDraft?) && (b.Planner? || b.ArchitectDraft?) && a.planner.correlation == b.planner.correlation)
  }

  predicate CorrelationLive(h: Log, c: Command) { exists i | 0 <= i < |h.commands| :: SameCorrelation(h.commands[i].intent, c.intent) }

  predicate CorrelationRetired(h: Log, c: Command) {
    || ((c.intent.Scope? || c.intent.Wayfinder?) && ScopeKey(c.intent.scope.correlation) in h.retired)
    || ((c.intent.Planner? || c.intent.ArchitectDraft?) && PlannerKey(c.intent.planner.correlation) in h.retired)
  }

  predicate IdLive(h: Log, c: Command) { exists i | 0 <= i < |h.commands| :: h.commands[i].id == c.id }

  /** The first reason that applies, in the order in which they are given. */
  predicate RefusedFor(h: Log, c: Command, why: Refusal) {
    match why
    case RetryOriginal => IdLive(h, c) || (ValidCommand(c, |h.messages|) && IdKey(c.id) in h.retired)
    case InvalidIntent => !IdLive(h, c) && !ValidCommand(c, |h.messages|)
    case CorrelationUsed =>
      !IdLive(h, c) && ValidCommand(c, |h.messages|) && IdKey(c.id) !in h.retired && CorrelationRetired(h, c)
    case CorrelationInUse => New(h, c) && CorrelationLive(h, c)
    case ParentMissing => New(h, c) && !CorrelationLive(h, c) && !Belongs(h, c) && (c.intent.ArchitectDraft? || c.intent.DispatchRun?)
    case InvalidHistory => New(h, c) && !CorrelationLive(h, c) && !Belongs(h, c) && !c.intent.ArchitectDraft? && !c.intent.DispatchRun?
    case Capacity => New(h, c) && Belongs(h, c) && !HasRoom(h, c)
  }

  predicate New(h: Log, c: Command) {
    !IdLive(h, c) && ValidCommand(c, |h.messages|) && IdKey(c.id) !in h.retired && !CorrelationRetired(h, c)
  }

  lemma {:induction false} KeysAreCorrelations(h: Log, a: Command, b: Command)
    ensures SharesKey(a, b) <==> SameCorrelation(a.intent, b.intent)
    ensures CorrelationRetired(h, b) <==> exists key | key in RetirementKeys(b)[1..] :: key in h.retired
  {
    var ka, kb := RetirementKeys(a)[1..], RetirementKeys(b)[1..];
    if SameCorrelation(a.intent, b.intent) { assert ka[0] in ka && kb[0] in kb && ka[0] == kb[0]; }
    if CorrelationRetired(h, b) { assert kb[0] in kb; }
  }

  lemma {:induction false} LiveCorrelationsClash(h: Log, c: Command)
    ensures CorrelationLive(h, c) <==> exists i | 0 <= i < |h.commands| :: SharesKey(h.commands[i], c)
    ensures CorrelationLive(h, c) ==> !Belongs(h, c)
  {
    forall i | 0 <= i < |h.commands| ensures SharesKey(h.commands[i], c) <==> SameCorrelation(h.commands[i].intent, c.intent) {
      KeysAreCorrelations(h, h.commands[i], c);
    }
    if CorrelationLive(h, c) {
      var i :| 0 <= i < |h.commands| && SameCorrelation(h.commands[i].intent, c.intent);
      assert Clash(h.commands[i], c);
    }
  }

  lemma {:induction false} SharedKeysAreLive(h: Log, c: Command)
    ensures var cs := h.commands + [c];
            (exists i | 0 <= i < |cs| - 1 :: SharesKey(cs[i], cs[|cs| - 1])) <==> CorrelationLive(h, c)
  {
    LiveCorrelationsClash(h, c);
    var cs := h.commands + [c];
    assert forall i | 0 <= i < |h.commands| :: cs[i] == h.commands[i];
  }

  lemma {:induction false} NotNewIsRefused(h: Log, c: Command, why: Refusal)
    requires !New(h, c)
    ensures Judge(h, c) == Err(why) <==> RefusedFor(h, c, why)
  {
    KeysAreCorrelations(h, c, c);
  }

  /** What is new is judged by the rules, and then by the room it needs. */
  lemma {:induction false} NewIsJudged(h: Log, c: Command)
    requires New(h, c)
    ensures var pushed := h.(commands := h.commands + [c]);
            if !Structure(pushed.commands, h.receipts, h.messages) then Judge(h, c) == Err(StructureRefusal(pushed.commands))
            else if WithinBudget(pushed.commands) || Evict(pushed).Some? then Judge(h, c).Ok?
            else Judge(h, c) == Err(Capacity)
  {
    KeysAreCorrelations(h, c, c);
  }

  lemma {:induction false} RulesAreBelonging(h: Log, c: Command)
    requires Valid(h) && c.sequence == NextSequence(h) <= MAX_SEQUENCE
    ensures Structure(h.commands + [c], h.receipts, h.messages) <==> Belongs(h, c)
  {
    if Belongs(h, c) {
      BelongingKeepsStructure(h, c);
    } else if Structure(h.commands + [c], h.receipts, h.messages) {
      StructureMeansBelonging(h, c);
    }
  }

  lemma {:induction false} NewIsRefusedFor(h: Log, c: Command, why: Refusal)
    requires Valid(h) && c.sequence == NextSequence(h) <= MAX_SEQUENCE && New(h, c)
    ensures Judge(h, c) == Err(why) <==> RefusedFor(h, c, why)
  {
    NewIsJudged(h, c);
    RulesAreBelonging(h, c);
    RefusedExactlyWhenNeeded(h.(commands := h.commands + [c]));
    LiveCorrelationsClash(h, c);
    RefusalOfRules(h, c);
  }

  lemma {:induction false} RefusalOfRules(h: Log, c: Command)
    ensures StructureRefusal(h.commands + [c])
            == (if CorrelationLive(h, c) then CorrelationInUse
                else if c.intent.ArchitectDraft? || c.intent.DispatchRun? then ParentMissing else InvalidHistory)
  {
    SharedKeysAreLive(h, c);
  }

  lemma {:induction false} JudgedFor(h: Log, c: Command, why: Refusal)
    requires Valid(h) && c.sequence == NextSequence(h) <= MAX_SEQUENCE
    ensures Judge(h, c) == Err(why) <==> RefusedFor(h, c, why)
  {
    if New(h, c) {
      NewIsRefusedFor(h, c, why);
    } else {
      NotNewIsRefused(h, c, why);
    }
  }

  /** Each refusal says why: a repetition of something live or retired, a broken rule, a missing parent, or no room. */
  lemma {:induction false} RefusalSaysWhy(h: Log, text: Text, intent: Intent, follow: bool, after: Option<nat>, state: CommandState, why: Refusal)
    requires Valid(h)
    ensures var now := Numbered(h);
            var c := Command(Id(intent), NextSequence(now), if after.Some? then after.value else |h.messages|, 1, text, intent, state);
            Admit(h, text, intent, follow, after, state) == Err(why) <==> RefusedFor(now, c, why)
  {
    NumberedKeepsValid(h);
    CapNeverRefuses(h);
    JudgedFor(Numbered(h), NewCommand(Numbered(h), text, intent, after, state), why);
  }

  // -------------------------------------------------------------- what is taken

  lemma {:induction false} JudgedKeepsRest(h: Log, c: Command)
    requires Judge(h, c).Ok?
    ensures var next := Judge(h, c).value;
            && next == h.(commands := next.commands, retired := next.retired, anchor := next.anchor)
            && (next.anchor == h.anchor || next.anchor.None?)
            && (WithinBudget(h.commands + [c]) ==> next.commands == h.commands + [c] && next.retired == h.retired && next.anchor == h.anchor)
  {
  }

  /** The entry that is taken is the one that was asked for: where the conversation stands, or where it was told to be, and newest of all. */
  lemma {:induction false} TakenAsAsked(h: Log, text: Text, intent: Intent, follow: bool, after: Option<nat>, state: CommandState)
    requires Valid(h) && Admit(h, text, intent, follow, after, state).Ok?
    ensures var next := Admit(h, text, intent, follow, after, state).value;
            && |next.commands| > 0
            && var last := next.commands[|next.commands| - 1];
               && last.intent == intent && last.text == text && last.state == state && last.attempt == 1
               && last.afterMessages == (if after.Some? then after.value else |h.messages|)
               && (forall i | 0 <= i < |next.commands| - 1 :: next.commands[i].sequence < last.sequence)
               && (forall i | 0 <= i < |next.receipts| :: next.receipts[i].sequence < last.sequence)
  {
    var now := Numbered(h);
    var c := NewCommand(now, text, intent, after, state);
    NumberedKeepsValid(h);
    AdmittedIsJudged(h, text, intent, follow, after, state);
    JudgedIsNewest(now, c);
  }

  lemma {:induction false} AdmittedIsJudged(h: Log, text: Text, intent: Intent, follow: bool, after: Option<nat>, state: CommandState)
    requires Admit(h, text, intent, follow, after, state).Ok?
    ensures var next := Admit(h, text, intent, follow, after, state).value;
            var judged := Judge(Numbered(h), NewCommand(Numbered(h), text, intent, after, state));
            judged.Ok? && next.commands == judged.value.commands && next.receipts == judged.value.receipts
  {
  }

  lemma {:induction false} JudgedIsNewest(h: Log, c: Command)
    requires Valid(h) && Judge(h, c).Ok? && c.sequence == NextSequence(h)
    ensures var next := Judge(h, c).value;
            && next.receipts == h.receipts
            && |next.commands| > 0 && next.commands[|next.commands| - 1] == c
            && (forall i | 0 <= i < |next.commands| - 1 :: next.commands[i].sequence < c.sequence)
            && (forall i | 0 <= i < |h.receipts| :: h.receipts[i].sequence < c.sequence)
  {
    JudgeKeepsValid(h, c);
    JudgedKeepsRest(h, c);
    NextIsFresh(h);
    LastIsNewest(Judge(h, c).value);
  }

  lemma {:induction false} LastIsNewest(h: Log)
    requires Valid(h)
    ensures forall i | 0 <= i < |h.commands| - 1 :: h.commands[i].sequence < h.commands[|h.commands| - 1].sequence
  {
  }

  /** Admission leaves messages, streaming and the plan origin alone, and the reader where he was unless he follows or his entry went. */
  lemma {:induction false} AdmissionLeavesTheRest(h: Log, text: Text, intent: Intent, follow: bool, after: Option<nat>, state: CommandState)
    requires Admit(h, text, intent, follow, after, state).Ok?
    ensures var next := Admit(h, text, intent, follow, after, state).value;
            && next.messages == h.messages && next.planOrigin == h.planOrigin
            && next.streaming == h.streaming && next.summarising == h.summarising
            && next.receipts == Numbered(h).receipts
            && (follow ==> next.anchor.None?)
            && (next.anchor == Numbered(h).anchor || next.anchor.None?)
            && (!follow && WithinBudget(Numbered(h).commands + [NewCommand(Numbered(h), text, intent, after, state)])
                ==> next.anchor == Numbered(h).anchor && next.retired == h.retired)
  {
    JudgedKeepsRest(Numbered(h), NewCommand(Numbered(h), text, intent, after, state));
  }

  // ------------------------------------------------------------------ arrivals

  /** An arrival at this workspace and mission. */
  predicate ArrivesAt(c: Command, request: SelectionRequest) {
    c.intent.SelectionArrival? && c.intent.selection.target == request.target && c.intent.selection.mission == request.mission
  }

  lemma {:induction false} AllSuperseded(cs: seq<Command>, request: SelectionRequest, i: nat)
    requires i < |cs| && ArrivesAt(cs[i], request)
    ensures i in Superseded(cs, request)
  {
    if i < |cs| - 1 { AllSuperseded(cs[..|cs| - 1], request, i); }
  }

  /** After an arrival there is one banner for its workspace and mission: the new one, at the end. */
  lemma {:induction false} OneArrivalEach(h: Log, text: Text, request: SelectionRequest, phase: Phase, failure: Reason, i: nat)
    requires Valid(h) && Arrive(h, text, request, phase, failure).Ok?
    requires i < |Arrive(h, text, request, phase, failure).value.commands|
    ensures var next := Arrive(h, text, request, phase, failure).value.commands;
            ArrivesAt(next[i], request) <==> i == |next| - 1
  {
    var kept := h.(commands := Without(h.commands, Superseded(h.commands, request)));
    var next := Arrive(h, text, request, phase, failure).value.commands;
    SupersedingKeepsValid(h, request);
    TakenAsAsked(kept, text, SelectionArrival(request), false, None, Selecting(phase, failure));
    if i < |next| - 1 {
      AdmissionAddsOne(kept, text, SelectionArrival(request), false, None, Selecting(phase, failure), next[i]);
      NewestIsDifferent(h, text, request, phase, failure, i);
      var k :| 0 <= k < |kept.commands| && Same(kept.commands[k], next[i]);
      NothingAppears(h.commands, Superseded(h.commands, request), kept.commands[k]);
      var j :| 0 <= j < |h.commands| && j !in Superseded(h.commands, request) && h.commands[j] == kept.commands[k];
      if ArrivesAt(h.commands[j], request) { AllSuperseded(h.commands, request, j); }
    }
  }

  lemma {:induction false} NewestIsDifferent(h: Log, text: Text, request: SelectionRequest, phase: Phase, failure: Reason, i: nat)
    requires Valid(h) && Arrive(h, text, request, phase, failure).Ok?
    requires i < |Arrive(h, text, request, phase, failure).value.commands| - 1
    ensures Arrive(h, text, request, phase, failure).value.commands[i].id != Id(SelectionArrival(request))
  {
    ArrivalKeepsHistory(h, text, request, phase, failure);
    var kept := h.(commands := Without(h.commands, Superseded(h.commands, request)));
    SupersedingKeepsValid(h, request);
    TakenAsAsked(kept, text, SelectionArrival(request), false, None, Selecting(phase, failure));
    var next := Arrive(h, text, request, phase, failure).value.commands;
    var n := |next| - 1;
    assert ValidCommand(next[n], |h.messages|) && !Clash(next[i], next[n]);
  }

  // ------------------------------------------------------- receipts and restarts

  /** An observed receipt is the last, as it was seen, under a number above all others; nothing else changes but numbers. */
  lemma {:induction false} ObservedIsLast(h: Log, r: Receipt)
    requires Valid(h) && Observe(h, r).Some?
    ensures var next, n := Observe(h, r).value, |h.receipts|;
            && |next.receipts| == n + 1 && next.receipts[n] == r.(sequence := next.receipts[n].sequence)
            && (forall i | 0 <= i < n :: next.receipts[i] == h.receipts[i].(sequence := next.receipts[i].sequence)
                                         && next.receipts[i].sequence < next.receipts[n].sequence)
            && |next.commands| == |h.commands|
            && (forall i | 0 <= i < |h.commands| :: Same(h.commands[i], next.commands[i])
                                                    && next.commands[i].sequence < next.receipts[n].sequence)
            && next.messages == h.messages && next.retired == h.retired
  {
    NextIsFresh(Numbered(h));
  }

  /** A restart makes exactly the Pending and Submitted entries Unknown and changes nothing else. */
  lemma {:induction false} RestoredAsUnknown(h: Log, i: nat)
    requires i < |h.commands|
    ensures |Restore(h).commands| == |h.commands|
    ensures var c, d := h.commands[i], Restore(h).commands[i];
            if c.state.Pending? || c.state.Submitted? then d.state.Unknown? && d == c.(state := d.state) else d == c
    ensures Restore(h) == h.(commands := Restore(h).commands)
  {
  }

  // ------------------------------------------------ when the others may happen

  lemma {:induction false} FitsMeansObservable(h: Log, r: Receipt)
    requires ValidReceipts(h.receipts + [r], |h.messages|) && !h.streaming
    ensures Observable(h, r)
  {
    var rs, n := h.receipts + [r], |h.receipts|;
    assert rs[n] == r && ValidReceipt(rs[n], |h.messages|);
    forall i | 0 <= i < n
      ensures h.receipts[i].revision < r.revision && h.receipts[i].correlation != r.correlation
              && h.receipts[i].afterMessages <= r.afterMessages
    {
      assert rs[i] == h.receipts[i] && rs[i].revision < rs[n].revision;
    }
  }

  /** A receipt is recorded exactly if no reply is running and the receipts with it still obey their rules. */
  lemma {:induction false} ObservedExactlyWhen(h: Log, r: Receipt)
    requires Valid(h)
    ensures Observe(h, r).Some? <==> !h.streaming && ValidReceipts(h.receipts + [r], |h.messages|)
  {
    ObservationKeepsValid(h, r);
    if Observable(h, r) {
      AppendKeepsReceipts(h, h.receipts, r);
    } else if !h.streaming && ValidReceipts(h.receipts + [r], |h.messages|) {
      FitsMeansObservable(h, r);
    }
  }

  /** Some saved or running work of this conversation would be lost by starting it over. */
  predicate HasUnfinishedWork(h: Log) {
    || h.streaming || h.summarising
    || (exists c | c in h.commands :: c.state.Pending? || c.state.Submitted?)
    || (h.planOrigin.Some? && exists c | c in h.commands :: c.intent.PlannerRequest() == h.planOrigin)
  }

  /** `/clear` is refused exactly while there is unfinished work, and otherwise leaves nothing at all. */
  lemma {:induction false} ClearedExactlyWhen(h: Log)
    ensures Clear(h).Err? <==> HasUnfinishedWork(h)
    ensures Clear(h).Ok? ==>
              var next := Clear(h).value;
              && next.messages == [] && next.commands == [] && next.receipts == [] && next.retired == []
              && next.anchor.None? && next.planOrigin.None? && !next.streaming && !next.summarising
  {
    if exists c | c in h.commands :: c.state.Live() {
      var c :| c in h.commands && c.state.Live();
      var i :| 0 <= i < |h.commands| && h.commands[i] == c;
    }
    if c :| c in h.commands && c.intent.PlannerRequest() == h.planOrigin {
      var i :| 0 <= i < |h.commands| && h.commands[i] == c;
    }
    forall i | 0 <= i < |h.commands| ensures h.commands[i] in h.commands {}
  }

  /** A summary is awaited exactly after it was asked for with nothing running, no scope turn and an older turn to replace, until it ends. */
  lemma {:induction false} SummaryIsAwaitedWhen(h: Log, note: Option<nat>)
    ensures StartSummary(h).summarising <==>
              || h.summarising
              || (!h.streaming && |h.messages| / 2 > 1 && forall c | c in h.commands :: !c.intent.Wayfinder?)
    ensures StartSummary(h) == h.(summarising := StartSummary(h).summarising)
    ensures !EndSummary(h, note).summarising
    ensures note.None? || !h.summarising ==> EndSummary(h, note) == h.(summarising := false)
  {
    forall i | 0 <= i < |h.commands| ensures h.commands[i] in h.commands {}
    if c :| c in h.commands && c.intent.Wayfinder? {
      var i :| 0 <= i < |h.commands| && h.commands[i] == c;
    }
  }

  /** A note in time replaces exactly the first `cut` messages and moves everything after them back by as many. */
  lemma {:induction false} NoteReplaces(h: Log, cut: nat)
    requires Valid(h) && h.summarising && cut % 2 == 0 && 0 < cut && cut + 2 <= |h.messages|
    requires forall i | 0 <= i < |h.commands| :: !h.commands[i].intent.Wayfinder?
    ensures var next := EndSummary(h, Some(cut));
            && next.messages == h.messages[cut..] && next.retired == h.retired && next.anchor.None?
            && |next.commands| == |h.commands| && |next.receipts| == |h.receipts|
            && (forall i | 0 <= i < |h.commands| ::
                  next.commands[i] == h.commands[i].(afterMessages := if h.commands[i].afterMessages <= cut then 0 else h.commands[i].afterMessages - cut))
            && (forall i | 0 <= i < |h.receipts| ::
                  next.receipts[i] == h.receipts[i].(afterMessages := if h.receipts[i].afterMessages <= cut then 0 else h.receipts[i].afterMessages - cut))
  {
  }
}
