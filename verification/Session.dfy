/** A conversation's command history as the program keeps it: fields updated in place, proved against `History`. */
module Session {
  import opened Commands
  import opened History
  import opened Numbering
  import opened Eviction
  import opened Admission

  /** What the structure scan has met so far. */
  datatype Seen = Seen(
    ids: set<Id>, selections: set<Token>, scopes: set<Token>, planners: set<Token>, turns: set<nat>, sequences: set<nat>)

  predicate Fresh(seen: Seen, c: Command) {
    && c.id !in seen.ids
    && (c.intent.SelectionRequest().Some? ==> c.intent.selection.correlation !in seen.selections)
    && (c.intent.ScopeRequest().Some? ==> c.intent.scope.correlation !in seen.scopes)
    && (c.intent.PlannerRequest().Some? ==> c.intent.planner.correlation !in seen.planners)
    && (c.intent.Wayfinder? ==> c.intent.userMessage !in seen.turns)
  }

  function Insert(seen: Seen, c: Command): Seen {
    Seen(seen.ids + {c.id},
         seen.selections + (if c.intent.SelectionRequest().Some? then {c.intent.selection.correlation} else {}),
         seen.scopes + (if c.intent.ScopeRequest().Some? then {c.intent.scope.correlation} else {}),
         seen.planners + (if c.intent.PlannerRequest().Some? then {c.intent.planner.correlation} else {}),
         seen.turns + (if c.intent.Wayfinder? then {c.intent.userMessage} else {}),
         seen.sequences + {c.sequence})
  }

  function SeenOf(cs: seq<Command>): Seen {
    if |cs| == 0 then Seen({}, {}, {}, {}, {}, {}) else Insert(SeenOf(cs[..|cs| - 1]), cs[|cs| - 1])
  }

  /** The scan's sets reject an entry exactly when it clashes with an earlier one. */
  lemma {:induction false} FreshMeansNoClash(cs: seq<Command>, c: Command)
    ensures Fresh(SeenOf(cs), c) <==> forall i | 0 <= i < |cs| :: !Clash(cs[i], c)
  {
    if |cs| > 0 {
      var front, last := cs[..|cs| - 1], cs[|cs| - 1];
      FreshMeansNoClash(front, c);
      assert Fresh(SeenOf(cs), c) <==> Fresh(SeenOf(front), c) && !Clash(last, c);
      if Fresh(SeenOf(cs), c) {
        forall i | 0 <= i < |cs| ensures !Clash(cs[i], c) {
          if i < |front| { assert !Clash(front[i], c); }
        }
      } else if !Fresh(SeenOf(front), c) {
        var i :| 0 <= i < |front| && Clash(front[i], c);
        assert Clash(cs[i], c);
      } else {
        assert Clash(cs[|front|], c);
      }
    }
  }

  lemma {:induction false} SeenSequences(cs: seq<Command>, q: nat)
    ensures q in SeenOf(cs).sequences <==> exists i | 0 <= i < |cs| :: cs[i].sequence == q
  {
    if |cs| > 0 {
      var front, last := cs[..|cs| - 1], cs[|cs| - 1];
      SeenSequences(front, q);
      if i :| 0 <= i < |front| && front[i].sequence == q {
        assert cs[i].sequence == q;
      } else {
        forall i | 0 <= i < |front| ensures cs[i].sequence != q {
          assert front[i].sequence != q;
        }
        assert cs[|front|] == last;
      }
    }
  }

  lemma {:induction false} AdjacentIncreasing(cs: seq<Command>)
    requires forall i | 0 <= i < |cs| - 1 :: cs[i].sequence < cs[i + 1].sequence
    ensures Increasing(cs)
  {
    if |cs| > 1 {
      var front := cs[..|cs| - 1];
      AdjacentIncreasing(front);
      forall i, j | 0 <= i < j < |cs| ensures cs[i].sequence < cs[j].sequence {
        if j < |cs| - 1 {
          assert front[i].sequence < front[j].sequence;
        } else {
          assert cs[|cs| - 2].sequence < cs[|cs| - 1].sequence;
          if i < |cs| - 2 { assert front[i].sequence < front[|cs| - 2].sequence; }
        }
      }
    }
  }

  lemma {:induction false} AdjacentReceipts(rs: seq<Receipt>)
    requires forall i | 0 <= i < |rs| :: rs[i].sequence <= MAX_SEQUENCE
    requires forall i | 0 <= i < |rs| - 1 ::
               rs[i].sequence < rs[i + 1].sequence || rs[i].sequence == rs[i + 1].sequence == 0
    ensures ReceiptOrder(rs)
  {
    if |rs| > 1 {
      var front := rs[..|rs| - 1];
      AdjacentReceipts(front);
      var last := |rs| - 1;
      forall i, j | 0 <= i < j < |rs|
        ensures rs[i].sequence < rs[j].sequence || rs[i].sequence == rs[j].sequence == 0
      {
        if j < last {
          assert front[i].sequence < front[j].sequence || front[i].sequence == front[j].sequence == 0;
        } else {
          assert rs[last - 1].sequence < rs[last - 1 + 1].sequence || rs[last - 1].sequence == rs[last - 1 + 1].sequence == 0;
          if i < last - 1 {
            assert front[i].sequence < front[last - 1].sequence || front[i].sequence == front[last - 1].sequence == 0;
          }
        }
      }
    }
  }

  /** The scan's running totals are a full measurement of what would remain, and every shorter prefix was too short. */
  predicate Scanned(h: Log, n: nat, dropped: seq<nat>, left: nat, sum: nat) {
    && n < |h.commands|
    && dropped == Victims(h, n)
    && |dropped| <= |Candidates(h)| && dropped == Candidates(h)[..|dropped|]
    && left == |After(h, |dropped|)| && sum == TotalSize(After(h, |dropped|))
    && forall m | 0 <= m < |dropped| :: !WithinBudget(After(h, m))
  }

  lemma {:induction false} ScanStarts(h: Log)
    requires |h.commands| > 0
    ensures Scanned(h, 0, [], |h.commands|, TotalSize(h.commands))
  {
    DropNothing(h.commands, |h.commands|);
    assert Candidates(h)[..0] == [] && h.commands[..|h.commands|] == h.commands;
  }

  lemma {:induction false} NextVictim(h: Log, n: nat)
    requires n < |h.commands| - 1 && Evictable(h, n)
    ensures var k := |Victims(h, n)|;
            k < |Candidates(h)| && Candidates(h)[k] == n && Candidates(h)[..k + 1] == Victims(h, n) + [n]
  {
    var k := |Victims(h, n)|;
    assert Victims(h, n + 1) == Victims(h, n) + [n];
    VictimsPrefix(h, n + 1, |h.commands| - 1);
    assert Candidates(h)[..k + 1][k] == Victims(h, n + 1)[k];
  }

  lemma {:induction false} ScanStep(h: Log, n: nat, dropped: seq<nat>, left: nat, sum: nat)
    requires Scanned(h, n, dropped, left, sum) && n < |h.commands| - 1 && !Fits(left, sum)
    ensures Evictable(h, n) ==>
              && left > 0 && sum >= Size(h.commands[n])
              && Scanned(h, n + 1, dropped + [n], left - 1, sum - Size(h.commands[n]))
    ensures !Evictable(h, n) ==> Scanned(h, n + 1, dropped, left, sum)
  {
    if Evictable(h, n) {
      NextVictim(h, n);
      AfterShrinks(h, |dropped|);
    }
  }

  lemma {:induction false} ScannedIsPrefix(h: Log, n: nat, dropped: seq<nat>, left: nat, sum: nat)
    requires n < |h.commands| && Scanned(h, n, dropped, left, sum)
    ensures |dropped| <= |Candidates(h)| && dropped == Candidates(h)[..|dropped|]
    ensures WithinBudget(After(h, |dropped|)) <==> Fits(left, sum)
    ensures forall m | 0 <= m < |dropped| :: !WithinBudget(After(h, m))
    ensures forall i | 0 <= i < |dropped| :: dropped[i] < |h.commands|
  {
    forall i | 0 <= i < |dropped| ensures dropped[i] < |h.commands| { assert dropped[i] == Victims(h, n)[i]; }
  }

  lemma {:induction false} FittingScanIsLeast(h: Log, dropped: seq<nat>)
    requires |h.commands| > 0 && |dropped| <= |Candidates(h)| && dropped == Candidates(h)[..|dropped|]
    requires WithinBudget(After(h, |dropped|)) && forall m | 0 <= m < |dropped| :: !WithinBudget(After(h, m))
    requires forall i | 0 <= i < |dropped| :: dropped[i] < |h.commands|
    ensures Evict(h) == Some(Evicted(h, dropped)) && WithinBudget(Without(h.commands, dropped))
  {
    LeastIsLeast(h, 0);
    var least := LeastFrom(h, 0);
    assert least <= |dropped|;
    assert least == |dropped|;
  }

  lemma {:induction false} FailingScanIsFinal(h: Log, dropped: seq<nat>, left: nat, sum: nat)
    requires |h.commands| > 0 && Scanned(h, |h.commands| - 1, dropped, left, sum) && !Fits(left, sum)
    ensures Evict(h).None?
  {
    LeastIsLeast(h, 0);
    var least, all := LeastFrom(h, 0), |Candidates(h)|;
    assert |dropped| == all && !WithinBudget(After(h, all));
    assert least > all;
  }

  /** Where the scan stops is what eviction drops. */
  lemma {:induction false} ScanFindsLeast(h: Log, dropped: seq<nat>, left: nat, sum: nat)
    requires exists n | 0 <= n < |h.commands| :: Scanned(h, n, dropped, left, sum)
    requires Fits(left, sum) || Scanned(h, |h.commands| - 1, dropped, left, sum)
    ensures Evict(h) == if Fits(left, sum) then Some(Evicted(h, dropped)) else None
    ensures Fits(left, sum) ==> WithinBudget(Without(h.commands, dropped))
    ensures forall i | 0 <= i < |dropped| :: dropped[i] < |h.commands|
  {
    var n :| 0 <= n < |h.commands| && Scanned(h, n, dropped, left, sum);
    LeastIsLeast(h, 0);
    ScannedIsPrefix(h, n, dropped, left, sum);
    if Fits(left, sum) { FittingScanIsLeast(h, dropped); } else { FailingScanIsFinal(h, dropped, left, sum); }
  }

  /** Serialized sizes, measured once per entry. */
  method CommandSizes(cs: seq<Command>) returns (sizes: seq<nat>, sum: nat)
    ensures |sizes| == |cs| && forall i | 0 <= i < |cs| :: sizes[i] == Size(cs[i])
    ensures sum == TotalSize(cs)
  {
    sizes, sum := [], 0;
    for i := 0 to |cs|
      invariant |sizes| == i && forall k | 0 <= k < i :: sizes[k] == Size(cs[k])
      invariant sum == TotalSize(cs[..i])
    {
      assert cs[..i + 1][..i] == cs[..i];
      sizes := sizes + [Size(cs[i])];
      sum := sum + Size(cs[i]);
    }
    assert cs[..|cs|] == cs;
  }

  method ReceiptNumbers(rs: seq<Receipt>) returns (ok: bool, numbers: set<nat>)
    ensures ok ==> forall x :: x in numbers <==> x > 0 && exists k | 0 <= k < |rs| :: rs[k].sequence == x
    ensures !ok ==> !ReceiptOrder(rs)
  {
    numbers := {};
    for i := 0 to |rs|
      invariant forall x | x in numbers :: x > 0 && exists k | 0 <= k < i :: rs[k].sequence == x
      invariant forall k | 0 <= k < i :: rs[k].sequence > 0 ==> rs[k].sequence in numbers
    {
      if rs[i].sequence > 0 {
        if rs[i].sequence in numbers { return false, numbers; }
        numbers := numbers + {rs[i].sequence};
      }
    }
    return true, numbers;
  }

  /** The single pass over the commands: uniqueness, scope turns, parents and sequences. */
  method CommandsSound(cs: seq<Command>, numbers: set<nat>, messages: seq<Message>) returns (ok: bool)
    ensures ok ==> NoClash(cs) && TurnsBound(cs, messages) && ParentsPresent(cs)
    ensures ok ==> forall k | 0 <= k < |cs| :: cs[k].sequence !in numbers
    ensures !ok ==> || !(NoClash(cs) && TurnsBound(cs, messages) && ParentsPresent(cs) && Increasing(cs))
                    || exists k | 0 <= k < |cs| :: cs[k].sequence in numbers
  {
    var seen := SeenOf([]);
    for i := 0 to |cs|
      invariant seen == SeenOf(cs[..i])
      invariant forall j, k | 0 <= j < k < i :: !Clash(cs[j], cs[k])
      invariant forall k | 0 <= k < i :: TurnBound(cs[k], messages) && HasParent(cs, k) && cs[k].sequence !in numbers
    {
      if !TurnBound(cs[i], messages) || !HasParent(cs, i) { return false; }
      FreshMeansNoClash(cs[..i], cs[i]);
      SeenSequences(cs[..i], cs[i].sequence);
      if !Fresh(seen, cs[i]) {
        ghost var k :| 0 <= k < i && Clash(cs[..i][k], cs[i]);
        assert Clash(cs[k], cs[i]);
        return false;
      }
      if cs[i].sequence in seen.sequences || cs[i].sequence in numbers { return false; }
      assert cs[..i + 1][..i] == cs[..i];
      forall j | 0 <= j < i ensures !Clash(cs[j], cs[i]) {
        assert !Clash(cs[..i][j], cs[i]);
      }
      seen := Insert(seen, cs[i]);
    }
    return true;
  }

  /** Conversation order of every entry that is not a scope turn. */
  method InConversationOrder(cs: seq<Command>) returns (ok: bool)
    ensures ok == Chronological(cs)
  {
    var after := 0;
    for i := 0 to |cs|
      invariant forall j, k | 0 <= j < k < i && !cs[j].intent.Wayfinder? && !cs[k].intent.Wayfinder? ::
                  cs[j].afterMessages <= cs[k].afterMessages
      invariant forall k | 0 <= k < i && !cs[k].intent.Wayfinder? :: cs[k].afterMessages <= after
      invariant after > 0 ==> exists k | 0 <= k < i :: !cs[k].intent.Wayfinder? && cs[k].afterMessages == after
    {
      if !cs[i].intent.Wayfinder? {
        if cs[i].afterMessages < after { return false; }
        after := cs[i].afterMessages;
      }
    }
    return true;
  }

  /** Every rule but the budget. */
  method ValidCommandStructure(cs: seq<Command>, rs: seq<Receipt>, messages: seq<Message>) returns (ok: bool)
    ensures ok == Structure(cs, rs, messages)
  {
    if !EntriesValid(cs, |messages|) || exists i | 0 <= i < |rs| :: rs[i].sequence > MAX_SEQUENCE {
      return false;
    }
    var distinct, numbers := ReceiptNumbers(rs);
    if !distinct { return false; }
    var sound := CommandsSound(cs, numbers, messages);
    if !sound { return false; }
    if exists i | 0 <= i < |cs| - 1 :: cs[i].sequence >= cs[i + 1].sequence { return false; }
    AdjacentIncreasing(cs);
    var ordered := InConversationOrder(cs);
    if !ordered { return false; }
    if exists i | 0 <= i < |rs| - 1 ::
         !(rs[i].sequence < rs[i + 1].sequence || rs[i].sequence == rs[i + 1].sequence == 0)
    {
      return false;
    }
    AdjacentReceipts(rs);
    return true;
  }

  class Session {
    var messages: seq<Message>
    var commands: seq<Command>
    var taskReceipts: seq<Receipt>
    var retiredCommands: seq<Key>
    var reading: Option<Anchor>
    var planOrigin: Option<PlannerRequest>
    var streaming: bool
    var summarising: bool

    function State(): Log
      reads this
    {
      Log(messages, commands, taskReceipts, retiredCommands, reading, planOrigin, streaming, summarising)
    }

    constructor ()
      ensures State() == FRESH && Valid(State())
    {
      messages, commands, taskReceipts, retiredCommands := [], [], [], [];
      reading, planOrigin, streaming, summarising := None, None, false, false;
    }

    method NextSequenceValue() returns (next: nat)
      ensures next == NextSequence(State())
    {
      var top := 0;
      for i := 0 to |taskReceipts|
        invariant top == LastReceipt(taskReceipts[..i])
      {
        assert taskReceipts[..i + 1][..i] == taskReceipts[..i];
        top := Max(top, taskReceipts[i].sequence);
      }
      assert taskReceipts[..|taskReceipts|] == taskReceipts;
      var last := 0;
      for i := 0 to |commands|
        invariant last == LastCommand(commands[..i])
      {
        assert commands[..i + 1][..i] == commands[..i];
        last := Max(last, commands[i].sequence);
      }
      assert commands[..|commands|] == commands;
      next := Max(top, last) + 1;
    }

    /** Renumber receipts and commands from 1 in their existing order and move the reader along. */
    method RenumberConsoleSequences()
      modifies this
      ensures State() == Renumbered(old(State()))
    {
      var used := InUse(State());
      var i := 0;
      while i < |taskReceipts|
        invariant 0 <= i <= |taskReceipts| == |old(taskReceipts)|
        invariant State() == old(State()).(receipts := taskReceipts)
        invariant forall k | 0 <= k < |taskReceipts| ::
                    taskReceipts[k] == if k < i then RankReceipts(used, old(taskReceipts))[k] else old(taskReceipts)[k]
      {
        taskReceipts := taskReceipts[i := taskReceipts[i].(sequence := Rank(used, taskReceipts[i].sequence))];
        i := i + 1;
      }
      assert taskReceipts == RankReceipts(used, old(taskReceipts));
      i := 0;
      while i < |commands|
        invariant 0 <= i <= |commands| == |old(commands)|
        invariant State() == old(State()).(receipts := RankReceipts(used, old(taskReceipts)), commands := commands)
        invariant forall k | 0 <= k < |commands| ::
                    commands[k] == if k < i then RankCommands(used, old(commands))[k] else old(commands)[k]
      {
        commands := commands[i := commands[i].(sequence := Rank(used, commands[i].sequence))];
        i := i + 1;
      }
      assert commands == RankCommands(used, old(commands));
      reading := RankAnchor(used, reading);
    }

    method NextConsoleSequence() returns (next: nat)
      modifies this
      ensures State() == Numbered(old(State()))
      ensures next == NextSequence(State())
    {
      next := NextSequenceValue();
      if next > MAX_SEQUENCE {
        RenumberConsoleSequences();
        next := NextSequenceValue();
      }
    }

    method CommandsWithinBudget() returns (ok: bool)
      ensures ok == WithinBudget(commands)
    {
      var _, sum := CommandSizes(commands);
      ok := Fits(|commands|, sum);
    }

    /**
     * One scan with running totals: `dropped` is the shortest oldest-first prefix of the candidates
     * that fits, or all of them when none does.
     */
    method ScanVictims() returns (dropped: seq<nat>, left: nat, sum: nat)
      requires |commands| > 0
      ensures Scanned(State(), |commands| - 1, dropped, left, sum) || Fits(left, sum)
      ensures exists n | 0 <= n < |commands| :: Scanned(State(), n, dropped, left, sum)
    {
      var sizes, all := CommandSizes(commands);
      ghost var h := State();
      left, sum, dropped := |commands|, all, [];
      ScanStarts(h);
      var n := |commands| - 1;
      var index := 0;
      while index < n && !Fits(left, sum)
        invariant 0 <= index <= n
        invariant Scanned(h, index, dropped, left, sum)
      {
        ScanStep(h, index, dropped, left, sum);
        if Evictable(State(), index) {
          dropped := dropped + [index];
          left := left - 1;
          sum := sum - sizes[index];
        }
        index := index + 1;
      }
    }

    method EvictSettledCommands() returns (ok: bool)
      requires |commands| > 0
      modifies this
      ensures ok == Evict(old(State())).Some?
      ensures State() == if ok then Evict(old(State())).value else old(State())
    {
      var dropped, left, sum := ScanVictims();
      ghost var h := State();
      ScanFindsLeast(h, dropped, left, sum);
      if !Fits(left, sum) { return false; }
      DropCommands(dropped);
      return true;
    }

    /** Drop these entries, retire their keys, and let go of a reading position inside them. */
    method DropCommands(dropped: seq<nat>)
      requires forall i | 0 <= i < |dropped| :: dropped[i] < |commands|
      requires WithinBudget(Without(commands, dropped))
      modifies this
      ensures State() == Evicted(old(State()), dropped)
    {
      var gone := At(commands, dropped);
      commands := Without(commands, dropped);
      var within := CommandsWithinBudget();
      assert within;
      retiredCommands := Newest(retiredCommands + KeysOf(gone), MAX_RETIRED);
      reading := KeepAnchor(reading, gone);
    }

    /** Judge an entry on the full history first; only capacity may evict, and a refusal drops nothing. */
    method JudgeCommand(command: Command) returns (outcome: Result<(), Refusal>)
      modifies this
      ensures outcome.Ok? == Judge(old(State()), command).Ok?
      ensures outcome.Err? ==> State() == old(State()) && outcome.error == Judge(old(State()), command).error
      ensures outcome.Ok? ==> State() == Judge(old(State()), command).value
    {
      if exists i | 0 <= i < |commands| :: commands[i].id == command.id { return Err(RetryOriginal); }
      if !ValidCommand(command, |messages|) { return Err(InvalidIntent); }
      var keys := RetirementKeys(command);
      if keys[0] in retiredCommands { return Err(RetryOriginal); }
      if exists k | k in keys[1..] :: k in retiredCommands { return Err(CorrelationUsed); }
      ghost var before := State();
      commands := commands + [command];
      assert State() == before.(commands := before.commands + [command]);
      var sound := ValidCommandStructure(commands, taskReceipts, messages);
      if !sound {
        var refusal := StructureRefusal(commands);
        commands := commands[..|commands| - 1];
        assert commands == before.commands;
        return Err(refusal);
      }
      var within := CommandsWithinBudget();
      if !within {
        var evicted := EvictSettledCommands();
        if !evicted {
          commands := commands[..|commands| - 1];
          assert commands == before.commands;
          return Err(Capacity);
        }
      }
      return Ok(());
    }

    method AdmitCommandNumbered(text: Text, intent: Intent, follow: bool, after: Option<nat>, state: CommandState)
      returns (outcome: Result<Id, Refusal>)
      modifies this
      ensures outcome.Ok? == Admit(old(State()), text, intent, follow, after, state).Ok?
      ensures outcome.Err? ==>
                State() == Numbered(old(State()))
                && outcome.error == Admit(old(State()), text, intent, follow, after, state).error
      ensures outcome.Ok? ==>
                outcome.value == Id(intent) && State() == Admit(old(State()), text, intent, follow, after, state).value
    {
      var next := NextConsoleSequence();
      var position := if after.Some? then after.value else |messages|;
      var judged := JudgeCommand(Command(Id(intent), next, position, 1, text, intent, state));
      if judged.Err? { return Err(judged.error); }
      if follow { reading := None; }
      return Ok(Id(intent));
    }

    /** Admit an entry; a refusal leaves the whole session as it was, even after renumbering for it. */
    method AdmitCommand(text: Text, intent: Intent, follow: bool, after: Option<nat>, state: CommandState)
      returns (outcome: Result<Id, Refusal>)
      modifies this
      ensures outcome.Ok? == Admit(old(State()), text, intent, follow, after, state).Ok?
      ensures outcome.Err? ==> State() == old(State()) && outcome.error == Admit(old(State()), text, intent, follow, after, state).error
      ensures outcome.Ok? ==>
                outcome.value == Id(intent) && State() == Admit(old(State()), text, intent, follow, after, state).value
      ensures old(Valid(State())) ==> Valid(State())
    {
      if Valid(State()) && Admit(State(), text, intent, follow, after, state).Ok? {
        AdmissionKeepsHistory(State(), text, intent, follow, after, state);
      }
      var next := NextSequenceValue();
      var savedCommands, savedReceipts, savedReading := commands, taskReceipts, reading;
      outcome := AdmitCommandNumbered(text, intent, follow, after, state);
      if outcome.Err? && next > MAX_SEQUENCE {
        commands, taskReceipts, reading := savedCommands, savedReceipts, savedReading;
      }
    }

    method SubmitSelectionArrival(text: Text, request: SelectionRequest, phase: Phase, failure: Reason)
      returns (outcome: Result<Id, Refusal>)
      modifies this
      ensures outcome.Ok? == Arrive(old(State()), text, request, phase, failure).Ok?
      ensures outcome.Err? ==> State() == old(State())
      ensures outcome.Ok? ==> State() == Arrive(old(State()), text, request, phase, failure).value
      ensures old(Valid(State())) ==> Valid(State())
    {
      if Valid(State()) && Arrive(State(), text, request, phase, failure).Ok? {
        ArrivalKeepsHistory(State(), text, request, phase, failure);
      }
      var before := commands;
      commands := Without(commands, Superseded(commands, request));
      outcome := AdmitCommand(text, SelectionArrival(request), false, None, Selecting(phase, failure));
      if outcome.Err? { commands := before; }
    }

    method SetCommandState(id: Id, state: CommandState) returns (found: bool)
      modifies this
      ensures State() == SetState(old(State()), id, state)
      ensures found == exists i | 0 <= i < |old(commands)| :: old(commands)[i].id == id
    {
      var k := Find(commands, id);
      if k.None? { return false; }
      commands := commands[k.value := commands[k.value].(state := state)];
      return true;
    }

    method RetryCommand(id: Id) returns (outcome: Result<(), RetryRefusal>)
      modifies this
      ensures outcome.Ok? == Retry(old(State()), id).Ok?
      ensures outcome.Ok? ==> State() == Retry(old(State()), id).value
      ensures outcome.Err? ==> State() == old(State()) && outcome.error == Retry(old(State()), id).error
      ensures old(Valid(State())) ==> Valid(State())
    {
      if Valid(State()) && Retry(State(), id).Ok? { RetryKeepsValid(State(), id); }
      var k := Find(commands, id);
      if k.None? { return Err(OriginGone); }
      var command := commands[k.value];
      if command.intent.SelectionRequest().Some? { return Err(SelectionHistory); }
      if command.intent.DispatchRun? { return Err(LaunchHistory); }
      if command.intent.ArchitectDraft? { return Err(DraftHistory); }
      if command.state.Planned? || command.state.Controlled? { return Err(RecordedOutcome); }
      if command.attempt + 1 >= U64_MAX { return Err(RetryLimit); }
      commands := commands[k.value := command.(attempt := command.attempt + 1, state := Pending)];
      return Ok(());
    }

    method RestoreSavedCommands()
      modifies this
      ensures State() == Restore(old(State()))
      ensures old(Valid(State())) ==> Valid(State())
    {
      if Valid(State()) { RestoreKeepsValid(State()); }
      var i := 0;
      while i < |commands|
        invariant 0 <= i <= |commands| == |old(commands)|
        invariant State() == old(State()).(commands := commands)
        invariant forall k | 0 <= k < |commands| ::
                    commands[k] == if k < i then Interrupted(old(commands)[k]) else old(commands)[k]
      {
        if commands[i].state.Live() {
          commands := commands[i := commands[i].(state := Unknown(INTERRUPTED))];
        }
        i := i + 1;
      }
      assert commands == RestoreCommands(old(commands));
    }

    method ClearConversation() returns (outcome: Result<(), ClearRefusal>)
      modifies this
      ensures outcome.Ok? == Clear(old(State())).Ok?
      ensures outcome.Ok? ==> State() == FRESH && forall i | 0 <= i < |old(commands)| :: !old(commands)[i].state.Live()
      ensures outcome.Err? ==> State() == old(State()) && outcome.error == Clear(old(State())).error
    {
      if streaming { return Err(ReplyRunning); }
      if summarising { return Err(SummaryRunning); }
      if exists i | 0 <= i < |commands| :: commands[i].state.Live() { return Err(StillRecording); }
      if planOrigin.Some? && exists i | 0 <= i < |commands| :: commands[i].intent.PlannerRequest() == planOrigin {
        return Err(DraftPending);
      }
      messages, commands, taskReceipts, retiredCommands := [], [], [], [];
      reading, planOrigin, streaming, summarising := None, None, false, false;
      return Ok(());
    }

    /** A finished summary takes the first `cut` messages away: what followed them moves back, entry by entry. */
    method ApplyNote(cut: nat)
      requires NoteInTime(State(), cut)
      modifies this
      ensures State() == EndSummary(old(State()), Some(cut))
      ensures old(Valid(State())) ==> Valid(State())
    {
      if Valid(State()) { NoteKeepsValid(State(), Some(cut)); }
      ghost var before := State();
      var receipts, entries := taskReceipts, commands;
      messages := messages[cut..];
      for i := 0 to |receipts|
        invariant |taskReceipts| == |receipts| && commands == entries
        invariant forall k | 0 <= k < |receipts| :: taskReceipts[k] == if k < i then BackReceipts(receipts, cut)[k] else receipts[k]
        invariant State() == before.(messages := before.messages[cut..], receipts := taskReceipts)
      {
        taskReceipts := taskReceipts[i := taskReceipts[i].(afterMessages := Back(taskReceipts[i].afterMessages, cut))];
      }
      assert taskReceipts == BackReceipts(receipts, cut);
      for i := 0 to |entries|
        invariant |commands| == |entries| && taskReceipts == BackReceipts(receipts, cut)
        invariant forall k | 0 <= k < |entries| :: commands[k] == if k < i then BackCommands(entries, cut)[k] else entries[k]
        invariant State() == before.(messages := before.messages[cut..], receipts := taskReceipts, commands := commands)
      {
        commands := commands[i := commands[i].(afterMessages := Back(commands[i].afterMessages, cut))];
      }
      assert commands == BackCommands(entries, cut);
      reading, summarising := None, false;
    }

    method ObserveTaskReceipt(reference: Receipt) returns (ok: bool)
      modifies this
      ensures old(Valid(State())) ==> ok == Observable(old(State()), reference) && Valid(State())
      ensures ok == Observe(old(State()), reference).Some?
      ensures ok ==> State() == Observe(old(State()), reference).value
      ensures !ok && old(Valid(State())) ==> State() == old(State())
    {
      if Valid(State()) { ObservationKeepsValid(State(), reference); }
      if !Observable(State(), reference) { return false; }
      var next := NextConsoleSequence();
      if next > MAX_SEQUENCE { return false; }
      taskReceipts := taskReceipts + [reference.(sequence := next)];
      return true;
    }
  }
}
