/**
 * Publishing a review branch: every call is a little program of Git and ledger steps, and any number of calls,
 * crashes, outside ref changes and other receipts interleave between those steps.
 */
module Publication {
  datatype Option<+T> = None | Some(value: T)

  /** A commit id: the twelve digits a branch name shows, and the rest. */
  datatype Commit = Commit(shown: nat, rest: nat)

  datatype Name = Name(task: nat, shown: nat)

  datatype Action = Branch(task: nat, name: Name, commit: Commit) | Unrelated(tag: nat)

  /** A receipt is the request it answers; its revision is its position. */
  datatype Receipt = Receipt(correlation: nat, expected: nat, action: Action)

  datatype Result = Published | Denied | Uncertain

  datatype Place =
    | Begin | Preflight(revision: nat) | Symbolic | Look | Create | Recheck | Confirm
    | Retry(round: nat) | Transact(round: nat, revision: nat) | Ended(result: Result) | Crashed

  /** One call; `created` and `observed` record what it did and saw. */
  datatype Call = Call(task: nat, expected: nat, correlation: nat, commit: Commit, place: Place, created: bool, observed: bool)
  {
    function Branch(): Name { Name(task, commit.shown) }

    function Act(): Action { Action.Branch(task, Branch(), commit) }
  }

  datatype World = World(refs: map<Name, Commit>, symbolic: set<Name>, ledger: seq<Receipt>, calls: seq<Call>)

  const ROUNDS: nat := 32

  predicate Recorded(ledger: seq<Receipt>, action: Action) {
    exists k | 0 <= k < |ledger| :: ledger[k].action == action
  }

  /** The first receipt with this correlation. */
  function Correlated(ledger: seq<Receipt>, correlation: nat): (r: Option<Receipt>)
    ensures r.Some? ==> r.value in ledger && r.value.correlation == correlation
    ensures r.None? ==> forall k | 0 <= k < |ledger| :: ledger[k].correlation != correlation
  {
    if |ledger| == 0 then None
    else if ledger[0].correlation == correlation then Some(ledger[0])
    else Correlated(ledger[1..], correlation)
  }

  predicate Conflicts(ledger: seq<Receipt>, c: Call) {
    var found := Correlated(ledger, c.correlation);
    found.Some? && found.value.action != c.Act()
  }

  predicate Points(refs: map<Name, Commit>, c: Call) { c.Branch() in refs && refs[c.Branch()] == c.commit }

  function At(c: Call, place: Place): Call { c.(place := place) }

  function End(c: Call, result: Result): Call { c.(place := Ended(result)) }

  /**
   * One step of a call. `good`: the command or read succeeded as far as the call can tell.
   * `effect`: a write that reported failure took effect all the same.
   */
  function Advance(w: World, c: Call, good: bool, effect: bool): (r: (World, Call)) {
    match c.place
    case Begin =>
      if !good || Conflicts(w.ledger, c) then (w, End(c, Denied))
      else if Correlated(w.ledger, c.correlation).None? && |w.ledger| != c.expected then (w, End(c, Denied))
      else (w, At(c, Preflight(|w.ledger|)))
    case Preflight(revision) =>
      if !good || Conflicts(w.ledger, c) then (w, End(c, Denied))
      else if Recorded(w.ledger, c.Act()) || |w.ledger| == revision then (w, At(c, Symbolic))
      else (w, End(c, Denied))
    case Symbolic => if good && c.Branch() in w.symbolic then (w, End(c, Denied)) else (w, At(c, Look))
    case Look =>
      if !good || c.Branch() !in w.refs then (w, At(c, Create))
      else if w.refs[c.Branch()] != c.commit then (w, End(c, Denied))
      else (w, At(c, Confirm))
    case Create =>
      if c.Branch() in w.refs || c.Branch() in w.symbolic || (!good && !effect) then (w, At(c, Recheck))
      else (w.(refs := w.refs[c.Branch() := c.commit]), At(c, if good then Confirm else Recheck).(created := true))
    case Recheck => if good && Points(w.refs, c) then (w, At(c, Confirm)) else (w, End(c, Uncertain))
    case Confirm => if good && Points(w.refs, c) then (w, At(c, Retry(0)).(observed := true)) else (w, End(c, Uncertain))
    case Retry(round) =>
      if round >= ROUNDS then (w, End(c, Uncertain))
      else if !good then (w, At(c, Retry(round + 1)))
      else if Recorded(w.ledger, c.Act()) then (w, End(c, Published))
      else if Conflicts(w.ledger, c) then (w, End(c, Uncertain))
      else (w, At(c, Transact(round, |w.ledger|)))
    case Transact(round, revision) =>
      var request := Receipt(c.correlation, revision, c.Act());
      var found := Correlated(w.ledger, c.correlation);
      if found.Some? then (w, if good && found.value == request then End(c, Published) else At(c, Retry(round + 1)))
      else if |w.ledger| != revision || (!good && !effect) then (w, At(c, Retry(round + 1)))
      else (w.(ledger := w.ledger + [request]), if good then End(c, Published) else At(c, Retry(round + 1)))
    case Ended(_) => (w, c)
    case Crashed => (w, c)
  }

  datatype Event =
    | Starts(task: nat, expected: nat, correlation: nat, commit: Commit)
    | Steps(call: nat, good: bool, effect: bool)
    | Dies(call: nat)
    | Moves(name: Name, to: Option<Commit>)
    | Appends(receipt: Receipt)

  function Next(w: World, e: Event): World {
    match e
    case Starts(task, expected, correlation, commit) =>
      w.(calls := w.calls + [Call(task, expected, correlation, commit, Begin, false, false)])
    case Steps(i, good, effect) =>
      if i >= |w.calls| then w
      else var (after, c) := Advance(w, w.calls[i], good, effect); after.(calls := w.calls[i := c])
    case Dies(i) => if i >= |w.calls| || w.calls[i].place.Ended? then w else w.(calls := w.calls[i := At(w.calls[i], Crashed)])
    case Moves(name, to) =>
      w.(refs := if to.None? then map n | n in w.refs && n != name :: w.refs[n] else w.refs[name := to.value])
    case Appends(receipt) =>
      if receipt.expected == |w.ledger| && Correlated(w.ledger, receipt.correlation).None? && receipt.action.Unrelated?
      then w.(ledger := w.ledger + [receipt]) else w
  }

  function Play(w: World, events: seq<Event>): World {
    if |events| == 0 then w else Next(Play(w, events[..|events| - 1]), events[|events| - 1])
  }

  // ---------------------------------------------------------------- no ref moves

  /** A call never changes or removes a ref: it only adds its own, and only where there was none. */
  lemma {:induction false} CallsNeverMoveRefs(w: World, i: nat, good: bool, effect: bool)
    ensures var n := Next(w, Steps(i, good, effect));
            && (forall name | name in w.refs :: name in n.refs && n.refs[name] == w.refs[name])
            && (n.refs != w.refs ==>
                  i < |w.calls| && w.calls[i].Branch() !in w.refs && n.calls[i].created
                  && n.refs == w.refs[w.calls[i].Branch() := w.calls[i].commit])
  {
  }

  /** A call keeps its identity, and what it did and saw stays recorded. */
  predicate Continues(c: Call, d: Call) {
    && d.task == c.task && d.commit == c.commit && d.correlation == c.correlation
    && (c.created ==> d.created) && (c.observed ==> d.observed)
    && (c.place.Ended? ==> d.place == c.place)
  }

  lemma {:induction false} AdvanceContinues(w: World, c: Call, good: bool, effect: bool)
    ensures Continues(c, Advance(w, c, good, effect).1)
  {
  }

  lemma {:induction false} AdvanceLeavesCalls(w: World, c: Call, good: bool, effect: bool)
    ensures Advance(w, c, good, effect).0.calls == w.calls
  {
  }

  lemma {:induction false} CallsContinue(w: World, e: Event)
    ensures |Next(w, e).calls| >= |w.calls|
    ensures forall i | 0 <= i < |w.calls| :: Continues(w.calls[i], Next(w, e).calls[i])
  {
    if e.Steps? && e.call < |w.calls| {
      AdvanceContinues(w, w.calls[e.call], e.good, e.effect);
      AdvanceLeavesCalls(w, w.calls[e.call], e.good, e.effect);
    }
  }

  // -------------------------------------------------------------- the invariant

  predicate NoRepeats(ledger: seq<Receipt>) {
    forall j, k | 0 <= j < k < |ledger| ::
      ledger[j].correlation != ledger[k].correlation
      && (ledger[j].action.Branch? ==> ledger[j].action != ledger[k].action)
  }

  predicate BeforeCreation(place: Place) { place.Begin? || place.Preflight? || place.Symbolic? || place.Look? }

  /** What a call's place says about what it did, and about the ledger it last read. */
  predicate CallSound(ledger: seq<Receipt>, c: Call) {
    && (BeforeCreation(c.place) || c.place == Ended(Denied) ==> !c.created)
    && (c.place.Retry? || c.place.Transact? || c.place == Ended(Published) ==> c.observed)
    && (c.place == Ended(Published) ==> Recorded(ledger, c.Act()))
    && (c.place.Transact? ==>
          && c.place.revision <= |ledger|
          && !Recorded(ledger[..c.place.revision], c.Act()))
  }

  predicate Sound(w: World) {
    && NoRepeats(w.ledger)
    && forall i | 0 <= i < |w.calls| :: CallSound(w.ledger, w.calls[i])
  }

  lemma {:induction false} GrowthKeepsCall(ledger: seq<Receipt>, receipt: Receipt, c: Call)
    requires CallSound(ledger, c)
    ensures CallSound(ledger + [receipt], c)
  {
    if c.place == Ended(Published) {
      var k :| 0 <= k < |ledger| && ledger[k].action == c.Act();
      assert (ledger + [receipt])[k].action == c.Act();
    }
    if c.place.Transact? { assert (ledger + [receipt])[..c.place.revision] == ledger[..c.place.revision]; }
  }

  lemma {:induction false} AppendKeepsSound(w: World, receipt: Receipt)
    requires Sound(w) && Correlated(w.ledger, receipt.correlation).None?
    requires receipt.action.Branch? ==> !Recorded(w.ledger, receipt.action)
    ensures Sound(w.(ledger := w.ledger + [receipt]))
  {
    forall i | 0 <= i < |w.calls| ensures CallSound(w.ledger + [receipt], w.calls[i]) {
      GrowthKeepsCall(w.ledger, receipt, w.calls[i]);
    }
  }

  lemma {:induction false} AdvanceKeepsCall(w: World, c: Call, good: bool, effect: bool)
    requires CallSound(w.ledger, c)
    ensures var (after, d) := Advance(w, c, good, effect); CallSound(after.ledger, d)
    ensures var (after, d) := Advance(w, c, good, effect);
            after.ledger == w.ledger
            || (c.place.Transact? && c.place.revision == |w.ledger| && Correlated(w.ledger, c.correlation).None?
                && after.ledger == w.ledger + [Receipt(c.correlation, c.place.revision, c.Act())])
  {
    if c.place.Retry? { assert w.ledger[..|w.ledger|] == w.ledger; }
    if c.place.Transact? {
      var (after, d) := Advance(w, c, good, effect);
      if d.place == Ended(Published) {
        if after.ledger == w.ledger {
          var found := Correlated(w.ledger, c.correlation).value;
          var k :| 0 <= k < |w.ledger| && w.ledger[k] == found;
          assert w.ledger[k].action == c.Act();
        } else {
          assert after.ledger[|w.ledger|].action == c.Act();
        }
      }
    }
  }

  /** Every event keeps the invariant: in particular a branch never gets a second receipt. */
  lemma {:induction false} NextKeepsSound(w: World, e: Event)
    requires Sound(w)
    ensures Sound(Next(w, e))
  {
    match e
    case Steps(i, good, effect) =>
      if i < |w.calls| {
        var c := w.calls[i];
        AdvanceKeepsCall(w, c, good, effect);
        var (after, d) := Advance(w, c, good, effect);
        if after.ledger != w.ledger {
          assert w.ledger[..|w.ledger|] == w.ledger;
          AppendKeepsSound(w, Receipt(c.correlation, c.place.revision, c.Act()));
        }
      }
    case Appends(receipt) =>
      if receipt.expected == |w.ledger| && Correlated(w.ledger, receipt.correlation).None? && receipt.action.Unrelated? {
        AppendKeepsSound(w, receipt);
      }
    case _ =>
  }

  lemma {:induction false} PlayKeepsSound(w: World, events: seq<Event>)
    requires Sound(w)
    ensures Sound(Play(w, events))
  {
    if |events| > 0 {
      PlayKeepsSound(w, events[..|events| - 1]);
      NextKeepsSound(Play(w, events[..|events| - 1]), events[|events| - 1]);
    }
  }

  /** Nothing has been called yet. */
  predicate Fresh(w: World) { NoRepeats(w.ledger) && w.calls == [] }

  /** Over every interleaving, a branch has at most one receipt. */
  lemma {:induction false} OneReceiptPerBranch(w: World, events: seq<Event>, j: nat, k: nat)
    requires Fresh(w) && j < k < |Play(w, events).ledger|
    ensures Play(w, events).ledger[j].action.Branch? ==> Play(w, events).ledger[j].action != Play(w, events).ledger[k].action
  {
    PlayKeepsSound(w, events);
  }

  // --------------------------------------------------------- what a result means

  lemma {:induction false} CallPersists(w: World, events: seq<Event>, m: nat, i: nat)
    requires m <= |events| && i < |Play(w, events[..m]).calls|
    ensures i < |Play(w, events).calls|
    ensures Continues(Play(w, events[..m]).calls[i], Play(w, events).calls[i])
    decreases |events|
  {
    if m < |events| {
      var earlier := events[..|events| - 1];
      assert earlier[..m] == events[..m];
      CallPersists(w, earlier, m, i);
      CallsContinue(Play(w, earlier), events[|events| - 1]);
    } else {
      assert events[..m] == events;
    }
  }

  /** A final refusal means that no step of this call created a ref. */
  lemma {:induction false} DeniedCreatedNothing(w: World, events: seq<Event>, i: nat, m: nat)
    requires Fresh(w) && i < |Play(w, events).calls| && Play(w, events).calls[i].place == Ended(Denied)
    requires m < |events| && events[m].Steps? && events[m].call == i
    ensures Play(w, events[..m + 1]).refs == Play(w, events[..m]).refs
  {
    PlayKeepsSound(w, events);
    var before := Play(w, events[..m]);
    assert events[..m + 1][..m] == events[..m];
    CallsNeverMoveRefs(before, i, events[m].good, events[m].effect);
    if Play(w, events[..m + 1]).refs != before.refs {
      CallPersists(w, events, m + 1, i);
    }
  }

  /** At some moment of the run this ref was at this commit. */
  ghost predicate WasAt(w: World, events: seq<Event>, name: Name, commit: Commit) {
    exists m | 0 <= m <= |events| :: var refs := Play(w, events[..m]).refs; name in refs && refs[name] == commit
  }

  lemma {:induction false} WasAtExtends(w: World, events: seq<Event>, name: Name, commit: Commit)
    requires |events| > 0 && WasAt(w, events[..|events| - 1], name, commit)
    ensures WasAt(w, events, name, commit)
  {
    var earlier := events[..|events| - 1];
    var m :| 0 <= m <= |earlier| && (var refs := Play(w, earlier[..m]).refs; name in refs && refs[name] == commit);
    assert events[..m] == earlier[..m];
  }

  lemma {:induction false} ObservedByConfirming(before: World, e: Event, i: nat)
    requires i < |Next(before, e).calls| && Next(before, e).calls[i].observed
    ensures (i < |before.calls| && before.calls[i].observed) || Points(before.refs, Next(before, e).calls[i])
  {
  }

  lemma {:induction false} ObservedWasAt(w: World, events: seq<Event>, i: nat)
    requires Fresh(w) && i < |Play(w, events).calls| && Play(w, events).calls[i].observed
    ensures WasAt(w, events, Play(w, events).calls[i].Branch(), Play(w, events).calls[i].commit)
    decreases |events|
  {
    if |events| > 0 {
      var earlier := events[..|events| - 1];
      var before := Play(w, earlier);
      var c := Play(w, events).calls[i];
      CallsContinue(before, events[|events| - 1]);
      ObservedByConfirming(before, events[|events| - 1], i);
      if i < |before.calls| && before.calls[i].observed {
        ObservedWasAt(w, earlier, i);
        WasAtExtends(w, events, c.Branch(), c.commit);
      } else {
        assert Points(before.refs, c);
        assert events[..|events| - 1] == earlier;
      }
    }
  }

  /** Success means that the ref was seen at the commit, and that the ledger holds the receipt. */
  lemma {:induction false} PublishedMeansDone(w: World, events: seq<Event>, i: nat)
    requires Fresh(w) && i < |Play(w, events).calls| && Play(w, events).calls[i].place == Ended(Published)
    ensures WasAt(w, events, Play(w, events).calls[i].Branch(), Play(w, events).calls[i].commit)
    ensures Recorded(Play(w, events).ledger, Play(w, events).calls[i].Act())
  {
    PlayKeepsSound(w, events);
    ObservedWasAt(w, events, i);
  }

  /** The ledger never claims a branch that did not exist: every new branch receipt names a ref that was at its commit. */
  lemma {:induction false} ReceiptsAreTrue(w: World, events: seq<Event>, k: nat)
    requires Fresh(w) && |w.ledger| <= k < |Play(w, events).ledger| && Play(w, events).ledger[k].action.Branch?
    ensures WasAt(w, events, Play(w, events).ledger[k].action.name, Play(w, events).ledger[k].action.commit)
    decreases |events|
  {
    if |events| > 0 {
      var earlier := events[..|events| - 1];
      var before := Play(w, earlier);
      var e := events[|events| - 1];
      var action := Play(w, events).ledger[k].action;
      PlayKeepsSound(w, earlier);
      if k < |before.ledger| {
        LedgerGrows(before, e);
        ReceiptsAreTrue(w, earlier, k);
      } else {
        assert e.Steps? && e.call < |before.calls| && action == before.calls[e.call].Act();
        ObservedWasAt(w, earlier, e.call);
      }
      WasAtExtends(w, events, action.name, action.commit);
    }
  }

  lemma {:induction false} LedgerGrows(w: World, e: Event)
    ensures |w.ledger| <= |Next(w, e).ledger| <= |w.ledger| + 1
    ensures Next(w, e).ledger[..|w.ledger|] == w.ledger
  {
  }

  // ------------------------------------------------------------- repeating a call

  /** Steps of one call with nothing going wrong and nobody in between. */
  function Alone(w: World, i: nat, n: nat): (after: World)
    ensures |after.calls| == |w.calls|
    decreases n
  {
    if n == 0 then w else Alone(Next(w, Steps(i, true, false)), i, n - 1)
  }

  /** Without a conflict, a used correlation means a recorded action. */
  lemma {:induction false} UsedMeansRecorded(w: World, c: Call)
    requires !Conflicts(w.ledger, c)
    ensures Correlated(w.ledger, c.correlation).Some? ==> Recorded(w.ledger, c.Act())
  {
    var found := Correlated(w.ledger, c.correlation);
    if found.Some? {
      var k :| 0 <= k < |w.ledger| && w.ledger[k] == found.value;
      assert w.ledger[k].action == c.Act();
    }
  }

  /** The last two steps: the receipt is found, or written. */
  lemma {:induction false} FromTheLedger(w: World, i: nat, c: Call, round: nat)
    requires i < |w.calls| && w.calls[i] == c && c.place == Retry(round) && round < ROUNDS
    requires !Conflicts(w.ledger, c) && (Correlated(w.ledger, c.correlation).Some? ==> Recorded(w.ledger, c.Act()))
    ensures var n := Alone(w, i, 2);
            && n.calls[i].place == Ended(Published) && n.refs == w.refs
            && n.ledger == (if Recorded(w.ledger, c.Act()) then w.ledger else w.ledger + [Receipt(c.correlation, |w.ledger|, c.Act())])
  {
    var next := Next(w, Steps(i, true, false));
    assert Alone(w, i, 2) == Alone(next, i, 1) == Alone(Next(next, Steps(i, true, false)), i, 0);
  }

  // ------------------------------------------------------------ overtaken calls

  /** None of these events is a step or the end of this call. */
  predicate Elsewhere(events: seq<Event>, i: nat) {
    forall k | 0 <= k < |events| :: !(events[k].Steps? && events[k].call == i) && !(events[k].Dies? && events[k].call == i)
  }

  lemma {:induction false} OthersLeaveCall(w: World, events: seq<Event>, i: nat)
    requires i < |w.calls| && Elsewhere(events, i)
    ensures i < |Play(w, events).calls| && Play(w, events).calls[i] == w.calls[i]
  {
    if |events| > 0 {
      var before := Play(w, events[..|events| - 1]);
      OthersLeaveCall(w, events[..|events| - 1], i);
      var e := events[|events| - 1];
      assert !(e.Steps? && e.call == i) && !(e.Dies? && e.call == i);
      if e.Steps? && e.call < |before.calls| { AdvanceLeavesCalls(before, before.calls[e.call], e.good, e.effect); }
    }
  }

  /**
   * Whatever happens between two steps of a call: if the ledger moved before it created anything, it is denied unless
   * its branch is already recorded; and if its correlation was given to something else, it ends uncertain. Neither
   * changes a thing.
   */
  lemma {:induction false} OvertakenCallsEnd(w: World, i: nat, others: seq<Event>, effect: bool)
    requires i < |w.calls| && Elsewhere(others, i)
    ensures var late := Play(w, others);
            var c := w.calls[i];
            var done := Next(late, Steps(i, true, effect));
            && (c.place.Preflight? && c.place.revision != |late.ledger| && !Recorded(late.ledger, c.Act()) ==>
                  done == late.(calls := done.calls) && i < |done.calls| && done.calls[i].place == Ended(Denied))
            && (c.place.Retry? && Conflicts(late.ledger, c) && !Recorded(late.ledger, c.Act()) ==>
                  done == late.(calls := done.calls) && i < |done.calls| && done.calls[i].place == Ended(Uncertain))
  {
    OthersLeaveCall(w, others, i);
  }

  // ------------------------------------------------------------ a call of its own

  lemma {:induction false} AloneStep(w: World, i: nat, n: nat)
    requires n > 0
    ensures Alone(w, i, n) == Alone(Next(w, Steps(i, true, false)), i, n - 1)
  {
  }

  lemma {:induction false} AloneNone(w: World, i: nat)
    ensures Alone(w, i, 0) == w
  {
  }

  function Iterate<A>(f: A -> A, x: A, n: nat): A
    decreases n
  {
    if n == 0 then x else Iterate(f, f(x), n - 1)
  }

  lemma {:induction false} IterateAdds<A>(f: A -> A, x: A, m: nat, n: nat)
    ensures Iterate(f, x, m + n) == Iterate(f, Iterate(f, x, m), n)
    decreases m
  {
    if m > 0 { IterateAdds(f, f(x), m - 1, n); }
  }

  function Steady(i: nat): World -> World { (w: World) => Next(w, Steps(i, true, false)) }

  lemma {:induction false} AloneIterates(w: World, i: nat, n: nat)
    ensures Alone(w, i, n) == Iterate(Steady(i), w, n)
    decreases n
  {
    if n == 0 {
      AloneNone(w, i);
    } else {
      AloneStep(w, i, n);
      AloneIterates(Next(w, Steps(i, true, false)), i, n - 1);
    }
  }

  lemma {:induction false} AloneAdds(w: World, i: nat, m: nat, n: nat)
    ensures Alone(w, i, m + n) == Alone(Alone(w, i, m), i, n)
  {
    AloneIterates(w, i, m + n);
    AloneIterates(w, i, m);
    AloneIterates(Alone(w, i, m), i, n);
    IterateAdds(Steady(i), w, m, n);
  }

  lemma {:induction false} AloneOne(w: World, i: nat)
    ensures Alone(w, i, 1) == Next(w, Steps(i, true, false))
  {
    AloneStep(w, i, 1);
    AloneNone(Next(w, Steps(i, true, false)), i);
  }

  lemma {:induction false} EndedStays(w: World, i: nat, n: nat)
    requires i < |w.calls| && w.calls[i].place.Ended?
    ensures Alone(w, i, n) == w
    decreases n
  {
    if n > 0 {
      assert w.calls[i := w.calls[i]] == w.calls;
      EndedStays(w, i, n - 1);
    }
  }

  /** Only this call, its ref and the ledger may differ. */
  predicate Reaches(w: World, i: nat, n: nat, c: Call, refs: map<Name, Commit>, ledger: seq<Receipt>)
    requires i < |w.calls|
  {
    Alone(w, i, n) == w.(calls := w.calls[i := c], refs := refs, ledger := ledger)
  }

  lemma {:induction false} OneMore(w: World, i: nat, n: nat, c: Call, d: Call, refs: map<Name, Commit>, ledger: seq<Receipt>, more: seq<Receipt>, moved: map<Name, Commit>)
    requires i < |w.calls| && Reaches(w, i, n, c, refs, ledger)
    requires var at := w.(calls := w.calls[i := c], refs := refs, ledger := ledger);
             Advance(at, c, true, false) == (at.(refs := moved, ledger := more), d)
    ensures Reaches(w, i, n + 1, d, moved, more)
  {
    AloneAdds(w, i, n, 1);
    AloneOne(Alone(w, i, n), i);
    assert w.calls[i := c][i := d] == w.calls[i := d];
  }

  /** The first four steps look at everything there is to refuse. */
  predicate Refused(w: World, c: Call) {
    || Conflicts(w.ledger, c)
    || (Correlated(w.ledger, c.correlation).None? && c.expected != |w.ledger|)
    || c.Branch() in w.symbolic
    || (c.Branch() in w.refs && w.refs[c.Branch()] != c.commit)
  }

  lemma {:induction false} LooksAround(w: World, i: nat, c: Call)
    requires i < |w.calls| && w.calls[i] == c && c.place == Begin && !Refused(w, c)
    ensures Reaches(w, i, 4, At(c, if c.Branch() in w.refs then Confirm else Create), w.refs, w.ledger)
  {
    var refs, ledger := w.refs, w.ledger;
    assert w.calls[i := c] == w.calls;
    assert Reaches(w, i, 0, c, refs, ledger);
    OneMore(w, i, 0, c, At(c, Preflight(|ledger|)), refs, ledger, ledger, refs);
    OneMore(w, i, 1, At(c, Preflight(|ledger|)), At(c, Symbolic), refs, ledger, ledger, refs);
    OneMore(w, i, 2, At(c, Symbolic), At(c, Look), refs, ledger, ledger, refs);
    OneMore(w, i, 3, At(c, Look), At(c, if c.Branch() in refs then Confirm else Create), refs, ledger, ledger, refs);
  }

  lemma {:induction false} IsRefused(w: World, i: nat, c: Call)
    requires i < |w.calls| && w.calls[i] == c && c.place == Begin && Refused(w, c)
    ensures exists n | 0 < n <= 4 :: Reaches(w, i, n, End(c, Denied), w.refs, w.ledger)
  {
    var refs, ledger := w.refs, w.ledger;
    assert w.calls[i := c] == w.calls;
    assert Reaches(w, i, 0, c, refs, ledger);
    if Conflicts(ledger, c) || (Correlated(ledger, c.correlation).None? && c.expected != |ledger|) {
      OneMore(w, i, 0, c, End(c, Denied), refs, ledger, ledger, refs);
    } else {
      OneMore(w, i, 0, c, At(c, Preflight(|ledger|)), refs, ledger, ledger, refs);
      OneMore(w, i, 1, At(c, Preflight(|ledger|)), At(c, Symbolic), refs, ledger, ledger, refs);
      if c.Branch() in w.symbolic {
        OneMore(w, i, 2, At(c, Symbolic), End(c, Denied), refs, ledger, ledger, refs);
      } else {
        OneMore(w, i, 2, At(c, Symbolic), At(c, Look), refs, ledger, ledger, refs);
        OneMore(w, i, 3, At(c, Look), End(c, Denied), refs, ledger, ledger, refs);
      }
    }
  }

  /** From its confirmation a call writes its receipt, unless the action is recorded. */
  lemma {:induction false} Confirms(w: World, i: nat, n: nat, c: Call, refs: map<Name, Commit>)
    requires i < |w.calls| && Reaches(w, i, n, c, refs, w.ledger) && c.place == Confirm && Points(refs, c)
    requires !Conflicts(w.ledger, c)
    ensures var done := Alone(w, i, n + 3);
            && |done.calls| == |w.calls| && done.calls[i].place == Ended(Published) && done.refs == refs
            && done.ledger == (if Recorded(w.ledger, c.Act()) then w.ledger else w.ledger + [Receipt(c.correlation, |w.ledger|, c.Act())])
  {
    var ready := At(c, Retry(0)).(observed := true);
    OneMore(w, i, n, c, ready, refs, w.ledger, w.ledger, refs);
    AloneAdds(w, i, n + 1, 2);
    ReadyToWrite(w.(calls := w.calls[i := ready], refs := refs), i, ready);
  }

  lemma {:induction false} ReadyToWrite(w: World, i: nat, c: Call)
    requires i < |w.calls| && w.calls[i] == c && c.place == Retry(0) && !Conflicts(w.ledger, c)
    ensures var done := Alone(w, i, 2);
            && |done.calls| == |w.calls| && done.calls[i].place == Ended(Published) && done.refs == w.refs
            && done.ledger == (if Recorded(w.ledger, c.Act()) then w.ledger else w.ledger + [Receipt(c.correlation, |w.ledger|, c.Act())])
  {
    UsedMeansRecorded(w, c);
    FromTheLedger(w, i, c, 0);
  }

  lemma {:induction false} Creates(w: World, i: nat, c: Call)
    requires i < |w.calls| && Reaches(w, i, 4, At(c, Create), w.refs, w.ledger)
    requires c.Branch() !in w.refs && c.Branch() !in w.symbolic
    ensures Reaches(w, i, 5, At(c, Confirm).(created := true), w.refs[c.Branch() := c.commit], w.ledger)
  {
    OneMore(w, i, 4, At(c, Create), At(c, Confirm).(created := true), w.refs, w.ledger, w.ledger, w.refs[c.Branch() := c.commit]);
  }

  lemma {:induction false} EndsDenied(w: World, i: nat, c: Call)
    requires i < |w.calls| && w.calls[i] == c && c.place == Begin && Refused(w, c)
    ensures var n := Alone(w, i, 8); n.calls[i].place == Ended(Denied) && n.refs == w.refs && n.ledger == w.ledger
  {
    IsRefused(w, i, c);
    var n :| 0 < n <= 4 && Reaches(w, i, n, End(c, Denied), w.refs, w.ledger);
    AloneAdds(w, i, n, 8 - n);
    EndedStays(Alone(w, i, n), i, 8 - n);
  }

  /** What the ledger holds after a publication. */
  function Receipted(ledger: seq<Receipt>, c: Call): seq<Receipt> {
    if Recorded(ledger, c.Act()) then ledger else ledger + [Receipt(c.correlation, |ledger|, c.Act())]
  }

  lemma {:induction false} EndsAtExisting(w: World, i: nat, c: Call)
    requires i < |w.calls| && w.calls[i] == c && c.place == Begin && !Refused(w, c) && c.Branch() in w.refs
    ensures var n := Alone(w, i, 8);
            n.calls[i].place == Ended(Published) && n.refs == w.refs && n.ledger == Receipted(w.ledger, c)
  {
    LooksAround(w, i, c);
    Confirms(w, i, 4, At(c, Confirm), w.refs);
    AloneAdds(w, i, 7, 1);
    EndedStays(Alone(w, i, 7), i, 1);
  }

  lemma {:induction false} EndsAtNew(w: World, i: nat, c: Call)
    requires i < |w.calls| && w.calls[i] == c && c.place == Begin && !Refused(w, c) && c.Branch() !in w.refs
    ensures var n := Alone(w, i, 8);
            && n.calls[i].place == Ended(Published) && n.refs == w.refs[c.Branch() := c.commit]
            && n.ledger == Receipted(w.ledger, c)
  {
    LooksAround(w, i, c);
    Creates(w, i, c);
    Confirms(w, i, 5, At(c, Confirm).(created := true), w.refs[c.Branch() := c.commit]);
  }

  /**
   * What a call does when nothing goes wrong and nobody is in between. It is denied, with nothing changed, exactly
   * if its correlation answered another request, the state it expects is gone, or its name is symbolic or taken
   * for another commit. Otherwise it is published: its branch is at its commit, every other ref is as it was, and
   * the ledger holds the receipt that was there or exactly one new one.
   */
  lemma {:induction false} UndisturbedCall(w: World, i: nat, c: Call)
    requires i < |w.calls| && w.calls[i] == c && c.place == Begin
    ensures var n := Alone(w, i, 8);
            if Refused(w, c) then n.calls[i].place == Ended(Denied) && n.refs == w.refs && n.ledger == w.ledger
            else
              && n.calls[i].place == Ended(Published) && n.refs == w.refs[c.Branch() := c.commit]
              && n.ledger == Receipted(w.ledger, c)
  {
    if Refused(w, c) {
      EndsDenied(w, i, c);
    } else if c.Branch() in w.refs {
      EndsAtExisting(w, i, c);
      assert w.refs[c.Branch() := c.commit] == w.refs;
    } else {
      EndsAtNew(w, i, c);
    }
  }

  // ------------------------------------------------------- interrupted and repeated

  /** How far an undisturbed call that is not refused may have come. */
  predicate OnTheWay(w: World, i: nat, c: Call, v: World)
    requires i < |w.calls|
  {
    && |v.calls| == |w.calls| && v.symbolic == w.symbolic
    && (v.refs == w.refs || v.refs == w.refs[c.Branch() := c.commit])
    && (v.ledger == w.ledger || v.ledger == Receipted(w.ledger, c))
    && var d := v.calls[i];
       && d.task == c.task && d.expected == c.expected && d.correlation == c.correlation && d.commit == c.commit
       && (!d.place.Ended? ==> v.ledger == w.ledger)
       && (d.place.Transact? ==> d.place.revision == |w.ledger| && !Recorded(w.ledger, c.Act()))
  }

  /** What one good step may do on the way. */
  predicate StepsOn(w: World, c: Call, v: World, d: Call, after: World, e: Call) {
    && after == v.(refs := after.refs, ledger := after.ledger)
    && e == d.(place := e.place, created := e.created, observed := e.observed)
    && (after.refs == v.refs || after.refs == v.refs[c.Branch() := c.commit])
    && (after.ledger == v.ledger || (d.place.Transact? && after.ledger == Receipted(w.ledger, c) && e.place.Ended?))
    && (e.place.Retry? ==> d.place.Confirm? || (d.place.Retry? && after.ledger == v.ledger))
    && (e.place.Transact? ==> d.place.Retry? && e.place.revision == |v.ledger| && !Recorded(v.ledger, c.Act()))
  }

  lemma {:induction false} LooksOn(w: World, c: Call, v: World, d: Call)
    requires d.Branch() == c.Branch() && d.commit == c.commit && !d.place.Retry? && !d.place.Transact?
    ensures StepsOn(w, c, v, d, Advance(v, d, true, false).0, Advance(v, d, true, false).1)
  {
  }

  lemma {:induction false} WritesOn(w: World, c: Call, v: World, d: Call)
    requires d.Act() == c.Act() && d.correlation == c.correlation && v.ledger == w.ledger && !Conflicts(w.ledger, c)
    requires d.place.Retry? || (d.place.Transact? && d.place.revision == |w.ledger| && !Recorded(w.ledger, c.Act()))
    ensures StepsOn(w, c, v, d, Advance(v, d, true, false).0, Advance(v, d, true, false).1)
  {
    UsedMeansRecorded(w, c);
  }

  lemma {:induction false} StaysOnTheWay(w: World, i: nat, c: Call, v: World)
    requires i < |w.calls| && !Refused(w, c) && OnTheWay(w, i, c, v)
    ensures OnTheWay(w, i, c, Next(v, Steps(i, true, false)))
  {
    var d := v.calls[i];
    if d.place.Retry? || d.place.Transact? { WritesOn(w, c, v, d); } else { LooksOn(w, c, v, d); }
    var (after, e) := Advance(v, d, true, false);
    assert StepsOn(w, c, v, d, after, e);
    assert v.refs[c.Branch() := c.commit] == w.refs[c.Branch() := c.commit];
  }

  lemma {:induction false} AloneIsOnTheWay(w: World, i: nat, c: Call, v: World, k: nat)
    requires i < |w.calls| && !Refused(w, c) && OnTheWay(w, i, c, v)
    ensures OnTheWay(w, i, c, Alone(v, i, k))
    decreases k
  {
    if k == 0 {
      AloneNone(v, i);
    } else {
      AloneStep(v, i, k);
      StaysOnTheWay(w, i, c, v);
      AloneIsOnTheWay(w, i, c, Next(v, Steps(i, true, false)), k - 1);
    }
  }

  lemma {:induction false} NotRefusedAgain(w: World, c: Call, v: World, again: Call)
    requires !Refused(w, c) && v.symbolic == w.symbolic
    requires v.refs == w.refs || v.refs == w.refs[c.Branch() := c.commit]
    requires v.ledger == w.ledger || v.ledger == Receipted(w.ledger, c)
    requires again == c.(expected := |v.ledger|, place := Begin, created := false, observed := false)
    ensures !Refused(v, again) && v.refs[c.Branch() := c.commit] == w.refs[c.Branch() := c.commit]
    ensures Receipted(v.ledger, again) == Receipted(w.ledger, c)
  {
    UsedMeansRecorded(w, c);
    if v.ledger != w.ledger {
      var r := Receipt(c.correlation, |w.ledger|, c.Act());
      assert v.ledger == w.ledger + [r] && v.ledger[|w.ledger|].action == c.Act();
      CorrelatedInFront(w.ledger, r);
    }
  }

  lemma {:induction false} CorrelatedInFront(ledger: seq<Receipt>, r: Receipt)
    requires Correlated(ledger, r.correlation).None?
    ensures Correlated(ledger + [r], r.correlation) == Some(r)
  {
    if |ledger| > 0 {
      assert (ledger + [r])[1..] == ledger[1..] + [r];
      CorrelatedInFront(ledger[1..], r);
    } else {
      assert ledger + [r] == [r];
    }
  }

  /**
   * A call that dies after any of its steps and is repeated ends as if it had never been interrupted: published,
   * with its branch at its commit, every other ref as before, and one receipt for the action in all.
   */
  lemma {:induction false} RepeatingReconciles(w: World, i: nat, c: Call, k: nat)
    requires i < |w.calls| && w.calls[i] == c && c.place == Begin && !Refused(w, c)
    ensures var dead := Next(Alone(w, i, k), Dies(i));
            var again := Next(dead, Starts(c.task, |dead.ledger|, c.correlation, c.commit));
            var n := Alone(again, |w.calls|, 8);
            && n.calls[|w.calls|].place == Ended(Published)
            && n.refs == w.refs[c.Branch() := c.commit] && n.ledger == Receipted(w.ledger, c)
  {
    AloneIsOnTheWay(w, i, c, w, k);
    var dead := Next(Alone(w, i, k), Dies(i));
    var again := Next(dead, Starts(c.task, |dead.ledger|, c.correlation, c.commit));
    var d := again.calls[|w.calls|];
    NotRefusedAgain(w, c, dead, d);
    UndisturbedCall(again, |w.calls|, d);
  }


  // ---------------------------------------------------------- trouble at the ledger

  /** Steps of one call whose reads of the ledger all fail. */
  function Troubled(w: World, i: nat, n: nat): (after: World)
    ensures |after.calls| == |w.calls|
    decreases n
  {
    if n == 0 then w else Troubled(Next(w, Steps(i, false, false)), i, n - 1)
  }

  lemma {:induction false} TroubleCounts(w: World, i: nat, c: Call, round: nat, n: nat)
    requires i < |w.calls| && w.calls[i] == At(c, Retry(round)) && round + n <= ROUNDS
    ensures Troubled(w, i, n) == w.(calls := w.calls[i := At(c, Retry(round + n))])
    decreases n
  {
    if n == 0 {
      assert w.calls[i := w.calls[i]] == w.calls;
    } else {
      var next := Next(w, Steps(i, false, false));
      assert next == w.(calls := w.calls[i := At(c, Retry(round + 1))]);
      TroubleCounts(next, i, c, round + 1, n - 1);
      assert next.calls[i := At(c, Retry(round + n))] == w.calls[i := At(c, Retry(round + n))];
    }
  }

  /** A call whose ref is confirmed outlasts up to 31 failing reads of the ledger; after 32 it ends uncertain, its ref in place. */
  lemma {:induction false} TroubleIsOutlasted(w: World, i: nat, c: Call, n: nat)
    requires i < |w.calls| && w.calls[i] == c && c.place == Retry(0) && n <= ROUNDS && !Conflicts(w.ledger, c)
    ensures var done := Alone(Troubled(w, i, n), i, 2);
            && done.refs == w.refs
            && (n < ROUNDS ==> done.calls[i].place == Ended(Published)
                               && done.ledger == (if Recorded(w.ledger, c.Act()) then w.ledger
                                                  else w.ledger + [Receipt(c.correlation, |w.ledger|, c.Act())]))
            && (n == ROUNDS ==> done.calls[i].place == Ended(Uncertain) && done.ledger == w.ledger)
  {
    TroubleCounts(w, i, c, 0, n);
    UsedMeansRecorded(w, c);
    var at := Troubled(w, i, n);
    assert at.calls[i] == At(c, Retry(n)) && at.refs == w.refs && at.ledger == w.ledger;
    if n < ROUNDS { FromTheLedger(at, i, At(c, Retry(n)), n); } else { LastRound(at, i, At(c, Retry(n))); }
  }

  lemma {:induction false} LastRound(w: World, i: nat, c: Call)
    requires i < |w.calls| && w.calls[i] == c && c.place == Retry(ROUNDS)
    ensures var n := Alone(w, i, 2); n.calls[i].place == Ended(Uncertain) && n.refs == w.refs && n.ledger == w.ledger
  {
    AloneStep(w, i, 2);
    EndedStays(Next(w, Steps(i, true, false)), i, 1);
  }
}
