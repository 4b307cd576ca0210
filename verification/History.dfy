/** The bounded command history of one conversation: its rules, and each operation as a function of its state. */
module History {
  import opened Commands

  const MAX_COMMANDS: nat := 512
  const MAX_BYTES: nat := 512 * 1024
  const MAX_SEQUENCE: nat := 8192
  const MAX_RETIRED: nat := 1024
  const MAX_RECEIPTS: nat := 4096

  datatype Message = Message(user: bool, prompt: Token)
  datatype BlockKey = MessageBlock(index: nat) | ReceiptBlock(sequence: nat) | CommandBlock(sequence: nat)
  /** The reader's position: a transcript block and the place inside it. */
  datatype Anchor = Anchor(key: BlockKey, line: nat, row: nat)

  datatype Receipt = Receipt(
    sequence: nat, afterMessages: nat, revision: nat, task: nat, correlation: Token, bounded: bool)

  datatype Log = Log(
    messages: seq<Message>,
    commands: seq<Command>,
    receipts: seq<Receipt>,
    retired: seq<Key>,
    anchor: Option<Anchor>,
    planOrigin: Option<PlannerRequest>,
    streaming: bool,
    summarising: bool)

  // ---------------------------------------------------------------- structure

  predicate EntriesValid(cs: seq<Command>, messages: nat) {
    forall i | 0 <= i < |cs| :: ValidCommand(cs[i], messages) && cs[i].sequence <= MAX_SEQUENCE
  }

  predicate Increasing(cs: seq<Command>) {
    forall i, j | 0 <= i < j < |cs| :: cs[i].sequence < cs[j].sequence
  }

  /** Receipts observed before sequences existed carry 0 and come first; the rest strictly increase. */
  predicate ReceiptOrder(rs: seq<Receipt>) {
    && (forall i | 0 <= i < |rs| :: rs[i].sequence <= MAX_SEQUENCE)
    && (forall i, j | 0 <= i < j < |rs| :: rs[i].sequence < rs[j].sequence || rs[i].sequence == rs[j].sequence == 0)
  }

  predicate NoSharedSequence(cs: seq<Command>, rs: seq<Receipt>) {
    forall i, j | 0 <= i < |cs| && 0 <= j < |rs| :: cs[i].sequence != rs[j].sequence
  }

  /** Two entries that may not stand in one history: same intent, correlation or user turn. */
  predicate Clash(a: Command, b: Command) {
    || a.id == b.id
    || (a.intent.SelectionRequest().Some? && b.intent.SelectionRequest().Some?
        && a.intent.selection.correlation == b.intent.selection.correlation)
    || (a.intent.ScopeRequest().Some? && b.intent.ScopeRequest().Some?
        && a.intent.scope.correlation == b.intent.scope.correlation)
    || (a.intent.PlannerRequest().Some? && b.intent.PlannerRequest().Some?
        && a.intent.planner.correlation == b.intent.planner.correlation)
    || (a.intent.Wayfinder? && b.intent.Wayfinder? && a.intent.userMessage == b.intent.userMessage)
  }

  predicate NoClash(cs: seq<Command>) {
    forall i, j | 0 <= i < j < |cs| :: !Clash(cs[i], cs[j])
  }

  /** A scope turn stays with its exact user message and reply. */
  predicate TurnBound(c: Command, messages: seq<Message>) {
    c.intent.Wayfinder? ==>
      && c.intent.userMessage % 2 == 0
      && c.afterMessages == c.intent.userMessage + 2
      && c.intent.userMessage + 1 < |messages|
      && messages[c.intent.userMessage] == Message(true, c.intent.scope.prompt)
      && !messages[c.intent.userMessage + 1].user
  }

  predicate TurnsBound(cs: seq<Command>, messages: seq<Message>) {
    forall i | 0 <= i < |cs| :: TurnBound(cs[i], messages)
  }

  /** `parent` is the command an automatic `child` was started from. */
  predicate NamedBy(parent: Command, child: Command) {
    || (child.intent.ArchitectDraft? && parent.intent == Task(child.intent.review))
    || (child.intent.DispatchRun? && parent.intent == Control(child.intent.source))
  }

  predicate Enabling(c: Command) { c.state == Controlled(DispatchChanged(true)) }

  /** An automatic entry needs its parent before it; a launch needs it settled as enabling. */
  predicate HasParent(cs: seq<Command>, i: nat)
    requires i < |cs|
  {
    cs[i].intent.ArchitectDraft? || cs[i].intent.DispatchRun? ==>
      exists j | 0 <= j < |cs| ::
        && cs[j].sequence < cs[i].sequence
        && NamedBy(cs[j], cs[i])
        && (cs[i].intent.DispatchRun? ==> Enabling(cs[j]))
  }

  predicate ParentsPresent(cs: seq<Command>) {
    forall i | 0 <= i < |cs| :: HasParent(cs, i)
  }

  predicate Chronological(cs: seq<Command>) {
    forall i, j | 0 <= i < j < |cs| && !cs[i].intent.Wayfinder? && !cs[j].intent.Wayfinder? ::
      cs[i].afterMessages <= cs[j].afterMessages
  }

  /** Every rule except the size budget. */
  predicate Structure(cs: seq<Command>, rs: seq<Receipt>, messages: seq<Message>) {
    && EntriesValid(cs, |messages|)
    && ReceiptOrder(rs)
    && Increasing(cs)
    && NoSharedSequence(cs, rs)
    && NoClash(cs)
    && TurnsBound(cs, messages)
    && ParentsPresent(cs)
    && Chronological(cs)
  }

  // ------------------------------------------------------------------- budget

  function TotalSize(cs: seq<Command>): nat {
    if |cs| == 0 then 0 else TotalSize(cs[..|cs| - 1]) + Size(cs[|cs| - 1])
  }

  /** The JSON array of `count` entries: brackets and one comma between neighbours. */
  function BudgetBytes(count: nat, sum: nat): nat {
    if count == 0 then 2 else sum + count + 1
  }

  predicate Fits(count: nat, sum: nat) {
    count <= MAX_COMMANDS && BudgetBytes(count, sum) <= MAX_BYTES
  }

  predicate WithinBudget(cs: seq<Command>) { Fits(|cs|, TotalSize(cs)) }

  // ----------------------------------------------------------------- receipts

  predicate ValidReceipt(r: Receipt, messages: nat) {
    && r.afterMessages <= messages
    && r.afterMessages % 2 == 0
    && 1 <= r.revision <= 4096
    && 1 <= r.task <= 256
    && r.bounded
  }

  predicate ValidReceipts(rs: seq<Receipt>, messages: nat) {
    && |rs| <= MAX_RECEIPTS
    && (forall i | 0 <= i < |rs| :: ValidReceipt(rs[i], messages))
    && (forall i, j | 0 <= i < j < |rs| ::
          rs[i].revision < rs[j].revision && rs[i].afterMessages <= rs[j].afterMessages
          && rs[i].correlation != rs[j].correlation)
  }

  /** What every saved conversation satisfies. */
  predicate Valid(h: Log) {
    && Structure(h.commands, h.receipts, h.messages)
    && WithinBudget(h.commands)
    && |h.retired| <= MAX_RETIRED
    && ValidReceipts(h.receipts, |h.messages|)
  }

  // -------------------------------------------------------------- numbering

  function Max(a: nat, b: nat): nat { if a < b then b else a }

  function LastCommand(cs: seq<Command>): nat {
    if |cs| == 0 then 0 else Max(LastCommand(cs[..|cs| - 1]), cs[|cs| - 1].sequence)
  }

  function LastReceipt(rs: seq<Receipt>): nat {
    if |rs| == 0 then 0 else Max(LastReceipt(rs[..|rs| - 1]), rs[|rs| - 1].sequence)
  }

  function NextSequence(h: Log): nat { Max(LastReceipt(h.receipts), LastCommand(h.commands)) + 1 }

  /** The non-zero sequences in use. */
  function InUse(h: Log): set<nat> {
    (set r | r in h.receipts && r.sequence > 0 :: r.sequence)
    + (set c | c in h.commands && c.sequence > 0 :: c.sequence)
  }

  function Below(used: set<nat>, q: nat): set<nat> { set x | x in used && x < q }

  /** The 1-based position of a sequence in the sorted list of those in use; 0 when absent. */
  function Rank(used: set<nat>, q: nat): nat {
    if q in used then |Below(used, q)| + 1 else 0
  }

  function RankCommands(used: set<nat>, cs: seq<Command>): (out: seq<Command>)
    ensures |out| == |cs|
    ensures forall i | 0 <= i < |cs| :: out[i] == cs[i].(sequence := Rank(used, cs[i].sequence))
  {
    seq(|cs|, i requires 0 <= i < |cs| => cs[i].(sequence := Rank(used, cs[i].sequence)))
  }

  function RankReceipts(used: set<nat>, rs: seq<Receipt>): (out: seq<Receipt>)
    ensures |out| == |rs|
    ensures forall i | 0 <= i < |rs| :: out[i] == rs[i].(sequence := Rank(used, rs[i].sequence))
  {
    seq(|rs|, i requires 0 <= i < |rs| => rs[i].(sequence := Rank(used, rs[i].sequence)))
  }

  function RankAnchor(used: set<nat>, anchor: Option<Anchor>): Option<Anchor> {
    if anchor.Some? && anchor.value.key.CommandBlock?
    then Some(anchor.value.(key := CommandBlock(Rank(used, anchor.value.key.sequence))))
    else anchor
  }

  function Renumbered(h: Log): Log {
    var used := InUse(h);
    h.(commands := RankCommands(used, h.commands),
       receipts := RankReceipts(used, h.receipts),
       anchor := RankAnchor(used, h.anchor))
  }

  /** The state whose next sequence is used: renumbered when the lifetime counter ran out. */
  function Numbered(h: Log): Log {
    if NextSequence(h) > MAX_SEQUENCE then Renumbered(h) else h
  }

  // --------------------------------------------------------------- eviction

  /** Index of the latest entry that switched dispatch on or off. */
  function LatestDispatch(cs: seq<Command>): (k: Option<nat>)
    ensures k.Some? ==> k.value < |cs|
  {
    if |cs| == 0 then None
    else if cs[|cs| - 1].state.Controlled? && cs[|cs| - 1].state.control.DispatchChanged? then Some(|cs| - 1)
    else LatestDispatch(cs[..|cs| - 1])
  }

  predicate Evictable(h: Log, i: nat)
    requires i < |h.commands|
  {
    var c := h.commands[i];
    && !c.state.Live()
    && !c.state.Selecting?
    && !(c.state.Planned? && c.state.planner.Generated?)
    && c.intent.SelectionRequest().None?
    && !c.intent.Wayfinder?
    && !(LatestDispatch(h.commands) == Some(i) && Enabling(c))
    && (forall k | 0 <= k < |h.commands| :: !NamedBy(c, h.commands[k]))
    && !(h.planOrigin.Some? && c.intent.PlannerRequest() == h.planOrigin)
  }

  /** Indices below `n` that may be evicted, oldest first. */
  function Victims(h: Log, n: nat): (v: seq<nat>)
    requires n <= |h.commands|
    ensures forall k | 0 <= k < |v| :: v[k] < n
  {
    if n == 0 then []
    else Victims(h, n - 1) + (if Evictable(h, n - 1) then [n - 1] else [])
  }

  /** The candidates of one eviction: all but the entry just admitted. */
  function Candidates(h: Log): seq<nat>
    requires |h.commands| > 0
  {
    Victims(h, |h.commands| - 1)
  }

  /** Indices below `n` that survive dropping `drop`. */
  function Survivors(n: nat, drop: seq<nat>): (k: seq<nat>)
    ensures forall i | 0 <= i < |k| :: k[i] < n && k[i] !in drop
  {
    if n == 0 then [] else Survivors(n - 1, drop) + (if n - 1 in drop then [] else [n - 1])
  }

  function At(cs: seq<Command>, ks: seq<nat>): (out: seq<Command>)
    requires forall i | 0 <= i < |ks| :: ks[i] < |cs|
    ensures |out| == |ks|
    ensures forall i | 0 <= i < |ks| :: out[i] == cs[ks[i]]
  {
    seq(|ks|, i requires 0 <= i < |ks| => cs[ks[i]])
  }

  function Without(cs: seq<Command>, drop: seq<nat>): seq<Command> {
    At(cs, Survivors(|cs|, drop))
  }

  /** The history that remains after the `k` oldest candidates go, measured again in full. */
  function After(h: Log, k: nat): seq<Command>
    requires |h.commands| > 0 && k <= |Candidates(h)|
  {
    Without(h.commands, Candidates(h)[..k])
  }

  /** The least number, at least `k`, of oldest candidates whose removal fits; one more than there are if none does. */
  function LeastFrom(h: Log, k: nat): nat
    requires |h.commands| > 0 && k <= |Candidates(h)|
    decreases |Candidates(h)| - k
  {
    if WithinBudget(After(h, k)) then k
    else if k == |Candidates(h)| then k + 1
    else LeastFrom(h, k + 1)
  }

  function KeysOf(cs: seq<Command>): seq<Key> {
    if |cs| == 0 then [] else KeysOf(cs[..|cs| - 1]) + RetirementKeys(cs[|cs| - 1])
  }

  /** The newest entries of a list, at most `limit`. */
  function Newest(keys: seq<Key>, limit: nat): (out: seq<Key>)
    ensures |out| <= limit
  {
    if |keys| <= limit then keys else keys[|keys| - limit..]
  }

  /** A reader anchored to a dropped entry must not keep a dangling anchor. */
  function KeepAnchor(anchor: Option<Anchor>, dropped: seq<Command>): Option<Anchor> {
    if anchor.Some? && anchor.value.key.CommandBlock?
       && exists i | 0 <= i < |dropped| :: dropped[i].sequence == anchor.value.key.sequence
    then None else anchor
  }

  function Evicted(h: Log, drop: seq<nat>): Log
    requires forall i | 0 <= i < |drop| :: drop[i] < |h.commands|
  {
    var gone := At(h.commands, drop);
    h.(commands := Without(h.commands, drop),
       retired := Newest(h.retired + KeysOf(gone), MAX_RETIRED),
       anchor := KeepAnchor(h.anchor, gone))
  }

  /** Drop the fewest oldest candidates that bring the history within budget, if that is possible. */
  function Evict(h: Log): Option<Log>
    requires |h.commands| > 0
  {
    var least := LeastFrom(h, 0);
    if least > |Candidates(h)| then None else Some(Evicted(h, Candidates(h)[..least]))
  }

  // -------------------------------------------------------------- admission

  datatype Refusal =
    | RetryOriginal | InvalidIntent | CorrelationUsed | CorrelationInUse | ParentMissing | InvalidHistory | Capacity
  datatype Result<+T, +E> = Ok(value: T) | Err(error: E)

  predicate SharesKey(a: Command, b: Command) {
    exists k | k in RetirementKeys(a)[1..] :: k in RetirementKeys(b)[1..]
  }

  /** Why the history whose last entry was just pushed breaks a rule. */
  function StructureRefusal(cs: seq<Command>): Refusal
    requires |cs| > 0
  {
    var last := cs[|cs| - 1];
    if exists i | 0 <= i < |cs| - 1 :: SharesKey(cs[i], last) then CorrelationInUse
    else if last.intent.ArchitectDraft? || last.intent.DispatchRun? then ParentMissing
    else InvalidHistory
  }

  function NewCommand(h: Log, text: Text, intent: Intent, after: Option<nat>, state: CommandState): Command {
    Command(Id(intent), NextSequence(h),
            if after.Some? then after.value else |h.messages|, 1, text, intent, state)
  }

  function Judge(h: Log, c: Command): Result<Log, Refusal> {
    if exists i | 0 <= i < |h.commands| :: h.commands[i].id == c.id then Err(RetryOriginal)
    else if !ValidCommand(c, |h.messages|) then Err(InvalidIntent)
    else if RetirementKeys(c)[0] in h.retired then Err(RetryOriginal)
    else if exists k | k in RetirementKeys(c)[1..] :: k in h.retired then Err(CorrelationUsed)
    else
      var pushed := h.(commands := h.commands + [c]);
      if !Structure(pushed.commands, h.receipts, h.messages) then Err(StructureRefusal(pushed.commands))
      else if WithinBudget(pushed.commands) then Ok(pushed)
      else match Evict(pushed)
        case None => Err(Capacity)
        case Some(evicted) => Ok(evicted)
  }

  /** Admit an entry. A refusal keeps the state exactly, even when numbers were reassigned to try. */
  function Admit(h: Log, text: Text, intent: Intent, follow: bool, after: Option<nat>, state: CommandState)
    : Result<Log, Refusal>
  {
    var numbered := Numbered(h);
    match Judge(numbered, NewCommand(numbered, text, intent, after, state))
    case Err(why) => Err(why)
    case Ok(next) => Ok(if follow then next.(anchor := None) else next)
  }

  /** Indices of the arrivals a new one for the same workspace and mission supersedes. */
  function Superseded(cs: seq<Command>, request: SelectionRequest): (k: seq<nat>)
    ensures forall i | 0 <= i < |k| ::
              k[i] < |cs| && cs[k[i]].intent.SelectionArrival?
              && cs[k[i]].intent.selection.target == request.target
              && cs[k[i]].intent.selection.mission == request.mission
  {
    if |cs| == 0 then []
    else
      var c := cs[|cs| - 1];
      Superseded(cs[..|cs| - 1], request)
      + (if c.intent.SelectionArrival? && c.intent.selection.target == request.target
            && c.intent.selection.mission == request.mission then [|cs| - 1] else [])
  }

  function Arrive(h: Log, text: Text, request: SelectionRequest, phase: Phase, failure: Reason): Result<Log, Refusal> {
    Admit(h.(commands := Without(h.commands, Superseded(h.commands, request))),
          text, SelectionArrival(request), false, None, Selecting(phase, failure))
  }

  // ------------------------------------------------- states, retry, restore

  function Find(cs: seq<Command>, id: Id): (k: Option<nat>)
    ensures k.Some? ==> k.value < |cs| && cs[k.value].id == id
                        && forall i | 0 <= i < k.value :: cs[i].id != id
    ensures k.None? ==> forall i | 0 <= i < |cs| :: cs[i].id != id
  {
    if |cs| == 0 then None
    else
      var earlier := Find(cs[..|cs| - 1], id);
      if earlier.Some? then earlier else if cs[|cs| - 1].id == id then Some(|cs| - 1) else None
  }

  function SetState(h: Log, id: Id, state: CommandState): Log {
    match Find(h.commands, id)
    case None => h
    case Some(k) => h.(commands := h.commands[k := h.commands[k].(state := state)])
  }

  datatype RetryRefusal = OriginGone | SelectionHistory | LaunchHistory | DraftHistory | RecordedOutcome | RetryLimit

  function Retry(h: Log, id: Id): Result<Log, RetryRefusal> {
    match Find(h.commands, id)
    case None => Err(OriginGone)
    case Some(k) =>
      var c := h.commands[k];
      if c.intent.SelectionRequest().Some? then Err(SelectionHistory)
      else if c.intent.DispatchRun? then Err(LaunchHistory)
      else if c.intent.ArchitectDraft? then Err(DraftHistory)
      else if c.state.Planned? || c.state.Controlled? then Err(RecordedOutcome)
      else if c.attempt + 1 >= U64_MAX then Err(RetryLimit)
      else Ok(h.(commands := h.commands[k := c.(attempt := c.attempt + 1, state := Pending)]))
  }

  const INTERRUPTED := Reason(0, true)

  /** After a restart a live entry is of unknown outcome; nothing is replayed. */
  function Interrupted(c: Command): Command {
    if c.state.Live() then c.(state := Unknown(INTERRUPTED)) else c
  }

  function RestoreCommands(cs: seq<Command>): (out: seq<Command>)
    ensures |out| == |cs|
    ensures forall i | 0 <= i < |cs| :: out[i] == Interrupted(cs[i])
  {
    seq(|cs|, i requires 0 <= i < |cs| => Interrupted(cs[i]))
  }

  function Restore(h: Log): Log { h.(commands := RestoreCommands(h.commands)) }

  // ------------------------------------------------------------------- clear

  const FRESH := Log([], [], [], [], None, None, false, false)

  datatype ClearRefusal = ReplyRunning | SummaryRunning | StillRecording | DraftPending

  /** Start the conversation over, unless a reply, a summary, a live entry or a pending plan draft needs it. */
  function Clear(h: Log): Result<Log, ClearRefusal> {
    if h.streaming then Err(ReplyRunning)
    else if h.summarising then Err(SummaryRunning)
    else if exists i | 0 <= i < |h.commands| :: h.commands[i].state.Live() then Err(StillRecording)
    else if h.planOrigin.Some?
            && exists i | 0 <= i < |h.commands| :: h.commands[i].intent.PlannerRequest() == h.planOrigin
    then Err(DraftPending)
    else Ok(FRESH)
  }

  // --------------------------------------------------------------- compaction

  predicate NoScopeTurn(cs: seq<Command>) { forall i | 0 <= i < |cs| :: !cs[i].intent.Wayfinder? }

  /** A summary of the oldest turns may be asked for: nothing runs, no scope turn, more than one complete turn. */
  predicate MaySummarise(h: Log) {
    !h.streaming && !h.summarising && NoScopeTurn(h.commands) && |h.messages| - |h.messages| % 2 > 2
  }

  function StartSummary(h: Log): Log {
    if MaySummarise(h) then h.(summarising := true) else h
  }

  function Back(n: nat, cut: nat): nat { if n >= cut then n - cut else 0 }

  function BackCommands(cs: seq<Command>, cut: nat): (out: seq<Command>)
    ensures |out| == |cs|
    ensures forall i | 0 <= i < |cs| :: out[i] == cs[i].(afterMessages := Back(cs[i].afterMessages, cut))
  {
    seq(|cs|, i requires 0 <= i < |cs| => cs[i].(afterMessages := Back(cs[i].afterMessages, cut)))
  }

  function BackReceipts(rs: seq<Receipt>, cut: nat): (out: seq<Receipt>)
    ensures |out| == |rs|
    ensures forall i | 0 <= i < |rs| :: out[i] == rs[i].(afterMessages := Back(rs[i].afterMessages, cut))
  {
    seq(|rs|, i requires 0 <= i < |rs| => rs[i].(afterMessages := Back(rs[i].afterMessages, cut)))
  }

  /** A note for the first `cut` messages still fits. A scope turn begins a new attempt, which makes the note late. */
  predicate NoteInTime(h: Log, cut: nat) {
    h.summarising && 0 < cut && cut % 2 == 0 && cut + 2 <= |h.messages| && NoScopeTurn(h.commands)
  }

  /** The summary ended: its note replaces the first messages, or nothing changes but that none is awaited. */
  function EndSummary(h: Log, note: Option<nat>): Log {
    if note.Some? && NoteInTime(h, note.value) then
      h.(messages := h.messages[note.value..],
         commands := BackCommands(h.commands, note.value),
         receipts := BackReceipts(h.receipts, note.value),
         anchor := None, summarising := false)
    else h.(summarising := false)
  }

  // ------------------------------------------------------ receipt observation

  predicate Observable(h: Log, r: Receipt) {
    && !h.streaming
    && |h.receipts| < MAX_RECEIPTS
    && ValidReceipt(r, |h.messages|)
    && forall i | 0 <= i < |h.receipts| ::
         h.receipts[i].revision < r.revision && h.receipts[i].correlation != r.correlation
         && h.receipts[i].afterMessages <= r.afterMessages
  }

  function Observe(h: Log, r: Receipt): Option<Log> {
    if !Observable(h, r) then None
    else
      var numbered := Numbered(h);
      if NextSequence(numbered) > MAX_SEQUENCE then None
      else Some(numbered.(receipts := numbered.receipts + [r.(sequence := NextSequence(numbered))]))
  }
}
