/** Console commands: what an entry of the command history is, and when one entry alone is valid. */
module Commands {
  datatype Option<+T> = None | Some(value: T)

  /** Correlations, request bodies, workspace targets and digests are compared for equality only. */
  type Token = nat

  datatype SelectionRequest = SelectionRequest(correlation: Token, target: Token, mission: Token, current: bool)
  datatype ScopeRequest = ScopeRequest(correlation: Token, prompt: Token, body: Token)
  datatype PlannerRequest = PlannerRequest(correlation: Token, cancel: bool, body: Token)
  datatype TaskRequest = TaskRequest(correlation: Token, body: Token)
  datatype Operation = CancelWorker(task: nat) | Dispatch(enabled: bool)
  datatype ControlRequest = ControlRequest(correlation: Token, operation: Operation)

  datatype Intent =
    | Selection(selection: SelectionRequest)
    | SelectionArrival(selection: SelectionRequest)
    | Wayfinder(scope: ScopeRequest, userMessage: nat)
    | ArchitectDraft(planner: PlannerRequest, review: TaskRequest)
    | DispatchRun(correlation: Token, task: nat, source: ControlRequest)
    | Control(control: ControlRequest)
    | Planner(planner: PlannerRequest)
    | Task(request: TaskRequest)
    | Scope(scope: ScopeRequest)
    | Run(correlation: Token, revision: nat, task: nat)
    | Branch(correlation: Token, revision: nat, task: nat, run: Token)
    | Recover(correlation: Token, task: nat, run: Token, requeue: bool)
  {
    function SelectionRequest(): Option<SelectionRequest> {
      if Selection? || SelectionArrival? then Some(selection) else None
    }

    function ScopeRequest(): Option<ScopeRequest> {
      if Scope? || Wayfinder? then Some(scope) else None
    }

    function PlannerRequest(): Option<PlannerRequest> {
      if Planner? || ArchitectDraft? then Some(planner) else None
    }
  }

  /** The hash of an intent, taken as injective. */
  datatype Id = Id(intent: Intent)

  datatype Phase = Admitted | RepositoryReady | MissionReady | TargetLoaded | HandoffPrepared | Selected | AlreadyCurrent
  datatype ControlOutcome = CancellationRequested | DispatchChanged(enabled: bool)
  datatype PlannerOutcome = Generated(draft: Token) | Stopped | Failed(reason: Reason)

  /** A reason text; `storable` stands for its length and control-character bounds. */
  datatype Reason = Reason(text: Token, storable: bool)

  datatype CommandState =
    | Pending
    | Submitted
    | Selecting(phase: Phase, failure: Reason)
    | Controlled(control: ControlOutcome)
    | Planned(planner: PlannerOutcome)
    | Unknown(reason: Reason)
    | Refused(reason: Reason)
  {
    predicate Live() { Pending? || Submitted? }
  }

  /**
   * The text of an entry. `bounded` stands for the text and intent length bounds, and
   * `weight` for the JSON bytes of the normalized entry apart from its two numbers.
   */
  datatype Text = Text(content: Token, bounded: bool, autopilot: bool, weight: nat)

  datatype Command = Command(
    id: Id, sequence: nat, afterMessages: nat, attempt: nat, text: Text, intent: Intent, state: CommandState)

  const U64_MAX: nat := 0xFFFF_FFFF_FFFF_FFFF

  predicate OutcomeFits(intent: Intent, outcome: ControlOutcome) {
    && intent.Control?
    && match outcome {
         case CancellationRequested => intent.control.operation.CancelWorker?
         case DispatchChanged(enabled) => intent.control.operation == Dispatch(enabled)
       }
  }

  predicate PlanFits(intent: Intent, outcome: PlannerOutcome) {
    && intent.PlannerRequest().Some?
    && (outcome.Failed? ==> outcome.reason.storable)
    && !(outcome.Generated? && intent.PlannerRequest().value.cancel)
  }

  /** The state part of one entry's validity. */
  predicate StateFits(intent: Intent, state: CommandState) {
    && (intent.SelectionArrival? ==>
          state.Unknown? || (state.Selecting? && (state.phase.HandoffPrepared? || state.phase.Selected?)))
    && match state {
         case Pending => true
         case Submitted => true
         case Selecting(phase, failure) =>
           && intent.SelectionRequest().Some?
           && failure.storable
           && (phase.AlreadyCurrent? ==> intent.SelectionRequest().value.current)
         case Controlled(outcome) => OutcomeFits(intent, outcome)
         case Planned(outcome) => PlanFits(intent, outcome)
         case Unknown(reason) => reason.storable
         case Refused(reason) => reason.storable
       }
  }

  /** Launches validate their source: it must be another request that enables dispatch. */
  predicate IntentSound(intent: Intent) {
    && (intent.DispatchRun? ==>
          intent.source.operation == Dispatch(true) && intent.correlation != intent.source.correlation)
    && (intent.ArchitectDraft? ==> intent.review.correlation != intent.planner.correlation)
    && (intent.Wayfinder? ==> intent.userMessage % 2 == 0)
  }

  predicate ValidCommand(c: Command, messages: nat) {
    && c.id == Id(c.intent)
    && c.sequence > 0
    && 0 < c.attempt < U64_MAX
    && c.afterMessages <= messages
    && c.afterMessages % 2 == 0
    && c.text.bounded
    && IntentSound(c.intent)
    && StateFits(c.intent, c.state)
  }

  datatype Key = IdKey(id: Id) | ScopeKey(correlation: Token) | PlannerKey(correlation: Token)

  /** What an evicted command keeps refused: its id first, then its unique correlations. */
  function RetirementKeys(c: Command): (keys: seq<Key>)
    ensures 1 <= |keys| <= 2 && keys[0] == IdKey(c.id)
  {
    [IdKey(c.id)]
    + (if c.intent.ScopeRequest().Some? then [ScopeKey(c.intent.scope.correlation)] else [])
    + (if c.intent.PlannerRequest().Some? then [PlannerKey(c.intent.planner.correlation)] else [])
  }

  /** Decimal digits of a number as JSON prints it. */
  function Digits(n: nat): (d: nat)
    ensures d >= 1
  {
    if n < 10 then 1 else 1 + Digits(n / 10)
  }

  lemma {:induction false} DigitsMonotone(m: nat, n: nat)
    requires m <= n
    ensures Digits(m) <= Digits(n)
    decreases n
  {
    if m >= 10 {
      DigitsMonotone(m / 10, n / 10);
    }
  }

  /** Normalized JSON bytes of an entry plus the 1 KiB reserved for its terminal metadata. */
  function Size(c: Command): nat {
    c.text.weight + Digits(c.sequence) + Digits(c.afterMessages) + 1024
  }
}
