/** Settling the task families of a run: what is done, what is stuck, and what to do next. */
module Families {
  datatype Option<+T> = None | Some(value: T)

  datatype Status =
    Proposed | Approved | Cancelled | Running | ReviewReady | NeedsHumanReview | Accepted | Failed | Rejected

  /** A task; its id is its 1-based position in the store. */
  datatype Task = Task(dependencies: seq<nat>, status: Status, policy: bool, run: bool, repairOf: Option<nat>)

  datatype Action = Approve(task: nat) | Requeue(task: nat) | ResolveRepair(task: nat) | Other(task: nat)

  /** The ledger: tasks, and the receipts that appended to it, whose revisions are their 1-based positions. */
  datatype Snapshot = Snapshot(tasks: seq<Task>, receipts: seq<Action>)

  predicate Has(s: Snapshot, id: nat) { 1 <= id <= |s.tasks| }

  function At(s: Snapshot, id: nat): Task
    requires Has(s, id)
  {
    s.tasks[id - 1]
  }

  // ------------------------------------------------------------------ lineage

  function RepairRoot(s: Snapshot, id: nat): (root: Option<nat>)
    ensures root.Some? ==> Has(s, root.value) && root.value <= id && At(s, root.value).repairOf.None?
  {
    if !Has(s, id) then None
    else match At(s, id).repairOf
      case None => Some(id)
      case Some(parent) => if parent < id then RepairRoot(s, parent) else None
  }

  /** `id` is a repair ancestor of `task`. */
  predicate Ancestor(s: Snapshot, task: nat, id: nat)
    decreases task
  {
    && Has(s, task)
    && At(s, task).repairOf.Some?
    && At(s, task).repairOf.value < task
    && (At(s, task).repairOf.value == id || Ancestor(s, At(s, task).repairOf.value, id))
  }

  /** The repair recorded as the resolution of a family, by the first such receipt. */
  function ResolutionFrom(s: Snapshot, root: nat, i: nat): (r: Option<nat>)
    requires i <= |s.receipts|
    ensures r.Some? ==> RepairRoot(s, r.value) == Some(root)
                        && exists k | i <= k < |s.receipts| :: s.receipts[k] == ResolveRepair(r.value)
    ensures r.None? ==> forall k | i <= k < |s.receipts| ::
                          s.receipts[k].ResolveRepair? ==> RepairRoot(s, s.receipts[k].task) != Some(root)
    decreases |s.receipts| - i
  {
    if i == |s.receipts| then None
    else if s.receipts[i].ResolveRepair? && RepairRoot(s, s.receipts[i].task) == Some(root) then Some(s.receipts[i].task)
    else ResolutionFrom(s, root, i + 1)
  }

  function Resolution(s: Snapshot, id: nat): Option<nat> {
    var root := RepairRoot(s, id);
    if root.None? then None else ResolutionFrom(s, root.value, 0)
  }

  function ResolvedByFrom(s: Snapshot, id: nat, i: nat): (r: Option<nat>)
    requires i <= |s.receipts|
    ensures r.Some? ==> Ancestor(s, r.value, id) && exists k | i <= k < |s.receipts| :: s.receipts[k] == ResolveRepair(r.value)
    ensures r.None? ==> forall k | i <= k < |s.receipts| ::
                          s.receipts[k].ResolveRepair? ==> !Ancestor(s, s.receipts[k].task, id)
    decreases |s.receipts| - i
  {
    if i == |s.receipts| then None
    else if s.receipts[i].ResolveRepair? && Ancestor(s, s.receipts[i].task, id) then Some(s.receipts[i].task)
    else ResolvedByFrom(s, id, i + 1)
  }

  /** A dependency can be composed: it was accepted itself, or its recorded resolution was. */
  predicate Sourced(s: Snapshot, id: nat) {
    && Has(s, id)
    && (At(s, id).status.Accepted?
        || (var source := ResolvedByFrom(s, id, 0);
            source.Some? && Has(s, source.value) && At(s, source.value).status.Accepted?))
  }

  /** The revision of the latest approval (or requeue) of a task. */
  function Approval(s: Snapshot, id: nat, n: nat): (r: Option<nat>)
    requires n <= |s.receipts|
    ensures r.Some? ==> 1 <= r.value <= n
  {
    if n == 0 then None
    else if s.receipts[n - 1] == Approve(id) || s.receipts[n - 1] == Requeue(id) then Some(n)
    else Approval(s, id, n - 1)
  }

  function LatestApproval(s: Snapshot, id: nat): Option<nat> { Approval(s, id, |s.receipts|) }

  // ----------------------------------------------------------------- families

  /** The newest member of a family among ids up to `n`. */
  function HeadUpto(s: Snapshot, root: nat, n: nat): (head: nat)
    ensures head == root || (head <= n && RepairRoot(s, head) == Some(root))
  {
    if n == 0 then root
    else if RepairRoot(s, n) == Some(root) then n
    else HeadUpto(s, root, n - 1)
  }

  function Head(s: Snapshot, root: nat): nat { HeadUpto(s, root, |s.tasks|) }

  /** A repair that spent something: it started or may start, and its parent failed. */
  predicate Counted(s: Snapshot, root: nat, id: nat) {
    && Has(s, id)
    && RepairRoot(s, id) == Some(root)
    && !(At(s, id).status.Cancelled? && !At(s, id).run)
    && At(s, id).repairOf.Some? && Has(s, At(s, id).repairOf.value)
    && At(s, At(s, id).repairOf.value).status.Failed?
  }

  function RepairsUpto(s: Snapshot, root: nat, n: nat): nat {
    if n == 0 then 0 else RepairsUpto(s, root, n - 1) + (if Counted(s, root, n) then 1 else 0)
  }

  function Repairs(s: Snapshot, root: nat): nat { RepairsUpto(s, root, |s.tasks|) }

  /** The run's own state that settlement reads. */
  datatype Plan = Plan(first: nat, count: nat, adopted: seq<nat>, maxRepairs: nat, limits: map<nat, nat>, retryCancelled: set<nat>)

  function Limit(p: Plan, root: nat): nat {
    if root in p.limits then p.limits[root] else p.maxRepairs
  }

  predicate AscendingFrom(ids: seq<nat>, low: nat) {
    && (forall i | 0 <= i < |ids| :: low <= ids[i])
    && (forall i, j | 0 <= i < j < |ids| :: ids[i] < ids[j])
  }

  function Above(ids: seq<nat>, low: nat): seq<nat> {
    if |ids| == 0 then [] else Above(ids[..|ids| - 1], low) + (if ids[|ids| - 1] >= low then [ids[|ids| - 1]] else [])
  }

  /** Planned tasks, then adopted follow-ups, in ascending order. */
  function Roots(p: Plan): seq<nat> {
    seq(p.count, i requires 0 <= i < p.count => p.first + i) + Above(p.adopted, p.first + p.count)
  }

  /**
   * The controller's local view: owner holds, running workers, provably interrupted runs, dispatch, and the
   * tasks an architecture review or the scope keeps from being launched.
   */
  datatype Control = Control(
    held: set<nat>, workers: set<nat>, recoverable: set<nat>, enabled: bool, attempts: map<nat, nat>, barred: set<nat>)

  datatype Reason = HeldForReview | RejectedByReview | BudgetExhausted | CancelledBeforeStart | Interrupted | Blocked | LaunchFailed
  datatype Settled = Active | Success(source: nat) | Stuck(reason: Reason) | CancelledRun

  datatype Family = Family(root: nat, head: nat, settled: Settled, repairs: nat)

  function FindFamily(fs: seq<Family>, root: nat): (k: Option<nat>)
    ensures k.Some? ==> k.value < |fs| && fs[k.value].root == root
    ensures k.None? ==> forall i | 0 <= i < |fs| :: fs[i].root != root
  {
    if |fs| == 0 then None
    else
      var earlier := FindFamily(fs[..|fs| - 1], root);
      if earlier.Some? then earlier else if fs[|fs| - 1].root == root then Some(|fs| - 1) else None
  }

  /** The family a dependency belongs to. */
  function Owner(s: Snapshot, dep: nat): nat {
    var root := RepairRoot(s, dep);
    if root.Some? then root.value else dep
  }

  predicate BlockedBy(s: Snapshot, earlier: seq<Family>, dep: nat) {
    var k := FindFamily(earlier, Owner(s, dep));
    k.Some? && earlier[k.value].settled.Stuck?
  }

  predicate IsBlocked(s: Snapshot, earlier: seq<Family>, head: Task) {
    exists dep | dep in head.dependencies :: BlockedBy(s, earlier, dep)
  }

  predicate LaunchSpent(s: Snapshot, c: Control, head: nat) {
    && head !in c.workers
    && LatestApproval(s, head).Some?
    && head in c.attempts && c.attempts[head] == LatestApproval(s, head).value
  }

  function SettleHead(s: Snapshot, p: Plan, c: Control, earlier: seq<Family>, root: nat, head: nat): Settled
    requires Has(s, head)
  {
    var task := At(s, head);
    match task.status
    case NeedsHumanReview => Stuck(HeldForReview)
    case Rejected => Stuck(RejectedByReview)
    case Failed => if Repairs(s, root) >= Limit(p, root) then Stuck(BudgetExhausted) else Active
    case Cancelled =>
      if !task.run then Stuck(CancelledBeforeStart)
      else if head !in p.retryCancelled then CancelledRun
      else Active
    case Running =>
      if head in c.recoverable then Active
      else if head !in c.workers then Stuck(Interrupted)
      else Active
    case Proposed => if IsBlocked(s, earlier, task) then Stuck(Blocked) else Active
    case Approved =>
      if IsBlocked(s, earlier, task) then Stuck(Blocked)
      else if LaunchSpent(s, c, head) then Stuck(LaunchFailed)
      else Active
    case Accepted => Active
    case ReviewReady => Active
  }

  function SettleFamily(s: Snapshot, p: Plan, c: Control, earlier: seq<Family>, root: nat): Settled
    requires Has(s, root)
  {
    if root in c.held then Active
    else if Resolution(s, root).Some? then Success(Resolution(s, root).value)
    else if At(s, root).status.Accepted? then Success(root)
    else SettleHead(s, p, c, earlier, root, Head(s, root))
  }

  /** Families of the first roots, settled in dependency order. */
  function Settle(s: Snapshot, p: Plan, c: Control, roots: seq<nat>): seq<Family> {
    if |roots| == 0 then []
    else
      var earlier := Settle(s, p, c, roots[..|roots| - 1]);
      var root := roots[|roots| - 1];
      if !Has(s, root) then earlier
      else earlier + [Family(root, Head(s, root), SettleFamily(s, p, c, earlier, root), Repairs(s, root))]
  }

  method SettleAll(s: Snapshot, p: Plan, c: Control) returns (families: seq<Family>)
    ensures families == Settle(s, p, c, Roots(p))
  {
    var roots := Roots(p);
    families := [];
    for i := 0 to |roots|
      invariant families == Settle(s, p, c, roots[..i])
    {
      assert roots[..i + 1][..i] == roots[..i];
      var root := roots[i];
      if Has(s, root) {
        families := families + [Family(root, Head(s, root), SettleFamily(s, p, c, families, root), Repairs(s, root))];
      }
    }
    assert roots[..|roots|] == roots;
  }

  // ---------------------------------------------------------------- decisions

  datatype Command =
    | ApproveTask(task: nat) | ReviewTask(task: nat) | ResolveTask(task: nat) | RecoverTask(task: nat)
    | RequeueTask(task: nat) | RepairTask(task: nat) | DispatchOn

  /** What the run asks for on one open family, if anything. */
  function HeadCommand(s: Snapshot, c: Control, head: nat): Option<Command>
    requires Has(s, head)
  {
    var task := At(s, head);
    match task.status
    case Proposed => if task.policy then Some(ApproveTask(head)) else None
    case ReviewReady => Some(ReviewTask(head))
    case Accepted => if task.repairOf.Some? then Some(ResolveTask(head)) else None
    case Running => if head in c.recoverable then Some(RecoverTask(head)) else None
    case Cancelled => Some(RequeueTask(head))
    case Failed => Some(RepairTask(head))
    case _ => None
  }

  function FirstCommand(s: Snapshot, c: Control, families: seq<Family>, i: nat): Option<Command>
    requires i <= |families|
    decreases |families| - i
  {
    if i == |families| then None
    else
      var f := families[i];
      var command := if f.settled.Active? && f.root !in c.held && Has(s, f.head) then HeadCommand(s, c, f.head) else None;
      if command.Some? then command else FirstCommand(s, c, families, i + 1)
  }

  predicate Ready(s: Snapshot, c: Control, f: Family) {
    && f.settled.Active?
    && Has(s, f.head)
    && At(s, f.head).status.Approved?
    && f.head !in c.workers
    && forall dep | dep in At(s, f.head).dependencies :: Sourced(s, dep)
  }

  /** The next command of a running step. */
  function NextCommand(s: Snapshot, c: Control, families: seq<Family>): Option<Command> {
    var first := FirstCommand(s, c, families, 0);
    if first.Some? then first
    else if !c.enabled && exists i | 0 <= i < |families| :: Ready(s, c, families[i]) then Some(DispatchOn)
    else None
  }

  /** What dispatch may launch. */
  predicate Launchable(s: Snapshot, c: Control, id: nat) {
    && c.enabled
    && Has(s, id)
    && At(s, id).status.Approved?
    && At(s, id).policy
    && id !in c.workers
    && id !in c.barred
    && !(At(s, id).repairOf.Some? && Resolution(s, id).Some?)
    && (forall dep | dep in At(s, id).dependencies :: Sourced(s, dep))
    && LatestApproval(s, id).Some?
    && !(id in c.attempts && c.attempts[id] == LatestApproval(s, id).value)
  }

  function NextMatching(s: Snapshot, c: Control, i: nat): (r: Option<nat>)
    requires 1 <= i <= |s.tasks| + 1
    ensures r.Some? ==> i <= r.value && Launchable(s, c, r.value) && forall k | i <= k < r.value :: !Launchable(s, c, k)
    ensures r.None? ==> forall k | i <= k <= |s.tasks| :: !Launchable(s, c, k)
    decreases |s.tasks| + 1 - i
  {
    if i > |s.tasks| then None else if Launchable(s, c, i) then Some(i) else NextMatching(s, c, i + 1)
  }
}
