/** Every effective step of a running loop lowers a measure, so the loop comes to an end. */
module Progress {
  import opened Families
  import opened Liveness

  /** What the loop's commands and its workers do to the ledger. */
  datatype Work =
    | Approving(id: nat) | Launching(id: nat) | Finishing(id: nat, passed: bool)
    | Reviewing(id: nat) | Resolving(id: nat) | Repairing(id: nat)
    | Recovering(id: nat) | Requeueing(id: nat)

  /** The store accepts this work on this task. */
  predicate Allowed(s: Snapshot, w: Work) {
    && Has(s, w.id)
    && match w
       case Approving(id) => At(s, id).status.Proposed? && At(s, id).policy
       case Launching(id) => At(s, id).status.Approved?
       case Finishing(id, _) => At(s, id).status.Running?
       case Reviewing(id) => At(s, id).status.ReviewReady?
       case Resolving(id) => At(s, id).status.Accepted? && At(s, id).repairOf.Some? && Resolution(s, id).None?
       case Repairing(id) => At(s, id).status.Failed? && At(s, id).run && At(s, id).policy && Resolution(s, id).None?
       case Recovering(id) => At(s, id).status.Running?
       case Requeueing(id) => At(s, id).status.Cancelled? && At(s, id).run
  }

  function WithStatus(s: Snapshot, id: nat, status: Status, run: bool, receipt: Action): Snapshot
    requires Has(s, id)
  {
    s.(tasks := s.tasks[id - 1 := At(s, id).(status := status, run := run)], receipts := s.receipts + [receipt])
  }

  function Perform(s: Snapshot, w: Work): Snapshot
    requires Allowed(s, w)
  {
    match w
    case Approving(id) => WithStatus(s, id, Approved, At(s, id).run, Approve(id))
    case Launching(id) => WithStatus(s, id, Running, true, Other(id))
    case Finishing(id, passed) => WithStatus(s, id, if passed then ReviewReady else Failed, At(s, id).run, Other(id))
    case Reviewing(id) => WithStatus(s, id, Accepted, At(s, id).run, Other(id))
    case Resolving(id) => s.(receipts := s.receipts + [ResolveRepair(id)])
    case Recovering(id) => WithStatus(s, id, Cancelled, true, Other(id))
    case Requeueing(id) => WithStatus(s, id, Approved, true, Requeue(id))
    case Repairing(id) =>
      Snapshot(s.tasks + [Task(At(s, id).dependencies, Proposed, At(s, id).policy, false, Some(id))],
               s.receipts + [Other(|s.tasks| + 1)])
  }

  /**
   * Work the loop does: on the head of an unresolved family of the run, and a repair only below its limit. A
   * recovery only records that an earlier process was interrupted.
   */
  predicate Effective(s: Snapshot, p: Plan, w: Work, root: nat) {
    OnHead(s, p, w, root) && !w.Recovering?
  }

  predicate OnHead(s: Snapshot, p: Plan, w: Work, root: nat) {
    && Allowed(s, w)
    && root in Roots(p) && Has(s, root) && At(s, root).repairOf.None?
    && w.id == Head(s, root)
    && !Done(s, root)
    && (w.Repairing? ==> Repairs(s, root) < Limit(p, root))
  }

  predicate Done(s: Snapshot, root: nat) {
    Resolution(s, root).Some? || (Has(s, root) && At(s, root).status.Accepted?)
  }

  function Rank(status: Status): nat {
    match status
    case Proposed => 6
    case Approved => 5
    case Running => 4
    case ReviewReady => 3
    case Accepted => 2
    case Failed => 1
    case Cancelled => 6
    case _ => 0
  }

  function Left(limit: nat, used: nat): nat { if used < limit then limit - used else 0 }

  function FamilyMeasure(s: Snapshot, p: Plan, root: nat): nat {
    if Done(s, root) || !Has(s, root) || !Has(s, Head(s, root)) then 0
    else 8 * Left(Limit(p, root), Repairs(s, root)) + Rank(At(s, Head(s, root)).status)
  }

  function Measure(s: Snapshot, p: Plan, roots: seq<nat>): nat {
    if |roots| == 0 then 0
    else Measure(s, p, roots[..|roots| - 1]) + FamilyMeasure(s, p, roots[|roots| - 1])
  }

  // --------------------------------------------------------- lineage is stable

  predicate SameLineage(s: Snapshot, t: Snapshot) {
    && |s.tasks| <= |t.tasks|
    && forall id | 1 <= id <= |s.tasks| :: At(t, id).repairOf == At(s, id).repairOf
  }

  lemma {:induction false} RootUnchanged(s: Snapshot, t: Snapshot, id: nat)
    requires SameLineage(s, t) && Has(s, id)
    ensures RepairRoot(t, id) == RepairRoot(s, id)
    decreases id
  {
    if At(s, id).repairOf.Some? && At(s, id).repairOf.value < id {
      var parent := At(s, id).repairOf.value;
      if Has(s, parent) { RootUnchanged(s, t, parent); }
    }
  }

  lemma {:induction false} HeadUnchanged(s: Snapshot, t: Snapshot, root: nat, n: nat)
    requires SameLineage(s, t) && n <= |s.tasks|
    ensures HeadUpto(t, root, n) == HeadUpto(s, root, n)
  {
    if n > 0 {
      RootUnchanged(s, t, n);
      HeadUnchanged(s, t, root, n - 1);
    }
  }

  lemma {:induction false} CountUnchanged(s: Snapshot, t: Snapshot, root: nat, n: nat)
    requires n <= |s.tasks|
    requires forall id | 1 <= id <= n :: Counted(t, root, id) == Counted(s, root, id)
    ensures RepairsUpto(t, root, n) == RepairsUpto(s, root, n)
  {
    if n > 0 { CountUnchanged(s, t, root, n - 1); }
  }

  lemma {:induction false} ResolutionExtends(s: Snapshot, t: Snapshot, root: nat, i: nat)
    requires SameLineage(s, t) && LineageSound(s) && i <= |s.receipts|
    requires |t.receipts| == |s.receipts| + 1 && t.receipts[..|s.receipts|] == s.receipts
    requires forall k | 0 <= k < |s.receipts| && s.receipts[k].ResolveRepair? :: Has(s, s.receipts[k].task)
    requires !t.receipts[|s.receipts|].ResolveRepair? || RepairRoot(t, t.receipts[|s.receipts|].task) != Some(root)
    ensures ResolutionFrom(t, root, i) == ResolutionFrom(s, root, i)
    decreases |s.receipts| - i
  {
    if i < |s.receipts| {
      assert t.receipts[i] == s.receipts[i];
      if s.receipts[i].ResolveRepair? { RootUnchanged(s, t, s.receipts[i].task); }
      ResolutionExtends(s, t, root, i + 1);
    } else {
      assert ResolutionFrom(t, root, i + 1).None?;
    }
  }

  // -------------------------------------------------------- one head moves on

  predicate ReceiptTasksExist(s: Snapshot) {
    forall k | 0 <= k < |s.receipts| && s.receipts[k].ResolveRepair? :: Has(s, s.receipts[k].task)
  }

  /** A repair cancelled before it started counts for nothing. */
  predicate NeverStarted(status: Status, run: bool) { status.Cancelled? && !run }

  /** A status change of a head alters no count: it has no repair yet, and it is not a cancellation before the start. */
  lemma {:induction false} StatusKeepsCounts(s: Snapshot, root: nat, other: nat, status: Status, run: bool, receipt: Action, id: nat)
    requires LineageSound(s) && Has(s, root) && At(s, root).repairOf.None? && Has(s, id)
    requires var h := Head(s, root); Has(s, h) && !NeverStarted(At(s, h).status, At(s, h).run) && !NeverStarted(status, run)
    ensures Counted(WithStatus(s, Head(s, root), status, run, receipt), other, id) == Counted(s, other, id)
  {
    var h := Head(s, root);
    var t := WithStatus(s, h, status, run, receipt);
    RootUnchanged(s, t, id);
    HeadExists(s, root, |s.tasks|);
    assert At(s, id).repairOf == Some(h) ==> RepairRoot(s, id) == RepairRoot(s, h);
  }

  lemma {:induction false} StatusKeepsFamily(s: Snapshot, root: nat, other: nat, status: Status, run: bool, receipt: Action)
    requires LineageSound(s) && ReceiptTasksExist(s) && Has(s, root) && At(s, root).repairOf.None?
    requires var h := Head(s, root); Has(s, h) && !NeverStarted(At(s, h).status, At(s, h).run) && !NeverStarted(status, run)
    requires !receipt.ResolveRepair?
    requires Has(s, other)
    ensures var t := WithStatus(s, Head(s, root), status, run, receipt);
            && Head(t, other) == Head(s, other) && Repairs(t, other) == Repairs(s, other)
            && Resolution(t, other) == Resolution(s, other)
            && SameLineage(s, t)
  {
    var t := WithStatus(s, Head(s, root), status, run, receipt);
    HeadUnchanged(s, t, other, |s.tasks|);
    forall id | 1 <= id <= |s.tasks| ensures Counted(t, other, id) == Counted(s, other, id) {
      StatusKeepsCounts(s, root, other, status, run, receipt, id);
    }
    CountUnchanged(s, t, other, |s.tasks|);
    RootUnchanged(s, t, other);
    RootReached(s, other);
    ResolutionExtends(s, t, RepairRoot(s, other).value, 0);
  }

  lemma {:induction false} HeadsDiffer(s: Snapshot, a: nat, b: nat)
    requires Has(s, a) && At(s, a).repairOf.None? && Has(s, b) && At(s, b).repairOf.None? && a != b
    ensures Head(s, a) != Head(s, b)
  {
    HeadExists(s, a, |s.tasks|);
    HeadExists(s, b, |s.tasks|);
  }

  lemma {:induction false} StatusMeasure(s: Snapshot, p: Plan, root: nat, other: nat, status: Status, run: bool, receipt: Action)
    requires LineageSound(s) && ReceiptTasksExist(s) && Has(s, root) && At(s, root).repairOf.None?
    requires var h := Head(s, root); Has(s, h) && !NeverStarted(At(s, h).status, At(s, h).run) && !NeverStarted(status, run)
    requires !receipt.ResolveRepair? && !Done(s, root)
    requires Has(s, other) && At(s, other).repairOf.None?
    requires Rank(status) < Rank(At(s, Head(s, root)).status)
    ensures var t := WithStatus(s, Head(s, root), status, run, receipt);
            if other == root then FamilyMeasure(t, p, other) < FamilyMeasure(s, p, other)
            else FamilyMeasure(t, p, other) == FamilyMeasure(s, p, other)
  {
    StatusKeepsFamily(s, root, other, status, run, receipt);
    HeadExists(s, root, |s.tasks|);
    HeadExists(s, other, |s.tasks|);
    if other != root {
      HeadsDiffer(s, root, other);
      assert RepairRoot(s, other) == Some(other);
    }
  }

  // ---------------------------------------------------------- a new repair

  lemma {:induction false} RepairLineage(s: Snapshot, id: nat)
    requires LineageSound(s) && Allowed(s, Repairing(id))
    ensures var t := Perform(s, Repairing(id));
            && SameLineage(s, t) && Has(t, |s.tasks| + 1)
            && RepairRoot(t, |s.tasks| + 1) == RepairRoot(s, id)
            && forall k | 1 <= k <= |s.tasks| :: At(t, k) == At(s, k)
  {
    var t := Perform(s, Repairing(id));
    RootUnchanged(s, t, id);
    assert At(t, |s.tasks| + 1).repairOf == Some(id);
  }

  lemma {:induction false} RepairKeepsResolution(s: Snapshot, id: nat, other: nat)
    requires LineageSound(s) && ReceiptTasksExist(s) && Allowed(s, Repairing(id)) && Has(s, other)
    ensures Resolution(Perform(s, Repairing(id)), other) == Resolution(s, other)
  {
    var t := Perform(s, Repairing(id));
    RepairLineage(s, id);
    RootUnchanged(s, t, other);
    RootReached(s, other);
    ResolutionExtends(s, t, RepairRoot(s, other).value, 0);
  }

  lemma {:induction false} RepairHeads(s: Snapshot, id: nat, other: nat)
    requires LineageSound(s) && Allowed(s, Repairing(id))
    ensures Head(Perform(s, Repairing(id)), other) ==
            if RepairRoot(s, id) == Some(other) then |s.tasks| + 1 else Head(s, other)
  {
    RepairLineage(s, id);
    HeadUnchanged(s, Perform(s, Repairing(id)), other, |s.tasks|);
  }

  lemma {:induction false} RepairKeepsOldCounts(s: Snapshot, id: nat, other: nat)
    requires LineageSound(s) && Allowed(s, Repairing(id))
    ensures RepairsUpto(Perform(s, Repairing(id)), other, |s.tasks|) == RepairsUpto(s, other, |s.tasks|)
  {
    var t, n := Perform(s, Repairing(id)), |s.tasks|;
    RepairLineage(s, id);
    forall k | 1 <= k <= n ensures Counted(t, other, k) == Counted(s, other, k) {
      RootUnchanged(s, t, k);
    }
    CountUnchanged(s, t, other, n);
  }

  lemma {:induction false} NewRepairCounts(s: Snapshot, id: nat, other: nat)
    requires LineageSound(s) && Allowed(s, Repairing(id))
    ensures Counted(Perform(s, Repairing(id)), other, |s.tasks| + 1) <==> RepairRoot(s, id) == Some(other)
  {
    var t, n := Perform(s, Repairing(id)), |s.tasks|;
    RepairLineage(s, id);
    assert At(t, n + 1) == Task(At(s, id).dependencies, Proposed, At(s, id).policy, false, Some(id));
    assert At(t, id) == At(s, id);
  }

  /** The new repair heads its family and counts against it; every other family is as before. */
  lemma {:induction false} RepairCounts(s: Snapshot, id: nat, other: nat)
    requires LineageSound(s) && Allowed(s, Repairing(id)) && Has(s, other) && At(s, other).repairOf.None?
    ensures var t := Perform(s, Repairing(id));
            if RepairRoot(s, id) == Some(other)
            then Head(t, other) == |s.tasks| + 1 && Repairs(t, other) == Repairs(s, other) + 1
            else Head(t, other) == Head(s, other) && Repairs(t, other) == Repairs(s, other)
  {
    RepairHeads(s, id, other);
    RepairKeepsOldCounts(s, id, other);
    NewRepairCounts(s, id, other);
  }

  lemma {:induction false} RepairMeasure(s: Snapshot, p: Plan, root: nat, other: nat)
    requires LineageSound(s) && ReceiptTasksExist(s) && Effective(s, p, Repairing(Head(s, root)), root)
    requires Has(s, other) && At(s, other).repairOf.None?
    ensures var t := Perform(s, Repairing(Head(s, root)));
            if other == root then FamilyMeasure(t, p, other) < FamilyMeasure(s, p, other)
            else FamilyMeasure(t, p, other) == FamilyMeasure(s, p, other)
  {
    var id := Head(s, root);
    var t := Perform(s, Repairing(id));
    HeadExists(s, root, |s.tasks|);
    HeadExists(s, other, |s.tasks|);
    RepairLineage(s, id);
    RepairKeepsResolution(s, id, other);
    RepairCounts(s, id, other);
    if other == root {
      assert At(t, |s.tasks| + 1).status == Proposed;
      assert Left(Limit(p, root), Repairs(t, root)) == Left(Limit(p, root), Repairs(s, root)) - 1;
    }
  }

  // ------------------------------------------------------------ a resolution

  lemma {:induction false} ResolutionAppears(s: Snapshot, t: Snapshot, root: nat, task: nat, i: nat)
    requires i <= |s.receipts| && t.receipts == s.receipts + [ResolveRepair(task)] && RepairRoot(t, task) == Some(root)
    ensures ResolutionFrom(t, root, i).Some?
    decreases |s.receipts| - i
  {
    assert t.receipts[|s.receipts|] == ResolveRepair(task);
  }

  lemma {:induction false} ResolveMeasure(s: Snapshot, p: Plan, root: nat, other: nat)
    requires LineageSound(s) && ReceiptTasksExist(s) && Effective(s, p, Resolving(Head(s, root)), root)
    requires Has(s, other) && At(s, other).repairOf.None?
    ensures var t := Perform(s, Resolving(Head(s, root)));
            if other == root then FamilyMeasure(t, p, other) < FamilyMeasure(s, p, other)
            else FamilyMeasure(t, p, other) == FamilyMeasure(s, p, other)
  {
    var id := Head(s, root);
    var t := Perform(s, Resolving(id));
    HeadExists(s, root, |s.tasks|);
    HeadExists(s, other, |s.tasks|);
    RootUnchanged(s, t, other);
    RootUnchanged(s, t, id);
    HeadUnchanged(s, t, other, |s.tasks|);
    if other == root {
      ResolutionAppears(s, t, root, id, 0);
    } else {
      forall k | 1 <= k <= |s.tasks| ensures Counted(t, other, k) == Counted(s, other, k) {
        RootUnchanged(s, t, k);
      }
      CountUnchanged(s, t, other, |s.tasks|);
      ResolutionExtends(s, t, other, 0);
    }
  }

  // -------------------------------------------------------------- the total

  lemma {:induction false} WorkMeasure(s: Snapshot, p: Plan, w: Work, root: nat, other: nat)
    requires StoreSound(s) && Effective(s, p, w, root) && Has(s, other) && At(s, other).repairOf.None?
    ensures if other == root then FamilyMeasure(Perform(s, w), p, other) < FamilyMeasure(s, p, other)
            else FamilyMeasure(Perform(s, w), p, other) == FamilyMeasure(s, p, other)
  {
    match w {
      case Approving(id) => StatusMeasure(s, p, root, other, Approved, At(s, id).run, Approve(id));
      case Launching(id) => StatusMeasure(s, p, root, other, Running, true, Other(id));
      case Finishing(id, passed) =>
        StatusMeasure(s, p, root, other, if passed then ReviewReady else Failed, At(s, id).run, Other(id));
      case Reviewing(id) => StatusMeasure(s, p, root, other, Accepted, At(s, id).run, Other(id));
      case Resolving(id) => ResolveMeasure(s, p, root, other);
      case Requeueing(id) => StatusMeasure(s, p, root, other, Approved, true, Requeue(id));
      case Repairing(id) => RepairMeasure(s, p, root, other);
    }
  }

  lemma {:induction false} MeasureDrops(s: Snapshot, p: Plan, w: Work, root: nat, roots: seq<nat>)
    requires StoreSound(s) && Effective(s, p, w, root)
    requires forall i | 0 <= i < |roots| :: Has(s, roots[i]) && At(s, roots[i]).repairOf.None?
    requires forall i, j | 0 <= i < j < |roots| :: roots[i] != roots[j]
    ensures Measure(Perform(s, w), p, roots) <= Measure(s, p, roots)
    ensures root in roots ==> Measure(Perform(s, w), p, roots) < Measure(s, p, roots)
  {
    if |roots| > 0 {
      MeasureDrops(s, p, w, root, roots[..|roots| - 1]);
      WorkMeasure(s, p, w, root, roots[|roots| - 1]);
    }
  }

  /** The run's families are distinct original tasks of the store. */
  predicate RootsSound(s: Snapshot, p: Plan) {
    && (forall i | 0 <= i < |Roots(p)| :: Has(s, Roots(p)[i]) && At(s, Roots(p)[i]).repairOf.None?)
    && (forall i, j | 0 <= i < j < |Roots(p)| :: Roots(p)[i] != Roots(p)[j])
  }

  // ------------------------------------------------- the store's rules persist

  lemma {:induction false} ApprovalExtends(s: Snapshot, t: Snapshot, id: nat, n: nat)
    requires n <= |s.receipts| && |s.receipts| <= |t.receipts| && t.receipts[..|s.receipts|] == s.receipts
    ensures Approval(t, id, n) == Approval(s, id, n)
  {
    if n > 0 {
      assert t.receipts[n - 1] == s.receipts[n - 1];
      ApprovalExtends(s, t, id, n - 1);
    }
  }

  lemma {:induction false} WorkKeepsLineage(s: Snapshot, w: Work)
    requires LineageSound(s) && Allowed(s, w)
    ensures LineageSound(Perform(s, w))
    ensures SameLineage(s, Perform(s, w))
  {
    var t := Perform(s, w);
    forall k | 1 <= k <= |t.tasks|
      ensures At(t, k).repairOf.Some? ==> 1 <= At(t, k).repairOf.value < k
      ensures forall dep | dep in At(t, k).dependencies :: 1 <= dep < k
    {
      if k <= |s.tasks| {
        assert At(t, k).dependencies == At(s, k).dependencies && At(t, k).repairOf == At(s, k).repairOf;
      } else {
        assert At(t, k).dependencies == At(s, w.id).dependencies;
      }
    }
  }

  /** No work touches an accepted task. */
  lemma {:induction false} WorkKeepsAccepted(s: Snapshot, w: Work, id: nat)
    requires Allowed(s, w) && Has(s, id) && At(s, id).status.Accepted?
    ensures Has(Perform(s, w), id) && At(Perform(s, w), id) == At(s, id)
  {
  }

  lemma {:induction false} WorkKeepsApprovals(s: Snapshot, w: Work, id: nat)
    requires ReceiptsSound(s) && Allowed(s, w) && Has(Perform(s, w), id) && At(Perform(s, w), id).status.Approved?
    ensures LatestApproval(Perform(s, w), id).Some?
  {
    var t := Perform(s, w);
    assert t.receipts[..|s.receipts|] == s.receipts;
    ApprovalExtends(s, t, id, |s.receipts|);
    if (w.Approving? || w.Requeueing?) && w.id == id {
      assert t.receipts[|s.receipts|] == Approve(id) || t.receipts[|s.receipts|] == Requeue(id);
    } else {
      assert Has(s, id) && At(s, id).status.Approved?;
    }
  }

  lemma {:induction false} WorkKeepsStore(s: Snapshot, w: Work)
    requires StoreSound(s) && Allowed(s, w)
    ensures StoreSound(Perform(s, w))
  {
    var t := Perform(s, w);
    WorkKeepsLineage(s, w);
    forall k | 0 <= k < |t.receipts| && t.receipts[k].ResolveRepair?
      ensures Has(t, t.receipts[k].task) && At(t, t.receipts[k].task).status.Accepted?
      ensures At(t, t.receipts[k].task).repairOf.Some?
    {
      if k < |s.receipts| { assert t.receipts[k] == s.receipts[k]; }
      WorkKeepsAccepted(s, w, t.receipts[k].task);
    }
    forall id | 1 <= id <= |t.tasks| && At(t, id).status.Approved? ensures LatestApproval(t, id).Some? {
      WorkKeepsApprovals(s, w, id);
    }
  }

  lemma {:induction false} WorkKeepsRoots(s: Snapshot, p: Plan, w: Work)
    requires LineageSound(s) && Allowed(s, w) && RootsSound(s, p)
    ensures RootsSound(Perform(s, w), p)
  {
    WorkKeepsLineage(s, w);
  }

  /** A run of effective work from `s`, one family root per step. */
  predicate Works(s: Snapshot, p: Plan, work: seq<(Work, nat)>)
    decreases |work|
  {
    |work| == 0 || (Effective(s, p, work[0].0, work[0].1) && Works(Perform(s, work[0].0), p, work[1..]))
  }

  function Outcome(s: Snapshot, p: Plan, work: seq<(Work, nat)>): Snapshot
    requires Works(s, p, work)
    decreases |work|
  {
    if |work| == 0 then s else Outcome(Perform(s, work[0].0), p, work[1..])
  }

  /** Termination: however the work of the families is interleaved, each step takes at least one off the measure. */
  lemma {:induction false} EffectiveWorkIsBounded(s: Snapshot, p: Plan, work: seq<(Work, nat)>)
    requires StoreSound(s) && RootsSound(s, p) && Works(s, p, work)
    ensures |work| + Measure(Outcome(s, p, work), p, Roots(p)) <= Measure(s, p, Roots(p))
    decreases |work|
  {
    if |work| > 0 {
      MeasureDrops(s, p, work[0].0, work[0].1, Roots(p));
      WorkKeepsStore(s, work[0].0);
      WorkKeepsRoots(s, p, work[0].0);
      EffectiveWorkIsBounded(Perform(s, work[0].0), p, work[1..]);
    }
  }

  // ------------------------------------------------------- what the loop decides

  /** The work a command of the running step asks the store for. */
  function WorkOf(command: Command): Option<Work> {
    match command
    case ApproveTask(id) => Some(Approving(id))
    case ReviewTask(id) => Some(Reviewing(id))
    case ResolveTask(id) => Some(Resolving(id))
    case RepairTask(id) => Some(Repairing(id))
    case RecoverTask(id) => Some(Recovering(id))
    case RequeueTask(id) => Some(Requeueing(id))
    case DispatchOn => None
  }

  /** An open family of the run that the owner does not hold. */
  predicate OpenAt(s: Snapshot, c: Control, fs: seq<Family>, k: nat) {
    k < |fs| && fs[k].settled.Active? && fs[k].root !in c.held && Has(s, fs[k].head)
  }

  /**
   * One step of the loop on the run: a command that the running step chooses and the store accepts, the launch
   * dispatch picks, or the end of a worker, the latter two on the head of an open family.
   */
  predicate LoopStep(s: Snapshot, p: Plan, c: Control, w: Work) {
    var fs := Settle(s, p, c, Roots(p));
    match w
    case Launching(id) =>
      NextMatching(s, c, 1) == Some(id) && exists k | 0 <= k < |fs| :: OpenAt(s, c, fs, k) && fs[k].head == id
    case Finishing(id, _) =>
      Has(s, id) && At(s, id).status.Running? && exists k | 0 <= k < |fs| :: OpenAt(s, c, fs, k) && fs[k].head == id
    case Repairing(_) =>
      FirstCommand(s, c, fs, 0).Some? && WorkOf(FirstCommand(s, c, fs, 0).value) == Some(w) && Allowed(s, w)
    case _ =>
      FirstCommand(s, c, fs, 0).Some? && WorkOf(FirstCommand(s, c, fs, 0).value) == Some(w)
  }

  /** This family has a command of its own. */
  predicate Asks(s: Snapshot, c: Control, fs: seq<Family>, k: nat) { OpenAt(s, c, fs, k) && HeadCommand(s, c, fs[k].head).Some? }

  /** A command is that of the head of the first open family that has one. */
  lemma {:induction false} CommandIsOnOpenFamily(s: Snapshot, c: Control, fs: seq<Family>, i: nat) returns (k: nat)
    requires i <= |fs| && FirstCommand(s, c, fs, i).Some?
    ensures i <= k && OpenAt(s, c, fs, k) && HeadCommand(s, c, fs[k].head) == FirstCommand(s, c, fs, i)
    ensures forall j | i <= j < k :: !Asks(s, c, fs, j)
    decreases |fs| - i
  {
    k := i;
    if !OpenAt(s, c, fs, i) || HeadCommand(s, c, fs[i].head).None? { k := CommandIsOnOpenFamily(s, c, fs, i + 1); }
  }

  /** An open family is unresolved, its head is below its repair limit if it failed, and to be run again if it was cancelled. */
  lemma {:induction false} OpenIsUnresolved(s: Snapshot, p: Plan, c: Control, k: nat)
    requires RootsSound(s, p) && OpenAt(s, c, Settle(s, p, c, Roots(p)), k)
    ensures k < |Roots(p)|
    ensures var f := Settle(s, p, c, Roots(p))[k];
            && f.root == Roots(p)[k] && f.head == Head(s, f.root) && !Done(s, f.root)
            && (At(s, f.head).status.Failed? ==> Repairs(s, f.root) < Limit(p, f.root))
            && (At(s, f.head).status.Cancelled? ==> At(s, f.head).run && f.head in p.retryCancelled)
  {
    SettleLength(s, p, c, Roots(p));
    SettleAt(s, p, c, Roots(p), k);
    var root := Roots(p)[k];
    assert RepairRoot(s, root) == Some(root);
  }

  lemma {:induction false} OpenWorkIsOnHead(s: Snapshot, p: Plan, c: Control, w: Work, k: nat)
    requires RootsSound(s, p) && OpenAt(s, c, Settle(s, p, c, Roots(p)), k) && Allowed(s, w)
    requires w.id == Settle(s, p, c, Roots(p))[k].head
    ensures k < |Roots(p)| && OnHead(s, p, w, Roots(p)[k])
  {
    OpenIsUnresolved(s, p, c, k);
    assert Roots(p)[k] in Roots(p);
  }

  /**
   * What the running step chooses for a head the store accepts in that head's status: a proposed task is approved,
   * a finished one reviewed, an accepted repair resolved, an interrupted run recovered, and a cancelled run
   * requeued. Only a repair may still be refused.
   */
  lemma {:induction false} ChosenIsAllowed(s: Snapshot, p: Plan, c: Control, w: Work, k: nat)
    requires RootsSound(s, p) && OpenAt(s, c, Settle(s, p, c, Roots(p)), k) && !w.Repairing?
    requires var h := HeadCommand(s, c, Settle(s, p, c, Roots(p))[k].head); h.Some? && WorkOf(h.value) == Some(w)
    ensures Allowed(s, w) && w.id == Settle(s, p, c, Roots(p))[k].head
    ensures w.Recovering? ==> w.id in c.recoverable
    ensures w.Requeueing? ==> w.id in p.retryCancelled
  {
    OpenIsUnresolved(s, p, c, k);
    var f := Settle(s, p, c, Roots(p))[k];
    HeadExists(s, f.root, |s.tasks|);
    assert RepairRoot(s, f.root) == Some(f.root);
    assert Resolution(s, f.head) == Resolution(s, f.root);
  }

  /** Every head of an open family that the store would let go on has its command, and it is the one the store accepts. */
  lemma {:induction false} AllowedIsChosen(s: Snapshot, c: Control, w: Work)
    requires Allowed(s, w) && !w.Launching? && !w.Finishing? && (w.Recovering? ==> w.id in c.recoverable)
    ensures HeadCommand(s, c, w.id).Some? && WorkOf(HeadCommand(s, c, w.id).value) == Some(w)
  {
  }

  /** An approved head of an open family that no worker has, and whose dependencies all have results. */
  predicate OnlyWaits(s: Snapshot, c: Control, f: Family) {
    f.settled.Active? && 1 <= f.head <= |s.tasks| && s.tasks[f.head - 1].status.Approved? && f.head !in c.workers
    && forall dep | dep in s.tasks[f.head - 1].dependencies :: Sourced(s, dep)
  }

  /** Dispatch is asked for exactly when no family has a command of its own, it is off, and a head waits only for it. */
  lemma {:induction false} DispatchIsAskedWhenNeeded(s: Snapshot, c: Control, fs: seq<Family>)
    ensures NextCommand(s, c, fs) == Some(DispatchOn) <==>
            && (forall k | 0 <= k < |fs| :: !Asks(s, c, fs, k))
            && !c.enabled && exists i | 0 <= i < |fs| :: OnlyWaits(s, c, fs[i])
    ensures NextCommand(s, c, fs).Some? && NextCommand(s, c, fs) != Some(DispatchOn) ==>
              exists k: nat :: Asks(s, c, fs, k) && NextCommand(s, c, fs) == HeadCommand(s, c, fs[k].head)
                          && forall j | 0 <= j < k :: !Asks(s, c, fs, j)
  {
    assert forall i | 0 <= i < |fs| :: OnlyWaits(s, c, fs[i]) <==> Ready(s, c, fs[i]);
    if FirstCommand(s, c, fs, 0).Some? {
      var k := CommandIsOnOpenFamily(s, c, fs, 0);
      assert Asks(s, c, fs, k);
    } else {
      forall k | 0 <= k < |fs| ensures !Asks(s, c, fs, k) {
        if OpenAt(s, c, fs, k) { NoCommandAnywhere(s, c, fs, 0, k); }
      }
    }
  }

  /** Every step of the loop works on the head of an unresolved family, and repairs below the limit. */
  lemma {:induction false} LoopStepIsEffective(s: Snapshot, p: Plan, c: Control, w: Work)
    requires RootsSound(s, p) && LoopStep(s, p, c, w)
    ensures exists root :: OnHead(s, p, w, root) && (!w.Recovering? ==> Effective(s, p, w, root))
  {
    var fs := Settle(s, p, c, Roots(p));
    var k: nat;
    if w.Launching? || w.Finishing? {
      k :| 0 <= k < |fs| && OpenAt(s, c, fs, k) && fs[k].head == w.id;
    } else {
      k := CommandIsOnOpenFamily(s, c, fs, 0);
      if !w.Repairing? { ChosenIsAllowed(s, p, c, w, k); }
    }
    OpenWorkIsOnHead(s, p, c, w, k);
  }

  lemma {:induction false} RecoveryOfOne(s: Snapshot, p: Plan, id: nat, root: nat, other: nat)
    requires StoreSound(s) && OnHead(s, p, Recovering(id), root) && Has(s, other) && At(s, other).repairOf.None?
    ensures FamilyMeasure(Perform(s, Recovering(id)), p, other) <= FamilyMeasure(s, p, other) + (if other == root then 2 else 0)
  {
    StatusKeepsFamily(s, root, other, Cancelled, true, Other(id));
    HeadExists(s, root, |s.tasks|);
    HeadExists(s, other, |s.tasks|);
    if other != root { HeadsDiffer(s, root, other); }
  }

  /** A recovered run is to be run again: that adds at most two steps. */
  lemma {:induction false} RecoveryMeasure(s: Snapshot, p: Plan, id: nat, root: nat, roots: seq<nat>)
    requires StoreSound(s) && OnHead(s, p, Recovering(id), root)
    requires forall i | 0 <= i < |roots| :: Has(s, roots[i]) && At(s, roots[i]).repairOf.None?
    requires forall i, j | 0 <= i < j < |roots| :: roots[i] != roots[j]
    ensures Measure(Perform(s, Recovering(id)), p, roots) <= Measure(s, p, roots) + (if root in roots then 2 else 0)
  {
    if |roots| > 0 {
      var n := |roots| - 1;
      RecoveryMeasure(s, p, id, root, roots[..n]);
      RecoveryOfOne(s, p, id, root, roots[n]);
    }
  }

  /** A run of the loop, each step decided in the controller's view of that moment. */
  predicate LoopRuns(s: Snapshot, p: Plan, steps: seq<(Control, Work)>)
    decreases |steps|
  {
    |steps| == 0
    || (LoopStep(s, p, steps[0].0, steps[0].1) && Allowed(s, steps[0].1)
        && LoopRuns(Perform(s, steps[0].1), p, steps[1..]))
  }

  /** The runs of an earlier process that these steps recover. */
  function Recoveries(steps: seq<(Control, Work)>): nat
    decreases |steps|
  {
    if |steps| == 0 then 0 else (if steps[0].1.Recovering? then 1 else 0) + Recoveries(steps[1..])
  }

  /**
   * However views, workers and dispatch change between its steps, the loop takes at most `Measure` of them, and
   * three more for every run of an earlier process it recovers.
   */
  lemma {:induction false} LoopComesToAnEnd(s: Snapshot, p: Plan, steps: seq<(Control, Work)>)
    requires StoreSound(s) && RootsSound(s, p) && LoopRuns(s, p, steps)
    ensures |steps| <= Measure(s, p, Roots(p)) + 3 * Recoveries(steps)
    decreases |steps|
  {
    if |steps| > 0 {
      var w := steps[0].1;
      LoopStepIsEffective(s, p, steps[0].0, w);
      var root :| OnHead(s, p, w, root) && (!w.Recovering? ==> Effective(s, p, w, root));
      if w.Recovering? { RecoveryMeasure(s, p, w.id, root, Roots(p)); } else { MeasureDrops(s, p, w, root, Roots(p)); }
      WorkKeepsStore(s, w);
      WorkKeepsRoots(s, p, w);
      LoopComesToAnEnd(Perform(s, w), p, steps[1..]);
    }
  }

  // ------------------------------------------------------ what a settlement means

  /** Something can still happen to this head without the owner. */
  predicate CanGoOn(s: Snapshot, p: Plan, c: Control, earlier: seq<Family>, root: nat, head: nat)
    requires Has(s, head)
  {
    var task := At(s, head);
    || task.status.ReviewReady? || task.status.Accepted?
    || (task.status.Running? && (head in c.workers || head in c.recoverable))
    || (task.status.Failed? && Repairs(s, root) < Limit(p, root))
    || (task.status.Cancelled? && task.run && head in p.retryCancelled)
    || ((task.status.Proposed? || task.status.Approved?)
        && (forall dep | dep in task.dependencies :: !BlockedBy(s, earlier, dep))
        && (task.status.Approved? && head !in c.workers && LatestApproval(s, head).Some? && head in c.attempts
            ==> c.attempts[head] != LatestApproval(s, head).value))
  }

  /**
   * A family is open exactly while the owner holds it or it is unresolved and its head can go on; it has
   * succeeded exactly if it is resolved; and it waits for a resume exactly if its run was cancelled.
   */
  lemma {:induction false} SettledExactlyWhen(s: Snapshot, p: Plan, c: Control, earlier: seq<Family>, root: nat)
    requires Has(s, root) && At(s, root).repairOf.None? && Has(s, Head(s, root))
    ensures var settled, head := SettleFamily(s, p, c, earlier, root), Head(s, root);
            && (settled.Active? <==> root in c.held || (!Done(s, root) && CanGoOn(s, p, c, earlier, root, head)))
            && (settled.Success? <==> root !in c.held && Done(s, root))
            && (settled.CancelledRun? <==>
                  && root !in c.held && !Done(s, root)
                  && At(s, head).status.Cancelled? && At(s, head).run && head !in p.retryCancelled)
  {
  }

  /** The budget in numbers: 8 steps for every repair allowed, and 6 for the original attempt. */
  lemma {:induction false} MeasureBound(s: Snapshot, p: Plan, roots: seq<nat>, limit: nat)
    requires forall i | 0 <= i < |roots| :: Limit(p, roots[i]) <= limit
    ensures Measure(s, p, roots) <= |roots| * (8 * limit + 6)
  {
    if |roots| > 0 {
      var front, step := roots[..|roots| - 1], 8 * limit + 6;
      MeasureBound(s, p, front, limit);
      OneFamilyBound(s, p, roots[|roots| - 1], limit);
      Distribute(|front|, step);
    }
  }

  lemma {:induction false} OneFamilyBound(s: Snapshot, p: Plan, root: nat, limit: nat)
    requires Limit(p, root) <= limit
    ensures FamilyMeasure(s, p, root) <= 8 * limit + 6
  {
  }

  lemma {:induction false} Distribute(n: nat, step: nat)
    ensures (n + 1) * step == n * step + step
  {
  }

  /** A repair that spent something of its family's limit: its parent failed, and it was not cancelled before it started. */
  predicate SpentRepair(s: Snapshot, root: nat, id: nat) {
    && 1 <= id <= |s.tasks| && RepairRoot(s, id) == Some(root)
    && (s.tasks[id - 1].status.Cancelled? ==> s.tasks[id - 1].run)
    && s.tasks[id - 1].repairOf.Some? && 1 <= s.tasks[id - 1].repairOf.value <= |s.tasks|
    && s.tasks[s.tasks[id - 1].repairOf.value - 1].status.Failed?
  }

  function SpentRepairs(s: Snapshot, root: nat, n: nat): set<nat> { set id | 1 <= id <= n && SpentRepair(s, root, id) }

  lemma {:induction false} SpentUpto(s: Snapshot, root: nat, n: nat)
    requires n <= |s.tasks|
    ensures RepairsUpto(s, root, n) == |SpentRepairs(s, root, n)|
  {
    if n > 0 {
      SpentUpto(s, root, n - 1);
      OneMoreSpent(s, root, n);
      CountedIsSpent(s, root, n);
    } else {
      assert SpentRepairs(s, root, 0) == {};
    }
  }

  lemma {:induction false} OneMoreSpent(s: Snapshot, root: nat, n: nat)
    requires n > 0
    ensures |SpentRepairs(s, root, n)| == |SpentRepairs(s, root, n - 1)| + (if SpentRepair(s, root, n) then 1 else 0)
  {
    assert SpentRepairs(s, root, n) == SpentRepairs(s, root, n - 1) + (if SpentRepair(s, root, n) then {n} else {});
  }

  lemma {:induction false} CountedIsSpent(s: Snapshot, root: nat, n: nat)
    ensures Counted(s, root, n) <==> SpentRepair(s, root, n)
  {
  }

  /** What counts against a limit are the repairs of a failed task that were not cancelled before they started. */
  lemma {:induction false} RepairsAreCounted(s: Snapshot, root: nat)
    ensures Repairs(s, root) == |SpentRepairs(s, root, |s.tasks|)|
  {
    SpentUpto(s, root, |s.tasks|);
  }

  /** A family that succeeded names an accepted task of its own: the recorded resolution, or else its root. */
  lemma {:induction false} SuccessNamesItsResult(s: Snapshot, p: Plan, c: Control, earlier: seq<Family>, root: nat)
    requires StoreSound(s) && Has(s, root) && At(s, root).repairOf.None? && SettleFamily(s, p, c, earlier, root).Success?
    ensures var source := SettleFamily(s, p, c, earlier, root).source;
            && Has(s, source) && At(s, source).status.Accepted? && RepairRoot(s, source) == Some(root)
            && (Resolution(s, root).Some? ==> source == Resolution(s, root).value)
            && (Resolution(s, root).None? ==> source == root)
  {
    assert RepairRoot(s, root) == Some(root);
    if Resolution(s, root).Some? {
      var t := Resolution(s, root).value;
      var k :| 0 <= k < |s.receipts| && s.receipts[k] == ResolveRepair(t);
    }
  }

  /** An accepted task stands in for a dependency: it is the dependency, or a repair of it that resolved it. */
  predicate StandsFor(s: Snapshot, source: nat, dep: nat) {
    && Has(s, source) && At(s, source).status.Accepted?
    && (source == dep || (Ancestor(s, source, dep) && exists k | 0 <= k < |s.receipts| :: s.receipts[k] == ResolveRepair(source)))
  }

  /**
   * What dispatch launches is approved with a policy and not yet tried since, has no worker, is not barred, its
   * family is not resolved by a repair, and for every dependency there is an accepted result.
   */
  lemma {:induction false} LaunchIsSafe(s: Snapshot, c: Control, id: nat, dep: nat)
    requires NextMatching(s, c, 1) == Some(id)
    ensures c.enabled && Has(s, id) && At(s, id).status.Approved? && At(s, id).policy
    ensures id !in c.workers && id !in c.barred && (At(s, id).repairOf.Some? ==> Resolution(s, id).None?)
    ensures LatestApproval(s, id).Some? && (id in c.attempts ==> c.attempts[id] != LatestApproval(s, id).value)
    ensures dep in At(s, id).dependencies ==> exists source :: StandsFor(s, source, dep)
  {
    if dep in At(s, id).dependencies {
      assert Sourced(s, dep);
      if At(s, dep).status.Accepted? { assert StandsFor(s, dep, dep); } else { assert StandsFor(s, ResolvedByFrom(s, dep, 0).value, dep); }
    }
  }

  /** And an earlier task that meets all this is launched before it; if any does, something is launched. */
  lemma {:induction false} ReadyIsLaunched(s: Snapshot, c: Control, id: nat)
    requires c.enabled && Has(s, id) && At(s, id).status.Approved? && At(s, id).policy
    requires id !in c.workers && id !in c.barred && (At(s, id).repairOf.Some? ==> Resolution(s, id).None?)
    requires LatestApproval(s, id).Some? && (id in c.attempts ==> c.attempts[id] != LatestApproval(s, id).value)
    requires forall dep | dep in At(s, id).dependencies :: Has(s, dep) && At(s, dep).status.Accepted?
    ensures NextMatching(s, c, 1).Some? && NextMatching(s, c, 1).value <= id
  {
    assert forall dep | dep in At(s, id).dependencies :: Sourced(s, dep);
    assert Launchable(s, c, id);
  }
}
