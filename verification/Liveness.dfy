/** The running phase of a run never deadlocks, and every step it takes uses up a finite budget. */
module Liveness {
  import opened Families

  // ----------------------------------------------------------- the store's rules

  predicate LineageSound(s: Snapshot) {
    forall id | 1 <= id <= |s.tasks| ::
      && (At(s, id).repairOf.Some? ==> 1 <= At(s, id).repairOf.value < id)
      && (forall dep | dep in At(s, id).dependencies :: 1 <= dep < id)
  }

  /** A resolution names an accepted repair; an approved task has its approval receipt. */
  predicate ReceiptsSound(s: Snapshot) {
    && (forall k | 0 <= k < |s.receipts| && s.receipts[k].ResolveRepair? ::
          Has(s, s.receipts[k].task) && At(s, s.receipts[k].task).status.Accepted?
          && At(s, s.receipts[k].task).repairOf.Some?)
    && (forall id | 1 <= id <= |s.tasks| && At(s, id).status.Approved? :: LatestApproval(s, id).Some?)
  }

  predicate StoreSound(s: Snapshot) { LineageSound(s) && ReceiptsSound(s) }

  lemma {:induction false} RootReached(s: Snapshot, id: nat)
    requires LineageSound(s) && Has(s, id)
    ensures RepairRoot(s, id).Some?
    ensures RepairRoot(s, id) != Some(id) ==> Ancestor(s, id, RepairRoot(s, id).value)
    decreases id
  {
    if At(s, id).repairOf.Some? { RootReached(s, At(s, id).repairOf.value); }
  }

  /** A family that succeeded supplies its root as a dependency. */
  lemma {:induction false} SuccessIsSourced(s: Snapshot, root: nat)
    requires StoreSound(s) && Has(s, root) && At(s, root).repairOf.None?
    requires Resolution(s, root).Some? || At(s, root).status.Accepted?
    ensures Sourced(s, root)
  {
    if !At(s, root).status.Accepted? {
      var t := Resolution(s, root).value;
      var k :| 0 <= k < |s.receipts| && s.receipts[k] == ResolveRepair(t);
      RootReached(s, t);
      assert Ancestor(s, t, root);
      var source := ResolvedByFrom(s, root, 0);
      assert source.Some?;
      var m :| 0 <= m < |s.receipts| && s.receipts[m] == ResolveRepair(source.value);
    }
  }

  // ------------------------------------------------------------- no deadlock

  /** Every family of the run exists, has its policy, and depends on sourced tasks or earlier families of the run. */
  predicate RunSound(s: Snapshot, p: Plan) {
    forall i | 0 <= i < |Roots(p)| ::
      var root := Roots(p)[i];
      && Has(s, root) && At(s, root).repairOf.None?
      && At(s, Head(s, root)).policy
      && forall dep | dep in At(s, Head(s, root)).dependencies ::
           Sourced(s, dep) || (Has(s, dep) && At(s, dep).repairOf.None? && dep in Roots(p)[..i])
  }

  lemma {:induction false} HeadExists(s: Snapshot, root: nat, n: nat)
    requires Has(s, root) && At(s, root).repairOf.None? && n <= |s.tasks|
    ensures Has(s, HeadUpto(s, root, n)) && RepairRoot(s, HeadUpto(s, root, n)) == Some(root)
    ensures forall id | HeadUpto(s, root, n) < id <= n :: RepairRoot(s, id) != Some(root)
  {
    if n > 0 { HeadExists(s, root, n - 1); }
  }

  lemma {:induction false} SettleAt(s: Snapshot, p: Plan, c: Control, roots: seq<nat>, i: nat)
    requires i < |roots| && forall k | 0 <= k < |roots| :: Has(s, roots[k])
    ensures var fs := Settle(s, p, c, roots);
            && |fs| == |roots|
            && fs[..i] == Settle(s, p, c, roots[..i])
            && fs[i] == Family(roots[i], Head(s, roots[i]), SettleFamily(s, p, c, fs[..i], roots[i]), Repairs(s, roots[i]))
    decreases |roots|
  {
    var n := |roots| - 1;
    var front := roots[..n];
    assert forall k | 0 <= k < n :: front[k] == roots[k];
    SettleLength(s, p, c, front);
    if i < n {
      SettleAt(s, p, c, front, i);
      assert front[..i] == roots[..i];
      assert Settle(s, p, c, roots)[..i] == Settle(s, p, c, front)[..i];
    } else {
      assert Settle(s, p, c, roots)[..n] == Settle(s, p, c, front);
    }
  }

  lemma {:induction false} SettleLength(s: Snapshot, p: Plan, c: Control, roots: seq<nat>)
    requires forall k | 0 <= k < |roots| :: Has(s, roots[k])
    ensures |Settle(s, p, c, roots)| == |roots|
    ensures forall k | 0 <= k < |roots| :: Settle(s, p, c, roots)[k].root == roots[k]
  {
    if |roots| > 0 { SettleLength(s, p, c, roots[..|roots| - 1]); }
  }

  lemma {:induction false} NoCommandAnywhere(s: Snapshot, c: Control, fs: seq<Family>, i: nat, k: nat)
    requires i <= k < |fs| && FirstCommand(s, c, fs, i).None?
    requires fs[k].settled.Active? && fs[k].root !in c.held && Has(s, fs[k].head)
    ensures HeadCommand(s, c, fs[k].head).None?
    decreases k - i
  {
    if i < k { NoCommandAnywhere(s, c, fs, i + 1, k); }
  }

  /** Nothing runs, nothing is asked for, nothing may be launched, and the owner holds nothing. */
  ghost predicate Idle(s: Snapshot, p: Plan, c: Control) {
    && c.workers == {} && c.held == {}
    && NextCommand(s, c, Settle(s, p, c, Roots(p))).None?
    && forall id :: !Launchable(s, c, id)
  }

  /** The dependency of an open family whose own family is not done either. */
  predicate WaitsOn(s: Snapshot, fs: seq<Family>, i: nat, dep: nat)
    requires i < |fs|
  {
    && Has(s, fs[i].head) && dep in At(s, fs[i].head).dependencies
    && exists j | 0 <= j < i :: fs[j].root == dep && (fs[j].settled.Active? || fs[j].settled.CancelledRun?)
  }

  /** Only the architecture review or the scope keeps this head from being launched. */
  predicate IsBarred(s: Snapshot, c: Control, f: Family) {
    Has(s, f.head) && At(s, f.head).status.Approved? && f.head in c.barred
  }

  /** In an idle state an open family is barred or waits on an unsettled dependency: stuck ones pass their state on. */
  lemma {:induction false} OpenFamilyWaits(s: Snapshot, p: Plan, c: Control, i: nat)
    requires StoreSound(s) && RunSound(s, p) && Idle(s, p, c)
    requires i < |Roots(p)|
    ensures var fs := Settle(s, p, c, Roots(p));
            |fs| == |Roots(p)|
            && (fs[i].settled.Active? ==> IsBarred(s, c, fs[i]) || exists dep :: WaitsOn(s, fs, i, dep))
  {
    var roots := Roots(p);
    var fs := Settle(s, p, c, roots);
    SettleAt(s, p, c, roots, i);
    if fs[i].settled.Active? {
      var root, head := roots[i], Head(s, roots[i]);
      HeadExists(s, root, |s.tasks|);
      NoCommandAnywhere(s, c, fs, 0, i);
      var task := At(s, head);
      HeadIsApproved(s, p, c, fs[..i], root);
      if head !in c.barred {
        if forall dep | dep in task.dependencies :: Sourced(s, dep) { SourcedIsOffered(s, c, fs[i]); }
        var dep :| dep in task.dependencies && !Sourced(s, dep);
        UnsourcedIsUnsettled(s, p, c, i, dep);
      }
    }
  }

  /** An approved head whose dependencies are all sourced is offered to dispatch, or dispatch is asked for. */
  lemma {:induction false} SourcedIsOffered(s: Snapshot, c: Control, f: Family)
    requires ReceiptsSound(s) && c.workers == {} && f.settled.Active? && Has(s, f.head)
    requires RepairRoot(s, f.head) == Some(f.root) && RepairRoot(s, f.root) == Some(f.root) && Resolution(s, f.root).None?
    requires At(s, f.head).status.Approved? && At(s, f.head).policy && !LaunchSpent(s, c, f.head)
    requires forall dep | dep in At(s, f.head).dependencies :: Sourced(s, dep)
    ensures Ready(s, c, f)
    ensures c.enabled && f.head !in c.barred ==> Launchable(s, c, f.head)
  {
    assert LatestApproval(s, f.head).Some?;
  }

  /** The only open head without a command of its own is an approved one that nothing blocks. */
  lemma {:induction false} HeadIsApproved(s: Snapshot, p: Plan, c: Control, earlier: seq<Family>, root: nat)
    requires Has(s, root) && At(s, root).repairOf.None? && c.held == {} && c.workers == {}
    requires Has(s, Head(s, root)) && RepairRoot(s, Head(s, root)) == Some(root) && At(s, Head(s, root)).policy
    requires SettleFamily(s, p, c, earlier, root).Active? && HeadCommand(s, c, Head(s, root)).None?
    ensures At(s, Head(s, root)).status.Approved?
    ensures !IsBlocked(s, earlier, At(s, Head(s, root))) && !LaunchSpent(s, c, Head(s, root))
    ensures Resolution(s, root).None?
  {
  }

  lemma {:induction false} SucceededIsSourced(s: Snapshot, p: Plan, c: Control, earlier: seq<Family>, root: nat)
    requires StoreSound(s) && c.held == {} && Has(s, root) && At(s, root).repairOf.None?
    requires SettleFamily(s, p, c, earlier, root).Success?
    ensures Sourced(s, root)
  {
    SuccessIsSourced(s, root);
  }

  lemma {:induction false} UnsourcedIsUnsettled(s: Snapshot, p: Plan, c: Control, i: nat, dep: nat)
    requires StoreSound(s) && RunSound(s, p) && c.held == {} && i < |Roots(p)|
    requires |Settle(s, p, c, Roots(p))| == |Roots(p)| && Has(s, Head(s, Roots(p)[i]))
    requires Settle(s, p, c, Roots(p))[i].head == Head(s, Roots(p)[i])
    requires dep in At(s, Head(s, Roots(p)[i])).dependencies && !Sourced(s, dep)
    requires !IsBlocked(s, Settle(s, p, c, Roots(p))[..i], At(s, Head(s, Roots(p)[i])))
    ensures WaitsOn(s, Settle(s, p, c, Roots(p)), i, dep)
  {
    var roots := Roots(p);
    var fs := Settle(s, p, c, roots);
    SettleLength(s, p, c, roots);
    assert dep in roots[..i] && At(s, dep).repairOf.None?;
    var at :| 0 <= at < i && roots[..i][at] == dep;
    assert fs[..i][at].root == dep;
    var j := FindFamily(fs[..i], dep).value;
    assert !BlockedBy(s, fs[..i], dep);
    assert fs[..i][j] == fs[j];
    SettleAt(s, p, c, roots, j);
    if fs[j].settled.Success? { SucceededIsSourced(s, p, c, fs[..j], dep); }
  }

  /** This open family cannot go on by itself: it is barred, or it depends on a run the owner cancelled. */
  predicate Held(s: Snapshot, c: Control, fs: seq<Family>, k: nat)
    requires k < |fs|
  {
    && fs[k].settled.Active?
    && (IsBarred(s, c, fs[k])
        || (Has(s, fs[k].head)
            && exists j | 0 <= j < k :: fs[j].settled.CancelledRun? && fs[j].root in At(s, fs[k].head).dependencies))
  }

  lemma {:induction false} FirstOpenIsHeld(s: Snapshot, p: Plan, c: Control, i: nat)
    requires StoreSound(s) && RunSound(s, p) && Idle(s, p, c)
    requires i < |Roots(p)| == |Settle(s, p, c, Roots(p))| && Settle(s, p, c, Roots(p))[i].settled.Active?
    ensures exists k | 0 <= k < |Settle(s, p, c, Roots(p))| :: Held(s, c, Settle(s, p, c, Roots(p)), k)
    decreases i
  {
    var fs := Settle(s, p, c, Roots(p));
    OpenFamilyWaits(s, p, c, i);
    if IsBarred(s, c, fs[i]) {
      assert Held(s, c, fs, i);
    } else {
      var dep :| WaitsOn(s, fs, i, dep);
      var j :| 0 <= j < i && fs[j].root == dep && (fs[j].settled.Active? || fs[j].settled.CancelledRun?);
      if fs[j].settled.Active? { FirstOpenIsHeld(s, p, c, j); } else { assert Held(s, c, fs, i); }
    }
  }

  /**
   * No deadlock: when the loop has nothing to do, every family is settled, unless an open family is barred by
   * the architecture review or the scope, or depends on one whose run the owner cancelled and has not resumed.
   */
  lemma {:induction false} IdleMeansSettled(s: Snapshot, p: Plan, c: Control)
    requires StoreSound(s) && RunSound(s, p) && Idle(s, p, c)
    ensures var fs := Settle(s, p, c, Roots(p));
            (forall i | 0 <= i < |fs| :: !fs[i].settled.Active?) <==> !(exists k | 0 <= k < |fs| :: Held(s, c, fs, k))
  {
    var fs := Settle(s, p, c, Roots(p));
    SettleLength(s, p, c, Roots(p));
    if i :| 0 <= i < |fs| && fs[i].settled.Active? { FirstOpenIsHeld(s, p, c, i); }
  }

  /** A repair is asked for only while the family's counted repairs are below its limit. */
  lemma {:induction false} RepairOnlyWithinLimit(s: Snapshot, p: Plan, c: Control, fs: seq<Family>, i: nat, h: nat)
    requires i <= |fs| && FirstCommand(s, c, fs, i) == Some(RepairTask(h))
    ensures exists k | i <= k < |fs| :: fs[k].head == h && fs[k].settled.Active? && fs[k].root !in c.held && Has(s, h) && At(s, h).status.Failed?
    decreases |fs| - i
  {
    var f := fs[i];
    var command := if f.settled.Active? && f.root !in c.held && Has(s, f.head) then HeadCommand(s, c, f.head) else None;
    if command.None? {
      RepairOnlyWithinLimit(s, p, c, fs, i + 1, h);
    } else {
      assert fs[i].head == h;
    }
  }

  lemma {:induction false} OpenFailureIsBelowLimit(s: Snapshot, p: Plan, c: Control, earlier: seq<Family>, root: nat)
    requires root !in c.held && Has(s, root) && Has(s, Head(s, root)) && At(s, Head(s, root)).status.Failed?
    requires SettleFamily(s, p, c, earlier, root).Active?
    ensures Repairs(s, root) < Limit(p, root)
  {
  }

  lemma {:induction false} RepairsStayBelowLimit(s: Snapshot, p: Plan, c: Control, h: nat)
    requires forall k | 0 <= k < |Roots(p)| :: Has(s, Roots(p)[k])
    requires FirstCommand(s, c, Settle(s, p, c, Roots(p)), 0) == Some(RepairTask(h))
    ensures exists root | root in Roots(p) :: Head(s, root) == h && Repairs(s, root) < Limit(p, root)
  {
    var roots := Roots(p);
    var fs := Settle(s, p, c, roots);
    RepairOnlyWithinLimit(s, p, c, fs, 0, h);
    var k :| 0 <= k < |fs| && fs[k].head == h && fs[k].settled.Active? && fs[k].root !in c.held && Has(s, h) && At(s, h).status.Failed?;
    SettleLength(s, p, c, roots);
    SettleAt(s, p, c, roots, k);
    OpenFailureIsBelowLimit(s, p, c, fs[..k], roots[k]);
    assert roots[k] in roots;
  }

  // ----------------------------------------------------- what a run is made of

  lemma {:induction false} AboveMeans(ids: seq<nat>, low: nat, id: nat)
    ensures id in Above(ids, low) <==> id in ids && id >= low
  {
    if |ids| > 0 {
      AboveMeans(ids[..|ids| - 1], low, id);
      assert id in ids <==> id in ids[..|ids| - 1] || id == ids[|ids| - 1];
    }
  }

  /** The families of a run are its planned tasks and the follow-ups adopted after them. */
  lemma {:induction false} RootsAre(p: Plan, id: nat)
    ensures id in Roots(p) <==> p.first <= id < p.first + p.count || (id in p.adopted && id >= p.first + p.count)
  {
    AboveMeans(p.adopted, p.first + p.count, id);
    var planned := seq(p.count, i requires 0 <= i < p.count => p.first + i);
    if p.first <= id < p.first + p.count { assert planned[id - p.first] == id; }
    assert id in Roots(p) <==> id in planned || id in Above(p.adopted, p.first + p.count);
  }

  /** The approval that counts is the last one the ledger holds for the task. */
  lemma {:induction false} LatestApprovalIsLast(s: Snapshot, id: nat, n: nat)
    requires n <= |s.receipts|
    ensures var approves := (k: nat) requires k < |s.receipts| => s.receipts[k] == Approve(id) || s.receipts[k] == Requeue(id);
            match Approval(s, id, n)
            case None => forall k: nat | k < n :: !approves(k)
            case Some(r) => 1 <= r <= n && approves(r - 1) && forall k: nat | r <= k < n :: !approves(k)
  {
    if n > 0 { LatestApprovalIsLast(s, id, n - 1); }
  }
}
