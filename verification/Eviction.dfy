/** Eviction drops exactly the shortest oldest-first prefix of the evictable entries that makes the history fit. */
module Eviction {
  import opened Commands
  import opened History

  // ------------------------------------------------------------ subsequences

  predicate Ascending(ks: seq<nat>) {
    forall i, j | 0 <= i < j < |ks| :: ks[i] < ks[j]
  }

  lemma {:induction false} SurvivorsAscend(n: nat, drop: seq<nat>)
    ensures Ascending(Survivors(n, drop))
  {
    if n > 0 { SurvivorsAscend(n - 1, drop); }
  }

  lemma {:induction false} SurvivorsComplete(n: nat, drop: seq<nat>, i: nat)
    requires i < n && i !in drop
    ensures i in Survivors(n, drop)
  {
    if i < n - 1 { SurvivorsComplete(n - 1, drop, i); }
  }

  lemma {:induction false} AtSnoc(cs: seq<Command>, ks: seq<nat>, x: nat)
    requires x < |cs| && forall i | 0 <= i < |ks| :: ks[i] < |cs|
    ensures TotalSize(At(cs, ks + [x])) == TotalSize(At(cs, ks)) + Size(cs[x])
  {
    assert At(cs, ks + [x])[..|ks|] == At(cs, ks);
  }

  lemma {:induction false} DropLast(n: nat, drop: seq<nat>)
    requires n > 0 && n - 1 !in drop
    ensures Survivors(n, drop) == Survivors(n - 1, drop) + [n - 1]
    ensures Survivors(n, drop + [n - 1]) == Survivors(n - 1, drop)
  {
    DropOutside(n - 1, drop, n - 1);
  }

  /** One more dropped index leaves one survivor fewer and its size less. */
  lemma {:induction false} DropOne(cs: seq<Command>, n: nat, drop: seq<nat>, i: nat)
    requires i < n <= |cs| && i !in drop
    ensures |Survivors(n, drop)| == |Survivors(n, drop + [i])| + 1
    ensures TotalSize(At(cs, Survivors(n, drop))) == TotalSize(At(cs, Survivors(n, drop + [i]))) + Size(cs[i])
  {
    var a := Survivors(n - 1, drop);
    if i == n - 1 {
      DropLast(n, drop);
      AtSnoc(cs, a, i);
    } else {
      DropOne(cs, n - 1, drop, i);
      DropOneStep(cs, n, drop, i);
    }
  }

  lemma {:induction false} OneMoreEach(cs: seq<Command>, a: seq<nat>, b: seq<nat>, x: nat, i: nat)
    requires x < |cs| && i < |cs|
    requires (forall k | 0 <= k < |a| :: a[k] < |cs|) && (forall k | 0 <= k < |b| :: b[k] < |cs|)
    requires TotalSize(At(cs, a)) == TotalSize(At(cs, b)) + Size(cs[i])
    ensures TotalSize(At(cs, a + [x])) == TotalSize(At(cs, b + [x])) + Size(cs[i])
  {
    AtSnoc(cs, a, x);
    AtSnoc(cs, b, x);
  }

  lemma {:induction false} SurvivorsStep(n: nat, drop: seq<nat>)
    requires n > 0
    ensures n - 1 in drop ==> Survivors(n, drop) == Survivors(n - 1, drop)
    ensures n - 1 !in drop ==> Survivors(n, drop) == Survivors(n - 1, drop) + [n - 1]
  {
  }

  /** Dropping one more leaves one entry less, and its bytes less. */
  predicate OneLess(cs: seq<Command>, a: seq<nat>, b: seq<nat>, i: nat)
    requires i < |cs| && (forall k | 0 <= k < |a| :: a[k] < |cs|) && (forall k | 0 <= k < |b| :: b[k] < |cs|)
  {
    |a| == |b| + 1 && TotalSize(At(cs, a)) == TotalSize(At(cs, b)) + Size(cs[i])
  }

  lemma {:induction false} OneLessStep(cs: seq<Command>, n: nat, drop: seq<nat>, more: seq<nat>, i: nat)
    requires 0 < n <= |cs| && i < |cs| && (n - 1 in drop <==> n - 1 in more)
    requires OneLess(cs, Survivors(n - 1, drop), Survivors(n - 1, more), i)
    ensures OneLess(cs, Survivors(n, drop), Survivors(n, more), i)
  {
    SurvivorsStep(n, drop);
    SurvivorsStep(n, more);
    if n - 1 !in drop { OneMoreEach(cs, Survivors(n - 1, drop), Survivors(n - 1, more), n - 1, i); }
  }

  lemma {:induction false} DropOneStep(cs: seq<Command>, n: nat, drop: seq<nat>, i: nat)
    requires i < n - 1 < |cs| && i !in drop
    requires |Survivors(n - 1, drop)| == |Survivors(n - 1, drop + [i])| + 1
    requires TotalSize(At(cs, Survivors(n - 1, drop)))
             == TotalSize(At(cs, Survivors(n - 1, drop + [i]))) + Size(cs[i])
    ensures |Survivors(n, drop)| == |Survivors(n, drop + [i])| + 1
    ensures TotalSize(At(cs, Survivors(n, drop))) == TotalSize(At(cs, Survivors(n, drop + [i]))) + Size(cs[i])
  {
    OneLessStep(cs, n, drop, drop + [i], i);
  }

  /** Dropping an index at or above the bound changes nothing. */
  lemma {:induction false} DropOutside(n: nat, drop: seq<nat>, i: nat)
    requires n <= i
    ensures Survivors(n, drop + [i]) == Survivors(n, drop)
  {
    if n > 0 { DropOutside(n - 1, drop, i); }
  }

  lemma {:induction false} DropNothing(cs: seq<Command>, n: nat)
    requires n <= |cs|
    ensures Survivors(n, []) == seq(n, i requires 0 <= i < n => i)
    ensures At(cs, Survivors(n, [])) == cs[..n]
  {
    if n > 0 { DropNothing(cs, n - 1); }
  }

  // -------------------------------------------------------------- candidates

  lemma {:induction false} VictimsAscend(h: Log, n: nat)
    requires n <= |h.commands|
    ensures Ascending(Victims(h, n))
    ensures forall k | 0 <= k < |Victims(h, n)| :: Evictable(h, Victims(h, n)[k])
  {
    if n > 0 { VictimsAscend(h, n - 1); }
  }

  lemma {:induction false} VictimsComplete(h: Log, n: nat, i: nat)
    requires i < n <= |h.commands| && Evictable(h, i)
    ensures i in Victims(h, n)
  {
    if i < n - 1 {
      VictimsComplete(h, n - 1, i);
      assert i in Victims(h, n - 1) && Victims(h, n - 1) <= Victims(h, n);
    } else {
      assert Victims(h, n) == Victims(h, n - 1) + [i];
    }
  }

  lemma {:induction false} VictimsPrefix(h: Log, m: nat, n: nat)
    requires m <= n <= |h.commands|
    ensures |Victims(h, m)| <= |Victims(h, n)| && Victims(h, n)[..|Victims(h, m)|] == Victims(h, m)
    decreases n
  {
    if m < n { VictimsPrefix(h, m, n - 1); }
  }

  // ------------------------------------------------------------- the minimum

  /** Removing one more candidate removes exactly that entry from count and bytes. */
  lemma {:induction false} AfterShrinks(h: Log, k: nat)
    requires |h.commands| > 0 && k < |Candidates(h)|
    ensures |After(h, k)| == |After(h, k + 1)| + 1
    ensures TotalSize(After(h, k)) == TotalSize(After(h, k + 1)) + Size(h.commands[Candidates(h)[k]])
  {
    var v := Candidates(h);
    VictimsAscend(h, |h.commands| - 1);
    assert v[..k + 1] == v[..k] + [v[k]];
    DropOne(h.commands, |h.commands|, v[..k], v[k]);
  }

  lemma {:induction false} FitsOnwards(h: Log, k: nat, m: nat)
    requires |h.commands| > 0 && k <= m <= |Candidates(h)| && WithinBudget(After(h, k))
    ensures WithinBudget(After(h, m))
    decreases m - k
  {
    if k < m {
      AfterShrinks(h, k);
      FitsOnwards(h, k + 1, m);
    }
  }

  lemma {:induction false} LeastIsLeast(h: Log, k: nat)
    requires |h.commands| > 0 && k <= |Candidates(h)|
    ensures k <= LeastFrom(h, k) <= |Candidates(h)| + 1
    ensures LeastFrom(h, k) <= |Candidates(h)| ==> WithinBudget(After(h, LeastFrom(h, k)))
    ensures forall m | k <= m < LeastFrom(h, k) && m <= |Candidates(h)| :: !WithinBudget(After(h, m))
    decreases |Candidates(h)| - k
  {
    if !WithinBudget(After(h, k)) && k < |Candidates(h)| { LeastIsLeast(h, k + 1); }
  }

  /**
   * What eviction does: it refuses exactly when dropping every candidate is not enough; otherwise it
   * drops the `k` oldest ones where `k` fits and no smaller number does.
   */
  lemma {:induction false} EvictsShortestPrefix(h: Log)
    requires |h.commands| > 0
    ensures Evict(h).None? <==> !WithinBudget(After(h, |Candidates(h)|))
    ensures Evict(h).Some? ==> exists k ::
              && 0 <= k <= |Candidates(h)|
              && Evict(h).value.commands == After(h, k)
              && Evict(h) == Some(Evicted(h, Candidates(h)[..k]))
              && WithinBudget(After(h, k))
              && forall m | 0 <= m < k :: !WithinBudget(After(h, m))
  {
    LeastIsLeast(h, 0);
    var least, all := LeastFrom(h, 0), |Candidates(h)|;
    if least <= all {
      FitsOnwards(h, least, all);
      assert Evict(h).value.commands == After(h, least);
      assert forall m | 0 <= m < least :: !WithinBudget(After(h, m));
    } else {
      assert !WithinBudget(After(h, all));
    }
  }

  // ------------------------------------------------------------ what survives

  /** Every entry outside the dropped prefix is still there, unchanged. */
  lemma {:induction false} SurvivorStays(cs: seq<Command>, drop: seq<nat>, i: nat)
    requires i < |cs| && i !in drop
    ensures cs[i] in Without(cs, drop)
  {
    var ks := Survivors(|cs|, drop);
    SurvivorsComplete(|cs|, drop, i);
    var k :| 0 <= k < |ks| && ks[k] == i;
    assert Without(cs, drop)[k] == cs[i];
  }

  /** No entry appears that was not there before. */
  lemma {:induction false} NothingAppears(cs: seq<Command>, drop: seq<nat>, c: Command)
    requires c in Without(cs, drop)
    ensures exists i | 0 <= i < |cs| :: i !in drop && cs[i] == c
  {
    var ks := Survivors(|cs|, drop);
    var k :| 0 <= k < |Without(cs, drop)| && Without(cs, drop)[k] == c;
    assert ks[k] !in drop && cs[ks[k]] == c;
  }

  /** Why eviction must keep an entry. */
  predicate Needed(h: Log, i: nat)
    requires i < |h.commands|
  {
    var c := h.commands[i];
    || c.state.Live()
    || i == |h.commands| - 1
    || c.intent.SelectionRequest().Some?
    || c.intent.Wayfinder?
    || (exists k | 0 <= k < |h.commands| :: NamedBy(c, h.commands[k]))
    || (h.planOrigin.Some? && c.intent.PlannerRequest() == h.planOrigin)
    || (LatestDispatch(h.commands) == Some(i) && Enabling(c))
  }

  lemma {:induction false} CandidateIsEvictable(h: Log, k: nat, i: nat)
    requires |h.commands| > 0 && k <= |Candidates(h)| && i in Candidates(h)[..k]
    ensures i < |h.commands| - 1 && Evictable(h, i)
  {
    VictimsAscend(h, |h.commands| - 1);
    var x :| 0 <= x < k && Candidates(h)[x] == i;
  }

  /** Live entries, parents, the plan origin, the enabling switch and the new entry survive every eviction. */
  lemma {:induction false} EvictionKeepsNeeded(h: Log, i: nat)
    requires i < |h.commands| && Evict(h).Some? && Needed(h, i)
    ensures h.commands[i] in Evict(h).value.commands
  {
    var drop := Candidates(h)[..LeastFrom(h, 0)];
    if i in drop { CandidateIsEvictable(h, LeastFrom(h, 0), i); }
    SurvivorStays(h.commands, drop, i);
  }

  /** Every dropped entry was settled and evictable when the eviction began. */
  lemma {:induction false} EvictionDropsOnlySettled(h: Log, i: nat)
    requires i < |h.commands| && Evict(h).Some? && h.commands[i] !in Evict(h).value.commands
    ensures i < |h.commands| - 1 && Evictable(h, i) && !h.commands[i].state.Live()
    ensures i in Candidates(h)[..LeastFrom(h, 0)]
  {
    var drop := Candidates(h)[..LeastFrom(h, 0)];
    if i !in drop { SurvivorStays(h.commands, drop, i); }
    CandidateIsEvictable(h, LeastFrom(h, 0), i);
  }

  // -------------------------------------------------------------- retirement

  lemma {:induction false} KeysCount(cs: seq<Command>)
    ensures |KeysOf(cs)| <= 2 * |cs|
  {
    if |cs| > 0 { KeysCount(cs[..|cs| - 1]); }
  }

  lemma {:induction false} KeysComplete(cs: seq<Command>, i: nat, key: Key)
    requires i < |cs| && key in RetirementKeys(cs[i])
    ensures key in KeysOf(cs)
  {
    if i < |cs| - 1 {
      assert cs[..|cs| - 1][i] == cs[i];
      KeysComplete(cs[..|cs| - 1], i, key);
    }
  }

  lemma {:induction false} GoneKeysFit(h: Log, drop: seq<nat>)
    requires 0 < |h.commands| <= MAX_COMMANDS + 1
    requires |drop| <= |Candidates(h)| && drop == Candidates(h)[..|drop|]
    ensures |KeysOf(At(h.commands, drop))| <= MAX_RETIRED
  {
    VictimsAscend(h, |h.commands| - 1);
    AscendingBound(drop, |h.commands| - 1);
    KeysCount(At(h.commands, drop));
  }

  /** At most 512 entries go at once, so all their keys fit in the retired list together. */
  lemma {:induction false} EvictedKeysAreRetired(h: Log, i: nat, key: Key)
    requires 0 < |h.commands| <= MAX_COMMANDS + 1
    requires i < |h.commands| && Evict(h).Some? && h.commands[i] !in Evict(h).value.commands
    requires key in RetirementKeys(h.commands[i])
    ensures key in Evict(h).value.retired
  {
    EvictionDropsOnlySettled(h, i);
    var drop := Candidates(h)[..LeastFrom(h, 0)];
    var gone := At(h.commands, drop);
    GoneKeysFit(h, drop);
    var k :| 0 <= k < |drop| && drop[k] == i;
    assert gone[k] == h.commands[i];
    KeysComplete(gone, k, key);
    NewestKeepsTail(h.retired, KeysOf(gone), MAX_RETIRED, key);
  }

  lemma {:induction false} AscendingBound(ks: seq<nat>, bound: nat)
    requires Ascending(ks) && forall i | 0 <= i < |ks| :: ks[i] < bound
    ensures |ks| <= bound
  {
    if |ks| > 0 {
      var front := ks[..|ks| - 1];
      forall i | 0 <= i < |front| ensures front[i] < ks[|ks| - 1] {}
      AscendingBound(front, ks[|ks| - 1]);
    }
  }

  lemma {:induction false} NewestKeepsTail(kept: seq<Key>, added: seq<Key>, limit: nat, key: Key)
    requires |added| <= limit && key in added
    ensures key in Newest(kept + added, limit)
  {
    var all := kept + added;
    var k :| 0 <= k < |added| && added[k] == key;
    assert all[|kept| + k] == key;
    if |all| > limit {
      assert Newest(all, limit)[|kept| + k - (|all| - limit)] == key;
    }
  }

  // ------------------------------------------------------ the rules still hold

  /** A subsequence that keeps the parents of the entries it keeps obeys every rule the whole obeyed. */
  predicate KeepsParents(cs: seq<Command>, ks: seq<nat>)
    requires forall i | 0 <= i < |ks| :: ks[i] < |cs|
  {
    forall i, j | 0 <= i < |ks| && 0 <= j < |cs| && NamedBy(cs[j], cs[ks[i]]) :: j in ks
  }

  lemma {:induction false} SubsequencePairs(cs: seq<Command>, rs: seq<Receipt>, messages: seq<Message>, ks: seq<nat>)
    requires Structure(cs, rs, messages)
    requires Ascending(ks) && forall i | 0 <= i < |ks| :: ks[i] < |cs|
    ensures EntriesValid(At(cs, ks), |messages|) && Increasing(At(cs, ks)) && NoSharedSequence(At(cs, ks), rs)
    ensures NoClash(At(cs, ks)) && TurnsBound(At(cs, ks), messages) && Chronological(At(cs, ks))
  {
    var ts := At(cs, ks);
    assert NoClash(ts) by {
      forall i, j | 0 <= i < j < |ts| ensures !Clash(ts[i], ts[j]) {
        assert !Clash(cs[ks[i]], cs[ks[j]]);
      }
    }
    assert TurnsBound(ts, messages) by {
      forall i | 0 <= i < |ts| ensures TurnBound(ts[i], messages) {
        assert TurnBound(cs[ks[i]], messages);
      }
    }
  }

  lemma {:induction false} SubsequenceParents(cs: seq<Command>, ks: seq<nat>)
    requires ParentsPresent(cs)
    requires Ascending(ks) && (forall i | 0 <= i < |ks| :: ks[i] < |cs|) && KeepsParents(cs, ks)
    ensures ParentsPresent(At(cs, ks))
  {
    var ts := At(cs, ks);
    forall i | 0 <= i < |ts| ensures HasParent(ts, i) {
      if ts[i].intent.ArchitectDraft? || ts[i].intent.DispatchRun? {
        assert HasParent(cs, ks[i]);
        var j :| 0 <= j < |cs| && cs[j].sequence < cs[ks[i]].sequence && NamedBy(cs[j], cs[ks[i]])
          && (cs[ks[i]].intent.DispatchRun? ==> Enabling(cs[j]));
        assert j in ks;
        var k :| 0 <= k < |ks| && ks[k] == j;
        assert ts[k] == cs[j];
      }
    }
  }

  lemma {:induction false} WithoutKeepsStructure(cs: seq<Command>, rs: seq<Receipt>, messages: seq<Message>, drop: seq<nat>)
    requires Structure(cs, rs, messages)
    requires forall d, k | d in drop && d < |cs| && 0 <= k < |cs| :: !NamedBy(cs[d], cs[k])
    ensures Structure(Without(cs, drop), rs, messages)
  {
    var ks := Survivors(|cs|, drop);
    SurvivorsAscend(|cs|, drop);
    forall i, j | 0 <= i < |ks| && 0 <= j < |cs| && NamedBy(cs[j], cs[ks[i]]) ensures j in ks {
      SurvivorsComplete(|cs|, drop, j);
    }
    SubsequencePairs(cs, rs, messages, ks);
    SubsequenceParents(cs, ks);
  }

  lemma {:induction false} CandidatesNameNoChild(h: Log, k: nat)
    requires |h.commands| > 0 && k <= |Candidates(h)|
    ensures forall d, c | d in Candidates(h)[..k] && d < |h.commands| && 0 <= c < |h.commands| ::
              !NamedBy(h.commands[d], h.commands[c])
  {
    forall d, c | d in Candidates(h)[..k] && d < |h.commands| && 0 <= c < |h.commands|
      ensures !NamedBy(h.commands[d], h.commands[c])
    {
      CandidateIsEvictable(h, k, d);
    }
  }

  lemma {:induction false} EvictKeepsStructure(h: Log)
    requires |h.commands| > 0 && Structure(h.commands, h.receipts, h.messages) && Evict(h).Some?
    ensures Structure(Evict(h).value.commands, h.receipts, h.messages)
  {
    CandidatesNameNoChild(h, LeastFrom(h, 0));
    WithoutKeepsStructure(h.commands, h.receipts, h.messages, Candidates(h)[..LeastFrom(h, 0)]);
  }

  lemma {:induction false} EvictFits(h: Log)
    requires |h.commands| > 0 && Evict(h).Some?
    ensures WithinBudget(Evict(h).value.commands)
    ensures |Evict(h).value.retired| <= MAX_RETIRED
  {
    LeastIsLeast(h, 0);
  }

  lemma {:induction false} AnchorGoes(h: Log, drop: seq<nat>, i: nat)
    requires i < |h.commands| && i in drop && Increasing(h.commands)
    requires forall k | 0 <= k < |drop| :: drop[k] < |h.commands|
    ensures exists k | 0 <= k < |At(h.commands, drop)| :: At(h.commands, drop)[k].sequence == h.commands[i].sequence
    ensures forall c | c in Without(h.commands, drop) :: c.sequence != h.commands[i].sequence
  {
    var k :| 0 <= k < |drop| && drop[k] == i;
    assert At(h.commands, drop)[k].sequence == h.commands[i].sequence;
    forall c | c in Without(h.commands, drop) ensures c.sequence != h.commands[i].sequence {
      NothingAppears(h.commands, drop, c);
    }
  }

  lemma {:induction false} AnchorStays(h: Log, drop: seq<nat>, i: nat)
    requires i < |h.commands| && i !in drop && Increasing(h.commands)
    requires forall k | 0 <= k < |drop| :: drop[k] < |h.commands|
    ensures h.commands[i] in Without(h.commands, drop)
    ensures forall k | 0 <= k < |At(h.commands, drop)| :: At(h.commands, drop)[k].sequence != h.commands[i].sequence
  {
    SurvivorStays(h.commands, drop, i);
    forall k | 0 <= k < |At(h.commands, drop)| ensures At(h.commands, drop)[k].sequence != h.commands[i].sequence {
      assert drop[k] != i && drop[k] in drop;
    }
  }

  /** The reader is never left anchored to an entry that is gone. */
  lemma {:induction false} EvictionDropsDanglingAnchor(h: Log)
    requires |h.commands| > 0 && Increasing(h.commands) && Evict(h).Some?
    requires h.anchor.Some? && h.anchor.value.key.CommandBlock?
    requires exists i | 0 <= i < |h.commands| :: h.commands[i].sequence == h.anchor.value.key.sequence
    ensures Evict(h).value.anchor == h.anchor <==>
            exists c | c in Evict(h).value.commands :: c.sequence == h.anchor.value.key.sequence
    ensures Evict(h).value.anchor == h.anchor || Evict(h).value.anchor.None?
  {
    var drop := Candidates(h)[..LeastFrom(h, 0)];
    var gone := At(h.commands, drop);
    var q := h.anchor.value.key.sequence;
    var i :| 0 <= i < |h.commands| && h.commands[i].sequence == q;
    if i in drop { AnchorGoes(h, drop, i); } else { AnchorStays(h, drop, i); }
  }

  // --------------------------------------------------- nothing else is spared

  /** A later entry switched dispatch on or off. */
  predicate SwitchedLater(cs: seq<Command>, i: nat) {
    exists j | i < j < |cs| :: Switches(cs[j])
  }

  /** The only entries the budget may not take, told from their states and intents. */
  predicate MustStay(h: Log, i: nat)
    requires i < |h.commands|
  {
    var c := h.commands[i];
    || i == |h.commands| - 1
    || c.state.Pending? || c.state.Submitted? || c.state.Selecting?
    || (c.state.Planned? && c.state.planner.Generated?)
    || c.intent.Selection? || c.intent.SelectionArrival? || c.intent.Wayfinder?
    || (c.state == Controlled(DispatchChanged(true)) && !SwitchedLater(h.commands, i))
    || (exists k | 0 <= k < |h.commands| :: NamedBy(c, h.commands[k]))
    || (h.planOrigin.Some? && c.intent.PlannerRequest() == h.planOrigin)
  }

  predicate Switches(c: Command) { c.state.Controlled? && c.state.control.DispatchChanged? }

  lemma {:induction false} SwitchedStep(cs: seq<Command>, i: nat)
    requires i < |cs| - 1
    ensures SwitchedLater(cs, i) <==> Switches(cs[|cs| - 1]) || SwitchedLater(cs[..|cs| - 1], i)
  {
    forall j | i < j < |cs| ensures Switches(cs[j]) ==> j == |cs| - 1 || Switches(cs[..|cs| - 1][j]) {}
    if SwitchedLater(cs[..|cs| - 1], i) {
      var j :| i < j < |cs| - 1 && Switches(cs[..|cs| - 1][j]);
      assert Switches(cs[j]);
    }
  }

  lemma {:induction false} LatestIsLast(cs: seq<Command>, i: nat)
    requires i < |cs| && Switches(cs[i])
    ensures LatestDispatch(cs) == Some(i) <==> !SwitchedLater(cs, i)
  {
    if i < |cs| - 1 {
      SwitchedStep(cs, i);
      LatestIsLast(cs[..|cs| - 1], i);
    }
  }

  lemma {:induction false} StaysUnlessEvictable(h: Log, i: nat)
    requires i < |h.commands|
    ensures MustStay(h, i) <==> i == |h.commands| - 1 || !Evictable(h, i)
  {
    if Enabling(h.commands[i]) { LatestIsLast(h.commands, i); }
  }

  /** The entries below `n` that must stay, in order. */
  function OnlyNeeded(h: Log, n: nat): seq<Command>
    requires n <= |h.commands|
  {
    if n == 0 then []
    else OnlyNeeded(h, n - 1) + (if MustStay(h, n - 1) then [h.commands[n - 1]] else [])
  }

  lemma {:induction false} DroppingAllLeavesNeeded(h: Log, n: nat)
    requires |h.commands| > 0 && n <= |h.commands|
    ensures At(h.commands, Survivors(n, Candidates(h))) == OnlyNeeded(h, n)
  {
    if n > 0 {
      var v := Candidates(h);
      DroppingAllLeavesNeeded(h, n - 1);
      StaysUnlessEvictable(h, n - 1);
      VictimsAscend(h, |h.commands| - 1);
      if n < |h.commands| && Evictable(h, n - 1) { VictimsComplete(h, |h.commands| - 1, n - 1); }
      assert n - 1 in v <==> !MustStay(h, n - 1);
      SurvivorsStep(n, v);
    }
  }

  /** Eviction refuses exactly when the entries that must stay do not fit by themselves. */
  lemma {:induction false} RefusedExactlyWhenNeeded(h: Log)
    requires |h.commands| > 0
    ensures Evict(h).None? <==> !WithinBudget(OnlyNeeded(h, |h.commands|))
  {
    EvictsShortestPrefix(h);
    DroppingAllLeavesNeeded(h, |h.commands|);
    var v := Candidates(h);
    assert v[..|v|] == v;
  }

  /** Of the candidates the older ones go first. */
  lemma {:induction false} OlderGoesFirst(h: Log, i: nat, j: nat)
    requires i < j < |h.commands| && Evictable(h, i) && Evict(h).Some? && j in Candidates(h)[..LeastFrom(h, 0)]
    ensures i in Candidates(h)[..LeastFrom(h, 0)]
  {
    var v, least := Candidates(h), LeastFrom(h, 0);
    CandidateIsEvictable(h, least, j);
    VictimsComplete(h, |h.commands| - 1, i);
    VictimsAscend(h, |h.commands| - 1);
    var y :| 0 <= y < least && v[y] == j;
    var x :| 0 <= x < |v| && v[x] == i;
    assert x < y;
    assert v[..least][x] == i;
  }

  lemma {:induction false} EvictableGoes(h: Log, i: nat, j: nat)
    requires i < j < |h.commands| && Increasing(h.commands) && Evict(h).Some? && Evictable(h, i)
    requires j in Candidates(h)[..LeastFrom(h, 0)]
    ensures h.commands[i] !in Evict(h).value.commands
  {
    OlderGoesFirst(h, i, j);
    AnchorGoes(h, Candidates(h)[..LeastFrom(h, 0)], i);
  }

  /** An entry that was kept although a later one went had to stay. */
  lemma {:induction false} OnlyNeededIsSpared(h: Log, i: nat, j: nat)
    requires i < j < |h.commands| && Increasing(h.commands) && Evict(h).Some?
    requires h.commands[i] in Evict(h).value.commands && h.commands[j] !in Evict(h).value.commands
    ensures MustStay(h, i)
  {
    EvictionDropsOnlySettled(h, j);
    StaysUnlessEvictable(h, i);
    if Evictable(h, i) { EvictableGoes(h, i, j); }
  }
}
