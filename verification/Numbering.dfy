/** Renumbering the console sequences is an order isomorphism and always makes room for the next one. */
module Numbering {
  import opened Commands
  import opened History

  lemma {:induction false} SubsetSize(a: set<nat>, b: set<nat>)
    requires a <= b
    ensures |a| <= |b|
    ensures a != b ==> |a| < |b|
  {
    assert b == a + (b - a);
    assert |b| == |a| + |b - a|;
    if a != b {
      assert b - a != {};
    }
  }

  function Upto(n: nat): (s: set<nat>)
    ensures |s| == n && forall x :: x in s <==> 1 <= x <= n
  {
    if n == 0 then {} else Upto(n - 1) + {n}
  }

  /** Larger sequences get larger ranks. */
  lemma {:induction false} RankIncreases(used: set<nat>, q: nat, r: nat)
    requires q in used && r in used && q < r
    ensures Rank(used, q) < Rank(used, r)
  {
    assert q in Below(used, r) && q !in Below(used, q);
    SubsetSize(Below(used, q), Below(used, r));
  }

  /** Ranks are counted from 1, reach at most the number in use, and never exceed the sequence itself. */
  lemma {:induction false} RankBounds(used: set<nat>, q: nat)
    requires 0 !in used && q in used
    ensures 1 <= Rank(used, q) <= |used|
    ensures Rank(used, q) <= q
  {
    assert q !in Below(used, q);
    SubsetSize(Below(used, q), used);
    SubsetSize(Below(used, q), Upto(q - 1));
  }

  lemma {:induction false} RankOrder(used: set<nat>, q: nat, r: nat)
    requires q in used && r in used
    ensures q < r <==> Rank(used, q) < Rank(used, r)
    ensures q == r <==> Rank(used, q) == Rank(used, r)
  {
    if q < r { RankIncreases(used, q, r); }
    if r < q { RankIncreases(used, r, q); }
  }

  function Largest(used: set<nat>): (m: nat)
    requires used != {}
    ensures m in used && forall x | x in used :: x <= m
  {
    LargestExists(used);
    var m :| m in used && forall x | x in used :: x <= m;
    m
  }

  lemma {:induction false} LargestExists(used: set<nat>)
    requires used != {}
    ensures exists m :: m in used && forall x | x in used :: x <= m
  {
    var a :| a in used;
    var rest := used - {a};
    if rest == {} {
      assert used == {a};
    } else {
      LargestExists(rest);
      var m :| m in rest && forall x | x in rest :: x <= m;
      var top := if a < m then m else a;
      assert top in used && forall x | x in used :: x in rest || x == a;
    }
  }

  /** Every number from 1 to the count is the rank of some sequence: no gaps remain. */
  lemma {:induction false} RankOnto(used: set<nat>, n: nat)
    requires 1 <= n <= |used|
    ensures exists q :: q in used && Rank(used, q) == n
  {
    var m := Largest(used);
    var rest := used - {m};
    assert used == rest + {m} && |used| == |rest| + 1;
    if n == |used| {
      assert Below(used, m) == rest;
      assert Rank(used, m) == n;
    } else {
      RankOnto(rest, n);
      var q :| q in rest && Rank(rest, q) == n;
      assert Below(used, q) == Below(rest, q);
      assert q in used && Rank(used, q) == n;
    }
  }

  // ------------------------------------------------------- how many are in use

  lemma {:induction false} CommandSequencesBounded(cs: seq<Command>)
    ensures |set c | c in cs && c.sequence > 0 :: c.sequence| <= |cs|
  {
    var all := set c | c in cs && c.sequence > 0 :: c.sequence;
    if |cs| > 0 {
      var front, last := cs[..|cs| - 1], cs[|cs| - 1];
      CommandSequencesBounded(front);
      var fewer := set c | c in front && c.sequence > 0 :: c.sequence;
      assert cs == front + [last];
      assert all <= fewer + {last.sequence};
      SubsetSize(all, fewer + {last.sequence});
    } else {
      assert all == {};
    }
  }

  lemma {:induction false} ReceiptSequencesBounded(rs: seq<Receipt>)
    ensures |set r | r in rs && r.sequence > 0 :: r.sequence| <= |rs|
  {
    var all := set r | r in rs && r.sequence > 0 :: r.sequence;
    if |rs| > 0 {
      var front, last := rs[..|rs| - 1], rs[|rs| - 1];
      ReceiptSequencesBounded(front);
      var fewer := set r | r in front && r.sequence > 0 :: r.sequence;
      assert rs == front + [last];
      assert all <= fewer + {last.sequence};
      SubsetSize(all, fewer + {last.sequence});
    } else {
      assert all == {};
    }
  }

  lemma {:induction false} InUseBounded(h: Log)
    ensures |InUse(h)| <= |h.commands| + |h.receipts| && 0 !in InUse(h)
  {
    CommandSequencesBounded(h.commands);
    ReceiptSequencesBounded(h.receipts);
    var a := set r | r in h.receipts && r.sequence > 0 :: r.sequence;
    var b := set c | c in h.commands && c.sequence > 0 :: c.sequence;
    assert |a + b| <= |a| + |b|;
  }

  lemma {:induction false} LastCommandBound(cs: seq<Command>, bound: nat)
    requires forall i | 0 <= i < |cs| :: cs[i].sequence <= bound
    ensures LastCommand(cs) <= bound
  {
    if |cs| > 0 { LastCommandBound(cs[..|cs| - 1], bound); }
  }

  lemma {:induction false} LastReceiptBound(rs: seq<Receipt>, bound: nat)
    requires forall i | 0 <= i < |rs| :: rs[i].sequence <= bound
    ensures LastReceipt(rs) <= bound
  {
    if |rs| > 0 { LastReceiptBound(rs[..|rs| - 1], bound); }
  }

  /** The next sequence is above every sequence in use. */
  lemma {:induction false} NextIsFresh(h: Log)
    ensures forall i | 0 <= i < |h.commands| :: h.commands[i].sequence < NextSequence(h)
    ensures forall i | 0 <= i < |h.receipts| :: h.receipts[i].sequence < NextSequence(h)
  {
    LastCommandIsTop(h.commands);
    LastReceiptIsTop(h.receipts);
  }

  lemma {:induction false} LastCommandIsTop(cs: seq<Command>)
    ensures forall i | 0 <= i < |cs| :: cs[i].sequence <= LastCommand(cs)
  {
    if |cs| > 0 {
      LastCommandIsTop(cs[..|cs| - 1]);
      forall i | 0 <= i < |cs| ensures cs[i].sequence <= LastCommand(cs) {
        if i < |cs| - 1 { assert cs[..|cs| - 1][i] == cs[i]; }
      }
    }
  }

  lemma {:induction false} LastReceiptIsTop(rs: seq<Receipt>)
    ensures forall i | 0 <= i < |rs| :: rs[i].sequence <= LastReceipt(rs)
  {
    if |rs| > 0 {
      LastReceiptIsTop(rs[..|rs| - 1]);
      forall i | 0 <= i < |rs| ensures rs[i].sequence <= LastReceipt(rs) {
        if i < |rs| - 1 { assert rs[..|rs| - 1][i] == rs[i]; }
      }
    }
  }

  // ------------------------------------------------------------ the isomorphism

  /** All sequences of a history, receipts first. */
  function Sequences(h: Log): (s: seq<nat>)
    ensures |s| == |h.receipts| + |h.commands|
    ensures forall i | 0 <= i < |h.receipts| :: s[i] == h.receipts[i].sequence
    ensures forall i | 0 <= i < |h.commands| :: s[|h.receipts| + i] == h.commands[i].sequence
  {
    seq(|h.receipts|, i requires 0 <= i < |h.receipts| => h.receipts[i].sequence)
    + seq(|h.commands|, i requires 0 <= i < |h.commands| => h.commands[i].sequence)
  }

  /** Two lists of sequences ordered alike, the second fixing 0 and only 0 and nowhere larger. */
  predicate OrderIsomorphic(s: seq<nat>, t: seq<nat>, bound: nat) {
    && |s| == |t|
    && (forall i, j | 0 <= i < |s| && 0 <= j < |s| :: s[i] < s[j] <==> t[i] < t[j])
    && (forall i | 0 <= i < |s| :: (s[i] == 0 <==> t[i] == 0) && t[i] <= s[i] && t[i] <= bound)
  }

  lemma {:induction false} ReceiptRanks(h: Log, k: nat)
    requires k < |h.receipts|
    ensures Sequences(h)[k] == h.receipts[k].sequence
    ensures Sequences(Renumbered(h))[k] == Rank(InUse(h), h.receipts[k].sequence)
  {
    var r := Renumbered(h);
    assert r.receipts[k].sequence == Rank(InUse(h), h.receipts[k].sequence);
  }

  lemma {:induction false} CommandRanks(h: Log, k: nat)
    requires k < |h.commands|
    ensures |Renumbered(h).receipts| == |h.receipts|
    ensures Sequences(h)[|h.receipts| + k] == h.commands[k].sequence
    ensures Sequences(Renumbered(h))[|h.receipts| + k] == Rank(InUse(h), h.commands[k].sequence)
  {
    var r := Renumbered(h);
    assert r.commands[k].sequence == Rank(InUse(h), h.commands[k].sequence);
  }

  lemma {:induction false} SequenceIsUsed(h: Log, i: nat)
    requires i < |h.receipts| + |h.commands|
    ensures |Sequences(h)| == |h.receipts| + |h.commands|
    ensures Sequences(h)[i] > 0 <==> Sequences(h)[i] in InUse(h)
  {
    InUseBounded(h);
    if i < |h.receipts| {
      assert h.receipts[i] in h.receipts;
    } else {
      assert h.commands[i - |h.receipts|] in h.commands;
    }
  }

  lemma {:induction false} SequenceRanks(h: Log, i: nat)
    requires i < |h.receipts| + |h.commands|
    ensures |Sequences(Renumbered(h))| == |Sequences(h)|
    ensures Sequences(Renumbered(h))[i] == Rank(InUse(h), Sequences(h)[i])
    ensures Sequences(h)[i] > 0 <==> Sequences(h)[i] in InUse(h)
  {
    if i < |h.receipts| { ReceiptRanks(h, i); } else { CommandRanks(h, i - |h.receipts|); }
    SequenceIsUsed(h, i);
  }

  /**
   * Renumbering keeps every order comparison between any two sequences, fixes 0 and only 0,
   * and never enlarges a number.
   */
  lemma {:induction false} RenumberingIsOrderIsomorphism(h: Log)
    ensures OrderIsomorphic(Sequences(h), Sequences(Renumbered(h)), |InUse(h)|)
  {
    var used, s, t := InUse(h), Sequences(h), Sequences(Renumbered(h));
    var bound := |used|;
    InUseBounded(h);
    assert |s| == |t| == |h.receipts| + |h.commands|;
    forall i | 0 <= i < |s|
      ensures (s[i] == 0 <==> t[i] == 0) && t[i] <= s[i] && t[i] <= bound
    {
      SequenceRanks(h, i);
      if s[i] > 0 { RankBounds(used, s[i]); }
    }
    forall i, j | 0 <= i < |s| && 0 <= j < |s|
      ensures s[i] < s[j] <==> t[i] < t[j]
    {
      SequenceRanks(h, i);
      SequenceRanks(h, j);
      if s[i] > 0 && s[j] > 0 { RankOrder(used, s[i], s[j]); }
    }
  }

  /** The reader is at command `i`. */
  predicate ReadsAt(h: Log, i: nat)
    requires i < |h.commands|
  {
    h.anchor.Some? && h.anchor.value.key == CommandBlock(h.commands[i].sequence)
  }

  /** The reader stays at the same command, and one who was at none, or at an evicted one, does not land on any. */
  lemma {:induction false} RenumberingKeepsTheReader(h: Log, i: nat)
    requires Valid(h) && i < |h.commands|
    ensures ReadsAt(Renumbered(h), i) <==> ReadsAt(h, i)
  {
    var used, q := InUse(h), h.commands[i].sequence;
    assert ValidCommand(h.commands[i], |h.messages|) && h.commands[i] in h.commands;
    assert q in used;
    if h.anchor.Some? && h.anchor.value.key.CommandBlock? && h.anchor.value.key.sequence in used {
      RankOrder(used, h.anchor.value.key.sequence, q);
    }
  }

  /** The numbers in use afterwards are exactly 1, 2, ... up to their count. */
  lemma {:induction false} RenumberingLeavesNoGaps(h: Log, n: nat)
    requires 1 <= n <= |InUse(h)|
    ensures n in InUse(Renumbered(h))
  {
    var used := InUse(h);
    RankOnto(used, n);
    var q :| q in used && Rank(used, q) == n;
    if r :| r in h.receipts && r.sequence == q {
      var i :| 0 <= i < |h.receipts| && h.receipts[i] == r;
      assert Renumbered(h).receipts[i] in Renumbered(h).receipts;
      assert Renumbered(h).receipts[i].sequence == n;
    } else {
      var c :| c in h.commands && c.sequence == q;
      var i :| 0 <= i < |h.commands| && h.commands[i] == c;
      assert Renumbered(h).commands[i] in Renumbered(h).commands;
      assert Renumbered(h).commands[i].sequence == n;
    }
  }

  lemma {:induction false} UsedIsBelowNext(h: Log, n: nat)
    requires n in InUse(h)
    ensures n < NextSequence(h)
  {
    NextIsFresh(h);
    if r :| r in h.receipts && r.sequence == n {
      var i :| 0 <= i < |h.receipts| && h.receipts[i] == r;
    } else {
      var c :| c in h.commands && c.sequence == n;
      var i :| 0 <= i < |h.commands| && h.commands[i] == c;
    }
  }

  /** After renumbering, the next sequence is one more than the number of distinct sequences in use. */
  lemma {:induction false} NextAfterRenumbering(h: Log)
    ensures NextSequence(Renumbered(h)) == |InUse(h)| + 1
  {
    RenumberingIsOrderIsomorphism(h);
    var t, s := Renumbered(h), Sequences(Renumbered(h));
    var bound := |InUse(h)|;
    forall i | 0 <= i < |t.commands| ensures t.commands[i].sequence <= bound {
      assert s[|t.receipts| + i] == t.commands[i].sequence;
    }
    forall i | 0 <= i < |t.receipts| ensures t.receipts[i].sequence <= bound {
      assert s[i] == t.receipts[i].sequence;
    }
    LastCommandBound(t.commands, bound);
    LastReceiptBound(t.receipts, bound);
    if bound > 0 {
      RenumberingLeavesNoGaps(h, bound);
      UsedIsBelowNext(t, bound);
    }
  }

  /** The sequence cap never causes a refusal: 512 entries and 4096 receipts renumber to at most 4609. */
  lemma {:induction false} CapNeverRefuses(h: Log)
    requires Valid(h)
    ensures NextSequence(Numbered(h)) <= MAX_SEQUENCE
    ensures NextSequence(h) > MAX_SEQUENCE ==> NextSequence(Numbered(h)) <= 4609
  {
    NextAfterRenumbering(h);
    InUseBounded(h);
  }

  // -------------------------------------------------- renumbering keeps the rules

  lemma {:induction false} TotalSizeMonotone(a: seq<Command>, b: seq<Command>)
    requires |a| == |b| && forall i | 0 <= i < |a| :: Size(a[i]) <= Size(b[i])
    ensures TotalSize(a) <= TotalSize(b)
  {
    if |a| > 0 {
      TotalSizeMonotone(a[..|a| - 1], b[..|b| - 1]);
    }
  }

  /** Smaller numbers print no longer, so the budget still holds. */
  lemma {:induction false} RenumberingKeepsBudget(h: Log)
    requires WithinBudget(h.commands)
    ensures WithinBudget(Renumbered(h).commands)
  {
    var t := Renumbered(h);
    forall i | 0 <= i < |h.commands| ensures Size(t.commands[i]) <= Size(h.commands[i]) {
      CommandNoLarger(h, i);
      DigitsMonotone(t.commands[i].sequence, h.commands[i].sequence);
    }
    TotalSizeMonotone(t.commands, h.commands);
  }

  lemma {:induction false} CommandNoLarger(h: Log, i: nat)
    requires i < |h.commands|
    ensures Renumbered(h).commands[i].sequence <= h.commands[i].sequence
    ensures Renumbered(h).commands[i].sequence > 0 <==> h.commands[i].sequence > 0
  {
    RenumberingIsOrderIsomorphism(h);
    assert Sequences(h)[|h.receipts| + i] == h.commands[i].sequence;
    assert Sequences(Renumbered(h))[|h.receipts| + i] == Renumbered(h).commands[i].sequence;
  }

  lemma {:induction false} EntriesStayValid(h: Log)
    requires EntriesValid(h.commands, |h.messages|)
    ensures EntriesValid(Renumbered(h).commands, |h.messages|)
  {
    var cs, ts := h.commands, Renumbered(h).commands;
    forall i | 0 <= i < |cs| ensures ValidCommand(ts[i], |h.messages|) && ts[i].sequence <= MAX_SEQUENCE {
      CommandNoLarger(h, i);
      assert ts[i] == cs[i].(sequence := ts[i].sequence);
      assert ValidCommand(cs[i], |h.messages|);
    }
  }

  lemma {:induction false} CommandPairKeepsOrder(h: Log, i: nat, j: nat)
    requires i < |h.commands| && j < |h.commands| && h.commands[i].sequence < h.commands[j].sequence
    ensures Renumbered(h).commands[i].sequence < Renumbered(h).commands[j].sequence
  {
    var used, q, r := InUse(h), h.commands[i].sequence, h.commands[j].sequence;
    InUseBounded(h);
    assert h.commands[i] in h.commands && h.commands[j] in h.commands;
    assert r in used && (q in used || q == 0);
    if q in used { RankOrder(used, q, r); }
    assert Rank(used, q) < Rank(used, r);
  }

  lemma {:induction false} CommandsKeepOrder(h: Log)
    requires Increasing(h.commands)
    ensures Increasing(Renumbered(h).commands)
  {
    var cs, ts := h.commands, Renumbered(h).commands;
    forall i, j | 0 <= i < j < |ts| ensures ts[i].sequence < ts[j].sequence {
      assert cs[i].sequence < cs[j].sequence;
      CommandPairKeepsOrder(h, i, j);
    }
  }

  lemma {:induction false} CompareRenumbered(h: Log, i: nat, j: nat)
    requires i < |h.receipts| + |h.commands| && j < |h.receipts| + |h.commands|
    ensures |Sequences(Renumbered(h))| == |Sequences(h)|
    ensures Sequences(h)[i] < Sequences(h)[j] <==> Sequences(Renumbered(h))[i] < Sequences(Renumbered(h))[j]
    ensures Sequences(h)[i] == 0 <==> Sequences(Renumbered(h))[i] == 0
  {
    RenumberingIsOrderIsomorphism(h);
  }

  lemma {:induction false} ReceiptsKeepOrder(h: Log)
    requires ReceiptOrder(h.receipts)
    ensures ReceiptOrder(Renumbered(h).receipts)
  {
    RenumberingIsOrderIsomorphism(h);
    var s, t, n := Sequences(h), Sequences(Renumbered(h)), |h.receipts|;
    var rs, ts := h.receipts, Renumbered(h).receipts;
    forall i | 0 <= i < n ensures ts[i].sequence <= MAX_SEQUENCE {
      assert ts[i].sequence == t[i] <= s[i] == rs[i].sequence;
    }
    forall i, j | 0 <= i < j < n
      ensures ts[i].sequence < ts[j].sequence || ts[i].sequence == ts[j].sequence == 0
    {
      assert rs[i].sequence < rs[j].sequence || rs[i].sequence == rs[j].sequence == 0;
      CompareRenumbered(h, i, j);
      CompareRenumbered(h, j, i);
    }
  }

  lemma {:induction false} StillNoSharedSequence(h: Log)
    requires NoSharedSequence(h.commands, h.receipts)
    ensures NoSharedSequence(Renumbered(h).commands, Renumbered(h).receipts)
  {
    forall i, j | 0 <= i < |h.commands| && 0 <= j < |h.receipts|
      ensures Renumbered(h).commands[i].sequence != Renumbered(h).receipts[j].sequence
    {
      assert h.commands[i].sequence != h.receipts[j].sequence;
      CompareRenumbered(h, |h.receipts| + i, j);
      CompareRenumbered(h, j, |h.receipts| + i);
    }
  }

  lemma {:induction false} ParentCarriesOver(cs: seq<Command>, ts: seq<Command>, i: nat)
    requires i < |cs| == |ts| && Increasing(cs) && Increasing(ts) && HasParent(cs, i)
    requires forall k | 0 <= k < |cs| :: ts[k].intent == cs[k].intent && ts[k].state == cs[k].state
    ensures HasParent(ts, i)
  {
    if cs[i].intent.ArchitectDraft? || cs[i].intent.DispatchRun? {
      var j :| 0 <= j < |cs| && cs[j].sequence < cs[i].sequence && NamedBy(cs[j], cs[i])
        && (cs[i].intent.DispatchRun? ==> Enabling(cs[j]));
      assert j < i;
      assert ts[j].sequence < ts[i].sequence && NamedBy(ts[j], ts[i]);
    }
  }

  lemma {:induction false} RenumberingKeepsParents(h: Log)
    requires Increasing(h.commands) && ParentsPresent(h.commands)
    requires Increasing(Renumbered(h).commands)
    ensures ParentsPresent(Renumbered(h).commands)
  {
    var cs, ts := h.commands, Renumbered(h).commands;
    forall i | 0 <= i < |ts| ensures HasParent(ts, i) {
      assert HasParent(cs, i);
      ParentCarriesOver(cs, ts, i);
    }
  }

  lemma {:induction false} RenumberingKeepsTurns(h: Log)
    requires NoClash(h.commands) && TurnsBound(h.commands, h.messages)
    ensures NoClash(Renumbered(h).commands) && TurnsBound(Renumbered(h).commands, h.messages)
  {
    var cs, ts := h.commands, Renumbered(h).commands;
    forall i, j | 0 <= i < j < |ts| ensures !Clash(ts[i], ts[j]) {
      assert !Clash(cs[i], cs[j]);
    }
    forall i | 0 <= i < |ts| ensures TurnBound(ts[i], h.messages) {
      assert TurnBound(cs[i], h.messages);
    }
  }

  lemma {:induction false} RenumberingKeepsValid(h: Log)
    requires Valid(h)
    ensures Valid(Renumbered(h))
  {
    EntriesStayValid(h);
    CommandsKeepOrder(h);
    ReceiptsKeepOrder(h);
    StillNoSharedSequence(h);
    RenumberingKeepsParents(h);
    RenumberingKeepsBudget(h);
    RenumberingKeepsTurns(h);
  }

  lemma {:induction false} NumberedKeepsValid(h: Log)
    requires Valid(h)
    ensures Valid(Numbered(h))
  {
    if NextSequence(h) > MAX_SEQUENCE { RenumberingKeepsValid(h); }
  }
}
