/** Composing accepted results: merge commits on a growing commit graph, without moving any branch. */
module Composition {
  datatype Option<+T> = None | Some(value: T)

  /** Commits by position, each with its parents. */
  type Graph = seq<seq<nat>>

  predicate WellFounded(g: Graph) {
    forall d | 0 <= d < |g| :: forall k | 0 <= k < |g[d]| :: g[d][k] < d
  }

  /** `a` is an ancestor of `d`, or `d` itself. */
  predicate Reaches(g: Graph, a: nat, d: nat)
    decreases d
  {
    d < |g| && (a == d || exists k | 0 <= k < |g[d]| :: g[d][k] < d && Reaches(g, a, g[d][k]))
  }

  lemma {:induction false} ReachesTransitive(g: Graph, a: nat, b: nat, c: nat)
    requires Reaches(g, a, b) && Reaches(g, b, c)
    ensures Reaches(g, a, c)
    decreases c
  {
    if b != c {
      var k :| 0 <= k < |g[c]| && g[c][k] < c && Reaches(g, b, g[c][k]);
      ReachesTransitive(g, a, b, g[c][k]);
    }
  }

  lemma {:induction false} ReachesBefore(g: Graph, a: nat, d: nat)
    requires Reaches(g, a, d)
    ensures a <= d
    decreases d
  {
    if a != d {
      var k :| 0 <= k < |g[d]| && g[d][k] < d && Reaches(g, a, g[d][k]);
      ReachesBefore(g, a, g[d][k]);
    }
  }

  /** New commits change nothing about the reach of old ones. */
  lemma {:induction false} OldReachStays(g: Graph, h: Graph, a: nat, d: nat)
    requires g <= h && d < |g|
    ensures Reaches(h, a, d) <==> Reaches(g, a, d)
    decreases d
  {
    assert h[d] == g[d];
    forall k | 0 <= k < |g[d]| && g[d][k] < d ensures Reaches(h, a, g[d][k]) <==> Reaches(g, a, g[d][k]) {
      OldReachStays(g, h, a, g[d][k]);
    }
  }

  // ------------------------------------------------------------------ composition

  /** One candidate joins: already contained, containing, or merged. */
  function Join(g: Graph, baseline: nat, candidate: nat): (Graph, nat) {
    if Reaches(g, candidate, baseline) then (g, baseline)
    else if Reaches(g, baseline, candidate) then (g, candidate)
    else (g + [[baseline, candidate]], |g|)
  }

  /** A merge is needed and does not apply cleanly. */
  predicate Conflicting(g: Graph, baseline: nat, candidate: nat, conflicts: set<(nat, nat)>) {
    !Reaches(g, candidate, baseline) && !Reaches(g, baseline, candidate) && (baseline, candidate) in conflicts
  }

  datatype Composed = Composed(graph: Graph, baseline: Option<nat>)

  function Compose(g: Graph, baseline: nat, candidates: seq<nat>, conflicts: set<(nat, nat)>): Composed {
    if |candidates| == 0 then Composed(g, Some(baseline))
    else
      var n := |candidates| - 1;
      var before := Compose(g, baseline, candidates[..n], conflicts);
      if before.baseline.None? || Conflicting(before.graph, before.baseline.value, candidates[n], conflicts)
      then Composed(before.graph, None)
      else
        var (graph, joined) := Join(before.graph, before.baseline.value, candidates[n]);
        Composed(graph, Some(joined))
  }

  /** What the call may rely on: real commits. */
  predicate Inputs(g: Graph, baseline: nat, candidates: seq<nat>) {
    WellFounded(g) && baseline < |g| && forall i | 0 <= i < |candidates| :: candidates[i] < |g|
  }

  lemma {:induction false} GraphOnlyGrows(g: Graph, baseline: nat, candidates: seq<nat>, conflicts: set<(nat, nat)>)
    requires Inputs(g, baseline, candidates)
    ensures var r := Compose(g, baseline, candidates, conflicts);
            && g <= r.graph && WellFounded(r.graph)
            && |r.graph| <= |g| + |candidates|
            && (r.baseline.Some? ==> r.baseline.value < |r.graph|)
  {
    if |candidates| > 0 { GraphOnlyGrows(g, baseline, candidates[..|candidates| - 1], conflicts); }
  }

  lemma {:induction false} JoinContains(g: Graph, baseline: nat, candidate: nat)
    requires WellFounded(g) && baseline < |g| && candidate < |g|
    ensures var (h, b) := Join(g, baseline, candidate); g <= h && WellFounded(h) && Reaches(h, baseline, b) && Reaches(h, candidate, b)
  {
    var (h, b) := Join(g, baseline, candidate);
    if |h| > |g| {
      OldReachStays(g, h, baseline, baseline);
      OldReachStays(g, h, candidate, candidate);
      assert h[b][0] == baseline && h[b][1] == candidate;
    }
  }

  lemma {:induction false} JoinAddsNothingElse(g: Graph, baseline: nat, candidate: nat, x: nat)
    requires WellFounded(g) && baseline < |g| && candidate < |g|
    requires var (h, b) := Join(g, baseline, candidate); Reaches(h, x, b)
    ensures x >= |g| || Reaches(g, x, baseline) || Reaches(g, x, candidate)
  {
    var (h, b) := Join(g, baseline, candidate);
    if |h| > |g| && x != b {
      var k :| 0 <= k < |h[b]| && h[b][k] < b && Reaches(h, x, h[b][k]);
      OldReachStays(g, h, x, h[b][k]);
    }
  }

  lemma {:induction false} ReachGrows(g: Graph, h: Graph, a: nat, b: nat, c: nat)
    requires g <= h && b < |g| && Reaches(g, a, b) && Reaches(h, b, c)
    ensures Reaches(h, a, c)
  {
    OldReachStays(g, h, a, b);
    ReachesTransitive(h, a, b, c);
  }

  /** The composed commit has the baseline and every candidate as ancestors: the closing check cannot fail. */
  lemma {:induction false} ComposedContainsAll(g: Graph, baseline: nat, candidates: seq<nat>, conflicts: set<(nat, nat)>)
    requires Inputs(g, baseline, candidates) && Compose(g, baseline, candidates, conflicts).baseline.Some?
    ensures var r := Compose(g, baseline, candidates, conflicts);
            && Reaches(r.graph, baseline, r.baseline.value)
            && forall i | 0 <= i < |candidates| :: Reaches(r.graph, candidates[i], r.baseline.value)
  {
    if |candidates| > 0 {
      var n := |candidates| - 1;
      var before := Compose(g, baseline, candidates[..n], conflicts);
      var r := Compose(g, baseline, candidates, conflicts);
      ComposedContainsAll(g, baseline, candidates[..n], conflicts);
      GraphOnlyGrows(g, baseline, candidates[..n], conflicts);
      JoinContains(before.graph, before.baseline.value, candidates[n]);
      ReachGrows(before.graph, r.graph, baseline, before.baseline.value, r.baseline.value);
      forall i | 0 <= i < |candidates| ensures Reaches(r.graph, candidates[i], r.baseline.value) {
        if i < n { ReachGrows(before.graph, r.graph, candidates[..n][i], before.baseline.value, r.baseline.value); }
      }
    }
  }

  /** `x` comes from the inputs. */
  predicate FromInputs(g: Graph, baseline: nat, candidates: seq<nat>, x: nat) {
    Reaches(g, x, baseline) || exists i | 0 <= i < |candidates| :: Reaches(g, x, candidates[i])
  }

  /** Apart from the merges this call made, the composed commit reaches only what its inputs reach. */
  lemma {:induction false} ComposedAddsNothingElse(
      g: Graph, baseline: nat, candidates: seq<nat>, conflicts: set<(nat, nat)>, x: nat)
    requires Inputs(g, baseline, candidates) && Compose(g, baseline, candidates, conflicts).baseline.Some?
    ensures var r := Compose(g, baseline, candidates, conflicts);
            x < |g| ==> (Reaches(r.graph, x, r.baseline.value) <==> FromInputs(g, baseline, candidates, x))
  {
    var r := Compose(g, baseline, candidates, conflicts);
    ComposedContainsAll(g, baseline, candidates, conflicts);
    GraphOnlyGrows(g, baseline, candidates, conflicts);
    if x < |g| && FromInputs(g, baseline, candidates, x) {
      if Reaches(g, x, baseline) {
        ReachGrows(g, r.graph, x, baseline, r.baseline.value);
      } else {
        var i :| 0 <= i < |candidates| && Reaches(g, x, candidates[i]);
        ReachGrows(g, r.graph, x, candidates[i], r.baseline.value);
      }
    }
    if x < |g| && Reaches(r.graph, x, r.baseline.value) { ReachedFromInputs(g, baseline, candidates, conflicts, x); }
  }

  lemma {:induction false} ReachedFromInputs(
      g: Graph, baseline: nat, candidates: seq<nat>, conflicts: set<(nat, nat)>, x: nat)
    requires Inputs(g, baseline, candidates) && x < |g|
    requires var r := Compose(g, baseline, candidates, conflicts); r.baseline.Some? && Reaches(r.graph, x, r.baseline.value)
    ensures FromInputs(g, baseline, candidates, x)
  {
    if |candidates| > 0 {
      var n := |candidates| - 1;
      var before := Compose(g, baseline, candidates[..n], conflicts);
      GraphOnlyGrows(g, baseline, candidates[..n], conflicts);
      JoinAddsNothingElse(before.graph, before.baseline.value, candidates[n], x);
      if Reaches(before.graph, x, before.baseline.value) {
        ReachedFromInputs(g, baseline, candidates[..n], conflicts, x);
        if !Reaches(g, x, baseline) {
          var i :| 0 <= i < n && Reaches(g, x, candidates[..n][i]);
          assert Reaches(g, x, candidates[i]);
        }
      } else {
        OldReachStays(g, before.graph, x, candidates[n]);
      }
    }
  }

  /**
   * Merges are made only where needed and possible: every new commit joins two commits neither of which contained
   * the other, and never two that conflict.
   */
  lemma {:induction false} MergesAreNeeded(
      g: Graph, baseline: nat, candidates: seq<nat>, conflicts: set<(nat, nat)>, m: nat)
    requires Inputs(g, baseline, candidates)
    requires |g| <= m < |Compose(g, baseline, candidates, conflicts).graph|
    ensures var made := Compose(g, baseline, candidates, conflicts).graph[m];
            && |made| == 2 && made[1] in candidates && (made[0], made[1]) !in conflicts
            && !Reaches(Compose(g, baseline, candidates, conflicts).graph, made[0], made[1])
            && !Reaches(Compose(g, baseline, candidates, conflicts).graph, made[1], made[0])
  {
    if |candidates| > 0 {
      var n := |candidates| - 1;
      var before := Compose(g, baseline, candidates[..n], conflicts);
      var r := Compose(g, baseline, candidates, conflicts);
      GraphOnlyGrows(g, baseline, candidates[..n], conflicts);
      GraphOnlyGrows(g, baseline, candidates, conflicts);
      if m < |before.graph| {
        MergesAreNeeded(g, baseline, candidates[..n], conflicts, m);
        var made := before.graph[m];
        assert r.graph[m] == made && made[0] < m && made[1] < m;
        OldReachStays(before.graph, r.graph, made[0], made[1]);
        OldReachStays(before.graph, r.graph, made[1], made[0]);
      } else {
        OldReachStays(before.graph, r.graph, before.baseline.value, candidates[n]);
        OldReachStays(before.graph, r.graph, candidates[n], before.baseline.value);
      }
    }
  }

  /** The first `k` candidates compose to a commit that needs a merge with the next one, and the two conflict. */
  predicate ConflictsAt(g: Graph, baseline: nat, candidates: seq<nat>, conflicts: set<(nat, nat)>, k: nat) {
    && k < |candidates|
    && var r := Compose(g, baseline, candidates[..k], conflicts);
       && r.baseline.Some?
       && !Reaches(r.graph, candidates[k], r.baseline.value) && !Reaches(r.graph, r.baseline.value, candidates[k])
       && (r.baseline.value, candidates[k]) in conflicts
  }

  /** Composition fails exactly if some needed merge conflicts; without conflicts it never does. */
  lemma {:induction false} FailsExactlyOnConflict(g: Graph, baseline: nat, candidates: seq<nat>, conflicts: set<(nat, nat)>)
    ensures Compose(g, baseline, candidates, conflicts).baseline.None? <==>
            exists k: nat :: ConflictsAt(g, baseline, candidates, conflicts, k)
    ensures conflicts == {} ==> Compose(g, baseline, candidates, conflicts).baseline.Some?
  {
    if |candidates| > 0 {
      var n: nat := |candidates| - 1;
      FailsExactlyOnConflict(g, baseline, candidates[..n], conflicts);
      ConflictsInFront(g, baseline, candidates, conflicts);
      assert ConflictsAt(g, baseline, candidates, conflicts, n)
        <==> var before := Compose(g, baseline, candidates[..n], conflicts);
             before.baseline.Some? && Conflicting(before.graph, before.baseline.value, candidates[n], conflicts);
    }
  }

  lemma {:induction false} ConflictsInFront(g: Graph, baseline: nat, candidates: seq<nat>, conflicts: set<(nat, nat)>)
    requires |candidates| > 0
    ensures var n: nat := |candidates| - 1;
            forall k: nat :: ConflictsAt(g, baseline, candidates, conflicts, k)
                             <==> ConflictsAt(g, baseline, candidates[..n], conflicts, k)
                                  || (k == n && ConflictsAt(g, baseline, candidates, conflicts, n))
  {
    var n: nat := |candidates| - 1;
    forall k: nat | k < n
      ensures ConflictsAt(g, baseline, candidates, conflicts, k) <==> ConflictsAt(g, baseline, candidates[..n], conflicts, k)
    {
      assert candidates[..n][..k] == candidates[..k];
    }
  }

  /** Inputs that are already contained are reused, never applied twice. */
  lemma {:induction false} ContainedInputsChangeNothing(g: Graph, baseline: nat, candidates: seq<nat>, conflicts: set<(nat, nat)>)
    requires forall i | 0 <= i < |candidates| :: Reaches(g, candidates[i], baseline)
    ensures Compose(g, baseline, candidates, conflicts) == Composed(g, Some(baseline))
  {
    if |candidates| > 0 { ContainedInputsChangeNothing(g, baseline, candidates[..|candidates| - 1], conflicts); }
  }

  /** Composing the same inputs again returns the same commit and makes none. */
  lemma {:induction false} ComposingAgainChangesNothing(g: Graph, baseline: nat, candidates: seq<nat>, conflicts: set<(nat, nat)>)
    requires Inputs(g, baseline, candidates) && Compose(g, baseline, candidates, conflicts).baseline.Some?
    ensures var r := Compose(g, baseline, candidates, conflicts); Compose(r.graph, r.baseline.value, candidates, conflicts) == r
  {
    ComposedContainsAll(g, baseline, candidates, conflicts);
    var r := Compose(g, baseline, candidates, conflicts);
    ContainedInputsChangeNothing(r.graph, r.baseline.value, candidates, conflicts);
  }

  datatype Refusal = CustomMerge | Conflict | NotContained

  datatype Outcome = Ready(baseline: nat) | Refused(reason: Refusal)

  /** The object store of a workspace. */
  class Repository {
    var commits: Graph

    constructor (g: Graph)
      ensures commits == g
    {
      commits := g;
    }

    /** Object-only composition; the closing check over all candidates is made and never refuses. */
    method ComposeInputs(start: nat, candidates: seq<nat>, conflicts: set<(nat, nat)>, customMerge: bool) returns (r: Outcome)
      requires Inputs(commits, start, candidates)
      modifies this
      ensures WellFounded(commits) && old(commits) <= commits && |commits| <= |old(commits)| + |candidates|
      ensures r == Refused(CustomMerge) <==> customMerge
      ensures customMerge ==> commits == old(commits)
      ensures !customMerge ==> commits == Compose(old(commits), start, candidates, conflicts).graph
      ensures r.Ready? ==>
                && Some(r.baseline) == Compose(old(commits), start, candidates, conflicts).baseline
                && Reaches(commits, start, r.baseline)
                && forall i | 0 <= i < |candidates| :: Reaches(commits, candidates[i], r.baseline)
      ensures r == Refused(Conflict) <==> !customMerge && exists k: nat :: ConflictsAt(old(commits), start, candidates, conflicts, k)
      ensures conflicts == {} && !customMerge ==> r.Ready?
      ensures r != Refused(NotContained)
    {
      if customMerge { return Refused(CustomMerge); }
      GraphOnlyGrows(commits, start, candidates, conflicts);
      FailsExactlyOnConflict(commits, start, candidates, conflicts);
      ghost var g := commits;
      var joined := JoinAll(start, candidates, conflicts);
      if joined.None? { return Refused(Conflict); }
      ComposedContainsAll(g, start, candidates, conflicts);
      for i := 0 to |candidates|
      {
        if !Reaches(commits, candidates[i], joined.value) { return Refused(NotContained); }
      }
      return Ready(joined.value);
    }

    /** Each candidate is skipped, taken over or merged in turn, up to the first merge that does not apply cleanly. */
    method JoinAll(start: nat, candidates: seq<nat>, conflicts: set<(nat, nat)>) returns (joined: Option<nat>)
      requires Inputs(commits, start, candidates)
      modifies this
      ensures Composed(commits, joined) == Compose(old(commits), start, candidates, conflicts)
    {
      ghost var g := commits;
      var baseline: nat := start;
      for i := 0 to |candidates|
        invariant Compose(g, start, candidates[..i], conflicts) == Composed(commits, Some(baseline))
      {
        var candidate := candidates[i];
        assert candidates[..i + 1][..i] == candidates[..i];
        GraphOnlyGrows(g, start, candidates[..i], conflicts);
        if Reaches(commits, candidate, baseline) {
        } else if Reaches(commits, baseline, candidate) {
          baseline := candidate;
        } else if (baseline, candidate) in conflicts {
          assert Compose(g, start, candidates[..i + 1], conflicts) == Composed(commits, None);
          FailureStays(g, start, candidates, conflicts, i + 1);
          return None;
        } else {
          commits := commits + [[baseline, candidate]];
          baseline := |commits| - 1;
        }
      }
      assert candidates[..|candidates|] == candidates;
      return Some(baseline);
    }
  }

  lemma {:induction false} FailureStays(g: Graph, baseline: nat, candidates: seq<nat>, conflicts: set<(nat, nat)>, n: nat)
    requires n <= |candidates| && Compose(g, baseline, candidates[..n], conflicts).baseline.None?
    ensures Compose(g, baseline, candidates, conflicts) == Compose(g, baseline, candidates[..n], conflicts)
    decreases |candidates|
  {
    if n < |candidates| {
      var shorter := candidates[..|candidates| - 1];
      assert shorter[..n] == candidates[..n];
      FailureStays(g, baseline, shorter, conflicts, n);
    } else {
      assert candidates[..n] == candidates;
    }
  }
}
