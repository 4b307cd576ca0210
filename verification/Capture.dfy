/** Capturing process output: several threads share one byte budget, in any interleaving of their atomic steps. */
module Capture {
  type Byte = bv8

  /** Where a capture thread is in its loop; `Limiting` has found the budget exceeded. */
  datatype Place = Reading | Counting(chunk: seq<Byte>) | Keeping(chunk: seq<Byte>, prior: nat) | Limiting | Stopped

  datatype Thread = Thread(read: seq<Byte>, output: seq<Byte>, place: Place)

  datatype World = World(total: nat, limited: bool, threads: seq<Thread>)

  const BUFFER: nat := 4096

  /** One atomic step of a thread; `chunk` is what a read returns, empty at the end of the stream. */
  datatype Event = Event(thread: nat, chunk: seq<Byte>)

  function Allowed(limit: nat, prior: nat): nat { if prior <= limit then limit - prior else 0 }

  function Min(a: nat, b: nat): nat { if a <= b then a else b }

  /** What a thread that has counted its chunk will keep of it. */
  function Kept(limit: nat, chunk: seq<Byte>, prior: nat): seq<Byte> { chunk[..Min(|chunk|, Allowed(limit, prior))] }

  function Advance(limit: nat, w: World, t: Thread, chunk: seq<Byte>): (World, Thread) {
    match t.place
    case Reading =>
      if |chunk| == 0 then (w, t.(place := Stopped))
      else (w, t.(read := t.read + chunk, place := Counting(chunk)))
    case Counting(counted) => (w.(total := w.total + |counted|), t.(place := Keeping(counted, w.total)))
    case Keeping(counted, prior) =>
      (w, t.(output := t.output + Kept(limit, counted, prior), place := if prior + |counted| > limit then Limiting else Reading))
    case Limiting => (w.(limited := true), t.(place := Stopped))
    case Stopped => (w, t)
  }

  function Next(limit: nat, w: World, e: Event): World {
    if e.thread >= |w.threads| || |e.chunk| > BUFFER then w
    else
      var (after, t) := Advance(limit, w, w.threads[e.thread], e.chunk);
      after.(threads := w.threads[e.thread := t])
  }

  function Play(limit: nat, w: World, events: seq<Event>): World {
    if |events| == 0 then w else Next(limit, Play(limit, w, events[..|events| - 1]), events[|events| - 1])
  }

  function Fresh(count: nat): World {
    World(0, false, seq(count, i requires 0 <= i < count => Thread([], [], Reading)))
  }

  // ------------------------------------------------------------------ accounting

  /** Bytes kept by a thread, with the part of a counted chunk it is about to keep. */
  function Retained(limit: nat, t: Thread): nat {
    |t.output| + (if t.place.Keeping? then Min(|t.place.chunk|, Allowed(limit, t.place.prior)) else 0)
  }

  /** Bytes of a thread that entered the shared total. */
  function Counted(t: Thread): int { |t.read| - (if t.place.Counting? then |t.place.chunk| else 0) }

  function AllRetained(limit: nat, threads: seq<Thread>): nat {
    if |threads| == 0 then 0 else Retained(limit, threads[0]) + AllRetained(limit, threads[1..])
  }

  function AllCounted(threads: seq<Thread>): int {
    if |threads| == 0 then 0 else Counted(threads[0]) + AllCounted(threads[1..])
  }

  lemma {:induction false} OneChanges(limit: nat, threads: seq<Thread>, i: nat, t: Thread)
    requires i < |threads|
    ensures AllRetained(limit, threads[i := t]) == AllRetained(limit, threads) - Retained(limit, threads[i]) + Retained(limit, t)
    ensures AllCounted(threads[i := t]) == AllCounted(threads) - Counted(threads[i]) + Counted(t)
  {
    if i == 0 {
      assert threads[i := t][1..] == threads[1..];
    } else {
      assert threads[i := t][1..] == threads[1..][i - 1 := t];
      OneChanges(limit, threads[1..], i - 1, t);
    }
  }

  /** The thread is about to raise the flag. */
  predicate Raising(limit: nat, t: Thread) {
    t.place.Limiting? || (t.place.Keeping? && t.place.prior + |t.place.chunk| > limit)
  }

  /** Everything kept is a prefix of what was read, and complete while the thread still reads on. */
  predicate ThreadSound(limit: nat, total: nat, t: Thread) {
    && (t.place.Reading? ==> t.output == t.read)
    && (t.place.Counting? || t.place.Keeping? ==> t.output + t.place.chunk == t.read)
    && (t.place.Keeping? ==> t.place.prior + |t.place.chunk| <= total)
    && t.output <= t.read
    && (t.place.Limiting? ==> total > limit)
  }

  predicate Sound(limit: nat, w: World) {
    && (forall i | 0 <= i < |w.threads| :: ThreadSound(limit, w.total, w.threads[i]))
    && w.total == AllCounted(w.threads)
    && AllRetained(limit, w.threads) == Min(limit, w.total)
    && (w.limited ==> w.total > limit)
    && (w.total > limit ==> w.limited || exists i | 0 <= i < |w.threads| :: Raising(limit, w.threads[i]))
  }

  lemma {:induction false} AdvanceSound(limit: nat, w: World, t: Thread, chunk: seq<Byte>)
    requires ThreadSound(limit, w.total, t)
    ensures var (after, u) := Advance(limit, w, t, chunk);
            && ThreadSound(limit, after.total, u)
            && after.total >= w.total && after.threads == w.threads
            && after.total - w.total == Counted(u) - Counted(t)
            && Retained(limit, u) - Retained(limit, t) == Min(limit, after.total) - Min(limit, w.total)
            && (w.limited ==> after.limited)
            && (after.limited && !w.limited ==> w.total > limit)
            && (Raising(limit, t) ==> Raising(limit, u) || after.limited)
            && (after.total > limit && w.total <= limit ==> Raising(limit, u))
  {
  }

  lemma {:induction false} NextSound(limit: nat, w: World, e: Event)
    requires Sound(limit, w)
    ensures Sound(limit, Next(limit, w, e))
  {
    if e.thread < |w.threads| && |e.chunk| <= BUFFER {
      var i := e.thread;
      var (after, t) := Advance(limit, w, w.threads[i], e.chunk);
      AdvanceSound(limit, w, w.threads[i], e.chunk);
      OneChanges(limit, w.threads, i, t);
      var n := Next(limit, w, e);
      if n.total > limit && !n.limited {
        if w.total > limit {
          var j :| 0 <= j < |w.threads| && Raising(limit, w.threads[j]);
          assert Raising(limit, n.threads[j]);
        } else {
          assert Raising(limit, n.threads[i]);
        }
      }
    }
  }

  lemma {:induction false} FreshSums(limit: nat, count: nat)
    ensures AllRetained(limit, Fresh(count).threads) == 0 && AllCounted(Fresh(count).threads) == 0
  {
    if count > 0 {
      assert Fresh(count).threads[1..] == Fresh(count - 1).threads;
      FreshSums(limit, count - 1);
    }
  }

  lemma {:induction false} PlaySound(limit: nat, count: nat, events: seq<Event>)
    ensures Sound(limit, Play(limit, Fresh(count), events)) && |Play(limit, Fresh(count), events).threads| == count
  {
    if |events| == 0 {
      FreshSums(limit, count);
    } else {
      PlaySound(limit, count, events[..|events| - 1]);
      NextSound(limit, Play(limit, Fresh(count), events[..|events| - 1]), events[|events| - 1]);
    }
  }

  // -------------------------------------------------------------------- the result

  predicate Finished(w: World) { forall i | 0 <= i < |w.threads| :: w.threads[i].place.Stopped? }

  function OutputBytes(threads: seq<Thread>): nat {
    if |threads| == 0 then 0 else |threads[0].output| + OutputBytes(threads[1..])
  }

  function ReadBytes(threads: seq<Thread>): nat {
    if |threads| == 0 then 0 else |threads[0].read| + ReadBytes(threads[1..])
  }

  lemma {:induction false} FinishedSums(limit: nat, threads: seq<Thread>)
    requires forall i | 0 <= i < |threads| :: threads[i].place.Stopped?
    ensures OutputBytes(threads) == AllRetained(limit, threads) && ReadBytes(threads) == AllCounted(threads)
  {
    if |threads| > 0 { FinishedSums(limit, threads[1..]); }
  }

  /**
   * Whatever the interleaving, once all threads are done they retain exactly min(limit, bytes read), the flag
   * is set exactly when more than the limit was read, and each output is a prefix of its stream.
   */
  lemma {:induction false} CaptureIsExact(limit: nat, count: nat, events: seq<Event>)
    requires Finished(Play(limit, Fresh(count), events))
    ensures var w := Play(limit, Fresh(count), events);
            && OutputBytes(w.threads) == Min(limit, ReadBytes(w.threads))
            && (w.limited <==> ReadBytes(w.threads) > limit)
            && forall i | 0 <= i < |w.threads| :: w.threads[i].output <= w.threads[i].read
  {
    PlaySound(limit, count, events);
    FinishedSums(limit, Play(limit, Fresh(count), events).threads);
  }

  /** At every moment of every run the retained bytes stay within the limit. */
  lemma {:induction false} NeverOverLimit(limit: nat, threads: seq<Thread>)
    ensures OutputBytes(threads) <= AllRetained(limit, threads)
  {
    if |threads| > 0 { NeverOverLimit(limit, threads[1..]); }
  }

  lemma {:induction false} CaptureStaysWithinLimit(limit: nat, count: nat, events: seq<Event>)
    ensures OutputBytes(Play(limit, Fresh(count), events).threads) <= limit
  {
    PlaySound(limit, count, events);
    NeverOverLimit(limit, Play(limit, Fresh(count), events).threads);
  }

  // -------------------------------------------------------------- the diagnostic

  /** The captured streams of a run, completed in place. */
  class Outcome {
    var stdout: seq<Byte>
    var stderr: seq<Byte>

    constructor (out: seq<Byte>, err: seq<Byte>)
      ensures stdout == out && stderr == err
    {
      stdout, stderr := out, err;
    }

    /** As much of the diagnostic, on a line of its own, as the budget still allows. */
    method AppendDiagnostic(diagnostic: seq<Byte>, budget: nat)
      modifies this`stderr
      ensures var separator := if |old(stderr)| == 0 then [] else [10];
              var whole := old(stderr) + separator + diagnostic;
              stderr == if |old(stderr)| >= budget then old(stderr) else whole[..Min(|whole|, budget)]
    {
      var message := (if |stderr| == 0 then [] else [10]) + diagnostic;
      var available := Allowed(budget, |stderr|);
      ghost var whole := stderr + message;
      if |message| <= available {
        stderr := stderr + message;
        assert whole[..|whole|] == whole;
      } else if available > 0 {
        stderr := stderr + message[..available];
        assert whole[..budget] == old(stderr) + message[..available];
      }
      assert old(stderr) + (if |old(stderr)| == 0 then [] else [10]) + diagnostic == whole;
    }

    /** The end of a run: invalid text is dropped whole, then a failure is explained within what is left. */
    method Conclude(limit: nat, valid: bool, diagnostic: seq<Byte>, explain: bool)
      requires |stdout| + |stderr| <= limit
      modifies this
      ensures |stdout| + |stderr| <= limit
      ensures stdout == if valid then old(stdout) else []
      ensures (if valid then old(stderr) else []) <= stderr
      ensures !explain ==> stderr == if valid then old(stderr) else []
    {
      if !valid { stdout, stderr := [], []; }
      if explain {
        ghost var before := stderr;
        AppendDiagnostic(diagnostic, Allowed(limit, |stdout|));
        if |before| < limit - |stdout| {
          var separator := if |before| == 0 then [] else [10];
          var whole := before + separator + diagnostic;
          assert whole[..|before|] == before;
        }
      }
    }
  }

  /** Both streams of a finished capture, with its diagnostic, stay within the request's limit. */
  method FinishRun(limit: nat, w: World, ghost events: seq<Event>, valid: bool, diagnostic: seq<Byte>, explain: bool)
      returns (stdout: seq<Byte>, stderr: seq<Byte>)
    requires w == Play(limit, Fresh(2), events)
    ensures |stdout| + |stderr| <= limit
    ensures |w.threads| == 2 && (valid ==> w.threads[0].output == stdout && w.threads[1].output <= stderr)
  {
    PlaySound(limit, 2, events);
    CaptureStaysWithinLimit(limit, 2, events);
    assert OutputBytes(w.threads) == |w.threads[0].output| + |w.threads[1].output| by {
      var others := w.threads[1..];
      assert others[0] == w.threads[1] && others[1..] == [];
      assert OutputBytes(others) == |others[0].output| + OutputBytes(others[1..]);
    }
    var outcome := new Outcome(w.threads[0].output, w.threads[1].output);
    outcome.Conclude(limit, valid, diagnostic, explain);
    return outcome.stdout, outcome.stderr;
  }
}
