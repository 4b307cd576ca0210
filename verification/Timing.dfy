/** Client timing that leaves out the time spent waiting for the owner. */
module Timing {
  datatype Option<+T> = None | Some(value: T)

  datatype Pause = Pause(start: int, end: Option<int>)

  function Max(a: int, b: int): int { if a >= b then a else b }

  function Min(a: int, b: int): int { if a <= b then a else b }

  function Monus(a: int, b: int): int { Max(0, a - b) }

  // ------------------------------------------------------------ pauses and instants

  /** Pauses follow each other, and only the last may be open. */
  predicate Ordered(pauses: seq<Pause>) {
    && (forall i | 0 <= i < |pauses| && pauses[i].end.Some? :: pauses[i].start <= pauses[i].end.value)
    && (forall i, j | 0 <= i < j < |pauses| :: pauses[i].end.Some? && pauses[i].end.value <= pauses[j].start)
  }

  /** The owner is waited for at this instant. */
  predicate Holds(p: Pause, t: int) { p.start <= t && (p.end.None? || t < p.end.value) }

  predicate WaitedAt(pauses: seq<Pause>, t: int) { exists i | 0 <= i < |pauses| :: Holds(pauses[i], t) }

  /** The instants from `from` to `to` at which nobody waited: what a duration means. */
  function Counted(pauses: seq<Pause>, from: int, to: int): nat
    decreases to - from
  {
    if to <= from then 0 else Counted(pauses, from, to - 1) + (if WaitedAt(pauses, to - 1) then 0 else 1)
  }

  // ------------------------------------------------------------------ the span loop

  function Overlap(p: Pause, ended: Option<int>, to: int, from: int): int {
    var end := if p.end.Some? then p.end.value else if ended.Some? then ended.value else to;
    Monus(Min(end, to), Max(p.start, from))
  }

  /** The running total after the first `n` pauses. */
  function SpanUpto(pauses: seq<Pause>, ended: Option<int>, to: int, from: int, n: nat): int
    requires n <= |pauses|
  {
    if n == 0 then Monus(to, from)
    else Monus(SpanUpto(pauses, ended, to, from, n - 1), Overlap(pauses[n - 1], ended, to, from))
  }

  function Span(pauses: seq<Pause>, ended: Option<int>, to: int, from: int): int {
    SpanUpto(pauses, ended, to, from, |pauses|)
  }

  function Overlaps(pauses: seq<Pause>, ended: Option<int>, to: int, from: int, n: nat): int
    requires n <= |pauses|
  {
    if n == 0 then 0 else Overlaps(pauses, ended, to, from, n - 1) + Overlap(pauses[n - 1], ended, to, from)
  }

  /** One instant more: the overlap of a pause grows by one exactly if the pause holds that instant. */
  lemma {:induction false} OverlapStep(p: Pause, ended: Option<int>, to: int, from: int)
    requires from < to && (ended.Some? ==> to <= ended.value)
    ensures Overlap(p, ended, to, from) == Overlap(p, ended, to - 1, from) + (if Holds(p, to - 1) then 1 else 0)
  {
  }

  lemma {:induction false} OverlapsStep(pauses: seq<Pause>, ended: Option<int>, to: int, from: int, n: nat)
    requires from < to && n <= |pauses| && Ordered(pauses) && (ended.Some? ==> to <= ended.value)
    ensures Overlaps(pauses, ended, to, from, n)
            == Overlaps(pauses, ended, to - 1, from, n) + (if WaitedAt(pauses[..n], to - 1) then 1 else 0)
  {
    if n > 0 {
      OverlapsStep(pauses, ended, to, from, n - 1);
      OverlapStep(pauses[n - 1], ended, to, from);
      if WaitedAt(pauses[..n - 1], to - 1) {
        var i :| 0 <= i < n - 1 && Holds(pauses[..n - 1][i], to - 1);
        assert Holds(pauses[..n][i], to - 1);
        assert pauses[i].end.Some? && pauses[i].end.value <= pauses[n - 1].start;
      } else if Holds(pauses[n - 1], to - 1) {
        assert Holds(pauses[..n][n - 1], to - 1);
      } else {
        forall i | 0 <= i < n ensures !Holds(pauses[..n][i], to - 1) {
          if i < n - 1 { assert pauses[..n - 1][i] == pauses[..n][i]; }
        }
      }
    }
  }

  lemma {:induction false} NothingOverlapsNothing(pauses: seq<Pause>, ended: Option<int>, to: int, from: int, n: nat)
    requires to <= from && n <= |pauses|
    ensures Overlaps(pauses, ended, to, from, n) == 0 && SpanUpto(pauses, ended, to, from, n) == 0
  {
    if n > 0 { NothingOverlapsNothing(pauses, ended, to, from, n - 1); }
  }

  /** The overlaps add up to the instants that were waited. */
  lemma {:induction false} OverlapsAreWaited(pauses: seq<Pause>, ended: Option<int>, from: int, n: nat)
    requires Ordered(pauses) && (ended.Some? ==> from + n <= ended.value)
    ensures Overlaps(pauses, ended, from + n, from, |pauses|) == n - Counted(pauses, from, from + n)
  {
    var all := |pauses|;
    if n == 0 {
      NothingOverlapsNothing(pauses, ended, from, from, all);
    } else {
      OverlapsAreWaited(pauses, ended, from, n - 1);
      OverlapsStep(pauses, ended, from + n, from, all);
      assert pauses[..all] == pauses;
    }
  }

  lemma {:induction false} OverlapsGrow(pauses: seq<Pause>, ended: Option<int>, to: int, from: int, n: nat, m: nat)
    requires n <= m <= |pauses|
    ensures Overlaps(pauses, ended, to, from, n) <= Overlaps(pauses, ended, to, from, m)
    decreases m
  {
    if n < m { OverlapsGrow(pauses, ended, to, from, n, m - 1); }
  }

  lemma {:induction false} NoSaturation(pauses: seq<Pause>, ended: Option<int>, to: int, from: int, n: nat)
    requires Ordered(pauses) && from <= to && n <= |pauses| && (ended.Some? ==> to <= ended.value)
    ensures SpanUpto(pauses, ended, to, from, n) == to - from - Overlaps(pauses, ended, to, from, n)
  {
    if n > 0 {
      NoSaturation(pauses, ended, to, from, n - 1);
      OverlapsGrow(pauses, ended, to, from, n, |pauses|);
      OverlapsAreWaited(pauses, ended, from, to - from);
    }
  }

  /** A span is the number of instants at which nobody waited, and it never saturates. */
  lemma {:induction false} SpanIsCounted(pauses: seq<Pause>, ended: Option<int>, to: int, from: int)
    requires Ordered(pauses) && (ended.Some? ==> to <= ended.value)
    ensures Span(pauses, ended, to, from) == Counted(pauses, from, to)
    ensures from <= to ==> Span(pauses, ended, to, from) == to - from - Overlaps(pauses, ended, to, from, |pauses|)
  {
    if from <= to {
      NoSaturation(pauses, ended, to, from, |pauses|);
      OverlapsAreWaited(pauses, ended, from, to - from);
    } else {
      NothingOverlapsNothing(pauses, ended, to, from, |pauses|);
    }
  }

  lemma {:induction false} CountedAdds(pauses: seq<Pause>, a: int, b: int, c: int)
    requires a <= b <= c
    ensures Counted(pauses, a, c) == Counted(pauses, a, b) + Counted(pauses, b, c)
    decreases c - b
  {
    if b < c { CountedAdds(pauses, a, b, c - 1); }
  }

  // ----------------------------------------------------------------------- reports

  datatype Record = Record(started: int, admitted: Option<int>, first: Option<int>, ended: Option<int>, pauses: seq<Pause>)

  /** The durations of a summary: total, and queue, first text and stream as far as they are known. */
  datatype Report = Report(total: int, queue: Option<int>, toFirst: Option<int>, stream: Option<int>)

  function EndOf(r: Record, now: int): int { if r.ended.Some? then r.ended.value else now }

  function Summary(r: Record, now: int): Report {
    var end := EndOf(r, now);
    var total := Span(r.pauses, r.ended, end, r.started);
    if r.admitted.None? then Report(total, None, None, None)
    else
      var queue := Span(r.pauses, r.ended, r.admitted.value, r.started);
      if r.first.None? then Report(total, Some(queue), Some(Span(r.pauses, r.ended, end, r.admitted.value)), None)
      else Report(total, Some(queue), Some(Span(r.pauses, r.ended, r.first.value, r.admitted.value)),
                  Some(Span(r.pauses, r.ended, end, r.first.value)))
  }

  /** Every instant recorded lies between the start and the latest clock reading, or the end. */
  predicate Within(r: Record, clock: int) {
    && r.started <= clock
    && (r.ended.Some? ==> r.started <= r.ended.value <= clock)
    && (r.admitted.Some? ==> r.started <= r.admitted.value <= EndOf(r, clock))
    && (r.first.Some? ==> r.started <= r.first.value <= EndOf(r, clock))
    && Ordered(r.pauses)
    && (forall i | 0 <= i < |r.pauses| ::
          && r.started <= r.pauses[i].start <= EndOf(r, clock)
          && (r.pauses[i].end.Some? ==> r.pauses[i].end.value <= clock))
  }

  /**
   * What a summary says: the total from the start to the end or now, the queue up to the admission, then up to the
   * first text, or to the end or now while there is none, and the stream from there, each without the time in
   * which the owner was waited for.
   */
  lemma {:induction false} SummaryMeans(r: Record, now: int)
    requires Within(r, now)
    ensures var s := Summary(r, now);
            var end := if r.ended.Some? then r.ended.value else now;
            && s.total == Counted(r.pauses, r.started, end)
            && (s.queue.Some? <==> r.admitted.Some?) && (s.toFirst.Some? <==> r.admitted.Some?)
            && (s.stream.Some? <==> r.admitted.Some? && r.first.Some?)
            && (r.admitted.Some? ==>
                  && s.queue.value == Counted(r.pauses, r.started, r.admitted.value)
                  && s.toFirst.value == Counted(r.pauses, r.admitted.value, if r.first.Some? then r.first.value else end))
            && (r.admitted.Some? && r.first.Some? ==> s.stream.value == Counted(r.pauses, r.first.value, end))
  {
    var end := EndOf(r, now);
    SpanIsCounted(r.pauses, r.ended, end, r.started);
    if r.admitted.Some? {
      SpanIsCounted(r.pauses, r.ended, r.admitted.value, r.started);
      SpanIsCounted(r.pauses, r.ended, end, r.admitted.value);
      if r.first.Some? {
        SpanIsCounted(r.pauses, r.ended, r.first.value, r.admitted.value);
        SpanIsCounted(r.pauses, r.ended, end, r.first.value);
      }
    }
  }

  /** The parts of a summary add up to its total exactly when no counted time lies between the first text and a later admission. */
  lemma {:induction false} PartsAddUp(r: Record, now: int)
    requires Within(r, now) && r.admitted.Some? && r.first.Some?
    ensures var s := Summary(r, now);
            s.queue.value + s.toFirst.value + s.stream.value == s.total
            <==> Counted(r.pauses, r.first.value, r.admitted.value) == 0
    ensures r.admitted.value <= r.first.value ==> Counted(r.pauses, r.first.value, r.admitted.value) == 0
  {
    var end := EndOf(r, now);
    SpanIsCounted(r.pauses, r.ended, end, r.started);
    SpanIsCounted(r.pauses, r.ended, r.admitted.value, r.started);
    SpanIsCounted(r.pauses, r.ended, r.first.value, r.admitted.value);
    SpanIsCounted(r.pauses, r.ended, end, r.first.value);
    if r.admitted.value <= r.first.value {
      CountedAdds(r.pauses, r.started, r.admitted.value, r.first.value);
      CountedAdds(r.pauses, r.started, r.first.value, end);
    } else {
      CountedAdds(r.pauses, r.started, r.first.value, r.admitted.value);
      CountedAdds(r.pauses, r.started, r.first.value, end);
    }
  }

  /** Before any text, queue and waiting time make the total. */
  lemma {:induction false} WaitingAddsUp(r: Record, now: int)
    requires Within(r, now) && r.admitted.Some? && r.first.None?
    ensures var s := Summary(r, now); s.queue.value + s.toFirst.value == s.total
  {
    var end := EndOf(r, now);
    SpanIsCounted(r.pauses, r.ended, end, r.started);
    SpanIsCounted(r.pauses, r.ended, r.admitted.value, r.started);
    SpanIsCounted(r.pauses, r.ended, end, r.admitted.value);
    CountedAdds(r.pauses, r.started, r.admitted.value, end);
  }

  // ------------------------------------------------------------------------ freezing

  predicate Open(p: Pause) { p.end.None? }

  /** Closing the last pause at or after the end changes no span up to the end. */
  lemma {:induction false} LateCloseKeepsSpans(pauses: seq<Pause>, ended: int, now: int, to: int, from: int, n: nat)
    requires |pauses| > 0 && Open(pauses[|pauses| - 1]) && to <= ended <= now && n <= |pauses|
    ensures SpanUpto(pauses[|pauses| - 1 := pauses[|pauses| - 1].(end := Some(now))], Some(ended), to, from, n)
            == SpanUpto(pauses, Some(ended), to, from, n)
  {
    if n > 0 { LateCloseKeepsSpans(pauses, ended, now, to, from, n - 1); }
  }

  /** What a later call may still do to a finished record: close its last pause. */
  predicate Settled(r: Record, s: Record) {
    && s.started == r.started && s.admitted == r.admitted && s.first == r.first && s.ended == r.ended
    && |s.pauses| == |r.pauses|
    && (s.pauses == r.pauses
        || (|r.pauses| > 0 && Open(r.pauses[|r.pauses| - 1]) && s.pauses[|s.pauses| - 1].end.Some?
            && r.ended.Some? && s.pauses[|s.pauses| - 1].end.value >= r.ended.value
            && s.pauses == r.pauses[|r.pauses| - 1 := r.pauses[|r.pauses| - 1].(end := s.pauses[|s.pauses| - 1].end)]))
  }

  lemma {:induction false} SettledReadsSame(r: Record, s: Record, now: int, later: int)
    requires r.ended.Some? && Settled(r, s)
    requires (r.admitted.Some? ==> r.admitted.value <= r.ended.value) && (r.first.Some? ==> r.first.value <= r.ended.value)
    ensures Summary(s, later) == Summary(r, now)
  {
    if s.pauses != r.pauses {
      var n := |r.pauses|;
      var ended, end := r.ended.value, s.pauses[n - 1].end.value;
      LateCloseKeepsSpans(r.pauses, ended, end, ended, r.started, n);
      if r.admitted.Some? {
        LateCloseKeepsSpans(r.pauses, ended, end, r.admitted.value, r.started, n);
        LateCloseKeepsSpans(r.pauses, ended, end, ended, r.admitted.value, n);
        if r.first.Some? {
          LateCloseKeepsSpans(r.pauses, ended, end, r.first.value, r.admitted.value, n);
          LateCloseKeepsSpans(r.pauses, ended, end, ended, r.first.value, n);
        }
      }
    }
  }

  // ---------------------------------------------------------------------- the object

  predicate AnyOpen(pauses: seq<Pause>) { exists i | 0 <= i < |pauses| :: Open(pauses[i]) }

  /** Only the last pause can be open. */
  lemma {:induction false} OpenIsLast(pauses: seq<Pause>)
    requires Ordered(pauses)
    ensures AnyOpen(pauses) <==> |pauses| > 0 && Open(pauses[|pauses| - 1])
  {
    if AnyOpen(pauses) {
      var i :| 0 <= i < |pauses| && Open(pauses[i]);
      var last := |pauses| - 1;
      assert i < last ==> pauses[i].end.Some? && pauses[i].end.value <= pauses[last].start;
    }
  }

  function Closed(pauses: seq<Pause>, now: int): seq<Pause>
    requires |pauses| > 0
  {
    pauses[|pauses| - 1 := pauses[|pauses| - 1].(end := Some(now))]
  }

  lemma {:induction false} CloseKeepsWithin(r: Record, clock: int, now: int)
    requires Within(r, clock) && clock <= now && |r.pauses| > 0 && Open(r.pauses[|r.pauses| - 1])
    ensures Within(r.(pauses := Closed(r.pauses, now)), now) && !AnyOpen(Closed(r.pauses, now))
  {
    var s := Closed(r.pauses, now);
    forall i | 0 <= i < |s| ensures s[i].end.Some? && r.started <= s[i].start <= s[i].end.value <= now {
      if i < |s| - 1 { assert s[i] == r.pauses[i] && r.pauses[i].end.Some?; }
    }
    forall i, j | 0 <= i < j < |s| ensures s[i].end.value <= s[j].start { assert s[i] == r.pauses[i]; }
  }

  lemma {:induction false} PushKeepsWithin(r: Record, clock: int, now: int)
    requires Within(r, clock) && clock <= now && r.ended.None? && !AnyOpen(r.pauses)
    ensures Within(r.(pauses := r.pauses + [Pause(now, None)]), now)
  {
    var s := r.pauses + [Pause(now, None)];
    forall i | 0 <= i < |r.pauses| ensures r.pauses[i].end.Some? { assert !Open(r.pauses[i]); }
    forall i, j | 0 <= i < j < |s| ensures s[i].end.Some? && s[i].end.value <= s[j].start { assert s[i] == r.pauses[i]; }
  }

  // ------------------------------------------------------------------------- calls

  datatype Call = Pausing | Resuming | Admitting | Texting | Finishing

  /** What one call makes of a record. */
  function Called(r: Record, call: Call, now: int): Record {
    match call
    case Pausing => if r.ended.None? && !AnyOpen(r.pauses) then r.(pauses := r.pauses + [Pause(now, None)]) else r
    case Resuming =>
      if |r.pauses| > 0 && Open(r.pauses[|r.pauses| - 1]) then r.(pauses := Closed(r.pauses, now)) else r
    case Admitting => if r.ended.None? && r.admitted.None? then r.(admitted := Some(now)) else r
    case Texting => if r.ended.None? && r.first.None? then r.(first := Some(now)) else r
    case Finishing => if r.ended.None? then r.(ended := Some(now)) else r
  }

  function New(now: int): Record { Record(now, None, None, None, []) }

  function Calls(r: Record, calls: seq<(Call, int)>): Record
    decreases |calls|
  {
    if |calls| == 0 then r else Calls(Called(r, calls[0].0, calls[0].1), calls[1..])
  }

  /** The clock never runs back. */
  predicate Monotone(clock: int, calls: seq<(Call, int)>)
    decreases |calls|
  {
    |calls| == 0 || (clock <= calls[0].1 && Monotone(calls[0].1, calls[1..]))
  }

  function ClockAfter(clock: int, calls: seq<(Call, int)>): int { if |calls| == 0 then clock else calls[|calls| - 1].1 }

  lemma {:induction false} CallKeepsWithin(r: Record, call: Call, clock: int, now: int)
    requires Within(r, clock) && clock <= now
    ensures Within(Called(r, call, now), now)
  {
    if call.Pausing? && r.ended.None? && !AnyOpen(r.pauses) { PushKeepsWithin(r, clock, now); }
    if call.Resuming? && |r.pauses| > 0 && Open(r.pauses[|r.pauses| - 1]) { CloseKeepsWithin(r, clock, now); }
  }

  /** Over any calls with a monotone clock the record stays in order: its pauses disjoint, only the last one open. */
  lemma {:induction false} CallsKeepWithin(r: Record, clock: int, calls: seq<(Call, int)>)
    requires Within(r, clock) && Monotone(clock, calls)
    ensures Within(Calls(r, calls), ClockAfter(clock, calls))
    decreases |calls|
  {
    if |calls| > 0 {
      CallKeepsWithin(r, calls[0].0, clock, calls[0].1);
      CallsKeepWithin(Called(r, calls[0].0, calls[0].1), calls[0].1, calls[1..]);
    }
  }

  lemma {:induction false} LateCallSettles(r: Record, call: Call, clock: int, now: int)
    requires Within(r, clock) && r.ended.Some? && clock <= now
    ensures Settled(r, Called(r, call, now))
  {
  }

  /** Any number of later calls do no more than one of them may. */
  lemma {:induction false} SettledChains(r: Record, s: Record, u: Record)
    requires Settled(r, s) && Settled(s, u)
    ensures Settled(r, u)
  {
  }

  lemma {:induction false} LateCallsSettle(r: Record, clock: int, calls: seq<(Call, int)>)
    requires Within(r, clock) && r.ended.Some? && Monotone(clock, calls)
    ensures Settled(r, Calls(r, calls))
    decreases |calls|
  {
    if |calls| > 0 {
      var s := Called(r, calls[0].0, calls[0].1);
      LateCallSettles(r, calls[0].0, clock, calls[0].1);
      CallKeepsWithin(r, calls[0].0, clock, calls[0].1);
      LateCallsSettle(s, calls[0].1, calls[1..]);
      SettledChains(r, s, Calls(r, calls));
    }
  }

  /** A finished summary never changes, whatever is called later, however often, and whenever it is read. */
  lemma {:induction false} FinishedIsFrozen(r: Record, clock: int, calls: seq<(Call, int)>, now: int, later: int)
    requires Within(r, clock) && r.ended.Some? && Monotone(clock, calls)
    ensures Summary(Calls(r, calls), later) == Summary(r, now)
  {
    LateCallsSettle(r, clock, calls);
    SettledReadsSame(r, Calls(r, calls), now, later);
  }

  lemma {:induction false} NobodyWaited(a: int, b: int)
    requires a <= b
    ensures Counted([], a, b) == b - a
    decreases b - a
  {
    if a < b { NobodyWaited(a, b - 1); }
  }

  /** Calls that reach a record whose parts exceed its total: a first text, then the admission, then the end. */
  lemma {:induction false} LateAdmissionDoesNotAddUp(start: int, text: int, admission: int, end: int, now: int)
    requires start <= text < admission <= end
    ensures var calls := [(Texting, text), (Admitting, admission), (Finishing, end)];
            var s := Summary(Calls(New(start), calls), now);
            && Monotone(start, calls) && s.queue.Some? && s.toFirst.Some? && s.stream.Some?
            && s.queue.value + s.toFirst.value + s.stream.value == s.total + (admission - text)
  {
    var calls := [(Texting, text), (Admitting, admission), (Finishing, end)];
    var a := Called(New(start), Texting, text);
    var b := Called(a, Admitting, admission);
    assert calls[1..] == [(Admitting, admission), (Finishing, end)];
    assert calls[1..][1..] == [(Finishing, end)] && calls[1..][1..][1..] == [];
    assert Monotone(admission, calls[1..][1..]) && Monotone(text, calls[1..]);
    assert Calls(New(start), calls) == Calls(a, calls[1..]) == Calls(b, calls[1..][1..]) == Called(b, Finishing, end);
  }

  /** While nobody is waited for, a pause and its end leave out exactly the instants between them. */
  lemma {:induction false} PauseIsLeftOut(r: Record, clock: int, from: int, until: int, t: int)
    requires Within(r, clock) && clock <= from <= until && r.ended.None? && !AnyOpen(r.pauses)
    ensures var paused := Calls(r, [(Pausing, from)]);
            var resumed := Calls(r, [(Pausing, from), (Resuming, until)]);
            && (WaitedAt(paused.pauses, t) <==> WaitedAt(r.pauses, t) || from <= t)
            && (WaitedAt(resumed.pauses, t) <==> WaitedAt(r.pauses, t) || from <= t < until)
  {
    var calls := [(Pausing, from), (Resuming, until)];
    assert calls[1..] == [(Resuming, until)] && [(Pausing, from)][1..] == [] && calls[1..][1..] == [];
    var paused := Called(r, Pausing, from);
    assert paused.pauses == r.pauses + [Pause(from, None)];
    var resumed := Called(paused, Resuming, until);
    assert resumed.pauses == r.pauses + [Pause(from, Some(until))];
    assert Calls(r, [(Pausing, from)]) == paused;
    assert Calls(r, calls) == Calls(paused, calls[1..]) == resumed;
    OneMorePause(r.pauses, Pause(from, None), t);
    OneMorePause(r.pauses, Pause(from, Some(until)), t);
  }

  lemma {:induction false} OneMorePause(pauses: seq<Pause>, p: Pause, t: int)
    ensures WaitedAt(pauses + [p], t) <==> WaitedAt(pauses, t) || Holds(p, t)
  {
    var more := pauses + [p];
    if WaitedAt(pauses, t) {
      var i :| 0 <= i < |pauses| && Holds(pauses[i], t);
      assert Holds(more[i], t);
    }
    if Holds(p, t) { assert Holds(more[|pauses|], t); }
  }

  /** Of several admissions, first texts or ends the first one counts, and none after the end. */
  lemma {:induction false} FirstOneCounts(r: Record, call: Call, now: int)
    requires call.Admitting? || call.Texting? || call.Finishing?
    ensures var s := Called(r, call, now);
            var told := (x: Record) => if call.Admitting? then x.admitted else if call.Texting? then x.first else x.ended;
            && told(s) == (if told(r).Some? || r.ended.Some? then told(r) else Some(now))
            && s.started == r.started && s.pauses == r.pauses
            && (call.Admitting? ==> s == r.(admitted := s.admitted))
            && (call.Texting? ==> s == r.(first := s.first))
            && (call.Finishing? ==> s == r.(ended := s.ended))
  {
  }

  class Stopwatch {
    var started: int
    var admitted: Option<int>
    var first: Option<int>
    var ended: Option<int>
    var pauses: seq<Pause>
    ghost var clock: int

    function Value(): Record
      reads this
    {
      Record(started, admitted, first, ended, pauses)
    }

    ghost predicate Valid()
      reads this
    {
      Within(Value(), clock)
    }

    constructor (now: int)
      ensures Valid() && clock == now && Value() == New(now)
    {
      started, admitted, first, ended, pauses := now, None, None, None, [];
      clock := now;
    }

    predicate Paused()
      reads this
    {
      AnyOpen(pauses)
    }

    method PauseAt(now: int)
      requires Valid() && now >= clock
      modifies this`pauses, this`clock
      ensures Valid() && clock == now
      ensures Value() == Called(old(Value()), Pausing, now)
    {
      if ended.None? && !Paused() {
        PushKeepsWithin(Value(), clock, now);
        pauses := pauses + [Pause(now, None)];
      }
      clock := now;
    }

    method ResumeAt(now: int)
      requires Valid() && now >= clock
      modifies this`pauses, this`clock
      ensures Valid() && clock == now && !Paused()
      ensures Value() == Called(old(Value()), Resuming, now)
    {
      OpenIsLast(pauses);
      if |pauses| > 0 && Open(pauses[|pauses| - 1]) {
        CloseKeepsWithin(Value(), clock, now);
        pauses := Closed(pauses, now);
      }
      clock := now;
    }

    method AdmitAt(now: int)
      requires Valid() && now >= clock
      modifies this`admitted, this`clock
      ensures Valid() && clock == now
      ensures Value() == Called(old(Value()), Admitting, now)
    {
      clock := now;
      if ended.None? && admitted.None? { admitted := Some(now); }
    }

    method TextAt(now: int)
      requires Valid() && now >= clock
      modifies this`first, this`clock
      ensures Valid() && clock == now
      ensures Value() == Called(old(Value()), Texting, now)
    {
      clock := now;
      if ended.None? && first.None? { first := Some(now); }
    }

    method FinishAt(now: int)
      requires Valid() && now >= clock
      modifies this`ended, this`clock
      ensures Valid() && clock == now
      ensures Value() == Called(old(Value()), Finishing, now)
    {
      clock := now;
      if ended.None? { ended := Some(now); }
    }

    /** Instants from `from` to `to` at which nobody waited. */
    method SpanOf(to: int, from: int) returns (total: int)
      requires Valid() && (ended.Some? ==> to <= ended.value)
      ensures total == Counted(pauses, from, to)
    {
      total := Monus(to, from);
      for i := 0 to |pauses|
        invariant total == SpanUpto(pauses, ended, to, from, i)
      {
        var p := pauses[i];
        var end := if p.end.Some? then p.end.value else if ended.Some? then ended.value else to;
        total := Monus(total, Monus(Min(end, to), Max(p.start, from)));
      }
      SpanIsCounted(pauses, ended, to, from);
    }
  }

}
