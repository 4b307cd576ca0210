/** Replacing the oldest turns of a chat by a note: everything indexed by message moves by one cut. */
module Compaction {
  import opened Notes

  const KEEP_TURNS: nat := 2
  const COMPACT_AT: nat := 98304
  const REPLY_TOKENS: nat := 4096

  /** A message: its text by id, and the bytes of that text. */
  datatype Message = Message(text: nat, bytes: nat)

  datatype Note = Note(turns: nat, summary: string)

  /** What a compaction replaces, captured when it starts. */
  datatype Plan = Plan(turns: nat, cut: nat, bytes: nat, transcript: seq<Line>)

  datatype Line = Earlier(summary: string) | Spoken(message: Message) | Tools(step: nat)

  datatype Result = Summary(text: string) | Failure

  datatype Outcome = Ignored | Failed | Compacted(turns: nat, send: bool)

  // ------------------------------------------------------------------- renumbering

  /** An ordered map from message positions. */
  datatype Entry<V> = Entry(at: nat, value: V)

  type Table<V> = seq<Entry<V>>

  /** State indexed by message, after the first `cut` messages are gone. */
  function Shift<V>(entries: Table<V>, cut: nat): Table<V> {
    if |entries| == 0 then []
    else (if entries[0].at >= cut then [Entry(entries[0].at - cut, entries[0].value)] else []) + Shift(entries[1..], cut)
  }

  function ShiftAll(ns: seq<nat>, cut: nat): seq<nat> {
    if |ns| == 0 then [] else (if ns[0] >= cut then [ns[0] - cut] else []) + ShiftAll(ns[1..], cut)
  }

  function Back(n: nat, cut: nat): nat { if n >= cut then n - cut else 0 }

  function BackAll(ns: seq<nat>, cut: nat): (r: seq<nat>)
    ensures |r| == |ns| && forall i | 0 <= i < |ns| :: r[i] == Back(ns[i], cut)
  {
    seq(|ns|, i requires 0 <= i < |ns| => Back(ns[i], cut))
  }

  function Lookup<V>(entries: Table<V>, i: nat): Option<V> {
    if |entries| == 0 then None else if entries[0].at == i then Some(entries[0].value) else Lookup(entries[1..], i)
  }

  /** The shift is uniform: what is found at an index now was found at that index plus the cut. */
  lemma {:induction false} ShiftIsUniform<V>(entries: Table<V>, cut: nat, i: nat)
    ensures Lookup(Shift(entries, cut), i) == Lookup(entries, i + cut)
  {
    if |entries| > 0 {
      ShiftIsUniform(entries[1..], cut, i);
      assert Shift(entries, cut)[(if entries[0].at >= cut then 1 else 0)..] == Shift(entries[1..], cut);
    }
  }

  lemma {:induction false} ShiftAllIsUniform(ns: seq<nat>, cut: nat, i: nat)
    ensures i in ShiftAll(ns, cut) <==> i + cut in ns
  {
    if |ns| > 0 { ShiftAllIsUniform(ns[1..], cut, i); }
  }

  /** Two compactions move everything as one compaction of both cuts would. */
  lemma {:induction false} ShiftsAdd<V>(entries: Table<V>, a: nat, b: nat)
    ensures Shift(Shift(entries, a), b) == Shift(entries, a + b)
  {
    if |entries| > 0 {
      ShiftsAdd(entries[1..], a, b);
      assert Shift(entries, a)[(if entries[0].at >= a then 1 else 0)..] == Shift(entries[1..], a);
    }
  }

  /** Positions of receipts and commands: at turn boundaries, in order, within the chat. */
  predicate Placed(afters: seq<nat>, n: nat) {
    && (forall i | 0 <= i < |afters| :: afters[i] % 2 == 0 && afters[i] <= n)
    && (forall i, j | 0 <= i < j < |afters| :: afters[i] <= afters[j])
  }

  lemma {:induction false} BackStaysPlaced(afters: seq<nat>, n: nat, cut: nat)
    requires Placed(afters, n) && cut % 2 == 0 && cut <= n
    ensures Placed(BackAll(afters, cut), n - cut)
  {
  }

  predicate Within<V>(entries: Table<V>, n: nat) { forall k | 0 <= k < |entries| :: entries[k].at < n }

  lemma {:induction false} ShiftStaysWithin<V>(entries: Table<V>, n: nat, cut: nat)
    requires Within(entries, n) && cut <= n
    ensures Within(Shift(entries, cut), n - cut)
  {
    if |entries| > 0 { ShiftStaysWithin(entries[1..], n, cut); }
  }

  // ------------------------------------------------------------------------ sizes

  function MessageBytes(messages: seq<Message>): nat {
    if |messages| == 0 then 0 else messages[0].bytes + MessageBytes(messages[1..])
  }

  function Budget(window: Option<nat>): nat {
    var room := if window.None? then COMPACT_AT
                else if window.value <= REPLY_TOKENS then 0
                else if (window.value - REPLY_TOKENS) * 2 < COMPACT_AT then (window.value - REPLY_TOKENS) * 2 else COMPACT_AT;
    if room < 2048 then 2048 else room
  }

  function Even(n: nat): nat { n - n % 2 }

  /** The cut for so many kept turns, if older ones remain. */
  function CutFor(count: nat, keep: nat): Option<nat> {
    if Even(count) > keep * 2 then Some(Even(count) - keep * 2) else None
  }

  datatype Draft = Draft(text: nat, bytes: nat)

  datatype ToolStep = ToolStep(id: nat, bytes: nat)

  /** Everything a chat keeps by message position. */
  datatype Marks = Marks(
    sources: Table<nat>, attachments: Table<nat>, toolSteps: Table<seq<ToolStep>>, ruleMarks: Table<nat>,
    refusals: (nat, seq<nat>), offRows: seq<nat>, interrupted: seq<nat>, receipts: seq<nat>, commands: seq<nat>)

  /** The whole renumbering. */
  function Shifted(m: Marks, cut: nat): Marks {
    Marks(Shift(m.sources, cut), Shift(m.attachments, cut), Shift(m.toolSteps, cut), Shift(m.ruleMarks, cut),
          if m.refusals.0 >= cut then (m.refusals.0 - cut, m.refusals.1) else (0, []),
          BackAll(m.offRows, cut), ShiftAll(m.interrupted, cut), BackAll(m.receipts, cut), BackAll(m.commands, cut))
  }

  /** Every position is one of this many messages, and the listed ones are at turn boundaries in order. */
  predicate MarksFit(m: Marks, n: nat) {
    && Within(m.sources, n) && Within(m.attachments, n) && Within(m.toolSteps, n)
    && (forall k | 0 <= k < |m.interrupted| :: m.interrupted[k] < n)
    && Placed(m.receipts, n) && Placed(m.commands, n)
  }

  lemma {:induction false} ShiftedFits(m: Marks, n: nat, cut: nat)
    requires MarksFit(m, n) && cut % 2 == 0 && cut <= n
    ensures MarksFit(Shifted(m, cut), n - cut)
  {
    ShiftStaysWithin(m.sources, n, cut);
    ShiftStaysWithin(m.attachments, n, cut);
    ShiftStaysWithin(m.toolSteps, n, cut);
    ShiftAllStaysWithin(m.interrupted, n, cut);
    BackStaysPlaced(m.receipts, n, cut);
    BackStaysPlaced(m.commands, n, cut);
  }

  lemma {:induction false} ShiftAllStaysWithin(ns: seq<nat>, n: nat, cut: nat)
    requires cut <= n && forall k | 0 <= k < |ns| :: ns[k] < n
    ensures forall k | 0 <= k < |ShiftAll(ns, cut)| :: ShiftAll(ns, cut)[k] < n - cut
  {
    if |ns| > 0 { ShiftAllStaysWithin(ns[1..], n, cut); }
  }

  /** A surviving message keeps all that belongs to it. */
  lemma {:induction false} SurvivorsKeepTheirMarks(m: Marks, cut: nat, i: nat)
    ensures var s := Shifted(m, cut);
            && Lookup(s.sources, i) == Lookup(m.sources, i + cut)
            && Lookup(s.attachments, i) == Lookup(m.attachments, i + cut)
            && Lookup(s.toolSteps, i) == Lookup(m.toolSteps, i + cut)
            && Lookup(s.ruleMarks, i) == Lookup(m.ruleMarks, i + cut)
            && (i in s.interrupted <==> i + cut in m.interrupted)
  {
    ShiftIsUniform(m.sources, cut, i);
    ShiftIsUniform(m.attachments, cut, i);
    ShiftIsUniform(m.toolSteps, cut, i);
    ShiftIsUniform(m.ruleMarks, cut, i);
    ShiftAllIsUniform(m.interrupted, cut, i);
  }

  /** Receipts, commands and dispatch rows move back, to the start at most; refusal rows follow their prompt or go with it. */
  lemma {:induction false} PositionsMoveBack(m: Marks, cut: nat)
    ensures var s := Shifted(m, cut);
            var moved := (n: nat) => if n <= cut then 0 else n - cut;
            && |s.receipts| == |m.receipts| && (forall k | 0 <= k < |m.receipts| :: s.receipts[k] == moved(m.receipts[k]))
            && |s.commands| == |m.commands| && (forall k | 0 <= k < |m.commands| :: s.commands[k] == moved(m.commands[k]))
            && |s.offRows| == |m.offRows| && (forall k | 0 <= k < |m.offRows| :: s.offRows[k] == moved(m.offRows[k]))
            && (if m.refusals.0 < cut then s.refusals.1 == []
                else s.refusals.0 + cut == m.refusals.0 && s.refusals.1 == m.refusals.1)
  {
  }

  function StepsBytes(steps: seq<ToolStep>): nat {
    if |steps| == 0 then 0 else steps[0].bytes + StepsBytes(steps[1..])
  }

  function StepsAt(m: Marks, i: nat): seq<ToolStep> {
    var steps := Lookup(m.toolSteps, i);
    if steps.Some? then steps.value else []
  }

  function AttachedBytes(m: Marks, i: nat): nat {
    var bytes := Lookup(m.attachments, i);
    if bytes.Some? then bytes.value else 0
  }

  /** Bytes of the messages from here on, with their attachments and tool steps. */
  function KeptBytes(messages: seq<Message>, m: Marks, i: nat, n: nat): nat
    requires i <= n <= |messages|
    decreases n - i
  {
    if i == n then 0
    else
      messages[i].bytes + AttachedBytes(m, i) + StepsBytes(StepsAt(m, i))
      + KeptBytes(messages, m, i + 1, n)
  }

  /** Two turns are kept if they leave room for a note and the prompt, one otherwise. */
  function ChosenCut(messages: seq<Message>, m: Marks, prompt: nat, target: nat): (r: Option<nat>)
    ensures r.Some? <==> |messages| - |messages| % 2 > 2
    ensures r.Some? ==> r.value > 0 && r.value % 2 == 0 && r.value + 2 <= |messages|
  {
    var two := CutFor(|messages|, 2);
    if two.Some? && KeptBytes(messages, m, two.value, Even(|messages|)) + SUMMARY_MAX + prompt <= target then two
    else CutFor(|messages|, 1)
  }

  function ToolLines(steps: seq<ToolStep>): seq<Line> {
    seq(|steps|, i requires 0 <= i < |steps| => Tools(steps[i].id))
  }

  /** The replaced turns before `cut`, without the interrupted ones. */
  function SpokenBefore(messages: seq<Message>, m: Marks, cut: nat): seq<Line>
    requires cut <= |messages| && cut % 2 == 0
  {
    if cut == 0 then []
    else
      SpokenBefore(messages, m, cut - 2)
      + if cut - 2 in m.interrupted then []
        else [Spoken(messages[cut - 2])] + ToolLines(StepsAt(m, cut - 1)) + [Spoken(messages[cut - 1])]
  }

  // ------------------------------------------------------- what a plan replaces

  /** The bytes of the messages from `i` on that a request would still send, added up message by message. */
  function SentBytes(messages: seq<Message>, m: Marks, i: nat, n: nat): nat
    requires i <= n <= |messages|
  {
    if n == i then 0
    else
      SentBytes(messages, m, i, n - 1)
      + messages[n - 1].bytes + AttachedBytes(m, n - 1) + StepsBytes(StepsAt(m, n - 1))
  }

  lemma {:induction false} SentStep(messages: seq<Message>, m: Marks, i: nat, n: nat)
    requires i < n <= |messages|
    ensures SentBytes(messages, m, i, n)
            == messages[i].bytes + AttachedBytes(m, i) + StepsBytes(StepsAt(m, i)) + SentBytes(messages, m, i + 1, n)
    decreases n
  {
    if i + 1 < n { SentStep(messages, m, i, n - 1); }
  }

  lemma {:induction false} KeptIsSent(messages: seq<Message>, m: Marks, i: nat, n: nat)
    requires i <= n <= |messages|
    ensures KeptBytes(messages, m, i, n) == SentBytes(messages, m, i, n)
    decreases n - i
  {
    if i < n {
      KeptIsSent(messages, m, i + 1, n);
      SentStep(messages, m, i, n);
    }
  }

  /**
   * Of the complete turns the last two are kept if there are older ones and the two fit beside a note and the
   * prompt, and only the last otherwise; the turn that is being written is never cut.
   */
  lemma {:induction false} LastTurnsAreKept(messages: seq<Message>, m: Marks, prompt: nat, target: nat)
    ensures var turns := |messages| / 2;
            var cut := ChosenCut(messages, m, prompt, target);
            && (cut.None? <==> turns <= 1)
            && (cut.Some? ==>
                  cut.value == 2 * (turns - (if turns > 2 && SentBytes(messages, m, 2 * (turns - 2), 2 * turns) + SUMMARY_MAX + prompt <= target then 2 else 1)))
  {
    var turns := |messages| / 2;
    assert Even(|messages|) == 2 * turns;
    if turns > 2 { KeptIsSent(messages, m, 2 * (turns - 2), 2 * turns); }
  }

  /** One turn as the transcript tells it: the prompt, what the tools did, the reply; nothing of an interrupted turn. */
  function TurnLines(messages: seq<Message>, m: Marks, turn: nat): seq<Line>
    requires 2 * turn + 1 < |messages|
  {
    if 2 * turn in m.interrupted then []
    else [Spoken(messages[2 * turn])] + ToolLines(StepsAt(m, 2 * turn + 1)) + [Spoken(messages[2 * turn + 1])]
  }

  /** Turn after turn, the oldest first. */
  function ToldFrom(messages: seq<Message>, m: Marks, turn: nat, turns: nat): seq<Line>
    requires turn <= turns && 2 * turns <= |messages|
    decreases turns - turn
  {
    if turn == turns then [] else TurnLines(messages, m, turn) + ToldFrom(messages, m, turn + 1, turns)
  }

  lemma {:induction false} ToldUnfolds(messages: seq<Message>, m: Marks, turn: nat, turns: nat)
    requires turn < turns && 2 * turns <= |messages|
    ensures ToldFrom(messages, m, turn, turns) == TurnLines(messages, m, turn) + ToldFrom(messages, m, turn + 1, turns)
    ensures ToldFrom(messages, m, turns, turns) == []
  {
  }

  lemma {:induction false} ToldStep(messages: seq<Message>, m: Marks, turn: nat, turns: nat)
    requires turn < turns && 2 * turns <= |messages|
    ensures ToldFrom(messages, m, turn, turns) == ToldFrom(messages, m, turn, turns - 1) + TurnLines(messages, m, turns - 1)
    decreases turns - turn
  {
    var last := TurnLines(messages, m, turns - 1);
    ToldUnfolds(messages, m, turn, turns);
    if turn + 1 < turns {
      ToldStep(messages, m, turn + 1, turns);
      ToldUnfolds(messages, m, turn, turns - 1);
      LinesJoin(TurnLines(messages, m, turn), ToldFrom(messages, m, turn + 1, turns - 1), last);
    } else {
      assert ToldFrom(messages, m, turn, turns - 1) == [];
      assert last + [] == [] + last;
    }
  }

  lemma {:induction false} LinesJoin(a: seq<Line>, b: seq<Line>, c: seq<Line>)
    ensures a + (b + c) == (a + b) + c
  {
  }

  /** The transcript of a plan tells the replaced turns in their order. */
  lemma {:induction false} TranscriptIsTold(messages: seq<Message>, m: Marks, turns: nat)
    requires 2 * turns <= |messages|
    ensures SpokenBefore(messages, m, 2 * turns) == ToldFrom(messages, m, 0, turns)
  {
    if turns > 0 {
      TranscriptIsTold(messages, m, turns - 1);
      ToldStep(messages, m, 0, turns);
    }
  }

  /** The note a result leaves behind: nothing for a failure or a summary without a visible character. */
  function NoteOf(turns: nat, result: Result): Option<Note> {
    if result.Failure? then None
    else
      var summary := CleanSummary(result.text);
      if summary.None? then None else Some(Note(turns, summary.value))
  }

  /** A note that is made can always be stored, so the check for it never fails. */
  lemma {:induction false} NoteIsStorable(turns: nat, result: Result)
    requires turns > 0
    ensures NoteOf(turns, result).Some? ==>
              && NoteOf(turns, result).value.turns == turns
              && Storable(NoteOf(turns, result).value.summary)
    ensures NoteOf(turns, result).None? <==> result.Failure? || Blank(Filtered(result.text))
  {
    if result.Summary? { CleanSummaryIsStorable(result.text); }
  }

  /** The history the plan was made for is still there, as far as the check can tell. */
  predicate OnTime(messages: seq<Message>, current: nat, plan: Plan, attempt: nat) {
    current == attempt && plan.cut + 2 <= |messages| && MessageBytes(messages[..plan.cut]) == plan.bytes
  }

  /** What becomes of a finished summary, given what was awaited and what the chat holds now. */
  function Finished(
      awaited: Option<(Draft, bool)>, messages: seq<Message>, current: nat, plan: Plan, attempt: nat,
      note: Option<Note>, draft: Draft, active: bool): Outcome
  {
    if awaited.None? || !OnTime(messages, current, plan, attempt) then Ignored
    else if note.None? then Failed
    else Compacted(plan.turns, awaited.value.1 && draft == awaited.value.0 && !active)
  }

  /**
   * A result is ignored unless it was awaited, by this attempt, for turns that are all still there with one more
   * after them; it fails without a note; and the held prompt is sent exactly if that was asked for, the draft is
   * untouched and nothing else runs.
   */
  lemma {:induction false} FinishedMeans(
      awaited: Option<(Draft, bool)>, messages: seq<Message>, current: nat, plan: Plan, attempt: nat,
      note: Option<Note>, draft: Draft, active: bool)
    ensures var r := Finished(awaited, messages, current, plan, attempt, note, draft, active);
            && (r.Ignored? <==>
                  awaited.None? || current != attempt || |messages| < plan.cut + 2 || MessageBytes(messages[..plan.cut]) != plan.bytes)
            && (r.Compacted? ==> note.Some? && r.turns == plan.turns)
            && (r.Failed? ==> note.None?)
            && (r.Compacted? ==> (r.send <==> awaited.value.1 && awaited.value.0 == draft && !active))
  {
  }

  /** The budget of a window: twice what is left of it after a reply, but no less than 2 KiB and no more than 96 KiB. */
  lemma {:induction false} BudgetMeans(window: nat, bytes: nat)
    ensures Budget(None) == 98304
    ensures bytes <= Budget(Some(window)) <==> bytes <= 2048 || (bytes <= 98304 && bytes + 8192 <= 2 * window)
  {
  }

  class Chat {
    var messages: seq<Message>
    var marks: Marks
    var compaction: Option<Note>
    var compacting: Option<(Draft, bool)>
    var attempt: nat
    var active: bool
    var wayfinder: bool
    var draft: Draft

    constructor (attempt: nat)
      ensures messages == [] && compaction.None? && compacting.None? && MarksFit(marks, 0) && this.attempt == attempt
    {
      messages, compaction, compacting := [], None, None;
      marks := Marks([], [], [], [], (0, []), [], [], [], []);
      this.attempt, active, wayfinder, draft := attempt, false, false, Draft(0, 0);
    }

    function Summarised(): nat
      reads this
    {
      if compaction.Some? then compaction.value.turns else 0
    }

    /** Turns summarised and messages kept: no compaction loses a turn from this count. */
    function Turns(): nat
      reads this
    {
      2 * Summarised() + |messages|
    }

    /** Try to keep two turns, then one. */
    method ChooseCut(prompt: nat, target: nat) returns (chosen: Option<nat>)
      ensures chosen == ChosenCut(messages, marks, prompt, target)
    {
      var count := Even(|messages|);
      chosen := None;
      var keep := KEEP_TURNS;
      while keep >= 1
        invariant 0 <= keep <= 2
        invariant keep == 2 ==> chosen.None?
        invariant keep == 1 ==> (chosen == CutFor(|messages|, 2)
                                 && (chosen.Some? ==> KeptBytes(messages, marks, chosen.value, count) + SUMMARY_MAX + prompt > target))
        invariant keep == 0 ==> chosen == ChosenCut(messages, marks, prompt, target)
      {
        var cut := CutFor(|messages|, keep);
        if cut.Some? {
          chosen := cut;
          if KeptBytes(messages, marks, cut.value, count) + SUMMARY_MAX + prompt <= target { break; }
        }
        keep := keep - 1;
      }
    }

    method SpokenLines(cut: nat) returns (lines: seq<Line>)
      requires cut <= |messages| && cut % 2 == 0
      ensures lines == SpokenBefore(messages, marks, cut)
    {
      lines := [];
      var index := 0;
      while index < cut
        invariant index <= cut && index % 2 == 0
        invariant lines == SpokenBefore(messages, marks, index)
      {
        if index !in marks.interrupted {
          lines := lines + ([Spoken(messages[index])] + ToolLines(StepsAt(marks, index + 1)) + [Spoken(messages[index + 1])]);
        }
        index := index + 2;
      }
    }

    method MakePlan(prompt: nat, window: Option<nat>) returns (r: Option<Plan>)
      ensures r.Some? <==> |messages| - |messages| % 2 > 2
      ensures r.Some? ==>
                && Some(r.value.cut) == ChosenCut(messages, marks, prompt, Budget(window) / 4 * 3)
                && r.value.turns * 2 == r.value.cut && 0 < r.value.cut && r.value.cut + 2 <= |messages|
                && r.value.bytes == MessageBytes(messages[..r.value.cut])
                && r.value.transcript ==
                   (if compaction.Some? then [Earlier(compaction.value.summary)] else []) + SpokenBefore(messages, marks, r.value.cut)
    {
      var chosen := ChooseCut(prompt, Budget(window) / 4 * 3);
      if chosen.None? { return None; }
      var cut := chosen.value;
      var lines := SpokenLines(cut);
      var prior := if compaction.Some? then [Earlier(compaction.value.summary)] else [];
      return Some(Plan(cut / 2, cut, MessageBytes(messages[..cut]), prior + lines));
    }

    method StartCompaction(window: Option<nat>, send: bool) returns (r: Option<Plan>)
      modifies this`compacting
      ensures r.Some? <==> !active && old(compacting).None? && !wayfinder && |messages| - |messages| % 2 > 2
      ensures compacting == if r.Some? then Some((draft, send)) else old(compacting)
      ensures r.Some? ==> OnTime(messages, attempt, r.value, attempt) && r.value.turns * 2 == r.value.cut && r.value.cut > 0
    {
      if active || compacting.Some? || wayfinder { return None; }
      r := MakePlan(draft.bytes, window);
      if r.Some? { compacting := Some((draft, send)); }
    }

    /** Remove the replaced turns, renumber what is left, and put the note in their place. */
    method Replace(cut: nat, note: Note)
      requires cut <= |messages|
      modifies this`messages, this`marks, this`compaction
      ensures messages == old(messages)[cut..] && marks == Shifted(old(marks), cut) && compaction == Some(note)
    {
      messages := messages[cut..];
      marks := Shifted(marks, cut);
      compaction := Some(note);
    }

    /** A result in time: a note replaces the planned turns, anything else changes nothing. */
    method Settle(plan: Plan, result: Result) returns (done: bool)
      requires plan.turns * 2 == plan.cut && plan.turns > 0 && plan.cut <= |messages|
      modifies this`messages, this`marks, this`compaction
      ensures done <==> NoteOf(old(Summarised()) + plan.turns, result).Some?
      ensures Turns() == old(Turns())
      ensures !done ==> messages == old(messages) && marks == old(marks) && compaction == old(compaction)
      ensures done ==>
                && messages == old(messages)[plan.cut..] && marks == Shifted(old(marks), plan.cut)
                && compaction == NoteOf(old(Summarised()) + plan.turns, result)
                && Summarised() == old(Summarised()) + plan.turns
    {
      var turns := Summarised() + plan.turns;
      var note := NoteOf(turns, result);
      NoteIsStorable(turns, result);
      if note.None? { return false; }
      if !(note.value.turns > 0 && Storable(note.value.summary)) { return false; }
      Replace(plan.cut, note.value);
      return true;
    }

    /** Apply or reject a finished summary. A late one changes nothing but that no summary is awaited. */
    method FinishCompaction(attempt: nat, plan: Plan, result: Result) returns (r: Outcome)
      requires plan.turns * 2 == plan.cut && plan.turns > 0
      modifies this`messages, this`marks, this`compaction, this`compacting
      ensures compacting.None?
      ensures r == Finished(old(compacting), old(messages), this.attempt, plan, attempt, NoteOf(old(Summarised()) + plan.turns, result), draft, active)
      ensures !r.Compacted? ==> messages == old(messages) && marks == old(marks) && compaction == old(compaction)
      ensures r.Compacted? ==>
                && messages == old(messages)[plan.cut..] && marks == Shifted(old(marks), plan.cut)
                && compaction == NoteOf(old(Summarised()) + plan.turns, result)
      ensures Turns() == old(Turns())
    {
      var awaited := compacting;
      compacting := None;
      r := Ignored;
      if awaited.Some? && OnTime(messages, this.attempt, plan, attempt) {
        var done := Settle(plan, result);
        r := if done then Compacted(plan.turns, awaited.value.1 && draft == awaited.value.0 && !active) else Failed;
      }
    }

    method CancelCompaction() returns (cancelled: bool)
      modifies this`compacting
      ensures cancelled <==> old(compacting).Some?
      ensures compacting.None?
    {
      cancelled := compacting.Some?;
      compacting := None;
    }
  }
}
