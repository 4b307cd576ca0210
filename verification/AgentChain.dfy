/** Conversations of a Local Agent, retained from run to run while they fit. */
module AgentChain {
  datatype Option<+T> = None | Some(value: T)

  const MAX_BYTES: nat := 524288
  const MAX_TEXT: nat := 131072
  const MAX_FILE: nat := 4194304
  const MAX_MESSAGES: nat := 8
  /** Room for everything a transcript file holds besides message texts. */
  const ENVELOPE: nat := 4096

  datatype Role = User | Assistant

  /** A message: its text by id, the bytes of that text, and the bytes of it as an escaped JSON string. */
  datatype Message = Message(role: Role, text: nat, bytes: nat, escaped: nat)

  /** Escaping makes no byte longer than six. */
  predicate Escapes(m: Message) { m.escaped <= 6 * m.bytes }

  function Bytes(messages: seq<Message>): nat {
    if |messages| == 0 then 0 else Bytes(messages[..|messages| - 1]) + messages[|messages| - 1].bytes
  }

  function Escaped(messages: seq<Message>): nat {
    if |messages| == 0 then 0 else Escaped(messages[..|messages| - 1]) + messages[|messages| - 1].escaped
  }

  predicate Alternating(messages: seq<Message>) {
    forall i | 0 <= i < |messages| :: messages[i].role == if i % 2 == 0 then User else Assistant
  }

  /** The retention limits; a complete conversation ends with an answer. */
  predicate ValidMessages(messages: seq<Message>, complete: bool) {
    && 0 < |messages| <= MAX_MESSAGES
    && |messages| % 2 == (if complete then 0 else 1)
    && Alternating(messages)
    && Bytes(messages) <= MAX_BYTES
  }

  // ---------------------------------------------------------------------- requests

  /** Who answers, and what it continues. */
  datatype Record = Record(agent: nat, continuedFrom: Option<nat>, retained: bool, cut: bool)

  datatype Retained = Retained(run: nat, record: Record, messages: seq<Message>)

  predicate OverBudget(history: seq<Message>, prompt: Message) {
    |history| + 2 > MAX_MESSAGES || Bytes(history) + prompt.bytes > MAX_BYTES - MAX_TEXT
  }

  /** A history within budget takes one more prompt; the check after it refuses exactly an overlong prompt. */
  lemma {:induction false} PromptFits(history: seq<Message>, prompt: Message)
    requires prompt.role == User && (history == [] || (ValidMessages(history, true) && !OverBudget(history, prompt)))
    ensures Bytes(history + [prompt]) == Bytes(history) + prompt.bytes
    ensures history != [] || prompt.bytes <= MAX_BYTES - MAX_TEXT ==> ValidMessages(history + [prompt], false)
    ensures history == [] ==> Bytes(history) == 0
  {
    assert (history + [prompt])[..|history|] == history;
  }

  function Begun(run: nat, prior: Option<(nat, nat)>): Record {
    if prior.Some? then Record(prior.value.0, Some(prior.value.1), false, false) else Record(run, None, false, false)
  }

  /** A retained conversation as continued by a new run, or a fresh one. */
  class Prepared {
    var prior: Option<(nat, nat)>
    var history: seq<Message>

    constructor (prior: Option<(nat, nat)>, history: seq<Message>)
      ensures this.prior == prior && this.history == history
    {
      this.prior, this.history := prior, history;
    }

    /** The request of a run; a conversation over its budget starts afresh with this prompt. */
    method Request(run: nat, prompt: Message) returns (r: Option<(Record, seq<Message>)>)
      requires prompt.role == User && (history == [] || ValidMessages(history, true))
      modifies this
      ensures r.None? <==> prompt.bytes > MAX_BYTES - MAX_TEXT
      ensures history == (if OverBudget(old(history), prompt) then [] else old(history)) + [prompt]
      ensures prior == if OverBudget(old(history), prompt) then None else old(prior)
      ensures r.Some? ==> r.value == (Begun(run, prior), history)
      ensures r.Some? ==> ValidMessages(history, false) && Bytes(history) <= MAX_BYTES - MAX_TEXT
    {
      if OverBudget(history, prompt) { history, prior := [], None; }
      PromptFits(history, prompt);
      history := history + [prompt];
      if !ValidMessages(history, false) || Bytes(history) > MAX_BYTES - MAX_TEXT { return None; }
      return Some((Begun(run, prior), history));
    }
  }

  /** A binding that may be written: it continues another run, or is its own agent. */
  predicate Binds(record: Record, run: nat) {
    record.continuedFrom != Some(run) && (record.continuedFrom.None? ==> record.agent == run)
  }

  lemma {:induction false} EscapedFits(messages: seq<Message>)
    requires forall i | 0 <= i < |messages| :: Escapes(messages[i])
    ensures Escaped(messages) <= 6 * Bytes(messages)
  {
    if |messages| > 0 { EscapedFits(messages[..|messages| - 1]); }
  }

  /** The transcript file of one run, written once. */
  class Conversation {
    var record: Record
    var file: Option<seq<Message>>

    constructor (record: Record)
      ensures this.record == record && file.None?
    {
      this.record, file := record, None;
    }

    /** Retain an exchange: the request with its answer, whole or cut short. */
    method Write(run: nat, request: seq<Message>, answer: Message, cut: bool) returns (ok: bool)
      requires answer.role == Assistant && Binds(record, run) && file.None?
      requires forall i | 0 <= i < |request| :: Escapes(request[i])
      requires Escapes(answer)
      modifies this
      ensures ok <==> ValidMessages(request + [answer], true)
      ensures ok ==> file == Some(request + [answer]) && record == old(record).(retained := true, cut := cut)
      ensures !ok ==> file == old(file) && record == old(record)
    {
      var messages := request + [answer];
      if !ValidMessages(messages, true) { return false; }
      EscapedFits(messages);
      if Escaped(messages) + ENVELOPE > MAX_FILE { return false; }
      file := Some(messages);
      record := record.(retained := true, cut := cut);
      return true;
    }
  }

  /** An answer within the answer limit is always retained: the request left room for it. */
  lemma {:induction false} AnswersAreRetained(request: seq<Message>, answer: Message)
    requires ValidMessages(request, false) && Bytes(request) <= MAX_BYTES - MAX_TEXT
    requires answer.role == Assistant && answer.bytes <= MAX_TEXT
    ensures ValidMessages(request + [answer], true)
  {
    assert (request + [answer])[..|request|] == request;
  }

  // ------------------------------------------------------------------------- chains

  /** One run of a chain of repairs. `continues`: nothing calls for a fresh agent. */
  datatype Attempt = Attempt(run: nat, prompt: Message, answer: Option<Message>, cut: bool, continues: bool)

  /** What the next run may start from: a whole exchange, never a cut one. */
  function Prior(last: Option<Retained>, a: Attempt): Option<Retained> {
    if last.Some? && a.continues && last.value.record.retained && !last.value.record.cut then last else None
  }

  predicate GoesOn(last: Option<Retained>, a: Attempt) {
    Prior(last, a).Some? && !OverBudget(last.value.messages, a.prompt)
  }

  function Asked(last: Option<Retained>, a: Attempt): seq<Message> {
    (if GoesOn(last, a) then last.value.messages else []) + [a.prompt]
  }

  function RecordFor(last: Option<Retained>, a: Attempt): Record {
    if GoesOn(last, a) then Record(last.value.record.agent, Some(last.value.run), true, a.cut) else Record(a.run, None, true, a.cut)
  }

  /** What a run leaves behind: nothing if its prompt is too long or its answer was not retained. */
  function After(last: Option<Retained>, a: Attempt): Option<Retained> {
    if a.prompt.bytes > MAX_BYTES - MAX_TEXT || a.answer.None? || !ValidMessages(Asked(last, a) + [a.answer.value], true) then None
    else Some(Retained(a.run, RecordFor(last, a), Asked(last, a) + [a.answer.value]))
  }

  function Chain(attempts: seq<Attempt>): Option<Retained> {
    if |attempts| == 0 then None else After(Chain(attempts[..|attempts| - 1]), attempts[|attempts| - 1])
  }

  predicate Proper(a: Attempt) {
    a.prompt.role == User && (a.answer.Some? ==> a.answer.value.role == Assistant)
  }

  /** Runs are new each time. */
  predicate ProperChain(attempts: seq<Attempt>) {
    && (forall i | 0 <= i < |attempts| :: Proper(attempts[i]))
    && (forall i, j | 0 <= i < j < |attempts| :: attempts[i].run != attempts[j].run)
  }

  lemma {:induction false} AskedIsValid(last: Option<Retained>, a: Attempt)
    requires Proper(a) && a.prompt.bytes <= MAX_BYTES - MAX_TEXT
    requires last.Some? ==> ValidMessages(last.value.messages, true)
    ensures ValidMessages(Asked(last, a), false) && Bytes(Asked(last, a)) <= MAX_BYTES - MAX_TEXT
  {
    var before := if GoesOn(last, a) then last.value.messages else [];
    assert (before + [a.prompt])[..|before|] == before;
  }

  /** Over a whole chain the retained conversation is alternating, complete and bounded, and correctly bound. */
  lemma {:induction false} ChainIsValid(attempts: seq<Attempt>)
    requires ProperChain(attempts)
    ensures var last := Chain(attempts);
            last.Some? ==>
              && ValidMessages(last.value.messages, true)
              && Binds(last.value.record, last.value.run)
              && |attempts| > 0 && last.value.run == attempts[|attempts| - 1].run
              && exists k | 0 <= k < |attempts| :: attempts[k].run == last.value.record.agent
  {
    if |attempts| > 0 {
      var n := |attempts| - 1;
      var a := attempts[n];
      ChainIsValid(attempts[..n]);
      var before := Chain(attempts[..n]);
      if Chain(attempts).Some? {
        if GoesOn(before, a) {
          var k :| 0 <= k < n && attempts[..n][k].run == before.value.record.agent;
          assert attempts[k].run == before.value.record.agent;
          assert attempts[..n][n - 1].run == before.value.run;
        } else {
          assert attempts[n].run == a.run;
        }
      }
    }
  }

  /** What one run adds to what it was given. */
  predicate Extends(last: Option<Retained>, a: Attempt, next: Option<Retained>) {
    && (a.prompt.bytes <= MAX_BYTES - MAX_TEXT && a.answer.Some? && a.answer.value.bytes <= MAX_TEXT ==> next.Some?)
    && (next.Some? ==> a.answer.Some? && next.value.messages == Asked(last, a) + [a.answer.value])
    && (next.Some? && GoesOn(last, a) ==>
          && last.value.messages <= next.value.messages && next.value.record.agent == last.value.record.agent
          && next.value.record.continuedFrom == Some(last.value.run) && !last.value.record.cut)
    && (next.Some? && !GoesOn(last, a) ==> |next.value.messages| == 2 && next.value.record.agent == a.run)
  }

  lemma {:induction false} RetainedIfShort(last: Option<Retained>, a: Attempt)
    requires Proper(a) && (last.Some? ==> ValidMessages(last.value.messages, true))
    requires a.prompt.bytes <= MAX_BYTES - MAX_TEXT && a.answer.Some? && a.answer.value.bytes <= MAX_TEXT
    ensures After(last, a).Some?
  {
    AskedIsValid(last, a);
    AnswersAreRetained(Asked(last, a), a.answer.value);
  }

  /**
   * Each run extends what it continues and loses nothing within the answer limit: a request fails exactly for a
   * prompt over its budget, and an answer of at most 128 KiB is always retained behind its request.
   */
  lemma {:induction false} ChainExtends(attempts: seq<Attempt>, a: Attempt)
    requires ProperChain(attempts) && Proper(a)
    ensures Extends(Chain(attempts), a, Chain(attempts + [a]))
  {
    var all := attempts + [a];
    assert all[..|all| - 1] == attempts && all[|all| - 1] == a;
    var last := Chain(attempts);
    assert Chain(all) == After(last, a);
    ChainIsValid(attempts);
    if a.prompt.bytes <= MAX_BYTES - MAX_TEXT && a.answer.Some? && a.answer.value.bytes <= MAX_TEXT { RetainedIfShort(last, a); }
  }

  /**
   * A conversation goes on exactly while nothing calls for a fresh agent, its last answer is whole, three more
   * messages at most fill it, and history and prompt leave room for an answer; otherwise the prompt stands alone.
   */
  lemma {:induction false} GoesOnExactlyWhen(attempts: seq<Attempt>, a: Attempt)
    requires ProperChain(attempts) && Chain(attempts).Some?
    ensures var last := Chain(attempts).value;
            if a.continues && !attempts[|attempts| - 1].cut && |last.messages| <= 6
               && Bytes(last.messages) + a.prompt.bytes + 131072 <= 524288
            then Asked(Chain(attempts), a) == last.messages + [a.prompt]
            else Asked(Chain(attempts), a) == [a.prompt]
  {
    var n := |attempts| - 1;
    assert Chain(attempts) == After(Chain(attempts[..n]), attempts[n]);
    ChainIsValid(attempts);
  }

  /** These runs of the chain were answered, and only the last of them may have been cut short. */
  predicate Answered(attempts: seq<Attempt>, ks: seq<nat>) {
    && (forall i | 0 <= i < |ks| :: ks[i] < |attempts| && attempts[ks[i]].answer.Some?)
    && (forall i, j | 0 <= i < j < |ks| :: ks[i] < ks[j])
    && (forall i | 0 <= i < |ks| - 1 :: !attempts[ks[i]].cut)
  }

  /** The exchanges of these runs, one after the other. */
  function Exchanges(attempts: seq<Attempt>, ks: seq<nat>): seq<Message>
    requires Answered(attempts, ks)
  {
    if |ks| == 0 then []
    else
      var a := attempts[ks[|ks| - 1]];
      Exchanges(attempts, ks[..|ks| - 1]) + [a.prompt, a.answer.value]
  }

  lemma {:induction false} MoreAttempts(attempts: seq<Attempt>, a: Attempt, ks: seq<nat>)
    requires Answered(attempts, ks)
    ensures Answered(attempts + [a], ks) && Exchanges(attempts + [a], ks) == Exchanges(attempts, ks)
  {
    if |ks| > 0 { MoreAttempts(attempts, a, ks[..|ks| - 1]); }
  }

  lemma {:induction false} OneMoreExchange(attempts: seq<Attempt>, before: seq<nat>)
    requires |attempts| > 0 && Answered(attempts[..|attempts| - 1], before)
    requires forall i | 0 <= i < |before| :: !attempts[before[i]].cut
    requires attempts[|attempts| - 1].answer.Some?
    ensures var a := attempts[|attempts| - 1];
            && Answered(attempts, before + [|attempts| - 1])
            && Exchanges(attempts, before + [|attempts| - 1])
               == Exchanges(attempts[..|attempts| - 1], before) + [a.prompt, a.answer.value]
  {
    var n := |attempts| - 1;
    var ks := before + [n];
    assert attempts == attempts[..n] + [attempts[n]];
    MoreAttempts(attempts[..n], attempts[n], before);
    forall i | 0 <= i < |ks| ensures ks[i] < |attempts| && attempts[ks[i]].answer.Some? {
      if i < n { assert i == |before| || ks[i] == before[i]; }
    }
    assert ks[..|ks| - 1] == before;
  }

  /** What a chain has retained: whole exchanges of earlier runs, and that of the last run. */
  lemma {:induction false} RetainedExchanges(attempts: seq<Attempt>) returns (ks: seq<nat>)
    requires Chain(attempts).Some?
    ensures |ks| > 0 && Answered(attempts, ks) && ks[|ks| - 1] == |attempts| - 1
    ensures Chain(attempts).value.messages == Exchanges(attempts, ks)
    ensures Chain(attempts).value.record.cut == attempts[|attempts| - 1].cut
    decreases |attempts|
  {
    var n := |attempts| - 1;
    var before: seq<nat> := [];
    if GoesOn(Chain(attempts[..n]), attempts[n]) { before := RetainedExchanges(attempts[..n]); }
    RetainedStep(attempts, before);
    ks := before + [n];
  }

  lemma {:induction false} RetainedStep(attempts: seq<Attempt>, before: seq<nat>)
    requires |attempts| > 0 && Chain(attempts).Some? && Answered(attempts[..|attempts| - 1], before)
    requires var n := |attempts| - 1;
             if GoesOn(Chain(attempts[..n]), attempts[n])
             then |before| > 0 && before[|before| - 1] == n - 1
                  && Chain(attempts[..n]).value.messages == Exchanges(attempts[..n], before)
                  && Chain(attempts[..n]).value.record.cut == attempts[..n][n - 1].cut
             else before == []
    ensures Answered(attempts, before + [|attempts| - 1])
    ensures Chain(attempts).value.messages == Exchanges(attempts, before + [|attempts| - 1])
    ensures Chain(attempts).value.record.cut == attempts[|attempts| - 1].cut
  {
    var n := |attempts| - 1;
    var front, a := attempts[..n], attempts[n];
    forall i | 0 <= i < |before| ensures !attempts[before[i]].cut {
      assert !front[before[i]].cut && front[before[i]] == attempts[before[i]];
    }
    OneMoreExchange(attempts, before);
    assert Chain(attempts) == After(Chain(front), a);
    Joined(Exchanges(front, before), a.prompt, a.answer.value);
  }

  lemma {:induction false} Joined(ms: seq<Message>, a: Message, b: Message)
    ensures (ms + [a]) + [b] == ms + [a, b]
  {
  }

  /** At no later run, however far down the chain, is an answer that was cut short sent again: what precedes the prompt are whole exchanges. */
  lemma {:induction false} CutAnswersAreNeverReplayed(attempts: seq<Attempt>, a: Attempt)
    ensures exists ks :: Answered(attempts, ks) && (forall i | 0 <= i < |ks| :: !attempts[ks[i]].cut)
                         && Asked(Chain(attempts), a) == Exchanges(attempts, ks) + [a.prompt]
  {
    if GoesOn(Chain(attempts), a) {
      var ks := RetainedExchanges(attempts);
      assert forall i | 0 <= i < |ks| :: !attempts[ks[i]].cut;
    } else {
      assert Answered(attempts, []) && Exchanges(attempts, []) == [];
    }
  }

  /** The two objects together do what a chain step says. */
  method Run(last: Option<Retained>, a: Attempt) returns (r: Option<Retained>)
    requires Proper(a) && Escapes(a.prompt) && (a.answer.Some? ==> Escapes(a.answer.value))
    requires last.Some? ==>
               && ValidMessages(last.value.messages, true) && last.value.run != a.run
               && forall i | 0 <= i < |last.value.messages| :: Escapes(last.value.messages[i])
    ensures r == After(last, a)
  {
    var prior := Prior(last, a);
    var prepared;
    if prior.Some? {
      prepared := new Prepared(Some((prior.value.record.agent, prior.value.run)), prior.value.messages);
    } else {
      prepared := new Prepared(None, []);
    }
    var requested := prepared.Request(a.run, a.prompt);
    if requested.None? || a.answer.None? { return None; }
    var (record, asked) := requested.value;
    assert asked == Asked(last, a);
    var conversation := new Conversation(record);
    var ok := conversation.Write(a.run, asked, a.answer.value, a.cut);
    if !ok { return None; }
    return Some(Retained(a.run, conversation.record, asked + [a.answer.value]));
  }

  // ---------------------------------------------------------------------- rejections

  /** A task of a repair lineage; `rejected` says its latest decision was a rejection. */
  datatype Task = Task(repairOf: Option<nat>, rejected: bool, architect: bool)

  /** Rejections from this task up its lineage, as far as the last revision by an architect. */
  function Rejections(tasks: seq<Task>, id: nat): nat
    decreases id
  {
    if id >= |tasks| then 0
    else
      (if tasks[id].rejected then 1 else 0)
      + (if tasks[id].architect || tasks[id].repairOf.None? || tasks[id].repairOf.value >= id then 0
         else Rejections(tasks, tasks[id].repairOf.value))
  }

  /** This task and what it repairs, as far as the last revision by an architect. */
  function Lineage(tasks: seq<Task>, id: nat): seq<nat>
    decreases id
  {
    if id >= |tasks| then []
    else if tasks[id].architect then [id]
    else match tasks[id].repairOf
      case None => [id]
      case Some(parent) => if parent < id then [id] + Lineage(tasks, parent) else [id]
  }

  function RejectedAmong(tasks: seq<Task>, ids: seq<nat>): nat {
    if |ids| == 0 then 0
    else RejectedAmong(tasks, ids[..|ids| - 1]) + (if ids[|ids| - 1] < |tasks| && tasks[ids[|ids| - 1]].rejected then 1 else 0)
  }

  lemma {:induction false} RejectedInFront(tasks: seq<Task>, id: nat, ids: seq<nat>)
    ensures RejectedAmong(tasks, [id] + ids) == (if id < |tasks| && tasks[id].rejected then 1 else 0) + RejectedAmong(tasks, ids)
  {
    if |ids| == 0 {
      assert [id] + ids == [id] && [id][..0] == [];
    } else {
      assert ([id] + ids)[..|ids|] == [id] + ids[..|ids| - 1];
      RejectedInFront(tasks, id, ids[..|ids| - 1]);
    }
  }

  /** Every rejected task of the lineage counts once. */
  lemma {:induction false} LineageIsCounted(tasks: seq<Task>, id: nat)
    ensures Rejections(tasks, id) == RejectedAmong(tasks, Lineage(tasks, id))
    decreases id
  {
    if id < |tasks| {
      var rest := if tasks[id].architect || tasks[id].repairOf.None? || tasks[id].repairOf.value >= id then []
                  else Lineage(tasks, tasks[id].repairOf.value);
      assert Lineage(tasks, id) == [id] + rest;
      RejectedInFront(tasks, id, rest);
      if rest != [] || (!tasks[id].architect && tasks[id].repairOf.Some? && tasks[id].repairOf.value < id) {
        LineageIsCounted(tasks, tasks[id].repairOf.value);
      }
    }
  }

  /** The bounded loop counts the whole lineage, because repairs come after what they repair. */
  method RejectionCount(tasks: seq<Task>, start: nat) returns (count: nat)
    requires forall i | 0 <= i < |tasks| && tasks[i].repairOf.Some? :: tasks[i].repairOf.value < i
    ensures count == Rejections(tasks, start)
  {
    count := 0;
    var id: nat := start;
    for step := 0 to |tasks|
      invariant count + Rejections(tasks, id) == Rejections(tasks, start)
      invariant id < |tasks| ==> id + step < |tasks|
    {
      if id >= |tasks| { break; }
      if tasks[id].rejected { count := count + 1; }
      if tasks[id].architect || tasks[id].repairOf.None? { return; }
      id := tasks[id].repairOf.value;
    }
  }
}
