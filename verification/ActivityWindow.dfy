/** The receipt list of the activity panel: a cached projection, and a window of it that looks like the whole. */
module ActivityWindow {
  datatype Option<+T> = None | Some(value: T)

  type Row = nat
  type Line = nat

  datatype Receipt = Receipt(revision: nat, correlation: nat, action: nat)

  datatype Approval = Approval(at: nat, text: nat)

  /** One projected receipt or approval, as the lines it is written in. */
  datatype Entry = Entry(lines: seq<Line>)

  /** All that the list is made from; the tasks a receipt mentions are themselves made by receipts. */
  datatype Input = Input(mission: nat, workspace: nat, receipts: seq<Receipt>, query: nat, chat: seq<Approval>)

  datatype Key = Key(
    mission: nat, workspace: nat, revision: nat, count: nat, correlation: nat, query: nat, chatCount: nat, chatLast: nat)

  // ---------------------------------------------------------------- the projection

  /** How a receipt is shown, if the query shows it, and how wide text wraps: at least one row a line. */
  datatype Style = Style(
    show: (seq<Receipt>, nat, nat) -> Option<Entry>, showChat: (Approval, nat, nat) -> Option<Entry>, wrap: (Line, nat) -> seq<Row>)

  ghost predicate StyleSound(style: Style) { forall line, width :: |style.wrap(line, width)| >= 1 }

  /** Newest receipts first. */
  function Entries(style: Style, receipts: seq<Receipt>, query: nat, n: nat): seq<Entry>
    requires n <= |receipts|
  {
    if n == 0 then []
    else
      var shown := style.show(receipts, n - 1, query);
      (if shown.Some? then [Entry([0] + shown.value.lines)] else []) + Entries(style, receipts, query, n - 1)
  }

  function ChatEntries(style: Style, chat: seq<Approval>, query: nat, n: nat): seq<Entry>
    requires n <= |chat|
  {
    if n == 0 then []
    else
      var shown := style.showChat(chat[n - 1], n - 1, query);
      (if shown.Some? then [Entry([0] + shown.value.lines)] else []) + ChatEntries(style, chat, query, n - 1)
  }

  /** A fresh projection: approvals first, then receipts. */
  function Project(style: Style, input: Input): seq<Entry> {
    ChatEntries(style, input.chat, input.query, |input.chat|) + Entries(style, input.receipts, input.query, |input.receipts|)
  }

  /** What is shown of a receipt or approval, under a blank line. */
  function Framed(shown: Option<Entry>): seq<Entry> { if shown.Some? then [Entry([0] + shown.value.lines)] else [] }

  /** The receipts from `i` on that the query shows, as they were saved. */
  function SavedFrom(style: Style, receipts: seq<Receipt>, query: nat, i: nat): seq<Entry>
    requires i <= |receipts|
    decreases |receipts| - i
  {
    if i == |receipts| then [] else Framed(style.show(receipts, i, query)) + SavedFrom(style, receipts, query, i + 1)
  }

  function ApprovedFrom(style: Style, chat: seq<Approval>, query: nat, i: nat): seq<Entry>
    requires i <= |chat|
    decreases |chat| - i
  {
    if i == |chat| then [] else Framed(style.showChat(chat[i], i, query)) + ApprovedFrom(style, chat, query, i + 1)
  }

  function Reversed(entries: seq<Entry>): (r: seq<Entry>)
    ensures |r| == |entries| && forall i | 0 <= i < |r| :: r[i] == entries[|entries| - 1 - i]
  {
    seq(|entries|, i requires 0 <= i < |entries| => entries[|entries| - 1 - i])
  }

  lemma {:induction false} OneMoreReversed(a: seq<Entry>, b: seq<Entry>, rest: seq<Entry>)
    requires |a| <= 1
    ensures Reversed(a + b) + rest == Reversed(b) + (a + rest)
  {
    assert Reversed(a + b) == Reversed(b) + a;
  }

  lemma {:induction false} NewestReceiptsFirst(style: Style, receipts: seq<Receipt>, query: nat, n: nat)
    requires n <= |receipts|
    ensures Reversed(SavedFrom(style, receipts, query, 0)) == Reversed(SavedFrom(style, receipts, query, n)) + Entries(style, receipts, query, n)
  {
    if n > 0 {
      NewestReceiptsFirst(style, receipts, query, n - 1);
      OneMoreReversed(Framed(style.show(receipts, n - 1, query)), SavedFrom(style, receipts, query, n),
                      Entries(style, receipts, query, n - 1));
    }
  }

  lemma {:induction false} NewestApprovalsFirst(style: Style, chat: seq<Approval>, query: nat, n: nat)
    requires n <= |chat|
    ensures Reversed(ApprovedFrom(style, chat, query, 0)) == Reversed(ApprovedFrom(style, chat, query, n)) + ChatEntries(style, chat, query, n)
  {
    if n > 0 {
      NewestApprovalsFirst(style, chat, query, n - 1);
      OneMoreReversed(Framed(style.showChat(chat[n - 1], n - 1, query)), ApprovedFrom(style, chat, query, n),
                      ChatEntries(style, chat, query, n - 1));
    }
  }

  /** The list shows what the two logs hold for this query, approvals before receipts, and each log backwards. */
  lemma {:induction false} NewestFirst(style: Style, input: Input)
    ensures Project(style, input)
            == Reversed(ApprovedFrom(style, input.chat, input.query, 0)) + Reversed(SavedFrom(style, input.receipts, input.query, 0))
  {
    NewestReceiptsFirst(style, input.receipts, input.query, |input.receipts|);
    NewestApprovalsFirst(style, input.chat, input.query, |input.chat|);
    assert Reversed([]) == [];
  }

  function KeyOf(input: Input): Key {
    Key(input.mission, input.workspace, |input.receipts|, |input.receipts|,
        if |input.receipts| > 0 then input.receipts[|input.receipts| - 1].correlation else 0,
        input.query, |input.chat|, if |input.chat| > 0 then input.chat[|input.chat| - 1].at else 0)
  }

  /** Both logs only grow between the two, in one direction or the other. */
  predicate AppendOnly(a: Input, b: Input) {
    && (a.mission == b.mission && a.workspace == b.workspace ==>
          (a.receipts <= b.receipts || b.receipts <= a.receipts))
    && (a.chat <= b.chat || b.chat <= a.chat)
  }

  /** Over append-only logs the key says everything: equal keys mean equal inputs. */
  lemma {:induction false} SameKeySameInput(a: Input, b: Input)
    requires AppendOnly(a, b)
    ensures KeyOf(a) == KeyOf(b) <==> a == b
  {
  }

  // ----------------------------------------------------------------------- rows

  function LineRows(style: Style, lines: seq<Line>, width: nat): seq<Row> {
    if |lines| == 0 then [] else LineRows(style, lines[..|lines| - 1], width) + style.wrap(lines[|lines| - 1], width)
  }

  function EntryRows(style: Style, e: Entry, width: nat): seq<Row> { LineRows(style, e.lines, width) }

  /** The simple rendering: every entry, fully wrapped. */
  function AllRows(style: Style, entries: seq<Entry>, width: nat): seq<Row> {
    if |entries| == 0 then []
    else AllRows(style, entries[..|entries| - 1], width) + EntryRows(style, entries[|entries| - 1], width)
  }

  lemma {:induction false} RowsJoin(style: Style, a: seq<Entry>, b: seq<Entry>, width: nat)
    ensures AllRows(style, a + b, width) == AllRows(style, a, width) + AllRows(style, b, width)
  {
    if |b| == 0 {
      assert a + b == a;
    } else {
      assert (a + b)[..|a + b| - 1] == a + b[..|b| - 1];
      RowsJoin(style, a, b[..|b| - 1], width);
    }
  }

  predicate HasLines(entries: seq<Entry>) { forall i | 0 <= i < |entries| :: |entries[i].lines| > 0 }

  lemma {:induction false} EntryHasRows(style: Style, e: Entry, width: nat)
    requires StyleSound(style) && |e.lines| > 0
    ensures |EntryRows(style, e, width)| > 0
  {
    assert |style.wrap(e.lines[|e.lines| - 1], width)| >= 1;
  }

  /** Where entry `i` starts. */
  function Start(style: Style, entries: seq<Entry>, width: nat, i: nat): nat
    requires i <= |entries|
  {
    |AllRows(style, entries[..i], width)|
  }

  lemma {:induction false} StartStep(style: Style, entries: seq<Entry>, width: nat, i: nat)
    requires i < |entries|
    ensures Start(style, entries, width, i + 1) == Start(style, entries, width, i) + |EntryRows(style, entries[i], width)|
  {
    assert entries[..i + 1][..i] == entries[..i];
  }

  lemma {:induction false} StartsIncrease(style: Style, entries: seq<Entry>, width: nat, i: nat, j: nat)
    requires StyleSound(style) && HasLines(entries) && i <= j <= |entries|
    ensures Start(style, entries, width, j) >= Start(style, entries, width, i) + (j - i)
    decreases j - i
  {
    if i < j {
      StartsIncrease(style, entries, width, i, j - 1);
      StartStep(style, entries, width, j - 1);
      EntryHasRows(style, entries[j - 1], width);
    }
  }

  /** The starts as they are added up, entry by entry. */
  function StartsOf(style: Style, entries: seq<Entry>, width: nat, n: nat): (s: seq<nat>)
    requires n <= |entries|
    ensures |s| == n + 1
  {
    if n == 0 then [0]
    else
      var before := StartsOf(style, entries, width, n - 1);
      before + [before[n - 1] + |EntryRows(style, entries[n - 1], width)|]
  }

  lemma {:induction false} StartsAreStarts(style: Style, entries: seq<Entry>, width: nat, n: nat, i: nat)
    requires i <= n <= |entries|
    ensures StartsOf(style, entries, width, n)[i] == Start(style, entries, width, i)
    decreases n
  {
    if n > 0 {
      StartsAreStarts(style, entries, width, n - 1, if i < n then i else n - 1);
      StartStep(style, entries, width, n - 1);
    }
  }

  // --------------------------------------------------------------------- the window

  datatype Window = Window(shown: seq<Entry>, row: nat, maximum: nat)

  const U16_MAX: nat := 65535

  function Min(a: nat, b: nat): nat { if a <= b then a else b }

  /** Rows `from` to `to` of a rendering, as far as it goes. */
  function Part(rows: seq<Row>, from: nat, to: nat): seq<Row>
    requires from <= to
  {
    rows[Min(from, |rows|)..Min(to, |rows|)]
  }

  /** After skipping `row` rows, these entries show what the whole list shows from `top` on. */
  predicate ShowsRows(style: Style, shown: seq<Entry>, row: nat, entries: seq<Entry>, width: nat, top: nat, height: nat) {
    Part(AllRows(style, shown, width), row, row + height) == Part(AllRows(style, entries, width), top, top + height)
  }

  /** Entries `first` to `last` hold rows `top` to `top + height` of the whole list. */
  lemma {:induction false} SliceShowsTheRows(style: Style, entries: seq<Entry>, width: nat, top: nat, height: nat, first: nat, last: nat)
    requires first <= last <= |entries|
    requires Start(style, entries, width, first) <= top
    requires last == |entries| || top + height <= Start(style, entries, width, last)
    requires top <= Start(style, entries, width, last)
    ensures ShowsRows(style, entries[first..last], top - Start(style, entries, width, first), entries, width, top, height)
  {
    var before, shown, after := entries[..first], entries[first..last], entries[last..];
    assert entries[..last] == before + shown && entries == entries[..last] + after;
    RowsJoin(style, before, shown, width);
    RowsJoin(style, entries[..last], after, width);
    var a, b, c := AllRows(style, before, width), AllRows(style, shown, width), AllRows(style, after, width);
    if last == |entries| { assert c == []; }
    assert AllRows(style, entries, width) == a + b + c;
    MiddlePart(a, b, c, top, height);
  }

  /** The chosen slice is right: it shows the wanted rows, with at most one entry a row. */
  lemma {:induction false} WindowIsRight(style: Style, entries: seq<Entry>, width: nat, top: nat, height: nat, first: nat, end: nat)
    requires StyleSound(style) && HasLines(entries) && height > 0 && first < end <= |entries|
    requires Start(style, entries, width, first) <= top < Start(style, entries, width, first + 1)
    requires end == first + 1 || Start(style, entries, width, end - 1) < top + height
    requires end == |entries| || top + height <= Start(style, entries, width, end)
    ensures end - first <= height
    ensures top - Start(style, entries, width, first) < |EntryRows(style, entries[first], width)|
    ensures ShowsRows(style, entries[first..end], top - Start(style, entries, width, first), entries, width, top, height)
  {
    StartsIncrease(style, entries, width, first + 1, end);
    if end > first + 1 { StartsIncrease(style, entries, width, first + 1, end - 1); }
    StartStep(style, entries, width, first);
    SliceShowsTheRows(style, entries, width, top, height, first, end);
  }

  predicate Increasing(s: seq<nat>) { forall i, j | 0 <= i < j < |s| :: s[i] < s[j] }

  lemma {:induction false} StartsFacts(style: Style, entries: seq<Entry>, width: nat)
    requires StyleSound(style) && HasLines(entries)
    ensures var s := StartsOf(style, entries, width, |entries|);
            Increasing(s) && s[0] == 0 && s[|entries|] == |AllRows(style, entries, width)|
  {
    var s := StartsOf(style, entries, width, |entries|);
    forall i, j | 0 <= i < j < |s| ensures s[i] < s[j] {
      StartsAreStarts(style, entries, width, |entries|, i);
      StartsAreStarts(style, entries, width, |entries|, j);
      StartsIncrease(style, entries, width, i, j);
    }
    StartsAreStarts(style, entries, width, |entries|, 0);
    StartsAreStarts(style, entries, width, |entries|, |entries|);
    assert entries[..|entries|] == entries;
  }

  /** `first` and `end` bound the window among these starts. */
  predicate Bounded(s: seq<nat>, height: nat, top: nat, first: nat, end: nat) {
    && first < end < |s|
    && s[first] <= top < s[first + 1]
    && (end == first + 1 || s[end - 1] < top + height)
    && (end == |s| - 1 || top + height <= s[end])
  }

  lemma {:induction false} BoundedIsRight(style: Style, entries: seq<Entry>, width: nat, top: nat, height: nat, first: nat, end: nat)
    requires StyleSound(style) && HasLines(entries) && height > 0
    requires Bounded(StartsOf(style, entries, width, |entries|), height, top, first, end)
    ensures end - first <= height
    ensures top - StartsOf(style, entries, width, |entries|)[first] < |EntryRows(style, entries[first], width)|
    ensures ShowsRows(style, entries[first..end], top - StartsOf(style, entries, width, |entries|)[first], entries, width, top, height)
  {
    StartsAreStarts(style, entries, width, |entries|, first);
    StartsAreStarts(style, entries, width, |entries|, first + 1);
    StartsAreStarts(style, entries, width, |entries|, end - 1);
    StartsAreStarts(style, entries, width, |entries|, end);
    WindowIsRight(style, entries, width, top, height, first, end);
  }

  /**
   * A window is right: it cannot scroll past the end, it holds at most one entry a row, and after its row offset
   * it shows exactly the rows of the whole list; only an entry of more than 65535 rows can outrun the offset.
   */
  predicate ShowsWindow(style: Style, entries: seq<Entry>, width: nat, height: nat, offset: nat, w: Window) {
    && w.maximum == (if |AllRows(style, entries, width)| > height then |AllRows(style, entries, width)| - height else 0)
    && 1 <= |w.shown| <= height
    && (w.row < U16_MAX ==> ShowsRows(style, w.shown, w.row, entries, width, Min(offset, w.maximum), height))
    && (w.row == U16_MAX ==> |EntryRows(style, w.shown[0], width)| > U16_MAX)
  }

  lemma {:induction false} SliceShowsWindow(style: Style, entries: seq<Entry>, width: nat, height: nat, offset: nat, first: nat, end: nat)
    requires StyleSound(style) && HasLines(entries) && height > 0
    requires var s := StartsOf(style, entries, width, |entries|);
             var maximum := if s[|entries|] > height then s[|entries|] - height else 0;
             Bounded(s, height, Min(offset, maximum), first, end)
    ensures var s := StartsOf(style, entries, width, |entries|);
            var maximum := if s[|entries|] > height then s[|entries|] - height else 0;
            var top := Min(offset, maximum);
            ShowsWindow(style, entries, width, height, offset, Window(entries[first..end], Min(top - s[first], U16_MAX), maximum))
  {
    var s := StartsOf(style, entries, width, |entries|);
    var maximum := if s[|entries|] > height then s[|entries|] - height else 0;
    StartsFacts(style, entries, width);
    BoundedIsRight(style, entries, width, Min(offset, maximum), height, first, end);
    assert entries[first..end][0] == entries[first];
  }

  lemma {:induction false} MiddlePart(a: seq<Row>, b: seq<Row>, c: seq<Row>, top: nat, height: nat)
    requires |a| <= top <= |a| + |b| && (c == [] || top + height <= |a| + |b|)
    ensures Part(b, top - |a|, top - |a| + height) == Part(a + b + c, top, top + height)
  {
  }

  /** Entry by entry, the rows it takes at this width. */
  method AddUp(style: Style, entries: seq<Entry>, width: nat) returns (starts: seq<nat>)
    ensures starts == if |entries| == 0 then [0, 1] else StartsOf(style, entries, width, |entries|)
  {
    starts := [0];
    if |entries| == 0 { starts := starts + [1]; }
    for k := 0 to |entries|
      invariant starts == if |entries| == 0 then [0, 1] else StartsOf(style, entries, width, k)
    {
      starts := starts + [starts[|starts| - 1] + |EntryRows(style, entries[k], width)|];
    }
  }

  /** The first index whose start is beyond `bound`, found by halving. */
  method PartitionPoint(starts: seq<nat>, bound: nat) returns (p: nat)
    requires forall i, j | 0 <= i < j < |starts| :: starts[i] <= starts[j]
    ensures p <= |starts|
    ensures forall i | 0 <= i < p :: starts[i] <= bound
    ensures forall i | p <= i < |starts| :: starts[i] > bound
  {
    var low, high := 0, |starts|;
    while low < high
      invariant 0 <= low <= high <= |starts|
      invariant forall i | 0 <= i < low :: starts[i] <= bound
      invariant forall i | high <= i < |starts| :: starts[i] > bound
    {
      var middle := (low + high) / 2;
      if starts[middle] <= bound { low := middle + 1; } else { high := middle; }
    }
    p := low;
  }

  /** The entry that holds row `top`, and the end of those that start above the bottom. */
  method Bounds(starts: seq<nat>, height: nat, top: nat) returns (first: nat, end: nat)
    requires height > 0 && |starts| > 1 && starts[0] <= top < starts[|starts| - 1]
    requires Increasing(starts)
    ensures Bounded(starts, height, top, first, end)
  {
    var above := PartitionPoint(starts, top);
    first := Min(above - 1, |starts| - 2);
    var below := PartitionPoint(starts, top + height - 1);
    var last := Min(below, |starts| - 1);
    end := if last >= first + 1 then last else first + 1;
  }

  method Slice(style: Style, entries: seq<Entry>, starts: seq<nat>, width: nat, height: nat, offset: nat) returns (w: Window)
    requires StyleSound(style) && HasLines(entries) && |entries| > 0 && height > 0
    requires starts == StartsOf(style, entries, width, |entries|)
    ensures ShowsWindow(style, entries, width, height, offset, w)
  {
    StartsFacts(style, entries, width);
    var total := starts[|starts| - 1];
    var maximum := if total > height then total - height else 0;
    var top := Min(offset, maximum);
    var first, end := Bounds(starts, height, top);
    SliceShowsWindow(style, entries, width, height, offset, first, end);
    return Window(entries[first..end], Min(top - starts[first], U16_MAX), maximum);
  }

  class View {
    const style: Style
    var key: Option<Key>
    var entries: seq<Entry>
    var width: nat
    var starts: seq<nat>
    var builds: nat
    ghost var source: Input

    ghost predicate Valid()
      reads this
    {
      && StyleSound(style)
      && (key.Some? ==> key.value == KeyOf(source) && entries == Project(style, source))
      && (key.None? ==> width == 0)
      && (width != 0 ==> StartsFor(width))
    }

    /** One start for each entry, then the total; an empty list counts one row. */
    ghost predicate StartsFor(width: nat)
      reads this
    {
      starts == if |entries| == 0 then [0, 1] else StartsOf(style, entries, width, |entries|)
    }

    constructor (style: Style)
      requires StyleSound(style)
      ensures Valid() && this.style == style && key.None?
    {
      this.style := style;
      key, entries, width, starts, builds := None, [], 0, [], 0;
      source := Input(0, 0, [], 0, []);
    }

    /** Rebuild the entries if, and only if, what they are made from changed. */
    method Refresh(input: Input)
      requires Valid() && (key.Some? ==> AppendOnly(source, input))
      modifies this
      ensures Valid() && key == Some(KeyOf(input)) && source == input && entries == Project(style, input)
      ensures builds == old(builds) + if old(key).Some? && old(source) == input then 0 else 1
    {
      if key.Some? { SameKeySameInput(source, input); }
      if key != Some(KeyOf(input)) {
        entries := Project(style, input);
        builds := builds + 1;
        key := Some(KeyOf(input));
        width := 0;
        source := input;
      }
    }

    method Measure(width: nat)
      requires Valid() && key.Some? && width > 0
      modifies this`starts, this`width
      ensures Valid() && this.width == width
    {
      if this.width != width {
        starts := AddUp(style, entries, width);
        this.width := width;
      }
    }

    /**
     * The visible window: whatever the offset, its rows after `row` are exactly the rows of the whole list from
     * the clamped offset on, it holds at most one entry per visible row, and no scroll goes past the end.
     */
    method WindowFor(input: Input, width: nat, height: nat, offset: nat) returns (w: Window)
      requires Valid() && (key.Some? ==> AppendOnly(source, input))
      modifies this
      ensures Valid()
      ensures width == 0 || height == 0 ==> w == Window([], 0, 0)
      ensures width > 0 && height > 0 ==> entries == Project(style, input)
      ensures width > 0 && height > 0 && Project(style, input) != [] ==>
                ShowsWindow(style, Project(style, input), width, height, offset, w)
    {
      if width == 0 || height == 0 { return Window([], 0, 0); }
      Refresh(input);
      Measure(width);
      ProjectHasLines(style, input);
      if |entries| == 0 { return Window([], 0, 0); }
      w := Slice(style, entries, starts, width, height, offset);
    }
  }

  lemma {:induction false} EntriesHaveLines(style: Style, receipts: seq<Receipt>, query: nat, n: nat)
    requires n <= |receipts|
    ensures HasLines(Entries(style, receipts, query, n))
  {
    if n > 0 { EntriesHaveLines(style, receipts, query, n - 1); }
  }

  lemma {:induction false} ChatEntriesHaveLines(style: Style, chat: seq<Approval>, query: nat, n: nat)
    requires n <= |chat|
    ensures HasLines(ChatEntries(style, chat, query, n))
  {
    if n > 0 { ChatEntriesHaveLines(style, chat, query, n - 1); }
  }

  lemma {:induction false} ProjectHasLines(style: Style, input: Input)
    ensures HasLines(Project(style, input))
  {
    EntriesHaveLines(style, input.receipts, input.query, |input.receipts|);
    ChatEntriesHaveLines(style, input.chat, input.query, |input.chat|);
  }
}
