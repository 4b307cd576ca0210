/** The canonical JSON printer: two values print the same text exactly when they mean the same. */
module CanonicalJson {
  import opened JsonText

  /** A value as stored: an object is a list of entries in any order. Numbers are their printed tokens. */
  datatype Json =
    | Null | Truth(truth: bool) | Number(token: string) | Text(text: string)
    | Array(items: seq<Json>) | Object(entries: seq<Entry>)

  datatype Entry = Entry(key: string, value: Json)

  /** What a value means: an object is a finite map. */
  datatype Meaning =
    | MNull | MTruth(value: bool) | MNumber(token: string) | MText(text: string)
    | MArray(items: seq<Meaning>) | MObject(entries: map<string, Meaning>)

  // ------------------------------------------------------------------ well-formed

  predicate InNumber(c: char) { '0' <= c <= '9' || c == '-' || c == '+' || c == '.' || c == 'e' || c == 'E' }

  predicate IsToken(s: string) {
    |s| > 0 && ('0' <= s[0] <= '9' || s[0] == '-') && forall i | 0 <= i < |s| :: InNumber(s[i])
  }

  predicate AllWellFormed(items: seq<Json>)
    decreases items
  {
    |items| == 0 || (WellFormed(items[0]) && AllWellFormed(items[1..]))
  }

  function Keys(entries: seq<Entry>): set<string> { set i | 0 <= i < |entries| :: entries[i].key }

  /** Keys are unique. */
  predicate EntriesWellFormed(entries: seq<Entry>)
    decreases entries
  {
    |entries| == 0
    || (entries[0].key !in Keys(entries[1..]) && WellFormed(entries[0].value) && EntriesWellFormed(entries[1..]))
  }

  predicate WellFormed(v: Json)
    decreases v
  {
    match v
    case Number(token) => IsToken(token)
    case Array(items) => AllWellFormed(items)
    case Object(entries) => EntriesWellFormed(entries)
    case _ => true
  }

  // ---------------------------------------------------------------------- meaning

  function AllMeanings(items: seq<Json>): (m: seq<Meaning>)
    ensures |m| == |items|
    decreases items
  {
    if |items| == 0 then [] else [MeaningOf(items[0])] + AllMeanings(items[1..])
  }

  function EntriesMeaning(entries: seq<Entry>): (m: map<string, Meaning>)
    decreases entries
  {
    if |entries| == 0 then map[] else EntriesMeaning(entries[1..])[entries[0].key := MeaningOf(entries[0].value)]
  }

  function MeaningOf(v: Json): Meaning
    decreases v
  {
    match v
    case Null => MNull
    case Truth(b) => MTruth(b)
    case Number(token) => MNumber(token)
    case Text(text) => MText(text)
    case Array(items) => MArray(AllMeanings(items))
    case Object(entries) => MObject(EntriesMeaning(entries))
  }

  // ----------------------------------------------------------------------- sorting

  /** Keys compare by code points, which is how their UTF-8 bytes compare. */
  predicate Less(a: string, b: string) {
    |b| > 0 && (|a| == 0 || a[0] < b[0] || (a[0] == b[0] && Less(a[1..], b[1..])))
  }

  function Place(entry: Entry, entries: seq<Entry>): seq<Entry> {
    if |entries| == 0 || Less(entry.key, entries[0].key) then [entry] + entries
    else [entries[0]] + Place(entry, entries[1..])
  }

  function AllSorted(items: seq<Json>): (r: seq<Json>)
    ensures |r| == |items|
    decreases items
  {
    if |items| == 0 then [] else [Canon(items[0])] + AllSorted(items[1..])
  }

  function EntriesSorted(entries: seq<Entry>): seq<Entry>
    decreases entries
  {
    if |entries| == 0 then [] else Place(Entry(entries[0].key, Canon(entries[0].value)), EntriesSorted(entries[1..]))
  }

  /** Every object's entries in key order. */
  function Canon(v: Json): Json
    decreases v
  {
    match v
    case Array(items) => Array(AllSorted(items))
    case Object(entries) => Object(EntriesSorted(entries))
    case _ => v
  }

  // --------------------------------------------------------------------- printing

  function PrintItems(items: seq<Json>): string
    decreases items
  {
    if |items| == 0 then ""
    else if |items| == 1 then Plain(items[0])
    else Plain(items[0]) + "," + PrintItems(items[1..])
  }

  function PrintEntries(entries: seq<Entry>): string
    decreases entries
  {
    if |entries| == 0 then ""
    else
      var first := Quoted(entries[0].key) + ":" + Plain(entries[0].value);
      if |entries| == 1 then first else first + "," + PrintEntries(entries[1..])
  }

  /** The value as it stands. */
  function Plain(v: Json): string
    decreases v
  {
    match v
    case Null => "null"
    case Truth(b) => if b then "true" else "false"
    case Number(token) => token
    case Text(text) => Quoted(text)
    case Array(items) => "[" + PrintItems(items) + "]"
    case Object(entries) => "{" + PrintEntries(entries) + "}"
  }

  function Print(v: Json): string { Plain(Canon(v)) }

  // ---------------------------------------------------------------------- reading

  function TokenLength(t: string): (n: nat)
    ensures n <= |t| && (forall i | 0 <= i < n :: InNumber(t[i])) && (n < |t| ==> !InNumber(t[n]))
  {
    if |t| == 0 || !InNumber(t[0]) then 0 else 1 + TokenLength(t[1..])
  }

  predicate StartsWith(t: string, word: string) { |word| <= |t| && t[..|word|] == word }

  function Parse(t: string): (r: Option<(Json, string)>)
    ensures r.Some? ==> |r.value.1| < |t|
    decreases |t|, 0
  {
    if |t| == 0 then None
    else if t[0] == '"' then
      var text := ReadText(t[1..]);
      if text.None? then None else Some((Text(text.value.0), text.value.1))
    else if t[0] == '[' then
      if StartsWith(t[1..], "]") then Some((Array([]), t[2..]))
      else
        var items := ParseItems(t[1..]);
        if items.None? then None else Some((Array(items.value.0), items.value.1))
    else if t[0] == '{' then
      if StartsWith(t[1..], "}") then Some((Object([]), t[2..]))
      else
        var entries := ParseEntries(t[1..]);
        if entries.None? then None else Some((Object(entries.value.0), entries.value.1))
    else if StartsWith(t, "null") then Some((Null, t[4..]))
    else if StartsWith(t, "true") then Some((Truth(true), t[4..]))
    else if StartsWith(t, "false") then Some((Truth(false), t[5..]))
    else if TokenLength(t) > 0 then Some((Number(t[..TokenLength(t)]), t[TokenLength(t)..]))
    else None
  }

  function ParseItems(t: string): (r: Option<(seq<Json>, string)>)
    ensures r.Some? ==> |r.value.1| < |t|
    decreases |t|, 1
  {
    var first := Parse(t);
    if first.None? then None
    else
      var (v, rest) := first.value;
      if StartsWith(rest, "]") then Some(([v], rest[1..]))
      else if !StartsWith(rest, ",") then None
      else
        var more := ParseItems(rest[1..]);
        if more.None? then None else Some(([v] + more.value.0, more.value.1))
  }

  function ParseEntries(t: string): (r: Option<(seq<Entry>, string)>)
    ensures r.Some? ==> |r.value.1| < |t|
    decreases |t|, 1
  {
    if !StartsWith(t, "\"") then None
    else
      var key := ReadText(t[1..]);
      if key.None? || !StartsWith(key.value.1, ":") then None
      else
        var first := Parse(key.value.1[1..]);
        if first.None? then None
        else
          var (v, rest) := first.value;
          if StartsWith(rest, "}") then Some(([Entry(key.value.0, v)], rest[1..]))
          else if !StartsWith(rest, ",") then None
          else
            var more := ParseEntries(rest[1..]);
            if more.None? then None else Some(([Entry(key.value.0, v)] + more.value.0, more.value.1))
  }

  // ------------------------------------------------------------- reading undoes printing

  /** What may follow a value. */
  predicate Ends(rest: string) { |rest| == 0 || !InNumber(rest[0]) }

  lemma {:induction false} TokenIsRead(token: string, rest: string)
    requires Ends(rest) && forall i | 0 <= i < |token| :: InNumber(token[i])
    ensures TokenLength(token + rest) == |token|
  {
    if |token| > 0 {
      assert (token + rest)[1..] == token[1..] + rest;
      TokenIsRead(token[1..], rest);
    }
  }

  lemma {:induction false} NumberIsRead(token: string, rest: string)
    requires IsToken(token) && Ends(rest)
    ensures Parse(token + rest) == Some((Number(token), rest))
  {
    TokenIsRead(token, rest);
    var t := token + rest;
    assert t[0] == token[0];
    assert t[..|token|] == token && t[|token|..] == rest;
    NotAWord(t);
  }

  lemma {:induction false} NotAWord(t: string)
    requires |t| > 0 && ('0' <= t[0] <= '9' || t[0] == '-')
    ensures !StartsWith(t, "null") && !StartsWith(t, "true") && !StartsWith(t, "false")
  {
    FirstLetter(t, "null");
    FirstLetter(t, "true");
    FirstLetter(t, "false");
  }

  lemma {:induction false} FirstLetter(t: string, word: string)
    requires |word| > 0
    ensures StartsWith(t, word) ==> t[0] == word[0]
  {
    if StartsWith(t, word) { assert t[..|word|][0] == t[0]; }
  }

  lemma {:induction false} PlainStarts(v: Json)
    requires WellFormed(v)
    ensures |Plain(v)| > 0 && Plain(v)[0] != ']' && Plain(v)[0] != '}'
  {
  }

  lemma {:induction false} ItemsStart(items: seq<Json>, rest: string)
    requires |items| > 0 && AllWellFormed(items)
    ensures !StartsWith(PrintItems(items) + rest, "]")
  {
    PlainStarts(items[0]);
    assert (PrintItems(items) + rest)[0] == Plain(items[0])[0];
    FirstLetter(PrintItems(items) + rest, "]");
  }

  lemma {:induction false} EntriesStart(entries: seq<Entry>, rest: string)
    requires |entries| > 0
    ensures !StartsWith(PrintEntries(entries) + rest, "}")
  {
    assert (PrintEntries(entries) + rest)[0] == '"';
    FirstLetter(PrintEntries(entries) + rest, "}");
  }

  lemma {:induction false} WordIsRead(word: string, rest: string)
    ensures StartsWith(word + rest, word) && (word + rest)[|word|..] == rest
  {
  }

  lemma {:induction false} NullIsRead(rest: string)
    ensures Parse("null" + rest) == Some((Null, rest))
  {
    WordIsRead("null", rest);
  }

  lemma {:induction false} TruthIsRead(b: bool, rest: string)
    ensures Parse(Plain(Truth(b)) + rest) == Some((Truth(b), rest))
  {
    var word := if b then "true" else "false";
    WordIsRead(word, rest);
    FirstLetter(word + rest, "null");
    FirstLetter(word + rest, "true");
    assert (word + rest)[0] == word[0];
  }

  lemma {:induction false} TextValueIsRead(text: string, rest: string)
    ensures Parse(Quoted(text) + rest) == Some((Text(text), rest))
  {
    TextIsRead(text, rest);
    assert (Quoted(text) + rest)[1..] == EscapeAll(text) + "\"" + rest;
  }

  lemma {:induction false} ArrayStep(t: string, items: seq<Json>, rest: string)
    requires |t| > 0 && t[0] == '['
    ensures StartsWith(t[1..], "]") ==> Parse(t) == Some((Array([]), t[2..]))
    ensures !StartsWith(t[1..], "]") && ParseItems(t[1..]) == Some((items, rest)) ==> Parse(t) == Some((Array(items), rest))
  {
  }

  lemma {:induction false} ObjectStep(t: string, entries: seq<Entry>, rest: string)
    requires |t| > 0 && t[0] == '{'
    ensures StartsWith(t[1..], "}") ==> Parse(t) == Some((Object([]), t[2..]))
    ensures !StartsWith(t[1..], "}") && ParseEntries(t[1..]) == Some((entries, rest)) ==> Parse(t) == Some((Object(entries), rest))
  {
  }

  lemma {:induction false} Bracketed(open: char, inner: string, close: char, rest: string)
    ensures var t := [open] + inner + [close] + rest;
            t[0] == open && t[1..] == inner + ([close] + rest) && (inner == "" ==> StartsWith(t[1..], [close]) && t[2..] == rest)
  {
  }

  lemma {:induction false} ArrayIsRead(items: seq<Json>, rest: string)
    requires AllWellFormed(items)
    requires |items| > 0 ==> ParseItems(PrintItems(items) + ("]" + rest)) == Some((items, rest))
    ensures Parse("[" + PrintItems(items) + "]" + rest) == Some((Array(items), rest))
  {
    var t := "[" + PrintItems(items) + "]" + rest;
    Bracketed('[', PrintItems(items), ']', rest);
    ArrayStep(t, items, rest);
    if |items| > 0 { ItemsStart(items, "]" + rest); }
  }

  lemma {:induction false} ObjectIsRead(entries: seq<Entry>, rest: string)
    requires |entries| > 0 ==> ParseEntries(PrintEntries(entries) + ("}" + rest)) == Some((entries, rest))
    ensures Parse("{" + PrintEntries(entries) + "}" + rest) == Some((Object(entries), rest))
  {
    var t := "{" + PrintEntries(entries) + "}" + rest;
    Bracketed('{', PrintEntries(entries), '}', rest);
    ObjectStep(t, entries, rest);
    if |entries| > 0 { EntriesStart(entries, "}" + rest); }
  }

  /** Parsing undoes printing, with any text behind the value. */
  lemma {:induction false} PlainIsRead(v: Json, rest: string)
    requires WellFormed(v) && Ends(rest)
    ensures Parse(Plain(v) + rest) == Some((v, rest))
    decreases v
  {
    match v
    case Null => NullIsRead(rest);
    case Truth(b) => TruthIsRead(b, rest);
    case Number(token) => NumberIsRead(token, rest);
    case Text(text) => TextValueIsRead(text, rest);
    case Array(items) =>
      if |items| > 0 { ItemsAreRead(items, rest); }
      ArrayIsRead(items, rest);
    case Object(entries) =>
      if |entries| > 0 { EntriesAreRead(entries, rest); }
      ObjectIsRead(entries, rest);
  }

  lemma {:induction false} ItemsAreRead(items: seq<Json>, rest: string)
    requires |items| > 0 && AllWellFormed(items)
    ensures ParseItems(PrintItems(items) + ("]" + rest)) == Some((items, rest))
    decreases items
  {
    if |items| == 1 {
      PlainIsRead(items[0], "]" + rest);
      WordIsRead("]", rest);
      assert items == [items[0]];
    } else {
      var after := PrintItems(items[1..]) + ("]" + rest);
      assert PrintItems(items) + ("]" + rest) == Plain(items[0]) + ("," + after);
      PlainIsRead(items[0], "," + after);
      WordIsRead(",", after);
      FirstLetter("," + after, "]");
      ItemsAreRead(items[1..], rest);
      assert [items[0]] + items[1..] == items;
    }
  }

  /** One entry read off the front, and what follows it. */
  lemma {:induction false} EntryThenMore(t: string, e: Entry, after: string, more: seq<Entry>, rest: string)
    requires StartsWith(t, "\"")
    requires ReadText(t[1..]) == Some((e.key, ":" + (Plain(e.value) + after)))
    requires StartsWith(":" + (Plain(e.value) + after), ":")
    requires Parse((":" + (Plain(e.value) + after))[1..]) == Some((e.value, after))
    requires
      || (StartsWith(after, "}") && more == [] && after[1..] == rest)
      || (!StartsWith(after, "}") && StartsWith(after, ",") && ParseEntries(after[1..]) == Some((more, rest)))
    ensures ParseEntries(t) == Some(([e] + more, rest))
  {
    var key := ReadText(t[1..]);
    var first := Parse(key.value.1[1..]);
    assert first == Some((e.value, after)) && Entry(key.value.0, e.value) == e;
    if StartsWith(after, "}") { assert [e] + more == [e]; }
  }

  /** What stands behind the first entry. */
  function Behind(entries: seq<Entry>, rest: string): string
    requires |entries| > 0
  {
    if |entries| == 1 then "}" + rest else "," + (PrintEntries(entries[1..]) + ("}" + rest))
  }

  lemma {:induction false} BehindIsRead(entries: seq<Entry>, rest: string)
    requires |entries| > 0
    requires |entries| > 1 ==> ParseEntries(PrintEntries(entries[1..]) + ("}" + rest)) == Some((entries[1..], rest))
    ensures var after := Behind(entries, rest);
            && Ends(after)
            && ((StartsWith(after, "}") && entries[1..] == [] && after[1..] == rest)
                || (!StartsWith(after, "}") && StartsWith(after, ",") && ParseEntries(after[1..]) == Some((entries[1..], rest))))
  {
    if |entries| == 1 {
      WordIsRead("}", rest);
    } else {
      var tail := PrintEntries(entries[1..]) + ("}" + rest);
      WordIsRead(",", tail);
      FirstLetter("," + tail, "}");
    }
  }

  lemma {:induction false} EntriesAreRead(entries: seq<Entry>, rest: string)
    requires |entries| > 0 && EntriesWellFormed(entries)
    ensures ParseEntries(PrintEntries(entries) + ("}" + rest)) == Some((entries, rest))
    decreases entries
  {
    var e, after := entries[0], Behind(entries, rest);
    if |entries| > 1 { EntriesAreRead(entries[1..], rest); }
    BehindIsRead(entries, rest);
    EntryIsRead(e, after);
    EntriesText(entries, rest);
    assert [e] + entries[1..] == entries;
    EntryThenMore(Quoted(e.key) + (":" + (Plain(e.value) + after)), e, after, entries[1..], rest);
  }

  lemma {:induction false} EntryJoins(key: string, value: string, x: string)
    ensures (key + ":" + value) + x == key + (":" + (value + x))
  {
  }

  lemma {:induction false} EntriesJoin(first: string, others: string, x: string)
    ensures (first + "," + others) + x == first + ("," + (others + x))
  {
  }

  lemma {:induction false} EntriesText(entries: seq<Entry>, rest: string)
    requires |entries| > 0
    ensures PrintEntries(entries) + ("}" + rest) == Quoted(entries[0].key) + (":" + (Plain(entries[0].value) + Behind(entries, rest)))
  {
    var key, value := Quoted(entries[0].key), Plain(entries[0].value);
    var first := key + ":" + value;
    if |entries| == 1 {
      EntryJoins(key, value, "}" + rest);
    } else {
      EntriesJoin(first, PrintEntries(entries[1..]), "}" + rest);
      EntryJoins(key, value, "," + (PrintEntries(entries[1..]) + ("}" + rest)));
    }
  }

  lemma {:induction false} KeyIsRead(key: string, rest: string)
    ensures StartsWith(Quoted(key) + rest, "\"")
    ensures ReadText((Quoted(key) + rest)[1..]) == Some((key, rest))
  {
    assert (Quoted(key) + rest)[1..] == EscapeAll(key) + "\"" + rest;
    assert (Quoted(key) + rest)[0] == '"';
    TextIsRead(key, rest);
  }

  lemma {:induction false} EntryIsRead(e: Entry, after: string)
    requires WellFormed(e.value) && Ends(after)
    ensures var t := Quoted(e.key) + (":" + (Plain(e.value) + after));
            && StartsWith(t, "\"")
            && ReadText(t[1..]) == Some((e.key, ":" + (Plain(e.value) + after)))
            && StartsWith(":" + (Plain(e.value) + after), ":")
            && Parse((":" + (Plain(e.value) + after))[1..]) == Some((e.value, after))
    decreases e
  {
    KeyIsRead(e.key, ":" + (Plain(e.value) + after));
    WordIsRead(":", Plain(e.value) + after);
    PlainIsRead(e.value, after);
  }

  // ------------------------------------------------------------------- key order

  lemma {:induction false} LessTotal(a: string, b: string)
    ensures Less(a, b) || Less(b, a) || a == b
    ensures !(Less(a, b) && Less(b, a)) && (a == b ==> !Less(a, b))
    decreases |a|
  {
    if |a| > 0 && |b| > 0 && a[0] == b[0] {
      LessTotal(a[1..], b[1..]);
      assert a == [a[0]] + a[1..] && b == [b[0]] + b[1..];
    }
  }

  lemma {:induction false} LessTransitive(a: string, b: string, c: string)
    requires Less(a, b) && Less(b, c)
    ensures Less(a, c)
    decreases |a|
  {
    if |a| > 0 && a[0] == b[0] == c[0] { LessTransitive(a[1..], b[1..], c[1..]); }
  }

  predicate InOrder(entries: seq<Entry>) {
    |entries| < 2 || (Less(entries[0].key, entries[1].key) && InOrder(entries[1..]))
  }

  lemma {:induction false} FirstIsLeast(entries: seq<Entry>, key: string)
    requires InOrder(entries) && |entries| > 0 && key in Keys(entries[1..])
    ensures Less(entries[0].key, key)
  {
    if entries[1].key != key {
      var i :| 0 <= i < |entries[1..]| && entries[1..][i].key == key;
      assert entries[1..][1..][i - 1].key == key;
      FirstIsLeast(entries[1..], key);
      LessTransitive(entries[0].key, entries[1].key, key);
    }
  }

  lemma {:induction false} PlaceKeys(e: Entry, entries: seq<Entry>)
    ensures Keys(Place(e, entries)) == Keys(entries) + {e.key} && |Place(e, entries)| == |entries| + 1
  {
    var r := Place(e, entries);
    KeysSplit(r);
    KeysSplit(entries);
    if |entries| == 0 || Less(e.key, entries[0].key) {
      assert r[1..] == entries;
    } else {
      PlaceKeys(e, entries[1..]);
      assert r[1..] == Place(e, entries[1..]);
    }
  }

  lemma {:induction false} PlaceStaysInOrder(e: Entry, entries: seq<Entry>)
    requires e.key !in Keys(entries) && InOrder(entries)
    ensures InOrder(Place(e, entries))
  {
    if |entries| > 0 {
      KeysSplit(entries);
      LessTotal(e.key, entries[0].key);
      if !Less(e.key, entries[0].key) {
        PlaceStaysInOrder(e, entries[1..]);
        assert Place(e, entries)[1..] == Place(e, entries[1..]);
      } else {
        assert ([e] + entries)[1..] == entries;
      }
    }
  }

  lemma {:induction false} PlaceKeeps(e: Entry, entries: seq<Entry>)
    requires e.key !in Keys(entries) && EntriesWellFormed(entries) && WellFormed(e.value) && InOrder(entries)
    ensures var r := Place(e, entries);
            && Keys(r) == Keys(entries) + {e.key}
            && EntriesWellFormed(r) && InOrder(r)
            && EntriesMeaning(r) == EntriesMeaning(entries)[e.key := MeaningOf(e.value)]
  {
    PlaceKeys(e, entries);
    PlaceStaysInOrder(e, entries);
    if |entries| == 0 || Less(e.key, entries[0].key) {
      assert ([e] + entries)[1..] == entries;
    } else {
      KeysSplit(entries);
      PlaceKeeps(e, entries[1..]);
      PlaceKeys(e, entries[1..]);
      assert Place(e, entries)[1..] == Place(e, entries[1..]);
    }
  }

  lemma {:induction false} KeysSplit(entries: seq<Entry>)
    ensures |entries| > 0 ==> Keys(entries) == {entries[0].key} + Keys(entries[1..])
  {
    if |entries| > 0 {
      forall i | 0 < i < |entries| ensures entries[i].key in Keys(entries[1..]) {
        assert entries[1..][i - 1] == entries[i];
      }
      forall i | 0 <= i < |entries[1..]| ensures entries[1..][i].key in Keys(entries) {
        assert entries[i + 1] == entries[1..][i];
      }
    }
  }

  // --------------------------------------------------------- canonical values

  predicate AllCanonical(items: seq<Json>)
    decreases items
  {
    |items| == 0 || (Canonical(items[0]) && AllCanonical(items[1..]))
  }

  predicate EntriesCanonical(entries: seq<Entry>)
    decreases entries
  {
    |entries| == 0 || (Canonical(entries[0].value) && EntriesCanonical(entries[1..]))
  }

  predicate Canonical(v: Json)
    decreases v
  {
    match v
    case Array(items) => AllCanonical(items)
    case Object(entries) => EntriesCanonical(entries) && InOrder(entries)
    case _ => true
  }

  lemma {:induction false} PlaceCanonical(e: Entry, entries: seq<Entry>)
    requires EntriesCanonical(entries) && Canonical(e.value)
    ensures EntriesCanonical(Place(e, entries))
  {
    if |entries| > 0 && !Less(e.key, entries[0].key) {
      PlaceCanonical(e, entries[1..]);
      assert Place(e, entries)[1..] == Place(e, entries[1..]);
    } else {
      assert ([e] + entries)[1..] == entries;
    }
  }

  /** Sorting changes no meaning and loses nothing. */
  lemma {:induction false} CanonKeeps(v: Json)
    requires WellFormed(v)
    ensures WellFormed(Canon(v)) && Canonical(Canon(v)) && MeaningOf(Canon(v)) == MeaningOf(v)
    decreases v
  {
    match v
    case Array(items) => AllCanonKeeps(items);
    case Object(entries) => EntriesCanonKeeps(entries);
    case _ =>
  }

  lemma {:induction false} AllCanonKeeps(items: seq<Json>)
    requires AllWellFormed(items)
    ensures AllWellFormed(AllSorted(items)) && AllCanonical(AllSorted(items)) && AllMeanings(AllSorted(items)) == AllMeanings(items)
    decreases items
  {
    if |items| > 0 {
      CanonKeeps(items[0]);
      AllCanonKeeps(items[1..]);
      assert AllSorted(items)[1..] == AllSorted(items[1..]);
    }
  }

  lemma {:induction false} EntriesCanonKeeps(entries: seq<Entry>)
    requires EntriesWellFormed(entries)
    ensures var r := EntriesSorted(entries);
            && EntriesWellFormed(r) && EntriesCanonical(r) && InOrder(r)
            && Keys(r) == Keys(entries) && EntriesMeaning(r) == EntriesMeaning(entries)
    decreases entries
  {
    if |entries| > 0 {
      CanonKeeps(entries[0].value);
      EntriesCanonKeeps(entries[1..]);
      KeysSplit(entries);
      var e := Entry(entries[0].key, Canon(entries[0].value));
      PlaceKeeps(e, EntriesSorted(entries[1..]));
      PlaceCanonical(e, EntriesSorted(entries[1..]));
    }
  }

  lemma {:induction false} MeaningKeys(entries: seq<Entry>)
    ensures EntriesMeaning(entries).Keys == Keys(entries)
  {
    if |entries| > 0 {
      MeaningKeys(entries[1..]);
      KeysSplit(entries);
    }
  }

  /** Sorted values with the same meaning are the same value. */
  lemma {:induction false} CanonicalUnique(a: Json, b: Json)
    requires WellFormed(a) && WellFormed(b) && Canonical(a) && Canonical(b) && MeaningOf(a) == MeaningOf(b)
    ensures a == b
    decreases a
  {
    match a
    case Array(items) => AllUnique(items, b.items);
    case Object(entries) => EntriesUnique(entries, b.entries);
    case _ =>
  }

  lemma {:induction false} AllUnique(p: seq<Json>, q: seq<Json>)
    requires AllWellFormed(p) && AllWellFormed(q) && AllCanonical(p) && AllCanonical(q) && AllMeanings(p) == AllMeanings(q)
    ensures p == q
    decreases p
  {
    assert |p| == |q|;
    if |p| > 0 {
      assert AllMeanings(p)[0] == MeaningOf(p[0]) && AllMeanings(q)[0] == MeaningOf(q[0]);
      assert AllMeanings(p)[1..] == AllMeanings(p[1..]) && AllMeanings(q)[1..] == AllMeanings(q[1..]);
      CanonicalUnique(p[0], q[0]);
      AllUnique(p[1..], q[1..]);
      assert p == [p[0]] + p[1..] && q == [q[0]] + q[1..];
    }
  }

  /** The first of two sorted entry lists with the same keys is the same key. */
  lemma {:induction false} SameFirst(p: seq<Entry>, q: seq<Entry>)
    requires InOrder(p) && InOrder(q) && Keys(p) == Keys(q) && |p| > 0
    ensures |q| > 0 && p[0].key == q[0].key
  {
    KeysSplit(p);
    KeysSplit(q);
    assert p[0].key in Keys(q);
    if p[0].key in Keys(q[1..]) { FirstIsLeast(q, p[0].key); }
    if q[0].key in Keys(p[1..]) { FirstIsLeast(p, q[0].key); }
    LessTotal(p[0].key, q[0].key);
  }

  lemma {:induction false} SameBefore<K, V>(m: map<K, V>, n: map<K, V>, key: K, x: V, y: V)
    requires key !in m && key !in n && m[key := x] == n[key := y]
    ensures m == n && x == y
  {
    assert m[key := x][key] == x && n[key := y][key] == y;
    forall k | k in m ensures k in n && m[k] == n[k] { assert m[key := x][k] == m[k] && k in n[key := y]; }
    forall k | k in n ensures k in m { assert n[key := y][k] == n[k] && k in m[key := x]; }
  }

  lemma {:induction false} EntriesUnique(p: seq<Entry>, q: seq<Entry>)
    requires EntriesWellFormed(p) && EntriesWellFormed(q) && EntriesCanonical(p) && EntriesCanonical(q)
    requires InOrder(p) && InOrder(q) && EntriesMeaning(p) == EntriesMeaning(q)
    ensures p == q
    decreases p
  {
    MeaningKeys(p);
    MeaningKeys(q);
    KeysSplit(p);
    KeysSplit(q);
    if |p| > 0 {
      SameFirst(p, q);
      MeaningKeys(p[1..]);
      MeaningKeys(q[1..]);
      SameBefore(EntriesMeaning(p[1..]), EntriesMeaning(q[1..]), p[0].key, MeaningOf(p[0].value), MeaningOf(q[0].value));
      CanonicalUnique(p[0].value, q[0].value);
      EntriesUnique(p[1..], q[1..]);
      assert p == [p[0]] + p[1..] && q == [q[0]] + q[1..];
    } else {
      assert Keys(q) == {};
    }
  }

  // -------------------------------------------------------------------- theorems

  /** The printed text can be read back, as the value with its keys sorted, which means the same. */
  lemma {:induction false} PrintIsRead(v: Json)
    requires WellFormed(v)
    ensures Parse(Print(v)) == Some((Canon(v), "")) && MeaningOf(Canon(v)) == MeaningOf(v)
  {
    CanonKeeps(v);
    PlainIsRead(Canon(v), "");
    assert Print(v) + "" == Print(v);
  }

  /** Two values print the same text exactly when they mean the same, whatever the order of their keys. */
  lemma {:induction false} PrintsSameIffSameMeaning(a: Json, b: Json)
    requires WellFormed(a) && WellFormed(b)
    ensures Print(a) == Print(b) <==> MeaningOf(a) == MeaningOf(b)
  {
    PrintIsRead(a);
    PrintIsRead(b);
    if MeaningOf(a) == MeaningOf(b) {
      CanonKeeps(a);
      CanonKeeps(b);
      CanonicalUnique(Canon(a), Canon(b));
    }
  }
}
