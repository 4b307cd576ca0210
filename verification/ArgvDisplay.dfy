/** The one-line display of a check's argv, and the reader that recovers the argv from it. */
module ArgvDisplay {
  import opened Notes

  predicate Special(c: char) { Space(c) || c == '\'' || c == '"' || c == '\\' || c == '$' }

  predicate IsPlain(arg: string) { arg != "" && forall i | 0 <= i < |arg| :: !Special(arg[i]) }

  /** Inside quotes a quote closes them, stands escaped, and opens them again. */
  function QuoteBody(arg: string): string {
    if arg == "" then "" else (if arg[0] == '\'' then "'\\''" else [arg[0]]) + QuoteBody(arg[1..])
  }

  function Show(arg: string): string { if IsPlain(arg) then arg else "'" + QuoteBody(arg) + "'" }

  function CheckLine(argv: seq<string>): string {
    if |argv| == 0 then "" else if |argv| == 1 then Show(argv[0]) else Show(argv[0]) + " " + CheckLine(argv[1..])
  }

  // ---------------------------------------------------------------------- reading

  const AGAIN: string := "\\''"

  /** The rest of a quoted argument, and what follows it. */
  function ReadQuoted(t: string): (r: Option<(string, string)>)
    ensures r.Some? ==> |r.value.1| < |t|
    decreases |t|
  {
    if t == "" then None
    else if t[0] == '\'' then
      if AGAIN <= t[1..] then
        var more := ReadQuoted(t[4..]);
        if more.None? then None else Some(("'" + more.value.0, more.value.1))
      else Some(("", t[1..]))
    else
      var more := ReadQuoted(t[1..]);
      if more.None? then None else Some(([t[0]] + more.value.0, more.value.1))
  }

  function ReadPlain(t: string): (r: (string, string))
    ensures |r.0| + |r.1| == |t|
  {
    if t == "" || t[0] == ' ' then ("", t) else var more := ReadPlain(t[1..]); ([t[0]] + more.0, more.1)
  }

  function ReadArg(t: string): (r: Option<(string, string)>)
    ensures r.Some? ==> |r.value.1| < |t|
  {
    if t == "" then None
    else if t[0] == '\'' then ReadQuoted(t[1..])
    else
      var plain := ReadPlain(t);
      if plain.0 == "" then None else Some(plain)
  }

  function ReadLine(t: string): Option<seq<string>>
    decreases |t|
  {
    if t == "" then Some([])
    else
      var first := ReadArg(t);
      if first.None? then None
      else if first.value.1 == "" then Some([first.value.0])
      else if first.value.1[0] != ' ' || first.value.1 == " " then None
      else
        var more := ReadLine(first.value.1[1..]);
        if more.None? then None else Some([first.value.0] + more.value)
  }

  /** What follows an argument: the end, or a space. */
  predicate Separated(rest: string) { rest == "" || rest[0] == ' ' }

  lemma {:induction false} QuotedIsRead(arg: string, rest: string)
    requires Separated(rest)
    ensures ReadQuoted(QuoteBody(arg) + ("'" + rest)) == Some((arg, rest))
  {
    var tail := "'" + rest;
    if arg == "" {
      assert QuoteBody(arg) + tail == tail && tail[1..] == rest;
    } else {
      var after := QuoteBody(arg[1..]) + tail;
      QuotedIsRead(arg[1..], rest);
      assert arg == [arg[0]] + arg[1..];
      if arg[0] == '\'' {
        assert QuoteBody(arg) + tail == "'" + (AGAIN + after);
        assert ("'" + (AGAIN + after))[1..] == AGAIN + after && ("'" + (AGAIN + after))[4..] == after;
      } else {
        assert QuoteBody(arg) + tail == [arg[0]] + after;
        assert ([arg[0]] + after)[1..] == after;
      }
    }
  }

  lemma {:induction false} PlainIsRead(arg: string, rest: string)
    requires Separated(rest) && forall i | 0 <= i < |arg| :: !Special(arg[i])
    ensures ReadPlain(arg + rest) == (arg, rest)
  {
    if arg == "" {
      assert arg + rest == rest;
    } else {
      assert (arg + rest)[1..] == arg[1..] + rest;
      PlainIsRead(arg[1..], rest);
      assert arg == [arg[0]] + arg[1..];
    }
  }

  lemma {:induction false} ArgIsRead(arg: string, rest: string)
    requires Separated(rest)
    ensures ReadArg(Show(arg) + rest) == Some((arg, rest))
  {
    if IsPlain(arg) {
      PlainIsRead(arg, rest);
      assert (arg + rest)[0] == arg[0];
    } else {
      QuotedIsRead(arg, rest);
      assert Show(arg) + rest == "'" + (QuoteBody(arg) + ("'" + rest));
      assert ("'" + (QuoteBody(arg) + ("'" + rest)))[1..] == QuoteBody(arg) + ("'" + rest);
    }
  }

  lemma {:induction false} ShowIsNotEmpty(arg: string)
    ensures Show(arg) != ""
  {
  }

  lemma {:induction false} LineIsNotEmpty(argv: seq<string>)
    requires |argv| > 0
    ensures CheckLine(argv) != ""
  {
    ShowIsNotEmpty(argv[0]);
  }

  /** One argument off the front, and the arguments behind it. */
  lemma {:induction false} ArgThenMore(t: string, arg: string, rest: string, others: seq<string>)
    requires t != "" && ReadArg(t) == Some((arg, rest))
    requires (rest == "" && others == []) || (|rest| > 1 && rest[0] == ' ' && ReadLine(rest[1..]) == Some(others))
    ensures ReadLine(t) == Some([arg] + others)
  {
    if rest == "" { assert [arg] + others == [arg]; }
  }

  /** Every argv can be read back from its display, whatever its arguments hold. */
  lemma {:induction false} LineIsRead(argv: seq<string>)
    ensures ReadLine(CheckLine(argv)) == Some(argv)
  {
    if |argv| > 0 {
      ShowIsNotEmpty(argv[0]);
      var others := argv[1..];
      var rest := if |argv| == 1 then "" else " " + CheckLine(others);
      assert CheckLine(argv) == Show(argv[0]) + rest;
      ArgIsRead(argv[0], rest);
      if |argv| > 1 {
        LineIsNotEmpty(others);
        LineIsRead(others);
        assert rest[1..] == CheckLine(others);
      }
      ArgThenMore(CheckLine(argv), argv[0], rest, others);
      assert argv == [argv[0]] + others;
    }
  }

  /** Argvs that are split differently never read the same. */
  lemma {:induction false} DifferentArgvsLookDifferent(a: seq<string>, b: seq<string>)
    ensures CheckLine(a) == CheckLine(b) <==> a == b
  {
    LineIsRead(a);
    LineIsRead(b);
  }
}
