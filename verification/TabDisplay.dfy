/** Tabs shown as an arrow and spaces to the next stop, and the reader that recovers the text. */
module TabDisplay {
  const TAB_WIDTH: nat := 4

  const ARROW: char := '\U{2192}'

  const ESCAPED: string := "<U+2192>"

  /** Display columns of a character. */
  type Widths = char -> nat

  /** Spaces, the arrow and the escape's characters take one column each. */
  predicate WidthsSound(w: Widths) {
    w(' ') == 1 && w(ARROW) == 1 && forall i | 0 <= i < |ESCAPED| :: w(ESCAPED[i]) == 1
  }

  function Pad(column: nat): (pad: nat)
    ensures 1 <= pad <= TAB_WIDTH && (column + pad) % TAB_WIDTH == 0
  {
    TAB_WIDTH - column % TAB_WIDTH
  }

  function Spaces(n: nat): (s: string)
    ensures |s| == n
  {
    if n == 0 then "" else " " + Spaces(n - 1)
  }

  function Piece(c: char, column: nat, marked: bool): string {
    if c == '\t' then (if marked then [ARROW] + Spaces(Pad(column) - 1) else Spaces(Pad(column)))
    else if c == ARROW && marked then ESCAPED
    else [c]
  }

  function Step(w: Widths, c: char, column: nat, marked: bool): nat {
    if c == '\n' then 0
    else if c == '\t' then column + Pad(column)
    else if c == ARROW && marked then column + |ESCAPED|
    else column + w(c)
  }

  function Tabs(w: Widths, text: string, column: nat, marked: bool): string
    decreases |text|
  {
    if text == "" then "" else Piece(text[0], column, marked) + Tabs(w, text[1..], Step(w, text[0], column, marked), marked)
  }

  function ColumnAfter(w: Widths, text: string, column: nat, marked: bool): nat
    decreases |text|
  {
    if text == "" then column else ColumnAfter(w, text[1..], Step(w, text[0], column, marked), marked)
  }

  lemma {:induction false} OneTab(w: Widths, c: char, column: nat, marked: bool)
    ensures Tabs(w, [c], column, marked) == Piece(c, column, marked)
    ensures ColumnAfter(w, [c], column, marked) == Step(w, c, column, marked)
  {
    assert [c][1..] == "";
    assert Piece(c, column, marked) + "" == Piece(c, column, marked);
  }

  lemma {:induction false} Associates(a: string, b: string, c: string)
    ensures a + (b + c) == (a + b) + c
  {
  }

  lemma {:induction false} TabsAppend(w: Widths, text: string, c: char, column: nat, marked: bool)
    ensures Tabs(w, text + [c], column, marked)
            == Tabs(w, text, column, marked) + Piece(c, ColumnAfter(w, text, column, marked), marked)
    ensures ColumnAfter(w, text + [c], column, marked) == Step(w, c, ColumnAfter(w, text, column, marked), marked)
    decreases |text|
  {
    if text == "" {
      assert text + [c] == [c];
      OneTab(w, c, column, marked);
    } else {
      var next := Step(w, text[0], column, marked);
      assert (text + [c])[1..] == text[1..] + [c];
      TabsAppend(w, text[1..], c, next, marked);
      Associates(Piece(text[0], column, marked), Tabs(w, text[1..], next, marked),
                 Piece(c, ColumnAfter(w, text[1..], next, marked), marked));
    }
  }

  /** The loop over the text, with its column. */
  method TabsAs(w: Widths, text: string, marked: bool) returns (out: string)
    ensures out == Tabs(w, text, 0, marked)
  {
    out := "";
    var column := 0;
    for i := 0 to |text|
      invariant out == Tabs(w, text[..i], 0, marked)
      invariant column == ColumnAfter(w, text[..i], 0, marked)
    {
      var c := text[i];
      assert text[..i + 1] == text[..i] + [c];
      TabsAppend(w, text[..i], c, 0, marked);
      if c == '\n' {
        column := 0;
        out := out + [c];
      } else if c == '\t' {
        var pad := TAB_WIDTH - column % TAB_WIDTH;
        out := out + (if marked then [ARROW] + Spaces(pad - 1) else Spaces(pad));
        column := column + pad;
      } else if c == ARROW && marked {
        out := out + ESCAPED;
        column := column + |ESCAPED|;
      } else {
        column := column + w(c);
        out := out + [c];
      }
    }
    assert text[..|text|] == text;
  }

  // ------------------------------------------------------------------ tab stops

  /** Where the cursor stands after this text is drawn. */
  function Drawn(w: Widths, out: string, column: nat): nat
    decreases |out|
  {
    if out == "" then column else Drawn(w, out[1..], if out[0] == '\n' then 0 else column + w(out[0]))
  }

  lemma {:induction false} DrawnJoins(w: Widths, a: string, b: string, column: nat)
    ensures Drawn(w, a + b, column) == Drawn(w, b, Drawn(w, a, column))
    decreases |a|
  {
    if a == "" {
      assert a + b == b;
    } else {
      assert (a + b)[1..] == a[1..] + b;
      DrawnJoins(w, a[1..], b, if a[0] == '\n' then 0 else column + w(a[0]));
    }
  }

  lemma {:induction false} SpacesDrawn(w: Widths, n: nat, column: nat)
    requires w(' ') == 1
    ensures Drawn(w, Spaces(n), column) == column + n
  {
    if n > 0 {
      assert Spaces(n)[1..] == Spaces(n - 1);
      SpacesDrawn(w, n - 1, column + 1);
    }
  }

  lemma {:induction false} PlainDrawn(w: Widths, s: string, column: nat)
    requires forall i | 0 <= i < |s| :: s[i] != '\n' && w(s[i]) == 1
    ensures Drawn(w, s, column) == column + |s|
    decreases |s|
  {
    if s != "" { PlainDrawn(w, s[1..], column + 1); }
  }

  lemma {:induction false} PieceDrawn(w: Widths, c: char, column: nat, marked: bool)
    requires WidthsSound(w)
    ensures Drawn(w, Piece(c, column, marked), column) == Step(w, c, column, marked)
  {
    if c == '\t' {
      var pad := Pad(column);
      if marked {
        SpacesDrawn(w, pad - 1, column + 1);
        assert ([ARROW] + Spaces(pad - 1))[1..] == Spaces(pad - 1);
      } else {
        SpacesDrawn(w, pad, column);
      }
    } else if c == ARROW && marked {
      PlainDrawn(w, ESCAPED, column);
    } else {
      assert [c][1..] == "";
    }
  }

  /** The columns counted are the columns drawn. */
  lemma {:induction false} CountedIsDrawn(w: Widths, text: string, column: nat, marked: bool)
    requires WidthsSound(w)
    ensures Drawn(w, Tabs(w, text, column, marked), column) == ColumnAfter(w, text, column, marked)
    decreases |text|
  {
    if text != "" {
      var next := Step(w, text[0], column, marked);
      DrawnJoins(w, Piece(text[0], column, marked), Tabs(w, text[1..], next, marked), column);
      PieceDrawn(w, text[0], column, marked);
      CountedIsDrawn(w, text[1..], next, marked);
    }
  }

  /** After any text, a tab is drawn up to the next multiple of four columns, and by one to four columns. */
  lemma {:induction false} TabsEndOnStops(w: Widths, text: string, marked: bool)
    requires WidthsSound(w)
    ensures var before := Drawn(w, Tabs(w, text, 0, marked), 0);
            var after := Drawn(w, Tabs(w, text + "\t", 0, marked), 0);
            after % TAB_WIDTH == 0 && before < after <= before + TAB_WIDTH
  {
    CountedIsDrawn(w, text, 0, marked);
    CountedIsDrawn(w, text + "\t", 0, marked);
    TabsAppend(w, text, '\t', 0, marked);
  }

  // ---------------------------------------------------------------------- reading

  /** An arrow with its spaces is a tab, the escape is an arrow, and everything else is itself. */
  function Undo(w: Widths, out: string, column: nat): string
    decreases |out|
  {
    if out == "" then ""
    else if out[0] == ARROW && |out| >= Pad(column) then "\t" + Undo(w, out[Pad(column)..], column + Pad(column))
    else if ESCAPED <= out then [ARROW] + Undo(w, out[|ESCAPED|..], column + |ESCAPED|)
    else [out[0]] + Undo(w, out[1..], Step(w, out[0], column, true))
  }

  /** The text holds the literal escape nowhere. */
  predicate NoEscape(text: string) { forall i | 0 <= i <= |text| :: !(ESCAPED <= text[i..]) }

  lemma {:induction false} NoEscapeTail(text: string)
    requires NoEscape(text) && text != ""
    ensures NoEscape(text[1..])
  {
    forall i | 0 <= i <= |text[1..]| ensures !(ESCAPED <= text[1..][i..]) { assert text[1..][i..] == text[i + 1..]; }
  }

  /** What the output shows of the escape's characters from `k` on was in the text itself. */
  lemma {:induction false} ShownWasThere(w: Widths, text: string, column: nat, k: nat)
    requires 1 <= k <= |ESCAPED| && ESCAPED[k..] <= Tabs(w, text, column, true)
    ensures ESCAPED[k..] <= text
    decreases |ESCAPED| - k
  {
    if k < |ESCAPED| {
      var out := Tabs(w, text, column, true);
      assert out[0] == ESCAPED[k] && ESCAPED[k] != ARROW && ESCAPED[k] != '<';
      assert text != "" && out[0] == Piece(text[0], column, true)[0];
      assert text[0] == ESCAPED[k] && out[1..] == Tabs(w, text[1..], Step(w, text[0], column, true), true);
      assert ESCAPED[k..][1..] == ESCAPED[k + 1..];
      assert ESCAPED[k + 1..] <= out[1..];
      ShownWasThere(w, text[1..], Step(w, text[0], column, true), k + 1);
      assert text == [text[0]] + text[1..] && ESCAPED[k..] == [ESCAPED[k]] + ESCAPED[k + 1..];
    }
  }

  /** A copied character starts a shown escape only if the text holds the escape there. */
  lemma {:induction false} CopiedEscapeWasThere(w: Widths, text: string, column: nat)
    requires text != "" && text[0] != '\t' && text[0] != ARROW
    ensures ESCAPED <= Tabs(w, text, column, true) ==> ESCAPED <= text
  {
    var out := Tabs(w, text, column, true);
    var rest := Tabs(w, text[1..], Step(w, text[0], column, true), true);
    assert out == [text[0]] + rest;
    if ESCAPED <= out {
      assert out[1..] == rest && ESCAPED[1..] <= rest;
      ShownWasThere(w, text[1..], Step(w, text[0], column, true), 1);
      assert text[0] == out[0] == ESCAPED[0];
      assert ESCAPED == [ESCAPED[0]] + ESCAPED[1..] && text == [text[0]] + text[1..];
    }
  }

  lemma {:induction false} PlainIsRead(w: Widths, text: string, column: nat)
    requires NoEscape(text)
    ensures Undo(w, Tabs(w, text, column, true), column) == text
    decreases |text|
  {
    if text != "" {
      var c := text[0];
      var next := Step(w, c, column, true);
      var rest := Tabs(w, text[1..], next, true);
      NoEscapeTail(text);
      PlainIsRead(w, text[1..], next);
      assert text == [c] + text[1..];
      var piece := Piece(c, column, true);
      assert (piece + rest)[|piece|..] == rest;
      if c == '\t' {
        assert (piece + rest)[0] == ARROW;
      } else if c == ARROW {
        assert (piece + rest)[0] == '<' && ESCAPED <= piece + rest;
      } else {
        CopiedEscapeWasThere(w, text, column);
        assert text[0..] == text;
      }
    }
  }

  /** Characters of the escape that are read, from `k` on, were shown as they are. */
  lemma {:induction false} ReadWasShown(w: Widths, out: string, column: nat, k: nat)
    requires 1 <= k <= |ESCAPED| && ESCAPED[k..] <= Undo(w, out, column)
    ensures ESCAPED[k..] <= out
    decreases |ESCAPED| - k
  {
    if k < |ESCAPED| {
      var text := Undo(w, out, column);
      assert text[0] == ESCAPED[k] && ESCAPED[k] != ARROW && ESCAPED[k] != '\t';
      assert out != "" && text == [out[0]] + Undo(w, out[1..], Step(w, out[0], column, true));
      assert ESCAPED[k..][1..] == ESCAPED[k + 1..];
      assert ESCAPED[k + 1..] <= text[1..];
      ReadWasShown(w, out[1..], Step(w, out[0], column, true), k + 1);
      assert out == [out[0]] + out[1..] && ESCAPED[k..] == [ESCAPED[k]] + ESCAPED[k + 1..];
    }
  }

  lemma {:induction false} EscapeJoins(out: string)
    requires out != "" && out[0] == ESCAPED[0] && ESCAPED[1..] <= out[1..]
    ensures ESCAPED <= out
  {
    assert out == [out[0]] + out[1..] && ESCAPED == [ESCAPED[0]] + ESCAPED[1..];
  }

  lemma {:induction false} NoEscapeRead(w: Widths, out: string, column: nat)
    ensures !(ESCAPED <= Undo(w, out, column))
  {
    var text := Undo(w, out, column);
    if ESCAPED <= text {
      assert text[0] == ESCAPED[0] && ESCAPED[0] != ARROW && ESCAPED[0] != '\t';
      assert text == [out[0]] + Undo(w, out[1..], Step(w, out[0], column, true));
      assert ESCAPED[1..] <= text[1..];
      ReadWasShown(w, out[1..], Step(w, out[0], column, true), 1);
      EscapeJoins(out);
    }
  }

  /** Whatever is shown, reading never yields the escape itself. */
  lemma {:induction false} ReadHasNoEscape(w: Widths, out: string, column: nat)
    ensures NoEscape(Undo(w, out, column))
    decreases |out|
  {
    if out != "" {
      var text := Undo(w, out, column);
      var (rest, next) :=
        if out[0] == ARROW && |out| >= Pad(column) then (out[Pad(column)..], column + Pad(column))
        else if ESCAPED <= out then (out[|ESCAPED|..], column + |ESCAPED|)
        else (out[1..], Step(w, out[0], column, true));
      ReadHasNoEscape(w, rest, next);
      assert text[1..] == Undo(w, rest, next);
      forall i | 0 <= i <= |text| ensures !(ESCAPED <= text[i..]) {
        if i == 0 {
          assert text[0..] == text;
          NoEscapeRead(w, out, column);
        } else {
          assert text[i..] == text[1..][i - 1..];
        }
      }
    }
  }

  /** The exact text is read back from what is shown exactly if it does not hold the escape itself. */
  lemma {:induction false} ShownIsRead(w: Widths, text: string, column: nat)
    ensures Undo(w, Tabs(w, text, column, true), column) == text <==> NoEscape(text)
  {
    ReadHasNoEscape(w, Tabs(w, text, column, true), column);
    if NoEscape(text) { PlainIsRead(w, text, column); }
  }

  /** Plain characters are shown as they are, and take one column each. */
  lemma {:induction false} PlainIsCopied(w: Widths, plain: string, rest: string, column: nat)
    requires forall i | 0 <= i < |plain| :: plain[i] != '\t' && plain[i] != ARROW && plain[i] != '\n' && w(plain[i]) == 1
    ensures Tabs(w, plain + rest, column, true) == plain + Tabs(w, rest, column + |plain|, true)
    decreases |plain|
  {
    if plain == "" {
      assert plain + rest == rest;
    } else {
      assert (plain + rest)[1..] == plain[1..] + rest;
      PlainIsCopied(w, plain[1..], rest, column + 1);
      assert [plain[0]] + plain[1..] == plain;
      Associates([plain[0]], plain[1..], Tabs(w, rest, column + |plain|, true));
    }
  }

  /** A text that begins with the escape is read as one that begins with an arrow. */
  lemma {:induction false} EscapeIsReadAsArrow(w: Widths, text: string, column: nat)
    requires WidthsSound(w) && ESCAPED <= text
    ensures Undo(w, Tabs(w, text, column, true), column)
            == [ARROW] + Undo(w, Tabs(w, text[|ESCAPED|..], column + |ESCAPED|, true), column + |ESCAPED|)
    ensures Tabs(w, text, column, true) == ESCAPED + Tabs(w, text[|ESCAPED|..], column + |ESCAPED|, true)
  {
    assert text == ESCAPED + text[|ESCAPED|..];
    PlainIsCopied(w, ESCAPED, text[|ESCAPED|..], column);
    var rest := Tabs(w, text[|ESCAPED|..], column + |ESCAPED|, true);
    assert (ESCAPED + rest)[0] == '<' && ESCAPED <= ESCAPED + rest && (ESCAPED + rest)[|ESCAPED|..] == rest;
  }

  lemma {:induction false} FirstIsRead(w: Widths, text: string, column: nat)
    requires text != "" && !(ESCAPED <= text)
    ensures var next := Step(w, text[0], column, true);
            Undo(w, Tabs(w, text, column, true), column)
            == [text[0]] + Undo(w, Tabs(w, text[1..], next, true), next)
  {
    var c := text[0];
    var rest := Tabs(w, text[1..], Step(w, c, column, true), true);
    var piece := Piece(c, column, true);
    assert (piece + rest)[|piece|..] == rest;
    if c == '\t' {
      assert (piece + rest)[0] == ARROW;
    } else if c == ARROW {
      assert (piece + rest)[0] == '<' && ESCAPED <= piece + rest;
    } else {
      CopiedEscapeWasThere(w, text, column);
    }
  }

  /** What is read looks exactly like the text that was shown. */
  lemma {:induction false} ReadLooksTheSame(w: Widths, text: string, column: nat)
    requires WidthsSound(w)
    ensures Tabs(w, Undo(w, Tabs(w, text, column, true), column), column, true) == Tabs(w, text, column, true)
    decreases |text|
  {
    if text == "" {
    } else if ESCAPED <= text {
      var next := column + |ESCAPED|;
      var rest := Undo(w, Tabs(w, text[|ESCAPED|..], next, true), next);
      EscapeIsReadAsArrow(w, text, column);
      ReadLooksTheSame(w, text[|ESCAPED|..], next);
      assert ([ARROW] + rest)[1..] == rest;
    } else {
      var next := Step(w, text[0], column, true);
      var rest := Undo(w, Tabs(w, text[1..], next, true), next);
      FirstIsRead(w, text, column);
      ReadLooksTheSame(w, text[1..], next);
      assert ([text[0]] + rest)[1..] == rest;
    }
  }

  /**
   * Among the texts that look alike exactly one holds no escape, and reading finds it; so a text with the
   * escape always has another one of the same look.
   */
  lemma {:induction false} OneTextPerLook(w: Widths, text: string, other: string)
    requires WidthsSound(w)
    ensures var read := Undo(w, Tabs(w, text, 0, true), 0);
            && NoEscape(read) && Tabs(w, read, 0, true) == Tabs(w, text, 0, true)
            && (NoEscape(other) && Tabs(w, other, 0, true) == Tabs(w, text, 0, true) ==> other == read)
            && (!NoEscape(text) ==> read != text)
  {
    ReadHasNoEscape(w, Tabs(w, text, 0, true), 0);
    ReadLooksTheSame(w, text, 0);
    ShownIsRead(w, other, 0);
  }
}
