/** Cleaning a model's summary into a note that can always be stored. */
module Notes {
  datatype Option<+T> = None | Some(value: T)

  const SUMMARY_MAX: nat := 4096

  /** Bytes of a character in UTF-8. */
  function Width(c: char): nat {
    if c as nat < 0x80 then 1 else if c as nat < 0x800 then 2 else if c as nat < 0x10000 then 3 else 4
  }

  function Bytes(text: string): nat { if |text| == 0 then 0 else Width(text[0]) + Bytes(text[1..]) }

  predicate Control(c: char) { c as nat < 0x20 || 0x7f <= c as nat <= 0x9f }

  predicate Space(c: char) {
    var n := c as nat;
    9 <= n <= 13 || n == 0x20 || n == 0x85 || n == 0xa0 || n == 0x1680 || 0x2000 <= n <= 0x200a
    || n == 0x2028 || n == 0x2029 || n == 0x202f || n == 0x205f || n == 0x3000
  }

  // --------------------------------------------------------------------- cutting

  function Decimal(n: nat): string {
    var digit := ('0' as nat + n % 10) as char;
    if n < 10 then [digit] else Decimal(n / 10) + [digit]
  }

  lemma {:induction false} DecimalIsDigits(n: nat)
    ensures |Decimal(n)| > 0 && forall i | 0 <= i < |Decimal(n)| :: '0' <= Decimal(n)[i] <= '9'
  {
    if n >= 10 { DecimalIsDigits(n / 10); }
  }

  lemma {:induction false} LongerIsLarger(m: nat, n: nat)
    requires m <= n
    ensures |Decimal(m)| <= |Decimal(n)|
    decreases n
  {
    DecimalIsDigits(n);
    if m >= 10 { LongerIsLarger(m / 10, n / 10); }
  }

  function Marker(omitted: nat): string { " [... " + Decimal(omitted) + " bytes omitted]" }

  /** The longest prefix of at most so many bytes: a cut that walks back to a character boundary. */
  function Fitting(text: string, limit: nat): (n: nat)
    ensures n <= |text|
  {
    if |text| == 0 || Width(text[0]) > limit then 0 else 1 + Fitting(text[1..], limit - Width(text[0]))
  }

  lemma {:induction false} FittingIsLongest(text: string, limit: nat)
    ensures var n := Fitting(text, limit);
            Bytes(text[..n]) <= limit && (n < |text| ==> Bytes(text[..n]) + Width(text[n]) > limit)
  {
    if |text| > 0 && Width(text[0]) <= limit {
      FittingIsLongest(text[1..], limit - Width(text[0]));
      var n := Fitting(text, limit);
      assert text[..n][1..] == text[1..][..n - 1];
    }
  }

  function CutText(text: string, limit: nat): string {
    if Bytes(text) <= limit then text
    else
      var reserve := Bytes(Marker(Bytes(text)));
      if limit > reserve then
        var end := Fitting(text, limit - reserve);
        PrefixBytes(text, end);
        text[..end] + Marker(Bytes(text) - Bytes(text[..end]))
      else text[..Fitting(text, limit)]
  }

  lemma {:induction false} BytesSum(a: string, b: string)
    ensures Bytes(a + b) == Bytes(a) + Bytes(b)
  {
    if |a| > 0 {
      assert (a + b)[1..] == a[1..] + b;
      BytesSum(a[1..], b);
    } else {
      assert a + b == b;
    }
  }

  predicate Ascii(text: string) { forall i | 0 <= i < |text| :: 0x20 <= text[i] as nat < 0x7f }

  lemma {:induction false} AsciiBytes(text: string)
    requires Ascii(text)
    ensures Bytes(text) == |text|
  {
    if |text| > 0 { AsciiBytes(text[1..]); }
  }

  lemma {:induction false} MarkerIsAscii(n: nat)
    ensures Ascii(Marker(n)) && Bytes(Marker(n)) == 21 + |Decimal(n)| && |Marker(n)| > 0
  {
    DecimalIsDigits(n);
    AsciiBytes(Marker(n));
  }

  lemma {:induction false} PrefixBytes(text: string, n: nat)
    requires n <= |text|
    ensures Bytes(text[..n]) <= Bytes(text)
  {
    BytesSum(text[..n], text[n..]);
    assert text[..n] + text[n..] == text;
  }

  /**
   * The cut text never passes its limit, keeps a prefix, wastes less than one character of the room it has,
   * and says exactly how many bytes are gone whenever the marker fits.
   */
  lemma {:induction false} CutTextFits(text: string, limit: nat)
    ensures Bytes(CutText(text, limit)) <= limit
    ensures Bytes(text) <= limit ==> CutText(text, limit) == text
    ensures Bytes(text) > limit ==>
              var reserve := if limit > 21 + |Decimal(Bytes(text))| then 21 + |Decimal(Bytes(text))| else 0;
              exists end | 0 <= end < |text| ::
                && Bytes(text[..end]) <= limit - reserve < Bytes(text[..end]) + Width(text[end])
                && Bytes(text[..end]) <= Bytes(text)
                && CutText(text, limit) == text[..end] + (if reserve > 0 then Marker(Bytes(text) - Bytes(text[..end])) else "")
  {
    MarkerIsAscii(Bytes(text));
    if Bytes(text) > limit {
      var reserve := Bytes(Marker(Bytes(text)));
      var end := Fitting(text, if limit > reserve then limit - reserve else limit);
      assert text[..|text|] == text;
      FittingIsLongest(text, if limit > reserve then limit - reserve else limit);
      PrefixBytes(text, end);
      var omitted := Bytes(text) - Bytes(text[..end]);
      MarkerIsAscii(omitted);
      LongerIsLarger(omitted, Bytes(text));
      BytesSum(text[..end], Marker(omitted));
      assert end < |text|;
      assert text[..end] + "" == text[..end];
    }
  }

  // --------------------------------------------------------------------- cleaning

  function Filtered(text: string): string {
    if |text| == 0 then ""
    else (if !Control(text[0]) || text[0] == '\n' then [text[0]] else "") + Filtered(text[1..])
  }

  /** Line breaks are the only controls. */
  predicate Clean(text: string) { forall i | 0 <= i < |text| :: !Control(text[i]) || text[i] == '\n' }

  lemma {:induction false} FilteredIsClean(text: string)
    ensures Clean(Filtered(text))
  {
    if |text| > 0 { FilteredIsClean(text[1..]); }
  }

  function TrimStart(text: string): string { if |text| > 0 && Space(text[0]) then TrimStart(text[1..]) else text }

  function TrimEnd(text: string): string {
    if |text| > 0 && Space(text[|text| - 1]) then TrimEnd(text[..|text| - 1]) else text
  }

  lemma {:induction false} TrimStartStarts(text: string)
    ensures var r := TrimStart(text);
            (|r| > 0 ==> !Space(r[0])) && |r| <= |text| && r == text[|text| - |r|..]
  {
    if |text| > 0 && Space(text[0]) { TrimStartStarts(text[1..]); }
  }

  lemma {:induction false} TrimEndIsPrefix(text: string)
    ensures TrimEnd(text) <= text
    ensures |text| > 0 && !Space(text[0]) ==> |TrimEnd(text)| > 0
  {
    if |text| > 1 && Space(text[|text| - 1]) { TrimEndIsPrefix(text[..|text| - 1]); }
  }

  function Trim(text: string): string { TrimEnd(TrimStart(text)) }

  function CleanSummary(text: string): Option<string> {
    var trimmed := Trim(Filtered(text));
    if trimmed == "" then None else Some(CutText(trimmed, SUMMARY_MAX))
  }

  /** What a stored note must be. */
  predicate Storable(summary: string) {
    && Trim(summary) != ""
    && Bytes(summary) <= SUMMARY_MAX
    && Clean(summary)
  }

  predicate Blank(text: string) { forall i | 0 <= i < |text| :: Space(text[i]) }

  lemma {:induction false} TrimStartKeeps(text: string)
    requires !Blank(text)
    ensures !Blank(TrimStart(text))
  {
    if Space(text[0]) {
      var i :| 0 <= i < |text| && !Space(text[i]);
      assert text[1..][i - 1] == text[i];
      TrimStartKeeps(text[1..]);
    }
  }

  lemma {:induction false} NotBlankTrims(text: string)
    requires !Blank(text)
    ensures Trim(text) != ""
  {
    TrimStartKeeps(text);
    TrimStartStarts(text);
    TrimEndIsPrefix(TrimStart(text));
  }

  lemma {:induction false} MarkerIsVisible(n: nat, before: string)
    ensures !Blank(before + Marker(n))
  {
    var r := before + Marker(n);
    assert r[|before| + 1] == Marker(n)[1] == '[';
  }

  lemma {:induction false} FirstIsVisible(text: string, end: nat)
    requires 0 < end <= |text| && !Space(text[0])
    ensures !Blank(text[..end])
  {
    assert text[..end][0] == text[0];
  }

  /** A cut of a text that starts visibly is still visible: its first character, or the marker's bracket. */
  lemma {:induction false} CutIsVisible(text: string, limit: nat)
    requires |text| > 0 && !Space(text[0]) && limit >= 4
    ensures !Blank(CutText(text, limit))
  {
    if Bytes(text) <= limit {
      assert text[..|text|] == text;
      FirstIsVisible(text, |text|);
    } else {
      var reserve := Bytes(Marker(Bytes(text)));
      if limit > reserve {
        var end := Fitting(text, limit - reserve);
        PrefixBytes(text, end);
        MarkerIsVisible(Bytes(text) - Bytes(text[..end]), text[..end]);
      } else {
        FirstIsVisible(text, Fitting(text, limit));
      }
    }
  }

  lemma {:induction false} CleanJoins(a: string, b: string)
    requires Clean(a) && (Clean(b) || Ascii(b))
    ensures Clean(a + b)
  {
  }

  lemma {:induction false} CleanPrefix(text: string, end: nat)
    requires Clean(text) && end <= |text|
    ensures Clean(text[..end])
  {
  }

  lemma {:induction false} CutStaysClean(text: string, limit: nat)
    requires Clean(text)
    ensures Clean(CutText(text, limit))
  {
    var reserve := Bytes(Marker(Bytes(text)));
    if Bytes(text) > limit && limit > reserve {
      var end := Fitting(text, limit - reserve);
      PrefixBytes(text, end);
      MarkerIsAscii(Bytes(text) - Bytes(text[..end]));
      CleanPrefix(text, end);
      CleanJoins(text[..end], Marker(Bytes(text) - Bytes(text[..end])));
    } else if Bytes(text) > limit {
      CleanPrefix(text, Fitting(text, limit));
    }
  }

  /** Whatever a model wrote, the cleaned note is storable; nothing is left only of text without a visible character. */
  lemma {:induction false} CleanSummaryIsStorable(text: string)
    ensures CleanSummary(text).Some? ==> Storable(CleanSummary(text).value)
    ensures CleanSummary(text).None? <==> Blank(Filtered(text))
  {
    var filtered := Filtered(text);
    if Blank(filtered) {
      BlankTrims(filtered);
    } else {
      NotBlankTrims(filtered);
      var trimmed := Trim(filtered);
      FilteredIsClean(text);
      TrimStartStarts(filtered);
      TrimEndIsPrefix(TrimStart(filtered));
      assert trimmed[0] == TrimStart(filtered)[0];
      CutIsVisible(trimmed, SUMMARY_MAX);
      NotBlankTrims(CutText(trimmed, SUMMARY_MAX));
      CutTextFits(trimmed, SUMMARY_MAX);
      CutStaysClean(trimmed, SUMMARY_MAX);
    }
  }

  lemma {:induction false} BlankTrims(text: string)
    requires Blank(text)
    ensures Trim(text) == ""
  {
    if |text| > 0 { BlankTrims(text[1..]); }
  }

  /** Filtering is told character by character: it takes controls out, but for line breaks, and leaves the rest. */
  lemma {:induction false} FilteredJoins(a: string, b: string)
    ensures Filtered(a + b) == Filtered(a) + Filtered(b)
  {
    if |a| == 0 {
      assert a + b == b;
    } else {
      var one := if !Control(a[0]) || a[0] == '\n' then [a[0]] else "";
      assert (a + b)[1..] == a[1..] + b;
      FilteredJoins(a[1..], b);
      assert Filtered(a) == one + Filtered(a[1..]) && Filtered(a + b) == one + Filtered(a[1..] + b);
      assert one + (Filtered(a[1..]) + Filtered(b)) == (one + Filtered(a[1..])) + Filtered(b);
    }
  }

  lemma {:induction false} FilteredOne(c: char)
    ensures Filtered([c]) == if c != '\n' && Control(c) then "" else [c]
  {
    assert [c][1..] == "";
  }

  lemma {:induction false} TrimEndDropsBlank(text: string)
    ensures TrimEnd(text) <= text && Blank(text[|TrimEnd(text)|..])
    ensures |TrimEnd(text)| > 0 ==> !Space(TrimEnd(text)[|TrimEnd(text)| - 1])
  {
    if |text| > 0 && Space(text[|text| - 1]) {
      TrimEndDropsBlank(text[..|text| - 1]);
      var r := TrimEnd(text);
      forall i | 0 <= i < |text[|r|..]| ensures Space(text[|r|..][i]) {
        if i < |text| - 1 - |r| { assert text[|r|..][i] == text[..|text| - 1][|r|..][i]; }
      }
    }
  }

  lemma {:induction false} TrimStartDropsBlank(text: string)
    ensures |TrimStart(text)| <= |text| && Blank(text[..|text| - |TrimStart(text)|])
  {
    if |text| > 0 && Space(text[0]) {
      TrimStartDropsBlank(text[1..]);
      var n := |text| - |TrimStart(text)|;
      forall i | 0 <= i < n ensures Space(text[i]) { if i > 0 { assert text[1..][..n - 1][i - 1] == text[i]; } }
    }
  }

  /** `kept` is the text without the blanks around it. */
  predicate Stripped(text: string, before: string, kept: string, after: string) {
    && text == before + kept + after && Blank(before) && Blank(after)
    && |kept| > 0 && !Space(kept[0]) && !Space(kept[|kept| - 1])
  }

  lemma {:induction false} TrimStrips(text: string)
    requires Trim(text) != ""
    ensures exists before, after :: Stripped(text, before, Trim(text), after)
  {
    var started := TrimStart(text);
    var kept := TrimEnd(started);
    TrimStartStarts(text);
    TrimStartDropsBlank(text);
    TrimEndDropsBlank(started);
    var before, after := text[..|text| - |started|], started[|kept|..];
    assert text == before + started && started == kept + after;
    assert Stripped(text, before, kept, after);
  }

  /**
   * The note is what the model wrote without control characters and without the blanks around it, cut to 4 KiB:
   * it begins and ends visibly, and nothing visible before or after it is lost.
   */
  lemma {:induction false} CleanSummaryKeepsTheText(text: string)
    requires CleanSummary(text).Some?
    ensures exists before, kept, after ::
              Stripped(Filtered(text), before, kept, after) && CleanSummary(text) == Some(CutText(kept, SUMMARY_MAX))
  {
    TrimStrips(Filtered(text));
  }
}
