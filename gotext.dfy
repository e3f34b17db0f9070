/**
  The parts of Go's standard library that the lsof parser builds on, stated on
  strings as sequences of Unicode scalar values:
  - the character classes `\s` and `\d` of package regexp and unicode.IsSpace,
  - strings.Split(s, "\n"), strings.TrimSpace(s) == "", strings.HasPrefix(s, "p"),
  - regexp.MustCompile("\\s+").Split(s, -1),
  - regexp.MustCompile("\\d+").Find(b),
  - strconv.Atoi on the text such a match yields.
*/
module GoText {
  import opened Wrappers

  /** `\s` in Go's regexp syntax: the ASCII class [\t\n\f\r ] (vertical tab is not in it). */
  predicate IsRegexpSpace(c: char) {
    c == ' ' || c == '\t' || c == '\n' || c == '\U{000C}' || c == '\r'
  }

  /** `\d` in Go's regexp syntax: the ASCII digits. */
  predicate IsDigit(c: char) {
    '0' <= c <= '9'
  }

  /** unicode.IsSpace: the characters with the Unicode White_Space property. */
  predicate IsUnicodeSpace(c: char) {
    ('\t' <= c <= '\r') || c == ' ' || c == '\U{0085}' || c == '\U{00A0}' || c == '\U{1680}'
    || ('\U{2000}' <= c <= '\U{200A}') || c == '\U{2028}' || c == '\U{2029}'
    || c == '\U{202F}' || c == '\U{205F}' || c == '\U{3000}'
  }

  /** strings.TrimSpace(s) == "": every character of s is white space. */
  predicate IsBlank(s: string) {
    forall i | 0 <= i < |s| :: IsUnicodeSpace(s[i])
  }

  /** strings.HasPrefix(s, "p") */
  predicate StartsWithP(s: string) {
    |s| > 0 && s[0] == 'p'
  }

  predicate NoSpace(s: string) {
    forall i | 0 <= i < |s| :: !IsRegexpSpace(s[i])
  }

  predicate AllSpace(s: string) {
    forall i | 0 <= i < |s| :: IsRegexpSpace(s[i])
  }

  predicate AllDigits(s: string) {
    forall i | 0 <= i < |s| :: IsDigit(s[i])
  }

  predicate NoDigits(s: string) {
    forall i | 0 <= i < |s| :: !IsDigit(s[i])
  }

  // ---------------------------------------------------------------------------
  // strings.Split(s, "\n")

  /** The pieces of s between its newline characters: one more piece than there are newlines. */
  function SplitLines(s: string): (ls: seq<string>)
    ensures |ls| >= 1
    ensures forall k | 0 <= k < |ls| :: '\n' !in ls[k]
    decreases |s|
  {
    if s == [] then [""]
    else
      var rest := SplitLines(s[1..]);
      if s[0] == '\n' then [""] + rest else [[s[0]] + rest[0]] + rest[1..]
  }

  /** strings.Join(ls, "\n") */
  function JoinLines(ls: seq<string>): string
    requires |ls| >= 1
  {
    if |ls| == 1 then ls[0] else ls[0] + "\n" + JoinLines(ls[1..])
  }

  function CountNewlines(s: string): nat {
    if s == [] then 0 else (if s[0] == '\n' then 1 else 0) + CountNewlines(s[1..])
  }

  /** Joining the pieces back with newlines gives the original text. */
  lemma {:induction false} JoinSplitLines(s: string)
    ensures JoinLines(SplitLines(s)) == s
    decreases |s|
  {
    if s != [] {
      var rest := SplitLines(s[1..]);
      JoinSplitLines(s[1..]);
      if s[0] == '\n' {
        assert s == "\n" + s[1..];
      } else if |rest| == 1 {
        assert s == [s[0]] + s[1..];
      } else {
        assert rest == [rest[0]] + rest[1..];
        assert JoinLines(rest) == rest[0] + "\n" + JoinLines(rest[1..]);
        assert s == [s[0]] + s[1..];
      }
    }
  }

  /** Splitting yields exactly one piece more than the text has newlines. */
  lemma {:induction false} SplitLinesCount(s: string)
    ensures |SplitLines(s)| == CountNewlines(s) + 1
    decreases |s|
  {
    if s != [] {
      SplitLinesCount(s[1..]);
    }
  }

  /** There is more than one piece exactly when the text holds a newline. */
  lemma {:induction false} SplitLinesMany(s: string)
    ensures |SplitLines(s)| > 1 <==> '\n' in s
    decreases |s|
  {
    if s != [] {
      SplitLinesMany(s[1..]);
      assert '\n' in s <==> s[0] == '\n' || '\n' in s[1..];
    }
  }

  /** Splitting a concatenation at a newline splits the two halves independently. */
  lemma {:induction false} SplitLinesAppend(a: string, b: string)
    requires '\n' !in a
    ensures SplitLines(a + "\n" + b) == [a] + SplitLines(b)
    decreases |a|
  {
    if a == [] {
      assert a + "\n" + b == "\n" + b;
      assert ("\n" + b)[1..] == b;
    } else {
      assert (a + "\n" + b)[1..] == a[1..] + "\n" + b;
      assert (a + "\n" + b)[0] == a[0];
      SplitLinesAppend(a[1..], b);
      assert [a[0]] + a[1..] == a;
    }
  }

  /** A text without newlines is one piece. */
  lemma {:induction false} SplitLinesSingle(s: string)
    requires '\n' !in s
    ensures SplitLines(s) == [s]
    decreases |s|
  {
    if s != [] {
      SplitLinesSingle(s[1..]);
      assert [s[0]] + s[1..] == s;
    }
  }

  // ---------------------------------------------------------------------------
  // regexp.MustCompile("\\s+").Split(s, -1)

  /**
    The pieces of s between its maximal runs of `\s`. As with Go's Regexp.Split,
    a leading or trailing run gives an empty first or last piece, and the empty
    string gives one empty piece.
  */
  function Fields(s: string): (ts: seq<string>)
    ensures |ts| >= 1
    ensures forall k | 0 <= k < |ts| :: NoSpace(ts[k])
    ensures forall k | 0 < k < |ts| - 1 :: ts[k] != ""
    ensures s != [] && !IsRegexpSpace(s[0]) ==> ts[0] != ""
    ensures s != [] && IsRegexpSpace(s[0]) ==> ts[0] == "" && |ts| >= 2
    decreases |s|
  {
    if s == [] then [""]
    else
      var rest := Fields(s[1..]);
      if !IsRegexpSpace(s[0]) then [[s[0]] + rest[0]] + rest[1..]
      else if s[1..] != [] && IsRegexpSpace(s[1]) then rest
      else [""] + rest
  }

  /** The maximal runs of `\s` in s, in order: the separators Fields drops. */
  function Gaps(s: string): (gs: seq<string>)
    ensures |gs| + 1 == |Fields(s)|
    ensures forall k | 0 <= k < |gs| :: gs[k] != "" && AllSpace(gs[k])
    decreases |s|
  {
    if s == [] then []
    else
      var rest := Gaps(s[1..]);
      if !IsRegexpSpace(s[0]) then rest
      else if s[1..] != [] && IsRegexpSpace(s[1]) then [[s[0]] + rest[0]] + rest[1..]
      else [[s[0]]] + rest
  }

  /** t0 + g0 + t1 + g1 + ... + tn */
  function Interleave(ts: seq<string>, gs: seq<string>): string
    requires |ts| == |gs| + 1
    decreases |gs|
  {
    if gs == [] then ts[0] else ts[0] + gs[0] + Interleave(ts[1..], gs[1..])
  }

  /** Putting the separators back between the fields rebuilds the line: no character is lost. */
  lemma {:induction false} FieldsRebuild(s: string)
    ensures Interleave(Fields(s), Gaps(s)) == s
    decreases |s|
  {
    if s != [] {
      FieldsRebuild(s[1..]);
      assert s == [s[0]] + s[1..];
      if !IsRegexpSpace(s[0]) {
        RebuildWordChar(s);
      } else if s[1..] != [] && IsRegexpSpace(s[1]) {
        RebuildGapChar(s);
      } else {
        RebuildNewGap(s);
      }
    }
  }

  /** A character of a field goes in front of the first field. */
  lemma RebuildWordChar(s: string)
    requires s != [] && !IsRegexpSpace(s[0])
    requires Interleave(Fields(s[1..]), Gaps(s[1..])) == s[1..]
    ensures Interleave(Fields(s), Gaps(s)) == s
  {
    var ts, gs := Fields(s[1..]), Gaps(s[1..]);
    var fs := [[s[0]] + ts[0]] + ts[1..];
    assert Fields(s) == fs && Gaps(s) == gs;
    if gs == [] {
      calc {
        Interleave(fs, gs);
        [s[0]] + ts[0];
        [s[0]] + Interleave(ts, gs);
      }
    } else {
      assert fs[1..] == ts[1..];
      calc {
        Interleave(fs, gs);
        fs[0] + gs[0] + Interleave(ts[1..], gs[1..]);
        { ConcatFront([s[0]], ts[0], gs[0], Interleave(ts[1..], gs[1..])); }
        [s[0]] + (ts[0] + gs[0] + Interleave(ts[1..], gs[1..]));
        [s[0]] + Interleave(ts, gs);
      }
    }
    assert s == [s[0]] + s[1..];
  }

  lemma ConcatFront(c: string, a: string, b: string, r: string)
    ensures c + a + b + r == c + (a + b + r)
  {
  }

  lemma GapFront(c: string, g: string, r: string)
    ensures "" + (c + g) + r == c + ("" + g + r)
  {
  }

  /** A space followed by a space goes in front of the first separator. */
  lemma RebuildGapChar(s: string)
    requires s != [] && IsRegexpSpace(s[0]) && s[1..] != [] && IsRegexpSpace(s[1])
    requires Interleave(Fields(s[1..]), Gaps(s[1..])) == s[1..]
    ensures Interleave(Fields(s), Gaps(s)) == s
  {
    var ts, gs := Fields(s[1..]), Gaps(s[1..]);
    assert ts[0] == "" && |gs| >= 1;
    var hs := [[s[0]] + gs[0]] + gs[1..];
    assert Fields(s) == ts && Gaps(s) == hs;
    assert hs[1..] == gs[1..];
    calc {
      Interleave(ts, hs);
      ts[0] + hs[0] + Interleave(ts[1..], gs[1..]);
      { GapFront([s[0]], gs[0], Interleave(ts[1..], gs[1..])); }
      [s[0]] + (ts[0] + gs[0] + Interleave(ts[1..], gs[1..]));
      [s[0]] + Interleave(ts, gs);
    }
    assert s == [s[0]] + s[1..];
  }

  /** A space followed by a field character, or ending the line, opens a new separator. */
  lemma RebuildNewGap(s: string)
    requires s != [] && IsRegexpSpace(s[0]) && !(s[1..] != [] && IsRegexpSpace(s[1]))
    requires Interleave(Fields(s[1..]), Gaps(s[1..])) == s[1..]
    ensures Interleave(Fields(s), Gaps(s)) == s
  {
    var ts, gs := Fields(s[1..]), Gaps(s[1..]);
    assert s == [s[0]] + s[1..];
    assert ([""] + ts)[1..] == ts;
    assert ([[s[0]]] + gs)[1..] == gs;
  }

  /** The words joined with single spaces. */
  function JoinSpaced(ws: seq<string>): string
    requires |ws| >= 1
  {
    if |ws| == 1 then ws[0] else ws[0] + " " + JoinSpaced(ws[1..])
  }

  /** Words without white space joined with spaces hold no newline. */
  lemma {:induction false} JoinSpacedNoNewline(ws: seq<string>)
    requires |ws| >= 1 && forall k | 0 <= k < |ws| :: NoSpace(ws[k])
    ensures '\n' !in JoinSpaced(ws)
    decreases |ws|
  {
    if |ws| > 1 {
      JoinSpacedNoNewline(ws[1..]);
      assert '\n' !in ws[0];
    } else {
      assert '\n' !in ws[0];
    }
  }

  /** A word followed by one space: the word is the first field. */
  lemma {:induction false} FieldsWordSpace(w: string, r: string)
    requires NoSpace(w) && (r == [] || !IsRegexpSpace(r[0]))
    ensures Fields(w + " " + r) == [w] + Fields(r)
    decreases |w|
  {
    if w == [] {
      assert w + " " + r == " " + r;
      assert (" " + r)[1..] == r;
    } else {
      assert (w + " " + r)[1..] == w[1..] + " " + r;
      FieldsWordSpace(w[1..], r);
      assert [w[0]] + w[1..] == w;
    }
  }

  /** A word without white space is one field. */
  lemma {:induction false} FieldsWord(w: string)
    requires NoSpace(w)
    ensures Fields(w) == [w]
    decreases |w|
  {
    if w != [] {
      FieldsWord(w[1..]);
      assert [w[0]] + w[1..] == w;
    }
  }

  /**
    Splitting words joined with single spaces gives the words back, provided no
    word holds white space and none but the first and last is empty.
  */
  lemma {:induction false} FieldsJoinSpaced(ws: seq<string>)
    requires |ws| >= 1
    requires forall k | 0 <= k < |ws| :: NoSpace(ws[k])
    requires forall k | 0 < k < |ws| - 1 :: ws[k] != ""
    ensures Fields(JoinSpaced(ws)) == ws
    decreases |ws|
  {
    if |ws| == 1 {
      FieldsWord(ws[0]);
    } else {
      var rest := JoinSpaced(ws[1..]);
      FieldsJoinSpaced(ws[1..]);
      if |ws| > 2 {
        assert ws[1] != "" && ws[1][0] == JoinSpaced(ws[1..])[0];
      }
      FieldsWordSpace(ws[0], rest);
      assert ws == [ws[0]] + ws[1..];
    }
  }

  // ---------------------------------------------------------------------------
  // regexp.MustCompile("\\d+").Find(b), converted back to a string

  /** The longest prefix of s made of digits. */
  function LeadingDigits(s: string): (d: string)
    ensures |d| <= |s| && d == s[..|d|] && AllDigits(d)
    ensures |d| == |s| || !IsDigit(s[|d|])
    decreases |s|
  {
    if s != [] && IsDigit(s[0]) then [s[0]] + LeadingDigits(s[1..]) else ""
  }

  /**
    The leftmost-longest match of `\d+` in s; the empty string when s has no
    digit (Find returns nil, and string(nil) is "").
  */
  function FindDigits(s: string): (d: string)
    ensures AllDigits(d)
    decreases |s|
  {
    if s == [] then ""
    else if IsDigit(s[0]) then LeadingDigits(s)
    else FindDigits(s[1..])
  }

  /** d is the first maximal run of digits in s, and starts at index i. */
  predicate IsFirstDigitRun(s: string, i: nat, d: string) {
    d != "" && i + |d| <= |s| && s[i..i + |d|] == d && AllDigits(d)
    && NoDigits(s[..i]) && (i + |d| == |s| || !IsDigit(s[i + |d|]))
  }

  /** FindDigits returns "" exactly when s has no digit, and otherwise the first maximal digit run. */
  lemma {:induction false} FindDigitsFinds(s: string)
    ensures FindDigits(s) == "" <==> NoDigits(s)
    ensures FindDigits(s) != "" ==> exists i: nat :: IsFirstDigitRun(s, i, FindDigits(s))
    decreases |s|
  {
    if s == [] {
    } else if IsDigit(s[0]) {
      assert s[..0] == [];
      assert IsFirstDigitRun(s, 0, FindDigits(s));
    } else {
      var t := s[1..];
      FindDigitsFinds(t);
      assert FindDigits(s) == FindDigits(t);
      if FindDigits(t) != "" {
        var d := FindDigits(t);
        var i: nat :| IsFirstDigitRun(t, i, d);
        StepFirstDigitRun(s, i, d);
      } else {
        NoDigitsCons(s);
      }
    }
  }

  lemma StepFirstDigitRun(s: string, i: nat, d: string)
    requires s != [] && !IsDigit(s[0]) && IsFirstDigitRun(s[1..], i, d)
    ensures IsFirstDigitRun(s, i + 1, d)
  {
    assert s[i + 1..i + 1 + |d|] == s[1..][i..i + |d|];
    assert s[..i + 1] == [s[0]] + s[1..][..i];
  }

  lemma NoDigitsCons(s: string)
    requires s != [] && !IsDigit(s[0])
    ensures NoDigits(s) <==> NoDigits(s[1..])
  {
    assert forall k | 1 <= k < |s| :: s[k] == s[1..][k - 1];
  }

  /** The first maximal digit run is unique, so FindDigits is the only answer. */
  lemma {:induction false} FirstDigitRunIsFound(s: string, i: nat, d: string)
    requires IsFirstDigitRun(s, i, d)
    ensures FindDigits(s) == d
    decreases i
  {
    if i == 0 {
      assert IsDigit(s[0]);
      LeadingDigitsOfRun(s, d);
    } else {
      assert !IsDigit(s[..i][0]);
      assert s[1..][i - 1..i - 1 + |d|] == s[i..i + |d|];
      assert s[1..][..i - 1] == s[..i][1..];
      FirstDigitRunIsFound(s[1..], i - 1, d);
    }
  }

  lemma {:induction false} LeadingDigitsOfRun(s: string, d: string)
    requires |d| <= |s| && s[..|d|] == d && AllDigits(d) && (|d| == |s| || !IsDigit(s[|d|]))
    ensures LeadingDigits(s) == d
    decreases |d|
  {
    if d != [] {
      assert s[1..][..|d| - 1] == d[1..];
      LeadingDigitsOfRun(s[1..], d[1..]);
      assert d == [s[0]] + d[1..];
    }
  }

  // ---------------------------------------------------------------------------
  // strconv.Atoi on a run of digits

  /** The largest value of Go's int on the 64-bit platforms lsof runs on. */
  const MaxInt: nat := 0x7FFF_FFFF_FFFF_FFFF

  function DigitValue(c: char): nat
    requires IsDigit(c)
  {
    (c as int - '0' as int) as nat
  }

  /** The number a run of decimal digits denotes (leading zeros allowed). */
  function DecimalValue(d: string): nat
    requires AllDigits(d)
    decreases |d|
  {
    if d == [] then 0 else DecimalValue(d[..|d| - 1]) * 10 + DigitValue(d[|d| - 1])
  }

  /** The decimal notation of n, without leading zeros. */
  function Decimal(n: nat): (d: string)
    ensures AllDigits(d)
    decreases n
  {
    if n < 10 then [('0' as int + n) as char] else Decimal(n / 10) + [('0' as int + n % 10) as char]
  }

  /** Reading back the decimal notation of a number gives the number. */
  lemma {:induction false} DecimalRoundTrip(n: nat)
    ensures DecimalValue(Decimal(n)) == n
    decreases n
  {
    if n >= 10 {
      DecimalRoundTrip(n / 10);
      var d := Decimal(n);
      assert d[..|d| - 1] == Decimal(n / 10);
    }
  }

  /**
    strconv.Atoi applied to a string of digits: an error (None) for the empty
    string and for a value beyond the range of int, the value otherwise.
  */
  function Atoi(d: string): (r: Option<nat>)
    requires AllDigits(d)
    ensures r.Some? <==> d != "" && DecimalValue(d) <= MaxInt
    ensures r.Some? ==> r.value == DecimalValue(d)
  {
    if d == "" || DecimalValue(d) > MaxInt then None else Some(DecimalValue(d))
  }
}
