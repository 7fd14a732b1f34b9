/** The Go `strings` and `strconv` functions the client relies on, over
    `string = seq<char>`. Letter-case mapping is ASCII only. */
module Text {

  /** Go's `unicode.IsSpace`: the Latin-1 spaces and the Unicode White_Space set. */
  predicate IsSpace(c: char) {
    || c == '\t' || c == '\n' || c == '\U{0B}' || c == '\U{0C}' || c == '\r' || c == ' '
    || c == '\U{85}' || c == '\U{A0}' || c == '\U{1680}'
    || ('\U{2000}' <= c <= '\U{200A}')
    || c == '\U{2028}' || c == '\U{2029}' || c == '\U{202F}' || c == '\U{205F}' || c == '\U{3000}'
  }

  predicate NoSpace(s: string) {
    forall i :: 0 <= i < |s| ==> !IsSpace(s[i])
  }

  predicate HasPrefix(s: string, prefix: string) {
    |prefix| <= |s| && s[..|prefix|] == prefix
  }

  predicate HasSuffix(s: string, suffix: string) {
    |suffix| <= |s| && s[|s| - |suffix|..] == suffix
  }

  /** `strings.TrimSuffix`: drop one copy of `suffix` when `s` ends with it. */
  function TrimSuffix(s: string, suffix: string): (r: string)
    ensures HasSuffix(s, suffix) ==> r + suffix == s
    ensures !HasSuffix(s, suffix) ==> r == s
  {
    if HasSuffix(s, suffix) then s[..|s| - |suffix|] else s
  }

  /** Leading white space removed. */
  function TrimLeft(s: string): (r: string)
    ensures |r| <= |s|
  {
    if s != [] && IsSpace(s[0]) then TrimLeft(s[1..]) else s
  }

  /** What `TrimLeft` keeps is a suffix that does not start with white
      space, and what it drops is all white space. */
  lemma {:induction false} TrimLeftShape(s: string)
    ensures var r := TrimLeft(s);
      && r == s[|s| - |r|..]
      && (r == [] || !IsSpace(r[0]))
      && forall i :: 0 <= i < |s| - |r| ==> IsSpace(s[i])
    decreases |s|
  {
    if s != [] && IsSpace(s[0]) {
      TrimLeftShape(s[1..]);
    }
  }

  /** Trailing white space removed. */
  function TrimRight(s: string): (r: string)
    ensures |r| <= |s| && r == s[..|r|]
    ensures r == [] || !IsSpace(r[|r| - 1])
    ensures forall i :: |r| <= i < |s| ==> IsSpace(s[i])
  {
    if s != [] && IsSpace(s[|s| - 1]) then TrimRight(s[..|s| - 1]) else s
  }

  /** `strings.TrimSpace`. */
  function TrimSpace(s: string): (r: string)
    ensures r == [] || (!IsSpace(r[0]) && !IsSpace(r[|r| - 1]))
  {
    TrimLeftShape(s);
    TrimRight(TrimLeft(s))
  }

  /** `strings.TrimRight(s, cut)` for a one-character cut set. */
  function TrimRightChar(s: string, cut: char): (r: string)
    ensures |r| <= |s| && r == s[..|r|]
    ensures r == [] || r[|r| - 1] != cut
    ensures forall i :: |r| <= i < |s| ==> s[i] == cut
  {
    if s != [] && s[|s| - 1] == cut then TrimRightChar(s[..|s| - 1], cut) else s
  }

  /** The longest prefix of `s` with no white space. */
  function Word(s: string): (w: string)
    ensures |w| <= |s| && w == s[..|w|] && NoSpace(w)
    ensures |w| < |s| ==> IsSpace(s[|w|])
  {
    if s == [] || IsSpace(s[0]) then [] else [s[0]] + Word(s[1..])
  }

  /** `strings.Fields`: the maximal runs of non-space characters, in order. */
  function Fields(s: string): (r: seq<string>)
    ensures forall i :: 0 <= i < |r| ==> r[i] != [] && NoSpace(r[i])
    decreases |s|
  {
    var t := TrimLeft(s);
    if t == [] then []
    else
      TrimLeftShape(s);
      var w := Word(t);
      [w] + Fields(t[|w|..])
  }

  /** `strings.Join`. */
  function Join(parts: seq<string>, sep: string): (r: string)
  {
    if |parts| == 0 then ""
    else if |parts| == 1 then parts[0]
    else parts[0] + sep + Join(parts[1..], sep)
  }

  /** Concatenation of all parts: `strings.Join(parts, "")`. */
  function Concat(parts: seq<string>): (r: string)
    ensures |parts| == 0 ==> r == ""
  {
    if |parts| == 0 then "" else Concat(parts[..|parts| - 1]) + parts[|parts| - 1]
  }

  function UpperChar(c: char): char {
    if 'a' <= c <= 'z' then (c as int - 32) as char else c
  }

  function LowerChar(c: char): char {
    if 'A' <= c <= 'Z' then (c as int + 32) as char else c
  }

  /** `strings.ToUpper`, ASCII letters only. */
  function ToUpper(s: string): (r: string)
    ensures |r| == |s|
    ensures forall i :: 0 <= i < |s| ==> r[i] == UpperChar(s[i])
  {
    seq(|s|, i requires 0 <= i < |s| => UpperChar(s[i]))
  }

  /** `strings.ToLower`, ASCII letters only. */
  function ToLower(s: string): (r: string)
    ensures |r| == |s|
    ensures forall i :: 0 <= i < |s| ==> r[i] == LowerChar(s[i])
  {
    seq(|s|, i requires 0 <= i < |s| => LowerChar(s[i]))
  }

  predicate IsDigit(c: char) { '0' <= c <= '9' }

  predicate AllDigits(s: string) {
    forall i :: 0 <= i < |s| ==> IsDigit(s[i])
  }

  function DigitChar(d: nat): char
    requires d < 10
  {
    ('0' as int + d) as char
  }

  /** Decimal digits of `n` (`strconv.Itoa` for n >= 0). */
  function NatToString(n: nat): (r: string)
    ensures r != [] && AllDigits(r)
  {
    if n < 10 then [DigitChar(n)] else NatToString(n / 10) + [DigitChar(n % 10)]
  }

  /** Value of a string of decimal digits. */
  function DigitsValue(s: string): nat
    requires AllDigits(s)
  {
    if s == [] then 0 else 10 * DigitsValue(s[..|s| - 1]) + (s[|s| - 1] as int - '0' as int)
  }

  /** `fmt.Sprintf("%d", n)` / `strconv.Itoa`. */
  function IntToString(n: int): (r: string)
    ensures r != []
  {
    if n < 0 then "-" + NatToString(-n) else NatToString(n)
  }

  const MaxInt64: int := 0x7FFF_FFFF_FFFF_FFFF
  const MinInt64: int := -0x8000_0000_0000_0000

  /** What `strconv.Atoi` returns: the value, and whether the error was nil. */
  datatype Parsed = Parsed(value: int, ok: bool)

  /** `strconv.Atoi` on a 64-bit `int`: an optional sign and at least one
      decimal digit; a syntax error gives 0, a value out of range gives the
      nearest bound, both with a non-nil error. */
  function Atoi(s: string): (p: Parsed)
  {
    var neg := s != [] && s[0] == '-';
    var body := if s != [] && (s[0] == '-' || s[0] == '+') then s[1..] else s;
    if body == [] || !AllDigits(body) then Parsed(0, false)
    else
      var v: int := if neg then -(DigitsValue(body) as int) else DigitsValue(body);
      if v > MaxInt64 then Parsed(MaxInt64, false)
      else if v < MinInt64 then Parsed(MinInt64, false)
      else Parsed(v, true)
  }

  // ---------------------------------------------------------------------
  // Lemmas

  lemma {:induction false} DigitsValueOfNatToString(n: nat)
    ensures DigitsValue(NatToString(n)) == n
  {
    if n >= 10 {
      DigitsValueOfNatToString(n / 10);
      var s := NatToString(n);
      assert s[..|s| - 1] == NatToString(n / 10);
    }
  }

  /** Decimal rendering is injective: distinct numbers print differently. */
  lemma NatToStringInjective(m: nat, n: nat)
    requires NatToString(m) == NatToString(n)
    ensures m == n
  {
    DigitsValueOfNatToString(m);
    DigitsValueOfNatToString(n);
  }

  /** `Atoi` reads back what `Itoa` wrote, for every 64-bit value. */
  lemma AtoiOfIntToString(n: int)
    requires MinInt64 <= n <= MaxInt64
    ensures Atoi(IntToString(n)) == Parsed(n, true)
  {
    var s := IntToString(n);
    if n < 0 {
      var digits := NatToString(-n);
      assert s == "-" + digits;
      assert s[0] == '-' && s[1..] == digits;
      DigitsValueOfNatToString(-n);
    } else {
      assert s == NatToString(n);
      assert IsDigit(s[0]);
      DigitsValueOfNatToString(n);
    }
  }

  lemma {:induction false} WordOfSpaced(w: string, rest: string)
    requires NoSpace(w)
    ensures Word(w + " " + rest) == w
    decreases |w|
  {
    if w != [] {
      assert (w + " " + rest)[1..] == w[1..] + " " + rest;
      WordOfSpaced(w[1..], rest);
    }
  }

  lemma {:induction false} WordOfWord(w: string)
    requires NoSpace(w)
    ensures Word(w) == w
    decreases |w|
  {
    if w != [] {
      WordOfWord(w[1..]);
    }
  }

  /** A command word followed by a blank and arguments splits into that word
      and the fields of the arguments. */
  lemma FieldsOfCommandLine(w: string, rest: string)
    requires w != [] && NoSpace(w)
    ensures Fields(w + " " + rest) == [w] + Fields(rest)
  {
    var s := w + " " + rest;
    assert TrimLeft(s) == s;
    WordOfSpaced(w, rest);
    var tail := s[|w|..];
    assert tail == " " + rest;
    assert TrimLeft(tail) == TrimLeft(rest);
    assert Fields(tail) == Fields(rest);
  }

  /** A lone command word is a single field. */
  lemma FieldsOfWord(w: string)
    requires w != [] && NoSpace(w)
    ensures Fields(w) == [w]
  {
    WordOfWord(w);
    assert w[|w|..] == [];
  }

  /** Trimming the cut character is idempotent. */
  lemma TrimRightCharIdempotent(s: string, cut: char)
    ensures TrimRightChar(TrimRightChar(s, cut), cut) == TrimRightChar(s, cut)
  {
  }

  /** Words without white space, joined by single spaces, split back into
      the same words. */
  lemma {:induction false} FieldsOfJoin(parts: seq<string>)
    ensures (forall i :: 0 <= i < |parts| ==> parts[i] != [] && NoSpace(parts[i])) ==> Fields(Join(parts, " ")) == parts
  {
    if !(forall i :: 0 <= i < |parts| ==> parts[i] != [] && NoSpace(parts[i])) {
    } else if |parts| == 1 {
      FieldsOfWord(parts[0]);
    } else if |parts| > 1 {
      FieldsOfJoin(parts[1..]);
      FieldsOfCommandLine(parts[0], Join(parts[1..], " "));
    }
  }

  /** A line has no fields exactly when it is empty or all white space. */
  lemma FieldsOfBlank(s: string)
    ensures Fields(s) == [] <==> forall i :: 0 <= i < |s| ==> IsSpace(s[i])
  {
    var t := TrimLeft(s);
    TrimLeftShape(s);
    if t != [] {
      assert !IsSpace(s[|s| - |t|]);
    }
  }

  /** Empty or all white space. */
  predicate Blank(s: string) {
    forall i :: 0 <= i < |s| ==> IsSpace(s[i])
  }

  /** `strings.TrimSpace` leaves nothing exactly of a blank text. */
  lemma TrimSpaceBlank(s: string)
    ensures TrimSpace(s) == "" <==> Blank(s)
  {
    var t := TrimLeft(s);
    TrimLeftShape(s);
    if t != [] {
      assert !IsSpace(s[|s| - |t|]);
      var u := TrimRight(t);
      assert 0 < |t| && !IsSpace(t[0]);
    }
  }

  // ---------------------------------------------------------------------
  // Fields, characterised by layout

  /** Words interleaved with the gaps around and between them:
      `gaps[0] + words[0] + gaps[1] + ... + words[n-1] + gaps[n]`. */
  function Weave(gaps: seq<string>, words: seq<string>): string
    requires |gaps| == |words| + 1
    decreases |words|
  {
    if words == [] then gaps[0] else gaps[0] + words[0] + Weave(gaps[1..], words[1..])
  }

  /** A layout of a line into words: every gap is white space, the gaps
      between two words are not empty, and every word is a non-empty run
      without white space. */
  predicate Layout(gaps: seq<string>, words: seq<string>) {
    && |gaps| == |words| + 1
    && (forall i :: 0 <= i < |gaps| ==> Blank(gaps[i]))
    && (forall i :: 0 < i < |words| ==> gaps[i] != [])
    && (forall i :: 0 <= i < |words| ==> words[i] != [] && NoSpace(words[i]))
  }

  /** The white space in front of each field, and the trailing white space. */
  function Gaps(s: string): (r: seq<string>)
    ensures |r| == |Fields(s)| + 1
    decreases |s|
  {
    var t := TrimLeft(s);
    if t == [] then [s]
    else
      TrimLeftShape(s);
      var w := Word(t);
      [s[..|s| - |t|]] + Gaps(t[|w|..])
  }

  lemma HeadTail(xs: seq<string>)
    requires xs != []
    ensures xs == [xs[0]] + xs[1..]
  {
  }

  lemma {:induction false} TrimLeftAfterBlank(g: string, x: string)
    requires Blank(g)
    ensures TrimLeft(g + x) == TrimLeft(x)
    decreases |g|
  {
    if g != [] {
      assert TrimLeft(g + x) == TrimLeft(g[1..] + x) by {
        var s := g + x;
        assert s[0] == g[0] && IsSpace(s[0]);
        assert s[1..] == g[1..] + x;
      }
      assert Blank(g[1..]) by {
        forall i | 0 <= i < |g[1..]|
          ensures IsSpace(g[1..][i])
        {
          assert g[1..][i] == g[i + 1];
        }
      }
      TrimLeftAfterBlank(g[1..], x);
    } else {
      assert g + x == x;
    }
  }

  lemma {:induction false} WordBeforeBreak(w: string, rest: string)
    requires NoSpace(w) && (rest == [] || IsSpace(rest[0]))
    ensures Word(w + rest) == w
    decreases |w|
  {
    if w != [] {
      assert (w + rest)[1..] == w[1..] + rest;
      WordBeforeBreak(w[1..], rest);
    } else {
      assert w + rest == rest;
    }
  }

  /** Whatever layout a line is built from, `Fields` returns its words:
      fields are the maximal runs of non-white-space characters, in order. */
  lemma {:induction false} FieldsOfLayout(gaps: seq<string>, words: seq<string>)
    requires Layout(gaps, words)
    ensures Fields(Weave(gaps, words)) == words
    decreases |words|
  {
    if words == [] {
      assert Weave(gaps, words) == gaps[0];
      FieldsOfBlank(gaps[0]);
    } else {
      var g, w := gaps[0], words[0];
      var rest := Weave(gaps[1..], words[1..]);
      assert Layout(gaps[1..], words[1..]) by {
        forall i | 0 < i < |words[1..]|
          ensures gaps[1..][i] != []
        {
          assert gaps[1..][i] == gaps[i + 1];
        }
      }
      assert rest == [] || IsSpace(rest[0]) by {
        if words[1..] == [] {
          assert rest == gaps[1] && Blank(gaps[1]);
        } else {
          assert rest == gaps[1] + (words[1..][0] + Weave(gaps[2..], words[2..])) by {
            assert gaps[1..][0] == gaps[1] && gaps[1..][1..] == gaps[2..] && words[1..][1..] == words[2..];
          }
          assert gaps[1] != [] && Blank(gaps[1]);
          assert rest[0] == gaps[1][0];
        }
      }
      var s := Weave(gaps, words);
      assert s == g + (w + rest);
      TrimLeftAfterBlank(g, w + rest);
      assert TrimLeft(w + rest) == w + rest by {
        assert (w + rest)[0] == w[0];
      }
      WordBeforeBreak(w, rest);
      assert (w + rest)[|w|..] == rest;
      assert Fields(s) == [w] + Fields(rest);
      FieldsOfLayout(gaps[1..], words[1..]);
      HeadTail(words);
    }
  }

  /** A word and the white space before it extend a layout at the front. */
  lemma LayoutCons(g: string, w: string, gs: seq<string>, ws: seq<string>)
    requires Blank(g) && w != [] && NoSpace(w) && Layout(gs, ws)
    requires ws != [] ==> gs[0] != []
    ensures Layout([g] + gs, [w] + ws)
    ensures Weave([g] + gs, [w] + ws) == g + w + Weave(gs, ws)
  {
    forall i | 0 < i < |[w] + ws|
      ensures ([g] + gs)[i] != []
    {
      assert ([g] + gs)[i] == gs[i - 1];
    }
    forall i | 0 <= i < |[g] + gs|
      ensures Blank(([g] + gs)[i])
    {
      if i > 0 { assert ([g] + gs)[i] == gs[i - 1]; }
    }
    forall i | 0 <= i < |[w] + ws|
      ensures ([w] + ws)[i] != [] && NoSpace(([w] + ws)[i])
    {
      if i > 0 { assert ([w] + ws)[i] == ws[i - 1]; }
    }
    assert ([g] + gs)[1..] == gs && ([w] + ws)[1..] == ws;
  }

  lemma SplitAt(s: string, k: nat)
    requires k <= |s|
    ensures s[..k] + s[k..] == s
  {
  }

  lemma AppendAssoc(a: string, b: string, c: string)
    ensures a + b + c == a + (b + c)
  {
  }

  /** A line that starts with white space has a non-empty first gap. */
  lemma GapsStartBlank(s: string)
    requires s != [] && IsSpace(s[0])
    ensures Gaps(s)[0] != []
  {
    var t := TrimLeft(s);
    TrimLeftShape(s);
    assert t != [] ==> !IsSpace(t[0]);
    assert |t| < |s|;
  }

  /** One step of `Fields` and `Gaps` on a line that is not blank: the
      leading white space, the first word, and the rest of the line. */
  lemma FieldsStep(s: string) returns (g: string, w: string, rest: string)
    requires TrimLeft(s) != []
    ensures Blank(g) && w != [] && NoSpace(w) && (rest == [] || IsSpace(rest[0]))
    ensures s == g + (w + rest) && |rest| < |s|
    ensures Fields(s) == [w] + Fields(rest) && Gaps(s) == [g] + Gaps(rest)
  {
    var t := TrimLeft(s);
    TrimLeftShape(s);
    g, w := s[..|s| - |t|], Word(t);
    rest := t[|w|..];
    SplitAt(s, |s| - |t|);
    SplitAt(t, |w|);
  }

  /** Every line has a layout, and its words are the line's fields. */
  lemma {:induction false} LayoutOfFields(s: string)
    ensures Layout(Gaps(s), Fields(s))
    ensures Weave(Gaps(s), Fields(s)) == s
    decreases |s|
  {
    if TrimLeft(s) == [] {
      TrimLeftShape(s);
      assert Gaps(s) == [s] && Fields(s) == [];
    } else {
      var g, w, rest := FieldsStep(s);
      LayoutOfFields(rest);
      var gs, fs := Gaps(rest), Fields(rest);
      if fs != [] {
        assert rest != [] by { FieldsOfBlank(rest); }
        GapsStartBlank(rest);
      }
      LayoutCons(g, w, gs, fs);
      AppendAssoc(g, w, rest);
    }
  }
}
