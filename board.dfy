/** Board rendering (display/board.go): the server's ASCII board is printed
    line by line, each character in a colour chosen by what it depicts. */
module BoardView {
  import opened Text
  import opened Display

  /** `strings.Split(s, string(sep))`: the pieces between separators, in
      order; there is always at least one piece. */
  function Split(s: string, sep: char): (r: seq<string>)
    ensures |r| >= 1
    ensures forall i :: 0 <= i < |r| ==> sep !in r[i]
    decreases |s|
  {
    if s == [] then [""]
    else
      var rest := Split(s[1..], sep);
      if s[0] == sep then [""] + rest
      else [[s[0]] + rest[0]] + rest[1..]
  }

  /** Joining the pieces with the separator gives back the text. */
  lemma {:induction false} SplitJoin(s: string, sep: char)
    ensures Join(Split(s, sep), [sep]) == s
    decreases |s|
  {
    if s != [] {
      var rest := Split(s[1..], sep);
      SplitJoin(s[1..], sep);
      if s[0] == sep {
        assert ([""] + rest)[1..] == rest;
      } else if |rest| == 1 {
        assert Join([[s[0]] + rest[0]] + rest[1..], [sep]) == [s[0]] + rest[0];
      } else {
        var parts := [[s[0]] + rest[0]] + rest[1..];
        assert parts[1..] == rest[1..];
        assert Join(rest, [sep]) == rest[0] + [sep] + Join(rest[1..], [sep]);
        assert s == [s[0]] + s[1..];
      }
    }
  }

  /** The colour of one board character, by the first case of the
      source's switch that applies. */
  function CharColor(c: char, rankLine: bool): string {
    if 'a' <= c <= 'h' && rankLine then Cyan
    else if 'A' <= c <= 'Z' then Blue
    else if 'a' <= c <= 'z' && !rankLine then Red
    else if c == '.' then White
    else if '1' <= c <= '8' then Cyan
    else if c == ' ' then Reset
    else Reset
  }

  /** The classes of board characters: file letters on the two rank lines
      (the first and the tenth) and rank digits in cyan, white pieces
      (capitals) in blue, black pieces (small letters off the rank lines) in
      red, empty squares in white; anything else, including the letters
      after 'h' on a rank line, in the reset colour. */
  lemma CharColorClasses(c: char, rankLine: bool)
    ensures 'A' <= c <= 'Z' ==> CharColor(c, rankLine) == Blue
    ensures 'a' <= c <= 'h' && rankLine ==> CharColor(c, rankLine) == Cyan
    ensures 'a' <= c <= 'z' && !rankLine ==> CharColor(c, rankLine) == Red
    ensures c == '.' ==> CharColor(c, rankLine) == White
    ensures '1' <= c <= '8' ==> CharColor(c, rankLine) == Cyan
    ensures CharColor(c, rankLine) == Reset <==> !('A' <= c <= 'Z' || ('a' <= c <= 'h' && rankLine) || ('a' <= c <= 'z' && !rankLine) || c == '.' || '1' <= c <= '8')
  {
  }

  /** The skip test of `RenderBoard`: nothing is left after trimming. */
  predicate BlankLine(line: string)
    ensures BlankLine(line) <==> Blank(line)
  {
    TrimSpaceBlank(line);
    TrimSpace(line) == ""
  }

  /** What `RenderBoard` prints, piece by piece: a character in a colour
      (`Print(color, "%c", char)` is `C(color, [char])`), or a line end. */
  datatype Printed = Glyph(color: string, ch: char) | LineEnd

  /** The text a printed piece stands for. */
  function Shown(p: Printed): string {
    match p
    case Glyph(color, ch) => C(color, [ch])
    case LineEnd => "\n"
  }

  /** The first `j` characters of a line, each in its colour. */
  function Glyphs(line: string, j: nat, rankLine: bool): seq<Printed>
    requires j <= |line|
  {
    if j == 0 then [] else Glyphs(line, j - 1, rankLine) + [Glyph(CharColor(line[j - 1], rankLine), line[j - 1])]
  }

  /** Line `i` of the board as printed: nothing for a blank line, otherwise
      its characters and a line end. */
  function RenderRow(lines: seq<string>, i: nat): seq<Printed>
    requires i < |lines|
  {
    if Blank(lines[i]) then []
    else Glyphs(lines[i], |lines[i]|, i == 0 || i == 9) + [LineEnd]
  }

  /** The first `k` lines as printed. */
  function RenderRows(lines: seq<string>, k: nat): seq<Printed>
    requires k <= |lines|
  {
    if k == 0 then [] else RenderRows(lines, k - 1) + RenderRow(lines, k - 1)
  }

  /** Everything `RenderBoard` prints for a board. */
  function Rendered(board: string): seq<Printed> {
    var lines := Split(board, '\n');
    RenderRows(lines, |lines|)
  }

  /** `RenderBoard`, with the printed pieces collected in `out`. */
  method RenderBoard(board: string) returns (out: seq<Printed>)
    ensures out == Rendered(board)
  {
    var lines := Split(board, '\n');
    out := PrintLines(lines);
  }

  /** The outer loop of `RenderBoard`: every line, in order, the blank
      ones skipped. */
  method PrintLines(lines: seq<string>) returns (out: seq<Printed>)
    ensures out == RenderRows(lines, |lines|)
  {
    out := [];
    for i := 0 to |lines|
      invariant out == RenderRows(lines, i)
    {
      RowsNext(lines, i);
      out := PrintRow(out, lines, i);
    }
  }

  /** One pass of the outer loop: a blank line prints nothing; any other
      line prints its characters and a line end. */
  method PrintRow(before: seq<Printed>, lines: seq<string>, i: nat) returns (out: seq<Printed>)
    requires i < |lines|
    ensures out == before + RenderRow(lines, i)
  {
    var line := lines[i];
    if BlankLine(line) {
      out := before;
      assert RenderRow(lines, i) == [];
    } else {
      var rankLine := i == 0 || i == 9;
      out := PrintLine(before, line, rankLine);
      out := out + [LineEnd];
      assert RenderRow(lines, i) == Glyphs(line, |line|, rankLine) + [LineEnd];
    }
  }

  /** The inner loop of `RenderBoard`: every character of one line, in order. */
  method PrintLine(before: seq<Printed>, line: string, rankLine: bool) returns (out: seq<Printed>)
    ensures out == before + Glyphs(line, |line|, rankLine)
  {
    out := before;
    for j := 0 to |line|
      invariant out == before + Glyphs(line, j, rankLine)
    {
      GlyphsNext(line, j, rankLine);
      out := out + [Glyph(CharColor(line[j], rankLine), line[j])];
    }
  }

  lemma RowsNext(lines: seq<string>, i: nat)
    requires i < |lines|
    ensures RenderRows(lines, i + 1) == RenderRows(lines, i) + RenderRow(lines, i)
  {
  }

  lemma GlyphsNext(line: string, j: nat, rankLine: bool)
    requires j < |line|
    ensures Glyphs(line, j + 1, rankLine) == Glyphs(line, j, rankLine) + [Glyph(CharColor(line[j], rankLine), line[j])]
    ensures forall before: seq<Printed> :: before + Glyphs(line, j + 1, rankLine) == (before + Glyphs(line, j, rankLine)) + [Glyph(CharColor(line[j], rankLine), line[j])]
  {
  }

  /** A printed row holds the line's characters in order, each in the
      colour its class calls for, and nothing else. */
  lemma {:induction false} GlyphsOfLine(line: string, j: nat, rankLine: bool)
    requires j <= |line|
    ensures |Glyphs(line, j, rankLine)| == j
    ensures forall k :: 0 <= k < j ==> Glyphs(line, j, rankLine)[k] == Glyph(CharColor(line[k], rankLine), line[k])
  {
    if j > 0 {
      var i := j - 1;
      GlyphsOfLine(line, i, rankLine);
    }
  }

  /** A board of blank lines prints nothing. */
  lemma {:induction false} BlankRowsSilent(lines: seq<string>, k: nat)
    requires k <= |lines|
    requires forall i :: 0 <= i < k ==> Blank(lines[i])
    ensures RenderRows(lines, k) == []
  {
    if k > 0 {
      var i := k - 1;
      BlankRowsSilent(lines, i);
    }
  }

  /** "White" in blue for white to move; any other turn is "Black" in red. */
  function ColorForTurn(turn: string): (r: string)
    ensures turn == "w" ==> r == C(Blue, "White")
    ensures turn != "w" ==> r == C(Red, "Black")
  {
    if turn == "w" then Blue + "White" + Reset else Red + "Black" + Reset
  }
}
