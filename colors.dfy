/** Terminal colours (display/colors.go): ANSI escape prefixes, colour
    wrapping, and a builder that collects coloured parts. */
module Display {
  import opened Text

  const Reset: string := "\U{1B}[0m"
  const Red: string := "\U{1B}[31m"
  const Green: string := "\U{1B}[32m"
  const Yellow: string := "\U{1B}[33m"
  const Blue: string := "\U{1B}[34m"
  const Magenta: string := "\U{1B}[35m"
  const Cyan: string := "\U{1B}[36m"
  const White: string := "\U{1B}[37m"

  /** `text` in `color`, followed by the reset sequence. */
  function C(color: string, text: string): string {
    color + text + Reset
  }

  /** The coloured text can be taken apart again: it opens with the colour,
      closes with the reset sequence, and holds exactly `text` between. */
  lemma ColoredParts(color: string, text: string)
    ensures HasPrefix(C(color, text), color)
    ensures HasSuffix(C(color, text), Reset)
    ensures |C(color, text)| == |color| + |text| + |Reset|
    ensures C(color, text)[|color|..|color| + |text|] == text
  {
    var r := C(color, text);
    assert r[..|color|] == color;
    assert r[|r| - |Reset|..] == Reset;
  }

  /** The coloured prompt: `text` in yellow, then a yellow " > ", then reset. */
  function Prompt(text: string): string {
    Yellow + text + Yellow + " > " + Reset
  }

  /** The prompt ends in the marker the user types after, whatever the text. */
  lemma PromptShape(text: string)
    ensures HasPrefix(Prompt(text), Yellow + text)
    ensures HasSuffix(Prompt(text), Yellow + " > " + Reset)
  {
    var p := Prompt(text);
    assert p == (Yellow + text) + (Yellow + " > " + Reset);
    assert p[..|Yellow + text|] == Yellow + text;
    assert p[|p| - |Yellow + " > " + Reset|..] == Yellow + " > " + Reset;
  }

  /** Concatenating one more part appends it. */
  lemma ConcatAppend(parts: seq<string>, p: string)
    ensures Concat(parts + [p]) == Concat(parts) + p
  {
    assert (parts + [p])[..|parts|] == parts;
  }

  /** Collects coloured parts; `String` concatenates them. */
  class Builder {
    var parts: seq<string>

    constructor ()
      ensures parts == []
      ensures String() == ""
    {
      parts := [];
    }

    /** Appends `text` in `color` and returns the builder, for chaining. */
    method Add(color: string, text: string) returns (b: Builder)
      modifies this
      ensures b == this
      ensures parts == old(parts) + [C(color, text)]
      ensures String() == old(String()) + C(color, text)
    {
      ConcatAppend(parts, C(color, text));
      parts := parts + [C(color, text)];
      b := this;
    }

    function String(): string
      reads this
    {
      Concat(parts)
    }
  }
}
