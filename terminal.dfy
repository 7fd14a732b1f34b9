/** The browser terminal of the WebAssembly client
    (wasm-client/chess-client-wasm/terminal.js): a line editor fed by the
    terminal's keystroke events, and the `fs.read`/`fs.write` hooks through
    which the Go runtime reads standard input and writes standard output.

    Strings are sequences of Unicode code points; the terminal widget, the
    Go runtime's original `fs` functions and `TextDecoder` are outside the
    model. */
module TerminalBridge {
  import opened Wrappers

  newtype byte = x: int | 0 <= x < 256

  // ---------------------------------------------------------------------
  // Encoding a line (TextEncoder, UTF-8)

  /** The UTF-8 bytes of one code point. */
  function Utf8(c: char): (r: seq<byte>)
    ensures 1 <= |r| <= 4
    ensures c as int < 0x80 <==> |r| == 1
    ensures c as int < 0x80 ==> r[0] as int == c as int
  {
    var n := c as int;
    if n < 0x80 then [n as byte]
    else if n < 0x800 then [(0xC0 + n / 0x40) as byte, (0x80 + n % 0x40) as byte]
    else if n < 0x10000 then
      [(0xE0 + n / 0x1000) as byte, (0x80 + n / 0x40 % 0x40) as byte, (0x80 + n % 0x40) as byte]
    else
      [(0xF0 + n / 0x40000) as byte, (0x80 + n / 0x1000 % 0x40) as byte,
       (0x80 + n / 0x40 % 0x40) as byte, (0x80 + n % 0x40) as byte]
  }

  /** `TextEncoder.encode`: the UTF-8 bytes of a text. */
  function Encode(s: string): (r: seq<byte>)
    ensures |r| >= |s|
    decreases |s|
  {
    if s == [] then [] else Encode(s[..|s| - 1]) + Utf8(s[|s| - 1])
  }

  predicate Ascii(s: string) {
    forall i :: 0 <= i < |s| ==> s[i] as int < 0x80
  }

  /** An ASCII text is encoded one byte per character, each its code. */
  lemma {:induction false} EncodeAscii(s: string)
    requires Ascii(s)
    ensures |Encode(s)| == |s|
    ensures forall i :: 0 <= i < |s| ==> Encode(s)[i] as int == s[i] as int
    decreases |s|
  {
    if s != [] {
      var init := s[..|s| - 1];
      assert Ascii(init) by {
        forall i | 0 <= i < |init| ensures init[i] as int < 0x80 {
          assert init[i] == s[i];
        }
      }
      EncodeAscii(init);
    }
  }

  // ---------------------------------------------------------------------
  // The line editor

  const Enter: string := "\r"
  const Delete: string := "\U{7F}"
  const BackspaceKey: string := "\U{8}"
  const CtrlC: string := "\U{3}"
  /** What the terminal is told to write to rub out the last character. */
  const RubOut: string := "\U{8} \U{8}"
  const Interrupted: string := "^C\r\n"
  const NewLine: string := "\r\n"

  /** JavaScript's `data >= ' ' && data <= '~'` on a whole chunk: strings
      compare by their first character, and a longer string that starts
      with '~' is above "~". */
  predicate Printable(data: string) {
    |data| > 0 && ' ' <= data[0] && (data[0] < '~' || data == "~")
  }

  /** A single character passes exactly when it is printable ASCII. */
  lemma PrintableChar(c: char)
    ensures Printable([c]) <==> ' ' <= c <= '~'
  {
  }

  /** The comparison looks at the chunk's first character only: a pasted
      chunk that starts printable is taken whole, control characters and
      all. */
  lemma PrintableChunk(data: string)
    requires |data| > 1 && ' ' <= data[0] < '~'
    ensures Printable(data)
  {
  }

  /** What one keystroke event does to the line being edited: the new
      buffer, what is echoed, and the line delivered to the waiting read. */
  datatype Edit = Edit(buffer: string, echo: Option<string>, deliver: Option<string>)

  /** The keystroke handler of the terminal, while a read waits. */
  function EditorStep(buffer: string, data: string): (e: Edit)
    ensures data == Enter ==> e == Edit("", Some(NewLine), Some(buffer))
    ensures data == CtrlC ==> e == Edit("", Some(Interrupted), Some(""))
    ensures (data == Delete || data == BackspaceKey) && buffer != [] ==> e == Edit(buffer[..|buffer| - 1], Some(RubOut), None)
    ensures (data == Delete || data == BackspaceKey) && buffer == [] ==> e == Edit(buffer, None, None)
    ensures data != Enter && data != CtrlC && data != Delete && data != BackspaceKey ==>
      e == if Printable(data) then Edit(buffer + data, Some(data), None) else Edit(buffer, None, None)
  {
    if data == Enter then Edit("", Some(NewLine), Some(buffer))
    else if data == Delete || data == BackspaceKey then
      if |buffer| > 0 then Edit(buffer[..|buffer| - 1], Some(RubOut), None) else Edit(buffer, None, None)
    else if data == CtrlC then Edit("", Some(Interrupted), Some(""))
    else if Printable(data) then Edit(buffer + data, Some(data), None)
    else Edit(buffer, None, None)
  }

  /** Backspace takes back exactly the character typed before it. */
  lemma BackspaceUndoesKey(buffer: string, c: char)
    requires ' ' <= c <= '~'
    ensures EditorStep(EditorStep(buffer, [c]).buffer, Delete) == Edit(buffer, Some(RubOut), None)
    ensures EditorStep(EditorStep(buffer, [c]).buffer, BackspaceKey) == Edit(buffer, Some(RubOut), None)
  {
    var b := buffer + [c];
    assert EditorStep(buffer, [c]).buffer == b;
    assert b[..|b| - 1] == buffer;
  }

  /** The keystrokes of typing `s` one character at a time. */
  function Keys(s: string): (r: seq<string>)
    ensures |r| == |s|
    ensures forall i :: 0 <= i < |s| ==> r[i] == [s[i]]
  {
    seq(|s|, i requires 0 <= i < |s| => [s[i]])
  }

  /** The buffer after a run of keystrokes, while a read waits and before
      any of them delivers a line. */
  function Typed(buffer: string, keys: seq<string>): string
    decreases |keys|
  {
    if keys == [] then buffer else EditorStep(Typed(buffer, keys[..|keys| - 1]), keys[|keys| - 1]).buffer
  }

  /** Typing printable characters one by one appends them in order. */
  lemma {:induction false} TypingAppends(buffer: string, s: string)
    requires forall i :: 0 <= i < |s| ==> ' ' <= s[i] <= '~'
    ensures Typed(buffer, Keys(s)) == buffer + s
    decreases |s|
  {
    if s != [] {
      var init := s[..|s| - 1];
      assert Keys(s)[..|s| - 1] == Keys(init);
      TypingAppends(buffer, init);
      PrintableChar(s[|s| - 1]);
      assert buffer + init + [s[|s| - 1]] == buffer + s;
    }
  }

  /** Typing a line and pressing Enter delivers exactly that line and
      leaves the buffer empty. */
  lemma EnterDeliversTyped(s: string)
    requires forall i :: 0 <= i < |s| ==> ' ' <= s[i] <= '~'
    ensures EditorStep(Typed("", Keys(s)), Enter) == Edit("", Some(NewLine), Some(s))
  {
    TypingAppends("", s);
    assert "" + s == s;
  }

  // ---------------------------------------------------------------------
  // The fs hooks

  /** A read of standard input waiting for its line: the destination array,
      the offset to copy at and the most bytes wanted. */
  datatype ReadRequest = ReadRequest(buf: array<byte>, offset: nat, length: nat)

  /** What a read's callback was given: the number of bytes copied, or
      nothing at all because copying threw. */
  datatype ReadResult = ReadOk(n: nat) | Rejected

  /** What the terminal shows: text written by the line editor, or bytes the
      program wrote to standard output or error (decoded by the widget). */
  datatype Output = Echo(text: string) | Bytes(bytes: seq<byte>)

  /** How an `fs` call was answered: bytes written, a read left waiting for
      its line, handed to the runtime's original function, or an error. */
  datatype FsCall = Wrote(n: nat) | Waiting | Delegated | Failed(error: string)

  const InvalidFd: string := "Invalid fd"

  /** The bytes a read delivers for `line`: the line and a newline, cut to
      the length asked for. */
  function LineBytes(line: string, length: nat): (r: seq<byte>)
    ensures |r| == if length < |Encode(line + "\n")| then length else |Encode(line + "\n")|
    ensures r == Encode(line + "\n")[..|r|]
  {
    var input := Encode(line + "\n");
    input[..if length < |input| then length else |input|]
  }

  /** What delivering `line` to a read does: the line's bytes written into
      the array at the offset and their number handed to the callback, or,
      when they do not fit (`Uint8Array.set` throws), the array untouched
      and the callback never called. */
  function Deliver(before: seq<byte>, offset: nat, length: nat, line: string): (r: (seq<byte>, ReadResult))
    ensures |r.0| == |before|
    ensures r.1.ReadOk? <==> offset + |LineBytes(line, length)| <= |before|
    ensures r.1.ReadOk? ==> r.1.n == |LineBytes(line, length)| && r.0[offset..offset + r.1.n] == LineBytes(line, length)
    ensures r.1.ReadOk? ==> forall i :: 0 <= i < |before| && !(offset <= i < offset + r.1.n) ==> r.0[i] == before[i]
    ensures r.1.Rejected? ==> r.0 == before
  {
    var bytes := LineBytes(line, length);
    if offset + |bytes| <= |before| then (Overwrite(before, offset, bytes), ReadOk(|bytes|))
    else (before, Rejected)
  }

  /** `a` with `b` written over it from `offset` on. */
  function Overwrite(a: seq<byte>, offset: nat, b: seq<byte>): (r: seq<byte>)
    requires offset + |b| <= |a|
    ensures |r| == |a| && r[offset..offset + |b|] == b
    ensures forall i :: 0 <= i < |a| && !(offset <= i < offset + |b|) ==> r[i] == a[i]
  {
    a[..offset] + b + a[offset + |b|..]
  }

  /** The bytes `buf.slice(offset, offset + length)` takes: the range, cut
      at the end of the array. */
  function Slice(a: seq<byte>, offset: nat, length: nat): (r: seq<byte>)
    ensures |r| <= length
    ensures offset + length <= |a| ==> r == a[offset..offset + length]
  {
    var start := if offset < |a| then offset else |a|;
    var end := if offset + length < |a| then offset + length else |a|;
    a[start..end]
  }

  /** The page's terminal: the line being edited, the read waiting for a
      line (`inputResolver`), everything shown, and every result handed to a
      read's callback. */
  class Terminal {
    var buffer: string
    var reader: Option<ReadRequest>
    var screen: seq<Output>
    var completed: seq<ReadResult>

    constructor ()
      ensures buffer == "" && reader == None && screen == [] && completed == []
    {
      buffer := "";
      reader := None;
      screen := [];
      completed := [];
    }

    /** The array the waiting read copies into, if any. */
    function Target(): set<object>
      reads this
    {
      if reader.Some? then {reader.value.buf} else {}
    }

    /** `term.onData`: ignored unless a read waits; otherwise one step of
      the editor, its echo shown, and a delivered line handed to the
      waiting read, which then waits no more. */
    method OnData(data: string)
      modifies this, Target()
      ensures old(reader).None? ==>
        buffer == old(buffer) && reader == None && screen == old(screen) && completed == old(completed)
      ensures old(reader).Some? ==>
        var e := EditorStep(old(buffer), data);
        buffer == e.buffer
        && screen == old(screen) + (if e.echo.Some? then [Echo(e.echo.value)] else [])
        && (e.deliver.None? ==> reader == old(reader) && completed == old(completed)
                                && unchanged(old(reader).value.buf))
        && (e.deliver.Some? ==>
              var d := Deliver(old(reader.value.buf[..]), old(reader).value.offset, old(reader).value.length, e.deliver.value);
              reader == None && old(reader).value.buf[..] == d.0 && completed == old(completed) + [d.1])
    {
      if reader.None? {
        return;
      }
      var e := EditorStep(buffer, data);
      buffer := e.buffer;
      if e.echo.Some? {
        screen := screen + [Echo(e.echo.value)];
      }
      if e.deliver.Some? {
        var request := reader.value;
        reader := None;
        Complete(request, e.deliver.value);
      }
    }

    /** The continuation of `fs.read` once its line arrives. */
    method Complete(request: ReadRequest, line: string)
      modifies this, request.buf
      ensures buffer == old(buffer) && reader == old(reader) && screen == old(screen)
      ensures var d := Deliver(old(request.buf[..]), request.offset, request.length, line);
        request.buf[..] == d.0 && completed == old(completed) + [d.1]
    {
      var input := Encode(line + "\n");
      var n := if request.length < |input| then request.length else |input|;
      if request.offset + n > request.buf.Length {
        completed := completed + [Rejected];
        return;
      }
      var offset := request.offset;
      forall k | 0 <= k < n {
        request.buf[offset + k] := input[k];
      }
      assert request.buf[..] == Overwrite(old(request.buf[..]), offset, LineBytes(line, request.length));
      completed := completed + [ReadOk(n)];
    }

    /** `fs.read`: standard input waits for the next line (replacing any
      read still waiting); other descriptors go to the original function
      when there is one. */
    method Read(fd: int, buf: array<byte>, offset: nat, length: nat, hasOriginal: bool) returns (r: FsCall)
      modifies this
      ensures fd == 0 ==> r == Waiting && reader == Some(ReadRequest(buf, offset, length))
      ensures fd != 0 ==> reader == old(reader)
      ensures fd != 0 && hasOriginal ==> r == Delegated
      ensures fd != 0 && !hasOriginal ==> r == Failed(InvalidFd)
      ensures buffer == old(buffer) && screen == old(screen) && completed == old(completed)
    {
      if fd == 0 {
        reader := Some(ReadRequest(buf, offset, length));
        r := Waiting;
      } else if hasOriginal {
        r := Delegated;
      } else {
        r := Failed(InvalidFd);
      }
    }

    /** `fs.write`: standard output and error go to the terminal and report
      the whole length written; other descriptors go to the original
      function when there is one. */
    method Write(fd: int, buf: array<byte>, offset: nat, length: nat, hasOriginal: bool) returns (r: FsCall)
      modifies this
      ensures fd == 1 || fd == 2 ==> r == Wrote(length) && screen == old(screen) + [Bytes(Slice(buf[..], offset, length))]
      ensures !(fd == 1 || fd == 2) ==> screen == old(screen)
      ensures !(fd == 1 || fd == 2) && hasOriginal ==> r == Delegated
      ensures !(fd == 1 || fd == 2) && !hasOriginal ==> r == Failed(InvalidFd)
      ensures buffer == old(buffer) && reader == old(reader) && completed == old(completed)
    {
      if fd == 1 || fd == 2 {
        screen := screen + [Bytes(Slice(buf[..], offset, length))];
        r := Wrote(length);
      } else if hasOriginal {
        r := Delegated;
      } else {
        r := Failed(InvalidFd);
      }
    }
  }

  /** A line read into room enough for it arrives whole, newline included;
      into less room, exactly as many bytes as asked for. */
  lemma LineBytesFit(line: string, length: nat)
    requires Ascii(line)
    ensures |LineBytes(line, length)| == if length < |line| + 1 then length else |line| + 1
    ensures length > |line| ==> LineBytes(line, length) == Encode(line + "\n")
  {
    assert Ascii(line + "\n") by {
      forall i | 0 <= i < |line + "\n"| ensures (line + "\n")[i] as int < 0x80 {
        if i < |line| {
          assert (line + "\n")[i] == line[i];
        }
      }
    }
    EncodeAscii(line + "\n");
  }
}
