/** The newline-framed message protocol between the client controller and the daemon: one
    specification and the two readers that implement it differently. Bytes are characters. */
module Framing {
  import opened Texts

  // ---------- specification ----------

  /** Position of the first newline, or the length. */
  function NewlineAt(s: string): (n: nat)
    ensures n <= |s|
    ensures n < |s| ==> s[n] == '\n'
    ensures forall i :: 0 <= i < n ==> s[i] != '\n'
  {
    if s == "" || s[0] == '\n' then 0 else 1 + NewlineAt(s[1..])
  }

  predicate HasLine(s: string) { NewlineAt(s) < |s| }

  /** The bytes before and after the first newline. */
  function Line(s: string): string requires HasLine(s) { s[..NewlineAt(s)] }
  function After(s: string): (r: string) requires HasLine(s) ensures |r| < |s| { s[NewlineAt(s) + 1..] }

  /** The message a line carries, if any. */
  function Carried(line: string): seq<string> {
    if Trimmed(line) == "" then [] else [Trimmed(line)]
  }

  /** The trimmed non-empty lines of a byte stream. */
  function Messages(s: string): seq<string>
    decreases |s|
  {
    if HasLine(s) then Carried(Line(s)) + Messages(After(s)) else []
  }

  /** The bytes after the last newline. */
  function Remainder(s: string): (r: string)
    decreases |s|
  {
    if HasLine(s) then Remainder(After(s)) else s
  }

  function Flat(chunks: seq<string>): string {
    if chunks == [] then "" else chunks[0] + Flat(chunks[1..])
  }

  lemma {:induction false} FirstNewline(s: string, n: nat)
    requires n < |s| && s[n] == '\n' && forall i :: 0 <= i < n ==> s[i] != '\n'
    ensures NewlineAt(s) == n
  {
  }

  lemma LineOfLonger(a: string, b: string)
    requires HasLine(a)
    ensures HasLine(a + b) && Line(a + b) == Line(a) && After(a + b) == After(a) + b
  {
    FirstNewline(a + b, NewlineAt(a));
  }

  /** More bytes continue exactly where the remainder stopped. */
  lemma {:induction false} MoreBytes(a: string, b: string)
    ensures Messages(a + b) == Messages(a) + Messages(Remainder(a) + b)
    ensures Remainder(a + b) == Remainder(Remainder(a) + b)
    decreases |a|
  {
    hide HasLine, Line, After, Carried;
    if HasLine(a) {
      LineOfLonger(a, b);
      MoreBytes(After(a), b);
      var x, y := Messages(After(a)), Messages(Remainder(After(a)) + b);
      assert Carried(Line(a)) + (x + y) == Carried(Line(a)) + x + y;
    }
  }

  // ---------- the socket and the two readers ----------

  /** What successive calls of readAll() will return; then nothing. */
  class Socket {
    var chunks: seq<string>

    constructor (chunks: seq<string>)
      ensures this.chunks == chunks
    {
      this.chunks := chunks;
    }

    method ReadAll() returns (input: string)
      modifies this
      ensures old(chunks) == [] ==> input == "" && chunks == []
      ensures old(chunks) != [] ==> input == old(chunks)[0] && chunks == old(chunks)[1..]
    {
      if chunks == [] {
        return "";
      }
      input := chunks[0];
      chunks := chunks[1..];
    }
  }

  /** Loop invariant of both readers: what is delivered and what is buffered make up the stream. */
  predicate Progress(stream: string, commands: seq<string>, buffer: string) {
    && commands + Messages(buffer) == Messages(stream)
    && Remainder(buffer) == Remainder(stream)
  }

  lemma TakesLine(stream: string, commands: seq<string>, buffer: string)
    requires Progress(stream, commands, buffer) && HasLine(buffer)
    ensures Progress(stream, commands + Carried(Line(buffer)), After(buffer))
  {
    hide HasLine, Line, After, Carried;
    var x, y := Carried(Line(buffer)), Messages(After(buffer));
    assert commands + x + y == commands + (x + y);
  }

  lemma TakesInput(stream: string, commands: seq<string>, buffer: string, input: string)
    requires Progress(stream, commands, buffer) && !HasLine(buffer)
    ensures Progress(stream + input, commands, buffer + input)
  {
    MoreBytes(stream, input);
    assert Messages(stream) == commands;
  }

  lemma Finished(stream: string, commands: seq<string>, buffer: string)
    requires Progress(stream, commands, buffer) && !HasLine(buffer)
    ensures commands == Messages(stream) && buffer == Remainder(stream)
  {
  }

  predicate NoEmptyRead(chunks: seq<string>) { forall i :: 0 <= i < |chunks| ==> chunks[i] != "" }

  lemma FirstChunk(chunks: seq<string>, read: string)
    ensures chunks != [] ==> read + Flat(chunks) == read + chunks[0] + Flat(chunks[1..])
    ensures chunks == [] ==> read + Flat(chunks) == read + "" + Flat([])
    ensures chunks != [] && NoEmptyRead(chunks) ==> chunks[0] != "" && NoEmptyRead(chunks[1..])
  {
  }

  lemma Associates(a: string, b: string, c: string)
    ensures a + b + c == a + (b + c)
  {
  }

  method IndexOfNewline(buffer: string) returns (pos: int)
    ensures pos == if HasLine(buffer) then NewlineAt(buffer) else -1
  {
    pos := 0;
    while pos < |buffer|
      invariant 0 <= pos <= |buffer|
      invariant forall i :: 0 <= i < pos ==> buffer[i] != '\n'
    {
      if buffer[pos] == '\n' {
        FirstNewline(buffer, pos);
        return;
      }
      pos := pos + 1;
    }
    pos := -1;
  }

  /** Takes the first line off a buffer; an empty command is not delivered. */
  method CutLine(buffer: string, pos: nat) returns (command: seq<string>, rest: string)
    requires HasLine(buffer) && pos == NewlineAt(buffer)
    ensures command == Carried(Line(buffer)) && rest == After(buffer)
  {
    var line := buffer[..pos];
    rest := buffer[pos + 1..];
    var trimmed := Trimmed(line);
    if trimmed == "" {
      command := [];
    } else {
      command := [trimmed];
    }
  }

  /** DaemonLocalServerConnection: reads only when its buffer holds no complete line, until a read
      comes back empty. */
  class DaemonReader {
    var buffer: string

    constructor ()
      ensures buffer == ""
    {
      buffer := "";
    }

    method ReadData(socket: Socket) returns (commands: seq<string>, read: string)
      modifies this, socket
      ensures commands == Messages(old(buffer) + read)
      ensures buffer == Remainder(old(buffer) + read)
      ensures Flat(old(socket.chunks)) == read + Flat(socket.chunks)
      ensures NoEmptyRead(old(socket.chunks)) ==> socket.chunks == []
    {
      hide Progress, Messages, Remainder, Flat, NoEmptyRead, HasLine, NewlineAt, Line, After, Carried;
      commands, read := [], "";
      ghost var stream := buffer;
      assert Progress(buffer, [], buffer) by { Starts(buffer); }
      while true
        invariant stream == old(buffer) + read
        invariant Progress(stream, commands, buffer)
        invariant Flat(old(socket.chunks)) == read + Flat(socket.chunks)
        invariant NoEmptyRead(old(socket.chunks)) ==> NoEmptyRead(socket.chunks)
        decreases |socket.chunks|, |buffer|
      {
        var pos := IndexOfNewline(buffer);
        if pos == -1 {
          FirstChunk(socket.chunks, read);
          var input := socket.ReadAll();
          if input == "" {
            break;
          }
          TakesInput(stream, commands, buffer, input);
          Associates(old(buffer), read, input);
          buffer := buffer + input;
          read := read + input;
          stream := stream + input;
          continue;
        }
        TakesLine(stream, commands, buffer);
        var command;
        command, buffer := CutLine(buffer, pos);
        commands := commands + command;
      }
      Finished(stream, commands, buffer);
    }
  }

  lemma Starts(buffer: string)
    ensures Progress(buffer, [], buffer)
  {
    assert [] + Messages(buffer) == Messages(buffer);
  }

  /** LocalSocketController: reads once, then takes complete lines off its buffer. */
  class ControllerReader {
    var buffer: string

    constructor ()
      ensures buffer == ""
    {
      buffer := "";
    }

    method ReadData(socket: Socket) returns (commands: seq<string>, read: string)
      modifies this, socket
      ensures commands == Messages(old(buffer) + read)
      ensures buffer == Remainder(old(buffer) + read)
      ensures Flat(old(socket.chunks)) == read + Flat(socket.chunks)
      ensures |old(socket.chunks)| <= 1 ==> socket.chunks == []
    {
      hide Progress, Messages, Remainder, HasLine, NewlineAt, Line, After, Carried;
      read := socket.ReadAll();
      buffer := buffer + read;
      commands := [];
      ghost var stream := buffer;
      assert Progress(buffer, [], buffer) by { Starts(buffer); }
      while true
        invariant Progress(stream, commands, buffer)
        modifies this
        decreases |buffer|
      {
        var pos := IndexOfNewline(buffer);
        if pos == -1 {
          break;
        }
        TakesLine(stream, commands, buffer);
        var command;
        command, buffer := CutLine(buffer, pos);
        commands := commands + command;
      }
      Finished(stream, commands, buffer);
    }
  }

  // ---------- independence of chunking ----------

  /** What successive calls of either reader deliver and leave, when they read `pieces`. */
  function Delivered(buffer: string, pieces: seq<string>): seq<string>
    decreases |pieces|
  {
    if pieces == [] then []
    else Messages(buffer + pieces[0]) + Delivered(Remainder(buffer + pieces[0]), pieces[1..])
  }

  function Kept(buffer: string, pieces: seq<string>): string
    decreases |pieces|
  {
    if pieces == [] then buffer else Kept(Remainder(buffer + pieces[0]), pieces[1..])
  }

  /** Any number of calls, whatever each of them reads, deliver exactly the messages of the stream. */
  lemma {:induction false} ChunkingIsIrrelevant(buffer: string, pieces: seq<string>)
    requires !HasLine(buffer)
    ensures Delivered(buffer, pieces) == Messages(buffer + Flat(pieces))
    ensures Kept(buffer, pieces) == Remainder(buffer + Flat(pieces))
    decreases |pieces|
  {
    hide HasLine, Line, After, Carried;
    if pieces == [] {
      assert buffer + "" == buffer;
    } else {
      var a := buffer + pieces[0];
      RemainderHasNoLine(a);
      ChunkingIsIrrelevant(Remainder(a), pieces[1..]);
      MoreBytes(a, Flat(pieces[1..]));
      assert a + Flat(pieces[1..]) == buffer + Flat(pieces);
    }
  }

  lemma {:induction false} RemainderHasNoLine(s: string)
    ensures !HasLine(Remainder(s))
    decreases |s|
  {
    if HasLine(s) { RemainderHasNoLine(After(s)); }
  }

  // ---------- written messages arrive ----------

  /** write(): the message and a newline. */
  function Written(messages: seq<string>): string {
    if messages == [] then "" else messages[0] + "\n" + Written(messages[1..])
  }

  /** One line, not empty and without blanks around it, as compact JSON objects are. */
  predicate WireSafe(m: string) { !HasLine(m) && m != "" && Trimmed(m) == m }

  lemma LineOfWritten(m: string, rest: string)
    requires !HasLine(m)
    ensures var s := m + "\n" + rest; HasLine(s) && Line(s) == m && After(s) == rest
  {
    FirstNewline(m + "\n" + rest, |m|);
  }

  lemma {:induction false} SafeMessagesArrive(messages: seq<string>)
    requires forall m :: m in messages ==> WireSafe(m)
    ensures Messages(Written(messages)) == messages && Remainder(Written(messages)) == ""
  {
    hide HasLine, Line, After;
    if messages == [] {
      NothingPending();
    } else {
      var m := messages[0];
      assert WireSafe(m);
      SafeMessagesArrive(messages[1..]);
      LineOfWritten(m, Written(messages[1..]));
      assert messages == [m] + messages[1..];
    }
  }

  lemma NothingPending()
    ensures !HasLine("")
  {
  }

  /** Whatever the stream, a delivered message is safe on the wire. */
  lemma {:induction false} MessagesAreSafe(s: string, m: string)
    requires m in Messages(s)
    ensures WireSafe(m)
    decreases |s|
  {
    hide WireSafe, After;
    if m in Carried(Line(s)) {
      CarriedIsSafe(s, m);
    } else {
      MessagesAreSafe(After(s), m);
    }
  }

  lemma CarriedIsSafe(s: string, m: string)
    requires HasLine(s) && m in Carried(Line(s))
    ensures WireSafe(m)
  {
    hide TrimmedLeft, TrimmedRight, Trimmed;
    TrimmedIsPart(Line(s), '\n');
    assert '\n' !in Line(s);
  }

  /** A sequence of messages arrives as it was written, whatever the chunking, if and only if every
      message is safe on the wire. */
  lemma RoundTrip(messages: seq<string>, pieces: seq<string>)
    requires Flat(pieces) == Written(messages)
    ensures Delivered("", pieces) == messages && Kept("", pieces) == ""
       <==> forall m :: m in messages ==> WireSafe(m)
  {
    hide HasLine, WireSafe, Messages, Remainder;
    NothingPending();
    ChunkingIsIrrelevant("", pieces);
    assert "" + Flat(pieces) == Written(messages);
    if Delivered("", pieces) == messages {
      forall m | m in messages ensures WireSafe(m) { MessagesAreSafe(Written(messages), m); }
    }
    if forall m :: m in messages ==> WireSafe(m) {
      SafeMessagesArrive(messages);
    }
  }
}
