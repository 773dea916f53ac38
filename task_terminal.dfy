/** The UART0 receive interrupt of app/task_terminal.c: received characters are collected
    in a 128-byte line buffer until a line end, which hands the line to the terminal of
    system/terminal.c; a line that would not fit is thrown away. The echo of each
    character and the UART set-up are left out. */
module TerminalTask {

  import opened CLib
  import opened Terminal

  const UART_RX_BUFFER_SIZE: int := 128

  predicate IsLineEnd(c: char) { c == '\n' || c == '\r' }

  /** One received character: the line so far, and the line handed to the terminal if
      the character ends one. */
  function Feed(pending: string, c: char): (r: (string, Option<string>))
    requires |pending| < UART_RX_BUFFER_SIZE
    ensures |r.0| < UART_RX_BUFFER_SIZE
  {
    if IsLineEnd(c) then ([], Some(pending))
    else if |pending| < UART_RX_BUFFER_SIZE - 1 then (pending + [c], None)
    else ([], None)
  }

  /** A line end hands over exactly the characters collected and starts a new line; any
      other character is kept while fewer than 127 are held; the 128th is dropped along
      with the whole partial line. */
  lemma FeedCases(pending: string, c: char)
    requires |pending| < UART_RX_BUFFER_SIZE
    ensures Feed(pending, c).1.Some? <==> IsLineEnd(c)
    ensures IsLineEnd(c) ==> Feed(pending, c) == ([], Some(pending))
    ensures !IsLineEnd(c) && |pending| < UART_RX_BUFFER_SIZE - 1 ==> Feed(pending, c).0 == pending + [c]
    ensures !IsLineEnd(c) && |pending| == UART_RX_BUFFER_SIZE - 1 ==> Feed(pending, c).0 == []
  {
  }

  /** The characters of `input` one after another: what is left collected, and the lines
      handed over, in order. */
  function FeedAll(pending: string, input: string): (r: (string, seq<string>))
    requires |pending| < UART_RX_BUFFER_SIZE
    ensures |r.0| < UART_RX_BUFFER_SIZE
    decreases |input|
  {
    if input == [] then (pending, [])
    else
      var f := Feed(pending, input[0]);
      var rest := FeedAll(f.0, input[1..]);
      (rest.0, (if f.1.Some? then [f.1.value] else []) + rest.1)
  }

  /** `s` cut at every line end: one piece more than there are line ends. */
  function Pieces(s: string): (r: seq<string>)
    ensures |r| >= 1
    decreases |s|
  {
    if s == [] then [[]]
    else
      var rest := Pieces(s[1..]);
      if IsLineEnd(s[0]) then [[]] + rest else [[s[0]] + rest[0]] + rest[1..]
  }

  predicate NoLineEnd(s: string) {
    forall k :: 0 <= k < |s| ==> !IsLineEnd(s[k])
  }

  /** The pieces of a text that does not start with a line end: its first character
      begins the first piece. */
  lemma PiecesCons(c: char, s: string)
    ensures !IsLineEnd(c) ==> Pieces([c] + s) == [[c] + Pieces(s)[0]] + Pieces(s)[1..]
    ensures IsLineEnd(c) ==> Pieces([c] + s) == [[]] + Pieces(s)
  {
    assert ([c] + s)[0] == c && ([c] + s)[1..] == s;
  }

  /** Text without a line end joins the first piece. */
  lemma {:induction false} PiecesAfter(p: string, s: string)
    requires NoLineEnd(p)
    ensures Pieces(p + s) == [p + Pieces(s)[0]] + Pieces(s)[1..]
    decreases |p|
  {
    var ps := Pieces(s);
    if p == [] {
      assert p + s == s && p + ps[0] == ps[0];
      assert ps == [ps[0]] + ps[1..];
    } else {
      var q := p[1..];
      assert p + s == [p[0]] + (q + s);
      assert NoLineEnd(q) by { assert forall k :: 0 <= k < |q| ==> q[k] == p[k + 1]; }
      PiecesAfter(q, s);
      PiecesCons(p[0], q + s);
      assert [p[0]] + (q + ps[0]) == p + ps[0];
    }
  }

  /** The lines handed over from `pending + [c] + rest`, `c` a line end, are `pending` and
      then those of `rest` from an empty line. */
  lemma FeedAllAtLineEnd(pending: string, c: char, rest: string)
    requires |pending| < UART_RX_BUFFER_SIZE && IsLineEnd(c)
    ensures FeedAll(pending, [c] + rest) == (FeedAll([], rest).0, [pending] + FeedAll([], rest).1)
  {
    assert ([c] + rest)[0] == c && ([c] + rest)[1..] == rest;
  }

  /** Any other character `c` that fits is kept and the rest goes on from there. */
  lemma FeedAllKeeps(pending: string, c: char, rest: string)
    requires |pending| < UART_RX_BUFFER_SIZE - 1 && !IsLineEnd(c)
    ensures FeedAll(pending, [c] + rest) == FeedAll(pending + [c], rest)
  {
    assert ([c] + rest)[0] == c && ([c] + rest)[1..] == rest;
    assert [] + FeedAll(pending + [c], rest).1 == FeedAll(pending + [c], rest).1;
  }

  /** All pieces shorter than the buffer. */
  predicate Fits(ps: seq<string>) {
    forall k :: 0 <= k < |ps| ==> |ps[k]| < UART_RX_BUFFER_SIZE
  }

  /** While no line is longer than 127 characters, the lines handed over are exactly the
      pieces of the text between line ends, and the last, unfinished piece is what stays
      collected. */
  lemma {:induction false} FeedAllIsPieces(pending: string, input: string)
    requires |pending| < UART_RX_BUFFER_SIZE && NoLineEnd(pending) && Fits(Pieces(pending + input))
    ensures var ps := Pieces(pending + input);
      FeedAll(pending, input) == (ps[|ps| - 1], ps[..|ps| - 1])
    decreases |input|
  {
    var ps := Pieces(pending + input);
    PiecesAfter(pending, input);
    if input == [] {
      assert Pieces([]) == [[]] && pending + [] == pending;
      assert ps == [pending];
    } else {
      var c, rest := input[0], input[1..];
      assert input == [c] + rest;
      PiecesCons(c, rest);
      var qs := Pieces(rest);
      assert Pieces(input) == Pieces([c] + rest);
      if IsLineEnd(c) {
        assert Pieces(input)[0] == [] && Pieces(input)[1..] == qs;
        assert pending + [] == pending;
        assert ps == [pending] + qs;
        assert Pieces([] + rest) == qs && Fits(qs) by {
          assert [] + rest == rest;
          assert forall k :: 0 <= k < |qs| ==> qs[k] == ps[k + 1];
        }
        FeedAllIsPieces([], rest);
        FeedAllAtLineEnd(pending, c, rest);
        assert ps[..|ps| - 1] == [pending] + qs[..|qs| - 1];
      } else {
        var p' := pending + [c];
        assert pending + input == p' + rest;
        assert |ps[0]| == |pending| + 1 + |qs[0]|;
        assert NoLineEnd(p');
        FeedAllIsPieces(p', rest);
        FeedAllKeeps(pending, c, rest);
      }
    }
  }

  /** The terminal running the lines `lines` one after another, its handler calls
      collected after `calls`. */
  function ProcessLines(st: TermState, table: seq<Command>, lines: seq<string>, calls: seq<Call>)
    : (r: (TermState, seq<Call>))
    requires ValidState(st)
    ensures ValidState(r.0) && calls <= r.1
    decreases |lines|
  {
    if lines == [] then (st, calls)
    else
      var e := ProcessLine(st, table, CommandBuffer(lines[0]));
      ProcessLines(e.0, table, lines[1..], calls + e.1)
  }

  /** The interrupt over `input`, with the collected line, the terminal and the handler
      calls so far. */
  function HandleChars(pending: string, st: TermState, table: seq<Command>, input: string, calls: seq<Call>)
    : (r: (string, TermState, seq<Call>))
    requires |pending| < UART_RX_BUFFER_SIZE && ValidState(st)
    decreases |input|
  {
    if input == [] then (pending, st, calls)
    else
      var f := Feed(pending, input[0]);
      if f.1.Some? then
        var e := ProcessLine(st, table, CommandBuffer(f.1.value));
        HandleChars(f.0, e.0, table, input[1..], calls + e.1)
      else HandleChars(f.0, st, table, input[1..], calls)
  }

  /** The interrupt is the line assembly followed by the terminal running the lines it
      hands over, in order. */
  lemma {:induction false} HandleCharsIsFeedThenLines(pending: string, st: TermState, table: seq<Command>,
                                                      input: string, calls: seq<Call>)
    requires |pending| < UART_RX_BUFFER_SIZE && ValidState(st)
    ensures var f := FeedAll(pending, input);
      var t := ProcessLines(st, table, f.1, calls);
      HandleChars(pending, st, table, input, calls) == (f.0, t.0, t.1)
    decreases |input|
  {
    if input != [] {
      var f := Feed(pending, input[0]);
      var rest := FeedAll(f.0, input[1..]);
      if f.1.Some? {
        var e := ProcessLine(st, table, CommandBuffer(f.1.value));
        HandleCharsIsFeedThenLines(f.0, e.0, table, input[1..], calls + e.1);
        var lines := [f.1.value] + rest.1;
        assert lines[0] == f.1.value && lines[1..] == rest.1;
      } else {
        HandleCharsIsFeedThenLines(f.0, st, table, input[1..], calls);
        assert [] + rest.1 == rest.1;
      }
    }
  }

  /** One character of the interrupt, then the rest. */
  lemma HandleCharsStep(pending: string, st: TermState, table: seq<Command>, c: char, rest: string,
                        calls: seq<Call>)
    requires |pending| < UART_RX_BUFFER_SIZE && ValidState(st)
    ensures HandleChars(pending, st, table, [c] + rest, calls)
            == var f := Feed(pending, c);
               if f.1.Some? then
                 var e := ProcessLine(st, table, CommandBuffer(f.1.value));
                 HandleChars(f.0, e.0, table, rest, calls + e.1)
               else HandleChars(f.0, st, table, rest, calls)
  {
    assert ([c] + rest)[0] == c && ([c] + rest)[1..] == rest;
  }

  /** A `"\r\n"` pair hands the terminal a second, empty line, which changes nothing. */
  lemma CrLfActsOnce(pending: string, st: TermState, table: seq<Command>, rest: string, calls: seq<Call>)
    requires |pending| < UART_RX_BUFFER_SIZE && ValidState(st)
    ensures HandleChars(pending, st, table, "\r\n" + rest, calls) == HandleChars(pending, st, table, "\r" + rest, calls)
  {
    var e := ProcessLine(st, table, CommandBuffer(pending));
    assert "\r\n" + rest == ['\r'] + (['\n'] + rest);
    assert "\r" + rest == ['\r'] + rest;
    HandleCharsStep(pending, st, table, '\r', ['\n'] + rest, calls);
    HandleCharsStep(pending, st, table, '\r', rest, calls);
    HandleCharsStep([], e.0, table, '\n', rest, calls + e.1);
    assert CommandBuffer([]) == [];
    EmptySegmentSkipped(e.0, table, []);
    assert calls + e.1 + [] == calls + e.1;
  }

  /** The receive buffer and index of app/task_terminal.c with the terminal context the
      lines go to. */
  class UartTerminal {
    var rxBuffer: array<char>
    var rxIndex: int
    var terminal: TerminalContext

    ghost predicate Valid()
      reads this, terminal
    {
      rxBuffer.Length == UART_RX_BUFFER_SIZE && 0 <= rxIndex < UART_RX_BUFFER_SIZE && terminal.Valid()
    }

    /** The line collected so far. */
    ghost function Pending(): (s: string)
      requires Valid()
      reads this, rxBuffer, terminal
      ensures |s| < UART_RX_BUFFER_SIZE
    {
      rxBuffer[..rxIndex]
    }

    /** The zeroed buffer and index, feeding `term`. */
    constructor (term: TerminalContext)
      requires term.Valid()
      ensures Valid() && fresh(rxBuffer) && terminal == term && rxIndex == 0 && Pending() == []
    {
      rxBuffer := new char[UART_RX_BUFFER_SIZE](_ => '\0');
      rxIndex := 0;
      terminal := term;
    }

    /** `uart_irq_handler` with `input` the characters UART0 holds: the collected line, the
        terminal and the handler calls are those `HandleChars` gives. */
    method HandleIrq(input: string) returns (calls: seq<Call>)
      requires Valid()
      modifies this`rxIndex, rxBuffer, terminal`authenticated, terminal`vt100, terminal`historyIndex, terminal.history
      ensures Valid()
      ensures (Pending(), terminal.State(), calls)
              == HandleChars(old(Pending()), old(terminal.State()), terminal.commands, input, [])
    {
      ghost var goal := HandleChars(Pending(), terminal.State(), terminal.commands, input, []);
      calls := [];
      var i := 0;
      while i < |input|
        invariant Valid() && 0 <= i <= |input|
        invariant HandleChars(Pending(), terminal.State(), terminal.commands, input[i..], calls) == goal
        decreases |input| - i
      {
        var c := input[i];
        assert input[i..][0] == c && input[i..][1..] == input[i + 1..];
        ghost var line := Pending();
        if c == '\n' || c == '\r' {
          rxBuffer[rxIndex] := '\0';
          LineInBuffer(line, rxBuffer[..]);
          var e := terminal.Execute(rxBuffer[..]);
          calls := calls + e;
          rxIndex := 0;
        } else if rxIndex < UART_RX_BUFFER_SIZE - 1 {
          rxBuffer[rxIndex] := c;
          rxIndex := rxIndex + 1;
          assert Pending() == line + [c];
        } else {
          rxIndex := 0;
        }
        i := i + 1;
      }
    }
  }

  /** The NUL written after the collected line makes the terminal read that line and
      nothing after it. */
  lemma LineInBuffer(line: string, buffer: string)
    requires |line| < |buffer| && buffer[..|line|] == line && buffer[|line|] == '\0'
    ensures CommandBuffer(buffer) == CommandBuffer(line)
  {
    assert buffer == buffer[..|line|] + ['\0'] + buffer[|line| + 1..];
    var p := CStr(line);
    if '\0' in line {
      var k := |p|;
      assert line[k] == '\0';
      assert buffer == p + ['\0'] + buffer[k + 1..];
      assert line == p + ['\0'] + line[k + 1..];
      CStrStopsAtNul(p, buffer[k + 1..]);
      CStrStopsAtNul(p, line[k + 1..]);
    } else {
      CStrStopsAtNul(line, buffer[|line| + 1..]);
      CStrOfPlain(line);
    }
  }
}
