/** The command line of system/terminal.c: a table of at most 20 named commands, a
    10-entry history ring, an authentication flag and a VT100 flag. A line is cut to 127
    characters, split at every `;`, each segment trimmed of spaces and cut into at most
    10 space-separated words, and the first word names the command to run. Printed
    messages and the prompt are left out; a dispatch is returned as a `Call`. */
module Terminal {

  import opened CLib
  import Cmd

  const CMD_BUFFER_SIZE: int := 128
  const HISTORY_SIZE: int := 10
  const MAX_ARGS: int := 10
  const MAX_COMMANDS: int := 20

  /** `terminal_command_t`. */
  datatype Command = Command(name: string, description: string, handler: Cmd.Handler)

  /** A handler invoked with its argument vector. */
  datatype Call = Call(handler: Cmd.Handler, argv: seq<string>)

  // ---------------------------------------------------------------------------
  // Scanning

  /** The first index from `i` on whose character is not `c`, or `|s|`. */
  function SkipChar(s: string, i: nat, c: char): (j: nat)
    requires i <= |s|
    ensures i <= j <= |s|
    ensures forall k :: i <= k < j ==> s[k] == c
    ensures j < |s| ==> s[j] != c
    decreases |s| - i
  {
    if i < |s| && s[i] == c then SkipChar(s, i + 1, c) else i
  }

  /** The first index from `i` on whose character is `c`, or `|s|`. */
  function SkipUntil(s: string, i: nat, c: char): (j: nat)
    requires i <= |s|
    ensures i <= j <= |s|
    ensures forall k :: i <= k < j ==> s[k] != c
    ensures j < |s| ==> s[j] == c
    decreases |s| - i
  {
    if i < |s| && s[i] != c then SkipUntil(s, i + 1, c) else i
  }

  /** `strchr(s, c)`: the index of the first `c`, or -1. */
  function IndexOf(s: string, c: char): (k: int)
    ensures -1 <= k < |s|
    ensures k >= 0 ==> s[k] == c && c !in s[..k]
    ensures k == -1 ==> c !in s
  {
    var j := SkipUntil(s, 0, c);
    if j == |s| then -1 else j
  }

  // ---------------------------------------------------------------------------
  // Segments

  /** The segments a line splits into at each `;`; there is always at least one. */
  function Segments(line: string): (segs: seq<string>)
    ensures |segs| >= 1
    decreases |line|
  {
    var k := IndexOf(line, ';');
    if k == -1 then [line] else [line[..k]] + Segments(line[k + 1..])
  }

  /** No segment holds a `;`. */
  lemma {:induction false} SegmentsHaveNoSemicolon(line: string)
    ensures forall i :: 0 <= i < |Segments(line)| ==> ';' !in Segments(line)[i]
    decreases |line|
  {
    var k := IndexOf(line, ';');
    if k != -1 {
      var tail := Segments(line[k + 1..]);
      SegmentsHaveNoSemicolon(line[k + 1..]);
      var segs := Segments(line);
      assert segs == [line[..k]] + tail;
      forall i | 0 <= i < |segs|
        ensures ';' !in segs[i]
      {
        if i > 0 {
          assert segs[i] == tail[i - 1];
        }
      }
    }
  }

  /** Segments separated by `;`. */
  function JoinSegments(segs: seq<string>): string
    requires |segs| >= 1
    decreases |segs|
  {
    if |segs| == 1 then segs[0] else segs[0] + ";" + JoinSegments(segs[1..])
  }

  /** Splitting loses nothing: the segments joined back with `;` give the line. */
  lemma {:induction false} SegmentsJoin(line: string)
    ensures JoinSegments(Segments(line)) == line
    decreases |line|
  {
    var k := IndexOf(line, ';');
    if k != -1 {
      SegmentsJoin(line[k + 1..]);
      assert line == line[..k] + ";" + line[k + 1..];
      assert Segments(line)[1..] == Segments(line[k + 1..]);
    }
  }

  // ---------------------------------------------------------------------------
  // Trimming

  /** The end of the trimmed text that starts at `lo`: trailing spaces before `e` dropped. */
  function TrimEnd(s: string, lo: nat, e: nat): (r: nat)
    requires lo <= e <= |s|
    ensures lo <= r <= e
    ensures forall k :: r <= k < e ==> s[k] == ' '
    ensures r > lo ==> s[r - 1] != ' '
    decreases e
  {
    if e > lo && s[e - 1] == ' ' then TrimEnd(s, lo, e - 1) else e
  }

  /** A segment without its leading and trailing spaces (only `' '`). */
  function Trim(s: string): string {
    var lo := SkipChar(s, 0, ' ');
    s[lo..TrimEnd(s, lo, |s|)]
  }

  /** The trimmed text is what lies between a run of leading and a run of trailing spaces,
      and it neither starts nor ends with a space. */
  lemma TrimShape(s: string) returns (lo: nat, hi: nat)
    ensures lo <= hi <= |s| && Trim(s) == s[lo..hi]
    ensures forall k :: 0 <= k < lo ==> s[k] == ' '
    ensures forall k :: hi <= k < |s| ==> s[k] == ' '
    ensures Trim(s) != [] ==> Trim(s)[0] != ' ' && Trim(s)[|Trim(s)| - 1] != ' '
    ensures Trim(s) == [] ==> forall k :: 0 <= k < |s| ==> s[k] == ' '
  {
    lo := SkipChar(s, 0, ' ');
    hi := TrimEnd(s, lo, |s|);
  }

  /** Trimming twice is trimming once. */
  lemma TrimIdempotent(s: string)
    ensures Trim(Trim(s)) == Trim(s)
  {
    var t := Trim(s);
    var lo, hi := TrimShape(s);
    assert SkipChar(t, 0, ' ') == 0;
    assert TrimEnd(t, 0, |t|) == |t|;
  }

  /** The trimming loops of `terminal_execute_command`: the start pointer skips spaces,
      then the end pointer walks back over spaces, never past the start. */
  method TrimSpaces(s: string) returns (t: string)
    ensures t == Trim(s)
  {
    var start := 0;
    while start < |s| && s[start] == ' '
      invariant 0 <= start <= |s|
      invariant SkipChar(s, start, ' ') == SkipChar(s, 0, ' ')
    {
      start := start + 1;
    }
    var end := |s|;
    while end > start + 1 && s[end - 1] == ' '
      invariant start <= end <= |s|
      invariant TrimEnd(s, start, end) == TrimEnd(s, start, |s|)
    {
      end := end - 1;
    }
    t := s[start..end];
  }

  // ---------------------------------------------------------------------------
  // Tokenising

  /** The words `strtok(…, " ")` returns from index `pos` on: maximal runs of non-space
      characters; runs of spaces separate words and yield none. */
  function WordsFrom(s: string, pos: nat): seq<string>
    requires pos <= |s|
    decreases |s| - pos
  {
    var i := SkipChar(s, pos, ' ');
    if i == |s| then [] else
      var j := SkipUntil(s, i, ' ');
      [s[i..j]] + WordsFrom(s, j)
  }

  function Words(s: string): seq<string> {
    WordsFrom(s, 0)
  }

  /** A word: non-empty, without a space. */
  predicate IsWord(w: string) {
    w != [] && ' ' !in w
  }

  /** The first `n` of `xs`, or all of them. */
  function Take<T>(xs: seq<T>, n: nat): (r: seq<T>)
    ensures |r| <= n && |r| <= |xs| && r == xs[..|r|]
    ensures |xs| <= n ==> r == xs
  {
    if |xs| <= n then xs else xs[..n]
  }

  /** The argument vector of a segment: its first 10 words. */
  function Args(s: string): seq<string> {
    Take(Words(s), MAX_ARGS)
  }

  /** Every word `strtok` returns is a word. */
  lemma {:induction false} WordsFromAreWords(s: string, pos: nat)
    requires pos <= |s|
    ensures forall k :: 0 <= k < |WordsFrom(s, pos)| ==> IsWord(WordsFrom(s, pos)[k])
    decreases |s| - pos
  {
    var i := SkipChar(s, pos, ' ');
    if i < |s| {
      var j := SkipUntil(s, i, ' ');
      WordsFromAreWords(s, j);
      var w := s[i..j];
      assert ' ' !in w by {
        forall k | 0 <= k < |w| ensures w[k] != ' ' {
          assert w[k] == s[i + k];
        }
      }
    }
  }

  /** A segment that is not empty after trimming has at least one word. */
  lemma TrimmedHasWord(s: string)
    requires Trim(s) != []
    ensures Args(Trim(s)) != [] && Words(Trim(s)) != []
  {
    var lo, hi := TrimShape(s);
    var t := Trim(s);
    assert SkipChar(t, 0, ' ') == 0;
  }

  /** `q` holds `t` from position `d` to its end. */
  predicate ShiftedBy(q: string, d: nat, t: string) {
    |q| == d + |t| && forall m :: 0 <= m < |t| ==> q[d + m] == t[m]
  }

  /** Skipping and scanning in `q` past `d` is skipping and scanning in `t`. */
  lemma {:induction false} SkipShift(q: string, d: nat, t: string, k: nat, c: char)
    requires ShiftedBy(q, d, t) && k <= |t|
    ensures SkipChar(q, d + k, c) == d + SkipChar(t, k, c)
    ensures SkipUntil(q, d + k, c) == d + SkipUntil(t, k, c)
    decreases |t| - k
  {
    if k < |t| {
      assert q[d + k] == t[k];
      SkipShift(q, d, t, k + 1, c);
    }
  }

  lemma SliceShift(q: string, d: nat, t: string, i: nat, j: nat)
    requires ShiftedBy(q, d, t) && i <= j <= |t|
    ensures q[d + i..d + j] == t[i..j]
  {
    forall m | 0 <= m < j - i
      ensures q[d + i..d + j][m] == t[i..j][m]
    {
      assert q[d + (i + m)] == t[i + m];
    }
  }

  lemma {:induction false} WordsShift(q: string, d: nat, t: string, k: nat)
    requires ShiftedBy(q, d, t) && k <= |t|
    ensures WordsFrom(q, d + k) == WordsFrom(t, k)
    decreases |t| - k
  {
    var i := SkipChar(t, k, ' ');
    if i < |t| {
      var j := SkipUntil(t, i, ' ');
      WordsShift(q, d, t, j);
      WordsShiftStep(q, d, t, k, i, j);
    } else {
      SkipShift(q, d, t, k, ' ');
      WordsFromEnd(q, d + k);
      WordsFromEnd(t, k);
    }
  }

  /** The step of `WordsShift` for one word from `i` to `j`, given the words after it. */
  lemma WordsShiftStep(q: string, d: nat, t: string, k: nat, i: nat, j: nat)
    requires ShiftedBy(q, d, t) && k <= |t|
    requires i == SkipChar(t, k, ' ') && i < |t| && j == SkipUntil(t, i, ' ')
    requires WordsFrom(q, d + j) == WordsFrom(t, j)
    ensures WordsFrom(q, d + k) == WordsFrom(t, k)
  {
    SkipShift(q, d, t, k, ' ');
    SkipShift(q, d, t, i, ' ');
    SliceShift(q, d, t, i, j);
    WordsFromStep(q, d + k, d + i, d + j);
    WordsFromStep(t, k, i, j);
  }

  /** No word is left once only blanks follow `pos`. */
  lemma WordsFromEnd(s: string, pos: nat)
    requires pos <= |s| && SkipChar(s, pos, ' ') == |s|
    ensures WordsFrom(s, pos) == []
  {
  }

  /** One word of `WordsFrom`: the blanks from `pos` to `i` skipped, then the text up to
      the next blank at `j`. */
  lemma WordsFromStep(s: string, pos: nat, i: nat, j: nat)
    requires pos <= |s| && i == SkipChar(s, pos, ' ') && i < |s| && j == SkipUntil(s, i, ' ')
    ensures WordsFrom(s, pos) == [s[i..j]] + WordsFrom(s, j)
  {
  }

  /** Tokenising undoes joining words with single spaces. */
  lemma {:induction false} WordsOfJoin(ws: seq<string>)
    requires forall k :: 0 <= k < |ws| ==> IsWord(ws[k])
    ensures Words(Cmd.JoinWords(ws)) == ws
    decreases |ws|
  {
    if |ws| == 1 {
      var w := ws[0];
      assert Cmd.JoinWords(ws) == w;
      assert IsWord(w);
      assert SkipChar(w, 0, ' ') == 0;
      WordsFromStep(w, 0, 0, |w|);
      WordsFromEnd(w, |w|);
      assert w[0..|w|] == w;
    } else if |ws| >= 2 {
      var rest := Cmd.JoinWords(ws[1..]);
      assert Cmd.JoinWords(ws) == (ws[0] + " ") + rest;
      WordsOfJoin(ws[1..]);
      JoinWordsStart(ws[1..]);
      WordsOfJoinCons(ws[0], rest);
      assert ws == [ws[0]] + ws[1..];
    }
  }

  /** The words of a word, a space and a text starting with a non-blank are that word
      and the words of the text. */
  lemma WordsOfJoinCons(w: string, rest: string)
    requires IsWord(w) && rest != [] && rest[0] != ' '
    ensures Words((w + " ") + rest) == [w] + Words(rest)
  {
    var s := (w + " ") + rest;
    assert s[0] == w[0];
    assert forall k :: 0 <= k < |w| ==> s[k] == w[k];
    assert s[|w|] == ' ' && s[|w| + 1] == rest[0];
    assert SkipUntil(s, 0, ' ') == |w|;
    assert s[0..|w|] == w;
    WordsFromStep(s, 0, 0, |w|);
    assert SkipChar(s, |w|, ' ') == |w| + 1;
    WordsFromSkip(s, |w|);
    assert ShiftedBy(s, |w| + 1, rest) by {
      forall m | 0 <= m < |rest|
        ensures s[|w| + 1 + m] == rest[m]
      {
      }
    }
    WordsShift(s, |w| + 1, rest, 0);
  }

  /** Leading blanks do not change the words. */
  lemma WordsFromSkip(s: string, pos: nat)
    requires pos <= |s|
    ensures WordsFrom(s, pos) == WordsFrom(s, SkipChar(s, pos, ' '))
  {
    var i := SkipChar(s, pos, ' ');
    assert SkipChar(s, i, ' ') == i;
  }


  lemma JoinWordsStart(ws: seq<string>)
    requires |ws| >= 1 && IsWord(ws[0])
    ensures |Cmd.JoinWords(ws)| >= 1 && Cmd.JoinWords(ws)[0] == ws[0][0]
  {
    if |ws| >= 2 {
      assert Cmd.JoinWords(ws) == ws[0] + " " + Cmd.JoinWords(ws[1..]);
    }
  }

  /** The `strtok` loop: words are collected until there are none left or 10 have been
      taken. */
  method Tokenize(s: string) returns (args: seq<string>)
    ensures args == Args(s)
  {
    args := [];
    var pos := 0;
    while |args| < MAX_ARGS
      invariant pos <= |s| && |args| <= MAX_ARGS
      invariant Take(args + WordsFrom(s, pos), MAX_ARGS) == Args(s)
      decreases |s| - pos
    {
      var i := SkipChar(s, pos, ' ');
      if i == |s| {
        break;
      }
      var j := SkipUntil(s, i, ' ');
      assert args + WordsFrom(s, pos) == (args + [s[i..j]]) + WordsFrom(s, j);
      args := args + [s[i..j]];
      pos := j;
    }
    assert Take(args + WordsFrom(s, pos), MAX_ARGS) == args;
  }

  // ---------------------------------------------------------------------------
  // Dispatch and the line

  /** The first entry of the table whose name is exactly `name`, or -1. */
  function FindCommand(table: seq<Command>, name: string, from: nat := 0): (i: int)
    requires from <= |table|
    ensures -1 <= i < |table|
    ensures i >= 0 ==> from <= i && table[i].name == name
                       && forall j :: from <= j < i ==> table[j].name != name
    ensures i == -1 ==> forall j :: from <= j < |table| ==> table[j].name != name
    decreases |table| - from
  {
    if from == |table| then -1
    else if table[from].name == name then from
    else FindCommand(table, name, from + 1)
  }

  /** The fields of `terminal_context_t` that a line can change. */
  datatype TermState = TermState(authenticated: bool, vt100: bool, history: seq<string>, historyIndex: int)

  predicate ValidState(st: TermState) {
    |st.history| == HISTORY_SIZE && 0 <= st.historyIndex < HISTORY_SIZE
  }

  /** What a handler does to the terminal context (LOGIN, LOGOUT, VT100); the other
      handlers act elsewhere or only print. */
  function Apply(h: Cmd.Handler, st: TermState, argv: seq<string>): (r: TermState)
    ensures r.history == st.history && r.historyIndex == st.historyIndex
    ensures !(h.Login? || h.Logout? || h.Vt100?) ==> r == st
  {
    match h
    case Login => st.(authenticated := Cmd.LoginEffect(st.authenticated, argv))
    case Logout => st.(authenticated := Cmd.LogoutEffect(st.authenticated, argv))
    case Vt100 => st.(vt100 := Cmd.Vt100Effect(st.vt100, argv))
    case _ => st
  }

  /** A trimmed segment stored at the history index, which then moves on modulo 10. */
  function Record(st: TermState, command: string): (r: TermState)
    requires ValidState(st)
    ensures ValidState(r)
  {
    st.(history := st.history[st.historyIndex := command],
        historyIndex := (st.historyIndex + 1) % HISTORY_SIZE)
  }

  /** The outcome of one segment. */
  datatype SegmentResult = SegmentResult(stop: bool, st: TermState, call: Option<Call>)

  /** One segment: ignored when empty after trimming; when the terminal is not
      authenticated and the first word is not LOGIN, processing of the whole line stops;
      otherwise the first command of that name, if any, runs, and the trimmed segment
      goes into the history whether or not a command was found. */
  function ProcessSegment(st: TermState, table: seq<Command>, seg: string): (r: SegmentResult)
    requires ValidState(st)
    ensures ValidState(r.st)
  {
    var command := Trim(seg);
    if command == [] then SegmentResult(false, st, None)
    else
      TrimmedHasWord(seg);
      var argv := Args(command);
      if !st.authenticated && argv[0] != "LOGIN" then SegmentResult(true, st, None)
      else
        var i := FindCommand(table, argv[0]);
        var st1 := if i >= 0 then Apply(table[i].handler, st, argv) else st;
        SegmentResult(false, Record(st1, command), if i >= 0 then Some(Call(table[i].handler, argv)) else None)
  }

  /** The segments processed in order until one stops the line; the calls of those that
      ran are appended, in order, to `calls`. */
  function ProcessSegments(st: TermState, table: seq<Command>, segs: seq<string>, calls: seq<Call>)
    : (r: (TermState, seq<Call>))
    requires ValidState(st)
    ensures ValidState(r.0)
    ensures calls <= r.1 && |r.1| <= |calls| + |segs|
    decreases |segs|
  {
    if segs == [] then (st, calls)
    else
      var sr := ProcessSegment(st, table, segs[0]);
      if sr.stop then (sr.st, calls)
      else ProcessSegments(sr.st, table, segs[1..], if sr.call.Some? then calls + [sr.call.value] else calls)
  }

  /** A line: its `;`-separated segments, processed in order. */
  function ProcessLine(st: TermState, table: seq<Command>, line: string): (r: (TermState, seq<Call>))
    requires ValidState(st)
  {
    ProcessSegments(st, table, Segments(line), [])
  }

  /** The first segment ends at the first `;`; the others are those of the text after it. */
  lemma SegmentsStep(line: string, k: int)
    requires k == IndexOf(line, ';')
    ensures Segments(line)[0] == if k >= 0 then line[..k] else line
    ensures Segments(line)[1..] == if k >= 0 then Segments(line[k + 1..]) else []
  {
    if k >= 0 {
      var tail := Segments(line[k + 1..]);
      assert Segments(line) == [line[..k]] + tail;
      assert ([line[..k]] + tail)[1..] == tail;
    } else {
      assert Segments(line) == [line];
    }
  }

  /** `ProcessSegment` in terms of the trimmed segment `command`, its words `argv` and the
      index `i` of the command the first word names. */
  lemma ProcessSegmentIs(st: TermState, table: seq<Command>, seg: string, command: string,
                         argv: seq<string>, i: int)
    requires ValidState(st) && command == Trim(seg)
    requires command != [] ==> argv == Args(command) && argv != []
    requires command != [] && (st.authenticated || argv[0] == "LOGIN") ==> i == FindCommand(table, argv[0])
    ensures ProcessSegment(st, table, seg)
            == if command == [] then SegmentResult(false, st, None)
               else if !st.authenticated && argv[0] != "LOGIN" then SegmentResult(true, st, None)
               else SegmentResult(false, Record(if i >= 0 then Apply(table[i].handler, st, argv) else st, command),
                                  if i >= 0 then Some(Call(table[i].handler, argv)) else None)
  {
  }

  /** Processing a non-empty list of segments is processing the first, then the others
      unless the first stopped the line. */
  lemma ProcessSegmentsStep(st: TermState, table: seq<Command>, segs: seq<string>, calls: seq<Call>)
    requires ValidState(st) && segs != []
    ensures var sr := ProcessSegment(st, table, segs[0]);
      ProcessSegments(st, table, segs, calls)
      == if sr.stop then (sr.st, calls)
         else ProcessSegments(sr.st, table, segs[1..], if sr.call.Some? then calls + [sr.call.value] else calls)
  {
  }

  /** One pass of the segment loop: from the segments of `rest` still to process and the
      outcome `stop`, `st2`, `call` of the first one, either the line's result or the
      segments of the text after the first `;` still to process. */
  lemma PassAdvances(st: TermState, table: seq<Command>, rest: string, calls: seq<Call>,
                     goal: (TermState, seq<Call>), k: int, stop: bool, st2: TermState, call: Option<Call>)
    requires ValidState(st) && k == IndexOf(rest, ';')
    requires ProcessSegments(st, table, Segments(rest), calls) == goal
    requires SegmentResult(stop, st2, call) == ProcessSegment(st, table, if k >= 0 then rest[..k] else rest)
    ensures ValidState(st2)
    ensures var calls2 := if call.Some? then calls + [call.value] else calls;
      && (stop ==> (st2, calls) == goal)
      && (!stop && k < 0 ==> (st2, calls2) == goal)
      && (!stop && k >= 0 ==> ProcessSegments(st2, table, Segments(rest[k + 1..]), calls2) == goal)
  {
    SegmentsStep(rest, k);
    ProcessSegmentsStep(st, table, Segments(rest), calls);
  }

  /** The at-most-127-character copy of the input line `terminal_execute_command` works on. */
  function CommandBuffer(cmd: string): (r: string)
    ensures |r| <= CMD_BUFFER_SIZE - 1 && '\0' !in r
  {
    Truncate(CStr(cmd), CMD_BUFFER_SIZE - 1)
  }

  /** A segment whose first word is LOGIN. */
  predicate StartsWithLogin(seg: string) {
    var words := Words(Trim(seg));
    |words| > 0 && words[0] == "LOGIN"
  }

  /** When not authenticated, segments none of which starts with LOGIN run no command
      and change nothing, not even the history. */
  lemma {:induction false} LockedSegmentsDoNothing(st: TermState, table: seq<Command>, segs: seq<string>)
    requires ValidState(st) && !st.authenticated
    requires forall k :: 0 <= k < |segs| ==> !StartsWithLogin(segs[k])
    ensures ProcessSegments(st, table, segs, []) == (st, [])
    decreases |segs|
  {
    if segs != [] {
      var seg := segs[0];
      assert !StartsWithLogin(seg);
      var sr := ProcessSegment(st, table, seg);
      if Trim(seg) != [] {
        TrimmedHasWord(seg);
        assert sr == SegmentResult(true, st, None);
      } else {
        assert sr == SegmentResult(false, st, None);
        LockedSegmentsDoNothing(st, table, segs[1..]);
      }
    }
  }

  /** When not authenticated, a line none of whose segments starts with LOGIN runs no
      command and changes nothing. */
  lemma LockedLineDoesNothing(st: TermState, table: seq<Command>, line: string)
    requires ValidState(st) && !st.authenticated
    requires forall seg :: seg in Segments(line) ==> !StartsWithLogin(seg)
    ensures ProcessLine(st, table, line) == (st, [])
  {
    var segs := Segments(line);
    assert forall k :: 0 <= k < |segs| ==> segs[k] in segs;
    LockedSegmentsDoNothing(st, table, segs);
  }

  /** A segment that is empty once trimmed is skipped, and an empty line does nothing. */
  lemma EmptySegmentSkipped(st: TermState, table: seq<Command>, seg: string)
    requires ValidState(st) && forall k :: 0 <= k < |seg| ==> seg[k] == ' '
    ensures ProcessSegment(st, table, seg) == SegmentResult(false, st, None)
    ensures ';' !in seg ==> ProcessLine(st, table, seg) == (st, [])
  {
    var lo, hi := TrimShape(seg);
    if ';' !in seg {
      assert IndexOf(seg, ';') == -1;
      assert Segments(seg) == [seg];
      assert [seg][1..] == [];
      assert ProcessSegments(st, table, [seg], []) == ProcessSegments(st, table, [], []);
    }
  }

  /** A segment that gets past the authentication check runs the first command with its
      name and is recorded, trimmed, at the history index, which advances modulo 10; the
      other history slots keep their text. */
  lemma SegmentRecorded(st: TermState, table: seq<Command>, seg: string)
    requires ValidState(st) && Trim(seg) != []
    requires st.authenticated || Words(Trim(seg))[0] == "LOGIN"
    ensures var r := ProcessSegment(st, table, seg);
      var name := Words(Trim(seg))[0];
      var i := FindCommand(table, name);
      !r.stop
      && r.st.history[st.historyIndex] == Trim(seg)
      && r.st.historyIndex == (st.historyIndex + 1) % HISTORY_SIZE
      && (forall k :: 0 <= k < HISTORY_SIZE && k != st.historyIndex ==> r.st.history[k] == st.history[k])
      && (r.call.Some? <==> i >= 0)
      && (r.call.Some? ==> r.call.value == Call(table[i].handler, Args(Trim(seg))))
  {
    TrimmedHasWord(seg);
  }

  // ---------------------------------------------------------------------------
  // History listing

  /** The slot `terminal_show_history` visits at step `i`: the most recent first. */
  function HistorySlot(index: int, i: int): (slot: int)
    requires 0 <= index < HISTORY_SIZE && 0 <= i < HISTORY_SIZE
    ensures 0 <= slot < HISTORY_SIZE
  {
    (index - i - 1 + HISTORY_SIZE) % HISTORY_SIZE
  }

  /** The numbered lines the first `n` steps print, skipping empty slots. */
  function HistoryLines(history: seq<string>, index: int, n: nat): (lines: seq<(int, string)>)
    requires |history| == HISTORY_SIZE && 0 <= index < HISTORY_SIZE && n <= HISTORY_SIZE
    ensures |lines| <= n
    ensures forall k :: 0 <= k < |lines| ==> lines[k].1 != [] && HISTORY_SIZE - n < lines[k].0 <= HISTORY_SIZE
    ensures forall k :: 0 <= k < |lines| ==> lines[k].1 == history[HistorySlot(index, HISTORY_SIZE - lines[k].0)]
    ensures forall k, l :: 0 <= k < l < |lines| ==> lines[k].0 > lines[l].0
    decreases n
  {
    if n == 0 then []
    else
      var before := HistoryLines(history, index, n - 1);
      var text := history[HistorySlot(index, n - 1)];
      if text != [] then before + [(HISTORY_SIZE - (n - 1), text)] else before
  }

  /** Right after a segment is recorded it is the first line of the listing, numbered 10. */
  lemma RecordedIsListedFirst(history: seq<string>, index: int, command: string)
    requires |history| == HISTORY_SIZE && 0 <= index < HISTORY_SIZE && command != []
    ensures var h := history[index := command];
      var lines := HistoryLines(h, (index + 1) % HISTORY_SIZE, HISTORY_SIZE);
      |lines| >= 1 && lines[0] == (HISTORY_SIZE, command)
  {
    var h := history[index := command];
    var next := (index + 1) % HISTORY_SIZE;
    assert HistorySlot(next, 0) == index;
    FirstLineIsSlotZero(h, next, HISTORY_SIZE);
  }

  lemma {:induction false} FirstLineIsSlotZero(history: seq<string>, index: int, n: nat)
    requires |history| == HISTORY_SIZE && 0 <= index < HISTORY_SIZE && 1 <= n <= HISTORY_SIZE
    requires history[HistorySlot(index, 0)] != []
    ensures var lines := HistoryLines(history, index, n);
      |lines| >= 1 && lines[0] == (HISTORY_SIZE, history[HistorySlot(index, 0)])
    decreases n
  {
    if n > 1 {
      FirstLineIsSlotZero(history, index, n - 1);
    }
  }

  // ---------------------------------------------------------------------------
  // The context

  /** `terminal_context_t`. */
  class TerminalContext {
    var commands: seq<Command>
    var history: array<string>
    var historyIndex: int
    var authenticated: bool
    var vt100: bool

    ghost predicate Valid()
      reads this
    {
      history.Length == HISTORY_SIZE && 0 <= historyIndex < HISTORY_SIZE && |commands| <= MAX_COMMANDS
    }

    function State(): TermState
      reads this, history
    {
      TermState(authenticated, vt100, history[..], historyIndex)
    }

    /** A zero-filled context. */
    constructor ()
      ensures Valid() && fresh(history)
      ensures commands == [] && historyIndex == 0 && !authenticated && !vt100
      ensures forall k :: 0 <= k < HISTORY_SIZE ==> history[k] == []
    {
      commands := [];
      history := new string[HISTORY_SIZE](_ => []);
      historyIndex := 0;
      authenticated := false;
      vt100 := false;
    }

    /** `terminal_init`: no commands, history empty and at slot 0, logged out, VT100 off. */
    method Init()
      requires Valid()
      modifies this`commands, this`historyIndex, this`authenticated, this`vt100, history
      ensures Valid() && history == old(history)
      ensures commands == [] && historyIndex == 0 && !authenticated && !vt100
      ensures forall k :: 0 <= k < HISTORY_SIZE ==> history[k] == []
    {
      var i := 0;
      while i < HISTORY_SIZE
        invariant 0 <= i <= HISTORY_SIZE
        invariant forall k :: 0 <= k < i ==> history[k] == []
      {
        history[i] := [];
        i := i + 1;
      }
      commands := [];
      historyIndex := 0;
      authenticated := false;
      vt100 := false;
    }

    /** `terminal_register_command`: appended while fewer than 20 are registered. */
    method RegisterCommand(name: string, description: string, handler: Cmd.Handler)
      requires Valid()
      modifies this`commands
      ensures Valid()
      ensures commands == if |old(commands)| < MAX_COMMANDS
                          then old(commands) + [Command(name, description, handler)]
                          else old(commands)
    {
      if |commands| < MAX_COMMANDS {
        commands := commands + [Command(name, description, handler)];
      }
    }

    /** The dispatch loop over the command table. */
    method FindCommandIndex(name: string) returns (index: int)
      requires Valid()
      ensures index == FindCommand(commands, name)
    {
      var i := 0;
      while i < |commands|
        invariant 0 <= i <= |commands|
        invariant FindCommand(commands, name) == FindCommand(commands, name, i)
      {
        if commands[i].name == name {
          return i;
        }
        i := i + 1;
      }
      return -1;
    }

    /** One pass of the loop of `terminal_execute_command`, over the segment `seg`. */
    method ExecuteSegment(seg: string) returns (stop: bool, call: Option<Call>)
      requires Valid()
      modifies this`authenticated, this`vt100, this`historyIndex, history
      ensures Valid()
      ensures SegmentResult(stop, State(), call) == ProcessSegment(old(State()), commands, seg)
    {
      ghost var st0 := State();
      stop, call := false, None;
      var command := TrimSpaces(seg);
      if |command| == 0 {
        ProcessSegmentIs(st0, commands, seg, command, [], -1);
        return;
      }
      TrimmedHasWord(seg);
      var argv := Tokenize(command);
      if !authenticated && argv[0] != "LOGIN" {
        ProcessSegmentIs(st0, commands, seg, command, argv, -1);
        stop := true;
        return;
      }
      var i := FindCommandIndex(argv[0]);
      ProcessSegmentIs(st0, commands, seg, command, argv, i);
      call := Dispatch(command, argv, i);
    }

    /** The handler call of a segment whose first word is the name of command `i` (none
        when `i` is -1), then the segment stored in the history. */
    method Dispatch(command: string, argv: seq<string>, i: int) returns (call: Option<Call>)
      requires Valid() && -1 <= i < |commands|
      modifies this`authenticated, this`vt100, this`historyIndex, history
      ensures Valid()
      ensures State() == Record(if i >= 0 then Apply(commands[i].handler, old(State()), argv) else old(State()), command)
      ensures call == if i >= 0 then Some(Call(commands[i].handler, argv)) else None
    {
      ghost var st1 := State();
      call := None;
      if i >= 0 {
        st1 := Apply(commands[i].handler, st1, argv);
        match commands[i].handler {
          case Login => authenticated := Cmd.LoginEffect(authenticated, argv);
          case Logout => authenticated := Cmd.LogoutEffect(authenticated, argv);
          case Vt100 => vt100 := Cmd.Vt100Effect(vt100, argv);
          case _ =>
        }
        call := Some(Call(commands[i].handler, argv));
      }
      assert State() == st1;
      history[historyIndex] := command;
      historyIndex := (historyIndex + 1) % HISTORY_SIZE;
    }

    /** `terminal_execute_command(cmd)`: the context and the handler calls are those
        `ProcessLine` gives for the 127-character copy of `cmd`. */
    method Execute(cmd: string) returns (calls: seq<Call>)
      requires Valid()
      modifies this`authenticated, this`vt100, this`historyIndex, history
      ensures Valid()
      ensures (State(), calls) == ProcessLine(old(State()), commands, CommandBuffer(cmd))
    {
      ghost var goal := ProcessLine(State(), commands, CommandBuffer(cmd));
      var rest := CommandBuffer(cmd);
      var done := false;
      calls := [];
      while !done
        invariant Valid()
        invariant done ==> (State(), calls) == goal
        invariant !done ==> ProcessSegments(State(), commands, Segments(rest), calls) == goal
        decreases |rest|, !done
      {
        done, rest, calls := ExecuteFirst(rest, calls, goal);
      }
    }

    /** The first segment of `rest` (up to the first `;`), executed: either the line is
        finished, or `rest` is left with the text after that `;`. */
    method ExecuteFirst(rest: string, calls: seq<Call>, ghost goal: (TermState, seq<Call>))
      returns (done: bool, rest2: string, calls2: seq<Call>)
      requires Valid() && ProcessSegments(State(), commands, Segments(rest), calls) == goal
      modifies this`authenticated, this`vt100, this`historyIndex, history
      ensures Valid()
      ensures done ==> rest2 == rest && (State(), calls2) == goal
      ensures !done ==> |rest2| < |rest| && ProcessSegments(State(), commands, Segments(rest2), calls2) == goal
    {
      var k := IndexOf(rest, ';');
      var seg := if k >= 0 then rest[..k] else rest;
      ghost var st0 := State();
      var stop, call := ExecuteSegment(seg);
      PassAdvances(st0, commands, rest, calls, goal, k, stop, State(), call);
      calls2 := if call.Some? && !stop then calls + [call.value] else calls;
      done := stop || k < 0;
      rest2 := if done then rest else rest[k + 1..];
    }

    /** `terminal_show_history`: the numbered non-empty entries, most recent first. */
    method ShowHistory() returns (lines: seq<(int, string)>)
      requires Valid()
      ensures lines == HistoryLines(history[..], historyIndex, HISTORY_SIZE)
    {
      ghost var h := history[..];
      lines := [];
      var i := 0;
      while i < HISTORY_SIZE
        invariant 0 <= i <= HISTORY_SIZE
        invariant lines == HistoryLines(h, historyIndex, i)
      {
        var idx := (historyIndex - i - 1 + HISTORY_SIZE) % HISTORY_SIZE;
        assert idx == HistorySlot(historyIndex, i) && history[idx] == h[idx];
        assert HistoryLines(h, historyIndex, i + 1)
               == if h[idx] != [] then lines + [(HISTORY_SIZE - i, h[idx])] else lines;
        if history[idx] != [] {
          lines := lines + [(HISTORY_SIZE - i, history[idx])];
        }
        i := i + 1;
      }
    }
  }
}
