# Raspberry Pi Pico firmware core, modelled in Dafny

This project models the sequential core of a small Raspberry Pi Pico firmware. The
firmware bridges two UARTs, drives an ESP32 AT modem through a command sequence, and
offers a password-protected command terminal over UART0. It runs everything from a
cooperative priority scheduler.

The model covers these parts:

- **Scheduler** (`scheduler.dfy`). The table of at most 10 tasks and the selection of the
  ready task with the highest dynamic priority. Tasks that were not selected are aged. A
  run updates its bookkeeping and the per-task debug statistics. The index of the 2048-byte
  debug buffer wraps, and the buffer is flushed every five seconds.
- **Packet queue** (`circular_buffer.dfy`). 128 slots with a head, a tail and a full flag.
- **UART byte ring** (`byte_ring.dfy`). It is defined identically in `main.c`, `RT.c` and
  `app/task_serial_bridge.c`. It keeps one of its 2048 slots free, so it holds at most
  2047 bytes.
- **Parameter table** (`config.dfy`). Twenty typed entries with range or length
  validation, looked up by key. The defaults come from `secret.c`.
- **Terminal** (`terminal.dfy`). A line is split at `;`. Each segment is trimmed and
  tokenised into at most 10 words. A login gate applies, then dispatch by exact name, then
  a 10-entry history ring.
- **Command handlers** (`cmd.dfy`). LOGIN, LOGOUT, VT100, ALG, TASK, DBG, SET, GET and
  RESET.
- **UART0 receive interrupt** (`task_terminal.dfy`). It assembles lines of at most 127
  characters.
- **AT command pool and stepper** (`command_sequence.dfy`). Also the seven-command Wi-Fi
  sequence of `system/command_sequence.c`.
- **Ten-command start-up sequence** (`at_sequence.dfy`). From `app/task_at_sequence.c`,
  with its task.
- **LED driver** (`led_driver.dfy`). The on/off state and the fade stepper.
- **Debug switches** (`debug.dfy`). The per-task table.
- **Application glue** (`firmware.dfy`). The LED and bridge tasks, the three scheduler
  registrations of `main.c`/`RT.c`, and the serial-bridge task that also feeds the packet
  queue.
- **C library pieces** (`clib.dfy`). Pieces of the C library the code relies on:
  `strncpy` into a fixed buffer, C's truncating `/`, `strtol`/`atoi` on a 32-bit `long`,
  `%d` printing, and ring-buffer windows.

The model has these general conventions:

- Time is an integer count of microseconds passed in by the caller.
- A task body is opaque: only its measured duration enters the model.
- Whether a UART can be written is a boolean input.
- Strings are C strings: the text before the first NUL.
- Classes stand for the C globals and structs that the code updates in place. Their
  methods are proved against specification functions, for example `Select`, `Aged`,
  `SetSpec`, `ProcessLine`, `HandleChars`, `Step` and `FadeStep`. The properties are then
  proved about those functions as lemmas.

## Model

| member | source | states |
|---|---|---|
| CLib.CStr | system/terminal.c:29 | The string a `char *` designates is the longest NUL-free prefix; it stops exactly at the first NUL |
| CLib.CStrOfPlain | system/terminal.c:29 | A string without NUL is read whole |
| CLib.CStrStopsAtNul | app/task_terminal.c:31-32 | A NUL written after a text hides whatever follows it |
| CLib.Truncate | system/terminal.c:32-33 | The first `n` characters, or all of a shorter text |
| CLib.BoundedCopy | system/command_sequence.c:18-19 | `strncpy` of `size - 1` plus a final NUL: at most `size - 1` characters, a prefix of the source's C string, the whole of it when it fits |
| CLib.CDiv | system/scheduler_core.c:144 | C division truncates toward zero: the magnitude is the quotient of the magnitudes and the sign follows the operands' signs |
| CLib.SkipSpaces | app/terminal/cmd.c:184 | The first index from `i` that is not white space; everything skipped is white space |
| CLib.SkipDigits | app/terminal/cmd.c:184 | The first index from `i` that is not a digit; everything skipped is a digit |
| CLib.ClampLong | app/terminal/cmd.c:184 | `strtol` saturates at the bounds of a 32-bit `long` and keeps values inside them |
| CLib.Strtol | app/terminal/cmd.c:184-185 | The end pointer stays within the text, the value within 32 bits, and nothing read means value 0 |
| CLib.NatToDecimal | app/task_at_sequence.c:24 | `%d` of a natural number is a non-empty run of digits |
| CLib.IntToDecimal | app/task_at_sequence.c:24 | `%d` of an integer is non-empty |
| CLib.DecimalRoundTrip | app/task_at_sequence.c:24 | Reading back the digits `%d` prints gives the number |
| CLib.StrtolReadsDecimal | app/terminal/cmd.c:184-185 | `strtol` reads any printed 32-bit integer entirely, with its value, so the INT check of `cmd_set` accepts it |
| CLib.StrtolWholeToken | app/terminal/cmd.c:184-185 | A token `strtol` consumes entirely is white space, an optional sign, then only digits |
| CLib.Window | system/circular_buffer.c:10-28 | The wrapped window of `n` ring slots from `start` has length `n` |
| CLib.WindowAt | system/circular_buffer.c:14-15 | Element `k` of a window is the slot `start + k` taken modulo the ring size |
| CLib.WindowPush | system/circular_buffer.c:14-15 | Writing the slot just past a window extends that window by the written element |
| CLib.WindowPop | system/circular_buffer.c:24-25 | Advancing the start of a window drops its first element, the one at `start` |
| Scheduler.Scan | system/scheduler_core.c:69-82 | The running maximum of the first loop: -1 only when no eligible task has a priority of at least 0; otherwise an eligible task with the largest priority, strictly above every earlier eligible one |
| Scheduler.SelectIsBest | system/scheduler_core.c:68-91 | The selected index is exactly the first eligible task of maximal, non-negative dynamic priority, or -1 when there is none (both directions) |
| Scheduler.SelectedIsReady | system/scheduler_core.c:73-77 | The selected task has a function, has waited its interval and has priority at least 0; no task with a negative priority is ever chosen |
| Scheduler.Aged | system/scheduler_core.c:85-89 | Every registered task other than the selected one gains 1 in dynamic priority, ineligible ones included; nothing else changes |
| Scheduler.RecordAllSummary | system/scheduler_core.c:138-143 | After a series of runs the count grows by their number and the total by their sum; the maximum never decreases, bounds every run time and is one of them or the old maximum |
| Scheduler.Average | system/scheduler_core.c:144 | The average is total divided by count and truncated toward zero: `abs(avg) * count <= abs(total) < (abs(avg) + 1) * count`, and it has the sign of the total |
| Scheduler.AdvanceIndex | system/scheduler_core.c:36-38 | The debug index stays in [0, 2048); a non-positive length leaves it, a positive one advances it by that length modulo 2048 |
| Scheduler.AdvanceAll | system/scheduler_core.c:30-38 | After any number of messages the debug index stays in [0, 2048) |
| Scheduler.AdvanceAllSnoc | system/scheduler_core.c:36-38 | One more message advances the index reached by the earlier ones by its own length |
| Scheduler.AdvanceAllEmpty | system/scheduler_core.c:36 | Messages of non-positive length leave the index where it was |
| Scheduler.NoDeadlineMessage | system/scheduler_core.c:125-135 | With a non-negative interval the DEADLINE MISSED message is never produced, and a debug-enabled run adds exactly four messages |
| Scheduler.Scheduler.constructor | system/scheduler_core.c:18-27 | No task, debug off for every task, zero statistics and a zero debug index |
| Scheduler.Scheduler.AddTask | system/scheduler_core.c:52-65 | Below 10 tasks the new task fills slot `task_count` with `dynamic_priority = priority`, `total_time = 0` and `last_execution = now`, and the count grows by one; at 10 nothing changes |
| Scheduler.Scheduler.FindHighestPriorityTask | system/scheduler_core.c:68-92 | Returns the index `Select` gives, between -1 and `task_count - 1`, and leaves the table aged as `Aged` describes |
| Scheduler.Scheduler.SetDebugForTask | system/scheduler_core.c:95-99 | Sets the flag of an index in [0, 10) and ignores any other index |
| Scheduler.Scheduler.DebugBufferAdd | system/scheduler_core.c:30-39 | The index moves as `AdvanceIndex` prescribes for the length `vsnprintf` returned |
| Scheduler.Scheduler.DebugBufferFlush | system/scheduler_core.c:42-49 | Flushes exactly when 5 000 000 us have passed since the last flush; a flush zeroes the index and restarts the clock, otherwise nothing changes |
| Scheduler.Scheduler.RunTask | system/scheduler_core.c:109-157 | Only task `i` changes: total time grows by the run time, last execution becomes the sampled time and the dynamic priority returns to the base priority. With debug on, the statistics and index advance by the run's messages, and a deadline is reported only for a negative interval. With debug off, statistics and index are untouched |
| Scheduler.Scheduler.LogRun | system/scheduler_core.c:131-157 | The deadline test, the statistics update of task `i` and the index after the run's messages |
| Scheduler.Scheduler.RecordStats | system/scheduler_core.c:138-144 | Only slot `i` of the statistics changes: the maximum rises to the run time if it is larger, the total grows by it and the count by one |
| Scheduler.Scheduler.LogReport | system/scheduler_core.c:133-156 | The debug index after the optional DEADLINE MISSED line and the four report lines, each advancing it as `debug_buffer_add` does |
| Scheduler.Scheduler.Log | system/scheduler_core.c:134-156 | Each `debug_buffer_add` call extends the logged message sequence by one |
| Scheduler.Scheduler.StartRun | system/scheduler_core.c:103 | The flush clock starts at the given time |
| Scheduler.Scheduler.Iterate | system/scheduler_core.c:105-165 | One loop iteration selects by `Select`. Without a ready task the table is only aged and the statistics kept. Otherwise the other registered tasks are aged and the run task gains its run time, takes `currentTime` as last execution and returns to its base priority; with debugging on its statistics take `RecordRun` and the debug index advances over the run's messages. The flush happens exactly when 5 000 000 us have passed since the last one and resets the index; otherwise the flush time is kept |
| CircularBuffer.CircularBuffer.Count | system/circular_buffer.c:10-36 | The number of queued packets never exceeds 128 |
| CircularBuffer.CircularBuffer.Contents | system/circular_buffer.h:6 | The queued packets, oldest first, as many as `Count` |
| CircularBuffer.CircularBuffer.constructor | system/circular_buffer.c:4-8 | Head and tail at 0 and not full |
| CircularBuffer.CircularBuffer.Init | system/circular_buffer.c:4-8 | The queue is empty and not full; the storage is untouched |
| CircularBuffer.CircularBuffer.Enqueue | system/circular_buffer.c:10-18 | Refused with no change exactly when full (128 queued). Otherwise it stores at `head`, advances `head` mod 128, sets `full` exactly when `head == tail`, and appends the packet to the FIFO contents |
| CircularBuffer.CircularBuffer.Dequeue | system/circular_buffer.c:20-28 | Refused with no change exactly when empty. Otherwise it yields the oldest packet `buffer[tail]`, advances `tail` mod 128 and clears `full`; the contents lose their first element |
| CircularBuffer.CircularBuffer.IsEmpty | system/circular_buffer.c:30-32 | True exactly when no packet is queued |
| CircularBuffer.CircularBuffer.IsFull | system/circular_buffer.c:34-36 | True exactly when 128 packets are queued |
| ByteRing.ByteRing.Count | main.c:11-16 | At most 2047 bytes wait (the copies in RT.c and app/task_serial_bridge.c are identical) |
| ByteRing.ByteRing.Contents | main.c:14-16 | The waiting bytes, oldest first |
| ByteRing.ByteRing.constructor | main.c:14-16 | Empty ring with head and tail at 0 |
| ByteRing.ByteRing.Put | main.c:19-25 | Stores and advances `head` mod 2048 exactly when `(head + 1) % 2048 != tail`, appending the byte; otherwise the byte is dropped and nothing changes (also RT.c:34-40, app/task_serial_bridge.c:24-30) |
| ByteRing.ByteRing.Get | main.c:28-35 | `None` (result 0) with nothing changed exactly when `head == tail`. Otherwise it returns the oldest byte `buffer[tail]` and advances `tail`, dropping that byte from the contents (also RT.c:43-50, app/task_serial_bridge.c:33-40) |
| ByteRing.ByteRing.DrainToUart0 | main.c:55-62 | A byte leaves exactly when UART0 is writable and the ring is not empty; it is the oldest byte (also RT.c:70-77, app/task_serial_bridge.c:82-89) |
| ByteRing.PutGetInOrder | main.c:19-35 | Two bytes put into an empty ring come out in the order they went in, and the ring is empty again |
| Config.ValidateParam | system/config.c:23-42 | INT is valid exactly when `min <= value <= max`; STRING exactly when `0 < strlen < 64`; FLOAT by the given comparison; any other type is invalid |
| Config.FirstKey | system/config.c:46-47 | The first entry with the key, or -1 exactly when no entry has it |
| Config.Stored | system/config.c:78-88 | A string is stored as `strncpy` into 64 bytes leaves it (at most 63 characters); other values unchanged |
| Config.DefaultParams | secret.c:7-14 | The default table has 20 entries |
| Config.DefaultsShape | secret.c:7-14 | Every default is well typed; keys 1 to 5 are in slots 0 to 4; the other slots are zero entries (key 0, INT, range {0, 0}), the first at slot 5 |
| Config.DefaultsValid | secret.c:8-12 | The default 42 lies in [0, 100], and "marrow" and "default" are valid strings |
| Config.SetSpec | system/config.c:45-99 | The table keeps its length |
| Config.SetSpecCases | system/config.c:45-99 | -1 when the key is missing or the type differs or is unsupported; -2 when the value is invalid; 0 on success. Any failure leaves the table unchanged; success changes only the first entry with the key, and only its value |
| Config.SetIntInRange | system/config.c:56-65 | On an INT entry the result is 0 exactly when the value is in range, and the entry's value then becomes it; otherwise -2 with no change |
| Config.SetString | system/config.c:78-89 | A STRING is stored truncated to 63 characters; an empty string gives -2 and stores nothing |
| Config.SetThenGet | system/config.c:102-110 | After a successful set, get with the same key finds the same slot holding the stored value |
| Config.SetKeepsWellTyped | system/config.c:45-99 | Setting keeps every entry well typed |
| Config.ParamTable.constructor | system/config.c:7 | The global table starts zero-filled |
| Config.ParamTable.ResetToDefaults | system/config.c:13-15 | The table becomes the defaults (also `reset_params_to_defaults`, system/config.c:113-115) |
| Config.ParamTable.SetParam | system/config.c:45-99 | The result code and the new table are those `SetSpec` gives |
| Config.ParamTable.GetParam | system/config.c:102-110 | A copy of the first entry with the key, or `None` (result -1) exactly when no entry has it; the table is not modified |
| Debug.DebugFlags.constructor | system/debug.c:8 | Every flag starts false |
| Debug.DebugFlags.IsEnabled | system/debug.c:27-32 | The stored flag for an id in [0, 10), false for any other id |
| Debug.DebugFlags.Enable | system/debug.c:11-16 | The flag of an in-range id becomes true; no other id's flag changes; out-of-range ids change nothing |
| Debug.DebugFlags.Disable | system/debug.c:19-24 | The flag becomes false; no other id's flag changes; out-of-range ids change nothing |
| Cmd.LoginEffect | app/terminal/cmd.c:26-36 | Authenticated afterwards exactly when already so or `argv[1]` is exactly "1234"; with fewer than 2 arguments the state is unchanged |
| Cmd.LogoutEffect | app/terminal/cmd.c:39-41 | Never authenticated afterwards |
| Cmd.Vt100Effect | app/terminal/cmd.c:103-118 | EN enables, DI disables, anything else or a missing argument leaves the flag |
| Cmd.SetSchedulerChoice | app/terminal/cmd.c:126-151 | An algorithm is chosen only when `argv[1]` is its name; `None` (no scheduler call) for a missing or unknown name |
| Cmd.SetSchedulerNames | app/terminal/cmd.c:134-143 | Each of the five names selects its own algorithm, so the mapping is one to one |
| Cmd.TasksCall | app/terminal/cmd.c:55-100 | PS needs the subcommand, PRIO at least 4 arguments, HOLD and RUN at least 3 (both directions); the task id and priority are `atoi` of their arguments; anything else makes no call |
| Cmd.DebugTaskCall | app/terminal/cmd.c:154-168 | A call exactly when there are at least 3 arguments and the state is EN or DI, for the task `atoi(argv[1])` |
| Cmd.CmdDebugTask | app/terminal/cmd.c:154-168 | The debug table changes as `DebugTaskCall` asks, through `debug_enable_task` or `debug_disable_task` |
| Cmd.KeptCount | app/terminal/cmd.c:204-208 | The join keeps words up to the first one that does not fit (`len + strlen + 1 >= 64`), and all of them when every word fits |
| Cmd.ConcatBound | app/terminal/cmd.c:205-213 | The text built from words that fit never exceeds 63 characters |
| Cmd.JoinedBound | app/terminal/cmd.c:199-217 | The joined STRING value always fits the 64-byte buffer |
| Cmd.ConcatIsJoin | app/terminal/cmd.c:209-214 | Appending every word with a space between consecutive words gives the words joined by single spaces |
| Cmd.JoinedWhenShort | app/terminal/cmd.c:204-215 | When every word fits, the value is exactly the words joined by single spaces |
| Cmd.JoinArgs | app/terminal/cmd.c:199-217 | The join loop keeps `KeptCount` words, builds `Joined`, and stays under 64 characters |
| Cmd.ReplyFor | app/terminal/cmd.c:223-229 | 0 means success, -2 out of range, any other code failure |
| Cmd.CmdSet | app/terminal/cmd.c:171-230 | Fewer than 4 arguments, an INT token not wholly numeric, an unparsable FLOAT or an unknown type give their error and leave the table. A valid INT, FLOAT or the joined STRING goes to `set_param` for key `atoi(argv[1])`, and the reply maps its code |
| Cmd.CmdGet | app/terminal/cmd.c:277-304 | Usage error exactly when the key is missing; otherwise the first entry with key `atoi(argv[1])`, or not found; the table is only read |
| Cmd.CmdReset | app/terminal/cmd.c:307-310 | The table becomes the defaults |
| Terminal.SkipChar | system/terminal.c:47 | The first index from `i` that is not `c`; everything skipped is `c` |
| Terminal.SkipUntil | system/terminal.c:40 | The first index from `i` holding `c`, or the end; nothing skipped is `c` |
| Terminal.IndexOf | system/terminal.c:40 | `strchr`: the first `c`, or -1 exactly when there is none |
| Terminal.Segments | system/terminal.c:38-44 | A line always yields at least one segment |
| Terminal.SegmentsHaveNoSemicolon | system/terminal.c:40-43 | No segment holds a `;` |
| Terminal.SegmentsJoin | system/terminal.c:38-44 | Joining the segments back with `;` gives the line: splitting loses nothing |
| Terminal.SegmentsStep | system/terminal.c:40-43 | The first segment ends at the first `;` and the rest are the segments of what follows |
| Terminal.TrimEnd | system/terminal.c:48-52 | The trailing-space loop stops after the last non-space, never before the start |
| Terminal.TrimShape | system/terminal.c:47-52 | The trimmed segment lies between a run of leading and a run of trailing spaces and neither starts nor ends with a space; it is empty only when the segment is all spaces |
| Terminal.TrimIdempotent | system/terminal.c:47-52 | Trimming twice is trimming once |
| Terminal.TrimSpaces | system/terminal.c:47-52 | The pointer loops compute `Trim` |
| Terminal.Take | system/terminal.c:62 | The first `n` elements, or all of a shorter sequence |
| Terminal.WordsFromAreWords | system/terminal.c:61-65 | Every token `strtok` returns is non-empty and holds no space |
| Terminal.TrimmedHasWord | system/terminal.c:55-67 | A segment that is non-empty after trimming has at least one token, so the "empty command" branch is never taken |
| Terminal.WordsOfJoin | system/terminal.c:61-65 | Tokenising words joined by single spaces gives back the words |
| Terminal.Tokenize | system/terminal.c:59-65 | The `strtok` loop yields the first at most 10 tokens |
| Terminal.FindCommand | system/terminal.c:76-82 | The first entry whose name equals the token exactly, or -1 exactly when none does |
| Terminal.Apply | app/terminal/cmd.c:26-118 | Handlers never touch the history; only LOGIN, LOGOUT and VT100 change the context |
| Terminal.Record | system/terminal.c:91-93 | Recording keeps ten history slots and the history index in [0, 10) |
| Terminal.ProcessSegment | system/terminal.c:46-96 | One segment keeps the context well formed |
| Terminal.ProcessSegments | system/terminal.c:38-98 | Processing segments keeps the context well formed and adds at most one handler call per segment to those already made |
| Terminal.CommandBuffer | system/terminal.c:32-33 | The working copy of the input has at most 127 characters and no NUL |
| Terminal.LockedSegmentsDoNothing | system/terminal.c:70-73 | When logged out, segments none of which starts with LOGIN run no handler and change nothing |
| Terminal.LockedLineDoesNothing | system/terminal.c:70-73 | When logged out, a line none of whose segments starts with LOGIN runs no handler and leaves the context and history unchanged |
| Terminal.EmptySegmentSkipped | system/terminal.c:55 | An all-space segment is skipped without recording; an all-space line does nothing |
| Terminal.SegmentRecorded | system/terminal.c:76-93 | A segment past the gate dispatches to the first entry with its first token, is stored trimmed at the history index, which advances mod 10, and leaves the other slots as they were |
| Terminal.HistorySlot | system/terminal.c:111 | The visited slot is always in [0, 10) |
| Terminal.HistoryLines | system/terminal.c:108-118 | Only non-empty slots are listed, each with the text of the slot its number designates, numbers strictly decreasing from the most recent |
| Terminal.RecordedIsListedFirst | system/terminal.c:91-93 | Right after a segment is recorded it is the first history line, numbered 10 |
| Terminal.FirstLineIsSlotZero | system/terminal.c:110-116 | When the most recent slot is non-empty it is listed first, numbered 10 |
| Terminal.TerminalContext.constructor | system/terminal.h:28-35 | A zero-filled context: no commands, history empty and at slot 0, logged out, VT100 off |
| Terminal.TerminalContext.Init | system/terminal.c:7-13 | No commands, history index 0, logged out, VT100 off, every history slot empty |
| Terminal.TerminalContext.RegisterCommand | system/terminal.c:17-23 | Appends while fewer than 20 commands are registered; otherwise the table is unchanged |
| Terminal.TerminalContext.FindCommandIndex | system/terminal.c:76-82 | The loop finds the index `FindCommand` gives |
| Terminal.TerminalContext.ExecuteSegment | system/terminal.c:39-96 | One loop pass changes the context and makes the call as `ProcessSegment` says |
| Terminal.TerminalContext.Dispatch | system/terminal.c:75-93 | The handler of command `i` changes the context and is called with the words; no call for an unknown name; the segment then goes into the current history slot and the index moves on modulo 10 |
| Terminal.TerminalContext.Execute | system/terminal.c:27-104 | The new context and handler calls are those `ProcessLine` gives on the 127-character copy of the input |
| Terminal.TerminalContext.ExecuteFirst | system/terminal.c:38-98 | One pass of the do-while: either the line is finished with the context and calls `ProcessLine` promises, or the text after the first `;` is strictly shorter and still leads there |
| Terminal.TerminalContext.ShowHistory | system/terminal.c:108-118 | The listed lines are `HistoryLines` over all ten slots |
| TerminalTask.Feed | app/task_terminal.c:30-39 | The collected line always stays under 128 characters, so the buffer is never overrun |
| TerminalTask.FeedCases | app/task_terminal.c:30-39 | A line end hands over exactly the collected characters and restarts; another character is kept while fewer than 127 are held; otherwise the line is discarded |
| TerminalTask.FeedAll | app/task_terminal.c:24-40 | After any input the collected line stays under 128 characters |
| TerminalTask.Pieces | app/task_terminal.c:30 | A text cut at its line ends has at least one piece |
| TerminalTask.FeedAllAtLineEnd | app/task_terminal.c:30-33 | At a line end the collected line is handed over first, and the rest of the input starts from an empty line |
| TerminalTask.FeedAllKeeps | app/task_terminal.c:34-35 | A non-line-end character that fits is appended and the rest goes on from there |
| TerminalTask.FeedAllIsPieces | app/task_terminal.c:24-40 | While no line exceeds 127 characters, the lines handed over are exactly the text between line ends, and the unfinished last piece stays collected |
| TerminalTask.ProcessLines | system/terminal.c:27-104 | Running lines in order keeps the context well formed and only adds calls |
| TerminalTask.HandleCharsIsFeedThenLines | app/task_terminal.c:23-41 | The interrupt is line assembly followed by the terminal running the handed-over lines in order |
| TerminalTask.HandleCharsStep | app/task_terminal.c:24-39 | One character of the interrupt, then the rest |
| TerminalTask.CrLfActsOnce | app/task_terminal.c:30-33 | A "\r\n" pair acts like a lone "\r": the empty second line changes nothing |
| TerminalTask.LineInBuffer | app/task_terminal.c:31-32 | The NUL after the collected line makes the terminal read exactly that line |
| TerminalTask.UartTerminal.Pending | app/task_terminal.c:18-19 | The collected line is under 128 characters |
| TerminalTask.UartTerminal.constructor | app/task_terminal.c:18-20 | Zero index and nothing collected |
| TerminalTask.UartTerminal.HandleIrq | app/task_terminal.c:23-41 | The collected line, the terminal context and the handler calls are those `HandleChars` gives |
| CommandSequence.Stored | system/command_sequence.c:16-21 | A node keeps state, message and next state, and the command cut to 255 characters (whole when shorter) |
| CommandSequence.StoreAll | system/command_sequence.c:16-21 | Storing a sequence stores each command |
| CommandSequence.Chain | system/command_sequence.c:31-38 | The commands along the linked list, in list order |
| CommandSequence.FindState | system/command_sequence.c:73-74 | The first command whose state matches, or -1 exactly when none does |
| CommandSequence.StepCases | system/command_sequence.c:73-88 | The first matching command is used. When UART1 is writable the state becomes its next state and the counter grows exactly when its text is non-empty; otherwise nothing changes |
| CommandSequence.NoCommandNoStep | system/command_sequence.c:73-89 | A state no command belongs to (for example IDLE) leaves state and counter unchanged |
| CommandSequence.RunChain | system/command_sequence.c:67-90 | Along a chain of distinct states with non-empty texts, writable calls reach the last state, counting one per command |
| CommandSequence.RunStuck | system/command_sequence.c:67-90 | A state no command belongs to stays put however many calls follow |
| CommandSequence.BoundedCopyNotEmpty | system/command_sequence.c:18-19 | A text starting with a non-NUL character keeps that first character when copied |
| CommandSequence.SevenTable | system/command_sequence.c:48-64 | The sequence has seven commands |
| CommandSequence.SevenTexts | system/command_sequence.c:48-64 | Seven texts, the formatted ones cut to their 256-byte buffers |
| CommandSequence.SevenCommands | system/command_sequence.c:48-64 | Seven commands |
| CommandSequence.StoreAllChained | system/command_sequence.c:16-21 | Storing keeps a linked chain of distinct states with non-empty texts |
| CommandSequence.SevenTableShape | system/command_sequence.c:48-64 | READY, GMR, CWMODE, CWLAP_SSID, WIFI_CONNECT, LIST_AP, IP in order, each leading to the next and the last to IDLE |
| CommandSequence.SevenTextsStart | system/command_sequence.c:54-59 | Every one of the seven texts starts with a non-NUL character |
| CommandSequence.SevenChained | system/command_sequence.c:42-65 | The stored seven commands form a chain from READY to IDLE with non-empty texts |
| CommandSequence.SevenStepsReachIdle | system/command_sequence.c:42-90 | With UART1 always writable, seven calls from READY reach IDLE with the counter up by seven; from IDLE nothing changes |
| CommandSequence.CommandPool.Commands | system/command_sequence.c:26-40 | One command per node on the list |
| CommandSequence.CommandPool.constructor | system/command_sequence.c:8-9 | An empty pool and an empty list |
| CommandSequence.CommandPool.CreateNode | system/command_sequence.c:11-24 | NULL exactly when 10 nodes exist, with nothing changed; otherwise the next slot holds the stored command with `next` NULL and the count grows by one |
| CommandSequence.CommandPool.Append | system/command_sequence.c:26-40 | A NULL node leaves the list unchanged; otherwise the node is added at the tail, and the list's commands gain its command |
| CommandSequence.CommandPool.LinkAtTail | system/command_sequence.c:33-39 | The last node of a non-empty list gets the new node as successor: the list gains that node and its command |
| CommandSequence.CommandPool.Tail | system/command_sequence.c:34-37 | The walk along `next` from the head stops at the last node of the list |
| CommandSequence.CommandPool.AppendNew | system/command_sequence.c:48 | Append of a created node: the stored command is added while the pool has room, otherwise nothing |
| CommandSequence.CommandPool.AppendNext | system/command_sequence.c:48-64 | One more append of a sequence extends the stored prefix |
| CommandSequence.CommandPool.AppendTwo | system/command_sequence.c:48-50 | Two appends in a row extend the stored prefix by two |
| CommandSequence.CommandPool.AppendThree | system/command_sequence.c:60-64 | Three appends in a row extend the stored prefix by three |
| CommandSequence.CommandPool.AppendFour | system/command_sequence.c:48-64 | Four appends in a row extend the stored prefix by four |
| CommandSequence.CommandPool.InitializeSeven | system/command_sequence.c:42-65 | A NULL config appends nothing; otherwise the list gains the seven stored commands, as many as the pool has room for |
| CommandSequence.CommandPool.AppendSeven | system/command_sequence.c:48-64 | Seven appends add the stored commands in order, as many as the pool has room for |
| CommandSequence.CommandPool.Process | system/command_sequence.c:67-90 | State and counter after the call are those `Step` gives on the list's commands |
| AtSequence.TenTable | app/task_at_sequence.c:25-53 | The sequence has ten commands |
| AtSequence.TenTexts | app/task_at_sequence.c:23-53 | Ten texts, the formatted ones cut to their buffers (8, 128, 128, 512 and 128 bytes) |
| AtSequence.TenCommands | app/task_at_sequence.c:25-53 | Ten commands |
| AtSequence.TenTableShape | app/task_at_sequence.c:25-53 | RST, READY, GMR, CWMODE, CWLAP_SSID, WIFI_CONNECT, LIST_AP, IP, MQTT_CONFIG, MQTT_CON in order, each leading to the next, the last to IDLE |
| AtSequence.TenTextsStart | app/task_at_sequence.c:23-53 | Every one of the ten texts starts with a non-NUL character |
| AtSequence.TenChained | app/task_at_sequence.c:17-55 | The stored ten commands form a chain from RST to IDLE with non-empty texts |
| AtSequence.TenStepsReachIdle | app/task_at_sequence.c:14 | With UART1 always writable, ten calls from RST reach IDLE with ten commands counted; later calls change nothing |
| AtSequence.CopiedTwice | app/task_at_sequence.c:33-35 | Formatting into a buffer and storing in a node keeps the text cut to the smaller of the two sizes |
| AtSequence.CwlapBounded | app/task_at_sequence.c:33-35 | The stored CWLAP command is `AT+CWLAP="ssid"\r\n` cut to 127 characters |
| AtSequence.CwjapBounded | app/task_at_sequence.c:37-39 | The stored CWJAP command embeds ssid and password, cut to 127 characters |
| AtSequence.MqttConfigCut | app/task_at_sequence.c:45-48 | Only the first 255 characters of the MQTT user configuration reach the node, although its buffer holds 511 |
| AtSequence.TenStored | app/task_at_sequence.c:25-53 | Each node keeps its command's text cut to 255 characters |
| AtSequence.InitializeTen | app/task_at_sequence.c:17-55 | A NULL config appends nothing; otherwise the list gains the ten stored commands, as many as the pool has room for |
| AtSequence.AppendTen | app/task_at_sequence.c:25-53 | Ten appends add the stored commands in order, as many as the pool has room for, on the same node array |
| AtSequence.AtTask.constructor | app/task_at_sequence.c:13-15 | An empty list, the state RST and a zero counter |
| AtSequence.AtTask.Init | app/task_at_sequence.c:57-64 | Builds the ten-command list as `InitializeTen` does |
| AtSequence.AtTask.Tick | app/task_at_sequence.c:68-70 | One `Step` of the state and counter over the list |
| AtSequence.StartUp | app/task_at_sequence.c:13-64 | A fresh task holds all ten commands, exactly filling the pool of 10, in state RST with a zero counter |
| LedDriver.FadeStep | platform/driver_led.c:57-72 | Without a fade nothing changes; at the target the fade ends; otherwise the level moves one step toward the target, which never changes |
| LedDriver.FadeStepInRange | platform/driver_led.c:59-66 | A step keeps the level within [0, 255] |
| LedDriver.StepsInRange | platform/driver_led.c:57-72 | Any number of steps keeps the level within [0, 255] |
| LedDriver.StepsWhenEnded | platform/driver_led.c:58 | Once the fade has ended, further steps change nothing |
| LedDriver.FadeEnds | platform/driver_led.c:57-72 | A fade ends after its distance plus one steps, resting on its target |
| LedDriver.FadeEndsWithin256 | platform/driver_led.c:41-72 | Every fade within range is over after at most 256 reached-timer steps |
| LedDriver.DriverLed.constructor | platform/driver_led.h:17-34 | A zero-filled driver: off, no fade |
| LedDriver.DriverLed.Init | platform/driver_led.c:7-19 | Records the pin, switches off and stops any fade, leaving the other fade fields |
| LedDriver.DriverLed.On | platform/driver_led.c:21-25 | The LED is on |
| LedDriver.DriverLed.Off | platform/driver_led.c:27-31 | The LED is off |
| LedDriver.DriverLed.Toggle | platform/driver_led.c:33-39 | The state flips |
| LedDriver.DriverLed.FadeIn | platform/driver_led.c:41-47 | Level 0, target 255, in progress; step time `duration / 255`, and the timer one step time (in ms) from now |
| LedDriver.DriverLed.FadeOut | platform/driver_led.c:49-55 | Level 255, target 0, in progress; the same step time and timer |
| LedDriver.DriverLed.ProcessFade | platform/driver_led.c:57-72 | Nothing changes unless a fade is in progress and its timer is reached; then the fade fields become `FadeStep` of the old ones, the timer re-arms only when the level moved, and the on/off state is untouched |
| LedDriver.ToggleTwice | platform/driver_led.c:33-39 | Two toggles restore the LED state |
| Firmware.Board.constructor | main.c:14-16 | The LED flag off and an empty byte ring |
| Firmware.Board.Task0 | main.c:47-50 | `task_0` flips the LED flag and leaves the ring (also RT.c:62-65) |
| Firmware.Board.Task1 | RT.c:70-77 | The drain of `task_1` sends at most one byte, the oldest, only when UART0 is writable (also main.c:55-62) |
| Firmware.Task0Twice | main.c:47-50 | Two runs of `task_0` restore the LED flag |
| Firmware.MainTasks | main.c:104-106 | Three tasks with functions, dynamic priority equal to priority, registered now, no run time |
| Firmware.RegisterTasks | RT.c:141-143 | The three registrations fill slots 0 to 2 with "led" (2, 500000 us), "uart bridge" (1, 1000 us) and "cmd seq" (3, 5000000 us) |
| Firmware.CmdSeqSelectedFirst | main.c:104-106 | Once all three tasks are ready with undecayed priorities, "cmd seq" (index 2) is selected; before 1 ms none is |
| Firmware.OnlyBridgeReady | main.c:104-106 | Between 1 ms and 0.5 s only the bridge task is ready and it is selected despite its lowest priority |
| Firmware.SerialBridge.constructor | app/task_serial_bridge.c:16-21 | Both the byte ring and the packet queue start empty (`circular_buffer_init` at line 65) |
| Firmware.SerialBridge.Task | app/task_serial_bridge.c:74-89 | The packet is queued exactly when fewer than 128 are queued, else dropped; then at most one byte, the oldest, leaves the ring when UART0 is writable |
| Firmware.BridgeQueueSaturates | app/task_serial_bridge.c:74-80 | Nothing dequeues the packet queue: from empty, exactly the first 128 calls queue their packet, and the queue holds those packets in order |

## Left out

- Hardware is not modelled: UART set-up and I/O, GPIO, PWM level writes, IRQ registration,
  the watchdog reboot and the flash driver. The model does not cover `main`'s set-up, the
  initialisation in `init.c`, or `platform/hardware.c`, `system/IO.c` and
  `app/task_led.c`. UART readiness and `time_reached` are boolean or time inputs.
- Concurrency is not modelled. The byte ring's `head`/`tail` are `volatile` and shared
  with the UART1 receive interrupt, and the terminal runs from the UART0 interrupt. Every
  operation is a single-threaded step.
- The interrupt and bridge tasks have parts that are not modelled: the character echo of
  the UART0 interrupt, and the second half of `task_1` and `task_serial_bridge`, which
  copies one byte from UART0 to UART1.
- Output text is not modelled: `printf`, the `snprintf` message texts, VT100 colour codes
  and the text `vsnprintf` writes into the debug buffer. Only the length `vsnprintf`
  returns enters, as the caller-supplied function `msgLen`.
- The format at system/scheduler_core.c:147 passes the task name where its first `%lld`
  expects a number. This only affects formatting, which is not modelled.
- Floating point is not modelled. Float parameters are opaque bit patterns. The FLOAT
  comparison of `validate_param` is the caller-supplied `floatLe`, and `strtof` in
  `cmd_set` is the caller-supplied `parseFloat`. The CPU-usage percentages of
  `scheduler_run` and the SRAM/flash percentages of `cmd_list` are left out.
- The scheduler API that `system/scheduler.h` declares but no shown file implements is
  not modelled: priority change, pause/resume, `scheduler_set_algorithm`, the five
  algorithms, statistics, jitter and stack estimates. `Cmd.TasksCall` and
  `Cmd.SetSchedulerChoice` only say which call the handler makes.
- `scheduler_add_task` returns `void` in system/scheduler_core.c, while the header
  declares an error code. The model follows the code.
- The initcall registration (system/initcalls.c) is not modelled. It relies on
  constructor attributes whose execution order the code does not fix.
- Several commands are not modelled: app/commands.c (an older handler set) and the
  printing-only commands HELP, HISTORY, PS, REBOOT and LIST. Flash save/load and
  `flash_storage_get_free_space` are not modelled either.
- `debug.c` uses `MAX_TASKS` without defining it in the shown headers. The model takes 10,
  the value in system/scheduler_core.c.
- Scheduler.Scheduler.RunTask: `dynamic_priority`, `total_time`, the execution count and
  the totals are unbounded integers. The 32-bit and 64-bit wrap-around after very long
  uptimes is not modelled.
- LedDriver.DriverLed.FadeIn: the timer is an unbounded microsecond count, and
  `make_timeout_time_ms` is taken as now plus the step time times 1000.
- Strings are sequences of characters. Byte encodings are not modelled.
- The AT state enum of system/command_sequence.h lacks SEND_RST, MQTT_CONFIG and
  MQTT_CON, which app/task_at_sequence.c uses. The model extends the datatype with them.
