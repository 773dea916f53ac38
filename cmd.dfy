/** The command handlers of app/terminal/cmd.c, with their printed messages left out:
    the argument checks, the password test, the name-to-enum mapping of the scheduler
    algorithm, the calls they make into the scheduler, the debug flags and the parameter
    table, and the bounded join of a STRING value. `argv[0]` is the command name. */
module Cmd {

  import opened CLib
  import Config
  import Debug

  /** The handlers `init_commands` registers. */
  datatype Handler =
    | Help | History | Login | Logout | Tasks | Vt100 | Ps | Reboot
    | SetScheduler | DebugTask | Set | Get | List | Reset

  /** `PWD`. */
  const PASSWORD: string := "1234"

  /** The size of the `string_value` buffer of `cmd_set`. */
  const STRING_BUFFER: int := 64

  /** Every argument is a C string: it holds no NUL. */
  predicate CArgs(argv: seq<string>) {
    forall i :: 0 <= i < |argv| ==> '\0' !in argv[i]
  }

  // ---------------------------------------------------------------------------
  // LOGIN, LOGOUT, VT100

  /** The authentication flag after `cmd_login`: set by exactly the password as the first
      argument; without an argument, or with a wrong one, it stays as it was. */
  function LoginEffect(authenticated: bool, argv: seq<string>): (r: bool)
    ensures r <==> authenticated || (|argv| >= 2 && argv[1] == PASSWORD)
    ensures |argv| < 2 ==> r == authenticated
  {
    if |argv| < 2 then authenticated
    else if argv[1] == PASSWORD then true
    else authenticated
  }

  /** `cmd_logout` clears the flag whatever the arguments. */
  function LogoutEffect(authenticated: bool, argv: seq<string>): (r: bool)
    ensures !r
  {
    false
  }

  /** The VT100 flag after `cmd_vt100`: EN sets it, DI clears it, anything else or no
      argument leaves it. */
  function Vt100Effect(enabled: bool, argv: seq<string>): (r: bool)
    ensures |argv| >= 2 && argv[1] == "EN" ==> r
    ensures |argv| >= 2 && argv[1] == "DI" ==> !r
    ensures !(|argv| >= 2 && argv[1] in {"EN", "DI"}) ==> r == enabled
  {
    if |argv| < 2 then enabled
    else if argv[1] == "EN" then true
    else if argv[1] == "DI" then false
    else enabled
  }

  // ---------------------------------------------------------------------------
  // ALG

  /** The five algorithms `cmd_set_scheduler` names. */
  datatype Algorithm = Priority | RoundRobin | EarliestDeadlineFirst | LeastExecuted | LongestWaiting

  function AlgorithmName(a: Algorithm): string {
    match a
    case Priority => "PRIORITY"
    case RoundRobin => "ROUND_ROBIN"
    case EarliestDeadlineFirst => "EARLIEST_DEADLINE_FIRST"
    case LeastExecuted => "LEAST_EXECUTED"
    case LongestWaiting => "LONGEST_WAITING"
  }

  /** The algorithm `cmd_set_scheduler` passes to `scheduler_set_algorithm`, or `None`
      when it makes no call: no argument, or a name that is none of the five. */
  function SetSchedulerChoice(argv: seq<string>): (r: Option<Algorithm>)
    ensures r.Some? ==> |argv| >= 2 && AlgorithmName(r.value) == argv[1]
    ensures r.None? ==> |argv| < 2 || forall a :: AlgorithmName(a) != argv[1]
  {
    if |argv| < 2 then None
    else if argv[1] == "PRIORITY" then Some(Priority)
    else if argv[1] == "ROUND_ROBIN" then Some(RoundRobin)
    else if argv[1] == "EARLIEST_DEADLINE_FIRST" then Some(EarliestDeadlineFirst)
    else if argv[1] == "LEAST_EXECUTED" then Some(LeastExecuted)
    else if argv[1] == "LONGEST_WAITING" then Some(LongestWaiting)
    else None
  }

  /** Each of the five names selects its own algorithm, so the mapping is one to one. */
  lemma SetSchedulerNames(a: Algorithm, cmd: string)
    ensures SetSchedulerChoice([cmd, AlgorithmName(a)]) == Some(a)
  {
  }

  // ---------------------------------------------------------------------------
  // TASK

  /** The scheduler calls `cmd_tasks` can make. */
  datatype SchedulerCall =
    | PrintTaskList
    | SetTaskPriority(taskId: int, priority: int)
    | PauseTask(taskId: int)
    | ResumeTask(taskId: int)

  /** The call `cmd_tasks` makes, or `None`: PS needs the subcommand only, PRIO a task
      and a priority, HOLD and RUN a task; numbers are read with `atoi`. */
  function TasksCall(argv: seq<string>): (r: Option<SchedulerCall>)
    ensures r == Some(PrintTaskList) <==> |argv| >= 2 && argv[1] == "PS"
    ensures (r.Some? && r.value.SetTaskPriority?) <==> |argv| >= 4 && argv[1] == "PRIO"
    ensures (r.Some? && r.value.PauseTask?) <==> |argv| >= 3 && argv[1] == "HOLD"
    ensures (r.Some? && r.value.ResumeTask?) <==> |argv| >= 3 && argv[1] == "RUN"
    ensures r.Some? && !r.value.PrintTaskList? ==> |argv| >= 3 && r.value.taskId == Atoi(argv[2])
    ensures r.Some? && r.value.SetTaskPriority? ==> r.value.priority == Atoi(argv[3])
  {
    if |argv| < 2 then None
    else if argv[1] == "PS" then Some(PrintTaskList)
    else if argv[1] == "PRIO" then
      (if |argv| < 4 then None else Some(SetTaskPriority(Atoi(argv[2]), Atoi(argv[3]))))
    else if argv[1] == "HOLD" then
      (if |argv| < 3 then None else Some(PauseTask(Atoi(argv[2]))))
    else if argv[1] == "RUN" then
      (if |argv| < 3 then None else Some(ResumeTask(Atoi(argv[2]))))
    else None
  }

  // ---------------------------------------------------------------------------
  // DBG

  /** What `cmd_debug_task` asks of the debug table: the task read with `atoi` and
      whether to enable (EN) or disable (DI) it; `None` without two arguments or with
      another state word. */
  function DebugTaskCall(argv: seq<string>): (r: Option<(int, bool)>)
    ensures r.Some? <==> |argv| >= 3 && argv[2] in {"EN", "DI"}
    ensures r.Some? ==> r.value == (Atoi(argv[1]), argv[2] == "EN")
  {
    if |argv| < 3 then None
    else if argv[2] == "EN" then Some((Atoi(argv[1]), true))
    else if argv[2] == "DI" then Some((Atoi(argv[1]), false))
    else None
  }

  /** `cmd_debug_task` applied to the debug table. */
  method CmdDebugTask(flags: Debug.DebugFlags, argv: seq<string>)
    requires flags.Valid()
    modifies flags.enabled
    ensures flags.Valid()
    ensures var call := DebugTaskCall(argv);
      (call.None? ==> flags.enabled[..] == old(flags.enabled[..]))
      && (call.Some? ==> flags.IsEnabled(call.value.0) == (call.value.1 && Debug.InTable(call.value.0))
                         && forall k :: k != call.value.0 ==> flags.IsEnabled(k) == old(flags.IsEnabled(k)))
  {
    if |argv| < 3 {
      return;
    }
    var taskId := Atoi(argv[1]);
    if argv[2] == "EN" {
      flags.Enable(taskId);
    } else if argv[2] == "DI" {
      flags.Disable(taskId);
    }
  }

  // ---------------------------------------------------------------------------
  // SET, GET, RESET

  /** The piece the STRING join of `cmd_set` appends for word `j` of `ws`: the word, and
      a space unless it is the last argument. */
  function Piece(ws: seq<string>, j: nat): string
    requires j < |ws|
  {
    ws[j] + (if j + 1 < |ws| then " " else "")
  }

  /** The text after the first `m` words were appended. */
  function Concat(ws: seq<string>, m: nat): string
    requires m <= |ws|
    decreases m
  {
    if m == 0 then "" else Concat(ws, m - 1) + Piece(ws, m - 1)
  }

  /** Word `m` is appended only when the text so far, the word and its terminator fit in
      the 64-byte buffer. */
  predicate Fits(ws: seq<string>, m: nat)
    requires m < |ws|
  {
    |Concat(ws, m)| + |ws[m]| + 1 < STRING_BUFFER
  }

  /** How many words the join keeps, counting from word `from`: it stops at the first word
      that does not fit. */
  function KeptCount(ws: seq<string>, from: nat := 0): (m: nat)
    requires from <= |ws|
    ensures from <= m <= |ws|
    ensures m < |ws| ==> !Fits(ws, m)
    ensures (forall j :: from <= j < |ws| ==> Fits(ws, j)) ==> m == |ws|
    ensures forall j :: from <= j < m ==> Fits(ws, j)
    decreases |ws| - from
  {
    if from < |ws| && Fits(ws, from) then KeptCount(ws, from + 1) else from
  }

  /** The joined string `cmd_set` passes for a STRING value. */
  function Joined(ws: seq<string>): string {
    Concat(ws, KeptCount(ws))
  }

  /** The joined text never exceeds 63 characters, so it always fits `string_value`. */
  lemma {:induction false} ConcatBound(ws: seq<string>, m: nat)
    requires m <= |ws| && forall j :: 0 <= j < m ==> Fits(ws, j)
    ensures |Concat(ws, m)| <= STRING_BUFFER - 1
    decreases m
  {
    if m > 0 {
      ConcatBound(ws, m - 1);
      assert Fits(ws, m - 1);
    }
  }

  lemma JoinedBound(ws: seq<string>)
    ensures |Joined(ws)| < STRING_BUFFER
  {
    ConcatBound(ws, KeptCount(ws));
  }

  /** Words separated by single spaces. */
  function JoinWords(ws: seq<string>): string
    decreases |ws|
  {
    if |ws| == 0 then "" else if |ws| == 1 then ws[0] else ws[0] + " " + JoinWords(ws[1..])
  }

  /** Before the last word, the pieces are the words each followed by one space. */
  lemma {:induction false} ConcatShift(ws: seq<string>, m: nat)
    requires 1 <= m <= |ws| && |ws| >= 2
    ensures Concat(ws, m) == ws[0] + " " + Concat(ws[1..], m - 1)
    decreases m
  {
    if m > 1 {
      ConcatShift(ws, m - 1);
      assert Piece(ws, m - 1) == Piece(ws[1..], m - 2);
    }
  }

  /** When every word fits, the join is the words separated by single spaces. */
  lemma {:induction false} ConcatIsJoin(ws: seq<string>)
    ensures Concat(ws, |ws|) == JoinWords(ws)
    decreases |ws|
  {
    if |ws| == 1 {
      assert Concat(ws, 1) == Piece(ws, 0);
    } else if |ws| >= 2 {
      ConcatShift(ws, |ws|);
      ConcatIsJoin(ws[1..]);
    }
  }

  lemma JoinedWhenShort(ws: seq<string>)
    requires forall j :: 0 <= j < |ws| ==> Fits(ws, j)
    ensures Joined(ws) == JoinWords(ws)
  {
    ConcatIsJoin(ws);
  }

  /** A word that fits is appended with its space, and the count goes on past it. */
  lemma JoinStep(ws: seq<string>, i: nat)
    requires i < |ws| && |Concat(ws, i)| + |ws[i]| + 1 < STRING_BUFFER
    ensures KeptCount(ws, i) == KeptCount(ws, i + 1)
    ensures Concat(ws, i + 1) == Concat(ws, i) + ws[i] + if i < |ws| - 1 then " " else ""
  {
  }

  /** A word that does not fit ends the count. */
  lemma JoinStop(ws: seq<string>, i: nat)
    requires i < |ws| && |Concat(ws, i)| + |ws[i]| + 1 >= STRING_BUFFER
    ensures KeptCount(ws, i) == i
  {
  }

  /** The STRING join loop of `cmd_set` over `ws`, the arguments from `argv[3]` on. Each
      `strncat` is given the room left in the 64-byte buffer; the checks before it make
      that room always enough. */
  method JoinArgs(ws: seq<string>) returns (joined: string, kept: nat)
    requires CArgs(ws)
    ensures kept == KeptCount(ws) && joined == Joined(ws)
    ensures |joined| < STRING_BUFFER
  {
    joined := "";
    var i := 0;
    while i < |ws|
      invariant 0 <= i <= |ws|
      invariant joined == Concat(ws, i)
      invariant KeptCount(ws) == KeptCount(ws, i)
    {
      if |joined| + |ws[i]| + 1 >= STRING_BUFFER {
        JoinStop(ws, i);
        break;
      }
      JoinStep(ws, i);
      joined := joined + Truncate(ws[i], STRING_BUFFER - |joined| - 1);
      if i < |ws| - 1 {
        joined := joined + Truncate(" ", STRING_BUFFER - |joined| - 1);
      }
      i := i + 1;
    }
    kept := i;
    JoinedBound(ws);
  }

  /** What `cmd_set` reports. */
  datatype SetReply =
    | UsageError | InvalidInteger | InvalidFloat | InvalidType
    | Success | OutOfRange | Failed

  /** The report for a `set_param` result: 0 is success, -2 out of range, any other
      value a failure. */
  function ReplyFor(code: int): (r: SetReply)
    ensures r == Success <==> code == 0
    ensures r == OutOfRange <==> code == -2
    ensures r == Failed <==> code != 0 && code != -2
  {
    if code == 0 then Success else if code == -2 then OutOfRange else Failed
  }

  /** `cmd_set key type value...` on the parameter table. Fewer than four arguments, an
      INT token that `strtol` does not consume entirely, a FLOAT token `strtof` does not
      consume entirely (the caller's `parseFloat` returns `None`) and an unknown type are
      refused without calling `set_param`; otherwise `set_param` runs with the key read by
      `atoi` and its result is reported. */
  method CmdSet(table: Config.ParamTable, argv: seq<string>, floatLe: (Config.Float, Config.Float) -> bool,
                parseFloat: string -> Option<Config.Float>)
    returns (reply: SetReply)
    requires table.Valid() && CArgs(argv)
    modifies table.params
    ensures table.Valid()
    ensures |argv| < 4 ==> reply == UsageError && table.params[..] == old(table.params[..])
    ensures |argv| >= 4 && argv[2] == "INT" && Strtol(argv[3]).end != |argv[3]| ==>
      reply == InvalidInteger && table.params[..] == old(table.params[..])
    ensures |argv| >= 4 && argv[2] == "INT" && Strtol(argv[3]).end == |argv[3]| ==>
      var res := Config.SetSpec(old(table.params[..]), Atoi(argv[1]), Config.IntType,
                                Config.IntValue(Strtol(argv[3]).value), floatLe);
      reply == ReplyFor(res.0) && table.params[..] == res.1
    ensures |argv| >= 4 && argv[2] == "FLOAT" && parseFloat(argv[3]).None? ==>
      reply == InvalidFloat && table.params[..] == old(table.params[..])
    ensures |argv| >= 4 && argv[2] == "FLOAT" && parseFloat(argv[3]).Some? ==>
      var res := Config.SetSpec(old(table.params[..]), Atoi(argv[1]), Config.FloatType,
                                Config.FloatValue(parseFloat(argv[3]).value), floatLe);
      reply == ReplyFor(res.0) && table.params[..] == res.1
    ensures |argv| >= 4 && argv[2] == "STRING" ==>
      var res := Config.SetSpec(old(table.params[..]), Atoi(argv[1]), Config.StringType,
                                Config.StringValue(Joined(argv[3..])), floatLe);
      reply == ReplyFor(res.0) && table.params[..] == res.1
    ensures |argv| >= 4 && argv[2] !in {"INT", "FLOAT", "STRING"} ==>
      reply == InvalidType && table.params[..] == old(table.params[..])
  {
    if |argv| < 4 {
      return UsageError;
    }
    var key := Atoi(argv[1]);
    var result: int;
    if argv[2] == "INT" {
      var parsed := Strtol(argv[3]);
      if parsed.end != |argv[3]| {
        return InvalidInteger;
      }
      result := table.SetParam(key, Config.IntType, Config.IntValue(parsed.value), floatLe);
    } else if argv[2] == "FLOAT" {
      var parsed := parseFloat(argv[3]);
      if parsed.None? {
        return InvalidFloat;
      }
      result := table.SetParam(key, Config.FloatType, Config.FloatValue(parsed.value), floatLe);
    } else if argv[2] == "STRING" {
      assert CArgs(argv[3..]);
      var joined, _ := JoinArgs(argv[3..]);
      result := table.SetParam(key, Config.StringType, Config.StringValue(joined), floatLe);
    } else {
      return InvalidType;
    }
    reply := ReplyFor(result);
  }

  /** What `cmd_get` finds. */
  datatype GetReply = GetUsage | NotFound(key: int) | Found(param: Config.Param)

  /** `cmd_get key`: the first entry with the key read by `atoi`. The table is only read. */
  method CmdGet(table: Config.ParamTable, argv: seq<string>) returns (reply: GetReply)
    requires table.Valid()
    ensures |argv| < 2 <==> reply == GetUsage
    ensures |argv| >= 2 ==>
      var i := Config.FirstKey(table.params[..], Atoi(argv[1]));
      (i == -1 ==> reply == NotFound(Atoi(argv[1])))
      && (i >= 0 ==> reply == Found(table.params[i]))
  {
    if |argv| < 2 {
      return GetUsage;
    }
    var key := Atoi(argv[1]);
    var p := table.GetParam(key);
    if p.Some? {
      reply := Found(p.value);
    } else {
      reply := NotFound(key);
    }
  }

  /** `cmd_reset`: the table goes back to the defaults. */
  method CmdReset(table: Config.ParamTable, argv: seq<string>)
    requires table.Valid()
    modifies table.params
    ensures table.Valid() && table.params[..] == Config.DefaultParams()
  {
    table.ResetToDefaults();
  }
}
