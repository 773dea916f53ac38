/** The AT command sequencer of system/command_sequence.c: a static pool of 10 command
    nodes, a singly linked list built by appending pool nodes, and a step that looks up
    the first node for the current state, sends its command and moves to its next state.
    Pointers into the pool are indices (`NULL` is -1); the list is described by the
    ghost sequence of the slots it links, from head to tail. */
module CommandSequence {

  import opened CLib

  const MAX_COMMANDS: int := 10
  const COMMAND_SIZE: int := 256
  const NULL: int := -1

  /** `at_command_state_t`, with the three states app/task_at_sequence.c also uses
      (`STATE_SEND_RST`, `STATE_MQTT_CONFIG`, `STATE_MQTT_CON`). */
  datatype AtState =
    | SendRst | SendAtReady | SendAtGmr | SendAtCwmode | SendAtCwlapSsid
    | SendAtWifiConnect | SendAtListAp | SendAtIp | MqttConfig | MqttCon | Idle

  /** `at_command_t`: the state it belongs to, the text sent to UART1, the log message
      and the state that follows. */
  datatype AtCommand = AtCommand(state: AtState, command: string, message: string, nextState: AtState)

  /** `CommandNode`: a command and the index of the next node, or `NULL`. */
  datatype Node = Node(command: AtCommand, next: int)

  /** The fields of `iot_config_t` the sequences format into commands. */
  datatype IotConfig = IotConfig(wifiSsid: string, wifiPassword: string, deviceId: string,
                                 username: string, sas: string, hostname: string)

  /** A command as a node keeps it: the text cut to 255 characters. */
  function Stored(c: AtCommand): (r: AtCommand)
    ensures r.state == c.state && r.message == c.message && r.nextState == c.nextState
    ensures |r.command| < COMMAND_SIZE && |r.command| <= |CStr(c.command)|
    ensures r.command == CStr(c.command)[..|r.command|]
    ensures |CStr(c.command)| < COMMAND_SIZE ==> r.command == CStr(c.command)
  {
    c.(command := BoundedCopy(c.command, COMMAND_SIZE))
  }

  function StoreAll(cs: seq<AtCommand>): (r: seq<AtCommand>)
    ensures |r| == |cs|
    ensures forall k :: 0 <= k < |cs| ==> r[k] == Stored(cs[k])
  {
    seq(|cs|, k requires 0 <= k < |cs| => Stored(cs[k]))
  }

  /** The commands of the nodes at `order`, in that order. */
  function Chain(ns: seq<Node>, order: seq<int>): (r: seq<AtCommand>)
    requires forall k :: 0 <= k < |order| ==> 0 <= order[k] < |ns|
    ensures |r| == |order|
    ensures forall k :: 0 <= k < |order| ==> r[k] == ns[order[k]].command
  {
    seq(|order|, k requires 0 <= k < |order| => ns[order[k]].command)
  }

  /** Linking one more node at the end, with no node's command changed, adds its
      command at the end. */
  lemma ChainAppend(ns: seq<Node>, ns': seq<Node>, order: seq<int>, node: int)
    requires |ns'| == |ns| && 0 <= node < |ns|
    requires forall k :: 0 <= k < |order| ==> 0 <= order[k] < |ns|
    requires forall x :: 0 <= x < |ns| ==> ns'[x].command == ns[x].command
    ensures Chain(ns', order + [node]) == Chain(ns, order) + [ns[node].command]
  {
    var o := order + [node];
    assert forall k :: 0 <= k < |order| ==> o[k] == order[k];
  }

  // ---------------------------------------------------------------------------
  // The step of `process_command_sequence`

  /** The first command for `state` from index `from` on, or -1. */
  function FindState(cmds: seq<AtCommand>, state: AtState, from: nat := 0): (i: int)
    requires from <= |cmds|
    ensures i == -1 || (from <= i < |cmds| && cmds[i].state == state)
    ensures i >= 0 ==> forall j :: from <= j < i ==> cmds[j].state != state
    ensures i == -1 ==> forall j :: from <= j < |cmds| ==> cmds[j].state != state
    decreases |cmds| - from
  {
    if from == |cmds| then -1
    else if cmds[from].state == state then from
    else FindState(cmds, state, from + 1)
  }

  /** The current state and the AT command counter. */
  datatype Progress = Progress(state: AtState, counter: int)

  /** One call of `process_command_sequence` over the list `cmds`. */
  function Step(cmds: seq<AtCommand>, p: Progress, writable: bool): (r: Progress)
  {
    var i := FindState(cmds, p.state);
    if i < 0 || !writable then p
    else Progress(cmds[i].nextState, if cmds[i].command != [] then p.counter + 1 else p.counter)
  }

  /** Only the first command for the current state counts; when UART1 is writable the
      state becomes its next state and the counter grows by one exactly when its text is
      not empty; with no command for the state, or UART1 busy, nothing changes. */
  lemma StepCases(cmds: seq<AtCommand>, p: Progress, writable: bool, i: int)
    requires 0 <= i < |cmds| && cmds[i].state == p.state
    requires forall j :: 0 <= j < i ==> cmds[j].state != p.state
    ensures writable ==> Step(cmds, p, writable).state == cmds[i].nextState
    ensures writable ==> (Step(cmds, p, writable).counter == p.counter + 1 <==> cmds[i].command != [])
    ensures writable ==> (Step(cmds, p, writable).counter == p.counter <==> cmds[i].command == [])
    ensures !writable ==> Step(cmds, p, writable) == p
  {
    assert FindState(cmds, p.state) == i;
  }

  lemma NoCommandNoStep(cmds: seq<AtCommand>, p: Progress, writable: bool)
    requires forall j :: 0 <= j < |cmds| ==> cmds[j].state != p.state
    ensures Step(cmds, p, writable) == p
  {
    assert FindState(cmds, p.state) == -1;
  }

  /** `n` calls with UART1 always writable. */
  function Run(cmds: seq<AtCommand>, p: Progress, n: nat): Progress
    decreases n
  {
    if n == 0 then p else Run(cmds, Step(cmds, p, true), n - 1)
  }

  /** Commands each leading to the state of the next, and the last to `last`. */
  predicate Linked(cmds: seq<AtCommand>, last: AtState) {
    && (forall k :: 0 <= k < |cmds| - 1 ==> cmds[k].nextState == cmds[k + 1].state)
    && (cmds != [] ==> cmds[|cmds| - 1].nextState == last)
  }

  /** A linked chain whose every text is non-empty. */
  predicate Chained(cmds: seq<AtCommand>, last: AtState) {
    Linked(cmds, last) && forall k :: 0 <= k < |cmds| ==> cmds[k].command != []
  }

  /** States that are pairwise different. */
  predicate DistinctStates(cmds: seq<AtCommand>) {
    forall a, b :: 0 <= a < b < |cmds| ==> cmds[a].state != cmds[b].state
  }

  /** The position of a state in the declaration of `at_command_state_t`, extended. */
  function Rank(s: AtState): nat {
    match s
    case SendRst => 0
    case SendAtReady => 1
    case SendAtGmr => 2
    case SendAtCwmode => 3
    case SendAtCwlapSsid => 4
    case SendAtWifiConnect => 5
    case SendAtListAp => 6
    case SendAtIp => 7
    case MqttConfig => 8
    case MqttCon => 9
    case Idle => 10
  }

  /** Stepping along a chain of distinct states: `|cmds| - from` writable calls from the
      state of command `from` reach `last`, with one count per command sent. */
  lemma {:induction false} RunChain(cmds: seq<AtCommand>, last: AtState, from: nat, c: int)
    requires from < |cmds| && Chained(cmds, last) && DistinctStates(cmds)
    ensures Run(cmds, Progress(cmds[from].state, c), |cmds| - from) == Progress(last, c + |cmds| - from)
    decreases |cmds| - from
  {
    var p := Progress(cmds[from].state, c);
    StepCases(cmds, p, true, from);
    var q := Step(cmds, p, true);
    assert q == Progress(cmds[from].nextState, c + 1);
    if from + 1 < |cmds| {
      RunChain(cmds, last, from + 1, c + 1);
    }
  }

  /** A state no command belongs to stays put however many calls follow. */
  lemma {:induction false} RunStuck(cmds: seq<AtCommand>, p: Progress, n: nat)
    requires forall j :: 0 <= j < |cmds| ==> cmds[j].state != p.state
    ensures Run(cmds, p, n) == p
    decreases n
  {
    if n > 0 {
      NoCommandNoStep(cmds, p, true);
      RunStuck(cmds, p, n - 1);
    }
  }

  /** A chain of distinct states that ends in IDLE and never visits it runs from its
      first state to IDLE in one call per command, and IDLE then stays. */
  lemma ChainReachesIdle(cmds: seq<AtCommand>, first: AtState, c: int, n: nat)
    requires cmds != [] && cmds[0].state == first && Chained(cmds, Idle) && DistinctStates(cmds)
    requires forall k :: 0 <= k < |cmds| ==> cmds[k].state != Idle
    ensures Run(cmds, Progress(first, c), |cmds|) == Progress(Idle, c + |cmds|)
    ensures Run(cmds, Progress(Idle, c), n) == Progress(Idle, c)
  {
    RunChain(cmds, Idle, 0, c);
    RunStuck(cmds, Progress(Idle, c), n);
  }

  // ---------------------------------------------------------------------------
  // The sequence of system/command_sequence.c

  /** `snprintf(…, "AT+CWLAP=\"%s\"\r\n", ssid)` before truncation. */
  function CwlapText(ssid: string): string {
    "AT+CWLAP=\"" + CStr(ssid) + "\"\r\n"
  }

  /** `snprintf(…, "AT+CWJAP=\"%s\",\"%s\"\r\n", ssid, password)` before truncation. */
  function CwjapText(ssid: string, password: string): string {
    "AT+CWJAP=\"" + CStr(ssid) + "\",\"" + CStr(password) + "\"\r\n"
  }

  /** A text that starts with a character other than NUL keeps at least that character
      in any buffer of two or more bytes. */
  lemma BoundedCopyNotEmpty(s: string, size: nat)
    requires size >= 2 && s != [] && s[0] != '\0'
    ensures BoundedCopy(s, size) != [] && BoundedCopy(s, size)[0] == s[0]
  {
    assert CStr(s) == [s[0]] + CStr(s[1..]);
  }

  /** The states, log messages and successor states of the seven commands
      `initialize_command_sequence` of system/command_sequence.c appends, around their
      texts. */
  function SevenTable(texts: seq<string>): (cs: seq<AtCommand>)
    requires |texts| == 7
    ensures |cs| == 7
  {
    [ AtCommand(SendAtReady, texts[0], "Inviando AT alla UART1", SendAtGmr),
      AtCommand(SendAtGmr, texts[1], "Inviando AT+GMR alla UART1", SendAtCwmode),
      AtCommand(SendAtCwmode, texts[2], "Inviando AT+CWMODE=1 alla UART1", SendAtCwlapSsid),
      AtCommand(SendAtCwlapSsid, texts[3], "Inviando AT+CWLAP=\"Wi-Fi\" alla UART1", SendAtWifiConnect),
      AtCommand(SendAtWifiConnect, texts[4], "Inviando AT+CWJAP alla UART1", SendAtListAp),
      AtCommand(SendAtListAp, texts[5], "Inviando AT+CWLAP alla UART1", SendAtIp),
      AtCommand(SendAtIp, texts[6], "Inviando AT+CIPSTA? alla UART1", Idle) ]
  }

  /** The texts of the seven commands, the formatted ones as they come out of their
      256-byte buffers. */
  function SevenTexts(cfg: IotConfig): (ts: seq<string>)
    ensures |ts| == 7
  {
    [ "AT\r\n", "AT+GMR\r\n", "AT+CWMODE=1\r\n",
      BoundedCopy(CwlapText(cfg.wifiSsid), 256),
      BoundedCopy(CwjapText(cfg.wifiSsid, cfg.wifiPassword), 256),
      "AT+CWLAP\r\n", "AT+CIPSTA?\r\n" ]
  }

  function SevenCommands(cfg: IotConfig): (cs: seq<AtCommand>)
    ensures |cs| == 7
  {
    SevenTable(SevenTexts(cfg))
  }

  /** Storing keeps states and links, and a text that starts with a character other
      than NUL stays non-empty; states that climb the declaration order are distinct. */
  lemma StoreAllChained(cs: seq<AtCommand>, last: AtState, base: int)
    requires Linked(cs, last)
    requires forall k :: 0 <= k < |cs| ==> Rank(cs[k].state) == base + k
    requires forall k :: 0 <= k < |cs| ==> cs[k].command != [] && cs[k].command[0] != '\0'
    ensures var r := StoreAll(cs);
      && Chained(r, last) && DistinctStates(r)
      && forall k :: 0 <= k < |r| ==> Rank(r[k].state) == base + k
  {
    forall k | 0 <= k < |cs|
      ensures StoreAll(cs)[k].command != []
    {
      BoundedCopyNotEmpty(cs[k].command, COMMAND_SIZE);
    }
  }

  /** A table of commands whose states climb the declaration order below IDLE, linked up
      to IDLE and holding texts that start with a character other than NUL, is still such
      a chain once stored, and never visits IDLE. */
  lemma TableChained(texts: seq<string>, cs: seq<AtCommand>, first: AtState, base: int)
    requires |cs| == |texts| && cs != [] && Linked(cs, Idle) && cs[0].state == first
    requires forall k :: 0 <= k < |cs| ==> Rank(cs[k].state) == base + k && cs[k].command == texts[k]
    requires forall k :: 0 <= k < |texts| ==> texts[k] != [] && texts[k][0] != '\0'
    requires base + |cs| <= Rank(Idle)
    ensures var r := StoreAll(cs);
      Chained(r, Idle) && DistinctStates(r) && r[0].state == first
      && forall k :: 0 <= k < |r| ==> r[k].state != Idle
  {
    StoreAllChained(cs, Idle, base);
  }

  /** The seven commands go from AT to IP in the declaration order of the states, each
      leading to the next and the last to IDLE, and carry their texts in order. */
  lemma SevenTableShape(texts: seq<string>)
    requires |texts| == 7
    ensures var cs := SevenTable(texts);
      && Linked(cs, Idle) && cs[0].state == SendAtReady
      && forall k :: 0 <= k < |cs| ==> Rank(cs[k].state) == k + 1 && cs[k].command == texts[k]
  {
    var cs := SevenTable(texts);
    forall k | 0 <= k < |cs|
      ensures Rank(cs[k].state) == k + 1 && cs[k].command == texts[k]
      ensures k < |cs| - 1 ==> cs[k].nextState == cs[k + 1].state
    {
      if k == 0 {} else if k == 1 {} else if k == 2 {} else if k == 3 {} else if k == 4 {}
      else if k == 5 {} else {}
    }
  }

  /** Every text of the seven starts with a character other than NUL. */
  lemma SevenTextsStart(cfg: IotConfig)
    ensures var ts := SevenTexts(cfg);
      forall k :: 0 <= k < |ts| ==> ts[k] != [] && ts[k][0] != '\0'
  {
    var ts := SevenTexts(cfg);
    assert ts[3][0] == 'A' by {
      BoundedCopyNotEmpty(CwlapText(cfg.wifiSsid), 256);
    }
    assert ts[4][0] == 'A' by {
      BoundedCopyNotEmpty(CwjapText(cfg.wifiSsid, cfg.wifiPassword), 256);
    }
  }

  /** The stored seven commands run from AT to IDLE: the states follow one another, each
      text is non-empty, no state repeats, and none is IDLE. */
  lemma SevenChained(cfg: IotConfig)
    ensures var cs := StoreAll(SevenCommands(cfg));
      Chained(cs, Idle) && DistinctStates(cs) && cs[0].state == SendAtReady
      && forall k :: 0 <= k < |cs| ==> cs[k].state != Idle
  {
    SevenTableShape(SevenTexts(cfg));
    SevenTextsStart(cfg);
    TableChained(SevenTexts(cfg), SevenCommands(cfg), SendAtReady, 1);
  }

  /** With UART1 always writable, seven calls from AT reach IDLE and count seven commands;
      IDLE then stays. */
  lemma SevenStepsReachIdle(cfg: IotConfig, c: int, n: nat)
    ensures Run(StoreAll(SevenCommands(cfg)), Progress(SendAtReady, c), 7) == Progress(Idle, c + 7)
    ensures Run(StoreAll(SevenCommands(cfg)), Progress(Idle, c), n) == Progress(Idle, c)
  {
    SevenChained(cfg);
    ChainReachesIdle(StoreAll(SevenCommands(cfg)), SendAtReady, c, n);
  }

  // ---------------------------------------------------------------------------
  // The pool and the list

  class CommandPool {
    /** `command_nodes`, `command_count`, and the caller's list head. */
    var nodes: array<Node>
    var count: int
    var head: int
    /** The slots on the list, from head to tail. */
    ghost var order: seq<int>

    ghost predicate Valid()
      reads this, nodes
    {
      && nodes.Length == MAX_COMMANDS && 0 <= count <= MAX_COMMANDS
      && (forall k :: 0 <= k < |order| ==> 0 <= order[k] < count)
      && (forall a, b :: 0 <= a < b < |order| ==> order[a] != order[b])
      && head == (if order == [] then NULL else order[0])
      && (forall k :: 0 <= k < |order| - 1 ==> nodes[order[k]].next == order[k + 1])
      && (order != [] ==> nodes[order[|order| - 1]].next == NULL)
    }

    /** The commands on the list, from head to tail. */
    ghost function Commands(): (cs: seq<AtCommand>)
      requires Valid()
      reads this, nodes
      ensures |cs| == |order|
    {
      Chain(nodes[..], order)
    }

    /** An empty pool and an empty list. */
    constructor ()
      ensures Valid() && fresh(nodes)
      ensures count == 0 && head == NULL && Commands() == []
    {
      nodes := new Node[MAX_COMMANDS](_ => Node(AtCommand(Idle, [], [], Idle), NULL));
      count, head, order := 0, NULL, [];
    }

    /** `create_command_node`: with the pool full, `NULL` and no change; otherwise the next
        free slot, holding the command cut to 255 characters and no successor. */
    method CreateNode(state: AtState, cmd: string, msg: string, nextState: AtState) returns (node: int)
      requires Valid()
      modifies this`count, nodes
      ensures Valid() && head == old(head) && order == old(order)
      ensures node == NULL <==> old(count) >= MAX_COMMANDS
      ensures node == NULL ==> count == old(count) && nodes[..] == old(nodes[..])
      ensures node != NULL ==>
                node == old(count) && count == old(count) + 1
                && nodes[..] == old(nodes[..])[node := Node(Stored(AtCommand(state, cmd, msg, nextState)), NULL)]
      ensures node != NULL ==> node !in order && nodes[node].next == NULL
      ensures Commands() == old(Commands())
    {
      if count >= MAX_COMMANDS {
        return NULL;
      }
      node := count;
      count := count + 1;
      nodes[node] := Node(Stored(AtCommand(state, cmd, msg, nextState)), NULL);
      assert forall k :: 0 <= k < |order| ==> order[k] != node;
    }

    /** `append_command`: `NULL` is refused; otherwise the list walks to its tail and the
        node becomes its successor, so the list gains the node's command at the end. */
    method Append(node: int)
      requires Valid() && (node == NULL || (0 <= node < count && node !in order && nodes[node].next == NULL))
      modifies this`head, this`order, nodes
      ensures Valid() && count == old(count)
      ensures node == NULL ==> head == old(head) && order == old(order) && nodes[..] == old(nodes[..])
      ensures node != NULL ==> order == old(order) + [node]
      ensures Commands() == old(Commands()) + if node == NULL then [] else [old(nodes[node].command)]
    {
      if node == NULL {
        return;
      }
      if head == NULL {
        head := node;
        order := [node];
      } else {
        LinkAtTail(node);
      }
    }

    /** The non-empty case of `append_command`: the last node gets `node` as successor. */
    method LinkAtTail(node: int)
      requires Valid() && head != NULL && 0 <= node < count && node !in order && nodes[node].next == NULL
      modifies this`order, nodes
      ensures Valid() && order == old(order) + [node]
      ensures Commands() == old(Commands()) + [old(nodes[node].command)]
    {
      ghost var old_nodes := nodes[..];
      var temp := Tail();
      nodes[temp] := nodes[temp].(next := node);
      ChainAppend(old_nodes, nodes[..], order, node);
      order := order + [node];
    }

    /** The walk of `append_command` from the head to the last node. */
    method Tail() returns (temp: int)
      requires Valid() && head != NULL
      ensures order != [] && temp == order[|order| - 1]
    {
      temp := head;
      ghost var j := 0;
      while nodes[temp].next != NULL
        invariant 0 <= j < |order| && temp == order[j]
        invariant j < |order| - 1 ==> nodes[temp].next == order[j + 1] && nodes[temp].next != NULL
        decreases |order| - j
      {
        temp := nodes[temp].next;
        j := j + 1;
      }
    }

    /** `append_command(list, create_command_node(…))`, as every caller writes it: the
        list gains the stored command when the pool has room, and nothing otherwise. */
    method AppendNew(c: AtCommand)
      requires Valid()
      modifies this`count, this`head, this`order, nodes
      ensures Valid()
      ensures count == if old(count) < MAX_COMMANDS then old(count) + 1 else old(count)
      ensures Commands() == old(Commands()) + if old(count) < MAX_COMMANDS then [Stored(c)] else []
    {
      var node := CreateNode(c.state, c.command, c.message, c.nextState);
      Append(node);
    }

    /** Command `i` of a sequence of appends `cs` begun when `count` was `count0`: the
        list so far is the stored prefix of `cs` the pool had room for. */
    method AppendNext(c: AtCommand, ghost start: seq<AtCommand>, ghost cs: seq<AtCommand>,
                      ghost count0: int, ghost i: nat)
      requires Valid() && i < |cs| && c == cs[i] && 0 <= count0 <= MAX_COMMANDS
      requires count == count0 + Min(i, MAX_COMMANDS - count0)
      requires Commands() == Prefix(start, cs, MAX_COMMANDS - count0, i)
      modifies this`count, this`head, this`order, nodes
      ensures Valid()
      ensures count == count0 + Min(i + 1, MAX_COMMANDS - count0)
      ensures Commands() == Prefix(start, cs, MAX_COMMANDS - count0, i + 1)
    {
      ghost var before := Commands();
      AppendNew(c);
      PrefixStep(start, cs, MAX_COMMANDS - count0, i, before, Commands());
    }

    /** Two appends in a row, of commands `i` and `i + 1` of `cs`. */
    method AppendTwo(ghost start: seq<AtCommand>, cs: seq<AtCommand>, ghost count0: int, i: nat)
      requires Valid() && i + 2 <= |cs| && 0 <= count0 <= MAX_COMMANDS
      requires count == count0 + Min(i, MAX_COMMANDS - count0)
      requires Commands() == Prefix(start, cs, MAX_COMMANDS - count0, i)
      modifies this`count, this`head, this`order, nodes
      ensures Valid()
      ensures count == count0 + Min(i + 2, MAX_COMMANDS - count0)
      ensures Commands() == Prefix(start, cs, MAX_COMMANDS - count0, i + 2)
    {
      AppendNext(cs[i], start, cs, count0, i);
      AppendNext(cs[i + 1], start, cs, count0, i + 1);
    }

    /** Three appends in a row, of commands `i` to `i + 2` of `cs`. */
    method AppendThree(ghost start: seq<AtCommand>, cs: seq<AtCommand>, ghost count0: int, i: nat)
      requires Valid() && i + 3 <= |cs| && 0 <= count0 <= MAX_COMMANDS
      requires count == count0 + Min(i, MAX_COMMANDS - count0)
      requires Commands() == Prefix(start, cs, MAX_COMMANDS - count0, i)
      modifies this`count, this`head, this`order, nodes
      ensures Valid()
      ensures count == count0 + Min(i + 3, MAX_COMMANDS - count0)
      ensures Commands() == Prefix(start, cs, MAX_COMMANDS - count0, i + 3)
    {
      AppendTwo(start, cs, count0, i);
      AppendNext(cs[i + 2], start, cs, count0, i + 2);
    }

    /** Four appends in a row, of commands `i` to `i + 3` of `cs`. */
    method AppendFour(ghost start: seq<AtCommand>, cs: seq<AtCommand>, ghost count0: int, i: nat)
      requires Valid() && i + 4 <= |cs| && 0 <= count0 <= MAX_COMMANDS
      requires count == count0 + Min(i, MAX_COMMANDS - count0)
      requires Commands() == Prefix(start, cs, MAX_COMMANDS - count0, i)
      modifies this`count, this`head, this`order, nodes
      ensures Valid()
      ensures count == count0 + Min(i + 4, MAX_COMMANDS - count0)
      ensures Commands() == Prefix(start, cs, MAX_COMMANDS - count0, i + 4)
    {
      AppendTwo(start, cs, count0, i);
      AppendTwo(start, cs, count0, i + 2);
    }

    /** `initialize_command_sequence` of system/command_sequence.c: no config appends
        nothing; otherwise the seven commands are appended in order, as many as the pool
        still has room for. */
    method InitializeSeven(config: Option<IotConfig>)
      requires Valid()
      modifies this`count, this`head, this`order, nodes
      ensures Valid()
      ensures config.None? ==> count == old(count) && Commands() == old(Commands())
      ensures config.Some? ==>
                count == old(count) + Min(7, MAX_COMMANDS - old(count))
                && Commands() == old(Commands()) + StoreAll(SevenCommands(config.value)[..Min(7, MAX_COMMANDS - old(count))])
    {
      if config.None? {
        return;
      }
      AppendSeven(SevenCommands(config.value));
    }

    /** Seven appends in a row, of the commands of `cs` in order. */
    method AppendSeven(cs: seq<AtCommand>)
      requires Valid() && |cs| == 7
      modifies this`count, this`head, this`order, nodes
      ensures Valid()
      ensures count == old(count) + Min(7, MAX_COMMANDS - old(count))
      ensures Commands() == old(Commands()) + StoreAll(cs[..Min(7, MAX_COMMANDS - old(count))])
    {
      ghost var start, count0 := Commands(), count;
      assert cs[..0] == [];
      AppendFour(start, cs, count0, 0);
      AppendThree(start, cs, count0, 4);
    }

    /** `process_command_sequence`: the walk from the head to the first node for the
        current state; the result is one `Step` over the list. */
    method Process(state: AtState, counter: int, writable: bool) returns (state': AtState, counter': int)
      requires Valid()
      ensures Progress(state', counter') == Step(Commands(), Progress(state, counter), writable)
    {
      state', counter' := state, counter;
      var temp := head;
      ghost var j := 0;
      while temp != NULL
        invariant 0 <= j <= |order| && temp == (if j < |order| then order[j] else NULL)
        invariant FindState(Commands(), state) == FindState(Commands(), state, j)
        decreases |order| - j
      {
        var c := nodes[temp].command;
        if c.state == state {
          if writable {
            if c.command != [] {
              counter' := counter' + 1;
            }
            state' := c.nextState;
          }
          return;
        }
        temp := nodes[temp].next;
        j := j + 1;
      }
    }
  }

  /** The list after appending `start`'s successors `cs[..i]` to a pool with `room` free
      slots: the stored commands of those that fitted. */
  function Prefix(start: seq<AtCommand>, cs: seq<AtCommand>, room: int, i: nat): seq<AtCommand>
    requires i <= |cs| && 0 <= room
  {
    start + StoreAll(cs[..Min(i, room)])
  }

  /** One more append of the next of `cs` extends the stored prefix by one command while
      the pool has room, and leaves it as it is once the pool is full. */
  lemma PrefixStep(start: seq<AtCommand>, cs: seq<AtCommand>, room: int, i: nat,
                   before: seq<AtCommand>, after: seq<AtCommand>)
    requires i < |cs| && 0 <= room
    requires before == Prefix(start, cs, room, i)
    requires after == before + if i < room then [Stored(cs[i])] else []
    ensures after == Prefix(start, cs, room, i + 1)
  {
    if i < room {
      assert cs[..Min(i + 1, room)] == cs[..Min(i, room)] + [cs[i]];
      assert StoreAll(cs[..Min(i + 1, room)]) == StoreAll(cs[..Min(i, room)]) + [Stored(cs[i])];
    } else {
      assert Min(i + 1, room) == Min(i, room);
    }
  }
}
