/** The AT start-up sequence of app/task_at_sequence.c: ten commands that reset the
    ESP32 modem, join the Wi-Fi network and connect to the MQTT broker, appended to the
    pool of system/command_sequence.c, and the task that advances the sequence by one
    step per call. */
module AtSequence {

  import opened CLib
  import opened CommandSequence

  /** `snprintf(…, "AT+MQTTUSERCFG=0,1,\"%s\",\"%s\",\"%s\",0,60\r\n", …)` before truncation. */
  function MqttUserCfgText(deviceId: string, username: string, sas: string): string {
    "AT+MQTTUSERCFG=0,1,\"" + CStr(deviceId) + "\",\"" + CStr(username) + "\",\"" + CStr(sas) + "\",0,60\r\n"
  }

  /** `snprintf(…, "AT+MQTTCONN=0,\"%s\",8883,1\r\n", hostname)` before truncation. */
  function MqttConnText(hostname: string): string {
    "AT+MQTTCONN=0,\"" + CStr(hostname) + "\",8883,1\r\n"
  }

  /** The states, log messages and successor states of the ten commands
      `initialize_command_sequence` of app/task_at_sequence.c appends, around their texts. */
  function TenTable(texts: seq<string>): (cs: seq<AtCommand>)
    requires |texts| == 10
    ensures |cs| == 10
  {
    [ AtCommand(SendRst, texts[0], "Reset AT host device", SendAtReady),
      AtCommand(SendAtReady, texts[1], "Inviando AT alla UART1", SendAtGmr),
      AtCommand(SendAtGmr, texts[2], "Inviando AT+GMR alla UART1", SendAtCwmode),
      AtCommand(SendAtCwmode, texts[3], "Inviando AT+CWMODE=1 alla UART1", SendAtCwlapSsid),
      AtCommand(SendAtCwlapSsid, texts[4], "Inviando AT+CWLAP=\"Wi-Fi\" alla UART1", SendAtWifiConnect),
      AtCommand(SendAtWifiConnect, texts[5], "Inviando AT+CWJAP alla UART1", SendAtListAp),
      AtCommand(SendAtListAp, texts[6], "Inviando AT+CWLAP alla UART1", SendAtIp),
      AtCommand(SendAtIp, texts[7], "Inviando AT+CIPSTA? alla UART1", MqttConfig),
      AtCommand(MqttConfig, texts[8], "Inviando AT+MQTTUSERCFG alla UART1", MqttCon),
      AtCommand(MqttCon, texts[9], "Inviando AT+MQTTCONN alla UART1", Idle) ]
  }

  /** The texts of the ten commands, the formatted ones as they come out of their buffers:
      8 bytes for the reset pin number, 512 for the MQTT user configuration, 128 for the
      others. */
  function TenTexts(cfg: IotConfig, rstPin: int): (ts: seq<string>)
    ensures |ts| == 10
  {
    [ BoundedCopy(IntToDecimal(rstPin), 8), "AT\r\n", "AT+GMR\r\n", "AT+CWMODE=1\r\n",
      BoundedCopy(CwlapText(cfg.wifiSsid), 128),
      BoundedCopy(CwjapText(cfg.wifiSsid, cfg.wifiPassword), 128),
      "AT+CWLAP\r\n", "AT+CIPSTA?\r\n",
      BoundedCopy(MqttUserCfgText(cfg.deviceId, cfg.username, cfg.sas), 512),
      BoundedCopy(MqttConnText(cfg.hostname), 128) ]
  }

  function TenCommands(cfg: IotConfig, rstPin: int): (cs: seq<AtCommand>)
    ensures |cs| == 10
  {
    TenTable(TenTexts(cfg, rstPin))
  }

  /** The ten commands go from RST to MQTT_CON in the declaration order of the states,
      each leading to the next and the last to IDLE, and carry their texts in order. */
  lemma TenTableShape(texts: seq<string>)
    requires |texts| == 10
    ensures var cs := TenTable(texts);
      && Linked(cs, Idle) && cs[0].state == SendRst
      && forall k :: 0 <= k < |cs| ==> Rank(cs[k].state) == k && cs[k].command == texts[k]
  {
    var cs := TenTable(texts);
    forall k | 0 <= k < |cs|
      ensures Rank(cs[k].state) == k && cs[k].command == texts[k]
      ensures k < |cs| - 1 ==> cs[k].nextState == cs[k + 1].state
    {
      if k == 0 {} else if k == 1 {} else if k == 2 {} else if k == 3 {} else if k == 4 {}
      else if k == 5 {} else if k == 6 {} else if k == 7 {} else if k == 8 {} else {}
    }
  }

  /** Every one of the ten texts starts with a character other than NUL: the formatted ones
      with their literal prefix, the reset pin with a digit or a minus sign. */
  lemma TenTextsStart(cfg: IotConfig, rstPin: int)
    ensures var ts := TenTexts(cfg, rstPin);
      forall k :: 0 <= k < |ts| ==> ts[k] != [] && ts[k][0] != '\0'
  {
    var ts := TenTexts(cfg, rstPin);
    assert ts[0] != [] && ts[0][0] != '\0' by {
      var d := IntToDecimal(rstPin);
      assert d[0] == '-' || IsDigit(d[0]);
      BoundedCopyNotEmpty(d, 8);
    }
    assert ts[4][0] == 'A' by {
      BoundedCopyNotEmpty(CwlapText(cfg.wifiSsid), 128);
    }
    assert ts[5][0] == 'A' by {
      BoundedCopyNotEmpty(CwjapText(cfg.wifiSsid, cfg.wifiPassword), 128);
    }
    assert ts[8][0] == 'A' by {
      BoundedCopyNotEmpty(MqttUserCfgText(cfg.deviceId, cfg.username, cfg.sas), 512);
    }
    assert ts[9][0] == 'A' by {
      BoundedCopyNotEmpty(MqttConnText(cfg.hostname), 128);
    }
  }

  /** As stored in the pool, the ten commands still run from RST to IDLE: each leads to
      the state of the next, the last to IDLE, each text is non-empty, and no state repeats
      or is IDLE. */
  lemma TenChained(cfg: IotConfig, rstPin: int)
    ensures var cs := StoreAll(TenCommands(cfg, rstPin));
      && Chained(cs, Idle) && DistinctStates(cs) && cs[0].state == SendRst
      && forall k :: 0 <= k < |cs| ==> cs[k].state != Idle
  {
    TenTableShape(TenTexts(cfg, rstPin));
    TenTextsStart(cfg, rstPin);
    TableChained(TenTexts(cfg, rstPin), TenCommands(cfg, rstPin), SendRst, 0);
  }

  /** From RST with UART1 always writable, ten calls reach IDLE with ten commands counted,
      and any number of later calls change nothing. */
  lemma TenStepsReachIdle(cfg: IotConfig, rstPin: int, c: int, n: nat)
    ensures Run(StoreAll(TenCommands(cfg, rstPin)), Progress(SendRst, c), 10) == Progress(Idle, c + 10)
    ensures Run(StoreAll(TenCommands(cfg, rstPin)), Progress(Idle, c), n) == Progress(Idle, c)
  {
    TenChained(cfg, rstPin);
    ChainReachesIdle(StoreAll(TenCommands(cfg, rstPin)), SendRst, c, n);
  }

  /** A text without NUL formatted into a `size`-byte buffer and then stored in a node
      keeps exactly its first characters, as many as both buffers leave room for. */
  lemma CopiedTwice(t: string, size: nat)
    requires '\0' !in t && size > 0
    ensures var c := BoundedCopy(BoundedCopy(t, size), COMMAND_SIZE);
      |c| == Min(Min(|t|, size - 1), COMMAND_SIZE - 1) && c == t[..|c|]
  {
    CStrOfPlain(t);
    CStrOfPlain(BoundedCopy(t, size));
  }

  /** The Wi-Fi scan command a node keeps, from its 128-byte buffer, is the formatted text
      cut to 127 characters, the whole text when the SSID has at most 114 characters. */
  lemma CwlapBounded(ssid: string)
    ensures var c := BoundedCopy(BoundedCopy(CwlapText(ssid), 128), COMMAND_SIZE);
      |c| <= 127 && c == CwlapText(ssid)[..|c|]
      && (|CStr(ssid)| <= 114 ==> c == CwlapText(ssid))
  {
    CopiedTwice(CwlapText(ssid), 128);
  }

  /** The Wi-Fi join command a node keeps is likewise the formatted text cut to 127
      characters. */
  lemma CwjapBounded(ssid: string, password: string)
    ensures var t := CwjapText(ssid, password);
      var c := BoundedCopy(BoundedCopy(t, 128), COMMAND_SIZE);
      |c| <= 127 && c == t[..|c|] && (|t| <= 127 ==> c == t)
  {
    CopiedTwice(CwjapText(ssid, password), 128);
  }

  /** Only the first 255 characters of the MQTT user configuration reach the node, although
      its buffer holds 511: when the device id, user name and SAS token make the text
      longer, its closing `"\r\n"` is lost. */
  lemma MqttConfigCut(deviceId: string, username: string, sas: string)
    ensures var t := MqttUserCfgText(deviceId, username, sas);
      var c := BoundedCopy(BoundedCopy(t, 512), COMMAND_SIZE);
      && (|t| <= 255 ==> c == t)
      && (|t| > 255 ==> |c| == 255 && c == t[..255])
  {
    CopiedTwice(MqttUserCfgText(deviceId, username, sas), 512);
  }

  /** The node for each of the ten commands keeps that command's text cut to 255
      characters, with its state, message and successor. */
  lemma TenStored(cfg: IotConfig, rstPin: int)
    ensures var ts, cs := TenTexts(cfg, rstPin), StoreAll(TenCommands(cfg, rstPin));
      forall k :: 0 <= k < |cs| ==> cs[k].command == BoundedCopy(ts[k], COMMAND_SIZE)
  {
    TenTableShape(TenTexts(cfg, rstPin));
  }

  /** `initialize_command_sequence` of app/task_at_sequence.c: no config appends nothing;
      otherwise the ten commands are appended in order, as many as the pool has room for. */
  method InitializeTen(pool: CommandPool, config: Option<IotConfig>, rstPin: int)
    requires pool.Valid()
    modifies pool, pool.nodes
    ensures pool.Valid() && pool.nodes == old(pool.nodes)
    ensures config.None? ==> pool.count == old(pool.count) && pool.Commands() == old(pool.Commands())
    ensures config.Some? ==>
              pool.count == old(pool.count) + Min(10, MAX_COMMANDS - old(pool.count))
              && pool.Commands() == old(pool.Commands())
                                   + StoreAll(TenCommands(config.value, rstPin)[..Min(10, MAX_COMMANDS - old(pool.count))])
  {
    if config.None? {
      return;
    }
    AppendTen(pool, TenCommands(config.value, rstPin));
  }

  /** Ten appends in a row, of the commands of `cs` in order. */
  method AppendTen(pool: CommandPool, cs: seq<AtCommand>)
    requires pool.Valid() && |cs| == 10
    modifies pool, pool.nodes
    ensures pool.Valid() && pool.nodes == old(pool.nodes)
    ensures pool.count == old(pool.count) + Min(10, MAX_COMMANDS - old(pool.count))
    ensures pool.Commands() == old(pool.Commands()) + StoreAll(cs[..Min(10, MAX_COMMANDS - old(pool.count))])
  {
    ghost var start, count0 := pool.Commands(), pool.count;
    assert cs[..0] == [];
    pool.AppendFour(start, cs, count0, 0);
    pool.AppendFour(start, cs, count0, 4);
    pool.AppendTwo(start, cs, count0, 8);
  }

  /** The globals of app/task_at_sequence.c: the command list (with the pool behind it),
      `current_state` and `at_command_counter`. */
  class AtTask {
    var pool: CommandPool
    var currentState: AtState
    var counter: int

    ghost predicate Valid()
      reads this, pool, pool.nodes
    {
      pool.Valid()
    }

    /** The initial values: an empty list, the state RST and no command sent. */
    constructor ()
      ensures Valid() && fresh(pool) && fresh(pool.nodes)
      ensures pool.count == 0 && pool.Commands() == []
      ensures currentState == SendRst && counter == 0
    {
      pool := new CommandPool();
      currentState, counter := SendRst, 0;
    }

    /** `task_at_sequence_init` without the GPIO set-up: the sequence is built from the
        configuration and the reset pin number. */
    method Init(config: Option<IotConfig>, rstPin: int)
      requires Valid()
      modifies pool, pool.nodes
      ensures Valid()
      ensures config.None? ==> pool.count == old(pool.count) && pool.Commands() == old(pool.Commands())
      ensures config.Some? ==>
                pool.count == old(pool.count) + Min(10, MAX_COMMANDS - old(pool.count))
                && pool.Commands() == old(pool.Commands())
                                     + StoreAll(TenCommands(config.value, rstPin)[..Min(10, MAX_COMMANDS - old(pool.count))])
    {
      InitializeTen(pool, config, rstPin);
    }

    /** `task_at_sequence`: one step of the sequence, with UART1's readiness an input. */
    method Tick(writable: bool)
      requires Valid()
      modifies this`currentState, this`counter
      ensures Valid()
      ensures Progress(currentState, counter)
              == Step(pool.Commands(), old(Progress(currentState, counter)), writable)
    {
      currentState, counter := pool.Process(currentState, counter, writable);
    }
  }

  /** Start-up as the firmware performs it: the task starts in RST with a fresh pool,
      which the ten commands fill exactly, none dropped. */
  method StartUp(cfg: IotConfig, rstPin: int) returns (t: AtTask)
    ensures t.Valid() && t.currentState == SendRst && t.counter == 0
    ensures t.pool.count == MAX_COMMANDS && t.pool.Commands() == StoreAll(TenCommands(cfg, rstPin))
  {
    t := new AtTask();
    t.Init(Some(cfg), rstPin);
    assert TenCommands(cfg, rstPin)[..10] == TenCommands(cfg, rstPin);
  }
}
