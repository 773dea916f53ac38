/** The application glue of main.c, RT.c and app/task_serial_bridge.c: the LED task,
    the UART bridge task over the shared byte ring, the three scheduler registrations,
    and the bridge task of the serial-bridge application that also feeds the packet
    queue. The UART and GPIO calls are left out; readiness of UART0 is an input and a
    byte written to UART0 is a result. */
module Firmware {

  import opened CLib
  import ByteRing
  import CircularBuffer
  import Sched = Scheduler

  /** The globals of main.c and RT.c that the tasks use. */
  class Board {
    var ledOn: bool
    var ring: ByteRing.ByteRing

    ghost predicate Valid()
      reads this, ring
    {
      ring.Valid()
    }

    /** `led_on = false` and an empty ring. */
    constructor ()
      ensures Valid() && fresh(ring) && fresh(ring.buffer)
      ensures !ledOn && ring.Contents() == []
    {
      ledOn := false;
      ring := new ByteRing.ByteRing();
    }

    /** `task_0`: the LED flag flips; the ring is untouched. */
    method Task0()
      requires Valid()
      modifies this`ledOn
      ensures Valid() && ledOn == !old(ledOn)
    {
      ledOn := !ledOn;
    }

    /** The first half of `task_1`: at most one byte leaves the ring per call, the oldest
        one, and only when UART0 can take it. The LED flag is untouched. */
    method Task1(uart0Writable: bool) returns (sent: Option<bv8>)
      requires Valid()
      modifies ring`tail
      ensures Valid() && ledOn == old(ledOn)
      ensures sent.Some? <==> uart0Writable && old(ring.Contents()) != []
      ensures sent.Some? ==> sent.value == old(ring.Contents())[0]
      ensures ring.Contents() == if sent.Some? then old(ring.Contents())[1..] else old(ring.Contents())
    {
      sent := ring.DrainToUart0(uart0Writable);
    }
  }

  /** Two runs of the LED task leave the LED as it was. */
  method Task0Twice(b: Board)
    requires b.Valid()
    modifies b
    ensures b.Valid() && b.ledOn == old(b.ledOn)
  {
    b.Task0();
    b.Task0();
  }

  // ---------------------------------------------------------------------------
  // Registrations

  const LED_INTERVAL_US: int := 500 * 1000
  const BRIDGE_INTERVAL_US: int := 1 * 1000
  const CMD_SEQ_INTERVAL_US: int := 5 * 1000 * 1000

  /** The three tasks `main` registers, in order, when registered at time `now`:
      "led" (priority 2, every 0.5 s), "uart bridge" (priority 1, every 1 ms) and
      "cmd seq" (priority 3, every 5 s). */
  function MainTasks(now: int): (ts: seq<Sched.Task>)
    ensures |ts| == 3
    ensures forall k :: 0 <= k < 3 ==> ts[k].fn.Some? && ts[k].dynamicPriority == ts[k].priority
                                       && ts[k].lastExecution == now && ts[k].totalTime == 0
  {
    [ Sched.Task("led", Some(Sched.TaskFn(0)), 2, 2, LED_INTERVAL_US, now, 0),
      Sched.Task("uart bridge", Some(Sched.TaskFn(1)), 1, 1, BRIDGE_INTERVAL_US, now, 0),
      Sched.Task("cmd seq", Some(Sched.TaskFn(2)), 3, 3, CMD_SEQ_INTERVAL_US, now, 0) ]
  }

  /** The three `scheduler_add_task` calls of `main`, on a scheduler with no task yet. */
  method RegisterTasks(s: Sched.Scheduler, now: int)
    requires s.Valid() && s.taskCount == 0
    modifies s.tasks, s`taskCount
    ensures s.Valid() && s.taskCount == 3
    ensures s.tasks[..3] == MainTasks(now)
  {
    s.AddTask("led", Some(Sched.TaskFn(0)), 2, LED_INTERVAL_US, now);
    s.AddTask("uart bridge", Some(Sched.TaskFn(1)), 1, BRIDGE_INTERVAL_US, now);
    s.AddTask("cmd seq", Some(Sched.TaskFn(2)), 3, CMD_SEQ_INTERVAL_US, now);
  }

  /** Once all three registered tasks are ready and their priorities have not drifted,
      "cmd seq" (index 2, the highest priority) is the one selected; before any of them is
      ready, none is. */
  lemma CmdSeqSelectedFirst(registeredAt: int, now: int)
    ensures now - registeredAt >= CMD_SEQ_INTERVAL_US ==> Sched.Select(MainTasks(registeredAt), now) == 2
    ensures now - registeredAt < BRIDGE_INTERVAL_US ==> Sched.Select(MainTasks(registeredAt), now) == -1
  {
    var ts := MainTasks(registeredAt);
    if now - registeredAt >= CMD_SEQ_INTERVAL_US {
      Sched.SelectIsBest(ts, now, 2);
    }
    if now - registeredAt < BRIDGE_INTERVAL_US {
      Sched.SelectIsBest(ts, now, -1);
    }
  }

  /** When only the bridge task is ready (between 1 ms and 0.5 s after registration), it
      is selected although its priority is the lowest. */
  lemma OnlyBridgeReady(registeredAt: int, now: int)
    requires BRIDGE_INTERVAL_US <= now - registeredAt < LED_INTERVAL_US
    ensures Sched.Select(MainTasks(registeredAt), now) == 1
  {
    Sched.SelectIsBest(MainTasks(registeredAt), now, 1);
  }

  // ---------------------------------------------------------------------------
  // The serial-bridge application

  /** The globals of app/task_serial_bridge.c: the byte ring and `queue_example`. */
  class SerialBridge {
    var ring: ByteRing.ByteRing
    var queue: CircularBuffer.CircularBuffer

    ghost predicate Valid()
      reads this, ring, queue
    {
      ring.Valid() && queue.Valid()
    }

    /** The zero-initialised globals after `task_serial_bridge_init`: both empty. */
    constructor ()
      ensures Valid() && fresh(ring) && fresh(ring.buffer) && fresh(queue) && fresh(queue.buffer)
      ensures ring.Contents() == [] && queue.Contents() == []
    {
      ring := new ByteRing.ByteRing();
      queue := new CircularBuffer.CircularBuffer();
      new;
      queue.Init();
    }

    /** `task_serial_bridge`: the packet (uninitialised in the C code, so any packet) is
        offered to `queue_example` and the result ignored; then at most one byte, the
        oldest, moves from the ring to UART0 when UART0 can take it. */
    method Task(packet: CircularBuffer.Packet, uart0Writable: bool) returns (queued: bool, sent: Option<bv8>)
      requires Valid()
      modifies queue`head, queue`full, queue.buffer, ring`tail
      ensures Valid()
      ensures queued <==> |old(queue.Contents())| < CircularBuffer.BUFFER_SIZE
      ensures queue.Contents() == if queued then old(queue.Contents()) + [packet] else old(queue.Contents())
      ensures sent.Some? <==> uart0Writable && old(ring.Contents()) != []
      ensures sent.Some? ==> sent.value == old(ring.Contents())[0]
      ensures ring.Contents() == if sent.Some? then old(ring.Contents())[1..] else old(ring.Contents())
    {
      queued := queue.Enqueue(packet);
      sent := ring.DrainToUart0(uart0Writable);
    }
  }

  /** Nothing dequeues from `queue_example`: from empty, the first 128 runs of the bridge
      task queue their packet and every later run is refused. */
  method BridgeQueueSaturates(b: SerialBridge, packets: seq<CircularBuffer.Packet>, uart0Writable: bool)
    returns (accepted: seq<bool>)
    requires b.Valid() && b.queue.Contents() == []
    modifies b.queue, b.queue.buffer, b.ring
    ensures b.Valid()
    ensures |accepted| == |packets|
    ensures forall k :: 0 <= k < |packets| ==> (accepted[k] <==> k < CircularBuffer.BUFFER_SIZE)
    ensures b.queue.Contents() == packets[..Min(|packets|, CircularBuffer.BUFFER_SIZE)]
  {
    accepted := [];
    var i := 0;
    while i < |packets|
      invariant 0 <= i <= |packets| && |accepted| == i
      invariant b.Valid() && b.queue.buffer == old(b.queue.buffer)
      invariant forall k :: 0 <= k < i ==> (accepted[k] <==> k < CircularBuffer.BUFFER_SIZE)
      invariant b.queue.Contents() == packets[..Min(i, CircularBuffer.BUFFER_SIZE)]
    {
      var queued, _ := b.Task(packets[i], uart0Writable);
      if i < CircularBuffer.BUFFER_SIZE {
        assert packets[..i + 1] == packets[..i] + [packets[i]];
      }
      accepted := accepted + [queued];
      i := i + 1;
    }
  }
}
