/** The packet queue of system/circular_buffer.c: 128 slots, a `head` where the next
    packet is written, a `tail` where the oldest is read, and a `full` flag that tells a
    full queue from an empty one when the two indices meet. */
module CircularBuffer {

  import opened CLib

  const BUFFER_SIZE: int := 128

  /** `data_packet_t`. */
  datatype Packet = Packet(byte: bv8, additionalData: int)

  class CircularBuffer {
    var buffer: array<Packet>
    var head: int
    var tail: int
    var full: bool

    ghost predicate Valid()
      reads this
    {
      buffer.Length == BUFFER_SIZE
      && 0 <= head < BUFFER_SIZE && 0 <= tail < BUFFER_SIZE
      && (full ==> head == tail)
    }

    /** How many packets the queue holds. */
    function Count(): (n: nat)
      requires Valid()
      reads this
      ensures n <= BUFFER_SIZE
    {
      if full then BUFFER_SIZE else if tail <= head then head - tail else head + BUFFER_SIZE - tail
    }

    /** The queued packets, oldest first. */
    ghost function Contents(): (s: seq<Packet>)
      requires Valid()
      reads this, buffer
      ensures |s| == Count()
    {
      Window(buffer[..], tail, Count())
    }

    /** A queue whose storage holds arbitrary packets, before `circular_buffer_init`. */
    constructor ()
      ensures Valid() && fresh(buffer)
      ensures head == 0 && tail == 0 && !full
    {
      buffer := new Packet[BUFFER_SIZE](_ => Packet(0, 0));
      head, tail, full := 0, 0, false;
    }

    /** `circular_buffer_init`: the queue becomes empty; the storage is left as it was. */
    method Init()
      requires Valid()
      modifies this`head, this`tail, this`full
      ensures Valid()
      ensures head == 0 && tail == 0 && !full
      ensures Contents() == [] && IsEmpty() && !IsFull()
    {
      head := 0;
      tail := 0;
      full := false;
    }

    /** `circular_buffer_enqueue`: refused, with nothing changed, when full; otherwise
        the packet is stored at `head`, `head` advances modulo 128, and the queue is full
        exactly when `head` has caught up with `tail`. */
    method Enqueue(data: Packet) returns (ok: bool)
      requires Valid()
      modifies this`head, this`full, buffer
      ensures Valid()
      ensures ok == !old(full)
      ensures ok <==> |old(Contents())| < BUFFER_SIZE
      ensures !ok ==> head == old(head) && full == old(full) && buffer[..] == old(buffer[..])
      ensures ok ==> head == (old(head) + 1) % BUFFER_SIZE && full == (head == tail)
      ensures ok ==> buffer[..] == old(buffer[..])[old(head) := data]
      ensures Contents() == if ok then old(Contents()) + [data] else old(Contents())
    {
      if full {
        return false;
      }
      ghost var oldBuffer, oldCount := buffer[..], Count();
      assert head == Wrap(tail + oldCount, BUFFER_SIZE);
      buffer[head] := data;
      head := (head + 1) % BUFFER_SIZE;
      full := head == tail;
      ok := true;
      assert Count() == oldCount + 1;
      WindowPush(oldBuffer, tail, oldCount, data);
    }

    /** `circular_buffer_dequeue`: `None` (the `false` result) with nothing changed when
        empty; otherwise the packet at `tail`, `tail` advanced modulo 128 and `full` cleared. */
    method Dequeue() returns (r: Option<Packet>)
      requires Valid()
      modifies this`tail, this`full
      ensures Valid()
      ensures r.None? <==> old(Contents()) == []
      ensures r.None? ==> tail == old(tail) && full == old(full)
      ensures r.Some? ==> r.value == old(buffer[tail]) == old(Contents())[0]
      ensures r.Some? ==> tail == (old(tail) + 1) % BUFFER_SIZE && !full
      ensures Contents() == if r.Some? then old(Contents())[1..] else old(Contents())
    {
      if IsEmpty() {
        return None;
      }
      ghost var oldBuffer, oldTail, oldCount := buffer[..], tail, Count();
      WindowPop(oldBuffer, oldTail, oldCount);
      r := Some(buffer[tail]);
      tail := (tail + 1) % BUFFER_SIZE;
      full := false;
      assert tail == Wrap(oldTail + 1, BUFFER_SIZE);
      assert Count() == oldCount - 1;
      assert Contents() == Window(oldBuffer, tail, oldCount - 1);
    }

    /** `circular_buffer_is_empty`. */
    function IsEmpty(): (r: bool)
      requires Valid()
      reads this
      ensures r <==> Count() == 0
    {
      !full && head == tail
    }

    /** `circular_buffer_is_full`. */
    function IsFull(): (r: bool)
      requires Valid()
      reads this
      ensures r <==> Count() == BUFFER_SIZE
    {
      full
    }
  }
}
