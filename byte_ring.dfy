/** The UART byte ring that main.c, RT.c and app/task_serial_bridge.c each define
    identically: 2048 bytes, `head` where the receive interrupt writes and `tail` where
    the bridge task reads. One slot is always kept free, so `head == tail` means empty
    and the ring holds at most 2047 bytes. */
module ByteRing {

  import opened CLib

  const BUFFER_SIZE: int := 2048
  const CAPACITY: int := BUFFER_SIZE - 1

  class ByteRing {
    var buffer: array<bv8>
    var head: int
    var tail: int

    ghost predicate Valid()
      reads this
    {
      buffer.Length == BUFFER_SIZE && 0 <= head < BUFFER_SIZE && 0 <= tail < BUFFER_SIZE
    }

    /** How many bytes are waiting. */
    function Count(): (n: nat)
      requires Valid()
      reads this
      ensures n <= CAPACITY
    {
      if tail <= head then head - tail else head + BUFFER_SIZE - tail
    }

    /** The waiting bytes, oldest first. */
    ghost function Contents(): (s: seq<bv8>)
      requires Valid()
      reads this, buffer
      ensures |s| == Count()
    {
      Window(buffer[..], tail, Count())
    }

    /** The zero-initialised globals: empty, with a zeroed buffer. */
    constructor ()
      ensures Valid() && fresh(buffer)
      ensures head == 0 && tail == 0 && Contents() == []
    {
      buffer := new bv8[BUFFER_SIZE](_ => 0);
      head, tail := 0, 0;
    }

    /** `buffer_put`: the byte is stored at `head` and `head` advances modulo 2048, unless
        that would make `head` meet `tail`; then the byte is dropped and nothing changes. */
    method Put(data: bv8)
      requires Valid()
      modifies this`head, buffer
      ensures Valid() && tail == old(tail)
      ensures var stored := (old(head) + 1) % BUFFER_SIZE != tail;
        (stored <==> |old(Contents())| < CAPACITY)
        && (stored ==> head == (old(head) + 1) % BUFFER_SIZE
                       && buffer[..] == old(buffer[..])[old(head) := data])
        && (!stored ==> head == old(head) && buffer[..] == old(buffer[..]))
      ensures Contents() == if |old(Contents())| < CAPACITY then old(Contents()) + [data]
                            else old(Contents())
    {
      var nextHead := (head + 1) % BUFFER_SIZE;
      if nextHead != tail {
        ghost var oldBuffer, oldCount, oldHead := buffer[..], Count(), head;
        assert oldHead == Wrap(tail + oldCount, BUFFER_SIZE);
        buffer[head] := data;
        head := nextHead;
        assert buffer[..] == oldBuffer[oldHead := data];
        assert Count() == oldCount + 1;
        WindowPush(oldBuffer, tail, oldCount, data);
      }
    }

    /** `buffer_get`: `None` (the result 0) when `head == tail`; otherwise the oldest byte
        (result 1), with `tail` advanced modulo 2048. */
    method Get() returns (r: Option<bv8>)
      requires Valid()
      modifies this`tail
      ensures Valid() && head == old(head)
      ensures r.None? <==> old(head) == old(tail)
      ensures r.None? <==> old(Contents()) == []
      ensures r.None? ==> tail == old(tail)
      ensures r.Some? ==> r.value == old(buffer[tail]) == old(Contents())[0]
                          && tail == (old(tail) + 1) % BUFFER_SIZE
      ensures Contents() == if r.Some? then old(Contents())[1..] else old(Contents())
    {
      if head == tail {
        return None;
      }
      ghost var oldCount := Count();
      WindowPop(buffer[..], tail, oldCount);
      r := Some(buffer[tail]);
      tail := (tail + 1) % BUFFER_SIZE;
    }

    /** The first half of the bridge task (`task_1`, `task_serial_bridge`): when UART0 can
        take a byte and the ring is not empty, move the oldest byte to UART0. The result is
        the byte written to UART0, if any. */
    method DrainToUart0(uart0Writable: bool) returns (sent: Option<bv8>)
      requires Valid()
      modifies this`tail
      ensures Valid() && head == old(head)
      ensures sent.Some? <==> uart0Writable && old(Contents()) != []
      ensures sent.Some? ==> sent.value == old(Contents())[0]
                             && tail == (old(tail) + 1) % BUFFER_SIZE
      ensures sent.None? ==> tail == old(tail)
      ensures Contents() == if sent.Some? then old(Contents())[1..] else old(Contents())
    {
      sent := None;
      if uart0Writable {
        if head != tail {
          ghost var oldCount := Count();
          WindowPop(buffer[..], tail, oldCount);
          var data := buffer[tail];
          tail := (tail + 1) % BUFFER_SIZE;
          sent := Some(data);
        }
      }
    }
  }

  /** Bytes come out in the order they went in: two bytes put into an empty ring are got
      back first-in first-out, and then the ring is empty again. */
  method PutGetInOrder(ring: ByteRing, x: bv8, y: bv8)
    requires ring.Valid() && ring.Contents() == []
    modifies ring, ring.buffer
    ensures ring.Valid() && ring.Contents() == []
  {
    ring.Put(x);
    ring.Put(y);
    var a := ring.Get();
    assert a == Some(x);
    var b := ring.Get();
    assert b == Some(y);
    var c := ring.Get();
    assert c == None;
  }
}
