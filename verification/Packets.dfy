/**
 The packet-queue device of `src/wg/device.rs`: packets of any length stored as one flat
 byte queue beside a queue of their lengths.
 */
module Packets {
  import opened Options
  import opened Texts

  type Packet = Bytes

  /** The two queues, as values. */
  datatype Flat = Flat(lengths: seq<nat>, bytes: Bytes)
  {
    /** Every byte held belongs to exactly one packet. */
    ghost predicate Valid() { Sum(lengths) == |bytes| }
  }

  ghost function Sum(lengths: seq<nat>): nat {
    if lengths == [] then 0 else lengths[0] + Sum(lengths[1..])
  }

  /** The packets the two queues stand for. */
  ghost function Unpack(q: Flat): (packets: seq<Packet>)
    requires q.Valid()
    decreases |q.lengths|
  {
    if q.lengths == [] then []
    else [q.bytes[..q.lengths[0]]] + Unpack(Flat(q.lengths[1..], q.bytes[q.lengths[0]..]))
  }

  function Push(q: Flat, p: Packet): Flat { Flat(q.lengths + [|p|], q.bytes + p) }

  ghost function Pop(q: Flat): (r: (Option<Packet>, Flat))
    requires q.Valid()
  {
    if q.lengths == [] then (None, q)
    else (Some(q.bytes[..q.lengths[0]]), Flat(q.lengths[1..], q.bytes[q.lengths[0]..]))
  }

  lemma {:induction false} PushAppends(q: Flat, p: Packet)
    requires q.Valid()
    ensures Push(q, p).Valid() && Unpack(Push(q, p)) == Unpack(q) + [p]
    decreases |q.lengths|
  {
    var q' := Push(q, p);
    if q.lengths == [] {
      assert q'.bytes[|p|..] == [] && q'.bytes[..|p|] == p;
      assert q'.lengths[1..] == [];
    } else {
      var n := q.lengths[0];
      var rest := Flat(q.lengths[1..], q.bytes[n..]);
      PushAppends(rest, p);
      assert Push(rest, p).lengths == q'.lengths[1..];
      assert Push(rest, p).bytes == q'.bytes[n..];
      assert q'.bytes[..n] == q.bytes[..n];
    }
  }

  lemma PopTakesFirst(q: Flat)
    requires q.Valid()
    ensures var (p, q') := Pop(q);
            && q'.Valid()
            && (if Unpack(q) == [] then p == None && q' == q
                else p == Some(Unpack(q)[0]) && Unpack(q') == Unpack(q)[1..])
  {}

  // ---- any mix of operations ----------------------------------------------------

  datatype Op = Enqueue(packet: Packet) | Dequeue

  /** What each dequeue of a run on the flat queue answers, in order, and what is left. */
  ghost function FlatRun(q: Flat, ops: seq<Op>): (seq<Option<Packet>>, Flat)
    requires q.Valid()
    decreases ops
  {
    if ops == [] then ([], q)
    else
      match ops[0]
      case Enqueue(p) => PushAppends(q, p); FlatRun(Push(q, p), ops[1..])
      case Dequeue =>
        PopTakesFirst(q);
        var (p, q') := Pop(q);
        var (answers, end) := FlatRun(q', ops[1..]);
        ([p] + answers, end)
  }

  /** The same on a plain first-in-first-out list of packets. */
  ghost function FifoRun(fifo: seq<Packet>, ops: seq<Op>): (seq<Option<Packet>>, seq<Packet>)
    decreases ops
  {
    if ops == [] then ([], fifo)
    else
      match ops[0]
      case Enqueue(p) => FifoRun(fifo + [p], ops[1..])
      case Dequeue =>
        var first := if fifo == [] then None else Some(fifo[0]);
        var (answers, end) := FifoRun(if fifo == [] then [] else fifo[1..], ops[1..]);
        ([first] + answers, end)
  }

  /**
   The flat queue is a first-in-first-out queue of packets: over every mix of enqueues
   and dequeues each dequeue answers the same, empty packets included.
   */
  lemma {:induction false} FlatRefinesFifo(q: Flat, ops: seq<Op>)
    requires q.Valid()
    ensures FlatRun(q, ops).1.Valid()
    ensures FlatRun(q, ops).0 == FifoRun(Unpack(q), ops).0
    ensures Unpack(FlatRun(q, ops).1) == FifoRun(Unpack(q), ops).1
    decreases ops
  {
    if ops != [] {
      match ops[0]
      case Enqueue(p) =>
        PushAppends(q, p);
        FlatRefinesFifo(Push(q, p), ops[1..]);
      case Dequeue =>
        PopTakesFirst(q);
        FlatRefinesFifo(Pop(q).1, ops[1..]);
    }
  }

  // ---- the queue, the tokens and the device ---------------------------------------

  class PacketQueue {
    var lengths: seq<nat>
    var buffers: Bytes

    ghost function View(): Flat reads this { Flat(lengths, buffers) }

    ghost predicate Valid() reads this { View().Valid() }

    ghost function Contents(): seq<Packet> reads this requires Valid() { Unpack(View()) }

    constructor ()
      ensures Valid() && Contents() == []
    {
      lengths := [];
      buffers := [];
    }

    method Enqueue(packet: Packet)
      requires Valid()
      modifies this
      ensures Valid() && View() == Push(old(View()), packet) && Contents() == old(Contents()) + [packet]
    {
      PushAppends(View(), packet);
      lengths := lengths + [|packet|];
      buffers := buffers + packet;
    }

    /** Pop the front packet; an empty queue gives an empty packet. */
    method Dequeue() returns (buf: Packet)
      requires Valid()
      modifies this
      ensures Valid() && View() == Pop(old(View())).1
      ensures old(Contents()) == [] ==> buf == [] && Contents() == []
      ensures old(Contents()) != [] ==> buf == old(Contents())[0] && Contents() == old(Contents())[1..]
    {
      PopTakesFirst(View());
      var len := 0;
      if lengths != [] { len, lengths := lengths[0], lengths[1..]; }
      buf := buffers[..len];
      buffers := buffers[len..];
    }

    method IsEmpty() returns (empty: bool)
      requires Valid()
      ensures empty <==> Contents() == []
    {
      empty := lengths == [];
    }
  }

  /** `Vec::resize`: shorter keeps a prefix, longer is filled with zeros. */
  function Resize(b: Bytes, len: nat): (r: Bytes)
    ensures |r| == len && forall i :: 0 <= i < len ==> r[i] == if i < |b| then b[i] else 0
  {
    if len <= |b| then b[..len] else b + seq(len - |b|, _ => 0)
  }

  /** One direction's queue, with the scratch buffer its packets pass through. */
  class Token {
    const queue: PacketQueue
    var buffer: Bytes

    ghost predicate Valid() reads this, queue { queue.Valid() }

    constructor ()
      ensures Valid() && fresh(queue) && queue.Contents() == [] && buffer == []
    {
      queue := new PacketQueue();
      buffer := [];
    }

    method RxConsume() returns (packet: Packet)
      requires Valid()
      modifies this, queue
      ensures Valid() && buffer == packet
      ensures old(queue.Contents()) == [] ==> packet == [] && queue.Contents() == []
      ensures old(queue.Contents()) != [] ==>
          packet == old(queue.Contents())[0] && queue.Contents() == old(queue.Contents())[1..]
    {
      buffer := queue.Dequeue();
      packet := buffer;
    }

    /**
     Queue a packet of `len` bytes that `fill` writes in place. What `fill` is given is
     the previous packet's bytes, cut or zero-extended: it must write every byte it means.
     */
    method TxConsume(len: nat, fill: Bytes -> Bytes)
      requires Valid() && forall b :: |fill(b)| == |b|
      modifies this, queue
      ensures Valid() && buffer == fill(Resize(old(buffer), len)) && |buffer| == len
      ensures queue.Contents() == old(queue.Contents()) + [buffer]
    {
      buffer := fill(Resize(buffer, len));
      queue.Enqueue(buffer);
    }
  }

  class Device {
    const recv: Token
    const send: Token

    ghost predicate Valid() reads this, recv, send, recv.queue, send.queue {
      recv.Valid() && send.Valid() && recv != send && recv.queue != send.queue
    }

    constructor ()
      ensures Valid() && recv.queue.Contents() == [] && send.queue.Contents() == []
    {
      recv := new Token();
      send := new Token();
    }

    /** A decrypted packet for the stack to process; what is to be sent is untouched. */
    method EnqueueReceived(packet: Packet)
      requires Valid()
      modifies recv.queue
      ensures Valid() && recv.queue.Contents() == old(recv.queue.Contents()) + [packet]
      ensures send.queue.Contents() == old(send.queue.Contents())
    {
      recv.queue.Enqueue(packet);
    }

    method DequeueSent() returns (packet: Option<Packet>)
      requires Valid()
      modifies send, send.queue
      ensures Valid() && recv.queue.Contents() == old(recv.queue.Contents())
      ensures old(send.queue.Contents()) == [] ==> packet == None && send.queue.Contents() == []
      ensures old(send.queue.Contents()) != [] ==>
                && packet == Some(old(send.queue.Contents())[0])
                && send.queue.Contents() == old(send.queue.Contents())[1..]
    {
      var empty := send.queue.IsEmpty();
      if empty { return None; }
      send.buffer := send.queue.Dequeue();
      packet := Some(send.buffer);
    }

    /** The loop with which the stack task empties the send side: every packet, in order. */
    method DrainSent() returns (outgoing: seq<Packet>)
      requires Valid()
      modifies send, send.queue
      ensures Valid() && recv.queue.Contents() == old(recv.queue.Contents())
      ensures outgoing == old(send.queue.Contents()) && send.queue.Contents() == []
    {
      outgoing := [];
      var packet := DequeueSent();
      while packet.Some?
        invariant Valid() && recv.queue.Contents() == old(recv.queue.Contents())
        invariant old(send.queue.Contents())
               == outgoing + (if packet.Some? then [packet.value] else []) + send.queue.Contents()
        invariant packet.None? ==> send.queue.Contents() == []
        decreases |send.queue.Contents()| + (if packet.Some? then 1 else 0)
      {
        outgoing := outgoing + [packet.value];
        packet := DequeueSent();
      }
    }
  }
}
