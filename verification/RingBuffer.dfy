/**
 The cyclic buffer behind every queue of the office system, as the program updates it, and the bounded first-in
 first-out sequence that it stands for. A buffer of length zero, which one student gives every office, never takes a
 message.
 */
module RingBuffer {
  import opened Offices

  /** The fields of a buffer; `data` has one slot per message it has room for. */
  datatype Ring = Ring(data: seq<Info>, inn: nat, out: nat, count: nat)

  function Step(dim: nat, i: nat): nat {
    if i + 1 == dim then 0 else i + 1
  }

  function Sent(r: Ring, m: Info): Ring
    requires r.inn < |r.data|
  {
    Ring(r.data[r.inn := m], Step(|r.data|, r.inn), r.out, r.count + 1)
  }

  function Received(r: Ring): Ring
    requires r.count > 0
  {
    Ring(r.data, r.inn, Step(|r.data|, r.out), r.count - 1)
  }

  /** The slot `i` places after slot `out`. */
  function Slot(dim: nat, out: nat, i: nat): int {
    if out + i < dim then out + i else out + i - dim
  }

  lemma SlotIsModulo(dim: nat, out: nat, i: nat)
    requires out < dim && i <= dim
    ensures Slot(dim, out, i) == (out + i) % dim
  {
    if out + i >= dim {
      var r := out + i - dim;
      assert r / dim == 0 && (r + dim) / dim == 1;
    }
  }

  ghost predicate Cyclic(r: Ring) {
    var dim := |r.data|;
    && r.count <= dim
    && if dim == 0 then r.inn == 0 && r.out == 0
       else r.inn < dim && r.out < dim && r.inn == Slot(dim, r.out, r.count)
  }

  /** The messages that wait in the buffer, oldest first. */
  ghost function Waiting(r: Ring): (ms: seq<Info>)
    requires Cyclic(r)
    ensures |ms| == r.count
  {
    seq(r.count, (i: nat) requires i < r.count => r.data[Slot(|r.data|, r.out, i)])
  }

  /** `in == (out + count) mod dim`, in these words. */
  lemma InIsOutPlusCount(r: Ring)
    requires Cyclic(r) && |r.data| > 0
    ensures r.inn == (r.out + r.count) % |r.data|
  {
    SlotIsModulo(|r.data|, r.out, r.count);
  }

  /** Sending appends, and does not touch a slot that is still waiting to be read. */
  lemma SentAppends(r: Ring, m: Info)
    requires Cyclic(r) && r.count < |r.data|
    ensures Cyclic(Sent(r, m)) && Waiting(Sent(r, m)) == Waiting(r) + [m]
  {
    var s := Sent(r, m);
    forall i | 0 <= i < r.count ensures Waiting(s)[i] == Waiting(r)[i] {}
  }

  /** Receiving takes the oldest message and keeps the order of the others. */
  lemma ReceivedDrops(r: Ring)
    requires Cyclic(r) && r.count > 0
    ensures Cyclic(Received(r))
    ensures Waiting(r) == [r.data[r.out]] + Waiting(Received(r))
  {
    var s := Received(r);
    forall i | 0 <= i < s.count ensures Waiting(s)[i] == Waiting(r)[i + 1] {}
  }

  // ---------------------------------------------------------------- histories

  datatype Op = Send(m: Info) | Receive

  /** A full buffer makes a sender wait and an empty one a receiver: neither call changes it meanwhile. */
  predicate Goes(r: Ring, op: Op) {
    match op
    case Send(_) => r.count != |r.data|
    case Receive => r.count != 0
  }

  datatype History = History(ring: Ring, sent: seq<Info>, received: seq<Info>)

  ghost function After(h: History, op: Op): History
    requires Cyclic(h.ring)
  {
    if !Goes(h.ring, op) then h
    else match op
      case Send(m) => History(Sent(h.ring, m), h.sent + [m], h.received)
      case Receive => History(Received(h.ring), h.sent, h.received + [h.ring.data[h.ring.out]])
  }

  ghost predicate Fifo(h: History) {
    Cyclic(h.ring) && h.sent == h.received + Waiting(h.ring)
  }

  lemma OneOp(h: History, op: Op)
    requires Fifo(h)
    ensures Fifo(After(h, op)) && |After(h, op).ring.data| == |h.ring.data|
  {
    if Goes(h.ring, op) {
      match op
      case Send(m) => SentAppends(h.ring, m);
      case Receive => ReceivedDrops(h.ring);
    }
  }

  ghost function Replay(h: History, ops: seq<Op>): History
    requires Fifo(h)
    decreases |ops|
  {
    if ops == [] then h else OneOp(h, ops[0]); Replay(After(h, ops[0]), ops[1..])
  }

  lemma {:induction false} ReceivedIsPrefix(h: History, ops: seq<Op>)
    requires Fifo(h)
    ensures var e := Replay(h, ops);
      && Fifo(e) && e.received <= e.sent
      && |e.sent| - |e.received| == e.ring.count <= |e.ring.data| == |h.ring.data|
      && h.received <= e.received && h.sent <= e.sent
    decreases |ops|
  {
    if ops != [] {
      OneOp(h, ops[0]);
      ReceivedIsPrefix(After(h, ops[0]), ops[1..]);
    }
  }

  ghost predicate Fresh(h: History) {
    h.ring.inn == 0 && h.ring.out == 0 && h.ring.count == 0 && h.sent == [] && h.received == []
  }

  /**
   Whatever calls a new buffer sees, the messages received are the first messages sent, in the order they were sent,
   at most `dim` are waiting, and `in` is `count` places after `out`.
   */
  lemma NewBufferIsFifo(h: History, ops: seq<Op>)
    requires Fresh(h)
    ensures Fifo(h)
    ensures var e := Replay(h, ops);
      && e.received <= e.sent && |e.sent| - |e.received| == e.ring.count <= |e.ring.data| == |h.ring.data|
      && (|e.ring.data| > 0 ==> e.ring.inn == (e.ring.out + e.ring.count) % |e.ring.data|)
  {
    assert Waiting(h.ring) == [];
    ReceivedIsPrefix(h, ops);
    var e := Replay(h, ops);
    if |e.ring.data| > 0 {
      InIsOutPlusCount(e.ring);
    }
  }

  // ---------------------------------------------------------------- the queues of the office system

  /** The buffer `r` implements queue `q` of the office system with contents `ms`. */
  ghost predicate Implements(k: nat, q: Queue, r: Ring, ms: seq<Info>) {
    Cyclic(r) && |r.data| == Dim(k, q) && Waiting(r) == ms
  }

  /** What a send or a receive does to the buffer is what a step of the office system does to the queue. */
  lemma QueueRefined(k: nat, q: Queue, r: Ring, ms: seq<Info>, m: Info)
    requires Implements(k, q, r, ms)
    ensures Goes(r, Send(m)) <==> |ms| != Dim(k, q)
    ensures Goes(r, Send(m)) ==> Implements(k, q, Sent(r, m), ms + [m])
    ensures Goes(r, Receive) <==> ms != []
    ensures Goes(r, Receive) ==> r.data[r.out] == ms[0] && Implements(k, q, Received(r), ms[1..])
  {
    if Goes(r, Send(m)) { SentAppends(r, m); }
    if Goes(r, Receive) { ReceivedDrops(r); }
  }

  // ---------------------------------------------------------------- the buffer in memory

  class Buffer {
    var data: array<Info>
    var inn: nat
    var out: nat
    var count: nat

    ghost function Fields(): Ring
      reads this, data
    {
      Ring(data[..], inn, out, count)
    }

    ghost predicate Valid()
      reads this, data
    {
      Cyclic(Fields())
    }

    ghost function Messages(): seq<Info>
      reads this, data
      requires Valid()
    {
      Waiting(Fields())
    }

    constructor (dim: nat)
      ensures Valid() && fresh(data) && data.Length == dim && Messages() == []
    {
      data := new Info[dim](_ => Info(0, 0, false));
      inn, out, count := 0, 0, 0;
    }

    /** The middle of a send, inside the buffer's mutex; `false` sends the caller to sleep. */
    method Put(m: Info) returns (ok: bool)
      requires Valid()
      modifies this`inn, this`count, data
      ensures Valid() && ok == Goes(old(Fields()), Send(m))
      ensures Messages() == if ok then old(Messages()) + [m] else old(Messages())
      ensures Fields() == if ok then Sent(old(Fields()), m) else old(Fields())
    {
      if count == data.Length {
        return false;
      }
      SentAppends(Fields(), m);
      data[inn] := m;
      inn := inn + 1;
      if inn == data.Length {
        inn := 0;
      }
      count := count + 1;
      assert Fields() == Sent(old(Fields()), m);
      return true;
    }

    /** The middle of a receive. */
    method Take() returns (ok: bool, m: Info)
      requires Valid()
      modifies this`out, this`count
      ensures Valid() && ok == Goes(old(Fields()), Receive)
      ensures if ok then old(Messages()) == [m] + Messages() else Messages() == old(Messages())
      ensures Fields() == if ok then Received(old(Fields())) else old(Fields())
    {
      if count == 0 {
        return false, Info(0, 0, false);
      }
      ReceivedDrops(Fields());
      m := data[out];
      out := out + 1;
      if out == data.Length {
        out := 0;
      }
      count := count - 1;
      assert Fields() == Received(old(Fields()));
      return true, m;
    }
  }
}
