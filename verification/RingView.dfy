/** `SpscRingView` run without interference: its methods push to and pop from a bounded
    FIFO queue (include/message_queue.h). RingModel has the interleaved form. */
module RingView {
  import opened Types
  import opened NodeSpec
  import opened PayloadStore
  import opened RingModel
  import opened RingSafety
  import opened RingFifo

  predicate AllFit(ms: seq<Message>) {
    forall k :: 0 <= k < |ms| ==> Bytes(ms[k]) <= 1088
  }

  /** Bytes `nt_store_payload_padded` leaves in a slot. */
  function SlotBytes(buf: Buffer, m: Message): (r: Buffer)
    requires |buf| == 1088 && Fits(m)
    ensures |r| == 1088 && r[..Bytes(m)] == m.data[..Bytes(m)]
  {
    Filled(buf, m.data, Bytes(m), (Bytes(m) + 15) / 16 * 16)
  }

  function SlotWritten(mem: Memory, k: nat, m: Message): (r: Memory)
    requires Shape(mem) && Fits(m)
    ensures Shape(r) && Holds(r, k, m)
  {
    var c := Cell(k);
    mem.(payloads := mem.payloads[c := SlotBytes(mem.payloads[c], m)], descs := mem.descs[c := Words(Wrap(k + 1), m)])
  }

  ghost predicate HoldsAll(mem: Memory, h: nat, ms: seq<Message>)
    requires Shape(mem)
  {
    forall k :: 0 <= k < |ms| ==> Holds(mem, h + k, ms[k])
  }

  /** Writing the next free slot disturbs neither the queue nor what was just written. */
  lemma {:induction false} WriteKeeps(mem: Memory, published: seq<Message>, t: nat, done: seq<Message>, m: Message)
    requires Shape(mem) && Fits(m) && t <= |published| && |published| + |done| < t + 32768
    requires Kept(mem, published, t) && HoldsAll(mem, |published|, done)
    ensures var mem' := SlotWritten(mem, |published| + |done|, m);
            Kept(mem', published, t) && HoldsAll(mem', |published|, done + [m])
  {
    WriteKeepsQueue(mem, published, t, |published| + |done|, m);
    WriteKeepsBatch(mem, |published|, done, m);
    hide Kept, HoldsAll, SlotWritten;
  }

  lemma {:induction false} WriteKeepsQueue(mem: Memory, published: seq<Message>, t: nat, at: nat, m: Message)
    requires Shape(mem) && Fits(m) && |published| <= at < t + 32768 && Kept(mem, published, t)
    ensures Kept(SlotWritten(mem, at, m), published, t)
  {
    WrittenElsewhere(mem, at, m);
    hide SlotWritten, Holds, Cell;
    forall k | t <= k < |published| ensures Holds(SlotWritten(mem, at, m), k, published[k]) {
      CellsDistinct(k, at);
      assert Holds(mem, k, published[k]);
    }
  }

  lemma {:induction false} WriteKeepsBatch(mem: Memory, h: nat, done: seq<Message>, m: Message)
    requires Shape(mem) && Fits(m) && |done| < 32768 && HoldsAll(mem, h, done)
    ensures HoldsAll(SlotWritten(mem, h + |done|, m), h, done + [m])
  {
    var at, all := h + |done|, done + [m];
    WrittenElsewhere(mem, at, m);
    assert all[|done|] == m && Holds(SlotWritten(mem, at, m), at, m);
    hide SlotWritten, Holds, Cell;
    forall k | 0 <= k < |all| ensures Holds(SlotWritten(mem, at, m), h + k, all[k]) {
      if k < |done| {
        CellsDistinct(h + k, at);
        assert Holds(mem, h + k, done[k]) && all[k] == done[k];
      }
    }
  }

  lemma {:induction false} WrittenElsewhere(mem: Memory, at: nat, m: Message)
    requires Shape(mem) && Fits(m)
    ensures forall k, x {:trigger Holds(SlotWritten(mem, at, m), k, x)} ::
              Cell(k) != Cell(at) && Holds(mem, k, x) ==> Holds(SlotWritten(mem, at, m), k, x)
  {
    hide Cell, Wrap, SlotBytes, Words;
    var mem' := SlotWritten(mem, at, m);
    forall k: nat, x | Cell(k) != Cell(at) && Holds(mem, k, x) ensures Holds(mem', k, x) {
      OtherSlot(mem, mem', Cell(at), k, x);
    }
  }

  class SpscRing {
    var head: nat
    var tail: nat
    var descs: seq<seq<Word>>
    var payloads: seq<Buffer>
    ghost var published: seq<Message>
    ghost var consumed: nat

    ghost function Mem(): Memory
      reads this
    {
      Memory(head, tail, descs, payloads)
    }

    ghost predicate Valid()
      reads this
    {
      && Shape(Mem()) && consumed <= |published| <= consumed + 32768
      && head == Wrap(|published|) && tail == Wrap(consumed) && Kept(Mem(), published, consumed)
    }

    /** The messages published and not yet consumed. */
    ghost function Queue(): seq<Message>
      requires consumed <= |published|
      reads this
    {
      published[consumed..]
    }

    constructor ()
      ensures Valid() && Queue() == []
    {
      head, tail, published, consumed := 0, 0, [], 0;
      descs := seq(32768, _ => seq(12, _ => Num(0)));
      payloads := seq(32768, _ => Zeros(1088));
    }

    method CanPushBatch(count: nat) returns (ok: bool)
      requires Valid() && count < 0x40_0000_0000_0000
      ensures ok <==> |Queue()| + count <= 32768
    {
      WrapDistance(|published|, consumed);
      hide Kept, Shape;
      ok := Wrap(Wrap(head - tail) + count) <= 32768;
    }

    /** Stores message number i of a batch: payload first, then its descriptor. */
    method WriteSlot(i: nat, m: Message)
      requires Shape(Mem()) && Fits(m) && head == Wrap(|published|)
      modifies this`descs, this`payloads
      ensures Shape(Mem()) && Mem() == SlotWritten(old(Mem()), |published| + i, m)
    {
      CellAt(|published|, i);
      WrapAdd(|published|, i + 1);
      hide Wrap, Cell, Words, SlotBytes;
      var idx := Cell(Wrap(head + i));
      payloads := payloads[idx := SlotBytes(payloads[idx], m)];
      descs := descs[idx := Words(Wrap(head + i + 1), m)];
    }

    /** Stops at the first message that is too long; nothing is published either way. */
    method WriteBatchAt(ms: seq<Message>) returns (ok: bool)
      requires Valid() && |Queue()| + |ms| <= 32768 && forall k :: 0 <= k < |ms| ==> |ms[k].data| == 1088
      modifies this`descs, this`payloads
      ensures Valid() && ok == AllFit(ms) && (ok ==> HoldsAll(Mem(), |published|, ms))
    {
      hide Wrap, Cell, Holds, Kept, HoldsAll, SlotWritten;
      NoneHeld(Mem(), |published|);
      for i := 0 to |ms|
        invariant Valid() && AllFit(ms[..i]) && HoldsAll(Mem(), |published|, ms[..i])
      {
        var m := ms[i];
        if m.keyLen + m.valueLen > 1088 {
          return false;
        }
        WriteKeeps(Mem(), published, consumed, ms[..i], m);
        WriteSlot(i, m);
        assert ms[..i + 1] == ms[..i] + [m];
      }
      assert ms[..|ms|] == ms;
      return true;
    }

    method PublishHead(ghost ms: seq<Message>, count: nat)
      requires Valid() && count == |ms| && |Queue()| + |ms| <= 32768 && HoldsAll(Mem(), |published|, ms)
      modifies this`head, this`published
      ensures Valid() && published == old(published) + ms
    {
      WrapAdd(|published|, count);
      hide Wrap;
      PublishAll(Mem(), published, consumed, ms, Wrap(head + count));
      hide Kept, HoldsAll;
      head := Wrap(head + count);
      published := published + ms;
    }

    /** The whole batch is appended, or nothing is. */
    method PushBatch(ms: seq<Message>) returns (ok: bool)
      requires Valid() && |ms| < 0x40_0000_0000_0000 && forall k :: 0 <= k < |ms| ==> |ms[k].data| == 1088
      modifies this`head, this`published, this`descs, this`payloads
      ensures Valid() && (ok <==> |old(Queue())| + |ms| <= 32768 && AllFit(ms))
      ensures Queue() == if ok then old(Queue()) + ms else old(Queue())
    {
      hide Wrap, Kept, HoldsAll, Shape;
      if |ms| == 0 {
        return true;
      }
      ok := CanPushBatch(|ms|);
      if ok {
        ok := WriteBatchAt(ms);
        if ok {
          PublishHead(ms, |ms|);
        }
      }
    }

    /** `read_slot`: the descriptor, then the bytes it announces; the rest of the receive
        buffer stays as it was. */
    method ReadSlot(i: nat, scratch: Buffer) returns (ok: bool, out: Message)
      requires Valid() && i < |Queue()| && |scratch| == 1088
      ensures ok && SameMessage(out, Queue()[i])
    {
      hide Wrap, Cell, Holds, Described, Overlay, Take, SameMessage;
      assert Holds(Mem(), consumed + i, published[consumed + i]);
      hide Kept;
      CellAt(consumed, i);
      WrapAdd(consumed, i + 1);
      SlotRead(Mem(), consumed + i, published[consumed + i], scratch);
      var idx := Cell(Wrap(tail + i));
      var w := descs[idx];
      ok := w[0] == Num(Wrap(tail + i + 1)) && NumberIn(w[10]) + NumberIn(w[11]) <= 1088;
      out := Described(w, scratch);
      out := out.(data := Overlay(scratch, Take(payloads[idx], Bytes(out))));
    }

    method Pop(scratch: Buffer) returns (ok: bool, out: Message)
      requires Valid() && |scratch| == 1088
      modifies this`tail, this`consumed
      ensures Valid() && ok == (old(Queue()) != [])
      ensures if ok then SameMessage(out, old(Queue())[0]) && Queue() == old(Queue())[1..] else Queue() == old(Queue())
    {
      WrapDistance(|published|, consumed);
      if tail == head {
        return false, Described(descs[0], scratch);
      }
      ok, out := ReadSlot(0, scratch);
      CommitTail(1);
    }

    method CommitTail(count: nat)
      requires Valid() && count <= |Queue()|
      modifies this`tail, this`consumed
      ensures Valid() && consumed == old(consumed) + count
    {
      WrapAdd(consumed, count);
      hide Wrap;
      CountersFrame(Mem(), published, consumed, head, Wrap(tail + count));
      tail := Wrap(tail + count);
      consumed := consumed + count;
    }

    /** `drain_source_ring`: up to `max` messages off the front. */
    method DrainBatch(max: nat, scratch: Buffer) returns (out: seq<Message>)
      requires Valid() && |scratch| == 1088
      modifies this`tail, this`consumed
      ensures Valid() && |out| == AtMost(|old(Queue())|, max)
      ensures SameMessages(out, old(Queue())[..|out|]) && Queue() == old(Queue())[|out|..]
    {
      WrapDistance(|published|, consumed);
      out := [];
      var count := AtMost(Wrap(head - tail), max);
      hide Wrap, Kept, Shape, SameMessage, SameMessages;
      ghost var queue := Queue();
      SameNone(queue);
      for i := 0 to count
        invariant Valid() && Queue() == queue && |out| == i && SameMessages(out, queue[..i])
      {
        var ok, m := ReadSlot(i, scratch);
        SameMore(out, queue, i, m);
        out := out + [m];
      }
      CommitTail(count);
    }
  }

  lemma {:induction false} SlotRead(mem: Memory, k: nat, m: Message, scratch: Buffer)
    requires Shape(mem) && Holds(mem, k, m) && |scratch| == 1088
    ensures var w := mem.descs[Cell(k)];
            var d := Described(w, scratch);
            && w[0] == Num(Wrap(k + 1)) && NumberIn(w[10]) + NumberIn(w[11]) <= 1088
            && SameMessage(d.(data := Overlay(scratch, Take(mem.payloads[Cell(k)], Bytes(d)))), m)
  {
    hide Cell, Wrap;
    DescribedWords(Wrap(k + 1), m, scratch);
    var d, payload := Described(mem.descs[Cell(k)], scratch), mem.payloads[Cell(k)];
    assert Bytes(d) == Bytes(m);
    OverlayTake(scratch, payload, Bytes(m));
    hide Described, Words, Overlay;
  }

  lemma {:induction false} OverlayTake(buf: Buffer, payload: Buffer, k: nat)
    requires k <= |payload|
    ensures Take(Overlay(buf, Take(payload, k)), k) == payload[..k]
  {
  }

  lemma {:induction false} SameNone(queue: seq<Message>)
    ensures SameMessages([], queue[..0])
  {
  }

  lemma {:induction false} SameMore(out: seq<Message>, queue: seq<Message>, i: nat, m: Message)
    requires i < |queue| && SameMessages(out, queue[..i]) && SameMessage(m, queue[i])
    ensures SameMessages(out + [m], queue[..i + 1])
  {
    hide SameMessage;
    var front := queue[..i];
    forall k | 0 <= k < |out| ensures SameMessage(out[k], queue[k]) {
      assert front[k] == queue[k];
    }
  }

  lemma {:induction false} NoneHeld(mem: Memory, h: nat)
    requires Shape(mem)
    ensures HoldsAll(mem, h, [])
  {
  }

  lemma {:induction false} PublishAll(mem: Memory, published: seq<Message>, t: nat, ms: seq<Message>, head: nat)
    requires Shape(mem) && Kept(mem, published, t) && HoldsAll(mem, |published|, ms)
    ensures Kept(mem.(head := head), published + ms, t)
  {
    hide Cell, Wrap, Words;
    var all := published + ms;
    forall k | t <= k < |all| ensures Holds(mem.(head := head), k, all[k]) {
      if k >= |published| {
        assert Holds(mem, |published| + (k - |published|), ms[k - |published|]);
      } else {
        assert Holds(mem, k, published[k]);
      }
    }
  }
}
