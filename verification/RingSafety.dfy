/** Every reachable state of the interleaved ring is a FIFO queue: what is consumed is a
    prefix of what was published, unread slots are never overwritten, and nothing depends
    on the 64-bit counters not wrapping. */
module RingSafety {
  import opened Types
  import opened NodeSpec
  import opened PayloadStore
  import opened RingModel

  // ------------------------------------------------------------ arithmetic

  lemma {:induction false} WrapAdd(a: int, b: int)
    ensures Wrap(Wrap(a) + b) == Wrap(a + b)
  {
  }

  /** The capacity divides 2^64, so wrapping does not move a slot. */
  lemma {:induction false} CellOfWrap(a: nat)
    ensures Cell(Wrap(a)) == Cell(a)
  {
    var m := 0x1_0000_0000_0000_0000;
    var q := a / m;
    assert a == Wrap(a) + 32768 * (q * 0x2_0000_0000_0000);
    CellShift(Wrap(a), q * 0x2_0000_0000_0000);
  }

  lemma {:induction false} CellShift(a: nat, q: nat)
    ensures Cell(a + 32768 * q) == Cell(a)
    decreases q
  {
    if q > 0 {
      CellShift(a, q - 1);
      assert a + 32768 * q == a + 32768 * (q - 1) + 32768;
    }
  }

  lemma {:induction false} CellAt(a: nat, b: nat)
    ensures Cell(Wrap(Wrap(a) + b)) == Cell(a + b)
  {
    WrapAdd(a, b);
    CellOfWrap(a + b);
  }

  lemma {:induction false} WrapDistance(h: nat, t: nat)
    requires t <= h <= t + 32768
    ensures Wrap(Wrap(h) - Wrap(t)) == h - t
  {
    var m := 0x1_0000_0000_0000_0000;
    var x, y := h / m, t / m;
    assert Wrap(h) == h - m * x && Wrap(t) == t - m * y;
    assert x == y || x == y + 1;
  }

  lemma {:induction false} CellsDistinct(a: nat, b: nat)
    requires a < b < a + 32768
    ensures Cell(a) != Cell(b)
  {
  }

  // ------------------------------------------------------------- invariant

  /** Slot `k mod capacity` holds message m as the k-th of the ring. */
  predicate Holds(mem: Memory, k: nat, m: Message)
    requires Shape(mem)
  {
    Fits(m) && mem.descs[Cell(k)] == Words(Wrap(k + 1), m) && mem.payloads[Cell(k)][..Bytes(m)] == m.data[..Bytes(m)]
  }

  predicate Kept(mem: Memory, published: seq<Message>, t: nat)
    requires Shape(mem)
  {
    forall k :: t <= k < |published| ==> Holds(mem, k, published[k])
  }

  /** How far message i of the batch has been stored. */
  predicate PartlyStored(mem: Memory, p: Producer, h: nat)
    requires Shape(mem) && ProducerFormed(p) && InMessage(p)
  {
    var m, c := p.batch[p.i], Cell(h + p.i);
    var upto := AtMost(p.off, Bytes(m));
    Bytes(m) <= 1088 ==>
      && mem.payloads[c][..upto] == m.data[..upto]
      && mem.descs[c][..p.j] == Words(Wrap(h + p.i + 1), m)[..p.j]
      && (p.j > 0 ==> Bytes(m) <= p.off)
  }

  /** h, t: number of messages published and consumed so far. */
  predicate ProducerOk(mem: Memory, p: Producer, h: nat, t: nat)
    requires Shape(mem) && ProducerFormed(p)
  {
    match p
    case Resting => true
    case Checking(batch, h') => h' == Wrap(h) && 0 < |batch| < 0x40_0000_0000_0000
    case Writing(batch, h', i, off, j) =>
      && h' == Wrap(h) && h + |batch| <= t + 32768
      && (forall k :: 0 <= k < i ==> Holds(mem, h + k, batch[k]))
      && (i < |batch| ==> PartlyStored(mem, p, h))
  }

  predicate ConsumerOk(c: Consumer, published: seq<Message>, t: nat)
    requires ConsumerFormed(c)
  {
    match c
    case Waiting => true
    case Looking(t') => t' == Wrap(t)
    case Describing(t', count, out, w) =>
      && t' == Wrap(t) && t + count <= |published|
      && (forall k :: 0 <= k < |out| ==> SameHeader(out[k], published[t + k]))
      && w == Words(Wrap(t + |out| + 1), published[t + |out|])[..|w|]
    case Copying(t', count, out, i, off) =>
      && t' == Wrap(t) && t + count <= |published|
      && (forall k :: 0 <= k < |out| ==> SameHeader(out[k], published[t + k]))
      && (forall k :: 0 <= k < i ==> SameMessage(out[k], published[t + k]))
      && (i < |out| ==> off <= Bytes(out[i]) && Take(published[t + i].data, off) == out[i].data[..off])
  }

  predicate Inv(s: State) {
    var h, t := |s.published|, |s.consumed|;
    && Formed(s)
    && s.mem.head == Wrap(h) && s.mem.tail == Wrap(t) && t <= h <= t + 32768
    && (forall k :: 0 <= k < t ==> SameMessage(s.consumed[k], s.published[k]))
    && Kept(s.mem, s.published, t)
    && ProducerOk(s.mem, s.prod, h, t)
    && ConsumerOk(s.cons, s.published, t)
  }

  // -------------------------------------------------------------- producer

  lemma {:induction false} SpaceCheckKeeps(mem: Memory, p: Producer, h: nat, t: nat)
    requires Shape(mem) && ProducerFormed(p) && ProducerOk(mem, p, h, t) && p.Checking? && t <= h <= t + 32768
    ensures SpaceChecked(p, Wrap(t)) == if h - t + |p.batch| <= 32768 then Writing(p.batch, p.h, 0, 0, 0) else Resting
    ensures ProducerFormed(SpaceChecked(p, Wrap(t))) && ProducerOk(mem, SpaceChecked(p, Wrap(t)), h, t)
  {
    WrapDistance(h, t);
    assert Wrap(h - t + |p.batch|) == h - t + |p.batch|;
    hide Wrap;
  }

  /** A store into one slot leaves what other slots hold. */
  lemma {:induction false} OtherSlot(mem: Memory, mem': Memory, c: nat, k: nat, m: Message)
    requires Shape(mem) && Shape(mem') && c < 32768 && Cell(k) != c
    requires mem'.descs == mem.descs[c := mem'.descs[c]] && mem'.payloads == mem.payloads[c := mem'.payloads[c]]
    ensures Holds(mem, k, m) <==> Holds(mem', k, m)
  {
    hide Cell, Wrap, Words;
  }

  /** The slots that must survive while message i of a batch is being stored. */
  lemma {:induction false} StoreKeepsOthers(mem: Memory, mem': Memory, p: Producer, published: seq<Message>, t: nat)
    requires Shape(mem) && Shape(mem') && ProducerFormed(p) && InMessage(p)
    requires ProducerOk(mem, p, |published|, t) && Kept(mem, published, t) && t <= |published|
    requires var c := Cell(|published| + p.i);
             mem'.descs == mem.descs[c := mem'.descs[c]] && mem'.payloads == mem.payloads[c := mem'.payloads[c]]
    ensures Kept(mem', published, t)
    ensures forall k :: 0 <= k < p.i ==> Holds(mem', |published| + k, p.batch[k])
  {
    hide Holds, PartlyStored, Cell;
    var h := |published|;
    var c := Cell(h + p.i);
    forall k | t <= k < h ensures Holds(mem', k, published[k]) {
      CellsDistinct(k, h + p.i);
      OtherSlot(mem, mem', c, k, published[k]);
    }
    forall k | 0 <= k < p.i ensures Holds(mem', h + k, p.batch[k]) {
      CellsDistinct(h + k, h + p.i);
      OtherSlot(mem, mem', c, h + k, p.batch[k]);
    }
  }

  lemma {:induction false} PayloadStoredSlot(mem: Memory, p: Producer, h: nat)
    requires Shape(mem) && ProducerFormed(p) && InMessage(p) && p.off < Bytes(p.batch[p.i]) <= 1088
    requires PartlyStored(mem, p, h) && p.h == Wrap(h)
    ensures var mem', c := PayloadStored(mem, p), Cell(h + p.i);
            && Shape(mem') && mem' == mem.(payloads := mem.payloads[c := mem'.payloads[c]])
            && ProducerFormed(p.(off := p.off + 16)) && PartlyStored(mem', p.(off := p.off + 16), h)
  {
    CellAt(h, p.i);
    var m, c := p.batch[p.i], Cell(h + p.i);
    BlockInside(Bytes(m), p.off);
    hide Cell, Wrap, Words;
    BlockExtends(mem.payloads[c], m.data, Bytes(m), p.off);
    hide StoreBlock;
  }

  lemma {:induction false} PayloadStoreKeeps(mem: Memory, p: Producer, published: seq<Message>, t: nat)
    requires Shape(mem) && ProducerFormed(p) && InMessage(p) && p.off < Bytes(p.batch[p.i]) <= 1088
    requires ProducerOk(mem, p, |published|, t) && Kept(mem, published, t) && t <= |published|
    ensures var mem', p' := PayloadStored(mem, p), p.(off := p.off + 16);
            && Shape(mem') && ProducerFormed(p') && Kept(mem', published, t) && ProducerOk(mem', p', |published|, t)
  {
    var h := |published|;
    PayloadStoredSlot(mem, p, h);
    var mem', c := PayloadStored(mem, p), Cell(h + p.i);
    hide Cell, Wrap, Words, Holds, PayloadStored, PartlyStored;
    assert mem'.descs == mem.descs[c := mem'.descs[c]];
    StoreKeepsOthers(mem, mem', p, published, t);
    hide Kept;
  }

  lemma {:induction false} WordExtends(w: seq<Word>, goal: seq<Word>, j: nat)
    requires |w| == |goal| == 12 && j < 12 && w[..j] == goal[..j]
    ensures w[j := goal[j]][..j + 1] == goal[..j + 1]
  {
  }

  lemma {:induction false} WordStoredSlot(mem: Memory, p: Producer, h: nat)
    requires Shape(mem) && ProducerFormed(p) && InMessage(p) && Bytes(p.batch[p.i]) <= 1088 &&
             Bytes(p.batch[p.i]) <= p.off
    requires PartlyStored(mem, p, h) && p.h == Wrap(h)
    ensures var mem', c := WordStored(mem, p), Cell(h + p.i);
            && Shape(mem') && mem' == mem.(descs := mem.descs[c := mem'.descs[c]])
            && (p.j < 11 ==> PartlyStored(mem', p.(j := p.j + 1), h))
            && (p.j == 11 ==> Holds(mem', h + p.i, p.batch[p.i]))
  {
    CellAt(h, p.i);
    WrapAdd(h, p.i + 1);
    var m := p.batch[p.i];
    var c, goal := Cell(h + p.i), Words(Wrap(h + p.i + 1), m);
    hide Cell, Wrap, Words;
    WordExtends(mem.descs[c], goal, p.j);
    if p.j == 11 {
      assert WordStored(mem, p).descs[c] == goal;
    }
  }

  lemma {:induction false} WordStoreKeeps(mem: Memory, p: Producer, published: seq<Message>, t: nat)
    requires Shape(mem) && ProducerFormed(p) && InMessage(p) && Bytes(p.batch[p.i]) <= 1088 &&
             Bytes(p.batch[p.i]) <= p.off
    requires ProducerOk(mem, p, |published|, t) && Kept(mem, published, t) && t <= |published|
    ensures var mem', p' := WordStored(mem, p), WordDone(p);
            && Shape(mem') && ProducerFormed(p') && Kept(mem', published, t) && ProducerOk(mem', p', |published|, t)
  {
    var h, p' := |published|, WordDone(p);
    WordStoredSlot(mem, p, h);
    var mem' := WordStored(mem, p);
    assert mem'.payloads == mem.payloads[Cell(h + p.i) := mem'.payloads[Cell(h + p.i)]];
    StoreKeepsOthers(mem, mem', p, published, t);
    hide Cell, Wrap, Words, Holds, WordStored, Kept;
    if p.j == 11 && p'.i < |p'.batch| {
      StartsEmpty(mem', p', h);
    }
    hide PartlyStored;
  }

  lemma {:induction false} StartsEmpty(mem: Memory, p: Producer, h: nat)
    requires Shape(mem) && ProducerFormed(p) && InMessage(p) && p.off == 0 && p.j == 0
    ensures PartlyStored(mem, p, h)
  {
    hide Words;
  }

  lemma {:induction false} PublishKeeps(mem: Memory, p: Producer, published: seq<Message>, t: nat)
    requires Shape(mem) && ProducerFormed(p) && p.Writing? && p.i == |p.batch|
    requires ProducerOk(mem, p, |published|, t) && Kept(mem, published, t)
    ensures Kept(mem, published + p.batch, t) && Wrap(p.h + |p.batch|) == Wrap(|published| + |p.batch|)
    ensures |published| + |p.batch| <= t + 32768
  {
    WrapAdd(|published|, |p.batch|);
    hide Holds, Wrap;
    var all := published + p.batch;
    forall k | t <= k < |all| ensures Holds(mem, k, all[k]) {
      if k >= |published| {
        assert Holds(mem, |published| + (k - |published|), p.batch[k - |published|]);
      }
    }
  }

  // -------------------------------------------------------------- consumer

  lemma {:induction false} ConsumerGrows(c: Consumer, published: seq<Message>, more: seq<Message>, t: nat)
    requires ConsumerFormed(c) && ConsumerOk(c, published, t)
    ensures ConsumerOk(c, published + more, t)
  {
    hide Wrap, Words, SameHeader, SameMessage, Take;
    assert forall k :: 0 <= k < |published| ==> (published + more)[k] == published[k];
  }

  lemma {:induction false} HeadLoadKeeps(c: Consumer, published: seq<Message>, t: nat, max: nat)
    requires ConsumerFormed(c) && ConsumerOk(c, published, t) && c.Looking? && 0 < max && t <= |published| <= t + 32768
    ensures var c' := HeadLoaded(c, Wrap(|published|), max);
            && ConsumerFormed(c') && ConsumerOk(c', published, t)
            && c'.Describing? == (t < |published|)
            && (c'.Describing? ==> c'.count == AtMost(|published| - t, max))
  {
    WrapDistance(|published|, t);
    hide Wrap, Words;
  }

  lemma {:induction false} WordLoadKeeps(mem: Memory, c: Consumer, published: seq<Message>, t: nat)
    requires Shape(mem) && ConsumerFormed(c) && c.Describing? && |c.w| < 12
    requires ConsumerOk(c, published, t) && Kept(mem, published, t)
    ensures ConsumerFormed(WordLoaded(c, mem)) && ConsumerOk(WordLoaded(c, mem), published, t)
  {
    var k := t + |c.out|;
    CellAt(t, |c.out|);
    assert Holds(mem, k, published[k]);
    hide Cell, Wrap, Words;
    var goal := Words(Wrap(k + 1), published[k]);
    assert goal[..|c.w|] + [goal[|c.w|]] == goal[..|c.w| + 1];
  }

  /** The slot number read is always the expected one, so the source never retries. */
  lemma {:induction false} WordsMatch(mem: Memory, c: Consumer, published: seq<Message>, t: nat)
    requires Shape(mem) && ConsumerFormed(c) && c.Describing? && |c.w| == 12
    requires ConsumerOk(c, published, t) && Kept(mem, published, t)
    ensures c.w == Words(Wrap(t + |c.out| + 1), published[t + |c.out|]) && Acceptable(c) && Fits(published[t + |c.out|])
  {
    var k := t + |c.out|;
    assert Holds(mem, k, published[k]);
    WrapAdd(t, |c.out| + 1);
    hide Wrap, Cell;
    var goal := Words(Wrap(k + 1), published[k]);
    assert goal[..12] == goal;
  }

  lemma {:induction false} AcceptKeeps(mem: Memory, c: Consumer, published: seq<Message>, t: nat, scratch: Buffer)
    requires Shape(mem) && ConsumerFormed(c) && c.Describing? && |c.w| == 12 && |scratch| == 1088
    requires ConsumerOk(c, published, t) && Kept(mem, published, t)
    ensures ConsumerFormed(WordsAccepted(c, scratch)) && ConsumerOk(WordsAccepted(c, scratch), published, t)
  {
    WordsMatch(mem, c, published, t);
    var k := t + |c.out|;
    DescribedWords(Wrap(k + 1), published[k], scratch);
    hide Wrap, Words, Acceptable, Described, Kept;
  }

  lemma {:induction false} CopiedByte(mem: Memory, c: Consumer, m: Message, t: nat)
    requires Shape(mem) && ConsumerFormed(c) && InPayload(c) && c.off < Bytes(c.out[c.i]) && c.t == Wrap(t)
    requires Holds(mem, t + c.i, m) && SameHeader(c.out[c.i], m) && Take(m.data, c.off) == c.out[c.i].data[..c.off]
    ensures var out := ByteCopied(c, mem).out;
            && out == c.out[c.i := out[c.i]] && SameHeader(out[c.i], m)
            && |out[c.i].data| == 1088 && Take(m.data, c.off + 1) == out[c.i].data[..c.off + 1]
  {
    CellAt(t, c.i);
    hide Cell, Wrap, Words;
    var buf := mem.payloads[Cell(t + c.i)];
    assert buf[c.off] == buf[..Bytes(m)][c.off] == m.data[..Bytes(m)][c.off] == m.data[c.off];
    var was := c.out[c.i].data;
    assert was[c.off := m.data[c.off]][..c.off + 1] == was[..c.off] + [m.data[c.off]] == m.data[..c.off + 1];
  }

  lemma {:induction false} CopyKeeps(mem: Memory, c: Consumer, published: seq<Message>, t: nat)
    requires Shape(mem) && ConsumerFormed(c) && InPayload(c) && c.off < Bytes(c.out[c.i])
    requires ConsumerOk(c, published, t) && Kept(mem, published, t)
    ensures ConsumerFormed(ByteCopied(c, mem)) && ConsumerOk(ByteCopied(c, mem), published, t)
  {
    assert Holds(mem, t + c.i, published[t + c.i]);
    CopiedByte(mem, c, published[t + c.i], t);
    assert Bytes(ByteCopied(c, mem).out[c.i]) == Bytes(c.out[c.i]);
    hide Kept, Holds, Wrap, Cell, Words, Take, SameMessage;
  }

  lemma {:induction false} NextPayloadKeeps(c: Consumer, published: seq<Message>, t: nat)
    requires ConsumerFormed(c) && InPayload(c) && c.off >= Bytes(c.out[c.i]) && ConsumerOk(c, published, t)
    ensures var c' := c.(i := c.i + 1, off := 0); ConsumerFormed(c') && ConsumerOk(c', published, t)
  {
    hide Wrap;
  }

  lemma {:induction false} CountersFrame(mem: Memory, published: seq<Message>, t: nat, head: nat, tail: nat)
    requires Shape(mem) && Kept(mem, published, t)
    ensures Kept(mem.(head := head, tail := tail), published, t)
  {
    hide Cell, Wrap, Words;
    forall k | t <= k < |published| ensures Holds(mem.(head := head, tail := tail), k, published[k]) {
      assert Holds(mem, k, published[k]);
    }
  }

  /** Giving slots back only makes room. */
  lemma {:induction false} CommitKeeps(mem: Memory, p: Producer, published: seq<Message>, t: nat, count: nat)
    requires Shape(mem) && ProducerFormed(p) && Kept(mem, published, t) && ProducerOk(mem, p, |published|, t)
    ensures var mem' := mem.(tail := Wrap(Wrap(t) + count));
            Kept(mem', published, t + count) && ProducerOk(mem', p, |published|, t + count)
  {
    var tail := Wrap(Wrap(t) + count);
    CountersFrame(mem, published, t, mem.head, tail);
    hide Cell, Wrap, Words;
    var mem' := mem.(tail := tail);
    if p.Writing? {
      forall k | 0 <= k < p.i ensures Holds(mem', |published| + k, p.batch[k]) {
        assert Holds(mem, |published| + k, p.batch[k]);
      }
    }
  }

  // ------------------------------------------------------------------ runs

  lemma {:induction false} InitialInv()
    ensures Inv(Initial())
  {
  }

  lemma {:induction false} PublishStep(s: State)
    requires Inv(s) && Enabled(s, PublishHead)
    ensures Inv(Next(s, PublishHead))
  {
    hide Holds, PartlyStored, Wrap, Cell, Kept, SameMessage;
    var t, all := |s.consumed|, s.published + s.prod.batch;
    PublishKeeps(s.mem, s.prod, s.published, t);
    ConsumerGrows(s.cons, s.published, s.prod.batch, t);
    CountersFrame(s.mem, all, t, Wrap(s.prod.h + |s.prod.batch|), s.mem.tail);
    hide ConsumerOk;
  }

  lemma {:induction false} ConsumedGrows(consumed: seq<Message>, out: seq<Message>, published: seq<Message>)
    requires |consumed| + |out| <= |published|
    requires forall k :: 0 <= k < |consumed| ==> SameMessage(consumed[k], published[k])
    requires forall k :: 0 <= k < |out| ==> SameMessage(out[k], published[|consumed| + k])
    ensures forall k :: 0 <= k < |consumed + out| ==> SameMessage((consumed + out)[k], published[k])
  {
    hide SameMessage;
    forall k | 0 <= k < |consumed + out| ensures SameMessage((consumed + out)[k], published[k]) {
      if k >= |consumed| {
        assert SameMessage(out[k - |consumed|], published[|consumed| + (k - |consumed|)]);
      }
    }
  }

  lemma {:induction false} CopiedAll(c: Consumer, published: seq<Message>, t: nat)
    requires ConsumerFormed(c) && ConsumerOk(c, published, t) && c.Copying? && c.i == |c.out|
    ensures c.t == Wrap(t) && t + |c.out| <= |published| && ConsumerOk(Waiting, published, t + |c.out|)
    ensures forall k :: 0 <= k < |c.out| ==> SameMessage(c.out[k], published[t + k])
  {
    hide SameMessage, SameHeader, Wrap;
  }

  lemma {:induction false} CommitStep(s: State)
    requires Inv(s) && Enabled(s, CommitTail)
    ensures Inv(Next(s, CommitTail))
  {
    hide Holds, PartlyStored, Wrap, Cell, Kept, SameMessage;
    var t := |s.consumed|;
    WrapAdd(t, |s.cons.out|);
    CommitKeeps(s.mem, s.prod, s.published, t, |s.cons.out|);
    CopiedAll(s.cons, s.published, t);
    hide ProducerOk, ConsumerFormed, ConsumerOk;
    ConsumedGrows(s.consumed, s.cons.out, s.published);
  }

  lemma {:induction false} ProducerStep(s: State, st: Step)
    requires Inv(s) && Enabled(s, st) &&
             (st.StartPush? || st.CheckSpace? || st.StorePayload? || st.StoreWord? || st.Abandon?)
    ensures Inv(Next(s, st))
  {
    var h, t := |s.published|, |s.consumed|;
    match st
    case StartPush(batch) =>
      assert ProducerOk(s.mem, Checking(batch, s.mem.head), h, t);
    case CheckSpace => SpaceCheckKeeps(s.mem, s.prod, h, t);
    case StorePayload => PayloadStoreKeeps(s.mem, s.prod, s.published, t);
    case StoreWord => WordStoreKeeps(s.mem, s.prod, s.published, t);
    case Abandon =>
    hide PartlyStored, Wrap, Cell, Kept, SameMessage, ConsumerOk, PayloadStored, WordStored, WordDone, SpaceChecked,
         ProducerOk;
  }

  lemma {:induction false} ConsumerStep(s: State, st: Step)
    requires Inv(s) && Enabled(s, st) &&
             (st.StartRead? || st.LoadHead? || st.LoadWord? || st.AcceptWords? || st.CopyByte? || st.NextPayload?)
    ensures Inv(Next(s, st))
  {
    hide PartlyStored, Wrap, Cell, Kept, SameMessage, ProducerOk, HeadLoaded, WordLoaded, WordsAccepted, ByteCopied;
    var t := |s.consumed|;
    match st
    case StartRead =>
    case LoadHead(max) => HeadLoadKeeps(s.cons, s.published, t, max);
    case LoadWord => WordLoadKeeps(s.mem, s.cons, s.published, t);
    case AcceptWords(scratch) => AcceptKeeps(s.mem, s.cons, s.published, t, scratch);
    case CopyByte => CopyKeeps(s.mem, s.cons, s.published, t);
    case NextPayload => NextPayloadKeeps(s.cons, s.published, t);
  }

  lemma {:induction false} StepKeeps(s: State, st: Step)
    requires Inv(s) && Enabled(s, st)
    ensures Inv(Next(s, st))
  {
    match st {
      case PublishHead => PublishStep(s);
      case CommitTail => CommitStep(s);
      case StartPush(_) => ProducerStep(s, st);
      case CheckSpace => ProducerStep(s, st);
      case StorePayload => ProducerStep(s, st);
      case StoreWord => ProducerStep(s, st);
      case Abandon => ProducerStep(s, st);
      case _ => ConsumerStep(s, st);
    }
    hide Inv, Next, Enabled;
  }
}
