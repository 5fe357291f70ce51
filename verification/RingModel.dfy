/** The shared-memory ring of include/message_queue.h at the grain of single loads and
    stores: producer and consumer interleave freely, the producer checks space against a
    tail that may be stale, the consumer reads against a head that may be stale, and both
    counters are 64 bits wide. Memory is coherent and the head store comes after the slot
    stores. */
module RingModel {
  import opened Types
  import opened NodeSpec
  import opened PayloadStore

  /** 64-bit wrap-around. */
  function Wrap(x: int): nat {
    x % 0x1_0000_0000_0000_0000
  }

  /** `abs & MASK`. */
  function Cell(x: nat): (c: nat)
    ensures c < 32768
  {
    x % 32768
  }

  function Bytes(m: Message): nat {
    m.keyLen + m.valueLen
  }

  predicate Fits(m: Message) {
    Bytes(m) <= 1088 && |m.data| == 1088
  }

  // ----------------------------------------------------------- descriptors

  /** A descriptor is stored and loaded word by word. */
  datatype Word = Num(n: nat) | Tag(kind: Kind) | Letter(op: char)

  function Words(slotSeq: nat, m: Message): (w: seq<Word>)
    ensures |w| == 12 && w[0] == Num(slotSeq)
  {
    [Num(slotSeq), Tag(m.kind), Num(m.sn), Num(m.sender), Num(m.proposer), Num(m.reqId), Num(m.startTsc),
     Num(m.value), Num(m.promise), Letter(m.op), Num(m.keyLen), Num(m.valueLen)]
  }

  function NumberIn(w: Word): nat {
    if w.Num? then w.n else 0
  }

  /** The message a loaded descriptor describes, over a receive buffer with stale bytes. */
  function Described(w: seq<Word>, scratch: Buffer): Message
    requires |w| == 12
  {
    Message(if w[1].Tag? then w[1].kind else PROPOSAL, NumberIn(w[2]), NumberIn(w[3]), NumberIn(w[4]), NumberIn(w[5]),
            NumberIn(w[6]), NumberIn(w[7]), NumberIn(w[8]), if w[9].Letter? then w[9].op else 'N',
            NumberIn(w[10]), NumberIn(w[11]), scratch)
  }

  predicate SameHeader(a: Message, b: Message) {
    a.(data := "") == b.(data := "")
  }

  /** Equal in everything a receiver looks at: all fields and the announced bytes. */
  predicate SameMessage(a: Message, b: Message) {
    SameHeader(a, b) && Take(a.data, Bytes(a)) == Take(b.data, Bytes(b))
  }

  lemma {:induction false} DescribedWords(slotSeq: nat, m: Message, scratch: Buffer)
    ensures SameHeader(Described(Words(slotSeq, m), scratch), m)
    ensures Described(Words(slotSeq, m), scratch).data == scratch
  {
  }

  // ----------------------------------------------------------------- state

  datatype Memory = Memory(head: nat, tail: nat, descs: seq<seq<Word>>, payloads: seq<Buffer>)

  /** `Writing`: messages below i are stored; of message i, the bytes below `off` and the
      first j descriptor words. */
  datatype Producer = Resting | Checking(batch: seq<Message>, h: nat) | Writing(batch: seq<Message>, h: nat, i: nat,
    off: nat, j: nat)

  /** `Describing`: `out` accepted so far, `w` the words of the next descriptor;
      `Copying`: payloads below i copied, and the bytes below `off` of payload i. */
  datatype Consumer =
    | Waiting
    | Looking(t: nat)
    | Describing(t: nat, count: nat, out: seq<Message>, w: seq<Word>)
    | Copying(t: nat, count: nat, out: seq<Message>, i: nat, off: nat)

  /** `published` and `consumed` are history. */
  datatype State = State(mem: Memory, prod: Producer, cons: Consumer, published: seq<Message>, consumed: seq<Message>)

  predicate Shape(mem: Memory) {
    && |mem.descs| == 32768 && (forall x :: 0 <= x < 32768 ==> |mem.descs[x]| == 12)
    && |mem.payloads| == 32768 && (forall x :: 0 <= x < 32768 ==> |mem.payloads[x]| == 1088)
  }

  predicate ProducerFormed(p: Producer) {
    p.Resting? ||
    ((forall k :: 0 <= k < |p.batch| ==> |p.batch[k].data| == 1088)
     && (p.Writing? ==> p.i <= |p.batch| && p.off % 16 == 0 && p.j < 12))
  }

  predicate ConsumerFormed(c: Consumer) {
    match c
    case Waiting => true
    case Looking(_) => true
    case Describing(_, count, out, w) =>
      |out| < count && |w| <= 12 && forall k :: 0 <= k < |out| ==> |out[k].data| == 1088 && Bytes(out[k]) <= 1088
    case Copying(_, count, out, i, off) =>
      0 < count && i <= |out| == count && forall k :: 0 <= k < |out| ==> |out[k].data| == 1088 && Bytes(out[k]) <= 1088
  }

  /** Keeps every access in bounds; every step preserves it whatever the counters say. */
  predicate Formed(s: State) {
    Shape(s.mem) && ProducerFormed(s.prod) && ConsumerFormed(s.cons)
  }

  function Initial(): (s: State)
    ensures Formed(s)
  {
    State(Memory(0, 0, seq(32768, _ => seq(12, _ => Num(0))), seq(32768, _ => Zeros(1088))), Resting, Waiting, [], [])
  }

  // ----------------------------------------------------------------- steps

  datatype Step =
    | StartPush(batch: seq<Message>) | CheckSpace | StorePayload | StoreWord | Abandon | PublishHead
    | StartRead | LoadHead(max: nat) | LoadWord | AcceptWords(scratch: Buffer) | CopyByte | NextPayload | CommitTail

  predicate Enabled(s: State, st: Step) {
    match st
    case StartPush(batch) =>
      // the batch is an array in the address space
      s.prod.Resting? && 0 < |batch| < 0x40_0000_0000_0000 && forall k :: 0 <= k < |batch| ==> |batch[k].data| == 1088
    case CheckSpace => s.prod.Checking?
    case StorePayload => InMessage(s.prod) && s.prod.off < Bytes(s.prod.batch[s.prod.i]) <= 1088
    case StoreWord => InMessage(s.prod) && Bytes(s.prod.batch[s.prod.i]) <= 1088 &&
      Bytes(s.prod.batch[s.prod.i]) <= s.prod.off
    case Abandon => InMessage(s.prod) && 1088 < Bytes(s.prod.batch[s.prod.i])
    case PublishHead => s.prod.Writing? && s.prod.i == |s.prod.batch|
    case StartRead => s.cons.Waiting?
    case LoadHead(max) => s.cons.Looking? && 0 < max
    case LoadWord => s.cons.Describing? && |s.cons.w| < 12
    case AcceptWords(scratch) => s.cons.Describing? && |s.cons.w| == 12 && |scratch| == 1088
    case CopyByte => InPayload(s.cons) && s.cons.off < Bytes(s.cons.out[s.cons.i])
    case NextPayload => InPayload(s.cons) && s.cons.off >= Bytes(s.cons.out[s.cons.i])
    case CommitTail => s.cons.Copying? && s.cons.i == |s.cons.out|
  }

  predicate InMessage(p: Producer) {
    p.Writing? && p.i < |p.batch|
  }

  predicate InPayload(c: Consumer) {
    c.Copying? && c.i < |c.out|
  }

  /** `can_push_batch`, against the tail as loaded now. */
  function SpaceChecked(p: Producer, tail: nat): Producer
    requires p.Checking?
  {
    if Wrap(Wrap(p.h - tail) + |p.batch|) > 32768 then Resting else Writing(p.batch, p.h, 0, 0, 0)
  }

  /** The slot message i of the batch goes to. */
  function WriteCell(p: Producer): (c: nat)
    requires p.Writing?
    ensures c < 32768
  {
    Cell(Wrap(p.h + p.i))
  }

  function PayloadStored(mem: Memory, p: Producer): (r: Memory)
    requires Shape(mem) && ProducerFormed(p) && InMessage(p) && p.off < Bytes(p.batch[p.i]) <= 1088
    ensures Shape(r)
  {
    BlockInside(Bytes(p.batch[p.i]), p.off);
    var c, m := WriteCell(p), p.batch[p.i];
    mem.(payloads := mem.payloads[c := StoreBlock(mem.payloads[c], m.data, Bytes(m), p.off)])
  }

  function WordStored(mem: Memory, p: Producer): (r: Memory)
    requires Shape(mem) && ProducerFormed(p) && InMessage(p)
    ensures Shape(r)
  {
    var c := WriteCell(p);
    mem.(descs := mem.descs[c := mem.descs[c][p.j := Words(Wrap(p.h + p.i + 1), p.batch[p.i])[p.j]]])
  }

  function WordDone(p: Producer): (r: Producer)
    requires ProducerFormed(p) && InMessage(p)
    ensures ProducerFormed(r)
  {
    if p.j == 11 then p.(i := p.i + 1, off := 0, j := 0) else p.(j := p.j + 1)
  }

  /** `drain_source_ring` up to the number of messages it will read. */
  function HeadLoaded(c: Consumer, head: nat, max: nat): Consumer
    requires c.Looking?
  {
    var avail := Wrap(head - c.t);
    if avail == 0 then Waiting else Describing(c.t, if avail <= max then avail else max, [], [])
  }

  function WordLoaded(c: Consumer, mem: Memory): Consumer
    requires Shape(mem) && c.Describing? && |c.w| < 12
  {
    c.(w := c.w + [mem.descs[Cell(Wrap(c.t + |c.out|))][|c.w|]])
  }

  /** The slot number is the expected one and the lengths are sane; otherwise the source retries. */
  predicate Acceptable(c: Consumer)
    requires c.Describing? && |c.w| == 12
  {
    c.w[0] == Num(Wrap(c.t + |c.out| + 1)) && NumberIn(c.w[10]) + NumberIn(c.w[11]) <= 1088
  }

  function WordsAccepted(c: Consumer, scratch: Buffer): (r: Consumer)
    requires ConsumerFormed(c) && c.Describing? && |c.w| == 12 && |scratch| == 1088
    ensures ConsumerFormed(r)
  {
    if !Acceptable(c) then c.(w := [])
    else
      var out := c.out + [Described(c.w, scratch)];
      if |out| == c.count then Copying(c.t, c.count, out, 0, 0) else Describing(c.t, c.count, out, [])
  }

  function ByteCopied(c: Consumer, mem: Memory): (r: Consumer)
    requires Shape(mem) && ConsumerFormed(c) && InPayload(c) && c.off < Bytes(c.out[c.i])
    ensures ConsumerFormed(r)
  {
    var m := c.out[c.i];
    c.(out := c.out[c.i := m.(data := m.data[c.off := mem.payloads[Cell(Wrap(c.t + c.i))][c.off]])], off := c.off + 1)
  }

  function Next(s: State, st: Step): (r: State)
    requires Formed(s) && Enabled(s, st)
    ensures Formed(r)
  {
    match st
    case StartPush(batch) => s.(prod := Checking(batch, s.mem.head))
    case CheckSpace => s.(prod := SpaceChecked(s.prod, s.mem.tail))
    case StorePayload => s.(mem := PayloadStored(s.mem, s.prod), prod := s.prod.(off := s.prod.off + 16))
    case StoreWord => s.(mem := WordStored(s.mem, s.prod), prod := WordDone(s.prod))
    case Abandon => s.(prod := Resting)
    case PublishHead =>
      s.(mem := s.mem.(head := Wrap(s.prod.h + |s.prod.batch|)), prod := Resting,
        published := s.published + s.prod.batch)
    case StartRead => s.(cons := Looking(s.mem.tail))
    case LoadHead(max) => s.(cons := HeadLoaded(s.cons, s.mem.head, max))
    case LoadWord => s.(cons := WordLoaded(s.cons, s.mem))
    case AcceptWords(scratch) => s.(cons := WordsAccepted(s.cons, scratch))
    case CopyByte => s.(cons := ByteCopied(s.cons, s.mem))
    case NextPayload => s.(cons := s.cons.(i := s.cons.i + 1, off := 0))
    case CommitTail =>
      s.(mem := s.mem.(tail := Wrap(s.cons.t + |s.cons.out|)), cons := Waiting, consumed := s.consumed + s.cons.out)
  }

  ghost predicate IsRun(run: seq<State>, steps: seq<Step>) {
    && |run| == |steps| + 1 && run[0] == Initial()
    && (forall k :: 0 <= k < |run| ==> Formed(run[k]))
    && (forall k :: 0 <= k < |steps| ==> Enabled(run[k], steps[k]) && run[k + 1] == Next(run[k], steps[k]))
  }
}
