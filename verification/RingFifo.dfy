/** What the interleaved ring guarantees on every run, and why the replication model may
    treat it as a queue. */
module RingFifo {
  import opened Types
  import opened NodeSpec
  import opened PayloadStore
  import opened RingModel
  import opened RingSafety
  import C = Cluster

  lemma {:induction false} ReachableInv(run: seq<State>, steps: seq<Step>, k: nat)
    requires IsRun(run, steps) && k < |run|
    ensures Inv(run[k])
  {
    hide Inv, Next, Enabled, Initial;
    if k == 0 {
      InitialInv();
    } else {
      ReachableInv(run, steps, k - 1);
      assert run[k - 1 + 1] == Next(run[k - 1], steps[k - 1]);
      StepKeeps(run[k - 1], steps[k - 1]);
    }
  }

  /** Under any interleaving and after any number of counter wraps, the messages consumed
      are those published first, in order, with the same fields and bytes; at most the
      capacity is outstanding. */
  lemma {:induction false} FifoPrefix(run: seq<State>, steps: seq<Step>, k: nat)
    requires IsRun(run, steps) && k < |run|
    ensures var s := run[k];
            && |s.consumed| <= |s.published| <= |s.consumed| + 32768
            && forall x :: 0 <= x < |s.consumed| ==> SameMessage(s.consumed[x], s.published[x])
  {
    hide IsRun, SameMessage;
    ReachableInv(run, steps, k);
  }

  lemma {:induction false} UntouchedBy(mem: Memory, mem': Memory, c: nat, k: nat)
    requires Shape(mem) && Shape(mem') && c < 32768 && Cell(k) != c
    requires mem'.descs == mem.descs[c := mem'.descs[c]] && mem'.payloads == mem.payloads[c := mem'.payloads[c]]
    ensures mem'.descs[Cell(k)] == mem.descs[Cell(k)] && mem'.payloads[Cell(k)] == mem.payloads[Cell(k)]
  {
    hide Cell;
  }

  lemma {:induction false} StepUntouched(s: State, st: Step, k: nat)
    requires Formed(s) && Enabled(s, st) && |s.consumed| <= k < |s.published| &&
             ProducerOk(s.mem, s.prod, |s.published|, |s.consumed|)
    ensures var mem, mem' := s.mem, Next(s, st).mem;
            mem'.descs[Cell(k)] == mem.descs[Cell(k)] && mem'.payloads[Cell(k)] == mem.payloads[Cell(k)]
  {
    if st.StorePayload? || st.StoreWord? {
      var h := |s.published|;
      hide Cell, Wrap, Words, Holds, PartlyStored, StoreBlock, Formed;
      CellAt(h, s.prod.i);
      CellsDistinct(k, h + s.prod.i);
      UntouchedBy(s.mem, Next(s, st).mem, Cell(h + s.prod.i), k);
    }
  }

  /** No step writes to a slot whose message has not been given back. */
  lemma {:induction false} UnreadUntouched(run: seq<State>, steps: seq<Step>, i: nat, k: nat)
    requires IsRun(run, steps) && i < |steps| && |run[i].consumed| <= k < |run[i].published|
    ensures var mem, mem' := run[i].mem, run[i + 1].mem;
            mem'.descs[Cell(k)] == mem.descs[Cell(k)] && mem'.payloads[Cell(k)] == mem.payloads[Cell(k)]
  {
    ReachableInv(run, steps, i);
    var s, st := run[i], steps[i];
    assert Enabled(s, st) && run[i + 1] == Next(s, st);
    hide Cell, Wrap, Words, IsRun, Kept, Holds, ConsumerOk, SameMessage;
    StepUntouched(s, st, k);
  }

  /** A descriptor that has been read in full is always the expected one. */
  lemma {:induction false} NeverRetries(run: seq<State>, steps: seq<Step>, k: nat)
    requires IsRun(run, steps) && k < |run| && run[k].cons.Describing? && |run[k].cons.w| == 12
    ensures Acceptable(run[k].cons)
  {
    hide IsRun, Acceptable;
    ReachableInv(run, steps, k);
    WordsMatch(run[k].mem, run[k].cons, run[k].published, |run[k].consumed|);
  }

  /** The wrapped comparison of `can_push_batch` is the true one. */
  lemma {:induction false} SpaceCheckExact(run: seq<State>, steps: seq<Step>, i: nat)
    requires IsRun(run, steps) && i < |steps| && steps[i] == CheckSpace
    ensures run[i + 1].prod.Writing? <==> |run[i].published| - |run[i].consumed| + |run[i].prod.batch| <= 32768
  {
    ReachableInv(run, steps, i);
    var s := run[i];
    SpaceCheckKeeps(s.mem, s.prod, |s.published|, |s.consumed|);
    hide Wrap, Kept;
  }

  // ------------------------------------------------------------ refinement

  /** The queue the replication model sees. */
  function AsQueue(s: State): C.Ring {
    C.Ring(s.published, |s.consumed|)
  }

  predicate SameMessages(a: seq<Message>, b: seq<Message>) {
    |a| == |b| && forall k :: 0 <= k < |a| ==> SameMessage(a[k], b[k])
  }

  /** Every step is invisible, appends the whole batch to a queue with room for it, or
      removes the front of the queue and hands out the same messages. */
  lemma {:induction false} QueueRefinement(run: seq<State>, steps: seq<Step>, i: nat)
    requires IsRun(run, steps) && i < |steps|
    ensures var s, s', q := run[i], run[i + 1], AsQueue(run[i]);
            match steps[i]
            case PublishHead =>
              |q.sent| - q.tail + |s.prod.batch| <= 32768 && C.HasSpace(q, |s.prod.batch|)
              && AsQueue(s') == q.(sent := q.sent + s.prod.batch)
            case CommitTail =>
              && 0 < |s.cons.out| <= |q.sent| - q.tail && AsQueue(s') == q.(tail := q.tail + |s.cons.out|)
              && SameMessages(s.cons.out, q.sent[q.tail..q.tail + |s.cons.out|])
            case _ => AsQueue(s') == q
  {
    ReachableInv(run, steps, i);
    hide Wrap, Cell, Words, Kept, Holds, PartlyStored, SameHeader, SameMessage, Take;
  }

  // ---------------------------------------------- receivers ignore the rest

  /** Bytes of a receive buffer beyond the announced lengths do not matter to a handler. */
  lemma {:induction false} SlackIgnored(n: Node, a: Message, b: Message)
    requires Sized(n) && SameMessage(a, b)
    ensures HandleDeferred(n, a) == HandleDeferred(n, b)
  {
    hide Advance;
  }

  lemma {:induction false} SlackIgnoredAll(n: Node, a: seq<Message>, b: seq<Message>)
    requires Sized(n) && SameMessages(a, b)
    ensures HandleAll(n, a) == HandleAll(n, b)
  {
    hide HandleDeferred, SameMessage;
    if a != [] {
      var k := |a| - 1;
      SlackIgnoredAll(n, a[..k], b[..k]);
      SlackIgnored(HandleAll(n, a[..k]), a[k], b[k]);
    }
  }

  /** So handling what the concurrent ring delivers is handling what the queue delivers. */
  lemma {:induction false} DeliveredAlike(n: Node, a: seq<Message>, b: seq<Message>)
    requires Sized(n) && SameMessages(a, b)
    ensures HandleChunk(n, a) == HandleChunk(n, b)
  {
    SlackIgnoredAll(n, a, b);
    forall k | 0 <= k < |a| ensures a[k].kind == b[k].kind {
      assert SameMessage(a[k], b[k]);
    }
    hide HandleAll, Advance, SameMessage, SameMessages;
    if HasProposal(a) {
      var k :| 0 <= k < |a| && a[k].kind == PROPOSAL;
      assert b[k].kind == PROPOSAL;
    }
  }
}
