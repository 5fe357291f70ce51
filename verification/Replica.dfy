/** The replica as the source writes it: fields updated in place, execution in batches
    of 256, messages in chunks of 64. Every method is proved equal to its functional
    counterpart in NodeSpec (src/bandle.cpp). */
module Replica {
  import opened Types
  import opened NodeSpec
  import opened Store
  import opened BatchExecution
  import opened Cluster
  import opened Agreement

  class Bandle {
    const id: nat
    const kv: KVStore
    var log: seq<LogEntry>
    var payloads: seq<Buffer>
    var executeNext: nat
    var pending: seq<Pending>
    var pendingCount: nat
    var readOps: nat
    var writeOps: nat
    var readSamples: nat
    var writeSamples: nat
    var okOps: nat
    var errorOps: nat
    var totalOps: nat
    var nextSeq: nat
    var highest: nat
    var nextReq: nat
    var inputDone: bool
    ghost var executed: seq<Command>

    ghost predicate Valid()
      reads this, kv
    {
      && |log| == 65536 && |payloads| == 65536 && |pending| == 65536 && kv.Valid()
      && forall x :: 0 <= x < 65536 ==> log[x].keyLen + log[x].valueLen <= 1088 == |payloads[x]|
    }

    ghost function CoreState(): Core
      requires kv.Valid()
      reads this, kv
    {
      Core(id, executeNext, executed, kv.Contents(), pending, pendingCount,
           readOps, writeOps, readSamples, writeSamples, okOps, errorOps, totalOps)
    }

    ghost function State(): (n: Node)
      requires Valid()
      reads this, kv
      ensures Sized(n)
    {
      Node(log, payloads, CoreState(), Proposer(nextSeq, highest, nextReq, inputDone))
    }

    constructor (id: nat, kv: KVStore)
      requires kv.Valid()
      ensures Valid() && this.id == id && this.kv == kv && State() == InitialNode(id, kv.Contents())
    {
      this.id, this.kv := id, kv;
      log := seq(65536, _ => BlankEntry(0));
      payloads := seq(65536, _ => seq(1088, _ => '\0'));
      pending := seq(65536, _ => Pending(0, 'G', 0, false));
      executeNext, pendingCount := 1, 0;
      readOps, writeOps, readSamples, writeSamples, okOps, errorOps, totalOps := 0, 0, 0, 0, 0, 0, 0;
      nextSeq, highest, nextReq, inputDone := id, 0, 1, false;
      executed := [];
    }

    // ------------------------------------------------------- execution

    /** First loop of `advance_execute_locked`: how many entries can run, and their writes. */
    method CollectBatch() returns (count: nat, ops: seq<ApplyOp>)
      requires Valid()
      ensures count <= 256 && MaximalRun(State(), count) && Collected(State(), kv.hash, count, ops)
    {
      hide MaximalRun, Collected, Placed, Flat;
      count, ops := ScanBatch(log, payloads, executeNext, kv.hash, State());
    }

    /** Statistics of one completed request. */
    method CountCompleted(op: char)
      modifies this`readOps, this`writeOps, this`readSamples, this`writeSamples, this`okOps, this`totalOps
      ensures readOps == old(readOps) + (if op == 'G' then 1 else 0) &&
              readSamples == old(readSamples) + (if op == 'G' then 1 else 0)
      ensures writeOps == old(writeOps) + (if op == 'G' then 0 else 1) &&
              writeSamples == old(writeSamples) + (if op == 'G' then 0 else 1)
      ensures okOps == old(okOps) + 1 && totalOps == old(totalOps) + 1
    {
      if op == 'G' {
        readOps, readSamples := readOps + 1, readSamples + 1;
      } else {
        writeOps, writeSamples := writeOps + 1, writeSamples + 1;
      }
      okOps, totalOps := okOps + 1, totalOps + 1;
    }

    /** Completion of one entry: the pending table and the statistics. */
    method CompleteEntry(e: LogEntry, ghost cmd: Command)
      requires Valid() && cmd.proposer == e.proposer && cmd.reqId == e.reqId
      modifies this`pending, this`pendingCount, this`readOps, this`writeOps, this`readSamples, this`writeSamples,
               this`okOps, this`totalOps
      ensures Valid()
      ensures CoreState() == if e.decision == 1 then Account(old(CoreState()), cmd) else old(CoreState())
    {
      hide Placed, Flat;
      if e.decision == 1 && e.proposer == id && e.reqId != 0 {
        var local := e.reqId % 0x100000000000000;
        var p := pending[local % 65536];
        if p.id == e.reqId && !p.done {
          CountCompleted(p.op);
          pending := pending[local % 65536 := p.(done := true)];
          pendingCount := if pendingCount > 0 then pendingCount - 1 else 0;
        }
      }
    }
  
    method FinishEntry(i: nat, ghost n: Node)
      requires Valid() && Sized(n) && i < 256 && log == ExecN(n, i).log
      requires CoreState() == Midway(ExecN(n, i).core, kv.Contents(), n.core.next)
      modifies this`log, this`executed, this`pending, this`pendingCount, this`readOps, this`writeOps,
               this`readSamples, this`writeSamples, this`okOps, this`totalOps
      ensures Valid() && log == ExecN(n, i + 1).log
      ensures CoreState() == Midway(ExecN(n, i + 1).core, kv.Contents(), n.core.next)
    {
      hide ExecN, SlotAt, CommandOf, Account, Placed, Flat;
      FinishStep(n, i, kv.Contents());
      var slot := (executeNext + i) % 65536;
      var e := log[slot];
      ghost var cmd := CommandOf(SlotAt(n, executeNext + i));
      CompleteEntry(e, cmd);
      executed := executed + [cmd];
      log := log[slot := BlankEntry(0)];
    }

    /** Second loop of `advance_execute_locked`: the store has the batch's writes already. */
    method FinishEntries(count: nat, ghost n: Node)
      requires Valid() && Sized(n) && count <= 256 && log == n.log
      requires CoreState() == Midway(n.core, kv.Contents(), n.core.next)
      modifies this`log, this`executed, this`pending, this`pendingCount, this`readOps, this`writeOps,
               this`readSamples, this`writeSamples, this`okOps, this`totalOps
      ensures Valid() && log == ExecN(n, count).log
      ensures CoreState() == Midway(ExecN(n, count).core, kv.Contents(), n.core.next)
    {
      assert ExecN(n, 0) == n;
      hide ExecN, Placed, Flat, CoreState, Midway;
      for i := 0 to count
        invariant Valid() && log == ExecN(n, i).log
        invariant CoreState() == Midway(ExecN(n, i).core, kv.Contents(), n.core.next)
      {
        FinishEntry(i, n);
      }
    }

    /** Completes a batch and moves the frontier past it. */
    method FinishBatch(count: nat, ghost n: Node)
      requires Valid() && Sized(n) && count <= 256
      requires log == n.log && payloads == n.payloads
      requires CoreState() == Midway(n.core, kv.Contents(), n.core.next)
      modifies this`executeNext, this`log, this`executed, this`pending, this`pendingCount, this`readOps,
               this`writeOps, this`readSamples, this`writeSamples, this`okOps, this`totalOps
      ensures Valid() && log == ExecN(n, count).log && payloads == n.payloads
      ensures CoreState() == Midway(ExecN(n, count).core, kv.Contents(), n.core.next + count)
    {
      hide ExecN, Placed, Flat;
      FinishEntries(count, n);
      executeNext := executeNext + count;
    }

    /** `advance_execute_locked`: batches until nothing is ready. */
    method AdvanceExecute()
      requires Valid()
      modifies this, kv
      ensures Valid() && State() == Advance(old(State()))
    {
      hide Advance, ExecN, BatchOps, MaximalRun, CountDecided, ApplyOps, Placed, Flat;
      while true
        invariant Valid() && Advance(State()) == Advance(old(State()))
        decreases CountDecided(log)
      {
        ghost var n := State();
        var count, ops := CollectBatch();
        if count == 0 {
          NothingToRun(n);
          return;
        }
        BatchShards(n, kv.hash, count);
        BatchStore(n, kv.hash, count);
        BatchDone(n, count);
        kv.ApplyOpsInOrder(ops);
        FinishBatch(count, n);
      }
    }
  
    // -------------------------------------------------------- handlers

    method HandleProposalLocked(m: Message, advance: bool)
      requires Valid() && |m.data| == 1088
      modifies this, kv
      ensures Valid() && State() == if advance then Advance(HandleProposal(old(State()), m))
              else HandleProposal(old(State()), m)
    {
      hide Advance, Placed, Flat;
      var slot := m.sn % 65536;
      var e := log[slot];
      if e.sn != m.sn {
        e := BlankEntry(m.sn);
      }
      if !e.known {
        e := e.(known := true, op := m.op, proposer := m.proposer, reqId := m.reqId, startTsc := m.startTsc);
        if m.op == 'G' || m.op == 'N' {
          e := e.(keyLen := 0, valueLen := 0);
        } else {
          var bytes := m.keyLen + m.valueLen;
          if bytes <= 1088 {
            e := e.(keyLen := m.keyLen, valueLen := m.valueLen);
            payloads := payloads[slot := m.data[..bytes] + payloads[slot][bytes..]];
          } else {
            e := e.(op := 'N', keyLen := 0, valueLen := 0);
          }
        }
      }
      e := e.(decided := true, decision := 1);
      log := log[slot := e];
      assert payloads == old(payloads)[slot := AcceptPayload(Claim(old(log)[slot], m.sn), old(payloads)[slot], m)];
      assert e == AcceptProposal(Claim(old(log)[slot], m.sn), m);
      if advance {
        AdvanceExecute();
      }
    }

    method DecideLocked(sn: nat, value: nat)
      requires Valid()
      modifies this, kv
      ensures Valid() && State() == Decide(old(State()), sn, value)
    {
      hide Advance, Placed, Flat;
      var slot := sn % 65536;
      if log[slot].sn != sn {
        log := log[slot := BlankEntry(sn)];
      }
      if log[slot].decided {
        assert log == old(log)[slot := Settle(Claim(old(log)[slot], sn), value)];
        return;
      }
      log := log[slot := log[slot].(decided := true, decision := value)];
      assert log == old(log)[slot := Settle(Claim(old(log)[slot], sn), value)];
      AdvanceExecute();
    }

    method HandleP1Locked(m: Message)
      requires Valid()
      modifies this, kv
      ensures Valid() && State() == HandleP1(old(State()), m)
    {
      hide Advance, Decide, Placed, Flat;
      if m.value != 1 || m.promise == 0 || m.sender < 1 || m.sender > 3 {
        return;
      }
      var slot := m.sn % 65536;
      if log[slot].sn != m.sn {
        log := log[slot := BlankEntry(m.sn)];
      }
      log := log[slot := log[slot].(promises := log[slot].promises + {m.sender})];
      if |log[slot].promises| >= 2 {
        DecideLocked(m.sn, 1);
      }
    }

    method HandleDecideLocked(m: Message)
      requires Valid()
      modifies this, kv
      ensures Valid() && State() == HandleDecide(old(State()), m)
    {
      hide Advance, Placed, Flat;
      var slot := m.sn % 65536;
      if log[slot].sn != m.sn {
        log := log[slot := BlankEntry(m.sn)];
      }
      if !log[slot].decided {
        log := log[slot := log[slot].(decided := true, decision := m.value)];
      }
      assert log == old(log)[slot := Settle(Claim(old(log)[slot], m.sn), m.value)];
      AdvanceExecute();
    }

    method HandleOne(m: Message)
      requires Valid() && |m.data| == 1088
      modifies this, kv
      ensures Valid() && State() == HandleMessage(old(State()), m)
    {
      hide Advance, HandleProposal, HandleP1, HandleDecide, Placed, Flat;
      if m.kind == PROPOSAL {
        HandleProposalLocked(m, true);
      } else if m.kind == P1 {
        HandleP1Locked(m);
      } else if m.kind == DECIDE {
        HandleDecideLocked(m);
      }
    }
  
    /** One critical section of `handle_messages_batch`: execution is put off to its end. */
    method HandleSection(ms: seq<Message>)
      requires Valid() && forall k :: 0 <= k < |ms| ==> |ms[k].data| == 1088
      modifies this, kv
      ensures Valid() && State() == HandleChunk(old(State()), ms)
    {
      hide Advance, HandleProposal, HandleP1, HandleDecide, Placed, Flat;
      var needAdvance := false;
      for i := 0 to |ms|
        invariant Valid() && State() == HandleAll(old(State()), ms[..i]) && needAdvance == HasProposal(ms[..i])
      {
        var m := ms[i];
        SectionStep(old(State()), ms, i);
        if m.kind == PROPOSAL {
          HandleProposalLocked(m, false);
          needAdvance := true;
        } else if m.kind == P1 {
          HandleP1Locked(m);
        } else if m.kind == DECIDE {
          HandleDecideLocked(m);
        }
      }
      assert ms[..|ms|] == ms;
      if needAdvance {
        AdvanceExecute();
      }
    }

    method HandleMessagesBatch(ms: seq<Message>)
      requires Valid() && forall k :: 0 <= k < |ms| ==> |ms[k].data| == 1088
      modifies this, kv
      ensures Valid() && State() == HandleBatch(old(State()), ms)
    {
      hide HandleBatch, HandleChunk, Placed, Flat;
      assert ms[0..] == ms;
      var base := 0;
      while base < |ms|
        invariant base <= |ms| && Valid() && HandleBatch(State(), ms[base..]) == HandleBatch(old(State()), ms)
      {
        var end := AtMost(|ms|, base + 64);
        assert ms[base..][..end - base] == ms[base..end] && ms[base..][end - base..] == ms[end..];
        BatchStep(State(), ms[base..]);
        HandleSection(ms[base..end]);
        base := end;
      }
      assert ms[base..] == [];
      EmptyChunk(State());
    }

    // ------------------------------------------------- submission and no-ops

    /** Validation loop of `submit_borrowed_batch`: reads and writes go on in their order
        (`kept` lists their places), everything else is counted as an error and dropped. */
    method Validate(ds: seq<Draft>) returns (accepted: seq<Draft>, ghost kept: seq<nat>)
      requires Valid()
      modifies this`errorOps, this`totalOps
      ensures Valid() && Increasing(kept) && |accepted| == |kept|
      ensures forall a :: 0 <= a < |kept| ==> kept[a] < |ds| && accepted[a] == ds[kept[a]]
      ensures forall k :: 0 <= k < |ds| ==>
                (k in kept <==> var op := ds[k].req.op; op == 'G' || op == 'P' || op == 'U' || op == 'D')
      ensures errorOps == old(errorOps) + |ds| - |accepted| && totalOps == old(totalOps) + |ds| - |accepted|
    {
      hide Placed, Flat;
      accepted, kept := [], [];
      for i := 0 to |ds|
        invariant Valid() && Increasing(kept) && |accepted| == |kept|
        invariant forall a :: 0 <= a < |kept| ==> kept[a] < i && accepted[a] == ds[kept[a]]
        invariant forall k :: 0 <= k < i ==>
                    (k in kept <==> var op := ds[k].req.op; op == 'G' || op == 'P' || op == 'U' || op == 'D')
        invariant errorOps == old(errorOps) + i - |accepted| && totalOps == old(totalOps) + i - |accepted|
      {
        var op := ds[i].req.op;
        if op == 'G' || IsWrite(op) {
          accepted, kept := accepted + [ds[i]], kept + [i];
        } else {
          errorOps, totalOps := errorOps + 1, totalOps + 1;
        }
      }
    }

    /** One turn of the assignment loop. */
    method AssignRequest(d: Draft) returns (m: Message)
      requires Valid()
      modifies this`highest, this`nextSeq, this`nextReq, this`pending, this`pendingCount
      ensures Valid() && State() == AssignOne(old(State()), d)
      ensures m == Stamp(old(State()), MakeProposal(id, d), d.tsc)
    {
      hide Placed, Flat, MakeProposal, AssignOne;
      AssignedParts(State(), d);
      var reqId := id * 0x100000000000000 + nextReq;
      m := MakeProposal(id, d).(sn := nextSeq, startTsc := d.tsc, reqId := reqId);
      highest := AtLeast(highest, nextSeq);
      pending, pendingCount := pending[nextReq % 65536 := Pending(reqId, m.op, m.startTsc, false)], pendingCount + 1;
      nextReq, nextSeq := nextReq + 1, nextSeq + 3;
    }

    /** One pass of the admission loop. The chunk is admitted if its last number lies within
        the configured window, or its first one within 6 of the execution point; then it gets
        consecutive own numbers, ids and start times, and otherwise nothing happens. */
    method AssignChunk(ds: seq<Draft>, window: nat) returns (admitted: bool, out: seq<Message>)
      requires Valid() && ds != []
      modifies this`highest, this`nextSeq, this`nextReq, this`pending, this`pendingCount
      ensures Valid() && State() == (if admitted then AssignAll(old(State()), ds) else old(State()))
      ensures out == if admitted then Stamped(old(State()), ds) else []
      ensures admitted <==> old(nextSeq) + 3 * (|ds| - 1) < executeNext + window || old(nextSeq) < executeNext + 6
      ensures admitted == Admits(old(State()), |ds|, window)
      ensures admitted ==> nextSeq == old(nextSeq) + 3 * |ds| && nextReq == old(nextReq) + |ds|
                           && pendingCount == old(pendingCount) + |ds| && |out| == |ds|
      ensures admitted ==> forall k :: 0 <= k < |ds| ==>
                && out[k].sn == old(nextSeq) + 3 * k && out[k].startTsc == ds[k].tsc && out[k].op == ds[k].req.op
                && out[k].reqId == id * 0x100000000000000 + old(nextReq) + k && out[k].proposer == id
    {
      hide Placed, Flat, MakeProposal, AssignOne, Stamp, AssignAll;
      AdmitsExactly(State(), |ds|, window);
      admitted, out := nextSeq + (|ds| - 1) * 3 < executeNext + Window(|ds|, window), [];
      if admitted {
        AssignChunkNumbers(State(), ds);
        out := AssignEach(ds);
      }
    }

    method AssignEach(ds: seq<Draft>) returns (out: seq<Message>)
      requires Valid()
      modifies this`highest, this`nextSeq, this`nextReq, this`pending, this`pendingCount
      ensures Valid() && State() == AssignAll(old(State()), ds) && out == Stamped(old(State()), ds)
    {
      hide Placed, Flat, MakeProposal, AssignOne, Stamp;
      out := [];
      for i := 0 to |ds|
        invariant Valid() && State() == AssignAll(old(State()), ds[..i]) && out == Stamped(old(State()), ds[..i])
      {
        AssignStep(old(State()), ds, i);
        var m := AssignRequest(ds[i]);
        out := out + [m];
      }
      assert ds[..|ds|] == ds;
    }

    /** After the broadcast: the chunk is recorded locally, then executed as far as possible. */
    method DeliverToSelf(ms: seq<Message>)
      requires Valid() && forall k :: 0 <= k < |ms| ==> |ms[k].data| == 1088
      modifies this, kv
      ensures Valid() && State() == Advance(RecordAll(old(State()), ms))
    {
      hide Advance, HandleProposal, Placed, Flat;
      for i := 0 to |ms|
        invariant Valid() && State() == RecordAll(old(State()), ms[..i])
      {
        assert ms[..i + 1][..i] == ms[..i];
        HandleProposalLocked(ms[i], false);
      }
      assert ms[..|ms|] == ms;
      AdvanceExecute();
    }

    method MarkInputDone()
      requires Valid()
      modifies this`inputDone
      ensures Valid() && State() == old(State()).(prop := old(State()).prop.(inputDone := true))
    {
      inputDone := true;
    }

    /** `should_propose_noop_locked`; `elapsed` is the time since the last no-op. */
    method ShouldProposeNoop(finished: seq<bool>, elapsed: nat, intervalUs: nat) returns (r: bool)
      requires |finished| == 4
      ensures r <==> inputDone && !(finished[1] && finished[2] && finished[3])
                     && elapsed >= intervalUs * 1000 && highest < executeNext + 1536
    {
      var all := true;
      for i := 1 to 4
        invariant all == forall k :: 1 <= k < i ==> finished[k]
      {
        all := all && finished[i];
      }
      if !inputDone || all {
        return false;
      }
      if elapsed < intervalUs * 1000 {
        return false;
      }
      return highest < executeNext + 3 * 512;
    }

    /** First half of `propose_noop`: the number is taken without touching the pending table. */
    method TakeNoopNumber() returns (m: Message)
      requires Valid()
      modifies this`highest, this`nextSeq
      ensures Valid() && m == NoopProposal(id, old(nextSeq)) && State() == AssignNoop(old(State()))
      ensures m.kind == PROPOSAL && m.sn == old(nextSeq) && m.proposer == id && m.reqId == 0
      ensures m.op == 'N' && m.keyLen == m.valueLen == 0 && nextSeq == old(nextSeq) + 3
    {
      m := NoopProposal(id, nextSeq);
      highest := AtLeast(highest, nextSeq);
      nextSeq := nextSeq + 3;
    }
  }

  lemma {:induction false} AssignChunkNumbers(n: Node, ds: seq<Draft>)
    requires Sized(n)
    ensures var r, out := AssignAll(n, ds), Stamped(n, ds);
            && r.prop.nextSeq == n.prop.nextSeq + 3 * |ds| && r.prop.nextReq == n.prop.nextReq + |ds|
            && r.core.pendingCount == n.core.pendingCount + |ds|
            && forall k :: 0 <= k < |ds| ==>
                 && out[k].sn == n.prop.nextSeq + 3 * k && out[k].startTsc == ds[k].tsc && out[k].op == ds[k].req.op
                 && out[k].reqId == n.core.id * 0x100000000000000 + n.prop.nextReq + k && out[k].proposer == n.core.id
  {
    hide AssignAll, Stamped;
    AssignFields(n, ds);
    forall k | 0 <= k < |ds|
      ensures var m := Stamped(n, ds)[k];
              && m.sn == n.prop.nextSeq + 3 * k && m.startTsc == ds[k].tsc && m.op == ds[k].req.op
              && m.reqId == n.core.id * 0x100000000000000 + n.prop.nextReq + k && m.proposer == n.core.id
    {
      StampedAt(n, ds, k);
      AssignFields(n, ds[..k]);
    }
  }

  lemma {:induction false} AssignedParts(n: Node, d: Draft)
    requires Sized(n)
    ensures var c, p, m := n.core, n.prop, Stamp(n, MakeProposal(n.core.id, d), d.tsc);
            AssignOne(n, d) ==
            Node(n.log, n.payloads,
                 Core(c.id, c.next, c.executed, c.store,
                      c.pending[p.nextReq % 65536 := Pending(m.reqId, m.op, d.tsc, false)], c.pendingCount + 1,
                      c.readOps, c.writeOps, c.readSamples, c.writeSamples, c.ok, c.errors, c.total),
                 Proposer(p.nextSeq + 3, AtLeast(p.highest, p.nextSeq), p.nextReq + 1, p.inputDone))
  {
    hide MakeProposal;
  }

  lemma {:induction false} AssignStep(n: Node, ds: seq<Draft>, i: nat)
    requires Sized(n) && i < |ds|
    ensures var a, d := AssignAll(n, ds[..i]), ds[i];
            && AssignAll(n, ds[..i + 1]) == AssignOne(a, d)
            && Stamped(n, ds[..i + 1]) == Stamped(n, ds[..i]) + [Stamp(a, MakeProposal(n.core.id, d), d.tsc)]
  {
    assert ds[..i + 1][..i] == ds[..i];
    hide AssignOne, Stamp, MakeProposal;
  }

  lemma {:induction false} SectionStep(n: Node, ms: seq<Message>, i: nat)
    requires Sized(n) && i < |ms|
    ensures HandleAll(n, ms[..i + 1]) == HandleDeferred(HandleAll(n, ms[..i]), ms[i])
    ensures HasProposal(ms[..i + 1]) == (HasProposal(ms[..i]) || ms[i].kind == PROPOSAL)
  {
    hide HandleDeferred, HasProposal;
    SliceSnoc(ms, 0, i);
    assert ms[0..i + 1] == ms[..i + 1] && ms[0..i] == ms[..i];
    ProposalSnoc(ms[..i], ms[i]);
    assert ms[..i] + [ms[i]] == ms[..i + 1];
  }

  lemma {:induction false} ProposalSnoc(ms: seq<Message>, m: Message)
    ensures HasProposal(ms + [m]) == (HasProposal(ms) || m.kind == PROPOSAL)
  {
    var all := ms + [m];
    assert all[|ms|] == m;
    if HasProposal(ms) {
      var k :| 0 <= k < |ms| && ms[k].kind == PROPOSAL;
      assert all[k].kind == PROPOSAL;
    }
  }

  lemma {:induction false} BatchStep(n: Node, ms: seq<Message>)
    requires Sized(n) && ms != []
    ensures var k := AtMost(|ms|, 64); HandleBatch(n, ms) == HandleBatch(HandleChunk(n, ms[..k]), ms[k..])
  {
    if |ms| <= 64 {
      assert ms[..|ms|] == ms && ms[|ms|..] == [];
      EmptyChunk(HandleChunk(n, ms));
    }
    hide HandleChunk;
  }

  lemma {:induction false} EmptyChunk(n: Node)
    requires Sized(n)
    ensures HandleBatch(n, []) == n
  {
  }
}
