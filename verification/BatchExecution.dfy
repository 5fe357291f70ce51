/** Executing up to 256 ready entries at once, as `advance_execute_locked` does, is
    executing them one by one. */
module BatchExecution {
  import opened Types
  import opened NodeSpec
  import opened LogView
  import opened Store

  function ExecN(n: Node, k: nat): (r: Node)
    requires Sized(n)
    ensures Sized(r)
  {
    if k == 0 then n else ExecOne(ExecN(n, k - 1))
  }

  /** The scan condition, read off the log before anything is executed. */
  predicate ReadyAt(n: Node, i: nat)
    requires Sized(n)
  {
    var e := n.log[(n.core.next + i) % 65536];
    e.sn == n.core.next + i && ReadyEntry(e)
  }

  /** The next k entries can all run. */
  predicate RunOf(n: Node, k: nat)
    requires Sized(n)
  {
    k == 0 || (RunOf(n, k - 1) && ReadyAt(n, k - 1))
  }

  /** Executing the first k entries leaves later slots of the batch untouched. */
  lemma {:induction false} ExecNFrame(n: Node, k: nat, i: nat)
    requires Sized(n) && k <= i < 65536
    ensures ExecN(n, k).core.next == n.core.next + k
    ensures ExecN(n, k).log[(n.core.next + i) % 65536] == n.log[(n.core.next + i) % 65536]
    ensures SlotAt(ExecN(n, k), n.core.next + i) == SlotAt(n, n.core.next + i)
    ensures ExecN(n, k).payloads == n.payloads && ExecN(n, k).prop == n.prop
  {
    hide Complete, BlankEntry, Take;
    if k > 0 {
      ExecNFrame(n, k - 1, i);
      SlotsDistinct(n.core.next, n.core.next + i, n.core.next + k - 1);
    }
  }

  /** The batch scan sees the same readiness as execution one by one. */
  lemma {:induction false} ReadyInTurn(n: Node, i: nat)
    requires Sized(n) && i < 65536
    ensures Ready(ExecN(n, i)) <==> ReadyAt(n, i)
  {
    hide Complete, SlotAt, ReadyEntry;
    ExecNFrame(n, i, i);
  }

  lemma {:induction false} AdvanceOnce(n: Node)
    requires Sized(n) && Ready(n)
    ensures Advance(n) == Advance(ExecOne(n))
    ensures CountDecided(ExecOne(n).log) == CountDecided(n.log) - 1
  {
    hide Complete, SlotAt;
    ClearingLowersCount(n.log, n.core.next % 65536, BlankEntry(0));
  }

  /** A scanned batch is a run of `Advance`. */
  lemma {:induction false} BatchAdvances(n: Node, k: nat)
    requires Sized(n) && k <= 256 && RunOf(n, k)
    ensures Advance(n) == Advance(ExecN(n, k))
    ensures CountDecided(ExecN(n, k).log) == CountDecided(n.log) - k
  {
    hide ExecOne, Advance, Ready, ReadyAt, CountDecided;
    if k > 0 {
      BatchAdvances(n, k - 1);
      ReadyInTurn(n, k - 1);
      AdvanceOnce(ExecN(n, k - 1));
    }
  }

  /** The write operations collected from the first k entries of a batch. */
  function BatchOps(n: Node, hash: Hash, k: nat): seq<ApplyOp>
    requires Sized(n)
  {
    if k == 0 then []
    else
      var s := SlotAt(n, n.core.next + k - 1);
      var c := CommandOf(s);
      BatchOps(n, hash, k - 1) +
      (if s.e.decision == 1 && IsWrite(c.op) then [ApplyOp(c.op, hash.of(c.key) % 256, c.key, c.value)] else [])
  }

  lemma {:induction false} ExecStep(n: Node, k: nat)
    requires Sized(n) && 0 < k <= 65536
    ensures ExecN(n, k).core == Complete(ExecN(n, k - 1).core, SlotAt(n, n.core.next + k - 1))
  {
    hide Complete, SlotAt, BlankEntry;
    ExecNFrame(n, k - 1, k - 1);
  }

  lemma {:induction false} StoreStep(c: Core, s: Slot)
    requires |c.pending| == 65536
    ensures var cmd := CommandOf(s);
            Complete(c, s).store == if s.e.decision == 1 &&
              IsWrite(cmd.op) then Apply(c.store, cmd.op, cmd.key, cmd.value) else c.store
  {
    hide CommandOf, Account;
  }

  lemma {:induction false} OpsSnoc(store: map<string, string>, ops: seq<ApplyOp>, o: ApplyOp)
    ensures ApplyOps(store, ops + [o]) == Apply(ApplyOps(store, ops), o.op, o.key, o.value)
  {
    assert (ops + [o])[..|ops|] == ops;
  }

  lemma {:induction false} BatchStoreStep(n: Node, hash: Hash, k: nat)
    requires Sized(n) && 0 < k <= 256
    requires ApplyOps(n.core.store, BatchOps(n, hash, k - 1)) == ExecN(n, k - 1).core.store
    ensures ApplyOps(n.core.store, BatchOps(n, hash, k)) == ExecN(n, k).core.store
  {
    hide SlotAt, CommandOf, Complete, Apply, ApplyOps, ExecN, IsWrite;
    ExecStep(n, k);
    var s, front := SlotAt(n, n.core.next + k - 1), BatchOps(n, hash, k - 1);
    var c := CommandOf(s);
    StoreStep(ExecN(n, k - 1).core, s);
    OpsSnoc(n.core.store, front, ApplyOp(c.op, hash.of(c.key) % 256, c.key, c.value));
    assert front + [] == front;
  }

  lemma {:induction false} EmptyBatchStore(n: Node, hash: Hash)
    requires Sized(n)
    ensures ApplyOps(n.core.store, BatchOps(n, hash, 0)) == ExecN(n, 0).core.store
  {
  }

  /** Applying a batch to the store first is what the one-by-one executions add up to. */
  lemma {:induction false} BatchStore(n: Node, hash: Hash, k: nat)
    requires Sized(n) && k <= 256
    ensures ApplyOps(n.core.store, BatchOps(n, hash, k)) == ExecN(n, k).core.store
  {
    hide ApplyOps, BatchOps, ExecN;
    if k == 0 {
      EmptyBatchStore(n, hash);
    } else {
      BatchStore(n, hash, k - 1);
      BatchStoreStep(n, hash, k);
    }
  }

  lemma {:induction false} BatchShards(n: Node, hash: Hash, k: nat)
    requires Sized(n)
    ensures forall i :: 0 <= i < |BatchOps(n, hash, k)| ==>
            BatchOps(n, hash, k)[i].shard == hash.of(BatchOps(n, hash, k)[i].key) % 256
  {
    hide SlotAt, CommandOf;
    if k > 0 {
      BatchShards(n, hash, k - 1);
    }
  }

  /** k entries can run, and no more of them fit a batch. */
  predicate MaximalRun(n: Node, k: nat)
    requires Sized(n)
  {
    k <= 256 && RunOf(n, k) && (k < 256 ==> !ReadyAt(n, k))
  }

  lemma {:induction false} RunEnds(n: Node, k: nat)
    requires Sized(n) && RunOf(n, k) && k <= 256 && (k == 256 || !ReadyAt(n, k))
    ensures MaximalRun(n, k)
  {
    hide RunOf, ReadyAt;
  }

  /** A batch ends before 256 entries only where nothing can run. */
  lemma {:induction false} BatchFull(n: Node, k: nat)
    requires Sized(n) && MaximalRun(n, k)
    ensures k <= 256 && RunOf(n, k) && (k == 256 || !ReadyAt(n, k))
  {
    hide RunOf, ReadyAt;
  }

  /** `ops` are the writes of the first k entries. */
  predicate Collected(n: Node, hash: Hash, k: nat, ops: seq<ApplyOp>)
    requires Sized(n)
  {
    ops == BatchOps(n, hash, k)
  }

  lemma {:induction false} EmptyRun(n: Node, hash: Hash)
    requires Sized(n)
    ensures RunOf(n, 0) && Collected(n, hash, 0, [])
  {
  }

  lemma {:induction false} CollectMore(n: Node, hash: Hash, k: nat, ops: seq<ApplyOp>, more: seq<ApplyOp>)
    requires Sized(n) && Collected(n, hash, k, ops) && BatchOps(n, hash, k + 1) == BatchOps(n, hash, k) + more
    ensures Collected(n, hash, k + 1, ops + more)
  {
    hide BatchOps;
  }

  lemma {:induction false} LongerRun(n: Node, k: nat)
    requires Sized(n) && RunOf(n, k) && ReadyAt(n, k)
    ensures RunOf(n, k + 1)
  {
    hide ReadyAt;
  }

  /** What the source cuts out of a payload buffer is the command's key and value. */
  lemma {:induction false} CommandText(e: LogEntry, payload: Buffer)
    requires e.keyLen + e.valueLen <= |payload|
    ensures CommandOf(Slot(e, Take(payload, e.keyLen + e.valueLen)))
            == Command(e.sn, e.op, payload[..e.keyLen],
                       if e.op == 'D' then "" else payload[e.keyLen..e.keyLen + e.valueLen], e.proposer, e.reqId)
  {
    var bytes := payload[..e.keyLen + e.valueLen];
    assert bytes[..e.keyLen] == payload[..e.keyLen];
    assert bytes[e.keyLen..] == payload[e.keyLen..e.keyLen + e.valueLen];
  }

  lemma {:induction false} CollectStep(n: Node, hash: Hash, k: nat)
    requires Sized(n)
    requires var slot := (n.core.next + k) % 65536;
             n.log[slot].keyLen + n.log[slot].valueLen <= |n.payloads[slot]|
    ensures var slot := (n.core.next + k) % 65536;
            var e, payload := n.log[slot], n.payloads[slot];
            var key := payload[..e.keyLen];
            BatchOps(n, hash, k + 1) == BatchOps(n, hash, k) +
            if e.decision == 1 && IsWrite(e.op) then
              [ApplyOp(e.op, hash.of(key) % 256, key, if e.op ==
                'D' then "" else payload[e.keyLen..e.keyLen + e.valueLen])]
            else []
  {
    var slot := (n.core.next + k) % 65536;
    var e, payload := n.log[slot], n.payloads[slot];
    hide CommandOf, Take, IsWrite;
    CommandText(e, payload);
    assert SlotAt(n, n.core.next + k) == Slot(e, Take(payload, e.keyLen + e.valueLen));
    hide SlotAt;
    assert BatchOps(n, hash, k) == BatchOps(n, hash, k + 1 - 1);
  }

  // The second loop runs with the store already final and the frontier not yet moved.

  function Midway(c: Core, store: map<string, string>, next: nat): Core {
    c.(store := store, next := next)
  }

  lemma {:induction false} AccountMidway(c: Core, s: Slot, store: map<string, string>, next: nat)
    requires |c.pending| == 65536
    ensures Midway(Complete(c, s), store, next) ==
            var m := Midway(c, store, next);
            (if s.e.decision == 1 then Account(m, CommandOf(s)) else m).(executed := c.executed + [CommandOf(s)])
  {
    hide CommandOf, Apply;
  }

  /** One turn of the completion loop of `advance_execute_locked`. */
  lemma {:induction false} FinishStep(n: Node, i: nat, store: map<string, string>)
    requires Sized(n) && i < 65536
    ensures var sn := n.core.next + i;
            var s, m := SlotAt(n, sn), Midway(ExecN(n, i).core, store, n.core.next);
            && ExecN(n, i).log[sn % 65536] == s.e
            && CommandOf(s).proposer == s.e.proposer && CommandOf(s).reqId == s.e.reqId
            && ExecN(n, i + 1).log == ExecN(n, i).log[sn % 65536 := BlankEntry(0)]
            && Midway(ExecN(n, i + 1).core, store, n.core.next)
               == (if s.e.decision == 1 then Account(m, CommandOf(s)) else m).(executed := m.executed + [CommandOf(s)])
  {
    hide Complete, Account, Take;
    ExecNFrame(n, i, i);
    AccountMidway(ExecN(n, i).core, SlotAt(n, n.core.next + i), store, n.core.next);
  }

  /** What a batch leaves behind, put together from its three parts. */
  lemma {:induction false} BatchDone(n: Node, k: nat)
    requires Sized(n) && 0 < k <= 256 && MaximalRun(n, k)
    ensures Advance(n) == Advance(ExecN(n, k)) && CountDecided(ExecN(n, k).log) < CountDecided(n.log)
    ensures var r := ExecN(n, k); r == Node(r.log, n.payloads, Midway(r.core, r.core.store, n.core.next + k), n.prop)
  {
    hide Advance, RunOf, ExecOne, CountDecided;
    BatchAdvances(n, k);
    ExecNFrame(n, k, k);
  }

  lemma {:induction false} NothingToRun(n: Node)
    requires Sized(n) && MaximalRun(n, 0)
    ensures Advance(n) == n
  {
  }

  // ------------------------------------------------------------ the scan loop

  predicate PayloadsFit(log: seq<LogEntry>, payloads: seq<Buffer>) {
    && |log| == |payloads| == 65536
    && forall x :: 0 <= x < 65536 ==> log[x].keyLen + log[x].valueLen <= |payloads[x]|
  }

  /** Same log, payloads and frontier as the node. */
  ghost predicate Mirrors(log: seq<LogEntry>, payloads: seq<Buffer>, next: nat, n: Node) {
    n.log == log && n.payloads == payloads && n.core.next == next && Sized(n) && PayloadsFit(log, payloads)
  }

  /** The break conditions of the scan loop, for the entry numbered `sn`. */
  predicate CanRun(log: seq<LogEntry>, sn: nat)
    requires |log| == 65536
  {
    var e := log[sn % 65536];
    !(e.sn != sn || !e.decided) && !(e.decision == 1 && !e.known)
  }

  /** The write, if any, that entry contributes to the batch. */
  function WriteOf(log: seq<LogEntry>, payloads: seq<Buffer>, sn: nat, hash: Hash): seq<ApplyOp>
    requires PayloadsFit(log, payloads)
  {
    var e, payload := log[sn % 65536], payloads[sn % 65536];
    if e.decision == 1 && IsWrite(e.op) then
      var key := payload[..e.keyLen];
      var value := if e.op == 'D' then "" else payload[e.keyLen..e.keyLen + e.valueLen];
      [ApplyOp(e.op, hash.of(key) % 256, key, value)]
    else []
  }

  lemma {:induction false} CanRunIs(log: seq<LogEntry>, next: nat, n: Node, k: nat)
    requires Sized(n) && n.log == log && n.core.next == next
    ensures CanRun(log, next + k) <==> ReadyAt(n, k)
  {
  }

  lemma {:induction false} WriteOfIs(log: seq<LogEntry>, payloads: seq<Buffer>, next: nat, hash: Hash, n: Node, k: nat)
    requires Mirrors(log, payloads, next, n)
    ensures PayloadsFit(log, payloads)
    ensures BatchOps(n, hash, k + 1) == BatchOps(n, hash, k) + WriteOf(log, payloads, next + k, hash)
  {
    hide BatchOps, IsWrite;
    CollectStep(n, hash, k);
  }

  /** One turn of the scan loop, in terms of the node. */
  lemma {:induction false} ScanTurn(log: seq<LogEntry>, payloads: seq<Buffer>, next: nat, hash: Hash, n: Node,
      k: nat, ops: seq<ApplyOp>)
    requires Mirrors(log, payloads, next, n) && RunOf(n, k) && Collected(n, hash, k, ops)
    ensures PayloadsFit(log, payloads) && (CanRun(log, next + k) <==> ReadyAt(n, k))
    ensures ReadyAt(n, k) ==> RunOf(n, k + 1) && Collected(n, hash, k + 1, ops + WriteOf(log, payloads, next + k, hash))
  {
    CanRunIs(log, next, n, k);
    WriteOfIs(log, payloads, next, hash, n, k);
    hide BatchOps, RunOf, ReadyAt, CanRun, WriteOf, Collected, PayloadsFit;
    if ReadyAt(n, k) {
      LongerRun(n, k);
      CollectMore(n, hash, k, ops, WriteOf(log, payloads, next + k, hash));
    }
  }

  method ScanBatch(log: seq<LogEntry>, payloads: seq<Buffer>, next: nat, hash: Hash, ghost n: Node)
    returns (count: nat, ops: seq<ApplyOp>)
    requires Mirrors(log, payloads, next, n)
    ensures count <= 256 && MaximalRun(n, count) && Collected(n, hash, count, ops)
  {
    count, ops := 0, [];
    hide *;
    EmptyRun(n, hash);
    while count < 256
      invariant count <= 256 && RunOf(n, count) && Collected(n, hash, count, ops)
    {
      ScanTurn(log, payloads, next, hash, n, count, ops);
      if !CanRun(log, next + count) {
        break;
      }
      ops, count := ops + WriteOf(log, payloads, next + count, hash), count + 1;
    }
    RunEnds(n, count);
  }
}
