/** The guarantees of the protocol in every state of every run, whatever the interleaving
    of assignments, publications, drains, handled chunks and no-ops. */
module Theorems {
  import opened Types
  import opened NodeSpec
  import opened Replication
  import opened Accounting
  import opened Cluster
  import opened Invariant
  import opened Safety
  import opened Agreement
  import opened Progress
  import opened Liveness
  import M = RingModel
  import V = RingView

  /** Bounded skew, for any two nodes i and j. */
  lemma {:induction false} SkewBounded(run: seq<System>, steps: seq<Step>, g: Setup, t: nat, i: nat, j: nat)
    requires Execution(run, steps, g) && t < |run| && 1 <= i <= 3 && 1 <= j <= 3
    ensures Shape(run[t])
    ensures var a, b := run[t].procs[i].node, run[t].procs[j].node;
            a.core.next <= b.prop.nextSeq <= b.core.next + g.w + 2
  {
    hide Execution, Inv;
    ReachableInv(run, steps, g, t);
    BoundedSkew(run[t], g.w, g.preload, i, j);
  }

  /** A delivery never resets a slot in use: as long as the k-th proposal of i is not
      handled at j, the slot it will be recorded in is blank there. */
  lemma {:induction false} SlotsNeverOverwritten(run: seq<System>, steps: seq<Step>, g: Setup,
                              t: nat, i: nat, j: nat, k: nat)
    requires Execution(run, steps, g) && t < |run| && 1 <= i <= 3 && 1 <= j <= 3 && Shape(run[t])
    requires DeliveredFrom(run[t], i, j) <= k < |run[t].procs[i].proposed|
    ensures var sn := run[t].procs[i].proposed[k].sn;
            sn == i + 3 * k && run[t].procs[j].node.log[sn % 65536] == BlankEntry(0)
  {
    hide Execution, Inv, DeliveredFrom;
    ReachableInv(run, steps, g, t);
    NoSlotOverwrite(run[t], g.w, g.preload, i, j, k);
    UnreadInWindow(run[t], g.w, g.preload, i, j, k);
  }

  /** `execute_next_` is the least number whose proposal is not handled yet, and the
      commands executed are those numbered 1, 2, 3, ... below it. */
  lemma {:induction false} FrontierExact(run: seq<System>, steps: seq<Step>, g: Setup, t: nat, j: nat)
    requires Execution(run, steps, g) && t < |run| && 1 <= j <= 3
    ensures Shape(run[t])
    ensures var core := run[t].procs[j].node.core;
            && (forall i :: 1 <= i <= 3 ==> core.next <= i + 3 * DeliveredFrom(run[t], i, j))
            && (exists i :: 1 <= i <= 3 && core.next == i + 3 * DeliveredFrom(run[t], i, j))
            && |core.executed| == core.next - 1
            && (forall k :: 0 <= k < |core.executed| ==> core.executed[k].sn == k + 1)
  {
    hide Execution, Inv, DeliveredFrom;
    ReachableInv(run, steps, g, t);
    ExactFrontier(run[t], g.w, g.preload, j);
    FrontierIsLeast(run[t], j);
    hide Frontier;
  }

  lemma {:induction false} FrontierIsLeast(c: System, j: nat)
    requires Shape(c) && 1 <= j <= 3
    ensures var f := Frontier(Delivered(c, j));
            && (forall i :: 1 <= i <= 3 ==> f <= i + 3 * DeliveredFrom(c, i, j))
            && (exists i :: 1 <= i <= 3 && f == i + 3 * DeliveredFrom(c, i, j))
  {
    hide DeliveredFrom;
    var f, d := Frontier(Delivered(c, j)), Delivered(c, j);
    assert d[1] == DeliveredFrom(c, 1, j) && d[2] == DeliveredFrom(c, 2, j) && d[3] == DeliveredFrom(c, 3, j);
    assert f == 1 + 3 * d[1] || f == 2 + 3 * d[2] || f == 3 + 3 * d[3];
  }

  /** Ring i -> j: unread messages are numbered inside j's window and fill at most two
      thirds of it; a sender with a batch always finds room for it. */
  lemma {:induction false} RingsHaveRoom(run: seq<System>, steps: seq<Step>, g: Setup, t: nat, i: nat, j: nat)
    requires Execution(run, steps, g) && t < |run| && 1 <= i <= 3 && 1 <= j <= 3 && i != j
    ensures Shape(run[t])
    ensures var r, next := run[t].rings[i][j], run[t].procs[j].node.core.next;
            && r.tail <= |r.sent| <= r.tail + 21846
            && (forall k :: r.tail <= k < |r.sent| ==>
              r.sent[k].sn == i + 3 * k && next <= r.sent[k].sn < next + 2 * g.w + 2)
    ensures var ph := run[t].procs[i].phase; ph.Outgoing? ==> Enabled(run[t], SendStep(ph, i))
  {
    hide Execution, Inv;
    ReachableInv(run, steps, g, t);
    RingsNeverFill(run[t], g.w, g.preload, i, j);
    if run[t].procs[i].phase.Outgoing? {
      SendingNeverWaits(run[t], g.w, g.preload, i);
    }
    hide Enabled;
  }

  /** What a node has drained it may handle in chunks or one by one: same node either way. */
  lemma {:induction false} ChunksUnobservable(run: seq<System>, steps: seq<Step>, g: Setup, t: nat, i: nat, j: nat)
    requires Execution(run, steps, g) && t < |run| && 1 <= i <= 3 && 1 <= j <= 3 && i != j
    ensures Shape(run[t])
    ensures var n, hand := run[t].procs[j].node, run[t].procs[j].inHand[i]; HandleBatch(n, hand) == HandleEach(n, hand)
  {
    hide Execution, Inv, HandleBatch, HandleEach;
    ReachableInv(run, steps, g, t);
    HandedBatchExact(run[t], g.w, g.preload, i, j);
  }

  /** Every request of node i that is not executed there still owns its pending slot. */
  lemma {:induction false} LivePendingKept(run: seq<System>, steps: seq<Step>, g: Setup, t: nat, i: nat, k: nat)
    requires Execution(run, steps, g) && t < |run| && 1 <= i <= 3 && Shape(run[t]) && k < |run[t].procs[i].proposed|
    requires var m := run[t].procs[i].proposed[k]; m.reqId != 0 && run[t].procs[i].node.core.next <= m.sn
    ensures var m := run[t].procs[i].proposed[k];
            run[t].procs[i].node.core.pending[PendingSlot(m.reqId)] == Pending(m.reqId, m.op, m.startTsc, false)
  {
    hide Execution, Inv, PendingSlot;
    ReachableInv(run, steps, g, t);
    InvParts(run[t], g.w, g.preload, i);
    LivePending(run[t].procs[i], i, k, g.w);
  }

  lemma {:induction false} LivePending(p: Proc, i: nat, k: nat, w: nat)
    requires 1 <= i <= 3 && SenderOk(p, i, w) && Accounts(p.node.core, p.proposed) && k < |p.proposed|
    requires p.proposed[k].reqId != 0 && p.node.core.next <= p.proposed[k].sn
    ensures var m := p.proposed[k];
            |p.node.core.pending| == 65536 && PendingSlot(m.reqId) < 65536
            && p.node.core.pending[PendingSlot(m.reqId)] == Pending(m.reqId, m.op, m.startTsc, false)
  {
    assert PendingSlot(p.proposed[k].reqId) < 65536;
    hide ConfigOk, PropOk, PhaseOk, IdsOk, CountersOk, PendingSlot;
    HistorySn(p, k, i, w);
    OwnBelowMeaning(i, p.node.core.next, k);
    hide OwnBelow;
  }

  /** Conservation at node i: the pending count is the number of own requests not executed
      yet, executed ones were each counted once, everything submitted is answered, pending,
      rejected or waiting for admission, and nothing of the load is lost. */
  lemma {:induction false} RequestsConserved(run: seq<System>, steps: seq<Step>, g: Setup, t: nat, i: nat)
    requires Execution(run, steps, g) && t < |run| && 1 <= i <= 3
    ensures Shape(run[t])
    ensures var p := run[t].procs[i];
            var k := p.node.core;
            && k.pendingCount == |Outstanding(p.proposed, k.next)| && k.ok == |Answered(p.proposed, k.next)|
            && k.total == k.ok + k.errors && k.ok == k.readOps + k.writeOps == k.readSamples + k.writeSamples
            && p.submitted == k.ok + k.pendingCount + k.errors + |DraftsOf(p.phase)|
            && p.submitted + RequestsIn(p.input) + RejectsIn(p.input) == RequestsIn(p.cfg.load) + RejectsIn(p.cfg.load)
  {
    hide Execution, Inv, Outstanding, Answered, RequestsIn, RejectsIn;
    ReachableInv(run, steps, g, t);
    RequestConservation(run[t], g.w, g.preload, i);
  }

  /** Every message a node is about to send fits a ring slot, so no ring ever abandons a
      batch half-written and a batch is rejected for lack of room only. */
  lemma {:induction false} BatchesFit(run: seq<System>, steps: seq<Step>, g: Setup, t: nat, i: nat)
    requires Execution(run, steps, g) && t < |run| && 1 <= i <= 3 && Shape(run[t])
    requires run[t].procs[i].phase.Outgoing?
    ensures var batch := run[t].procs[i].phase.batch;
            && (forall k :: 0 <= k < |batch| ==> M.Fits(batch[k])) && V.AllFit(batch)
            && forall s: M.State :: s.prod.Writing? && s.prod.batch == batch ==> !M.Enabled(s, M.Abandon)
  {
    hide Execution, Inv;
    ReachableInv(run, steps, g, t);
    InvParts(run[t], g.w, g.preload, i);
    hide NodeOk;
    NewestFit(run[t].procs[i], i, g.w);
  }

  lemma {:induction false} NewestFit(p: Proc, i: nat, w: nat)
    requires SenderOk(p, i, w) && Accounts(p.node.core, p.proposed) && p.phase.Outgoing?
    ensures forall k :: 0 <= k < |p.phase.batch| ==> M.Fits(p.phase.batch[k])
  {
    hide ConfigOk, PropOk, ClientOk, IdsOk, PendingOk, CountersOk;
    var h, batch := p.proposed, p.phase.batch;
    forall k | 0 <= k < |batch| ensures M.Fits(batch[k]) {
      assert batch[k] == h[|h| - |batch| + k];
    }
  }

  // ------------------------------------------------------------- progress

  /** No deadlock: while a client of any node has a request pending, a chunk waiting in the
      admission loop or load left, some step is enabled that lowers the remaining work. A
      chunk leaves the admission loop by being admitted only, and input is marked done only
      after all of the load. */
  lemma {:induction false} NeverStuck(run: seq<System>, steps: seq<Step>, g: Setup, t: nat, j: nat)
    returns (st: Step)
    requires Execution(run, steps, g) && t < |run| && 1 <= j <= 3 && Shape(run[t]) && Busy(run[t].procs[j])
    ensures Enabled(run[t], st) && Shape(Next(run[t], st))
    ensures Work(Next(run[t], st), HighestNumber(run[t])) < Work(run[t], HighestNumber(run[t]))
  {
    hide Execution, Inv, Enabled, Next, Work, Covers, HighestNumber, Useful, Busy;
    ReachableInv(run, steps, g, t);
    HighestCovers(run[t], g.w, g.preload);
    st := BusyAdvances(run[t], g.w, g.preload, j, HighestNumber(run[t]));
    StepLowers(run[t], st, g.w, g.preload, HighestNumber(run[t]));
  }

  /** Every schedule serves every client, without any fairness assumption: once a run has
      gone on from time t for more steps than the work then left up to a fixed number, all
      loads are submitted, admitted and answered or rejected, at every node. */
  lemma {:induction false} EveryScheduleServes(run: seq<System>, steps: seq<Step>, g: Setup, t: nat, u: nat)
    requires Execution(run, steps, g) && t <= u < |run| && Shape(run[t])
    requires u - t > Work(run[t], HighestNumber(run[t]) + 2 * g.w + 8)
    ensures Shape(run[u]) && AllServed(run[u])
    ensures forall i :: 1 <= i <= 3 ==>
              var p := run[u].procs[i]; p.node.core.total == RequestsIn(p.cfg.load) + RejectsIn(p.cfg.load)
  {
    hide Execution, Inv, Work, Covers, HighestNumber, AllAnchored, Busy;
    var top := HighestNumber(run[t]);
    ReachableInv(run, steps, g, t);
    ReachableInv(run, steps, g, u);
    HighestCovers(run[t], g.w, g.preload);
    CoversAnchors(run[t], top);
    forall i | 1 <= i <= 3 ensures !Busy(run[u].procs[i]) {
      if Busy(run[u].procs[i]) {
        BusyStretch(run, steps, g, t, u, i, top);
      }
    }
    forall i | 1 <= i <= 3
      ensures var p := run[u].procs[i]; p.node.core.total == RequestsIn(p.cfg.load) + RejectsIn(p.cfg.load)
    {
      ServedTotal(run[u], g.w, g.preload, i);
    }
  }

  lemma {:induction false} ServedTotal(c: System, w: nat, preload: map<string, string>, i: nat)
    requires Shape(c) && 1 <= i <= 3 && !Busy(c.procs[i])
    requires Inv(c, w, preload)
    ensures var p := c.procs[i]; p.node.core.total == RequestsIn(p.cfg.load) + RejectsIn(p.cfg.load)
  {
    hide Inv;
    RequestConservation(c, w, preload, i);
  }

  /** And there is always a short way: from every state of every run some continuation serves
      all clients within as many steps as there is work up to the highest number: everything
      in their loads is submitted, waiting chunks are admitted, and every request is answered
      or rejected. */
  lemma {:induction false} AlwaysCompletable(run: seq<System>, steps: seq<Step>, g: Setup, t: nat)
    returns (rest: seq<System>, more: seq<Step>)
    requires Execution(run, steps, g) && t < |run| && Shape(run[t])
    ensures IsRun(rest, more) && rest[0] == run[t] && |more| <= Work(run[t], HighestNumber(run[t]))
    ensures forall i :: 1 <= i <= 3 ==>
              var p := rest[|more|].procs[i];
              !Busy(p) && p.node.core.total == RequestsIn(p.cfg.load) + RejectsIn(p.cfg.load)
  {
    hide Execution, Inv, Work, Covers, HighestNumber;
    ReachableInv(run, steps, g, t);
    HighestCovers(run[t], g.w, g.preload);
    rest, more := CanComplete(run[t], g.w, g.preload, HighestNumber(run[t]));
    var c := rest[|more|];
    forall i | 1 <= i <= 3
      ensures var p := c.procs[i]; !Busy(p) && p.node.core.total == RequestsIn(p.cfg.load) + RejectsIn(p.cfg.load)
    {
      ServedTotal(c, g.w, g.preload, i);
    }
  }
}
