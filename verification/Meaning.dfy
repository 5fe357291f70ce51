/** What replicas execute, in terms of what clients submitted: no-ops change nothing, stores
    are the fold of client operations, no-ops end when all nodes have finished. */
module Meaning {
  import opened Types
  import opened NodeSpec
  import opened Replication
  import opened Accounting
  import opened Cluster
  import opened Invariant
  import opened Safety
  import opened Agreement
  import opened Progress
  import opened Theorems

  // ------------------------------------------------------------------ no-ops

  lemma {:induction false} NoopCommand(id: nat, sn: nat)
    ensures var c := CommandOf(SlotOf(NoopProposal(id, sn)));
            c.op == 'N' && c.key == "" && c.value == "" && c.reqId == 0 && c.proposer == id
  {
    CommandOfProposal(NoopProposal(id, sn));
    hide CommandOf, SlotOf;
  }

  lemma {:induction false} NoopEffect(c: System, st: Step)
    requires Shape(c) && Enabled(c, st) && st.ProposeNoop?
    ensures var q := c.procs[st.i];
            && |Next(c, st).procs| == 4 && |q.proposed| < |Next(c, st).procs[st.i].proposed|
            && Next(c, st).procs[st.i].proposed[|q.proposed|] == NoopProposal(q.node.core.id, q.node.prop.nextSeq)
  {
    hide NoopProposal, SelfDelivered, Handled, PublishTo, DrainFrom, Assigned, Sized;
  }

  /** A command that answers no request and changes no store. */
  ghost predicate IsNoop(c: Command) {
    c.reqId == 0 && forall m :: Apply(m, c.op, c.key, c.value) == m
  }

  /** Whatever replica executes the number a no-op took changes nothing by it, whatever its
      store holds, and answers no request. */
  lemma {:induction false} NoopHarmless(run: seq<System>, steps: seq<Step>, g: Setup, t: nat, v: nat, r: nat)
    requires Execution(run, steps, g) && t < |steps| && t < v < |run| && 1 <= r <= 3
    requires steps[t].ProposeNoop? && Shape(run[t]) && Shape(run[v]) && Enabled(run[t], steps[t])
    ensures var sn, e := run[t].procs[steps[t].i].node.prop.nextSeq, run[v].procs[r].node.core.executed;
            1 <= sn && (sn <= |e| ==> IsNoop(e[sn - 1]) && e[sn - 1].proposer == steps[t].i)
  {
    hide Inv, Initial, Next, ConfigOk, SlotOf, CommandOf, Enabled, NoopProposal;
    EnabledProc(run[t], steps[t]);
    var i, q := steps[t].i, run[t].procs[steps[t].i];
    ReachableInv(run, steps, g, t);
    ReachableInv(run, steps, g, t + 1);
    NextNumber(run[t], g.w, g.preload, i);
    assert Enabled(run[t], steps[t]) && run[t + 1] == Next(run[t], steps[t]);
    NoopEffect(run[t], steps[t]);
    NoopCommand(q.node.core.id, q.node.prop.nextSeq);
    if q.node.prop.nextSeq <= |run[v].procs[r].node.core.executed| {
      ExecutedProposal(run, steps, g, t + 1, v, i, |q.proposed|, r);
    }
  }

  // ------------------------------------------------------------------ stores

  /** The commands that answer client requests, in order. */
  function Clients(cmds: seq<Command>): (r: seq<Command>)
    ensures forall k :: 0 <= k < |r| ==> r[k].reqId != 0 && r[k] in cmds
  {
    if cmds == [] then []
    else
      var c := cmds[|cmds| - 1];
      Clients(cmds[..|cmds| - 1]) + if c.reqId != 0 then [c] else []
  }

  lemma {:induction false} ClientsFold(store: map<string, string>, cmds: seq<Command>)
    requires forall k :: 0 <= k < |cmds| && cmds[k].reqId == 0 ==> cmds[k].op == 'N'
    ensures ApplyAll(store, cmds) == ApplyAll(store, Clients(cmds))
  {
    if cmds != [] {
      var front, c := cmds[..|cmds| - 1], cmds[|cmds| - 1];
      ClientsFold(store, front);
      if c.reqId != 0 {
        var all := Clients(front) + [c];
        assert all[..|all| - 1] == Clients(front);
      } else {
        assert Clients(front) + [] == Clients(front);
      }
    }
  }

  lemma {:induction false} ExecutedOp(c: System, w: nat, preload: map<string, string>, j: nat, s: nat)
    requires Shape(c) && 1 <= j <= 3 && 1 <= s < c.procs[j].node.core.next && Inv(c, w, preload)
    ensures s <= |c.procs[j].node.core.executed|
    ensures var x := c.procs[j].node.core.executed[s - 1]; OpFits(x.op, x.reqId)
  {
    hide Inv, SlotOf, CommandOf, NodeOk, SenderOk;
    ExecutedIs(c, w, preload, j, s);
    Numbering(s);
    var i, k := Owner(s), Index(s);
    InvParts(c, w, preload, i);
    SenderId(c.procs[i], i, w);
    hide IdsOk, PendingOk, CountersOk;
    CommandOfProposal(c.procs[i].proposed[k]);
  }

  /** A replica's store is the preload with the client operations executed so far applied in
      their order, and nothing else; every command executed is a client operation or a no-op. */
  lemma {:induction false} StoreIsClientFold(run: seq<System>, steps: seq<Step>, g: Setup, t: nat, j: nat)
    requires Execution(run, steps, g) && t < |run| && 1 <= j <= 3
    ensures Shape(run[t])
    ensures var core := run[t].procs[j].node.core;
            && core.store == ApplyAll(g.preload, core.executed) == ApplyAll(g.preload, Clients(core.executed))
            && forall k :: 0 <= k < |core.executed| ==>
                 var c := core.executed[k];
                 if c.reqId == 0 then c.op == 'N' else c.op == 'G' || c.op == 'P' || c.op == 'U' || c.op == 'D'
  {
    hide Execution, Inv, ApplyAll, Clients;
    ReachableInv(run, steps, g, t);
    var core := run[t].procs[j].node.core;
    ExecutedLength(run[t], g.w, g.preload, j);
    forall k | 0 <= k < |core.executed| ensures OpFits(core.executed[k].op, core.executed[k].reqId) {
      ExecutedOp(run[t], g.w, g.preload, j, k + 1);
    }
    ClientsFold(g.preload, core.executed);
  }

  // ----------------------------------------------------------------- the end

  /** A node that has set its finish flag has answered or rejected all of its load. */
  lemma {:induction false} FinishedServed(run: seq<System>, steps: seq<Step>, g: Setup, t: nat, i: nat)
    requires Execution(run, steps, g) && t < |run| && 1 <= i <= 3 && Shape(run[t]) && run[t].procs[i].finished
    ensures var p := run[t].procs[i];
            !Busy(p) && p.node.core.total == RequestsIn(p.cfg.load) + RejectsIn(p.cfg.load)
  {
    hide Execution, Inv;
    ReachableInv(run, steps, g, t);
    FinishedIdle(run[t], g.w, g.preload, i);
    ServedTotal(run[t], g.w, g.preload, i);
  }

  lemma {:induction false} FinishedIdle(c: System, w: nat, preload: map<string, string>, i: nat)
    requires Shape(c) && 1 <= i <= 3 && c.procs[i].finished && Inv(c, w, preload)
    ensures !Busy(c.procs[i])
  {
    hide Inv;
    InvParts(c, w, preload, i);
    hide NodeOk, Accounts, ConfigOk, PropOk, LoadOk, RequestsIn, RejectsIn, Requests;
  }

  /** When a node decides on a no-op: its input is done, some node has not finished, and its
      own numbers are less than 3 * 512 ahead of execution. */
  lemma {:induction false} NoopExactly(c: System, i: nat)
    requires Shape(c)
    ensures Enabled(c, ArmNoop(i)) <==>
            && 1 <= i <= 3 && c.procs[i].phase.Idle? && c.procs[i].node.prop.inputDone
            && (exists j :: 1 <= j <= 3 && !c.procs[j].finished)
            && c.procs[i].node.prop.highest < c.procs[i].node.core.next + 1536
  {
    hide Sized;
    if !AllFinished(c) {
      assert !c.procs[1].finished || !c.procs[2].finished || !c.procs[3].finished;
    }
  }

  /** A node sets its finish flag as soon as its input is done and no request is pending,
      whatever else it is doing. */
  lemma {:induction false} FinishExactly(c: System, i: nat)
    requires Shape(c)
    ensures Enabled(c, Finish(i)) <==>
            && 1 <= i <= 3 && c.procs[i].node.prop.inputDone && c.procs[i].node.core.pendingCount == 0
            && !c.procs[i].finished
  {
    hide Sized;
  }

  /** A batch is reserved exactly when both rings have room for it among their 32768 slots. */
  lemma {:induction false} ReserveExactly(c: System, i: nat)
    requires Shape(c) && 1 <= i <= 3 && c.procs[i].phase.Outgoing? && !c.procs[i].phase.reserved
    ensures Enabled(c, Reserve(i)) <==>
            forall j :: 1 <= j <= 3 && j != i ==>
              |c.rings[i][j].sent| - c.rings[i][j].tail + |c.procs[i].phase.batch| <= 32768
  {
    hide Sized;
  }

  predicate FinishFlags(c: System)
    requires |c.procs| == 4
  {
    forall i :: 1 <= i <= 3 ==> c.procs[i].finished
  }

  /** Proposals made, and one more if the node is about to make one. */
  function Proposals(p: Proc): nat {
    |p.proposed| + if p.phase.Armed? then 1 else 0
  }

  lemma {:induction false} FinishedStep(c: System, st: Step, a: nat)
    requires Shape(c) && Enabled(c, st) && FinishFlags(c) && 1 <= a <= 3
    requires forall i :: 1 <= i <= 3 ==> !c.procs[i].phase.Waiting?
    ensures |Next(c, st).procs| == 4 && Next(c, st).procs[a].finished
    ensures Proposals(Next(c, st).procs[a]) <= Proposals(c.procs[a])
  {
    hide Sized, Stamped, AssignAll, HandleChunk, Advance, RecordAll, Admits;
  }

  /** No-ops end: once all three nodes have set their finish flags, a node proposes nothing
      any more, except a no-op it had already decided on. */
  lemma {:induction false} NoopsStop(run: seq<System>, steps: seq<Step>, g: Setup, t: nat, u: nat, i: nat)
    requires Execution(run, steps, g) && t <= u < |run| && 1 <= i <= 3 && Shape(run[t]) && FinishFlags(run[t])
    ensures Shape(run[u]) && FinishFlags(run[u])
    ensures |run[u].procs[i].proposed| <= |run[t].procs[i].proposed| + if run[t].procs[i].phase.Armed? then 1 else 0
  {
    ProposalsFall(run, steps, g, t, u, i);
  }

  lemma {:induction false} ProposalsFall(run: seq<System>, steps: seq<Step>, g: Setup, t: nat, u: nat, i: nat)
    requires Execution(run, steps, g) && t <= u < |run| && 1 <= i <= 3 && Shape(run[t]) && FinishFlags(run[t])
    ensures Shape(run[u]) && FinishFlags(run[u]) && Proposals(run[u].procs[i]) <= Proposals(run[t].procs[i])
    decreases u - t
  {
    hide Inv, Enabled, Next, Initial, ConfigOk, Proposals;
    if t < u {
      var c, st := run[t], steps[t];
      ReachableInv(run, steps, g, t);
      ReachableInv(run, steps, g, t + 1);
      assert Enabled(c, st) && run[t + 1] == Next(c, st);
      forall a | 1 <= a <= 3 ensures !c.procs[a].phase.Waiting? {
        FinishedIdle(c, g.w, g.preload, a);
      }
      var c' := run[t + 1];
      forall a | 1 <= a <= 3 ensures c'.procs[a].finished {
        FinishedStep(c, st, a);
      }
      FinishedStep(c, st, i);
      ProposalsFall(run, steps, g, t + 1, u, i);
    }
  }

  // ------------------------------------------------------------------ chunks

  /** A `Handle` step is one critical section of `handle_messages_batch`: handling the rest of
      the hand afterwards is handling the whole hand. */
  lemma {:induction false} HandleIsSection(p: Proc, src: nat)
    requires Sized(p.node) && src < |p.inHand| && p.inHand[src] != []
    ensures var p' := Handled(p, src);
            && HandleBatch(p.node, p.inHand[src]) == HandleBatch(p'.node, p'.inHand[src])
            && |p'.inHand[src]| == if |p.inHand[src]| <= 64 then 0 else |p.inHand[src]| - 64
  {
    var hand := p.inHand[src];
    if |hand| <= 64 {
      assert hand[..|hand|] == hand && hand[|hand|..] == [];
      NothingToHandle(HandleChunk(p.node, hand));
    }
    hide HandleChunk;
  }

  lemma {:induction false} NothingToHandle(n: Node)
    requires Sized(n)
    ensures HandleBatch(n, []) == n
  {
  }

  // ------------------------------------------------------------ assumptions

  /** The results hold for every configuration with the window and batch bounds, at least one
      message per drain, and any load of invalid requests and of chunks, at most a batch long,
      of any reads, puts, updates and deletes, with fewer than 2^56 requests in all. */
  lemma {:induction false} EveryLoadCovered(cfg: Config, w: nat)
    requires cfg.window <= w && 3 * cfg.batch + 3 <= w && 1539 <= w <= 32767 && cfg.batch >= 1 && cfg.recvMax >= 1
    requires forall k :: 0 <= k < |cfg.load| && cfg.load[k].Chunk? ==> 1 <= |cfg.load[k].drafts| <= cfg.batch
    requires forall k, r :: 0 <= k < |cfg.load| && cfg.load[k].Chunk? && 0 <= r < |cfg.load[k].drafts| ==>
               var d := cfg.load[k].drafts[r];
               (d.req.op == 'G' || d.req.op == 'P' || d.req.op == 'U' || d.req.op == 'D') && |d.scratch| == 1088
    requires RequestsIn(cfg.load) < 0x100000000000000
    ensures ConfigOk(cfg, w)
  {
  }
}
