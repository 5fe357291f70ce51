/** Every schedule serves every client: a fixed bound is found for which each step of the
    rest of a run lowers the work, as long as some client is not served. No fairness is
    assumed; together with the absence of deadlock this is termination of the protocol. */
module Liveness {
  import opened Types
  import opened NodeSpec
  import opened Replication
  import opened Accounting
  import opened Cluster
  import opened Invariant
  import opened Safety
  import opened Agreement
  import opened Progress

  // ---------------------------------------------------------------- anchor

  /** All client requests of a node, past and future, lie below `quota` in its history;
      no-ops proposed after its input is done may lie beyond. */
  ghost predicate Anchored(p: Proc, quota: nat) {
    && (forall k :: 0 <= k < |p.proposed| && p.proposed[k].reqId != 0 ==> k < quota)
    && (!p.node.prop.inputDone ==> |p.proposed| + Due(p) <= quota)
  }

  ghost predicate AllAnchored(c: System, top: nat)
    requires Shape(c)
  {
    forall i :: 1 <= i <= 3 ==> Anchored(c.procs[i], Quota(i, top))
  }

  lemma {:induction false} CoversAnchors(c: System, top: nat)
    requires Shape(c) && Covers(c, top)
    ensures AllAnchored(c, top)
  {
    hide Due, Quota, Sized;
  }

  /** How a step can change a node's history and what is due to it. */
  ghost predicate HistoryStep(q: Proc, p: Proc) {
    || (p.proposed == q.proposed && Due(p) <= Due(q) && (q.node.prop.inputDone ==> p.node.prop.inputDone))
    || (q.phase.Waiting? && |p.proposed| + Due(p) <= |q.proposed| + Due(q))
    || (q.phase.Armed? && p.node.prop.inputDone == q.node.prop.inputDone && |p.proposed| == |q.proposed| + 1
        && p.proposed[..|q.proposed|] == q.proposed && p.proposed[|q.proposed|].reqId == 0)
  }

  lemma {:induction false} AnchorStep(q: Proc, p: Proc, quota: nat)
    requires Anchored(q, quota) && HistoryStep(q, p)
    requires q.phase.Waiting? ==> !q.node.prop.inputDone
    requires q.phase.Armed? ==> q.node.prop.inputDone
    ensures Anchored(p, quota)
  {
    hide Due;
    if q.phase.Armed? && p.proposed != q.proposed {
      forall k | 0 <= k < |p.proposed| && p.proposed[k].reqId != 0 ensures k < quota {
        assert k < |q.proposed| ==> p.proposed[k] == p.proposed[..|q.proposed|][k];
      }
    }
  }

  /** What every step keeps of a process: its anchor, and that its client is served. */
  ghost predicate ProcStep(q: Proc, p: Proc) {
    HistoryStep(q, p) && (!Busy(q) ==> !Busy(p))
  }

  lemma {:induction false} MovedStep(q: Proc, p: Proc)
    requires Moved(q, p)
    ensures ProcStep(q, p)
  {
  }

  lemma {:induction false} QuietStep(c: System, st: Step, a: nat)
    requires Shape(c) && Enabled(c, st) && Shape(Next(c, st)) && 1 <= a <= 3 && !st.SelfDeliver? && !st.Handle?
    ensures ProcStep(c.procs[a], Next(c, st).procs[a])
  {
    hide Sized, Stamped, AssignAll, SelfDelivered, Handled, Admits;
    if st.Assign? {
      DueKept(c, st, a);
    }
  }

  lemma {:induction false} DeliveryStep(c: System, st: Step, w: nat, preload: map<string, string>, a: nat)
    requires Shape(c) && Enabled(c, st) && Shape(Next(c, st)) && 1 <= a <= 3 && (st.SelfDeliver? || st.Handle?)
    requires Inv(c, w, preload)
    ensures ProcStep(c.procs[a], Next(c, st).procs[a])
  {
    hide Inv, SelfDelivered, Handled, Moved, ProcStep;
    EnabledProc(c, st);
    var q, p := c.procs[st.i], Next(c, st).procs[st.i];
    if st.Handle? {
      EnabledHandle(c, st.i, st.src);
      HandleKeeps(c, st.i, st.src, w, preload);
    } else {
      EnabledSelfDeliver(c, st.i);
      SelfDeliverKeeps(c, st.i, w, preload);
    }
    MovedStep(q, p);
    SameStep(c.procs[a]);
  }

  lemma {:induction false} SameStep(q: Proc)
    ensures ProcStep(q, q)
  {
  }

  lemma {:induction false} AnyStep(c: System, st: Step, w: nat, preload: map<string, string>, a: nat)
    requires Shape(c) && Enabled(c, st) && Shape(Next(c, st)) && 1 <= a <= 3
    requires Inv(c, w, preload)
    ensures ProcStep(c.procs[a], Next(c, st).procs[a])
  {
    hide Inv, Enabled, Next, ProcStep;
    if st.SelfDeliver? || st.Handle? {
      DeliveryStep(c, st, w, preload, a);
    } else {
      QuietStep(c, st, a);
    }
  }

  lemma {:induction false} PhaseAgrees(c: System, w: nat, preload: map<string, string>, a: nat)
    requires Shape(c) && 1 <= a <= 3 && Inv(c, w, preload)
    ensures c.procs[a].phase.Waiting? ==> !c.procs[a].node.prop.inputDone
    ensures c.procs[a].phase.Armed? ==> c.procs[a].node.prop.inputDone
  {
    hide Inv;
    InvParts(c, w, preload, a);
    hide NodeOk, Accounts, ConfigOk, PropOk, LoadOk, RequestsIn, RejectsIn, Requests;
  }

  lemma {:induction false} AnchorKept(c: System, st: Step, w: nat, preload: map<string, string>, top: nat)
    requires Shape(c) && Enabled(c, st) && Shape(Next(c, st)) && AllAnchored(c, top)
    requires Inv(c, w, preload)
    ensures AllAnchored(Next(c, st), top)
  {
    hide Inv, Enabled, Next, HistoryStep, Anchored, Quota;
    forall a | 1 <= a <= 3 ensures Anchored(Next(c, st).procs[a], Quota(a, top)) {
      AnyStep(c, st, w, preload, a);
      PhaseAgrees(c, w, preload, a);
      AnchorStep(c.procs[a], Next(c, st).procs[a], Quota(a, top));
    }
  }

  // ----------------------------------------------------------------- bound

  /** A client that is not served holds back its node's execution point. */
  lemma {:induction false} BusyHoldsBack(c: System, w: nat, preload: map<string, string>, j: nat, top: nat)
    requires Shape(c) && 1 <= j <= 3 && AllAnchored(c, top) && Busy(c.procs[j])
    requires Inv(c, w, preload)
    ensures c.procs[j].node.core.next <= top + 3
  {
    hide Inv, Quota;
    var p := c.procs[j];
    if p.node.core.pendingCount > 0 {
      PendingHoldsBack(c, w, preload, j, top);
    } else {
      NotDone(c, w, preload, j);
      NextNumber(c, w, preload, j);
      BoundedSkew(c, w, preload, j, j);
      if |p.proposed| > 0 {
        QuotaMeaning(j, top, |p.proposed| - 1);
      }
    }
  }

  lemma {:induction false} NotDone(c: System, w: nat, preload: map<string, string>, j: nat)
    requires Shape(c) && 1 <= j <= 3 && (c.procs[j].input != [] || c.procs[j].phase.Waiting?)
    requires Inv(c, w, preload)
    ensures !c.procs[j].node.prop.inputDone
  {
    hide Inv;
    InvParts(c, w, preload, j);
    hide NodeOk, Accounts, ConfigOk, PropOk, LoadOk, RequestsIn, RejectsIn, Requests;
  }

  lemma {:induction false} PendingHoldsBack(c: System, w: nat, preload: map<string, string>, j: nat, top: nat)
    requires Shape(c) && 1 <= j <= 3 && AllAnchored(c, top) && c.procs[j].node.core.pendingCount > 0
    requires Inv(c, w, preload)
    ensures c.procs[j].node.core.next <= top
  {
    hide Inv;
    InvParts(c, w, preload, j);
    hide NodeOk, Accounts, ConfigOk, PropOk, PhaseOk, Quota, Due;
    var core, h := c.procs[j].node.core, c.procs[j].proposed;
    CountsAreSets(core, h);
    hide SenderOk, Requests, Answered;
    var k :| k in Outstanding(h, core.next);
    HistorySn(c.procs[j], k, j, w);
    QuotaMeaning(j, top, k);
  }

  /** So while a client is not served, no node's numbers run far ahead. */
  lemma {:induction false} NumbersBounded(c: System, w: nat, preload: map<string, string>, j: nat, top: nat)
    requires Shape(c) && 1 <= j <= 3 && AllAnchored(c, top) && Busy(c.procs[j])
    requires Inv(c, w, preload)
    ensures forall i :: 1 <= i <= 3 ==> |c.procs[i].proposed| < Quota(i, top + 2 * w + 8)
  {
    hide Inv, Quota, AllAnchored, Busy;
    BusyHoldsBack(c, w, preload, j, top);
    BoundedSkew(c, w, preload, j, j);
    forall i | 1 <= i <= 3 ensures |c.procs[i].proposed| < Quota(i, top + 2 * w + 8) {
      BoundedSkew(c, w, preload, i, j);
      BoundedSkew(c, w, preload, i, i);
      NextNumber(c, w, preload, i);
      QuotaMeaning(i, top + 2 * w + 8, |c.procs[i].proposed|);
    }
  }

  /** Whatever step is taken then, the work up to that fixed number falls. */
  lemma {:induction false} AnyStepLowers(c: System, st: Step, w: nat, preload: map<string, string>, j: nat, top: nat)
    requires Shape(c) && Enabled(c, st) && 1 <= j <= 3 && AllAnchored(c, top) && Busy(c.procs[j])
    requires Inv(c, w, preload)
    ensures Shape(Next(c, st)) && Work(Next(c, st), top + 2 * w + 8) < Work(c, top + 2 * w + 8)
  {
    hide Inv, Enabled, Next, Quota, Work, AllAnchored, Busy, Useful;
    NumbersBounded(c, w, preload, j, top);
    StepLowers(c, st, w, preload, top + 2 * w + 8);
    AllUseful(c, w, preload, st, top + 2 * w + 8);
  }

  // ------------------------------------------------------------------ runs

  /** A client not served at the end of a stretch of a run was not served at its start
      either, and every step of the stretch lowered the work. */
  lemma {:induction false} BusyStretch(run: seq<System>, steps: seq<Step>, g: Setup, t: nat, u: nat, j: nat, top: nat)
    requires Execution(run, steps, g) && t <= u < |run| && 1 <= j <= 3 && Shape(run[t]) && Shape(run[u])
    requires AllAnchored(run[t], top) && Busy(run[u].procs[j])
    ensures Busy(run[t].procs[j]) && Work(run[u], top + 2 * g.w + 8) + (u - t) <= Work(run[t], top + 2 * g.w + 8)
    decreases u - t
  {
    hide Inv, Enabled, Next, Initial, ConfigOk, Work, AllAnchored, Busy, Shape;
    if t < u {
      var c, st := run[t], steps[t];
      ReachableInv(run, steps, g, t);
      ReachableInv(run, steps, g, t + 1);
      assert Enabled(c, st) && run[t + 1] == Next(c, st);
      AnchorKept(c, st, g.w, g.preload, top);
      BusyStretch(run, steps, g, t + 1, u, j, top);
      AnyStep(c, st, g.w, g.preload, j);
      AnyStepLowers(c, st, g.w, g.preload, j, top);
    }
  }
}
