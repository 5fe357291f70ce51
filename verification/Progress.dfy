/** Deadlock freedom: a measure of the work left up to a number never rises, and while
    a request is pending some enabled step lowers it. */
module Progress {
  import opened Types
  import opened NodeSpec
  import opened LogView
  import opened Replication
  import opened Accounting
  import opened Cluster
  import opened Invariant
  import opened Safety
  import opened Agreement

  // ------------------------------------------------------------ the measure

  /** How many numbers of node i are at most `top`. */
  function Quota(i: nat, top: nat): nat
    requires 1 <= i <= 3
  {
    OwnBelow(i, top + 1)
  }

  lemma {:induction false} QuotaMeaning(i: nat, top: nat, k: nat)
    requires 1 <= i <= 3
    ensures i + 3 * k <= top <==> k < Quota(i, top)
  {
    OwnBelowMeaning(i, top + 1, k);
  }

  /** What the sending side has to do besides proposing: reserve room, leave the idle state. */
  function Rank(p: Proc, quota: nat): nat {
    if p.phase.Outgoing? then (if !p.phase.reserved && Minus(|p.proposed|, |p.phase.batch|) < quota then 1 else 0)
    else if p.phase.Idle? && |p.proposed| < quota then 1 else 0
  }

  /** The load left to submit, `mark_input_done` and the finish flag. */
  function ClientWork(p: Proc): nat {
    2 * |p.input| + (if p.node.prop.inputDone then 0 else 1) + (if p.finished then 0 else 1)
  }

  function NodeWork(p: Proc, quota: nat): nat {
    4 * Minus(quota, |p.proposed|) + 3 * Minus(quota, Minus(|p.proposed|, InFlight(p))) + Rank(p, quota) + ClientWork(p)
  }

  function LinkWork(r: Ring, hand: seq<Message>, quota: nat): nat {
    Minus(quota, |r.sent|) + Minus(quota, r.tail) + Minus(quota, Minus(r.tail, |hand|))
  }

  function NodesWork(c: System, top: nat): nat
    requires Shape(c)
  {
    NodeWork(c.procs[1], Quota(1, top)) + NodeWork(c.procs[2], Quota(2, top)) + NodeWork(c.procs[3], Quota(3, top))
  }

  function PairWork(c: System, i: nat, j: nat, top: nat): nat
    requires Shape(c) && 1 <= i <= 3 && 1 <= j <= 3
  {
    LinkWork(c.rings[i][j], c.procs[j].inHand[i], Quota(i, top))
  }

  function LinksWork(c: System, top: nat): nat
    requires Shape(c)
  {
    PairWork(c, 1, 2, top) + PairWork(c, 1, 3, top) + PairWork(c, 2, 1, top) +
    PairWork(c, 2, 3, top) + PairWork(c, 3, 1, top) + PairWork(c, 3, 2, top)
  }

  /** Numbers up to `top` not proposed, not published, not drained, not handled yet, weighted. */
  function Work(c: System, top: nat): nat
    requires Shape(c)
  {
    NodesWork(c, top) + LinksWork(c, top)
  }

  /** Steps that advance some number up to `top`. */
  ghost predicate Useful(c: System, st: Step, top: nat)
    requires Shape(c) && 1 <= st.i <= 3
  {
    var p, quota := c.procs[st.i], Quota(st.i, top);
    match st
    case Reject(_) => true
    case Submit(_) => true
    case MarkDone(_) => true
    case Finish(_) => true
    case Assign(_, _) => |p.proposed| < quota
    case ProposeNoop(_) => |p.proposed| < quota
    case ArmNoop(_) => |p.proposed| < quota
    case Reserve(_) => Minus(|p.proposed|, InFlight(p)) < quota
    case Publish(_) => Minus(|p.proposed|, InFlight(p)) < quota
    case SelfDeliver(_) => Minus(|p.proposed|, InFlight(p)) < quota
    case Drain(i, src, _) => 1 <= src <= 3 && c.rings[src][i].tail < Quota(src, top)
    case Handle(i, src) => 1 <= src <= 3 && src != i && DeliveredFrom(c, src, i) < Quota(src, top)
  }

  // -------------------------------------------- effect of each step on it

  lemma {:induction false} ProcChanges(c: System, i: nat, p: Proc, top: nat)
    requires Shape(c) && 1 <= i <= 3 && Shape(SetProc(c, i, p)) && p.inHand == c.procs[i].inHand
    ensures Work(SetProc(c, i, p), top) ==
            Work(c, top) - NodeWork(c.procs[i], Quota(i, top)) + NodeWork(p, Quota(i, top))
  {
    hide NodeWork, LinkWork, Quota;
  }

  lemma {:induction false} LinkChanges(c: System, c': System, src: nat, dst: nat, top: nat)
    requires Shape(c) && Shape(c') && 1 <= src <= 3 && 1 <= dst <= 3 && src != dst
    requires forall a :: 1 <= a <= 3 ==> NodeWork(c'.procs[a], Quota(a, top)) == NodeWork(c.procs[a], Quota(a, top))
    requires forall a, b :: 1 <= a <= 3 && 1 <= b <= 3 && a != b && !(a == src && b == dst) ==>
                              PairWork(c', a, b, top) == PairWork(c, a, b, top)
    ensures Work(c', top) == Work(c, top) - PairWork(c, src, dst, top) + PairWork(c', src, dst, top)
  {
    hide NodeWork, PairWork, Quota;
  }

  lemma {:induction false} GrownWork(q: Proc, p: Proc, ms: seq<Message>, quota: nat)
    requires Grown(q, p, ms) && ms != [] && !q.phase.Outgoing? && ClientWork(p) == ClientWork(q)
    ensures NodeWork(p, quota) <= NodeWork(q, quota)
    ensures |q.proposed| < quota ==> NodeWork(p, quota) < NodeWork(q, quota)
  {
    hide ClientWork;
  }

  lemma {:induction false} SelfDeliveredWork(q: Proc, p: Proc, quota: nat)
    requires q.phase.Outgoing? && q.phase.reserved && 1 <= |q.phase.batch| <= |q.proposed|
    requires p.phase.Idle? && p.proposed == q.proposed && ClientWork(p) == ClientWork(q)
    ensures NodeWork(p, quota) <= NodeWork(q, quota)
    ensures |q.proposed| - |q.phase.batch| < quota ==> NodeWork(p, quota) < NodeWork(q, quota)
  {
    hide ClientWork;
  }

  lemma {:induction false} PhaseWork(q: Proc, p: Proc, st: Step, quota: nat)
    requires p.proposed == q.proposed && ClientWork(p) == ClientWork(q)
    requires match st
             case Reserve(_) => q.phase.Outgoing? && !q.phase.reserved && p.phase == q.phase.(reserved := true)
             case ArmNoop(_) => q.phase.Idle? && p.phase.Armed?
             case _ => false
    ensures NodeWork(p, quota) <= NodeWork(q, quota)
    ensures (if st.Reserve? then Minus(|q.proposed|, InFlight(q)) < quota else |q.proposed| < quota) ==>
              NodeWork(p, quota) < NodeWork(q, quota)
  {
    hide ClientWork;
  }

  lemma {:induction false} ClientStepWork(q: Proc, p: Proc, quota: nat)
    requires p.proposed == q.proposed && ClientWork(p) < ClientWork(q)
    requires p.phase == q.phase || (q.phase.Idle? && p.phase.Waiting?)
    ensures NodeWork(p, quota) < NodeWork(q, quota)
  {
    hide ClientWork;
  }

  /** Work after a step, and strictly less after a useful one. */
  ghost predicate Lowers(c: System, c': System, st: Step, top: nat)
    requires Shape(c) && Shape(c') && 1 <= st.i <= 3
  {
    Work(c', top) <= Work(c, top) && (Useful(c, st, top) ==> Work(c', top) < Work(c, top))
  }

  lemma {:induction false} ClientLowers(c: System, st: Step, top: nat)
    requires Shape(c) && Enabled(c, st) && Shape(Next(c, st))
    requires st.Reject? || st.Submit? || st.MarkDone? || st.Finish?
    ensures Lowers(c, Next(c, st), st, top)
  {
    hide Sized, Assigned, SelfDelivered, Handled, PublishTo, DrainFrom, NoopProposed, Work, Quota, NodeWork;
    var p := Next(c, st).procs[st.i];
    ProcChanges(c, st.i, p, top);
    ClientStepWork(c.procs[st.i], p, Quota(st.i, top));
  }

  lemma {:induction false} LocalLowers(c: System, st: Step, top: nat)
    requires Shape(c) && Enabled(c, st) && Shape(Next(c, st)) && (st.Reserve? || st.ArmNoop?)
    ensures Lowers(c, Next(c, st), st, top)
  {
    hide Sized, Assigned, SelfDelivered, Handled, PublishTo, DrainFrom, NoopProposed, Work, Quota, NodeWork;
    var p := Next(c, st).procs[st.i];
    ProcChanges(c, st.i, p, top);
    PhaseWork(c.procs[st.i], p, st, Quota(st.i, top));
  }

  lemma {:induction false} SameWork(q: Proc, p: Proc, quota: nat)
    requires p.proposed == q.proposed && p.phase == q.phase && ClientWork(p) == ClientWork(q)
    ensures NodeWork(p, quota) == NodeWork(q, quota)
  {
    hide ClientWork;
  }

  lemma {:induction false} AssignKeepsDone(n: Node, ds: seq<Draft>)
    requires Sized(n)
    ensures AssignAll(n, ds).prop.inputDone == n.prop.inputDone
  {
    if ds != [] {
      AssignKeepsDone(n, ds[..|ds| - 1]);
    }
  }

  lemma {:induction false} ProposeLowers(c: System, st: Step, top: nat)
    requires Shape(c) && Enabled(c, st) && Shape(Next(c, st)) && (st.Assign? || st.ProposeNoop?)
    ensures Lowers(c, Next(c, st), st, top)
  {
    hide Sized, Stamped, AssignAll, SelfDelivered, Handled, PublishTo, DrainFrom, Work, Quota, NodeWork;
    var p := Next(c, st).procs[st.i];
    if st.Assign? {
      AssignKeepsDone(c.procs[st.i].node, st.drafts);
    }
    ProcChanges(c, st.i, p, top);
    GrownWork(c.procs[st.i], p, p.phase.batch, Quota(st.i, top));
  }

  lemma {:induction false} UnsentLink(q: Proc, r: Ring, hand: seq<Message>, i: nat, j: nat)
    requires ChannelOk(q, r, hand, i, j) && q.phase.Outgoing? && q.phase.sent <= PeerRank(i, j) &&
             IsNewest(q.phase.batch, q.proposed)
    ensures |r.sent| == |q.proposed| - |q.phase.batch|
  {
  }

  lemma {:induction false} UnsentRing(c: System, w: nat, preload: map<string, string>, i: nat, j: nat)
    requires Inv(c, w, preload) && 1 <= i <= 3 && 1 <= j <= 3 && i != j
    requires c.procs[i].phase.Outgoing? && c.procs[i].phase.sent <= PeerRank(i, j)
    ensures |c.rings[i][j].sent| == |c.procs[i].proposed| - |c.procs[i].phase.batch|
  {
    hide Nodes, LinkOk, IsNewest, ConfigOk, PropOk;
    assert ChannelOk(c.procs[i], c.rings[i][j], c.procs[j].inHand[i], i, j);
    assert SenderOk(c.procs[i], i, w);
    UnsentLink(c.procs[i], c.rings[i][j], c.procs[j].inHand[i], i, j);
  }

  lemma {:induction false} OutgoingFacts(c: System, w: nat, preload: map<string, string>, i: nat)
    requires Inv(c, w, preload) && 1 <= i <= 3 && c.procs[i].phase.Outgoing?
    ensures var q := c.procs[i];
            1 <= |q.phase.batch| <= |q.proposed| && q.phase.sent <= 2 && (!q.phase.reserved ==> q.phase.sent == 0)
  {
    hide Nodes, Channels, ConfigOk, PropOk;
    assert SenderOk(c.procs[i], i, w);
  }

  lemma {:induction false} SelfDeliverLowers(c: System, i: nat, top: nat)
    requires Shape(c) && Enabled(c, SelfDeliver(i)) && Shape(SetProc(c, i, SelfDelivered(c.procs[i])))
    requires 1 <= |c.procs[i].phase.batch| <= |c.procs[i].proposed|
    ensures Lowers(c, SetProc(c, i, SelfDelivered(c.procs[i])), SelfDeliver(i), top)
  {
    hide Sized, Advance, RecordAll, Work, Quota, NodeWork;
    var q, p := c.procs[i], SelfDelivered(c.procs[i]);
    ProcChanges(c, i, p, top);
    SelfDeliveredWork(q, p, Quota(i, top));
  }

  lemma {:induction false} PublishedWork(r: Ring, ms: seq<Message>, hand: seq<Message>, quota: nat)
    requires ms != []
    ensures LinkWork(r.(sent := r.sent + ms), hand, quota) <= LinkWork(r, hand, quota)
    ensures |r.sent| < quota ==> LinkWork(r.(sent := r.sent + ms), hand, quota) < LinkWork(r, hand, quota)
  {
  }

  lemma {:induction false} PublishPairs(c: System, i: nat, a: nat, b: nat, top: nat)
    requires Shape(c) && Enabled(c, Publish(i)) && Shape(PublishTo(c, i)) && 1 <= a <= 3 && 1 <= b <= 3 && a != b
    requires !(a == i && b == Peer(i, c.procs[i].phase.sent))
    ensures PairWork(PublishTo(c, i), a, b, top) == PairWork(c, a, b, top)
  {
    hide Sized, Quota, LinkWork;
  }

  lemma {:induction false} PublishNodes(c: System, i: nat, a: nat, top: nat)
    requires Shape(c) && Enabled(c, Publish(i)) && Shape(PublishTo(c, i)) && 1 <= a <= 3
    ensures NodeWork(PublishTo(c, i).procs[a], Quota(a, top)) == NodeWork(c.procs[a], Quota(a, top))
  {
    hide Sized, Quota;
  }

  lemma {:induction false} PublishLowers(c: System, i: nat, top: nat)
    requires Shape(c) && Enabled(c, Publish(i)) && Shape(PublishTo(c, i)) && c.procs[i].phase.batch != []
    requires |c.rings[i][Peer(i, c.procs[i].phase.sent)].sent| == |c.procs[i].proposed| - |c.procs[i].phase.batch|
    ensures Lowers(c, PublishTo(c, i), Publish(i), top)
  {
    hide Sized, Quota, NodeWork, LinkWork, Work;
    var c', q, j := PublishTo(c, i), c.procs[i], Peer(i, c.procs[i].phase.sent);
    forall a | 1 <= a <= 3 ensures NodeWork(c'.procs[a], Quota(a, top)) == NodeWork(c.procs[a], Quota(a, top)) {
      PublishNodes(c, i, a, top);
    }
    forall a, b | 1 <= a <= 3 && 1 <= b <= 3 && a != b && !(a == i && b == j)
      ensures PairWork(c', a, b, top) == PairWork(c, a, b, top)
    {
      PublishPairs(c, i, a, b, top);
    }
    LinkChanges(c, c', i, j, top);
    PublishedWork(c.rings[i][j], q.phase.batch, c.procs[j].inHand[i], Quota(i, top));
  }

  lemma {:induction false} DrainedWork(r: Ring, count: nat, quota: nat)
    requires 0 < count && r.tail + count <= |r.sent|
    ensures var r' := r.(tail := r.tail + count);
            && LinkWork(r', r.sent[r.tail..r.tail + count], quota) <= LinkWork(r, [], quota)
            && (r.tail < quota ==> LinkWork(r', r.sent[r.tail..r.tail + count], quota) < LinkWork(r, [], quota))
  {
  }

  lemma {:induction false} DrainPairs(c: System, i: nat, src: nat, count: nat, a: nat, b: nat, top: nat)
    requires Shape(c) && Enabled(c, Drain(i, src, count)) && Shape(DrainFrom(c, i, src, count))
    requires 1 <= a <= 3 && 1 <= b <= 3 && a != b && !(a == src && b == i)
    ensures PairWork(DrainFrom(c, i, src, count), a, b, top) == PairWork(c, a, b, top)
  {
    hide Sized, Quota, LinkWork;
  }

  lemma {:induction false} DrainLowers(c: System, i: nat, src: nat, count: nat, top: nat)
    requires Shape(c) && Enabled(c, Drain(i, src, count)) && Shape(DrainFrom(c, i, src, count))
    ensures Lowers(c, DrainFrom(c, i, src, count), Drain(i, src, count), top)
  {
    hide Sized, Quota, NodeWork, LinkWork, Work;
    var c' := DrainFrom(c, i, src, count);
    forall a | 1 <= a <= 3 ensures NodeWork(c'.procs[a], Quota(a, top)) == NodeWork(c.procs[a], Quota(a, top)) {
      SameWork(c.procs[a], c'.procs[a], Quota(a, top));
    }
    forall a, b | 1 <= a <= 3 && 1 <= b <= 3 && a != b && !(a == src && b == i)
      ensures PairWork(c', a, b, top) == PairWork(c, a, b, top)
    {
      DrainPairs(c, i, src, count, a, b, top);
    }
    LinkChanges(c, c', src, i, top);
    DrainedWork(c.rings[src][i], count, Quota(src, top));
  }

  lemma {:induction false} HandledWork(r: Ring, hand: seq<Message>, k: nat, quota: nat)
    requires 0 < k <= |hand| <= r.tail
    ensures LinkWork(r, hand[k..], quota) <= LinkWork(r, hand, quota)
    ensures r.tail - |hand| < quota ==> LinkWork(r, hand[k..], quota) < LinkWork(r, hand, quota)
  {
  }

  lemma {:induction false} HandPairs(c: System, i: nat, p: Proc, src: nat, k: nat, a: nat, b: nat, top: nat)
    requires Shape(c) && 1 <= i <= 3 && 1 <= src <= 3 && src != i && Shape(SetProc(c, i, p)) &&
             HandTaken(c.procs[i], p, src, k)
    requires 1 <= a <= 3 && 1 <= b <= 3 && a != b && !(a == src && b == i)
    ensures PairWork(SetProc(c, i, p), a, b, top) == PairWork(c, a, b, top)
  {
    hide Sized, Quota, LinkWork;
  }

  lemma {:induction false} HandLowers(c: System, i: nat, p: Proc, src: nat, k: nat, top: nat)
    requires Shape(c) && 1 <= i <= 3 && 1 <= src <= 3 && src != i && Shape(SetProc(c, i, p)) &&
             HandTaken(c.procs[i], p, src, k)
    requires ClientWork(p) == ClientWork(c.procs[i]) && 0 < k
    requires |c.procs[i].inHand[src]| <= c.rings[src][i].tail
    ensures Lowers(c, SetProc(c, i, p), Handle(i, src), top)
  {
    hide Sized, Quota, NodeWork, LinkWork, Work;
    var c' := SetProc(c, i, p);
    forall a | 1 <= a <= 3 ensures NodeWork(c'.procs[a], Quota(a, top)) == NodeWork(c.procs[a], Quota(a, top)) {
      SameWork(c.procs[a], c'.procs[a], Quota(a, top));
    }
    forall a, b | 1 <= a <= 3 && 1 <= b <= 3 && a != b && !(a == src && b == i)
      ensures PairWork(c', a, b, top) == PairWork(c, a, b, top)
    {
      HandPairs(c, i, p, src, k, a, b, top);
    }
    LinkChanges(c, c', src, i, top);
    HandledWork(c.rings[src][i], c.procs[i].inHand[src], k, Quota(src, top));
  }

  lemma {:induction false} HandleLowers(c: System, i: nat, src: nat, p: Proc, top: nat)
    requires Shape(c) && Enabled(c, Handle(i, src)) && p == Handled(c.procs[i], src) && Shape(SetProc(c, i, p))
    requires Moved(c.procs[i], p) && |c.procs[i].inHand[src]| <= c.rings[src][i].tail
    ensures Lowers(c, SetProc(c, i, p), Handle(i, src), top)
  {
    hide Sized, HandleChunk, Lowers;
    HandLowers(c, i, p, src, ChunkSize(c.procs[i].inHand[src]), top);
  }

  lemma {:induction false} SendingEnabled(c: System, st: Step)
    requires Shape(c) && Enabled(c, st) && (st.Publish? || st.SelfDeliver?)
    ensures 1 <= st.i <= 3 && c.procs[st.i].phase.Outgoing?
    ensures st.Publish? ==> c.procs[st.i].phase.sent < 2 &&
                            c.procs[st.i].phase.sent <= PeerRank(st.i, Peer(st.i, c.procs[st.i].phase.sent))
  {
  }

  lemma {:induction false} SelfDeliverStep(c: System, i: nat, w: nat, preload: map<string, string>, top: nat)
    requires Shape(c) && Enabled(c, SelfDeliver(i)) && Shape(Next(c, SelfDeliver(i)))
    requires Inv(c, w, preload)
    ensures 1 <= i <= 3 && Lowers(c, Next(c, SelfDeliver(i)), SelfDeliver(i), top)
  {
    SendingEnabled(c, SelfDeliver(i));
    hide Inv, Enabled, SelfDelivered, Shape, Lowers;
    OutgoingFacts(c, w, preload, i);
    SelfDeliverLowers(c, i, top);
  }

  lemma {:induction false} PublishStep(c: System, i: nat, w: nat, preload: map<string, string>, top: nat)
    requires Shape(c) && Enabled(c, Publish(i)) && Shape(Next(c, Publish(i)))
    requires Inv(c, w, preload)
    ensures 1 <= i <= 3 && Lowers(c, Next(c, Publish(i)), Publish(i), top)
  {
    SendingEnabled(c, Publish(i));
    hide Inv, Enabled, PublishTo, Shape, Lowers;
    OutgoingFacts(c, w, preload, i);
    UnsentRing(c, w, preload, i, Peer(i, c.procs[i].phase.sent));
    PublishLowers(c, i, top);
  }

  lemma {:induction false} HandleStep(c: System, i: nat, src: nat, w: nat, preload: map<string, string>, top: nat)
    requires Shape(c) && Enabled(c, Handle(i, src)) && Shape(Next(c, Handle(i, src)))
    requires Inv(c, w, preload)
    ensures 1 <= i <= 3 && Lowers(c, Next(c, Handle(i, src)), Handle(i, src), top)
  {
    hide Inv, Handled, Lowers, Moved, ChunkRecorded;
    EnabledHandle(c, i, src);
    HandleNext(c, i, src);
    hide Enabled, Next, Shape;
    HandleKeeps(c, i, src, w, preload);
    HandledNode(c, i, src, w, preload);
    RecordedTail(c, i, src);
    HandleLowers(c, i, src, Handled(c.procs[i], src), top);
  }

  lemma {:induction false} HandleNext(c: System, i: nat, src: nat)
    requires Shape(c) && Enabled(c, Handle(i, src)) && 1 <= i <= 3 && 1 <= src <= 3
    ensures Next(c, Handle(i, src)) == SetProc(c, i, Handled(c.procs[i], src))
  {
  }

  lemma {:induction false} RecordedTail(c: System, i: nat, src: nat)
    requires Shape(c) && 1 <= i <= 3 && 1 <= src <= 3 && ChunkRecorded(c, i, src)
    ensures |c.procs[i].inHand[src]| <= c.rings[src][i].tail
  {
  }

  lemma {:induction false} DrainNext(c: System, i: nat, src: nat, count: nat)
    requires Shape(c) && Enabled(c, Drain(i, src, count))
    ensures Next(c, Drain(i, src, count)) == DrainFrom(c, i, src, count)
  {
  }

  /** No step of a run raises the work up to any number; useful steps lower it. */
  lemma {:induction false} StepLowers(c: System, st: Step, w: nat, preload: map<string, string>, top: nat)
    requires Shape(c) && Inv(c, w, preload) && Enabled(c, st)
    ensures 1 <= st.i <= 3 && Shape(Next(c, st)) && Lowers(c, Next(c, st), st, top)
  {
    hide Inv, Enabled, Next, Shape, Lowers;
    StepKeeps(c, st, w, preload);
    InvShape(Next(c, st), w, preload);
    EnabledProc(c, st);
    match st {
      case SelfDeliver(i) => SelfDeliverStep(c, i, w, preload, top);
      case Publish(i) => PublishStep(c, i, w, preload, top);
      case Drain(i, src, count) =>
        DrainNext(c, i, src, count);
        DrainLowers(c, i, src, count, top);
      case Handle(i, src) => HandleStep(c, i, src, w, preload, top);
      case Assign(_, _) => ProposeLowers(c, st, top);
      case ProposeNoop(_) => ProposeLowers(c, st, top);
      case Reserve(_) => LocalLowers(c, st, top);
      case ArmNoop(_) => LocalLowers(c, st, top);
      case _ => ClientLowers(c, st, top);
    }
  }

  // ---------------------------------------------- some useful step is enabled

  ghost predicate Advances(c: System, st: Step, top: nat)
    requires Shape(c)
  {
    Enabled(c, st) && 1 <= st.i <= 3 && Useful(c, st, top)
  }

  lemma {:induction false} SendUseful(c: System, i: nat, top: nat)
    requires Shape(c) && 1 <= i <= 3 && c.procs[i].phase.Outgoing?
    requires Minus(|c.procs[i].proposed|, |c.procs[i].phase.batch|) < Quota(i, top)
    ensures var st := SendStep(c.procs[i].phase, i); st.i == i && Useful(c, st, top)
  {
    hide Sized, Quota;
  }

  /** A node with a batch on its way can go on with it. */
  lemma {:induction false} SendAdvances(c: System, w: nat, preload: map<string, string>, i: nat, top: nat)
    requires Inv(c, w, preload) && 1 <= i <= 3 && c.procs[i].phase.Outgoing?
    requires Minus(|c.procs[i].proposed|, |c.procs[i].phase.batch|) < Quota(i, top)
    ensures Shape(c) && Advances(c, SendStep(c.procs[i].phase, i), top)
  {
    hide Senders, Channels, Nodes, Enabled, Useful, SendStep, Quota, Sized;
    SendingNeverWaits(c, w, preload, i);
    SendUseful(c, i, top);
  }

  lemma {:induction false} HandAdvances(c: System, i: nat, j: nat, top: nat)
    requires Shape(c) && 1 <= i <= 3 && 1 <= j <= 3 && i != j && DeliveredFrom(c, i, j) < Quota(i, top)
    requires c.procs[j].inHand[i] != []
    ensures Advances(c, Handle(j, i), top)
  {
    hide Sized, Quota, DeliveredFrom;
  }

  /** What `drain_source_ring` takes when it sees everything published so far. */
  function DrainSize(r: Ring, recvMax: nat): nat
    requires r.tail <= |r.sent|
  {
    AtMost(|r.sent| - r.tail, recvMax)
  }

  lemma {:induction false} DrainAdvances(c: System, i: nat, j: nat, top: nat)
    requires Shape(c) && 1 <= i <= 3 && 1 <= j <= 3 && i != j && c.rings[i][j].tail < Quota(i, top)
    requires c.rings[i][j].tail < |c.rings[i][j].sent| && 1 <= c.procs[j].cfg.recvMax
    requires c.procs[j].inHand[i] == []
    requires c.procs[j].cfg.perSource || forall s :: 1 <= s <= 3 && s != j ==> c.procs[j].inHand[s] == []
    ensures Advances(c, Drain(j, i, DrainSize(c.rings[i][j], c.procs[j].cfg.recvMax)), top)
  {
    hide Sized, Quota;
  }

  /** Every number proposed so far, or due to a request of the load, is at most `top`. */
  ghost predicate Covers(c: System, top: nat)
    requires Shape(c)
  {
    forall i :: 1 <= i <= 3 ==> |c.procs[i].proposed| + Due(c.procs[i]) <= Quota(i, top)
  }

  lemma {:induction false} HandBehind(c: System, w: nat, preload: map<string, string>, i: nat, j: nat, top: nat)
    requires Shape(c) && 1 <= i <= 3 && 1 <= j <= 3 && i != j
    requires |c.procs[i].proposed| <= Quota(i, top) && c.procs[j].inHand[i] != []
    requires Inv(c, w, preload)
    ensures DeliveredFrom(c, i, j) < Quota(i, top)
  {
    hide Senders, Nodes, Channels, Quota, DeliveredFrom;
    HandPrefix(c, j, i, |c.procs[j].inHand[i]|);
  }

  lemma {:induction false} RingBehind(c: System, w: nat, preload: map<string, string>, i: nat, j: nat, top: nat)
    requires Shape(c) && 1 <= i <= 3 && 1 <= j <= 3 && i != j
    requires |c.procs[i].proposed| <= Quota(i, top) && c.rings[i][j].tail < |c.rings[i][j].sent|
    requires Inv(c, w, preload)
    ensures c.rings[i][j].tail < Quota(i, top)
  {
    hide Senders, Nodes, Channels, Quota, DeliveredFrom;
    TailBounds(c, i, j);
  }

  /** Node j can go on with messages it has drained, or may drain from i. */
  lemma {:induction false} ReceiveAdvances(c: System, w: nat, preload: map<string, string>, i: nat, j: nat,
      top: nat) returns (st: Step)
    requires Shape(c) && Covers(c, top) && 1 <= i <= 3 && 1 <= j <= 3 && i != j
    requires c.procs[j].inHand[i] != [] || c.rings[i][j].tail < |c.rings[i][j].sent|
    requires Inv(c, w, preload)
    ensures Advances(c, st, top)
  {
    hide Inv, Quota, Advances, Sized, Due;
    if s :| 1 <= s <= 3 && s != j && c.procs[j].inHand[s] != [] {
      st := Handle(j, s);
      HandBehind(c, w, preload, s, j, top);
      HandAdvances(c, s, j, top);
    } else {
      st := Drain(j, i, DrainSize(c.rings[i][j], c.procs[j].cfg.recvMax));
      RecvMaxPositive(c, w, preload, j);
      RingBehind(c, w, preload, i, j, top);
      DrainAdvances(c, i, j, top);
    }
  }

  lemma {:induction false} UnpublishedOutgoing(q: Proc, r: Ring, hand: seq<Message>, i: nat, j: nat)
    requires ChannelOk(q, r, hand, i, j) && |r.sent| < |q.proposed|
    ensures q.phase.Outgoing? && |r.sent| == Minus(|q.proposed|, |q.phase.batch|)
  {
  }

  lemma {:induction false} RecvMaxPositive(c: System, w: nat, preload: map<string, string>, j: nat)
    requires Inv(c, w, preload) && 1 <= j <= 3
    ensures 1 <= c.procs[j].cfg.recvMax
  {
    hide Nodes, Channels, PropOk, PhaseOk;
    assert SenderOk(c.procs[j], j, w);
  }

  /** Any proposal not handled yet by node j can be brought one step nearer. */
  lemma {:induction false} DeliveryAdvances(c: System, w: nat, preload: map<string, string>, i: nat, j: nat, k: nat,
      top: nat)
      returns (st: Step)
    requires Shape(c) && Covers(c, top) && 1 <= i <= 3 && 1 <= j <= 3
    requires DeliveredFrom(c, i, j) <= k < |c.procs[i].proposed|
    requires Inv(c, w, preload)
    ensures Advances(c, st, top)
  {
    hide Senders, Nodes, Quota, Advances, Covers, Due;
    CoversProposed(c, i, top);
    var q := c.procs[i];
    if i == j {
      st := SendStep(q.phase, i);
      OutgoingFacts(c, w, preload, i);
      SendAdvances(c, w, preload, i, top);
    } else {
      var r, hand := c.rings[i][j], c.procs[j].inHand[i];
      assert ChannelOk(q, r, hand, i, j);
      TailBounds(c, i, j);
      hide LinkOk, Channels;
      if hand != [] || r.tail < |r.sent| {
        st := ReceiveAdvances(c, w, preload, i, j, top);
      } else {
        UnpublishedOutgoing(q, r, hand, i, j);
        OutgoingFacts(c, w, preload, i);
        st := SendStep(q.phase, i);
        SendAdvances(c, w, preload, i, top);
      }
    }
  }

  lemma {:induction false} CoversProposed(c: System, i: nat, top: nat)
    requires Shape(c) && Covers(c, top) && 1 <= i <= 3
    ensures |c.procs[i].proposed| <= Quota(i, top) && (Due(c.procs[i]) > 0 ==> |c.procs[i].proposed| < Quota(i, top))
  {
    hide Quota, Due;
  }

  /** The node whose next number is least. */
  function LeastNode(c: System): (i: nat)
    requires Shape(c)
    ensures 1 <= i <= 3 && forall j :: 1 <= j <= 3 ==> c.procs[i].node.prop.nextSeq <= c.procs[j].node.prop.nextSeq
  {
    var a, b, d := c.procs[1].node.prop.nextSeq, c.procs[2].node.prop.nextSeq, c.procs[3].node.prop.nextSeq;
    if a <= b && a <= d then 1 else if b <= d then 2 else 3
  }

  /** At a node that has executed everything below its next number, any chunk is
      admitted and a no-op may be proposed. */
  lemma {:induction false} AdmissionOpens(p: Proc, i: nat, w: nat, chunk: nat)
    requires SenderOk(p, i, w) && 1 <= chunk && p.node.core.next == p.node.prop.nextSeq
    ensures Admits(p.node, chunk, p.cfg.window) && p.node.prop.highest < p.node.core.next + 1536
  {
  }

  /** What a node with nothing on its way does next: its client goes on with its load, a
      waiting chunk is admitted, input is marked done only after the load, and no-ops only
      after that. */
  lemma {:induction false} IdleEnabled(c: System, i: nat, top: nat) returns (st: Step)
    requires Shape(c) && 1 <= i <= 3 && !c.procs[i].phase.Outgoing? && !AllFinished(c)
    requires var p := c.procs[i];
             && (p.phase.Waiting? ==> p.phase.drafts != [] && Admits(p.node, |p.phase.drafts|, p.cfg.window))
             && (p.node.prop.inputDone ==> !p.phase.Waiting? && p.input == [])
             && p.node.prop.highest < p.node.core.next + 1536 && |p.proposed| < Quota(i, top)
    ensures Advances(c, st, top)
  {
    hide Sized, Quota, Admits;
    var p := c.procs[i];
    if p.phase.Armed? {
      st := ProposeNoop(i);
    } else if p.phase.Waiting? {
      st := Assign(i, p.phase.drafts);
    } else if p.input != [] {
      st := if p.input[0].Chunk? then Submit(i) else Reject(i);
    } else {
      st := if p.node.prop.inputDone then ArmNoop(i) else MarkDone(i);
    }
  }

  lemma {:induction false} IdleAdvances(c: System, w: nat, preload: map<string, string>, i: nat, top: nat)
      returns (st: Step)
    requires Shape(c) && 1 <= i <= 3 && !c.procs[i].phase.Outgoing? && !AllFinished(c)
    requires c.procs[i].node.core.next == c.procs[i].node.prop.nextSeq && |c.procs[i].proposed| < Quota(i, top)
    requires Inv(c, w, preload)
    ensures Advances(c, st, top)
  {
    hide Inv, NodeOk, Quota, Advances, Sized, Admits;
    InvParts(c, w, preload, i);
    var p := c.procs[i];
    AdmissionOpens(p, i, w, if p.phase.Waiting? then |p.phase.drafts| else 1);
    hide ConfigOk, PropOk, LoadOk, RequestsIn, RejectsIn, Requests, Accounts;
    st := IdleEnabled(c, i, top);
  }

  lemma {:induction false} NextProposed(c: System, w: nat, preload: map<string, string>, j: nat, i: nat)
    requires Inv(c, w, preload) && 1 <= j <= 3 && 1 <= i <= 3
    ensures var s := c.procs[j].node.core.next;
            1 <= s && 1 <= Owner(s) <= 3 && DeliveredFrom(c, Owner(s), j) == Index(s) && s == Owner(s) + 3 * Index(s)
    ensures c.procs[i].node.prop.nextSeq == i + 3 * |c.procs[i].proposed|
  {
    InvParts(c, w, preload, j);
    hide Senders, Channels, Nodes, LogMatches, ExecutedMatches, Accounts, DeliveredFrom, Frontier, Owner, Index;
    NextNumber(c, w, preload, i);
    var s := c.procs[j].node.core.next;
    FrontierMeaning(Delivered(c, j), s);
    Numbering(s);
  }

  /** While node j has not executed all numbers up to `top` and the cluster is not
      finished, some step that lowers the work up to `top` is enabled. */
  lemma {:induction false} SomeStepAdvances(c: System, w: nat, preload: map<string, string>, j: nat,
      top: nat) returns (st: Step)
    requires Shape(c) && Covers(c, top) && 1 <= j <= 3
    requires c.procs[j].node.core.next <= top && !AllFinished(c)
    requires Inv(c, w, preload)
    ensures Advances(c, st, top)
  {
    hide Inv, Owner, Index, Quota, Advances, DeliveredFrom, Covers;
    var s := c.procs[j].node.core.next;
    NextProposed(c, w, preload, j, j);
    var a := Owner(s);
    NextProposed(c, w, preload, j, a);
    if Index(s) < |c.procs[a].proposed| {
      st := DeliveryAdvances(c, w, preload, a, j, Index(s), top);
    } else {
      st := LeastAdvances(c, w, preload, a, top);
    }
  }

  lemma {:induction false} LeastAdvances(c: System, w: nat, preload: map<string, string>, a: nat, top: nat)
      returns (st: Step)
    requires Shape(c) && Covers(c, top) && 1 <= a <= 3
    requires c.procs[a].node.prop.nextSeq <= top && !AllFinished(c)
    requires Inv(c, w, preload)
    ensures Advances(c, st, top)
  {
    hide Inv, Owner, Index, Quota, Advances, DeliveredFrom, Covers;
    var i := LeastNode(c);
    var p := c.procs[i];
    NextProposed(c, w, preload, i, i);
    QuotaMeaning(i, top, |p.proposed|);
    if p.phase.Outgoing? {
      st := SendStep(p.phase, i);
      OutgoingFacts(c, w, preload, i);
      SendAdvances(c, w, preload, i, top);
    } else {
      BoundedSkew(c, w, preload, i, i);
      var s := p.node.core.next;
      if s < p.node.prop.nextSeq {
        var b := Owner(s);
        NextProposed(c, w, preload, i, b);
        st := DeliveryAdvances(c, w, preload, b, i, Index(s), top);
      } else {
        st := IdleAdvances(c, w, preload, i, top);
      }
    }
  }

  // --------------------------------------------------- runs to completion

  /** The node's client is not served yet: part of its load is not submitted, a chunk
      waits for admission, or a request is pending. */
  predicate Busy(p: Proc) {
    p.input != [] || p.phase.Waiting? || p.node.core.pendingCount > 0
  }

  predicate AllServed(c: System)
    requires Shape(c)
  {
    forall i :: 1 <= i <= 3 ==> !Busy(c.procs[i])
  }

  /** A pending request is one whose number is not executed at its own node. */
  lemma {:induction false} PendingIsAhead(c: System, w: nat, preload: map<string, string>, j: nat, top: nat)
    requires Shape(c) && 1 <= j <= 3 && Covers(c, top) && c.procs[j].node.core.pendingCount > 0
    requires Inv(c, w, preload)
    ensures c.procs[j].node.core.next <= top
  {
    hide Inv;
    InvParts(c, w, preload, j);
    hide NodeOk, Accounts, ConfigOk, PropOk, PhaseOk, Quota, Due;
    var core, h := c.procs[j].node.core, c.procs[j].proposed;
    CountsAreSets(core, h);
    hide SenderOk, Requests, Answered;
    var k :| k in Outstanding(h, core.next);
    HistorySn(c.procs[j], k, j, w);
    QuotaMeaning(j, top, k);
  }

  /** A request without a number will get one that is not executed yet. */
  lemma {:induction false} DueIsAhead(c: System, w: nat, preload: map<string, string>, j: nat, top: nat)
    requires Shape(c) && 1 <= j <= 3 && Covers(c, top) && Due(c.procs[j]) > 0
    requires Inv(c, w, preload)
    ensures c.procs[j].node.core.next <= top
  {
    hide Inv, Quota, Covers;
    CoversProposed(c, j, top);
    NextNumber(c, w, preload, j);
    QuotaMeaning(j, top, |c.procs[j].proposed|);
    BoundedSkew(c, w, preload, j, j);
  }

  lemma {:induction false} BusyFacts(c: System, w: nat, preload: map<string, string>, j: nat)
    requires Shape(c) && 1 <= j <= 3 && Busy(c.procs[j])
    requires Inv(c, w, preload)
    ensures var p := c.procs[j];
            && !AllFinished(c) && (p.phase.Waiting? ==> Due(p) > 0)
            && (p.phase.Armed? ==> p.node.core.pendingCount > 0)
            && (p.input != [] && p.input[0].Chunk? ==> Due(p) > 0)
  {
    hide Inv;
    InvParts(c, w, preload, j);
    hide NodeOk, Accounts, ConfigOk, PropOk, RejectsIn, Requests;
    assert j == 1 || j == 2 || j == 3;
  }

  /** Only invalid requests are left of node j's load, and none is pending. */
  lemma {:induction false} RejectAdvances(c: System, w: nat, preload: map<string, string>, j: nat, top: nat)
      returns (st: Step)
    requires Shape(c) && Covers(c, top) && 1 <= j <= 3 && c.procs[j].input != []
    requires c.procs[j].input[0].Invalid? && !c.procs[j].phase.Waiting? && !c.procs[j].phase.Armed?
    requires Inv(c, w, preload)
    ensures Advances(c, st, top)
  {
    hide Inv, Quota, Due, Sized;
    if c.procs[j].phase.Outgoing? {
      hide Advances;
      st := SendStep(c.procs[j].phase, j);
      OutgoingFacts(c, w, preload, j);
      SendAdvances(c, w, preload, j, top);
    } else {
      st := Reject(j);
    }
  }

  /** While any client is not served, some step that lowers the work is enabled. */
  lemma {:induction false} BusyAdvances(c: System, w: nat, preload: map<string, string>, j: nat, top: nat)
      returns (st: Step)
    requires Shape(c) && Covers(c, top) && 1 <= j <= 3 && Busy(c.procs[j])
    requires Inv(c, w, preload)
    ensures Advances(c, st, top)
  {
    hide Inv, Covers, Advances, Due, AllFinished;
    BusyFacts(c, w, preload, j);
    var p := c.procs[j];
    if p.node.core.pendingCount > 0 {
      PendingIsAhead(c, w, preload, j, top);
      st := SomeStepAdvances(c, w, preload, j, top);
    } else if Due(p) > 0 {
      DueIsAhead(c, w, preload, j, top);
      st := SomeStepAdvances(c, w, preload, j, top);
    } else {
      st := RejectAdvances(c, w, preload, j, top);
    }
  }

  /** Proposals and requests without a number, together, grow by a no-op only. */
  lemma {:induction false} DueKept(c: System, st: Step, a: nat)
    requires Shape(c) && Enabled(c, st) && Shape(Next(c, st)) && 1 <= a <= 3
    ensures var q, p := c.procs[a], Next(c, st).procs[a];
            |p.proposed| + Due(p) <= |q.proposed| + Due(q) + if st == ProposeNoop(a) then 1 else 0
  {
    hide Sized, Stamped, AssignAll, AssignNoop, HandleChunk, Advance, RecordAll, Admits;
  }

  lemma {:induction false} NoopDue(c: System, w: nat, preload: map<string, string>, i: nat)
    requires Shape(c) && 1 <= i <= 3 && c.procs[i].phase.Armed?
    requires Inv(c, w, preload)
    ensures Due(c.procs[i]) == 0
  {
    hide Inv;
    InvParts(c, w, preload, i);
    hide NodeOk, Accounts, ConfigOk, PropOk, RejectsIn, Requests;
  }

  lemma {:induction false} CoversKept(c: System, st: Step, w: nat, preload: map<string, string>, top: nat)
    requires Shape(c) && Covers(c, top) && Advances(c, st, top) && Shape(Next(c, st))
    requires Inv(c, w, preload)
    ensures Covers(Next(c, st), top)
  {
    hide Inv, Quota, Due, Next, Sized;
    forall a | 1 <= a <= 3 ensures |Next(c, st).procs[a].proposed| + Due(Next(c, st).procs[a]) <= Quota(a, top) {
      DueKept(c, st, a);
      if st == ProposeNoop(a) {
        NoopDue(c, w, preload, a);
      }
    }
  }

  /** From every reachable state the cluster can serve all clients, requests not submitted
      yet included, in at most `Work` steps. */
  lemma {:induction false} CanComplete(c: System, w: nat, preload: map<string, string>, top: nat)
    returns (run: seq<System>, steps: seq<Step>)
    requires Shape(c) && Covers(c, top)
    requires Inv(c, w, preload)
    ensures IsRun(run, steps) && run[0] == c && |steps| <= Work(c, top)
    ensures AllServed(run[|steps|]) && Inv(run[|steps|], w, preload)
    decreases Work(c, top)
  {
    hide Inv, Work, Enabled, Next, Covers, Sized, Useful, Busy;
    if AllServed(c) {
      run, steps := [c], [];
    } else {
      var j :| 1 <= j <= 3 && Busy(c.procs[j]);
      var st := BusyAdvances(c, w, preload, j, top);
      StepLowers(c, st, w, preload, top);
      StepKeeps(c, st, w, preload);
      CoversKept(c, st, w, preload, top);
      var run', steps' := CanComplete(Next(c, st), w, preload, top);
      run, steps := [c] + run', [st] + steps';
      assert run[|steps|] == run'[|steps'|];
      RunCons(c, st, run', steps');
    }
  }

  // ----------------------------------------------------- every step helps

  /** A number beyond all that are proposed or due. */
  function HighestNumber(c: System): nat
    requires Shape(c)
  {
    c.procs[1].node.prop.nextSeq + 3 * Due(c.procs[1]) + c.procs[2].node.prop.nextSeq + 3 * Due(c.procs[2])
    + c.procs[3].node.prop.nextSeq + 3 * Due(c.procs[3])
  }

  lemma {:induction false} HighestCovers(c: System, w: nat, preload: map<string, string>)
    requires Shape(c)
    requires Inv(c, w, preload)
    ensures Covers(c, HighestNumber(c)) && forall i :: 1 <= i <= 3 ==>
            |c.procs[i].proposed| < Quota(i, HighestNumber(c))
  {
    hide Inv, Quota, Due;
    var top := HighestNumber(c);
    forall i | 1 <= i <= 3
      ensures |c.procs[i].proposed| + Due(c.procs[i]) <= Quota(i, top) && |c.procs[i].proposed| < Quota(i, top)
    {
      NextNumber(c, w, preload, i);
      QuotaMeaning(i, top, |c.procs[i].proposed|);
      QuotaMeaning(i, top, |c.procs[i].proposed| + Due(c.procs[i]));
    }
  }

  /** With respect to that number no enabled step is wasted. */
  lemma {:induction false} AllUseful(c: System, w: nat, preload: map<string, string>, st: Step, top: nat)
    requires Shape(c) && Inv(c, w, preload) && Enabled(c, st) && 1 <= st.i <= 3
    requires forall i :: 1 <= i <= 3 ==> |c.procs[i].proposed| < Quota(i, top)
    ensures Useful(c, st, top)
  {
    hide Inv, Quota, Sized, DeliveredFrom, Admits;
    match st {
      case Drain(i, src, _) => RingBehind(c, w, preload, src, i, top);
      case Handle(i, src) => HandBehind(c, w, preload, src, i, top);
      case _ =>
    }
  }

  lemma {:induction false} RunCons(c: System, st: Step, run: seq<System>, steps: seq<Step>)
    requires Shape(c) && Enabled(c, st) && IsRun(run, steps) && run[0] == Next(c, st)
    ensures IsRun([c] + run, [st] + steps)
  {
    hide Shape, Enabled, Next;
    var r, s := [c] + run, [st] + steps;
    forall k | 0 <= k < |r| ensures Shape(r[k]) {
      assert k > 0 ==> r[k] == run[k - 1];
    }
    forall k | 0 <= k < |s| ensures Enabled(r[k], s[k]) && r[k + 1] == Next(r[k], s[k]) {
      if k > 0 {
        assert r[k] == run[k - 1] && s[k] == steps[k - 1] && r[k + 1] == run[k - 1 + 1];
      }
    }
  }
}
