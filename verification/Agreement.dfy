/** What the protocol is for: agreement, order, no lost or overwritten entry, rings
    with room, conservation of requests. All statements are about every run. */
module Agreement {
  import opened Types
  import opened NodeSpec
  import opened LogView
  import opened Replication
  import opened Accounting
  import opened Cluster
  import opened Invariant
  import opened Safety
  import opened Batching

  /** The nodes' configurations, a bound on their windows, and the common preload. */
  datatype Setup = Setup(cfgs: seq<Config>, w: nat, preload: map<string, string>)

  /** A run of a cluster whose configuration keeps every window within the bound. */
  ghost predicate Execution(run: seq<System>, steps: seq<Step>, g: Setup) {
    && IsRun(run, steps) && |g.cfgs| == 4 && (forall i :: 1 <= i <= 3 ==> ConfigOk(g.cfgs[i], g.w))
    && run[0] == Initial(g.cfgs, g.preload)
  }

  lemma {:induction false} ReachableInv(run: seq<System>, steps: seq<Step>, g: Setup, t: nat)
    requires Execution(run, steps, g) && t < |run|
    ensures Inv(run[t], g.w, g.preload) && Shape(run[t])
  {
    hide Inv, Shape, Initial, Next, Enabled;
    RunKeeps(run, steps, g.cfgs, g.w, g.preload, t);
    InvShape(run[t], g.w, g.preload);
  }

  // --------------------------------------------------- histories only grow

  ghost predicate Grows(c: System, c': System)
    requires |c.procs| == 4 && |c'.procs| == 4
  {
    forall j :: 1 <= j <= 3 ==>
                  && c.procs[j].proposed <= c'.procs[j].proposed
                  && c.procs[j].node.core.executed <= c'.procs[j].node.core.executed
  }

  lemma {:induction false} AssignKeepsExecuted(n: Node, ds: seq<Draft>)
    requires Sized(n)
    ensures AssignAll(n, ds).core.executed == n.core.executed
  {
    if ds != [] {
      AssignKeepsExecuted(n, ds[..|ds| - 1]);
    }
  }

  lemma {:induction false} GrowsOne(c: System, i: nat, p: Proc)
    requires Shape(c) && 1 <= i <= 3 && c.procs[i].proposed <= p.proposed
    requires c.procs[i].node.core.executed <= p.node.core.executed
    ensures Grows(c, SetProc(c, i, p))
  {
  }

  lemma {:induction false} QuietGrows(c: System, st: Step)
    requires Shape(c) && Enabled(c, st) && !st.Assign? && !st.SelfDeliver? && !st.Handle?
    ensures |Next(c, st).procs| == 4 && Grows(c, Next(c, st))
  {
    hide Assigned, SelfDelivered, Handled, Sized;
    assert forall j :: 1 <= j <= 3 && j != st.i ==> Next(c, st).procs[j] == c.procs[j];
    assert c.procs[st.i].proposed <= Next(c, st).procs[st.i].proposed;
    hide Next, Enabled;
  }

  lemma {:induction false} AssignGrows(c: System, i: nat, ds: seq<Draft>)
    requires Shape(c) && Enabled(c, Assign(i, ds))
    ensures |Next(c, Assign(i, ds)).procs| == 4 && Grows(c, Next(c, Assign(i, ds)))
  {
    hide Stamped, AssignAll, Grows;
    AssignKeepsExecuted(c.procs[i].node, ds);
    GrowsOne(c, i, Assigned(c.procs[i], ds));
  }

  lemma {:induction false} SelfDeliverGrows(c: System, i: nat, w: nat, preload: map<string, string>)
    requires Shape(c) && Enabled(c, SelfDeliver(i))
    requires Inv(c, w, preload)
    ensures |Next(c, SelfDeliver(i)).procs| == 4 && Grows(c, Next(c, SelfDeliver(i)))
  {
    hide Inv, SelfDelivered, Grows, Moved;
    EnabledSelfDeliver(c, i);
    var p := SelfDelivered(c.procs[i]);
    assert Next(c, SelfDeliver(i)) == SetProc(c, i, p);
    hide Next, Shape, Enabled;
    SelfDeliverKeeps(c, i, w, preload);
    MovedProposed(c.procs[i], p);
    GrowsOne(c, i, p);
  }

  lemma {:induction false} HandleGrows(c: System, i: nat, src: nat, w: nat, preload: map<string, string>)
    requires Shape(c) && Enabled(c, Handle(i, src))
    requires Inv(c, w, preload)
    ensures |Next(c, Handle(i, src)).procs| == 4 && Grows(c, Next(c, Handle(i, src)))
  {
    hide Inv, Handled, Grows, Moved;
    EnabledHandle(c, i, src);
    var p := Handled(c.procs[i], src);
    assert Next(c, Handle(i, src)) == SetProc(c, i, p);
    hide Next, Shape, Enabled;
    HandleKeeps(c, i, src, w, preload);
    MovedProposed(c.procs[i], p);
    GrowsOne(c, i, p);
  }

  lemma {:induction false} StepGrows(c: System, st: Step, w: nat, preload: map<string, string>)
    requires Shape(c) && Inv(c, w, preload) && Enabled(c, st)
    ensures Shape(Next(c, st)) && Grows(c, Next(c, st))
  {
    hide Inv, Enabled, Next, Shape, Grows;
    StepKeeps(c, st, w, preload);
    InvShape(Next(c, st), w, preload);
    match st {
      case Assign(i, ds) => AssignGrows(c, i, ds);
      case SelfDeliver(i) => SelfDeliverGrows(c, i, w, preload);
      case Handle(i, src) => HandleGrows(c, i, src, w, preload);
      case _ => QuietGrows(c, st);
    }
  }

  lemma {:induction false} MovedProposed(q: Proc, p: Proc)
    requires Moved(q, p)
    ensures q.proposed <= p.proposed
  {
  }

  lemma {:induction false} RunGrows(run: seq<System>, steps: seq<Step>, g: Setup, t: nat, u: nat)
    requires Execution(run, steps, g) && t <= u < |run|
    ensures Shape(run[t]) && Shape(run[u]) && Grows(run[t], run[u])
    decreases u - t
  {
    hide Inv, Enabled, Next, Initial, ConfigOk;
    ReachableInv(run, steps, g, t);
    if t < u {
      RunGrows(run, steps, g, t, u - 1);
      ReachableInv(run, steps, g, u - 1);
      assert Enabled(run[u - 1], steps[u - 1]) && run[u - 1 + 1] == Next(run[u - 1], steps[u - 1]);
      StepGrows(run[u - 1], steps[u - 1], g.w, g.preload);
    }
  }

  // ------------------------------------------------------------ agreement

  /** The executed history of a node is fixed by the proposal histories. */
  lemma {:induction false} ExecutedIs(c: System, w: nat, preload: map<string, string>, j: nat, s: nat)
    requires Inv(c, w, preload) && 1 <= j <= 3 && 1 <= s < c.procs[j].node.core.next
    ensures |c.procs[j].node.core.executed| == c.procs[j].node.core.next - 1
    ensures 1 <= Owner(s) <= 3 && Index(s) < |c.procs[Owner(s)].proposed|
    ensures c.procs[j].node.core.executed[s - 1] == CommandOf(SlotOf(c.procs[Owner(s)].proposed[Index(s)]))
  {
    hide SlotOf, CommandOf, LogRepresents, Accounts, SenderOk, ConfigOk;
    InvParts(c, w, preload, j);
    Numbering(s);
    assert Proposed(Histories(c), s);
    assert ProposalOf(Histories(c), s) == Histories(c)[Owner(s)][Index(s)];
  }

  lemma {:induction false} SameCommand(c: System, c': System, w: nat, preload: map<string, string>, i: nat, j: nat,
      k: nat)
    requires Inv(c, w, preload) && Inv(c', w, preload) && Grows(c, c') && 1 <= i <= 3 && 1 <= j <= 3
    requires k + 1 < c.procs[i].node.core.next && k + 1 < c'.procs[j].node.core.next
    ensures |c.procs[i].node.core.executed| > k && |c'.procs[j].node.core.executed| > k
    ensures c.procs[i].node.core.executed[k] == c'.procs[j].node.core.executed[k]
  {
    InvShape(c, w, preload);
    InvShape(c', w, preload);
    hide Inv, Grows, Owner, Index, SlotOf, CommandOf;
    var s: nat := k + 1;
    ExecutedIs(c, w, preload, i, s);
    ExecutedIs(c', w, preload, j, s);
    GrowsAt(c, c', Owner(s), Index(s));
  }

  lemma {:induction false} Agree(c: System, c': System, w: nat, preload: map<string, string>, i: nat, j: nat)
    requires Shape(c) && Shape(c') && 1 <= i <= 3 && 1 <= j <= 3 && Grows(c, c') && Inv(c, w, preload) &&
             Inv(c', w, preload)
    ensures var a, b := c.procs[i].node.core, c'.procs[j].node.core;
            && (a.executed <= b.executed || b.executed <= a.executed)
            && (a.next == b.next ==> a.executed == b.executed && a.store == b.store)
  {
    hide Inv, Grows;
    var a, b := c.procs[i].node.core, c'.procs[j].node.core;
    ExecutedLength(c, w, preload, i);
    ExecutedLength(c', w, preload, j);
    forall k | 0 <= k < |a.executed| && k < |b.executed| ensures a.executed[k] == b.executed[k] {
      SameCommand(c, c', w, preload, i, j, k);
    }
  }

  /** Executed histories of any two nodes at any two moments of a run are prefixes of
      one another; as many executed commands means the same store. */
  lemma {:induction false} ReplicaAgreement(run: seq<System>, steps: seq<Step>, g: Setup,
                         t: nat, u: nat, i: nat, j: nat)
    requires Execution(run, steps, g) && t <= u < |run| && 1 <= i <= 3 && 1 <= j <= 3
    ensures Shape(run[t]) && Shape(run[u])
    ensures var a, b := run[t].procs[i].node.core, run[u].procs[j].node.core;
            && (a.executed <= b.executed || b.executed <= a.executed)
            && (a.next == b.next ==> a.executed == b.executed && a.store == b.store)
  {
    hide Inv, Initial, Next, Enabled, ConfigOk, Grows;
    ReachableInv(run, steps, g, t);
    ReachableInv(run, steps, g, u);
    RunGrows(run, steps, g, t, u);
    Agree(run[t], run[u], g.w, g.preload, i, j);
  }

  lemma {:induction false} GrowsAt(c: System, c': System, i: nat, k: nat)
    requires |c.procs| == 4 && |c'.procs| == 4 && Grows(c, c') && 1 <= i <= 3 && k < |c.procs[i].proposed|
    ensures k < |c'.procs[i].proposed| && c'.procs[i].proposed[k] == c.procs[i].proposed[k]
  {
  }

  lemma {:induction false} ExecutedLength(c: System, w: nat, preload: map<string, string>, j: nat)
    requires Inv(c, w, preload) && 1 <= j <= 3
    ensures var k := c.procs[j].node.core; |k.executed| == k.next - 1 && k.store == ApplyAll(preload, k.executed)
  {
    hide LogRepresents, Accounts, SenderOk, ConfigOk;
    InvParts(c, w, preload, j);
  }

  // --------------------------------------------- frontier, slots, rings

  /** Outside the critical sections the execution point is exactly the first number
      with an undelivered proposal, and the commands executed are numbered 1, 2, 3, ...:
      each once, none skipped. */
  lemma {:induction false} ExactFrontier(c: System, w: nat, preload: map<string, string>, j: nat)
    requires Shape(c) && 1 <= j <= 3 && Inv(c, w, preload)
    ensures c.procs[j].node.core.next == Frontier(Delivered(c, j))
    ensures |c.procs[j].node.core.executed| == c.procs[j].node.core.next - 1
    ensures forall k :: 0 <= k < |c.procs[j].node.core.executed| ==> c.procs[j].node.core.executed[k].sn == k + 1
  {
    hide Inv, Frontier, Delivered, Sized;
    NodeFrontier(c, w, preload, j);
    ExecutedLength(c, w, preload, j);
    forall k | 0 <= k < |c.procs[j].node.core.executed| ensures c.procs[j].node.core.executed[k].sn == k + 1 {
      ExecutedNumber(c, w, preload, j, k + 1);
    }
  }

  lemma {:induction false} NodeFrontier(c: System, w: nat, preload: map<string, string>, j: nat)
    requires Shape(c) && 1 <= j <= 3 && Inv(c, w, preload)
    ensures c.procs[j].node.core.next == Frontier(Delivered(c, j))
  {
    hide Inv, Frontier, Delivered, Represents, Accounts, SenderOk;
    InvParts(c, w, preload, j);
  }

  lemma {:induction false} ExecutedNumber(c: System, w: nat, preload: map<string, string>, j: nat, s: nat)
    requires Shape(c) && 1 <= j <= 3 && 1 <= s < c.procs[j].node.core.next && Inv(c, w, preload)
    ensures s <= |c.procs[j].node.core.executed| && c.procs[j].node.core.executed[s - 1].sn == s
  {
    hide Inv, SlotOf, CommandOf, NodeOk, SenderOk, Accounts;
    ExecutedIs(c, w, preload, j, s);
    Numbering(s);
    InvParts(c, w, preload, Owner(s));
    ExecutedSn(c.procs[Owner(s)], Owner(s), Index(s), w);
  }

  lemma {:induction false} ExecutedSn(p: Proc, i: nat, k: nat, w: nat)
    requires SenderOk(p, i, w) && Accounts(p.node.core, p.proposed) && k < |p.proposed|
    ensures CommandOf(SlotOf(p.proposed[k])).sn == i + 3 * k
  {
    hide IdsOk, PendingOk, CountersOk;
    CommandOfProposal(p.proposed[k]);
    hide CommandOf, SlotOf;
  }

  /** In every reachable state, the slot an undelivered proposal will be recorded in
      is blank at every node. */
  lemma {:induction false} NoSlotOverwrite(c: System, w: nat, preload: map<string, string>, i: nat, j: nat, k: nat)
    requires Inv(c, w, preload) && 1 <= i <= 3 && 1 <= j <= 3
    requires Delivered(c, j)[i] <= k < |c.procs[i].proposed|
    ensures c.procs[j].node.log[c.procs[i].proposed[k].sn % 65536] == BlankEntry(0)
  {
    hide SenderOk, ConfigOk, LogMatches, Accounts, HistoryOk, Frontier, DeliveredFrom;
    InvParts(c, w, preload, j);
    assert i + 3 * k < c.procs[j].node.core.next + 65536 by {
      ProposedInWindow(c, w, preload, i, j, k);
      InvParts(c, w, preload, i);
      HistorySn(c.procs[i], k, i, w);
    }
    SlotIsBlank(c.procs[j].node, Histories(c), Delivered(c, j), i, k);
  }

  lemma {:induction false} NodeHealthy(n: Node, hist: seq<seq<Message>>, del: seq<nat>, preload: map<string, string>)
    requires NodeOk(n, hist, del, preload)
    ensures Healthy(n, n.core.next) && !Ready(n)
  {
    ReadyMeansDelivered(n, hist, del);
    hide Accounts, ExecutedMatches, Frontier, Ready;
    forall x | 0 <= x < 65536 ensures EntryOk(n.log[x]) && n.log[x].sn < n.core.next + 65536 {
      if n.log[x] != BlankEntry(0) {
        var s := n.log[x].sn;
        assert EntryMatches(n, hist, del, s);
        EntryIsProposal(n, hist, del, s);
      }
    }
  }

  lemma {:induction false} EntryIsProposal(n: Node, hist: seq<seq<Message>>, del: seq<nat>, s: nat)
    requires Sized(n) && Counts(hist, del) && 1 <= s && EntryMatches(n, hist, del, s) && n.log[s % 65536].sn == s
    ensures EntryOk(n.log[s % 65536])
  {
    Numbering(s);
    assert n.log[s % 65536] == SlotOf(ProposalOf(hist, s)).e;
  }

  lemma {:induction false} HandFresh(c: System, w: nat, preload: map<string, string>, i: nat, j: nat)
    requires Inv(c, w, preload) && 1 <= i <= 3 && 1 <= j <= 3 && i != j
    ensures Shape(c) && InWindow(c.procs[j].inHand[i], c.procs[j].node.core.next) &&
            Fresh(c.procs[j].node, c.procs[j].inHand[i])
  {
    hide Senders, Nodes, Channels, DeliveredFrom, Sendable;
    var n, hand, d := c.procs[j].node, c.procs[j].inHand[i], DeliveredFrom(c, i, j);
    HandPrefix(c, j, i, |hand|);
    HandPrefixWhole(hand, c.procs[i].proposed, d);
    forall k | 0 <= k < |hand|
      ensures n.core.next <= hand[k].sn < n.core.next + 65536 && Sendable(hand[k])
      ensures hand[k].kind == PROPOSAL && Unrecorded(n, hand[k].sn) && hand[k].sn == i + 3 * (d + k)
    {
      HandedMessage(c, w, preload, i, j, d + k);
    }
  }

  lemma {:induction false} HandPrefixWhole(hand: seq<Message>, h: seq<Message>, d: nat)
    requires d + |hand| <= |h| && hand[..|hand|] == h[d..d + |hand|]
    ensures forall k :: 0 <= k < |hand| ==> hand[k] == h[d + k]
  {
    assert hand[..|hand|] == hand;
  }

  /** The messages a node holds are handled the same way in chunks and one by one,
      down to the last slot of its log. */
  lemma {:induction false} HandedBatchExact(c: System, w: nat, preload: map<string, string>, i: nat, j: nat)
    requires Inv(c, w, preload) && 1 <= i <= 3 && 1 <= j <= 3 && i != j
    ensures Sized(c.procs[j].node)
    ensures HandleBatch(c.procs[j].node, c.procs[j].inHand[i]) == HandleEach(c.procs[j].node, c.procs[j].inHand[i])
  {
    hide Senders, Nodes, Channels, NodeOk, SenderOk, Accounts, LogOk, Bounded, Ready, HandleBatch, HandleEach, Fresh,
         InWindow;
    InvParts(c, w, preload, j);
    NodeHealthy(c.procs[j].node, Histories(c), Delivered(c, j), preload);
    HandFresh(c, w, preload, i, j);
    BatchingExact(c.procs[j].node, c.procs[j].inHand[i], c.procs[j].node.core.next);
  }

  lemma {:induction false} HandedMessage(c: System, w: nat, preload: map<string, string>, i: nat, j: nat, k: nat)
    requires Shape(c) && 1 <= i <= 3 && 1 <= j <= 3 && DeliveredFrom(c, i, j) <= k < |c.procs[i].proposed|
    requires Inv(c, w, preload)
    ensures var m, n := c.procs[i].proposed[k], c.procs[j].node;
            && n.core.next <= m.sn < n.core.next + 65536 && Sendable(m) && m.kind == PROPOSAL
            && Unrecorded(n, m.sn) && m.sn == i + 3 * k
  {
    hide Inv, DeliveredFrom;
    UnreadInWindow(c, w, preload, i, j, k);
    NoSlotOverwrite(c, w, preload, i, j, k);
    ProposedInWindow(c, w, preload, i, j, k);
    ProposedSendable(c, w, preload, i, k);
    hide Sendable;
  }

  lemma {:induction false} ProposedSendable(c: System, w: nat, preload: map<string, string>, i: nat, k: nat)
    requires Shape(c) && 1 <= i <= 3 && k < |c.procs[i].proposed|
    requires Inv(c, w, preload)
    ensures Sendable(c.procs[i].proposed[k]) && c.procs[i].proposed[k].kind == PROPOSAL
  {
    hide Inv;
    InvParts(c, w, preload, i);
    hide NodeOk, ConfigOk, PropOk, PhaseOk, IdsOk, PendingOk, CountersOk;
  }

  /** Undelivered proposals of one node at another are fewer than a third of the window. */
  lemma {:induction false} UndeliveredBound(c: System, w: nat, preload: map<string, string>, i: nat, j: nat)
    requires Inv(c, w, preload) && 1 <= i <= 3 && 1 <= j <= 3
    ensures |c.procs[i].proposed| - Delivered(c, j)[i] <= 21846
  {
    InvParts(c, w, preload, j);
    InvParts(c, w, preload, i);
    hide Represents, Accounts, DeliveredFrom;
    FrontierBelow(Delivered(c, j), i);
    BoundedSkew(c, w, preload, i, i);
    BoundedSkew(c, w, preload, i, j);
  }

  lemma {:induction false} TailBounds(c: System, i: nat, j: nat)
    requires Shape(c) && Channels(c) && 1 <= i <= 3 && 1 <= j <= 3 && i != j
    ensures var r := c.rings[i][j];
            DeliveredFrom(c, i, j) <= r.tail <= |r.sent| <= |c.procs[i].proposed| && r.sent <= c.procs[i].proposed
  {
    assert ChannelOk(c.procs[i], c.rings[i][j], c.procs[j].inHand[i], i, j);
    hide Published, Channels;
  }

  lemma {:induction false} UnreadInWindow(c: System, w: nat, preload: map<string, string>, i: nat, j: nat, k: nat)
    requires Inv(c, w, preload) && 1 <= i <= 3 && 1 <= j <= 3 && DeliveredFrom(c, i, j) <= k < |c.procs[i].proposed|
    ensures c.procs[i].proposed[k].sn == i + 3 * k
    ensures c.procs[j].node.core.next <= i + 3 * k < c.procs[j].node.core.next + 2 * w + 2
  {
    hide Senders, Channels, Nodes, Represents, Accounts, Frontier, ConfigOk, PropOk, PhaseOk, DeliveredFrom;
    ProposedInWindow(c, w, preload, i, j, k);
    assert c.procs[i].proposed[k].sn == i + 3 * k by {
      InvParts(c, w, preload, i);
      HistorySn(c.procs[i], k, i, w);
    }
    assert c.procs[j].node.core.next <= i + 3 * DeliveredFrom(c, i, j) by {
      InvParts(c, w, preload, j);
      FrontierBelow(Delivered(c, j), i);
    }
  }

  /** Unread messages of ring i -> j: proposals of i numbered inside j's window, at most
      21846 of them even counting a batch not yet published, so the ring is never full. */
  lemma {:induction false} RingsNeverFill(c: System, w: nat, preload: map<string, string>, i: nat, j: nat)
    requires Inv(c, w, preload) && 1 <= i <= 3 && 1 <= j <= 3 && i != j
    ensures var r := c.rings[i][j];
            && 0 <= r.tail <= |r.sent| <= |c.procs[i].proposed| && |c.procs[i].proposed| - r.tail <= 21846
            && (forall k :: r.tail <= k < |r.sent| ==>
                              && r.sent[k].sn == i + 3 * k
                              && c.procs[j].node.core.next <= r.sent[k].sn < c.procs[j].node.core.next + 2 * w + 2)
  {
    hide Senders, Channels, Nodes, DeliveredFrom;
    var r := c.rings[i][j];
    TailBounds(c, i, j);
    UndeliveredBound(c, w, preload, i, j);
    forall k | r.tail <= k < |r.sent|
      ensures r.sent[k].sn == i + 3 * k
      ensures c.procs[j].node.core.next <= r.sent[k].sn < c.procs[j].node.core.next + 2 * w + 2
    {
      UnreadInWindow(c, w, preload, i, j, k);
    }
  }

  lemma {:induction false} RoomInRing(p: Proc, r: Ring, hand: seq<Message>, i: nat, j: nat)
    requires ChannelOk(p, r, hand, i, j) && p.phase.Outgoing? && p.phase.sent <= PeerRank(i, j)
    requires IsNewest(p.phase.batch, p.proposed) && |p.proposed| - r.tail <= 21846
    ensures HasSpace(r, |p.phase.batch|)
  {
  }

  lemma {:induction false} RoomFor(c: System, w: nat, preload: map<string, string>, i: nat, j: nat)
    requires Inv(c, w, preload) && 1 <= i <= 3 && 1 <= j <= 3 && i != j
    requires c.procs[i].phase.Outgoing? && c.procs[i].phase.sent <= PeerRank(i, j)
    ensures HasSpace(c.rings[i][j], |c.procs[i].phase.batch|)
  {
    hide Nodes, Represents, Accounts, LinkOk, IsNewest, ConfigOk, PropOk, HasSpace;
    assert ChannelOk(c.procs[i], c.rings[i][j], c.procs[j].inHand[i], i, j);
    assert SenderOk(c.procs[i], i, w);
    RingsNeverFill(c, w, preload, i, j);
    RoomInRing(c.procs[i], c.rings[i][j], c.procs[j].inHand[i], i, j);
  }

  /** The step by which a sender with a batch in hand goes on. */
  function SendStep(ph: Phase, i: nat): Step
    requires ph.Outgoing?
  {
    if !ph.reserved then Reserve(i) else if ph.sent < 2 then Publish(i) else SelfDeliver(i)
  }

  /** A sender never waits for ring space: whenever it has a batch to send, its next
      sending step is enabled. */
  lemma {:induction false} SendingNeverWaits(c: System, w: nat, preload: map<string, string>, i: nat)
    requires Inv(c, w, preload) && 1 <= i <= 3 && c.procs[i].phase.Outgoing?
    ensures Shape(c) && Enabled(c, SendStep(c.procs[i].phase, i))
  {
    hide Nodes, Channels, Senders, HasSpace;
    var ph := c.procs[i].phase;
    assert ph.sent <= 2 && (!ph.reserved ==> ph.sent == 0) by {
      InvParts(c, w, preload, i);
    }
    if !ph.reserved {
      RoomFor(c, w, preload, i, Peer(i, 0));
      RoomFor(c, w, preload, i, Peer(i, 1));
    } else if ph.sent < 2 {
      RoomFor(c, w, preload, i, Peer(i, ph.sent));
    }
  }

  // ------------------------------------------------------------ real-time order

  /** If node i had executed a request before node j gave another one its number, then
      the first one has the smaller number, and every replica that executes the second
      one has executed the first one at an earlier place. */
  lemma {:induction false} RealTimeOrder(run: seq<System>, steps: seq<Step>, g: Setup,
                      t: nat, u: nat, v: nat, i: nat, j: nat, r: nat, a: nat, b: nat)
    requires Execution(run, steps, g) && t <= u < |run| && v < |run| && 1 <= i <= 3 && 1 <= j <= 3 && 1 <= r <= 3
    requires Shape(run[t]) && Shape(run[u]) && Shape(run[v])
    // command a is executed at i at time t; number b is assigned at j between t and u
    requires a < |run[t].procs[i].node.core.executed|
    requires |run[t].procs[j].proposed| <= b < |run[u].procs[j].proposed|
    ensures var x, y, e := run[t].procs[i].node.core.executed[a], run[u].procs[j].proposed[b],
            run[v].procs[r].node.core.executed;
            && x.sn < y.sn
            && (forall q :: 0 <= q < |e| && e[q].sn == y.sn ==> a < q && e[a] == x)
  {
    hide Inv, Initial, Next, Enabled, ConfigOk, Frontier, Delivered;
    ReachableInv(run, steps, g, t);
    ReachableInv(run, steps, g, u);
    ReachableInv(run, steps, g, v);
    ExactFrontier(run[t], g.w, g.preload, i);
    ExactFrontier(run[v], g.w, g.preload, r);
    BoundedSkew(run[t], g.w, g.preload, i, j);
    NumbersAhead(run[t], run[u], g.w, g.preload, j, b);
    var e := run[v].procs[r].node.core.executed;
    forall q | 0 <= q < |e| && e[q].sn == run[u].procs[j].proposed[b].sn
      ensures a < q && e[a] == run[t].procs[i].node.core.executed[a]
    {
      if t <= v {
        ReplicaAgreement(run, steps, g, t, v, i, r);
      } else {
        ReplicaAgreement(run, steps, g, v, t, r, i);
      }
    }
  }

  lemma {:induction false} NumbersAhead(c: System, c': System, w: nat, preload: map<string, string>, j: nat, b: nat)
    requires Inv(c, w, preload) && Inv(c', w, preload) && 1 <= j <= 3 &&
             |c.procs[j].proposed| <= b < |c'.procs[j].proposed|
    ensures c.procs[j].node.prop.nextSeq <= c'.procs[j].proposed[b].sn
  {
    InvParts(c, w, preload, j);
    InvParts(c', w, preload, j);
    hide Inv, NodeOk, Accounts, ConfigOk, PhaseOk;
    HistorySn(c'.procs[j], b, j, w);
  }

  // ------------------------------------------------------------ conservation

  /** The node's own client requests not executed here yet. */
  ghost function Outstanding(h: seq<Message>, next: nat): set<nat> {
    set k: nat | k < |h| && h[k].reqId != 0 && next <= h[k].sn
  }

  ghost function Answered(h: seq<Message>, next: nat): set<nat> {
    set k: nat | k < |h| && h[k].reqId != 0 && h[k].sn < next
  }

  ghost function RequestSet(h: seq<Message>, a: nat, b: nat): set<nat> {
    set k: nat | a <= k < b && k < |h| && h[k].reqId != 0
  }

  lemma {:induction false} RequestSetSize(h: seq<Message>, a: nat, b: nat)
    requires a <= b <= |h|
    ensures |RequestSet(h, a, b)| == Requests(h[..b]) - Requests(h[..a])
    decreases b - a
  {
    if a == b {
      assert RequestSet(h, a, b) == {};
    } else {
      RequestSetSize(h, a, b - 1);
      RequestsStep(h, b - 1);
      RequestSetStep(h, a, b - 1);
      hide RequestSet, Requests;
    }
  }

  lemma {:induction false} RequestSetGrows(h: seq<Message>, a: nat, b: nat)
    requires a <= b < |h|
    ensures b !in RequestSet(h, a, b)
    ensures RequestSet(h, a, b + 1) == RequestSet(h, a, b) + if h[b].reqId != 0 then {b} else {}
  {
  }

  lemma {:induction false} RequestSetStep(h: seq<Message>, a: nat, b: nat)
    requires a <= b < |h|
    ensures |RequestSet(h, a, b + 1)| == |RequestSet(h, a, b)| + if h[b].reqId != 0 then 1 else 0
  {
    RequestSetGrows(h, a, b);
    hide RequestSet;
  }

  lemma {:induction false} RequestSplit(h: seq<Message>, id: nat, next: nat)
    requires 1 <= id <= 3 && 1 <= next && HistoryOk(h, id) && OwnBelow(id, next) <= |h|
    ensures Outstanding(h, next) == RequestSet(h, OwnBelow(id, next), |h|)
    ensures Answered(h, next) == RequestSet(h, 0, OwnBelow(id, next))
  {
    forall k: nat | k < |h| ensures h[k].sn < next <==> k < OwnBelow(id, next) {
      OwnBelowMeaning(id, next, k);
    }
  }

  lemma {:induction false} CountsAreSets(k: Core, h: seq<Message>)
    requires Accounts(k, h)
    ensures k.pendingCount == |Outstanding(h, k.next)| && k.ok == |Answered(h, k.next)|
    ensures Requests(h) == k.ok + k.pendingCount
  {
    hide IdsOk, PendingOk, OwnBelow, Outstanding, Answered, HistoryOk;
    var d := OwnBelow(k.id, k.next);
    RequestSplit(h, k.id, k.next);
    RequestSetSize(h, d, |h|);
    RequestSetSize(h, 0, d);
    RequestsBetween(h, d, |h|);
    assert h[..|h|] == h && h[..0] == [];
  }

  /** At every node of every reachable state: `pending_count_` is the number of own
      requests not executed yet, each request executed was counted exactly once, and
      nothing of the load is lost. */
  lemma {:induction false} RequestConservation(c: System, w: nat, preload: map<string, string>, i: nat)
    requires Inv(c, w, preload) && 1 <= i <= 3
    ensures var p := c.procs[i];
            var k := p.node.core;
            && k.pendingCount == |Outstanding(p.proposed, k.next)|
            && k.ok == |Answered(p.proposed, k.next)|
            && k.total == k.ok + k.errors && k.ok == k.readOps + k.writeOps
            && k.readSamples == k.readOps && k.writeSamples == k.writeOps
            && p.submitted == k.ok + k.pendingCount + k.errors + |DraftsOf(p.phase)|
            && p.submitted + RequestsIn(p.input) + RejectsIn(p.input) == RequestsIn(p.cfg.load) + RejectsIn(p.cfg.load)
  {
    hide Senders, Nodes, Channels, NodeOk, ConfigOk, PropOk, PhaseOk, IdsOk, PendingOk, HistoryOk, Outstanding,
         Answered;
    hide LoadOk, RequestsIn, RejectsIn;
    InvParts(c, w, preload, i);
    CountsAreSets(c.procs[i].node.core, c.procs[i].proposed);
  }

  // -------------------------------------------------------- payload integrity

  lemma {:induction false} StampedAt(n: Node, ds: seq<Draft>, k: nat)
    requires Sized(n) && k < |ds|
    ensures Stamped(n, ds)[k] == Stamp(AssignAll(n, ds[..k]), MakeProposal(n.core.id, ds[k]), ds[k].tsc)
  {
    if k < |ds| - 1 {
      StampedAt(n, ds[..|ds| - 1], k);
      assert ds[..|ds| - 1][..k] == ds[..k];
    }
  }

  /** What of a request reaches the replicas: as much of the key as fits a buffer of 1088
      bytes, then as much of the value; reads carry nothing, deletes no value. */
  predicate Carried(req: Request, key: string, value: string) {
    if req.op == 'G' then key == "" && value == ""
    else
      && key <= req.key && |key| == (if |req.key| <= 1088 then |req.key| else 1088)
      && if req.op == 'D' then value == ""
         else value <= req.value && |value| == if |req.value| <= 1088 - |key| then |req.value| else 1088 - |key|
  }

  /** The message and the command a submitted request becomes. */
  lemma {:induction false} SubmittedCommand(n: Node, d: Draft)
    requires |d.scratch| == 1088
    ensures var m := Stamp(n, MakeProposal(n.core.id, d), d.tsc);
            && m.keyLen + m.valueLen <= 1088 == |m.data|
            && (d.req.op == 'G' || d.req.op == 'P' || d.req.op == 'U' || d.req.op == 'D' ==>
                  var c := CommandOf(SlotOf(m));
                  && c.op == d.req.op && c.proposer == n.core.id && Carried(d.req, c.key, c.value)
                  && c.reqId == n.core.id * 0x100000000000000 + n.prop.nextReq)
  {
    var m := Stamp(n, MakeProposal(n.core.id, d), d.tsc);
    if d.req.op == 'G' || d.req.op == 'P' || d.req.op == 'U' || d.req.op == 'D' {
      CommandOfProposal(m);
      var k, v := d.req.key[..KeyLen(d.req)], d.req.value[..ValueLen(d.req)];
      assert m.data[..|k|] == k;
      assert m.data[|k|..|k| + |v|] == v;
      hide CommandOf, SlotOf;
    }
  }

  /** Requests that fit a buffer arrive whole, so different keys stay different. */
  lemma {:induction false} CarriedWhole(req: Request, key: string, value: string)
    requires Carried(req, key, value) && req.op != 'G' && |req.key| + |req.value| <= 1088
    ensures key == req.key && (req.op != 'D' ==> value == req.value)
  {
  }

  /** A waiting chunk holds valid requests only. */
  lemma {:induction false} WaitingChunk(c: System, w: nat, preload: map<string, string>, i: nat)
    requires Inv(c, w, preload) && 1 <= i <= 3 && c.procs[i].phase.Waiting?
    ensures ChunkOk(c.procs[i].phase.drafts, c.procs[i].cfg.batch)
  {
    InvParts(c, w, preload, i);
    hide Inv, NodeOk, Accounts, ChunkOk, ConfigOk, PropOk;
  }

  /** Whatever replica executes the number a request was assigned executes exactly that
      request, with as much of its key and value as fits a buffer. */
  lemma {:induction false} PayloadIntegrity(run: seq<System>, steps: seq<Step>, g: Setup,
                         t: nat, v: nat, k: nat, r: nat)
    requires Execution(run, steps, g) && t < |steps| && t < v < |run| && 1 <= r <= 3
    requires steps[t].Assign? && k < |steps[t].drafts| && Shape(run[t]) && Shape(run[v]) && Enabled(run[t], steps[t])
    ensures var q, req := run[t].procs[steps[t].i].node, steps[t].drafts[k].req;
            var sn, e := q.prop.nextSeq + 3 * k, run[v].procs[r].node.core.executed;
            1 <= sn && (sn <= |e| ==>
              var c := e[sn - 1];
              && c.op == req.op && c.proposer == steps[t].i
              && c.reqId == steps[t].i * 0x100000000000000 + q.prop.nextReq + k
              && Carried(req, c.key, c.value)
              && (req.op != 'G' && |req.key| + |req.value| <= 1088 ==>
                    c.key == req.key && (req.op != 'D' ==> c.value == req.value)))
  {
    hide Inv, Initial, Next, ConfigOk, SlotOf, CommandOf, Stamped, AssignAll, Carried;
    var i, ds := steps[t].i, steps[t].drafts;
    ReachableInv(run, steps, g, t);
    ReachableInv(run, steps, g, v);
    NextNumber(run[t], g.w, g.preload, i);
    var q, e := run[t].procs[i], run[v].procs[r].node.core.executed;
    var sn := q.node.prop.nextSeq + 3 * k;
    if sn <= |e| {
      AssignedCommand(run, steps, g, t, v, k, r);
      WaitingChunk(run[t], g.w, g.preload, i);
      SubmittedCommand(AssignAll(q.node, ds[..k]), ds[k]);
      AssignFields(q.node, ds[..k]);
      var req, c := ds[k].req, e[sn - 1];
      if req.op != 'G' && |req.key| + |req.value| <= 1088 {
        CarriedWhole(req, c.key, c.value);
      }
    }
  }

  lemma {:induction false} AssignFields(n: Node, ds: seq<Draft>)
    requires Sized(n)
    ensures var r := AssignAll(n, ds);
            && r.core.id == n.core.id && r.prop.nextSeq == n.prop.nextSeq + 3 * |ds|
            && r.prop.nextReq == n.prop.nextReq + |ds| && r.core.pendingCount == n.core.pendingCount + |ds|
  {
    if ds != [] {
      AssignFields(n, ds[..|ds| - 1]);
    }
  }

  lemma {:induction false} NextNumber(c: System, w: nat, preload: map<string, string>, i: nat)
    requires Inv(c, w, preload) && 1 <= i <= 3
    ensures c.procs[i].node.prop.nextSeq == i + 3 * |c.procs[i].proposed| && c.procs[i].node.core.id == i
  {
    hide Nodes, Channels;
    assert SenderOk(c.procs[i], i, w);
  }

  lemma {:induction false} AssignEffect(c: System, st: Step, k: nat)
    requires Shape(c) && Enabled(c, st) && st.Assign? && k < |st.drafts|
    ensures var q, h := c.procs[st.i], |c.procs[st.i].proposed|;
            && |Next(c, st).procs| == 4 && h + k < |Next(c, st).procs[st.i].proposed|
            && Next(c, st).procs[st.i].proposed[h + k] == Stamped(q.node, st.drafts)[k]
  {
    hide Stamped, AssignAll, SelfDelivered, Handled, PublishTo, DrainFrom, NoopProposed;
  }

  /** Whatever replica has executed a number executed the proposal that carries it. */
  lemma {:induction false} ExecutedProposal(run: seq<System>, steps: seq<Step>, g: Setup,
                         t: nat, v: nat, i: nat, k: nat, r: nat)
    requires Execution(run, steps, g) && t <= v < |run| && 1 <= r <= 3 && 1 <= i <= 3
    requires Shape(run[t]) && Shape(run[v]) && k < |run[t].procs[i].proposed|
    requires i + 3 * k <= |run[v].procs[r].node.core.executed|
    ensures run[v].procs[r].node.core.executed[i + 3 * k - 1] == CommandOf(SlotOf(run[t].procs[i].proposed[k]))
  {
    hide Initial, Next, ConfigOk, SlotOf, CommandOf, Owner, Index, Enabled, Inv;
    ReachableInv(run, steps, g, v);
    NumberingInverse(i, k);
    ExecutedLength(run[v], g.w, g.preload, r);
    ExecutedIs(run[v], g.w, g.preload, r, i + 3 * k);
    RunGrows(run, steps, g, t, v);
    GrowsAt(run[t], run[v], i, k);
  }

  lemma {:induction false} AssignedCommand(run: seq<System>, steps: seq<Step>, g: Setup,
                        t: nat, v: nat, k: nat, r: nat)
    requires Execution(run, steps, g) && t < |steps| && t < v < |run| && 1 <= r <= 3
    requires steps[t].Assign? && k < |steps[t].drafts| && Shape(run[t]) && Shape(run[v]) && Enabled(run[t], steps[t])
    requires var sn := run[t].procs[steps[t].i].node.prop.nextSeq + 3 * k;
             1 <= sn <= |run[v].procs[r].node.core.executed|
    ensures var q, ds := run[t].procs[steps[t].i].node, steps[t].drafts;
            run[v].procs[r].node.core.executed[q.prop.nextSeq + 3 * k - 1] ==
            CommandOf(SlotOf(Stamp(AssignAll(q, ds[..k]), MakeProposal(q.core.id, ds[k]), ds[k].tsc)))
  {
    hide Initial, Next, ConfigOk, SlotOf, CommandOf, Stamped, AssignAll, Owner, Index, Enabled, Inv, MakeProposal;
    EnabledProc(run[t], steps[t]);
    ReachableInv(run, steps, g, t);
    ReachableInv(run, steps, g, t + 1);
    ReachableInv(run, steps, g, v);
    var i, ds, q := steps[t].i, steps[t].drafts, run[t].procs[steps[t].i];
    var c1, h := run[t + 1], |q.proposed|;
    assert Enabled(run[t], steps[t]) && run[t + 1] == Next(run[t], steps[t]);
    AssignEffect(run[t], steps[t], k);
    StampedAt(q.node, ds, k);
    NextNumber(run[t], g.w, g.preload, i);
    ExecutedProposal(run, steps, g, t + 1, v, i, h + k, r);
  }
}
