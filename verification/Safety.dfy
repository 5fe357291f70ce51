/** Every step of the cluster keeps the invariant. */
module Safety {
  import opened Types
  import opened NodeSpec
  import opened LogView
  import opened Replication
  import opened Accounting
  import opened Cluster
  import opened Invariant

  /** Same log and same executed state, whatever happens to the counters. */
  predicate SameLog(n: Node, r: Node) {
    && r.log == n.log && r.payloads == n.payloads && |r.core.pending| == |n.core.pending|
    && r.core.next == n.core.next && r.core.executed == n.core.executed && r.core.store == n.core.store
    && r.core.id == n.core.id
  }

  lemma {:induction false} RepresentsFrame(n: Node, r: Node, hist: seq<seq<Message>>, del: seq<nat>,
      preload: map<string, string>)
    requires Represents(n, hist, del, preload) && SameLog(n, r)
    ensures Represents(r, hist, del, preload)
  {
    forall s | n.core.next <= s < n.core.next + 65536 ensures EntryMatches(r, hist, del, s) {
      assert EntryMatches(n, hist, del, s);
    }
  }

  lemma {:induction false} SendersKept(c: System, i: nat, p: Proc, w: nat)
    requires Shape(c) && Senders(c, w) && 1 <= i <= 3 && SenderOk(p, i, w) && Shape(SetProc(c, i, p))
    ensures Senders(SetProc(c, i, p), w)
  {
    hide SenderOk;
  }

  lemma {:induction false} NodesKept(c: System, c': System, i: nat, preload: map<string, string>)
    requires Shape(c) && Shape(c') && Nodes(c, preload) && 1 <= i <= 3
    requires Histories(c') == Histories(c)
    requires forall j :: 1 <= j <= 3 && j != i ==>
             c'.procs[j].node == c.procs[j].node && Delivered(c', j) == Delivered(c, j)
    requires NodeOk(c'.procs[i].node, Histories(c'), Delivered(c', i), preload)
    ensures Nodes(c', preload)
  {
    hide NodeOk;
  }

  /** Changing one ring and one hand at most leaves the other channels alone. */
  lemma {:induction false} ChannelsFrame(c: System, c': System, src: nat, dst: nat)
    requires Shape(c) && Shape(c') && Channels(c) && 1 <= src <= 3 && 1 <= dst <= 3 && src != dst
    requires forall a :: 1 <= a <= 3 ==> c'.procs[a].proposed == c.procs[a].proposed
    requires forall a, b :: 1 <= a <= 3 && 1 <= b <= 3 ==> Published(c'.procs[a], a, b) == Published(c.procs[a], a, b)
    requires forall a, b :: 1 <= a <= 3 && 1 <= b <= 3 && !(a == src && b == dst) ==>
                              c'.rings[a][b] == c.rings[a][b] && c'.procs[b].inHand[a] == c.procs[b].inHand[a]
    requires ChannelOk(c'.procs[src], c'.rings[src][dst], c'.procs[dst].inHand[src], src, dst)
    ensures Channels(c')
  {
    hide LinkOk, Published;
    forall a, b | 1 <= a <= 3 && 1 <= b <= 3 && a != b
      ensures ChannelOk(c'.procs[a], c'.rings[a][b], c'.procs[b].inHand[a], a, b)
    {
      assert ChannelOk(c.procs[a], c.rings[a][b], c.procs[b].inHand[a], a, b);
    }
  }

  // ----------------------------------- steps inside one node, nothing sent

  /** What other nodes can see of a sender. */
  predicate SameOutside(q: Proc, p: Proc, i: nat) {
    && p.proposed == q.proposed && p.inHand == q.inHand && InFlight(p) == InFlight(q)
    && forall j :: 1 <= j <= 3 ==> Published(p, i, j) == Published(q, i, j)
  }

  lemma {:induction false} LocalShape(c: System, i: nat, p: Proc)
    requires Shape(c) && 1 <= i <= 3 && |p.inHand| == 4 && Sized(p.node)
    ensures Shape(SetProc(c, i, p))
  {
  }

  lemma {:induction false} LocalDelivered(c: System, i: nat, p: Proc, j: nat)
    requires Shape(c) && 1 <= i <= 3 && 1 <= j <= 3 && SameOutside(c.procs[i], p, i) && Shape(SetProc(c, i, p))
    ensures Histories(SetProc(c, i, p)) == Histories(c) && Delivered(SetProc(c, i, p), j) == Delivered(c, j)
  {
  }

  lemma {:induction false} LocalChannels(c: System, i: nat, p: Proc)
    requires Shape(c) && Channels(c) && 1 <= i <= 3 && SameOutside(c.procs[i], p, i) && Shape(SetProc(c, i, p))
    ensures Channels(SetProc(c, i, p))
  {
    hide LinkOk, Published;
    var src, dst := Peer(i, 0), i;
    assert ChannelOk(c.procs[src], c.rings[src][dst], c.procs[dst].inHand[src], src, dst);
    ChannelsFrame(c, SetProc(c, i, p), src, dst);
  }

  lemma {:induction false} LocalNodes(c: System, i: nat, p: Proc, preload: map<string, string>)
    requires Shape(c) && Nodes(c, preload) && 1 <= i <= 3 && SameOutside(c.procs[i], p, i) && Shape(SetProc(c, i, p))
    requires p.node.core.id == i && SameLog(c.procs[i].node, p.node) && Accounts(p.node.core, p.proposed)
    ensures Nodes(SetProc(c, i, p), preload)
  {
    hide Represents, Accounts, DeliveredFrom, Frontier;
    var c' := SetProc(c, i, p);
    forall j | 1 <= j <= 3 ensures Histories(c') == Histories(c) && Delivered(c', j) == Delivered(c, j) {
      LocalDelivered(c, i, p, j);
    }
    assert NodeOk(c.procs[i].node, Histories(c), Delivered(c, i), preload);
    RepresentsFrame(c.procs[i].node, p.node, Histories(c), Delivered(c, i), preload);
    NodesKept(c, c', i, preload);
  }

  lemma {:induction false} LocalKeeps(c: System, i: nat, p: Proc, w: nat, preload: map<string, string>)
    requires Inv(c, w, preload) && 1 <= i <= 3 && SenderOk(p, i, w) && SameOutside(c.procs[i], p, i)
    requires SameLog(c.procs[i].node, p.node) && Accounts(p.node.core, p.proposed)
    ensures Inv(SetProc(c, i, p), w, preload)
  {
    LocalShape(c, i, p);
    SendersKept(c, i, p, w);
    LocalChannels(c, i, p);
    LocalNodes(c, i, p, preload);
  }

  lemma {:induction false} InvParts(c: System, w: nat, preload: map<string, string>, i: nat)
    requires Inv(c, w, preload) && 1 <= i <= 3
    ensures Shape(c) && SenderOk(c.procs[i], i, w) && Accounts(c.procs[i].node.core, c.procs[i].proposed)
    ensures NodeOk(c.procs[i].node, Histories(c), Delivered(c, i), preload)
  {
    hide ConfigOk, PropOk, PhaseOk, Represents, Accounts, Frontier;
    assert NodeOk(c.procs[i].node, Histories(c), Delivered(c, i), preload);
  }

  /** All a step inside one process has to provide. */
  ghost predicate LocalOk(q: Proc, p: Proc, i: nat, w: nat) {
    && SenderOk(p, i, w) && SameOutside(q, p, i) && SameLog(q.node, p.node) && Accounts(p.node.core, p.proposed)
  }

  lemma {:induction false} LocalStepKeeps(c: System, i: nat, p: Proc, w: nat, preload: map<string, string>)
    requires Inv(c, w, preload) && 1 <= i <= 3 && LocalOk(c.procs[i], p, i, w)
    ensures Inv(SetProc(c, i, p), w, preload)
  {
    hide Inv, SenderOk, SameOutside, SameLog, Accounts;
    InvParts(c, w, preload, i);
    LocalKeeps(c, i, p, w, preload);
  }

  lemma {:induction false} RejectedOk(q: Proc, i: nat, w: nat)
    requires SenderOk(q, i, w) && Accounts(q.node.core, q.proposed)
    requires q.phase.Idle? && q.input != [] && q.input[0].Invalid?
    ensures LocalOk(q, Rejected(q), i, w)
  {
    hide IdsOk, HistoryOk, PendingOk, ConfigOk, PropOk, ChunkOk;
  }

  lemma {:induction false} SubmittedOk(q: Proc, i: nat, w: nat)
    requires SenderOk(q, i, w) && Accounts(q.node.core, q.proposed)
    requires q.phase.Idle? && q.input != [] && q.input[0].Chunk?
    ensures LocalOk(q, Submitted(q), i, w)
  {
    hide Accounts, ConfigOk, PropOk, ChunkOk;
  }

  lemma {:induction false} MarkedDoneOk(q: Proc, i: nat, w: nat)
    requires SenderOk(q, i, w) && Accounts(q.node.core, q.proposed) && q.phase.Idle? && q.input == []
    ensures LocalOk(q, InputMarkedDone(q), i, w)
  {
    hide Accounts, ConfigOk;
  }

  lemma {:induction false} ReservedOk(q: Proc, i: nat, w: nat)
    requires SenderOk(q, i, w) && Accounts(q.node.core, q.proposed) && q.phase.Outgoing? && !q.phase.reserved
    ensures LocalOk(q, q.(phase := q.phase.(reserved := true)), i, w)
  {
    hide Accounts, ConfigOk, PropOk, IsNewest;
  }

  lemma {:induction false} ArmedOk(q: Proc, i: nat, w: nat)
    requires SenderOk(q, i, w) && Accounts(q.node.core, q.proposed) && q.phase.Idle?
    requires q.node.prop.inputDone && q.node.prop.highest < q.node.core.next + 1536
    ensures LocalOk(q, q.(phase := Armed), i, w)
  {
    hide Accounts, ConfigOk, PropOk;
  }

  lemma {:induction false} FinishedOk(q: Proc, i: nat, w: nat)
    requires SenderOk(q, i, w) && Accounts(q.node.core, q.proposed)
    requires q.node.prop.inputDone && q.node.core.pendingCount == 0
    ensures LocalOk(q, q.(finished := true), i, w)
  {
    hide Accounts, ConfigOk, PropOk, PhaseOk;
  }

  lemma {:induction false} RejectKeeps(c: System, i: nat, w: nat, preload: map<string, string>)
    requires Shape(c) && Enabled(c, Reject(i)) && Inv(c, w, preload)
    ensures Inv(SetProc(c, i, Rejected(c.procs[i])), w, preload)
  {
    hide Inv, LocalOk, SenderOk, Accounts, Rejected, InputMarkedDone;
    InvParts(c, w, preload, i);
    RejectedOk(c.procs[i], i, w);
    LocalStepKeeps(c, i, Rejected(c.procs[i]), w, preload);
  }

  lemma {:induction false} SubmitKeeps(c: System, i: nat, w: nat, preload: map<string, string>)
    requires Shape(c) && Enabled(c, Submit(i)) && Inv(c, w, preload)
    ensures Inv(SetProc(c, i, Submitted(c.procs[i])), w, preload)
  {
    hide Inv, LocalOk, SenderOk, Accounts, Submitted;
    InvParts(c, w, preload, i);
    SubmittedOk(c.procs[i], i, w);
    LocalStepKeeps(c, i, Submitted(c.procs[i]), w, preload);
  }

  lemma {:induction false} MarkDoneKeeps(c: System, i: nat, w: nat, preload: map<string, string>)
    requires Shape(c) && Enabled(c, MarkDone(i)) && Inv(c, w, preload)
    ensures Inv(SetProc(c, i, InputMarkedDone(c.procs[i])), w, preload)
  {
    hide Inv, LocalOk, SenderOk, Accounts, Rejected, InputMarkedDone;
    InvParts(c, w, preload, i);
    MarkedDoneOk(c.procs[i], i, w);
    LocalStepKeeps(c, i, InputMarkedDone(c.procs[i]), w, preload);
  }

  lemma {:induction false} ReserveKeeps(c: System, i: nat, w: nat, preload: map<string, string>)
    requires Shape(c) && Enabled(c, Reserve(i)) && Inv(c, w, preload)
    ensures Inv(SetProc(c, i, c.procs[i].(phase := c.procs[i].phase.(reserved := true))), w, preload)
  {
    hide Inv, LocalOk, SenderOk, Accounts, Rejected, InputMarkedDone;
    InvParts(c, w, preload, i);
    ReservedOk(c.procs[i], i, w);
    LocalStepKeeps(c, i, c.procs[i].(phase := c.procs[i].phase.(reserved := true)), w, preload);
  }

  lemma {:induction false} ArmNoopKeeps(c: System, i: nat, w: nat, preload: map<string, string>)
    requires Shape(c) && Enabled(c, ArmNoop(i)) && Inv(c, w, preload)
    ensures Inv(SetProc(c, i, c.procs[i].(phase := Armed)), w, preload)
  {
    hide Inv, LocalOk, SenderOk, Accounts, Rejected, InputMarkedDone;
    InvParts(c, w, preload, i);
    ArmedOk(c.procs[i], i, w);
    LocalStepKeeps(c, i, c.procs[i].(phase := Armed), w, preload);
  }

  lemma {:induction false} FinishKeeps(c: System, i: nat, w: nat, preload: map<string, string>)
    requires Shape(c) && Enabled(c, Finish(i)) && Inv(c, w, preload)
    ensures Inv(SetProc(c, i, c.procs[i].(finished := true)), w, preload)
  {
    hide Inv, LocalOk, SenderOk, Accounts, Rejected, InputMarkedDone;
    InvParts(c, w, preload, i);
    FinishedOk(c.procs[i], i, w);
    LocalStepKeeps(c, i, c.procs[i].(finished := true), w, preload);
  }

  // --------------------------------------------------- new proposals

  /** Process p is q with `ms` newly proposed and about to be sent. */
  predicate Grown(q: Proc, p: Proc, ms: seq<Message>) {
    && InFlight(q) == 0 && p.proposed == q.proposed + ms && p.inHand == q.inHand
    && p.phase.Outgoing? && p.phase.batch == ms && p.phase.sent == 0
  }

  lemma {:induction false} GrowChannels(c: System, i: nat, p: Proc, ms: seq<Message>)
    requires Shape(c) && Channels(c) && 1 <= i <= 3 && Grown(c.procs[i], p, ms) && Shape(SetProc(c, i, p))
    ensures Channels(SetProc(c, i, p))
  {
    var c', q := SetProc(c, i, p), c.procs[i];
    forall a, b | 1 <= a <= 3 && 1 <= b <= 3 && a != b
      ensures ChannelOk(c'.procs[a], c'.rings[a][b], c'.procs[b].inHand[a], a, b)
    {
      assert ChannelOk(c.procs[a], c.rings[a][b], c.procs[b].inHand[a], a, b);
      if a == i {
        assert p.proposed[..|q.proposed|] == q.proposed[..|q.proposed|];
      }
    }
  }

  lemma {:induction false} GrowDelivered(c: System, i: nat, p: Proc, ms: seq<Message>, j: nat)
    requires Shape(c) && 1 <= i <= 3 && 1 <= j <= 3 && Grown(c.procs[i], p, ms) && Shape(SetProc(c, i, p))
    ensures Delivered(SetProc(c, i, p), j) == Delivered(c, j)
  {
  }

  lemma {:induction false} GrowHistories(c: System, i: nat, p: Proc, ms: seq<Message>)
    requires Shape(c) && 1 <= i <= 3 && Grown(c.procs[i], p, ms) && HistoriesOk(Histories(c)) &&
             HistoryOk(p.proposed, i)
    ensures Extends(Histories(c), Histories(SetProc(c, i, p))) && HistoriesOk(Histories(SetProc(c, i, p)))
  {
    hide HistoryOk;
  }

  lemma {:induction false} GrowNode(q: Proc, p: Proc, hist: seq<seq<Message>>, more: seq<seq<Message>>, del: seq<nat>,
      preload: map<string, string>)
    requires NodeOk(q.node, hist, del, preload) && Extends(hist, more) && HistoriesOk(more)
    requires SameLog(q.node, p.node) && Accounts(p.node.core, more[p.node.core.id])
    ensures NodeOk(p.node, more, del, preload)
  {
    hide Accounts, Represents, HistoryOk, Frontier;
    HistoryGrows(q.node, hist, more, del, preload);
    RepresentsFrame(q.node, p.node, more, del, preload);
  }

  lemma {:induction false} GrowHistoriesOk(c: System, i: nat, p: Proc, ms: seq<Message>, w: nat, preload: map<string,
      string>)
    requires Inv(c, w, preload) && 1 <= i <= 3 && Grown(c.procs[i], p, ms) && p.node.core.id == i &&
             Accounts(p.node.core, p.proposed)
    ensures Extends(Histories(c), Histories(SetProc(c, i, p))) && HistoriesOk(Histories(SetProc(c, i, p)))
  {
    InvParts(c, w, preload, i);
    hide Inv, Grown, HistoryOk;
    GrowHistories(c, i, p, ms);
  }

  lemma {:induction false} GrowOne(c: System, i: nat, p: Proc, ms: seq<Message>, w: nat, preload: map<string,
      string>, j: nat)
    requires Inv(c, w, preload) && 1 <= i <= 3 && 1 <= j <= 3 && Grown(c.procs[i], p, ms) && Shape(SetProc(c, i, p))
    requires SameLog(c.procs[i].node, p.node) && p.node.core.id == i && Accounts(p.node.core, p.proposed)
    requires Extends(Histories(c), Histories(SetProc(c, i, p))) && HistoriesOk(Histories(SetProc(c, i, p)))
    ensures NodeOk(SetProc(c, i, p).procs[j].node, Histories(SetProc(c, i, p)), Delivered(SetProc(c, i, p), j), preload)
  {
    hide Inv, NodeOk, Grown, Accounts, SameLog, HistoriesOk, ConfigOk, PropOk, PhaseOk;
    InvParts(c, w, preload, j);
    var c', hist := SetProc(c, i, p), Histories(c);
    GrowDelivered(c, i, p, ms, j);
    SameLogRefl(c.procs[j].node);
    GrowNode(c.procs[j], c'.procs[j], hist, Histories(c'), Delivered(c, j), preload);
  }

  lemma {:induction false} GrowNodes(c: System, i: nat, p: Proc, ms: seq<Message>, w: nat, preload: map<string, string>)
    requires Inv(c, w, preload) && 1 <= i <= 3 && Grown(c.procs[i], p, ms) && Shape(SetProc(c, i, p))
    requires SameLog(c.procs[i].node, p.node) && p.node.core.id == i && Accounts(p.node.core, p.proposed)
    ensures Nodes(SetProc(c, i, p), preload)
  {
    hide Inv, NodeOk, Grown, Accounts, SameLog, HistoriesOk, Extends;
    InvParts(c, w, preload, i);
    var c' := SetProc(c, i, p);
    GrowHistoriesOk(c, i, p, ms, w, preload);
    forall j | 1 <= j <= 3 ensures NodeOk(c'.procs[j].node, Histories(c'), Delivered(c', j), preload) {
      GrowOne(c, i, p, ms, w, preload, j);
    }
    NodesIntro(c', preload);
  }

  lemma {:induction false} SameLogRefl(n: Node)
    ensures SameLog(n, n)
  {
  }

  lemma {:induction false} NodesIntro(c: System, preload: map<string, string>)
    requires Shape(c) && forall j :: 1 <= j <= 3 ==> NodeOk(c.procs[j].node, Histories(c), Delivered(c, j), preload)
    ensures Nodes(c, preload)
  {
    hide NodeOk, Delivered;
  }

  /** All a step that proposes has to provide. */
  ghost predicate GrowOk(q: Proc, p: Proc, ms: seq<Message>, i: nat, w: nat) {
    && SenderOk(p, i, w) && Grown(q, p, ms) && SameLog(q.node, p.node) && Accounts(p.node.core, p.proposed)
  }

  lemma {:induction false} GrowKeeps(c: System, i: nat, p: Proc, ms: seq<Message>, w: nat, preload: map<string, string>)
    requires Inv(c, w, preload) && 1 <= i <= 3 && GrowOk(c.procs[i], p, ms, i, w)
    ensures Inv(SetProc(c, i, p), w, preload)
  {
    assert p.node.core.id == i;
    hide SenderOk, ChannelOk, NodeOk, Accounts;
    LocalShape(c, i, p);
    SendersKept(c, i, p, w);
    GrowChannels(c, i, p, ms);
    GrowNodes(c, i, p, ms, w, preload);
  }

  /** Room left in the window for a chunk is room left in the pending table. */
  lemma {:induction false} PendingRoom(id: nat, next: nat, len: nat, w: nat)
    requires 1 <= id <= 3 && 1 <= next && id + 3 * len <= next + w + 2 && w <= 32767
    ensures len < OwnBelow(id, next) + 65536
  {
  }

  /** An admitted chunk ends within the window. */
  lemma {:induction false} AdmittedFits(q: Proc, chunk: nat, i: nat, w: nat)
    requires SenderOk(q, i, w) && 1 <= chunk <= q.cfg.batch && Admits(q.node, chunk, q.cfg.window)
    ensures q.node.prop.nextSeq + 3 * chunk <= q.node.core.next + w + 2
  {
  }

  lemma {:induction false} NewestAppended(h: seq<Message>, ms: seq<Message>)
    requires ms != []
    ensures IsNewest(ms, h + ms)
  {
  }

  lemma {:induction false} AssignedAccounts(q: Proc, ds: seq<Draft>, i: nat, w: nat)
    requires Sized(q.node) && SenderOk(q, i, w) && Accounts(q.node.core, q.proposed)
    requires 1 <= |ds| <= q.cfg.batch && Admits(q.node, |ds|, q.cfg.window)
    requires AllClient(ds)
    requires q.node.prop.nextReq + |ds| <= 0x100000000000000
    ensures var n, h := AssignAll(q.node, ds), q.proposed + Stamped(q.node, ds);
            && Accounts(n.core, h) && PropOk(n.prop, i, h)
            && Requests(h) == Requests(q.proposed) + |ds| && SameButPending(q.node, n)
            && n.prop.nextSeq <= n.core.next + w + 2 && n.prop.nextReq == q.node.prop.nextReq + |ds|
  {
    AdmittedFits(q, |ds|, i, w);
    PendingRoom(i, q.node.core.next, |q.proposed| + |ds|, w);
    hide Accounts, OwnBelow, Stamped, AssignAll, Admits, ConfigOk, PhaseOk;
    AssignAllKeeps(q.node, q.proposed, ds);
  }

  lemma {:induction false} GrownSender(q: Proc, p: Proc, ms: seq<Message>, i: nat, w: nat)
    requires ConfigOk(q.cfg, w) && p.cfg == q.cfg
    requires p.finished ==> p.node.prop.inputDone && p.node.core.pendingCount == 0
    requires p.node.core.id == i && PropOk(p.node.prop, i, p.proposed) &&
             p.node.prop.nextSeq <= p.node.core.next + w + 2
    requires ClientOk(p)
    requires Grown(q, p, ms) && ms != [] && (!p.phase.reserved ==> p.phase.sent == 0)
    ensures SenderOk(p, i, w)
  {
    hide ConfigOk, PropOk, ClientOk;
    NewestAppended(q.proposed, ms);
    hide IsNewest;
  }

  /** An admitted chunk moves from the waiting submitter to the history. */
  lemma {:induction false} AssignedClient(q: Proc, p: Proc, ds: seq<Draft>)
    requires ClientOk(q) && q.phase == Waiting(ds) && p.phase.Outgoing? && p.cfg == q.cfg && p.input == q.input
    requires p.submitted == q.submitted && p.node.core.errors == q.node.core.errors
    requires Requests(p.proposed) == Requests(q.proposed) + |ds| && p.node.prop.nextReq == q.node.prop.nextReq + |ds|
    requires p.node.prop.inputDone == q.node.prop.inputDone
    ensures ClientOk(p)
  {
    hide LoadOk, RequestsIn, RejectsIn, Requests;
  }

  lemma {:induction false} SenderParts(q: Proc, i: nat, w: nat)
    requires SenderOk(q, i, w)
    ensures ConfigOk(q.cfg, w) && q.node.core.id == i && ClientOk(q)
    ensures (q.phase.Waiting? || q.phase.Armed?) && q.finished ==> q.phase.Armed? && q.node.core.pendingCount == 0
    ensures q.phase.Armed? ==> q.node.prop.inputDone
  {
  }

  lemma {:induction false} WaitingParts(q: Proc)
    requires ClientOk(q) && q.phase.Waiting?
    ensures ChunkOk(q.phase.drafts, q.cfg.batch) && q.node.prop.nextReq + |q.phase.drafts| <= 0x100000000000000
  {
  }

  lemma {:induction false} AssignedOk(q: Proc, ds: seq<Draft>, i: nat, w: nat)
    requires Sized(q.node) && SenderOk(q, i, w) && Accounts(q.node.core, q.proposed)
    requires q.phase == Waiting(ds) && ds != [] && Admits(q.node, |ds|, q.cfg.window)
    ensures GrowOk(q, Assigned(q, ds), Stamped(q.node, ds), i, w)
  {
    hide SenderOk, Accounts, Stamped, AssignAll, Admits, ConfigOk, ClientOk, PropOk, Requests;
    SenderParts(q, i, w);
    WaitingParts(q);
    AssignedAccounts(q, ds, i, w);
    AssignedClient(q, Assigned(q, ds), ds);
    GrownSender(q, Assigned(q, ds), Stamped(q.node, ds), i, w);
  }

  lemma {:induction false} AssignKeeps(c: System, i: nat, ds: seq<Draft>, w: nat, preload: map<string, string>)
    requires Shape(c) && Enabled(c, Assign(i, ds)) && Inv(c, w, preload)
    ensures Inv(SetProc(c, i, Assigned(c.procs[i], ds)), w, preload)
  {
    hide Inv, NodeOk, SenderOk, Accounts, Assigned, GrowOk, Admits;
    InvParts(c, w, preload, i);
    AssignedOk(c.procs[i], ds, i, w);
    GrowKeeps(c, i, Assigned(c.procs[i], ds), Stamped(c.procs[i].node, ds), w, preload);
  }

  lemma {:induction false} NoopAccounts(q: Proc, i: nat, w: nat)
    requires SenderOk(q, i, w) && Accounts(q.node.core, q.proposed) && q.phase.Armed?
    ensures var h, n := q.proposed + [NoopProposal(i, q.node.prop.nextSeq)], AssignNoop(q.node);
            Accounts(n.core, h) && PropOk(n.prop, i, h) && Requests(h) == Requests(q.proposed)
            && n.prop.nextSeq <= n.core.next + w + 2
  {
    PendingRoom(i, q.node.core.next, |q.proposed| + 1, w);
    hide Accounts, OwnBelow, NoopProposal;
    NoopKeeps(q.node, q.proposed);
  }

  lemma {:induction false} NoopClient(q: Proc, p: Proc)
    requires ClientOk(q) && q.phase.Armed? && p.phase.Outgoing? && p.cfg == q.cfg && p.input == q.input
    requires p.submitted == q.submitted && p.node.core.errors == q.node.core.errors
    requires Requests(p.proposed) == Requests(q.proposed) && p.node.prop.nextReq == q.node.prop.nextReq
    requires p.node.prop.inputDone == q.node.prop.inputDone
    ensures ClientOk(p)
  {
    hide LoadOk, RequestsIn, RejectsIn, Requests;
  }

  lemma {:induction false} NoopProposedOk(q: Proc, i: nat, w: nat)
    requires SenderOk(q, i, w) && Accounts(q.node.core, q.proposed) && q.phase.Armed?
    ensures GrowOk(q, NoopProposed(q), [NoopProposal(i, q.node.prop.nextSeq)], i, w)
  {
    hide SenderOk, Accounts, ConfigOk, ClientOk, PropOk, Requests, NoopProposal;
    SenderParts(q, i, w);
    NoopAccounts(q, i, w);
    NoopClient(q, NoopProposed(q));
    GrownSender(q, NoopProposed(q), [NoopProposal(i, q.node.prop.nextSeq)], i, w);
  }

  lemma {:induction false} ProposeNoopKeeps(c: System, i: nat, w: nat, preload: map<string, string>)
    requires Shape(c) && Enabled(c, ProposeNoop(i)) && Inv(c, w, preload)
    ensures Inv(SetProc(c, i, NoopProposed(c.procs[i])), w, preload)
  {
    hide Inv, NodeOk, SenderOk, Accounts, GrowOk, NoopProposed, NoopProposal;
    InvParts(c, w, preload, i);
    NoopProposedOk(c.procs[i], i, w);
    GrowKeeps(c, i, NoopProposed(c.procs[i]), [NoopProposal(i, c.procs[i].node.prop.nextSeq)], w, preload);
  }

  // ------------------------------------------------ messages on the way

  /** A link after the newest part of the history has been sent. */
  lemma {:induction false} PublishedLink(h: seq<Message>, batch: seq<Message>, r: Ring, hand: seq<Message>)
    requires IsNewest(batch, h) && LinkOk(h, |h| - |batch|, r, hand)
    ensures LinkOk(h, |h|, r.(sent := r.sent + batch), hand)
  {
    var all := r.sent + batch;
    assert all == h && h[..|h|] == h;
    assert all[r.tail - |hand|..r.tail] == r.sent[r.tail - |hand|..r.tail];
  }

  lemma {:induction false} PublishedChannel(p: Proc, r: Ring, hand: seq<Message>, i: nat, j: nat)
    requires 1 <= i <= 3 && 1 <= j <= 3 && i != j && ChannelOk(p, r, hand, i, j)
    requires p.phase.Outgoing? && p.phase.sent < 2 && IsNewest(p.phase.batch, p.proposed)
    ensures var p' := p.(phase := p.phase.(sent := p.phase.sent + 1));
            ChannelOk(p', if j == Peer(i, p.phase.sent) then r.(sent := r.sent + p.phase.batch) else r, hand, i, j)
  {
    if j == Peer(i, p.phase.sent) {
      PublishedLink(p.proposed, p.phase.batch, r, hand);
    }
    hide LinkOk;
  }

  lemma {:induction false} PublishChannels(c: System, i: nat)
    requires Shape(c) && Channels(c) && 1 <= i <= 3
    requires var p := c.procs[i]; p.phase.Outgoing? && p.phase.sent < 2 && IsNewest(p.phase.batch, p.proposed)
    ensures Shape(PublishTo(c, i)) && Channels(PublishTo(c, i))
  {
    hide ChannelOk, IsNewest;
    var c', p := PublishTo(c, i), c.procs[i];
    forall a, b | 1 <= a <= 3 && 1 <= b <= 3 && a != b
      ensures ChannelOk(c'.procs[a], c'.rings[a][b], c'.procs[b].inHand[a], a, b)
    {
      assert ChannelOk(c.procs[a], c.rings[a][b], c.procs[b].inHand[a], a, b);
      if a == i {
        PublishedChannel(p, c.rings[i][b], c.procs[b].inHand[i], i, b);
      }
    }
  }

  lemma {:induction false} PublishDelivered(c: System, i: nat, j: nat)
    requires Shape(c) && 1 <= i <= 3 && 1 <= j <= 3 && c.procs[i].phase.Outgoing? && c.procs[i].phase.sent < 2
    ensures var c' := PublishTo(c, i);
            Shape(c') && Histories(c') == Histories(c) && Delivered(c', j) == Delivered(c, j) &&
              c'.procs[j].node == c.procs[j].node
  {
  }

  lemma {:induction false} PublishSenders(c: System, i: nat, w: nat)
    requires Shape(c) && Senders(c, w) && 1 <= i <= 3
    requires c.procs[i].phase.Outgoing? && c.procs[i].phase.sent < 2 && c.procs[i].phase.reserved
    ensures Shape(PublishTo(c, i)) && Senders(PublishTo(c, i), w)
  {
    hide ConfigOk, PropOk, IsNewest;
    assert SenderOk(PublishTo(c, i).procs[i], i, w);
    hide SenderOk;
  }

  lemma {:induction false} PublishKeeps(c: System, i: nat, w: nat, preload: map<string, string>)
    requires Shape(c) && 1 <= i <= 3 && c.procs[i].phase.Outgoing? && c.procs[i].phase.sent < 2
    requires c.procs[i].phase.reserved && Inv(c, w, preload)
    ensures Inv(PublishTo(c, i), w, preload)
  {
    hide ChannelOk, NodeOk, PublishTo, ConfigOk, PropOk, IsNewest;
    PublishSenders(c, i, w);
    PublishChannels(c, i);
    var c' := PublishTo(c, i);
    forall j | 1 <= j <= 3 ensures NodeOk(c'.procs[j].node, Histories(c'), Delivered(c', j), preload) {
      PublishDelivered(c, i, j);
    }
    NodesIntro(c', preload);
  }

  lemma {:induction false} DrainedChannel(p: Proc, r: Ring, i: nat, j: nat, count: nat)
    requires ChannelOk(p, r, [], i, j) && r.tail + count <= |r.sent|
    ensures ChannelOk(p, r.(tail := r.tail + count), r.sent[r.tail..r.tail + count], i, j)
  {
  }

  lemma {:induction false} EnabledDrain(c: System, i: nat, src: nat, count: nat)
    requires Shape(c) && Enabled(c, Drain(i, src, count))
    ensures 1 <= i <= 3 && 1 <= src <= 3 && src != i && c.procs[i].inHand[src] == []
    ensures c.rings[src][i].tail + count <= |c.rings[src][i].sent|
  {
  }

  lemma {:induction false} DrainChannels(c: System, i: nat, src: nat, count: nat)
    requires Shape(c) && Channels(c) && Enabled(c, Drain(i, src, count))
    ensures Shape(DrainFrom(c, i, src, count)) && Channels(DrainFrom(c, i, src, count))
  {
    EnabledDrain(c, i, src, count);
    hide Enabled, Published;
    assert ChannelOk(c.procs[src], c.rings[src][i], c.procs[i].inHand[src], src, i);
    DrainedChannel(c.procs[src], c.rings[src][i], src, i, count);
    hide LinkOk, Sized;
    ChannelsFrame(c, DrainFrom(c, i, src, count), src, i);
  }

  lemma {:induction false} DrainCount(c: System, i: nat, src: nat, count: nat, a: nat, j: nat)
    requires Shape(c) && Enabled(c, Drain(i, src, count)) && a < 4 && 1 <= j <= 3
    ensures var c' := DrainFrom(c, i, src, count); Shape(c') && DeliveredFrom(c', a, j) == DeliveredFrom(c, a, j)
  {
  }

  lemma {:induction false} DrainDelivered(c: System, i: nat, src: nat, count: nat, j: nat)
    requires Shape(c) && Enabled(c, Drain(i, src, count)) && 1 <= j <= 3
    ensures var c' := DrainFrom(c, i, src, count);
            Shape(c') && Histories(c') == Histories(c) && Delivered(c', j) == Delivered(c, j) &&
              c'.procs[j].node == c.procs[j].node
  {
    DrainCount(c, i, src, count, 0, j);
    DrainCount(c, i, src, count, 1, j);
    DrainCount(c, i, src, count, 2, j);
    DrainCount(c, i, src, count, 3, j);
    hide DeliveredFrom;
  }

  lemma {:induction false} DrainSenders(c: System, i: nat, src: nat, count: nat, w: nat)
    requires Shape(c) && Senders(c, w) && Enabled(c, Drain(i, src, count))
    ensures Shape(DrainFrom(c, i, src, count)) && Senders(DrainFrom(c, i, src, count), w)
  {
    hide ConfigOk, PropOk, PhaseOk;
    assert SenderOk(DrainFrom(c, i, src, count).procs[i], i, w);
    hide SenderOk;
  }

  lemma {:induction false} DrainKeeps(c: System, i: nat, src: nat, count: nat, w: nat, preload: map<string, string>)
    requires Shape(c) && Enabled(c, Drain(i, src, count)) && Inv(c, w, preload)
    ensures Inv(DrainFrom(c, i, src, count), w, preload)
  {
    hide ChannelOk, NodeOk, SenderOk, DrainFrom;
    DrainSenders(c, i, src, count, w);
    DrainChannels(c, i, src, count);
    var c' := DrainFrom(c, i, src, count);
    forall j | 1 <= j <= 3 ensures NodeOk(c'.procs[j].node, Histories(c'), Delivered(c', j), preload) {
      DrainDelivered(c, i, src, count, j);
    }
    NodesIntro(c', preload);
  }

  // ------------------------------------------------------- deliveries

  /** Recording the next proposals of node i and executing keeps a node's meaning. */
  lemma {:induction false} DeliverNode(n: Node, hist: seq<seq<Message>>, del: seq<nat>, preload: map<string, string>,
      i: nat, b: nat)
    requires NodeOk(n, hist, del, preload) && 1 <= i <= 3 && del[i] < b <= |hist[i]|
    requires i + 3 * (b - 1) < n.core.next + 65536
    ensures var r := Advance(RecordAll(n, hist[i][del[i]..b]));
            && NodeOk(r, hist, del[i := b], preload) && r.prop == n.prop && r.core.id == n.core.id
            && r.core.errors == n.core.errors && n.core.next <= r.core.next && n.core.executed <= r.core.executed
            && r.core.pendingCount <= n.core.pendingCount
  {
    hide LogMatches, ExecutedMatches, Accounts, HistoryOk, Frontier;
    DeliverMany(n, hist, del, i, b);
    var m := RecordAll(n, hist[i][del[i]..b]);
    AdvanceKeeps(m, hist, del[i := b], preload);
    PendingFalls(n.core, Advance(m).core, hist[n.core.id]);
  }

  /** Process p is q after deliveries: its node moved on, its sending side did not. */
  ghost predicate Moved(q: Proc, p: Proc) {
    && p.cfg == q.cfg && p.finished == q.finished && p.proposed == q.proposed && p.submitted == q.submitted
    && p.input == q.input
    && p.node.prop == q.node.prop && p.node.core.id == q.node.core.id && p.node.core.errors == q.node.core.errors
    && q.node.core.next <= p.node.core.next && p.node.core.pendingCount <= q.node.core.pendingCount
    && (p.phase == q.phase || (q.phase.Outgoing? && p.phase == Idle))
  }

  lemma {:induction false} MovedSender(q: Proc, p: Proc, i: nat, w: nat)
    requires SenderOk(q, i, w) && Moved(q, p)
    ensures SenderOk(p, i, w)
  {
    hide ConfigOk, PropOk, IsNewest;
  }

  /** The batch still to be handled by its own proposer, in terms of its history. */
  lemma {:induction false} OwnBatch(c: System, i: nat, w: nat, preload: map<string, string>)
    requires Inv(c, w, preload) && 1 <= i <= 3 && c.procs[i].phase.Outgoing?
    ensures var p, d := c.procs[i], Delivered(c, i)[i];
            d < |p.proposed| && p.phase.batch == p.proposed[d..|p.proposed|]
  {
    hide Nodes, Channels, ConfigOk, PropOk;
    assert SenderOk(c.procs[i], i, w);
  }

  lemma {:induction false} LinkHand(h: seq<Message>, published: nat, r: Ring, hand: seq<Message>, k: nat)
    requires LinkOk(h, published, r, hand) && k <= |hand|
    ensures var d := r.tail - |hand|; 0 <= d && d + k <= |h| && hand[..k] == h[d..d + k]
  {
    var d := r.tail - |hand|;
    assert hand[..k] == r.sent[d..d + k];
    assert r.sent[d..d + k] == h[d..d + k];
  }

  /** The head of a hand, in terms of the sender's history. */
  lemma {:induction false} HandPrefix(c: System, i: nat, src: nat, k: nat)
    requires Shape(c) && Channels(c) && 1 <= i <= 3 && 1 <= src <= 3 && i != src && k <= |c.procs[i].inHand[src]|
    ensures var d, h := DeliveredFrom(c, src, i), c.procs[src].proposed;
            d + k <= |h| && c.procs[i].inHand[src][..k] == h[d..d + k] &&
              |c.procs[i].inHand[src]| <= c.rings[src][i].tail
  {
    var p, r, hand := c.procs[src], c.rings[src][i], c.procs[i].inHand[src];
    assert ChannelOk(p, r, hand, src, i);
    hide Published, Channels;
    LinkHand(p.proposed, Published(p, src, i), r, hand, k);
  }

  lemma {:induction false} DeliverSystem(c: System, i: nat, p: Proc, src: nat, b: nat, w: nat, preload: map<string,
      string>)
    requires Inv(c, w, preload) && 1 <= i <= 3 && 1 <= src <= 3 && Shape(SetProc(c, i, p))
    requires Delivered(c, i)[src] < b <= |c.procs[src].proposed|
    requires p.node == Advance(RecordAll(c.procs[i].node, c.procs[src].proposed[Delivered(c, i)[src]..b]))
    requires p.cfg == c.procs[i].cfg && p.finished == c.procs[i].finished && p.proposed == c.procs[i].proposed
    requires p.submitted == c.procs[i].submitted && p.input == c.procs[i].input
    requires p.phase == c.procs[i].phase || (c.procs[i].phase.Outgoing? && p.phase == Idle)
    requires Channels(SetProc(c, i, p))
    requires Delivered(SetProc(c, i, p), i) == Delivered(c, i)[src := b]
    requires forall j :: 1 <= j <= 3 && j != i ==> Delivered(SetProc(c, i, p), j) == Delivered(c, j)
    ensures Inv(SetProc(c, i, p), w, preload) && Moved(c.procs[i], p) &&
            c.procs[i].node.core.executed <= p.node.core.executed
  {
    hide ChannelOk, NodeOk, SenderOk, Advance, RecordAll, DeliveredFrom;
    var q, c', d := c.procs[i], SetProc(c, i, p), Delivered(c, i)[src];
    InvParts(c, w, preload, i);
    assert src + 3 * (b - 1) < q.node.core.next + 65536 by {
      ProposedInWindow(c, w, preload, src, i, b - 1);
      InvParts(c, w, preload, src);
      HistorySn(c.procs[src], b - 1, src, w);
    }
    DeliverNode(q.node, Histories(c), Delivered(c, i), preload, src, b);
    MovedSender(q, p, i, w);
    SendersKept(c, i, p, w);
    assert Histories(c') == Histories(c);
    NodesKept(c, c', i, preload);
  }

  lemma {:induction false} HistorySn(p: Proc, k: nat, i: nat, w: nat)
    requires SenderOk(p, i, w) && Accounts(p.node.core, p.proposed) && k < |p.proposed|
    ensures p.proposed[k].sn == i + 3 * k
  {
  }

  lemma {:induction false} SelfDeliveredChannels(c: System, i: nat, p: Proc)
    requires Shape(c) && Channels(c) && 1 <= i <= 3 && Shape(SetProc(c, i, p))
    requires c.procs[i].phase.Outgoing? && c.procs[i].phase.sent == 2 && p.phase.Idle?
    requires p.proposed == c.procs[i].proposed && p.inHand == c.procs[i].inHand
    ensures Channels(SetProc(c, i, p))
  {
    hide LinkOk;
    var src, dst := Peer(i, 0), i;
    assert ChannelOk(c.procs[src], c.rings[src][dst], c.procs[dst].inHand[src], src, dst);
    ChannelsFrame(c, SetProc(c, i, p), src, dst);
  }

  lemma {:induction false} SelfDeliveredCounts(c: System, i: nat, p: Proc)
    requires Shape(c) && 1 <= i <= 3 && Shape(SetProc(c, i, p)) && c.procs[i].phase.Outgoing? && p.phase.Idle?
    requires p.proposed == c.procs[i].proposed && p.inHand == c.procs[i].inHand
    ensures Delivered(SetProc(c, i, p), i) == Delivered(c, i)[i := |p.proposed|]
    ensures forall j :: 1 <= j <= 3 && j != i ==> Delivered(SetProc(c, i, p), j) == Delivered(c, j)
  {
  }

  lemma {:induction false} SelfDeliverKeeps(c: System, i: nat, w: nat, preload: map<string, string>)
    requires Shape(c) && 1 <= i <= 3 && c.procs[i].phase.Outgoing? && Enabled(c, SelfDeliver(i)) && Inv(c, w, preload)
    ensures Inv(SetProc(c, i, SelfDelivered(c.procs[i])), w, preload)
    ensures Moved(c.procs[i], SelfDelivered(c.procs[i]))
    ensures c.procs[i].node.core.executed <= SelfDelivered(c.procs[i]).node.core.executed
  {
    hide Senders, Nodes, ChannelOk, Advance, RecordAll, DeliveredFrom;
    var q, p := c.procs[i], SelfDelivered(c.procs[i]);
    LocalShape(c, i, p);
    OwnBatch(c, i, w, preload);
    SelfDeliveredChannels(c, i, p);
    SelfDeliveredCounts(c, i, p);
    DeliverSystem(c, i, p, i, |q.proposed|, w, preload);
  }

  lemma {:induction false} HandledChannel(p: Proc, r: Ring, hand: seq<Message>, i: nat, j: nat, k: nat)
    requires ChannelOk(p, r, hand, i, j) && k <= |hand|
    ensures ChannelOk(p, r, hand[k..], i, j)
  {
  }

  /** Process p is q with the first k messages taken from its hand for src. */
  predicate HandTaken(q: Proc, p: Proc, src: nat, k: nat) {
    && src < |q.inHand| && k <= |q.inHand[src]| && p.phase == q.phase && p.proposed == q.proposed
    && p.inHand == q.inHand[src := q.inHand[src][k..]]
  }

  lemma {:induction false} HandledChannels(c: System, i: nat, p: Proc, src: nat, k: nat)
    requires Shape(c) && Channels(c) && 1 <= i <= 3 && 1 <= src <= 3 && src != i && Shape(SetProc(c, i, p))
    requires HandTaken(c.procs[i], p, src, k)
    ensures Channels(SetProc(c, i, p))
  {
    assert ChannelOk(c.procs[src], c.rings[src][i], c.procs[i].inHand[src], src, i);
    HandledChannel(c.procs[src], c.rings[src][i], c.procs[i].inHand[src], src, i, k);
    hide LinkOk;
    ChannelsFrame(c, SetProc(c, i, p), src, i);
  }

  lemma {:induction false} HandledCounts(c: System, i: nat, p: Proc, src: nat, k: nat)
    requires Shape(c) && 1 <= i <= 3 && 1 <= src <= 3 && src != i && Shape(SetProc(c, i, p))
    requires HandTaken(c.procs[i], p, src, k) && |c.procs[i].inHand[src]| <= c.rings[src][i].tail
    ensures Delivered(SetProc(c, i, p), i) == Delivered(c, i)[src := Delivered(c, i)[src] + k]
    ensures forall j :: 1 <= j <= 3 && j != i ==> Delivered(SetProc(c, i, p), j) == Delivered(c, j)
  {
  }

  lemma {:induction false} ProposalsOnly(h: seq<Message>, i: nat, a: nat, b: nat)
    requires HistoryOk(h, i) && a <= b <= |h|
    ensures forall k :: 0 <= k < b - a ==> h[a..b][k].kind == PROPOSAL
  {
  }

  /** What handling the next chunk from src makes of node i. */
  ghost predicate ChunkRecorded(c: System, i: nat, src: nat)
    requires Shape(c) && 1 <= i <= 3 && 1 <= src <= 3
  {
    var k, d, h := ChunkSize(c.procs[i].inHand[src]), DeliveredFrom(c, src, i), c.procs[src].proposed;
    && 0 < k && d + k <= |h| && |c.procs[i].inHand[src]| <= c.rings[src][i].tail
    && Handled(c.procs[i], src).node == Advance(RecordAll(c.procs[i].node, h[d..d + k]))
  }

  lemma {:induction false} HandledNode(c: System, i: nat, src: nat, w: nat, preload: map<string, string>)
    requires Shape(c) && 1 <= i <= 3 && 1 <= src <= 3 && Inv(c, w, preload) && Enabled(c, Handle(i, src))
    ensures ChunkRecorded(c, i, src)
  {
    hide Senders, Nodes, NodeOk, SenderOk, IdsOk, LinkOk, Advance, RecordAll, HandleChunk, DeliveredFrom, Published;
    var q, k, d := c.procs[i], ChunkSize(c.procs[i].inHand[src]), DeliveredFrom(c, src, i);
    HandPrefix(c, i, src, k);
    assert forall x :: 0 <= x < k ==> q.inHand[src][..k][x].kind == PROPOSAL by {
      InvParts(c, w, preload, src);
      assert c.procs[src].node.core.id == src by {
        SenderId(c.procs[src], src, w);
      }
      ProposalsOnly(c.procs[src].proposed, src, d, d + k);
    }
    ChunkOfProposals(q.node, q.inHand[src][..k]);
  }

  lemma {:induction false} EnabledHandle(c: System, i: nat, src: nat)
    requires Shape(c) && Enabled(c, Handle(i, src))
    ensures 1 <= i <= 3 && 1 <= src <= 3
  {
  }

  lemma {:induction false} SenderId(p: Proc, i: nat, w: nat)
    requires SenderOk(p, i, w)
    ensures p.node.core.id == i
  {
  }

  lemma {:induction false} HandleKeeps(c: System, i: nat, src: nat, w: nat, preload: map<string, string>)
    requires Shape(c) && 1 <= i <= 3 && 1 <= src <= 3 && Enabled(c, Handle(i, src)) && Inv(c, w, preload)
    ensures Inv(SetProc(c, i, Handled(c.procs[i], src)), w, preload)
    ensures Moved(c.procs[i], Handled(c.procs[i], src))
    ensures c.procs[i].node.core.executed <= Handled(c.procs[i], src).node.core.executed
  {
    hide Senders, Nodes, Channels, Advance, RecordAll, HandleChunk, DeliveredFrom, Moved;
    var q, p, k := c.procs[i], Handled(c.procs[i], src), ChunkSize(c.procs[i].inHand[src]);
    LocalShape(c, i, p);
    HandledNode(c, i, src, w, preload);
    HandledChannels(c, i, p, src, k);
    HandledCounts(c, i, p, src, k);
    DeliverSystem(c, i, p, src, DeliveredFrom(c, src, i) + k, w, preload);
  }

  // --------------------------------------------------------- all steps, all runs

  lemma {:induction false} InvShape(c: System, w: nat, preload: map<string, string>)
    requires Inv(c, w, preload)
    ensures Shape(c)
  {
    hide Senders, Channels, Nodes;
  }

  lemma {:induction false} EnabledProc(c: System, st: Step)
    requires Shape(c) && Enabled(c, st)
    ensures 1 <= st.i <= 3
  {
  }

  lemma {:induction false} EnabledSelfDeliver(c: System, i: nat)
    requires Shape(c) && Enabled(c, SelfDeliver(i))
    ensures 1 <= i <= 3 && c.procs[i].phase.Outgoing?
  {
  }

  lemma {:induction false} EnabledPublish(c: System, i: nat)
    requires Shape(c) && Enabled(c, Publish(i))
    ensures 1 <= i <= 3 && c.procs[i].phase.Outgoing? && c.procs[i].phase.sent < 2 && c.procs[i].phase.reserved
  {
  }

  /** Every step keeps the invariant. */
  lemma {:induction false} StepKeeps(c: System, st: Step, w: nat, preload: map<string, string>)
    requires Inv(c, w, preload) && Enabled(c, st)
    ensures Inv(Next(c, st), w, preload)
  {
    hide Inv, Enabled, Rejected, Submitted, Assigned, PublishTo, SelfDelivered, DrainFrom, Handled, InputMarkedDone,
         NoopProposed, SetProc;
    InvShape(c, w, preload);
    EnabledProc(c, st);
    match st {
      case Reject(i) => RejectKeeps(c, i, w, preload);
      case Submit(i) => SubmitKeeps(c, i, w, preload);
      case Assign(i, ds) => AssignKeeps(c, i, ds, w, preload);
      case Reserve(i) => ReserveKeeps(c, i, w, preload);
      case Publish(i) =>
        EnabledPublish(c, i);
        PublishKeeps(c, i, w, preload);
      case SelfDeliver(i) =>
        EnabledSelfDeliver(c, i);
        SelfDeliverKeeps(c, i, w, preload);
      case Drain(i, src, count) => DrainKeeps(c, i, src, count, w, preload);
      case Handle(i, src) =>
        EnabledHandle(c, i, src);
        HandleKeeps(c, i, src, w, preload);
      case MarkDone(i) => MarkDoneKeeps(c, i, w, preload);
      case ArmNoop(i) => ArmNoopKeeps(c, i, w, preload);
      case ProposeNoop(i) => ProposeNoopKeeps(c, i, w, preload);
      case Finish(i) => FinishKeeps(c, i, w, preload);
    }
  }

  lemma {:induction false} InitialSender(i: nat, cfg: Config, w: nat, preload: map<string, string>)
    requires 1 <= i <= 3 && ConfigOk(cfg, w)
    ensures SenderOk(InitialProc(i, cfg, preload), i, w)
  {
  }

  lemma {:induction false} InitialAccounts(j: nat, preload: map<string, string>)
    requires 1 <= j <= 3
    ensures Accounts(InitialNode(j, preload).core, [])
  {
  }

  lemma {:induction false} InitialNodeOk(j: nat, hist: seq<seq<Message>>, preload: map<string, string>)
    requires 1 <= j <= 3 && hist == [[], [], [], []]
    ensures NodeOk(InitialNode(j, preload), hist, [0, 0, 0, 0], preload)
  {
    var n, del := InitialNode(j, preload), [0, 0, 0, 0];
    InitialAccounts(j, preload);
    hide Accounts;
    forall s | 1 <= s < 1 + 65536 ensures EntryMatches(n, hist, del, s) {
      Numbering(s);
    }
  }

  lemma {:induction false} InitialCounts(cfgs: seq<Config>, preload: map<string, string>, j: nat)
    requires |cfgs| == 4 && 1 <= j <= 3
    ensures var c := Initial(cfgs, preload); Histories(c) == [[], [], [], []] && Delivered(c, j) == [0, 0, 0, 0]
  {
    hide InitialNode;
  }

  lemma {:induction false} InitialChannels(cfgs: seq<Config>, preload: map<string, string>)
    requires |cfgs| == 4
    ensures Channels(Initial(cfgs, preload))
  {
    hide InitialNode;
  }

  lemma {:induction false} InitialInv(cfgs: seq<Config>, w: nat, preload: map<string, string>)
    requires |cfgs| == 4 && forall i :: 1 <= i <= 3 ==> ConfigOk(cfgs[i], w)
    ensures Inv(Initial(cfgs, preload), w, preload)
  {
    hide ConfigOk, InitialNode, SenderOk, NodeOk, ChannelOk, DeliveredFrom;
    var c := Initial(cfgs, preload);
    InitialChannels(cfgs, preload);
    forall i | 1 <= i <= 3 ensures SenderOk(c.procs[i], i, w) {
      InitialSender(i, cfgs[i], w, preload);
    }
    forall j | 1 <= j <= 3 ensures NodeOk(c.procs[j].node, Histories(c), Delivered(c, j), preload) {
      InitialCounts(cfgs, preload, j);
      InitialNodeOk(j, Histories(c), preload);
    }
    hide Initial;
    NodesIntro(c, preload);
  }

  /** The invariant holds in every state of every run from an initial state. */
  lemma {:induction false} RunKeeps(run: seq<System>, steps: seq<Step>, cfgs: seq<Config>, w: nat,
      preload: map<string, string>, t: nat)
    requires IsRun(run, steps) && |cfgs| == 4 && (forall i :: 1 <= i <= 3 ==> ConfigOk(cfgs[i], w))
    requires run[0] == Initial(cfgs, preload) && t < |run|
    ensures Inv(run[t], w, preload)
  {
    hide Inv, Enabled, Next, Initial, ConfigOk, Shape;
    if t == 0 {
      InitialInv(cfgs, w, preload);
    } else {
      RunKeeps(run, steps, cfgs, w, preload, t - 1);
      assert Enabled(run[t - 1], steps[t - 1]) && run[t - 1 + 1] == Next(run[t - 1], steps[t - 1]);
      StepKeeps(run[t - 1], steps[t - 1], w, preload);
    }
  }
}
