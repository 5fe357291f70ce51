/** The cross-node invariant behind agreement, and its preservation by every step. */
module Invariant {
  import opened Types
  import opened NodeSpec
  import opened LogView
  import opened Replication
  import opened Accounting
  import opened Cluster

  // -------------------------------------------------------------- the invariant

  ghost function Histories(c: System): (h: seq<seq<Message>>)
    requires |c.procs| == 4
    ensures |h| == 4 && forall i :: 0 <= i < 4 ==> h[i] == c.procs[i].proposed
  {
    [c.procs[0].proposed, c.procs[1].proposed, c.procs[2].proposed, c.procs[3].proposed]
  }

  function InFlight(p: Proc): nat {
    if p.phase.Outgoing? then |p.phase.batch| else 0
  }

  function Minus(a: nat, b: nat): nat {
    if a >= b then a - b else 0
  }

  /** How many proposals of i node j has handled. */
  ghost function DeliveredFrom(c: System, i: nat, j: nat): nat
    requires Shape(c) && i < 4 && j < 4
  {
    if i == j then Minus(|c.procs[i].proposed|, InFlight(c.procs[i]))
    else Minus(c.rings[i][j].tail, |c.procs[j].inHand[i]|)
  }

  ghost function Delivered(c: System, j: nat): (d: seq<nat>)
    requires Shape(c) && j < 4
    ensures |d| == 4 && forall i :: 0 <= i < 4 ==> d[i] == DeliveredFrom(c, i, j)
  {
    [DeliveredFrom(c, 0, j), DeliveredFrom(c, 1, j), DeliveredFrom(c, 2, j), DeliveredFrom(c, 3, j)]
  }

  /** Whether j is the first or the second peer i publishes to. */
  function PeerRank(i: nat, j: nat): nat {
    if j == (if i == 1 then 2 else 1) then 0 else 1
  }

  /** The proposals node i has published to j so far: all but a batch still to be sent. */
  function Published(p: Proc, i: nat, j: nat): nat {
    if p.phase.Outgoing? && p.phase.sent <= PeerRank(i, j) then Minus(|p.proposed|, |p.phase.batch|) else |p.proposed|
  }

  ghost predicate ConfigOk(cfg: Config, w: nat) {
    && cfg.window <= w && 1 <= cfg.batch && 3 * cfg.batch + 3 <= w && 1539 <= w <= 32767 && 1 <= cfg.recvMax
    && LoadOk(cfg.load, cfg.batch) && RequestsIn(cfg.load) < 0x100000000000000   // local ids have 56 bits
  }

  ghost predicate LoadOk(load: seq<Input>, batch: nat) {
    forall k :: 0 <= k < |load| && load[k].Chunk? ==> ChunkOk(load[k].drafts, batch)
  }

  /** The client side: what is left to submit, and where everything submitted went. */
  ghost predicate ClientOk(p: Proc) {
    && LoadOk(p.input, p.cfg.batch) && (p.phase.Waiting? ==> ChunkOk(p.phase.drafts, p.cfg.batch))
    && (p.node.prop.inputDone ==> p.input == [] && !p.phase.Waiting?)
    && p.node.prop.nextReq + Due(p) <= 0x100000000000000
    && p.submitted == Requests(p.proposed) + p.node.core.errors + |DraftsOf(p.phase)|
    && p.submitted + RequestsIn(p.input) + RejectsIn(p.input) == RequestsIn(p.cfg.load) + RejectsIn(p.cfg.load)
  }

  ghost predicate PropOk(p: Proposer, id: nat, h: seq<Message>) {
    && p.nextSeq == id + 3 * |h|
    && p.highest == (if |h| == 0 then 0 else p.nextSeq - 3)
    && p.nextReq == Requests(h) + 1 <= 0x100000000000000
  }

  /** An outgoing batch is the newest part of the node's history. */
  ghost predicate IsNewest(batch: seq<Message>, h: seq<Message>) {
    1 <= |batch| <= |h| && batch == h[|h| - |batch|..]
  }

  ghost predicate PhaseOk(ph: Phase, n: Node, h: seq<Message>) {
    match ph
    case Idle => true
    case Waiting(_) => true
    case Armed => n.prop.inputDone && n.prop.highest < n.core.next + 1536
    case Outgoing(batch, noop, reserved, sent) => IsNewest(batch, h) && sent <= 2 && (!reserved ==> sent == 0)
  }

  ghost predicate SenderOk(p: Proc, i: nat, w: nat) {
    && ConfigOk(p.cfg, w) && p.node.core.id == i
    && PropOk(p.node.prop, i, p.proposed) && PhaseOk(p.phase, p.node, p.proposed)
    && p.node.prop.nextSeq <= p.node.core.next + w + 2
    && ClientOk(p)
    && (p.finished ==> p.node.prop.inputDone && p.node.core.pendingCount == 0)
  }

  /** A ring holds the published prefix of the sender's history; the receiver's hand
      is its last drained part. */
  ghost predicate LinkOk(h: seq<Message>, published: nat, r: Ring, hand: seq<Message>) {
    && published <= |h| && r.sent == h[..published]
    && |hand| <= r.tail <= |r.sent| && hand == r.sent[r.tail - |hand|..r.tail]
  }

  ghost predicate ChannelOk(p: Proc, r: Ring, hand: seq<Message>, i: nat, j: nat) {
    LinkOk(p.proposed, Published(p, i, j), r, hand)
  }

  ghost predicate NodeOk(n: Node, hist: seq<seq<Message>>, del: seq<nat>, preload: map<string, string>) {
    && Represents(n, hist, del, preload) && n.core.next == Frontier(del)
    && 1 <= n.core.id <= 3 && Accounts(n.core, hist[n.core.id])
  }

  ghost predicate Senders(c: System, w: nat)
    requires Shape(c)
  {
    forall i :: 1 <= i <= 3 ==> SenderOk(c.procs[i], i, w)
  }

  ghost predicate Channels(c: System)
    requires Shape(c)
  {
    forall i, j :: 1 <= i <= 3 && 1 <= j <= 3 && i != j ==>
      ChannelOk(c.procs[i], c.rings[i][j], c.procs[j].inHand[i], i, j)
  }

  ghost predicate Nodes(c: System, preload: map<string, string>)
    requires Shape(c)
  {
    forall j :: 1 <= j <= 3 ==> NodeOk(c.procs[j].node, Histories(c), Delivered(c, j), preload)
  }

  ghost predicate Inv(c: System, w: nat, preload: map<string, string>) {
    Shape(c) && Senders(c, w) && Channels(c) && Nodes(c, preload)
  }

  // -------------------------------------------------- bounded skew

  /** No node executes past another node's next number, and next numbers stay within
      the window of their own node's execution point. */
  lemma {:induction false} BoundedSkew(c: System, w: nat, preload: map<string, string>, i: nat, j: nat)
    requires Inv(c, w, preload) && 1 <= i <= 3 && 1 <= j <= 3
    ensures c.procs[i].node.core.next <= c.procs[j].node.prop.nextSeq <= c.procs[j].node.core.next + w + 2
  {
    var del := Delivered(c, i);
    assert SenderOk(c.procs[j], j, w);
    assert NodeOk(c.procs[i].node, Histories(c), del, preload);
    FrontierBelow(del, j);
  }

  /** Every proposed number is less than 2W + 2 ahead of every node's execution point,
      hence inside the 65536-slot window. */
  lemma {:induction false} ProposedInWindow(c: System, w: nat, preload: map<string, string>, i: nat, j: nat, k: nat)
    requires Inv(c, w, preload) && 1 <= i <= 3 && 1 <= j <= 3 && k < |c.procs[i].proposed|
    ensures c.procs[i].proposed[k].sn < c.procs[j].node.core.next + 2 * w + 2 <= c.procs[j].node.core.next + 65536
  {
    hide Represents, IdsOk, CountersOk, PendingOk;
    assert c.procs[i].proposed[k].sn < c.procs[j].node.core.next + 2 * w + 2 by {
      assert c.procs[i].proposed[k].sn + 3 <= c.procs[i].node.prop.nextSeq by {
        assert SenderOk(c.procs[i], i, w);
        assert NodeOk(c.procs[i].node, Histories(c), Delivered(c, i), preload);
      }
      BoundedSkew(c, w, preload, i, i);
      BoundedSkew(c, w, preload, i, j);
    }
    assert SenderOk(c.procs[i], i, w);
  }

  // -------------------------------------------------- assignment

  /** The accounts after one more proposal, client request or no-op. */
  lemma {:induction false} AccountsAppend(c: Core, h: seq<Message>, m: Message, pending: seq<Pending>)
    requires Accounts(c, h) && HistoryOk(h + [m], c.id) && IdsOk(h + [m], c.id)
    requires Requests(h + [m]) < 0x100000000000000 && |h| + 1 < OwnBelow(c.id, c.next) + 65536
    requires PendingOk(pending, h + [m], OwnBelow(c.id, c.next))
    ensures var extra := if m.reqId != 0 then 1 else 0;
            Requests(h + [m]) == Requests(h) + extra &&
            Accounts(c.(pending := pending, pendingCount := c.pendingCount + extra), h + [m])
  {
    var h', d := h + [m], OwnBelow(c.id, c.next);
    assert h'[..|h|] == h && h'[..d] == h[..d];
  }

  /** The proposal a client request becomes, as far as the invariant is concerned. */
  lemma {:induction false} StampFits(n: Node, d: Draft)
    requires Sized(n) && IsClient(d)
    ensures var m := Stamp(n, MakeProposal(n.core.id, d), d.tsc);
            && m.kind == PROPOSAL && m.sn == n.prop.nextSeq && m.proposer == n.core.id
            && m.keyLen + m.valueLen <= 1088 == |m.data|
            && (m.op == 'G' || m.op == 'N' ==> m.keyLen == 0 && m.valueLen == 0)
            && m.reqId == n.core.id * 0x100000000000000 + n.prop.nextReq && m.startTsc == d.tsc
            && m.op == d.req.op
  {
  }

  lemma {:induction false} AssignOneKeeps(n: Node, h: seq<Message>, d: Draft)
    requires Sized(n) && Accounts(n.core, h) && PropOk(n.prop, n.core.id, h) && IsClient(d)
    requires Requests(h) + 1 < 0x100000000000000 && |h| + 1 < OwnBelow(n.core.id, n.core.next) + 65536
    ensures var h' := h + [Stamp(n, MakeProposal(n.core.id, d), d.tsc)];
            && Accounts(AssignOne(n, d).core, h') && PropOk(AssignOne(n, d).prop, n.core.id, h')
            && Requests(h') == Requests(h) + 1
  {
    hide OwnBelow, PendingSlot, MakeProposal, Stamp;
    var m, id := Stamp(n, MakeProposal(n.core.id, d), d.tsc), n.core.id;
    StampFits(n, d);
    var h', dd := h + [m], OwnBelow(id, n.core.next);
    assert Requests(h') == Requests(h) + 1 by {
      assert h'[..|h|] == h;
    }
    HistoryAppend(h, m, id);
    IdsAppend(h, m, id);
    assert PendingOk(AssignOne(n, d).core.pending, h', dd) by {
      PendingAppend(n.core.pending, h, m, id, dd);
      LocalId(id, n.prop.nextReq);
    }
    AccountsAppend(n.core, h, m, AssignOne(n, d).core.pending);
  }

  lemma {:induction false} HistoryAppend(h: seq<Message>, m: Message, i: nat)
    requires HistoryOk(h, i) && m.sn == i + 3 * |h|
    requires m.kind == PROPOSAL && m.proposer == i && m.keyLen + m.valueLen <= 1088 == |m.data|
    requires (m.op == 'G' || m.op == 'N' ==> m.keyLen == 0 && m.valueLen == 0) && OpFits(m.op, m.reqId)
    ensures HistoryOk(h + [m], i)
  {
  }

  lemma {:induction false} IdsAppend(h: seq<Message>, m: Message, id: nat)
    requires IdsOk(h, id) && (m.reqId != 0 ==> m.reqId == id * 0x100000000000000 + Requests(h) + 1)
    ensures IdsOk(h + [m], id)
  {
    var h' := h + [m];
    forall k | 0 <= k < |h'| && h'[k].reqId != 0
      ensures h'[k].reqId == id * 0x100000000000000 + Requests(h'[..k]) + 1
    {
      assert h'[..k] == h[..k];
      assert h[..|h|] == h;
    }
  }

  /** A new request never takes the slot of a live one. */
  lemma {:induction false} PendingAppend(pending: seq<Pending>, h: seq<Message>, m: Message, id: nat, d: nat)
    requires PendingOk(pending, h, d) && IdsOk(h + [m], id) && m.reqId != 0
    requires Requests(h) + 1 < 0x100000000000000 && |h| + 1 < d + 65536
    ensures PendingOk(pending[PendingSlot(m.reqId) := Pending(m.reqId, m.op, m.startTsc, false)], h + [m], d)
  {
    var h' := h + [m];
    assert h'[..|h|] == h;
    assert Requests(h') == Requests(h) + 1;
    var after := pending[PendingSlot(m.reqId) := Pending(m.reqId, m.op, m.startTsc, false)];
    forall k | d <= k < |h'| && h'[k].reqId != 0
      ensures after[PendingSlot(h'[k].reqId)] == Pending(h'[k].reqId, h'[k].op, h'[k].startTsc, false)
    {
      if k < |h| {
        LiveSlotsDistinct(h', id, k, |h|);
        assert h'[k] == h[k];
      }
    }
  }

  /** Assignment touches the allocation counters and the pending table only. */
  ghost predicate SameButPending(n: Node, r: Node) {
    && r.log == n.log && r.payloads == n.payloads && r.prop.inputDone == n.prop.inputDone
    && r.core == n.core.(pending := r.core.pending, pendingCount := r.core.pendingCount)
  }

  lemma {:induction false} StampedSnoc(n: Node, h: seq<Message>, ds: seq<Draft>)
    requires Sized(n) && ds != []
    ensures var front, d := ds[..|ds| - 1], ds[|ds| - 1];
            h + Stamped(n, ds) == (h + Stamped(n, front)) + [Stamp(AssignAll(n, front), MakeProposal(n.core.id, d),
              d.tsc)]
  {
  }

  lemma {:induction false} AssignAllKeeps(n: Node, h: seq<Message>, ds: seq<Draft>)
    requires Sized(n) && Accounts(n.core, h) && PropOk(n.prop, n.core.id, h)
    requires AllClient(ds)
    requires n.prop.nextReq + |ds| <= 0x100000000000000 && |h| + |ds| < OwnBelow(n.core.id, n.core.next) + 65536
    ensures var r, h' := AssignAll(n, ds), h + Stamped(n, ds);
            && Accounts(r.core, h') && PropOk(r.prop, n.core.id, h')
            && Requests(h') == Requests(h) + |ds| && SameButPending(n, r)
  {
    if ds == [] {
      assert h + Stamped(n, ds) == h;
    } else {
      var front, d := ds[..|ds| - 1], ds[|ds| - 1];
      var r, h' := AssignAll(n, front), h + Stamped(n, front);
      var m := Stamp(r, MakeProposal(n.core.id, d), d.tsc);
      AssignAllKeeps(n, h, front);
      assert SameButPending(n, AssignAll(n, ds));
      assert h + Stamped(n, ds) == h' + [m] by {
        StampedSnoc(n, h, ds);
      }
      AssignOneKeeps(r, h', d);
    }
  }

  lemma {:induction false} NoopKeeps(n: Node, h: seq<Message>)
    requires Accounts(n.core, h) && PropOk(n.prop, n.core.id, h) && |h| + 1 < OwnBelow(n.core.id, n.core.next) + 65536
    ensures var h' := h + [NoopProposal(n.core.id, n.prop.nextSeq)];
            Accounts(n.core, h') && PropOk(AssignNoop(n).prop, n.core.id, h') && Requests(h') == Requests(h)
  {
    hide OwnBelow;
    var m := NoopProposal(n.core.id, n.prop.nextSeq);
    var h' := h + [m];
    assert Requests(h') == Requests(h) by {
      assert h'[..|h|] == h;
    }
    HistoryAppend(h, m, n.core.id);
    IdsAppend(h, m, n.core.id);
    AccountsAppend(n.core, h, m, n.core.pending);
  }
}
