/** Request accounting at one node: every assigned client request is pending until
    its number is executed here, then counted once (src/bandle.cpp:214-221, 274-284, 797-822). */
module Accounting {
  import opened Types
  import opened NodeSpec
  import opened LogView
  import opened Replication

  /** Client requests, and among them reads, in a proposal history. */
  function Requests(h: seq<Message>): nat {
    if h == [] then 0 else Requests(h[..|h| - 1]) + if h[|h| - 1].reqId != 0 then 1 else 0
  }

  function ReadRequests(h: seq<Message>): nat {
    if h == [] then 0
    else ReadRequests(h[..|h| - 1]) + if h[|h| - 1].reqId != 0 && h[|h| - 1].op == 'G' then 1 else 0
  }

  lemma {:induction false} RequestsBetween(h: seq<Message>, a: nat, b: nat)
    requires a <= b <= |h|
    ensures Requests(h[..a]) <= Requests(h[..b]) <= Requests(h[..a]) + (b - a)
    ensures a < b && h[a].reqId != 0 ==> Requests(h[..a]) < Requests(h[..b])
    decreases b - a
  {
    if a < b {
      assert h[..b][..b - 1] == h[..b - 1];
      RequestsBetween(h, a, b - 1);
    }
  }

  lemma {:induction false} RequestsStep(h: seq<Message>, k: nat)
    requires k < |h|
    ensures Requests(h[..k + 1]) == Requests(h[..k]) + if h[k].reqId != 0 then 1 else 0
    ensures ReadRequests(h[..k + 1]) == ReadRequests(h[..k]) + if h[k].reqId != 0 && h[k].op == 'G' then 1 else 0
  {
    assert h[..k + 1][..k] == h[..k];
  }

  /** How many of node `id`'s own numbers lie below `next`. */
  function OwnBelow(id: nat, next: nat): nat
    requires 1 <= id <= 3 && 1 <= next
  {
    if next <= id then 0 else (next - id + 2) / 3
  }

  lemma {:induction false} OwnBelowMeaning(id: nat, next: nat, k: nat)
    requires 1 <= id <= 3 && 1 <= next
    ensures id + 3 * k < next <==> k < OwnBelow(id, next)
  {
  }

  lemma {:induction false} OwnBelowStep(id: nat, next: nat)
    requires 1 <= id <= 3 && 1 <= next
    ensures OwnBelow(id, next + 1) == OwnBelow(id, next) + if Owner(next) == id then 1 else 0
    ensures Owner(next) == id ==> Index(next) == OwnBelow(id, next) && next == id + 3 * Index(next)
  {
    Numbering(next);
  }

  function PendingSlot(reqId: nat): nat {
    (reqId % 0x100000000000000) % 65536
  }

  lemma {:induction false} LocalId(id: nat, l: nat)
    requires l < 0x100000000000000
    ensures PendingSlot(id * 0x100000000000000 + l) == l % 65536
  {
    assert (id * 0x100000000000000 + l) % 0x100000000000000 == l;
  }

  /** Request ids count the node's client requests: `(node_id << 56) | local`. */
  ghost predicate IdsOk(h: seq<Message>, id: nat) {
    forall k :: 0 <= k < |h| && h[k].reqId != 0 ==> h[k].reqId == id * 0x100000000000000 + Requests(h[..k]) + 1
  }

  /** Requests with index `d` and up still own their slot of the pending table. */
  ghost predicate PendingOk(pending: seq<Pending>, h: seq<Message>, d: nat) {
    && |pending| == 65536
    && forall k :: d <= k < |h| && h[k].reqId != 0 ==>
                     pending[PendingSlot(h[k].reqId)] == Pending(h[k].reqId, h[k].op, h[k].startTsc, false)
  }

  ghost predicate CountersOk(c: Core, h: seq<Message>, d: nat)
    requires d <= |h|
  {
    && c.pendingCount == Requests(h) - Requests(h[..d])
    && c.ok == Requests(h[..d])
    && c.readOps == c.readSamples == ReadRequests(h[..d])
    && c.ok == c.readOps + c.writeOps
    && c.writeSamples == c.writeOps
    && c.total == c.ok + c.errors
  }

  ghost predicate Accounts(c: Core, h: seq<Message>) {
    && 1 <= c.id <= 3 && 1 <= c.next <= c.id + 3 * |h|
    && HistoryOk(h, c.id) && IdsOk(h, c.id) && Requests(h) < 0x100000000000000
    && (var d := OwnBelow(c.id, c.next);
        d <= |h| < d + 65536 && PendingOk(c.pending, h, d) && CountersOk(c, h, d))
  }

  lemma {:induction false} LocalSlotsApart(id: nat, a: nat, b: nat)
    requires a < b < 0x100000000000000 && b < a + 65536
    ensures PendingSlot(id * 0x100000000000000 + a) != PendingSlot(id * 0x100000000000000 + b)
  {
    LocalId(id, a);
    LocalId(id, b);
  }

  /** Two live requests never share a pending slot. */
  lemma {:induction false} LiveSlotsDistinct(h: seq<Message>, id: nat, j: nat, k: nat)
    requires j < k < |h| < j + 65536 && h[j].reqId != 0 && h[k].reqId != 0
    requires IdsOk(h, id) && Requests(h) < 0x100000000000000
    ensures PendingSlot(h[j].reqId) != PendingSlot(h[k].reqId)
  {
    hide PendingSlot;
    RequestsBetween(h, j, k);
    RequestsBetween(h, k, |h|);
    assert h[..|h|] == h;
    LocalSlotsApart(id, Requests(h[..j]) + 1, Requests(h[..k]) + 1);
  }

  lemma {:induction false} PendingKept(pending: seq<Pending>, h: seq<Message>, id: nat, d: nat, p: Pending)
    requires d < |h| < d + 65536 && h[d].reqId != 0 && PendingOk(pending, h, d)
    requires IdsOk(h, id) && Requests(h) < 0x100000000000000
    ensures PendingOk(pending[PendingSlot(h[d].reqId) := p], h, d + 1)
  {
    var after := pending[PendingSlot(h[d].reqId) := p];
    forall k | d + 1 <= k < |h| && h[k].reqId != 0
      ensures after[PendingSlot(h[k].reqId)] == Pending(h[k].reqId, h[k].op, h[k].startTsc, false)
    {
      LiveSlotsDistinct(h, id, d, k);
    }
  }

  predicate WellFormed(m: Message) {
    && m.kind == PROPOSAL && m.keyLen + m.valueLen <= 1088 <= |m.data|
    && (m.op == 'G' || m.op == 'N' ==> m.keyLen == 0 && m.valueLen == 0)
  }

  /** Executing a proposal that is no live request of this node changes no count. */
  lemma {:induction false} CompleteSilent(c: Core, m: Message)
    requires |c.pending| == 65536 && WellFormed(m) && (m.proposer != c.id || m.reqId == 0)
    ensures var r := Complete(c, SlotOf(m));
            r == c.(next := c.next + 1, executed := r.executed, store := r.store)
  {
    CommandOfProposal(m);
  }

  /** Executing a live request of this node completes it. */
  lemma {:induction false} CompleteRequest(c: Core, m: Message)
    requires |c.pending| == 65536 && WellFormed(m) && m.proposer == c.id && m.reqId != 0 && c.pendingCount > 0
    requires c.pending[PendingSlot(m.reqId)] == Pending(m.reqId, m.op, m.startTsc, false)
    ensures var r, g := Complete(c, SlotOf(m)), if m.op == 'G' then 1 else 0;
            r == c.(next := c.next + 1, executed := r.executed, store := r.store,
                    pending := c.pending[PendingSlot(m.reqId) := Pending(m.reqId, m.op, m.startTsc, true)],
                    pendingCount := c.pendingCount - 1, ok := c.ok + 1, total := c.total + 1,
                    readOps := c.readOps + g, readSamples := c.readSamples + g,
                    writeOps := c.writeOps + 1 - g, writeSamples := c.writeSamples + 1 - g)
  {
    CommandOfProposal(m);
  }

  /** How executing the node's own proposal `m` moves the counters. */
  predicate Counted(c: Core, r: Core, m: Message) {
    var one := if m.reqId != 0 then 1 else 0;
    var g := if m.op == 'G' then one else 0;
    && r.id == c.id && r.next == c.next + 1
    && r.pendingCount == c.pendingCount - one && r.ok == c.ok + one && r.total == c.total + one && r.errors == c.errors
    && r.readOps == c.readOps + g && r.readSamples == c.readSamples + g
    && r.writeOps == c.writeOps + one - g && r.writeSamples == c.writeSamples + one - g
  }

  lemma {:induction false} CountersStep(c: Core, r: Core, h: seq<Message>, d: nat)
    requires d < |h| && CountersOk(c, h, d) && Counted(c, r, h[d])
    ensures CountersOk(r, h, d + 1)
  {
    RequestsStep(h, d);
    RequestsBetween(h, d + 1, |h|);
    assert h[..|h|] == h;
  }

  lemma {:induction false} CompleteOwn(c: Core, h: seq<Message>, d: nat)
    requires d < |h| < d + 65536 && WellFormed(h[d]) && h[d].proposer == c.id
    requires PendingOk(c.pending, h, d) && IdsOk(h, c.id) && Requests(h) < 0x100000000000000 && CountersOk(c, h, d)
    ensures Counted(c, Complete(c, SlotOf(h[d])), h[d]) && PendingOk(Complete(c, SlotOf(h[d])).pending, h, d + 1)
  {
    hide SlotOf, Complete, IdsOk;
    if h[d].reqId == 0 {
      CompleteSilent(c, h[d]);
    } else {
      RequestsBetween(h, d, |h|);
      assert h[..|h|] == h;
      CompleteRequest(c, h[d]);
      PendingKept(c.pending, h, c.id, d, Pending(h[d].reqId, h[d].op, h[d].startTsc, true));
    }
  }

  /** Executing one's own request number completes exactly that pending request. */
  lemma {:induction false} AccountOwn(c: Core, h: seq<Message>)
    requires Accounts(c, h) && Owner(c.next) == c.id && Index(c.next) < |h|
    ensures Accounts(Complete(c, SlotOf(h[Index(c.next)])), h)
  {
    hide SlotOf, Complete, OwnBelow, Owner, Index, IdsOk, CountersOk;
    var d := OwnBelow(c.id, c.next);
    OwnBelowStep(c.id, c.next);
    CompleteOwn(c, h, d);
    CountersStep(c, Complete(c, SlotOf(h[d])), h, d);
  }

  lemma {:induction false} AccountOther(c: Core, h: seq<Message>, m: Message)
    requires Accounts(c, h) && Owner(c.next) != c.id && c.next < c.id + 3 * |h| && WellFormed(m) && m.proposer != c.id
    ensures Accounts(Complete(c, SlotOf(m)), h)
  {
    hide SlotOf, Complete, OwnBelow, Owner, Index;
    OwnBelowStep(c.id, c.next);
    CompleteSilent(c, m);
  }

  lemma {:induction false} AccountNext(c: Core, hist: seq<seq<Message>>)
    requires 1 <= c.id <= 3 && HistoriesOk(hist) && Accounts(c, hist[c.id])
    requires Proposed(hist, c.next) && c.next < c.id + 3 * |hist[c.id]|
    ensures Accounts(Complete(c, SlotOf(ProposalOf(hist, c.next))), hist[c.id])
  {
    Numbering(c.next);
    assert c.next >= 1;
    if Owner(c.next) == c.id {
      AccountOwn(c, hist[c.id]);
    } else {
      AccountOther(c, hist[c.id], ProposalOf(hist, c.next));
    }
  }

  /** Executing keeps both the meaning of the state and the accounts. */
  lemma {:induction false} ExecKeeps(n: Node, hist: seq<seq<Message>>, del: seq<nat>, preload: map<string, string>)
    requires Represents(n, hist, del, preload) && Ready(n) && 1 <= n.core.id <= 3 && Accounts(n.core, hist[n.core.id])
    ensures Represents(ExecOne(n), hist, del, preload) && Accounts(ExecOne(n).core, hist[n.core.id])
  {
    assert Accounts(ExecOne(n).core, hist[n.core.id]) by {
      ReadyMeansDelivered(n, hist, del);
      FrontierBelow(del, n.core.id);
      AccountNext(n.core, hist);
    }
    ExecRepresents(n, hist, del, preload);
  }

  /** After `advance_execute_locked` the frontier is exact: every delivered gap-free
      number has been executed, once, and nothing else. */
  lemma {:induction false} AdvanceKeeps(n: Node, hist: seq<seq<Message>>, del: seq<nat>, preload: map<string, string>)
    requires Represents(n, hist, del, preload) && 1 <= n.core.id <= 3 && Accounts(n.core, hist[n.core.id])
    ensures var r := Advance(n);
            && Represents(r, hist, del, preload) && Accounts(r.core, hist[n.core.id])
            && r.core.next == Frontier(del) && r.core.id == n.core.id
            && n.core.executed <= r.core.executed && n.core.next <= r.core.next && r.core.errors == n.core.errors
    decreases CountDecided(n.log)
  {
    hide LogMatches, ExecutedMatches, Accounts, HistoriesOk;
    ReadyMeansDelivered(n, hist, del);
    if Ready(n) {
      ExecKeeps(n, hist, del, preload);
      ClearingLowersCount(n.log, n.core.next % 65536, BlankEntry(0));
      AdvanceKeeps(ExecOne(n), hist, del, preload);
    }
  }

  /** Pending requests only become fewer as execution moves on. */
  lemma {:induction false} PendingFalls(c: Core, r: Core, h: seq<Message>)
    requires Accounts(c, h) && Accounts(r, h) && c.id == r.id && c.next <= r.next
    ensures r.pendingCount <= c.pendingCount
  {
    hide IdsOk, HistoryOk, PendingOk;
    RequestsBetween(h, OwnBelow(c.id, c.next), OwnBelow(r.id, r.next));
  }
}
