/** What one replica's state means in terms of the proposal histories of the three
    nodes, and how recording and executing keep that meaning. */
module Replication {
  import opened Types
  import opened NodeSpec
  import opened LogView

  // -------------------------------------- ownership of sequence numbers

  function Owner(s: nat): nat
    requires 1 <= s
  {
    (s - 1) % 3 + 1
  }

  function Index(s: nat): nat
    requires 1 <= s
  {
    (s - 1) / 3
  }

  lemma {:induction false} Numbering(s: nat)
    requires 1 <= s
    ensures 1 <= Owner(s) <= 3 && s == Owner(s) + 3 * Index(s)
  {
  }

  lemma {:induction false} NumberingInverse(i: nat, k: nat)
    requires 1 <= i <= 3
    ensures Owner(i + 3 * k) == i && Index(i + 3 * k) == k
  {
  }

  /** The first number not covered when `del[i]` proposals of each node i are delivered. */
  function Frontier(del: seq<nat>): nat
    requires |del| == 4
  {
    AtMost(1 + 3 * del[1], AtMost(2 + 3 * del[2], 3 + 3 * del[3]))
  }

  lemma {:induction false} FrontierBelow(del: seq<nat>, i: nat)
    requires |del| == 4 && 1 <= i <= 3
    ensures Frontier(del) <= i + 3 * del[i]
  {
  }

  lemma {:induction false} FrontierMeaning(del: seq<nat>, s: nat)
    requires |del| == 4 && 1 <= s
    ensures 1 <= Owner(s) <= 3
    ensures s < Frontier(del) ==> Index(s) < del[Owner(s)]
    ensures s == Frontier(del) ==> del[Owner(s)] == Index(s)
    ensures del[Owner(s)] <= Index(s) ==> Frontier(del) <= s
  {
    Numbering(s);
  }

  // ---------------------------------------------- proposal histories

  /** The k-th proposal of node i carries number i + 3k, fits a payload buffer, and is a
      client operation or a no-op. */
  ghost predicate HistoryOk(h: seq<Message>, i: nat) {
    forall k :: 0 <= k < |h| ==>
                  && h[k].kind == PROPOSAL && h[k].sn == i + 3 * k && h[k].proposer == i
                  && h[k].keyLen + h[k].valueLen <= 1088 == |h[k].data|
                  && (h[k].op == 'G' || h[k].op == 'N' ==> h[k].keyLen == 0 && h[k].valueLen == 0)
                  && OpFits(h[k].op, h[k].reqId)
  }

  /** A proposal without a request id is a no-op, one with an id a client operation. */
  predicate OpFits(op: char, reqId: nat) {
    if reqId == 0 then op == 'N' else op == 'G' || op == 'P' || op == 'U' || op == 'D'
  }

  ghost predicate HistoriesOk(hist: seq<seq<Message>>) {
    |hist| == 4 && forall i :: 1 <= i <= 3 ==> HistoryOk(hist[i], i)
  }

  ghost predicate Proposed(hist: seq<seq<Message>>, s: nat)
    requires |hist| == 4
  {
    1 <= s && (Numbering(s); Index(s) < |hist[Owner(s)]|)
  }

  ghost function ProposalOf(hist: seq<seq<Message>>, s: nat): Message
    requires |hist| == 4 && Proposed(hist, s)
  {
    Numbering(s);
    hist[Owner(s)][Index(s)]
  }

  function SlotOf(m: Message): Slot {
    After(Slot(BlankEntry(m.sn), ""), m)
  }

  /** The command a proposal stands for: its own op, key and value bytes. */
  lemma {:induction false} CommandOfProposal(m: Message)
    requires m.kind == PROPOSAL && m.keyLen + m.valueLen <= 1088 <= |m.data|
    requires m.op == 'G' || m.op == 'N' ==> m.keyLen == 0 && m.valueLen == 0
    ensures var c := CommandOf(SlotOf(m));
            && c.sn == m.sn && c.op == m.op && c.proposer == m.proposer && c.reqId == m.reqId
            && c.key == m.data[..m.keyLen]
            && c.value == if m.op == 'D' then "" else m.data[m.keyLen..m.keyLen + m.valueLen]
  {
    var bytes := m.data[..m.keyLen + m.valueLen];
    assert Carries(m) ==> SlotOf(m).bytes == bytes;
    assert bytes[..m.keyLen] == m.data[..m.keyLen];
    assert bytes[m.keyLen..] == m.data[m.keyLen..m.keyLen + m.valueLen];
  }

  // ------------------------------------------------ one replica's state

  ghost predicate Counts(hist: seq<seq<Message>>, del: seq<nat>) {
    HistoriesOk(hist) && |del| == 4 && forall i :: 1 <= i <= 3 ==> del[i] <= |hist[i]|
  }

  /** Window number `s` has an entry exactly if its proposal is delivered, and then
      the entry is that proposal. */
  ghost predicate EntryMatches(n: Node, hist: seq<seq<Message>>, del: seq<nat>, s: nat)
    requires Sized(n) && Counts(hist, del) && 1 <= s
  {
    Numbering(s);
    && (n.log[s % 65536].sn == s <==> Index(s) < del[Owner(s)])
    && (Index(s) < del[Owner(s)] ==> SlotAt(n, s) == SlotOf(ProposalOf(hist, s)))
  }

  /** No slot holds anything but a number of the window that belongs there. */
  ghost predicate Clean(log: seq<LogEntry>, next: nat) {
    && |log| == 65536
    && forall x :: 0 <= x < 65536 ==>
                     log[x] == BlankEntry(0) || (next <= log[x].sn < next + 65536 && log[x].sn % 65536 == x)
  }

  ghost predicate LogMatches(n: Node, hist: seq<seq<Message>>, del: seq<nat>)
    requires Sized(n) && Counts(hist, del) && 1 <= n.core.next
  {
    && (forall s :: n.core.next <= s < n.core.next + 65536 ==> EntryMatches(n, hist, del, s))
    && (forall i :: 1 <= i <= 3 ==> i + 3 * del[i] < n.core.next + 65536 + 3)
    && Clean(n.log, n.core.next)
  }

  lemma {:induction false} CleanRecord(n: Node, m: Message)
    requires Sized(n) && Clean(n.log, n.core.next) && n.core.next <= m.sn < n.core.next + 65536
    ensures Clean(HandleProposal(n, m).log, n.core.next)
  {
  }

  lemma {:induction false} CleanExec(n: Node)
    requires Sized(n) && Clean(n.log, n.core.next)
    ensures Clean(ExecOne(n).log, n.core.next + 1)
  {
    hide Complete, SlotAt;
  }

  /** The executed history is proposals 1, 2, 3, ... and the store is their fold. */
  ghost predicate ExecutedMatches(c: Core, hist: seq<seq<Message>>, preload: map<string, string>)
    requires |hist| == 4
  {
    && 1 <= c.next && |c.executed| == c.next - 1
    && (forall s :: 1 <= s < c.next ==>
      Proposed(hist, s) && c.executed[s - 1] == CommandOf(SlotOf(ProposalOf(hist, s))))
    && c.store == ApplyAll(preload, c.executed)
  }

  ghost predicate LogRepresents(n: Node, hist: seq<seq<Message>>, del: seq<nat>) {
    Sized(n) && Counts(hist, del) && 1 <= n.core.next <= Frontier(del) && LogMatches(n, hist, del)
  }

  ghost predicate Represents(n: Node, hist: seq<seq<Message>>, del: seq<nat>, preload: map<string, string>) {
    LogRepresents(n, hist, del) && ExecutedMatches(n.core, hist, preload)
  }

  ghost predicate Extends(hist: seq<seq<Message>>, more: seq<seq<Message>>) {
    |hist| == 4 && |more| == 4 && forall i :: 1 <= i <= 3 ==> hist[i] <= more[i]
  }

  /** New proposals elsewhere do not disturb a replica. */
  lemma {:induction false} HistoryGrows(n: Node, hist: seq<seq<Message>>, more: seq<seq<Message>>, del: seq<nat>,
      preload: map<string,
      string>)
    requires Represents(n, hist, del, preload) && Extends(hist, more) && HistoriesOk(more)
    ensures Represents(n, more, del, preload)
  {
    forall s | Proposed(hist, s) ensures Proposed(more, s) && ProposalOf(more, s) == ProposalOf(hist, s) {
      Numbering(s);
    }
    forall s | n.core.next <= s < n.core.next + 65536
      ensures EntryMatches(n, more, del, s)
    {
      Numbering(s);
      assert EntryMatches(n, hist, del, s);
      if Index(s) < del[Owner(s)] {
        assert Proposed(hist, s);
      }
    }
  }

  lemma {:induction false} RecordedSlot(n: Node, m: Message)
    requires Sized(n) && m.kind == PROPOSAL && (Carries(m) ==>
             m.keyLen + m.valueLen <= |m.data|) && n.log[m.sn % 65536].sn != m.sn
    ensures SlotAt(HandleProposal(n, m), m.sn) == SlotOf(m)
  {
    if Carries(m) {
      var bytes := Take(m.data, m.keyLen + m.valueLen);
      var buf := n.payloads[m.sn % 65536];
      assert Overlay(buf, bytes)[..|bytes|] == bytes;
    }
  }

  lemma {:induction false} HistoryAt(h: seq<Message>, i: nat, k: nat)
    requires HistoryOk(h, i) && k < |h|
    ensures h[k].sn == i + 3 * k
  {
  }

  lemma {:induction false} RecordKeepsCore(n: Node, m: Message)
    requires Sized(n)
    ensures HandleProposal(n, m).core == n.core
  {
  }

  lemma {:induction false} DeliverEntry(n: Node, hist: seq<seq<Message>>, del: seq<nat>, i: nat, s: nat)
    requires Sized(n) && Counts(hist, del) && 1 <= i <= 3 && del[i] < |hist[i]| && 1 <= n.core.next <= s
    requires EntryMatches(n, hist, del, s)
    requires s != i + 3 * del[i] ==> s % 65536 != (i + 3 * del[i]) % 65536
    ensures EntryMatches(HandleProposal(n, hist[i][del[i]]), hist, del[i := del[i] + 1], s)
  {
    var m := hist[i][del[i]];
    NumberingInverse(i, del[i]);
    Numbering(s);
    if s == m.sn {
      RecordedSlot(n, m);
    }
  }

  /** Recording the next proposal of node i, inside the window, leaves every other
      window entry alone. */
  lemma {:induction false} DeliverOne(n: Node, hist: seq<seq<Message>>, del: seq<nat>, i: nat)
    requires LogRepresents(n, hist, del) && 1 <= i <= 3 && del[i] < |hist[i]|
    requires i + 3 * del[i] < n.core.next + 65536
    ensures LogRepresents(HandleProposal(n, hist[i][del[i]]), hist, del[i := del[i] + 1])
  {
    hide HandleProposal, HistoryOk;
    var r, after := HandleProposal(n, hist[i][del[i]]), del[i := del[i] + 1];
    assert r.core == n.core by {
      RecordKeepsCore(n, hist[i][del[i]]);
    }
    assert Frontier(after) >= Frontier(del);
    FrontierBelow(del, i);
    CleanRecord(n, hist[i][del[i]]) by {
      HistoryAt(hist[i], i, del[i]);
    }
    hide Clean;
    forall s | n.core.next <= s < n.core.next + 65536 ensures EntryMatches(r, hist, after, s) {
      if s != i + 3 * del[i] {
        assert Frontier(del) <= i + 3 * del[i];
        SlotsDistinct(n.core.next, s, i + 3 * del[i]);
      }
      DeliverEntry(n, hist, del, i, s);
    }
  }

  /** Whatever slot an undelivered proposal maps to is blank: a delivery never resets
      a slot holding another unexecuted number. */
  lemma {:induction false} SlotIsBlank(n: Node, hist: seq<seq<Message>>, del: seq<nat>, i: nat, k: nat)
    requires LogRepresents(n, hist, del) && 1 <= i <= 3 && del[i] <= k < |hist[i]|
    requires i + 3 * k < n.core.next + 65536
    ensures n.log[hist[i][k].sn % 65536] == BlankEntry(0)
  {
    var sn := hist[i][k].sn;
    HistoryAt(hist[i], i, k);
    NumberingInverse(i, k);
    FrontierBelow(del, i);
    assert EntryMatches(n, hist, del, sn);
    var held := n.log[sn % 65536];
    if held != BlankEntry(0) {
      SlotsDistinct(n.core.next, held.sn, sn);
      assert false;
    }
  }

  lemma {:induction false} UpdateTwice(del: seq<nat>, i: nat, a: nat, b: nat)
    requires i < |del|
    ensures del[i := a][i := b] == del[i := b]
  {
  }

  /** Recording proposals `del[i]` up to `b` of node i. */
  lemma {:induction false} DeliverMany(n: Node, hist: seq<seq<Message>>, del: seq<nat>, i: nat, b: nat)
    requires LogRepresents(n, hist, del) && 1 <= i <= 3 && del[i] <= b <= |hist[i]|
    requires b > del[i] ==> i + 3 * (b - 1) < n.core.next + 65536
    ensures LogRepresents(RecordAll(n, hist[i][del[i]..b]), hist, del[i := b])
  {
    hide LogMatches, HistoryOk, HandleProposal, Frontier;
    if b == del[i] {
      assert hist[i][del[i]..b] == [];
      assert del[i := b] == del;
    } else {
      DeliverMany(n, hist, del, i, b - 1);
      RecordAllSnoc(n, hist[i], del[i], b - 1);
      UpdateTwice(del, i, b - 1, b);
      DeliverOne(RecordAll(n, hist[i][del[i]..b - 1]), hist, del[i := b - 1], i);
    }
  }

  // ------------------------------------------------------- execution

  lemma {:induction false} ExecEntry(n: Node, hist: seq<seq<Message>>, del: seq<nat>, s: nat)
    requires Sized(n) && Counts(hist, del) && 1 <= n.core.next < s <= n.core.next + 65536
    requires s < n.core.next + 65536 ==> EntryMatches(n, hist, del, s)
    requires forall i :: 1 <= i <= 3 ==> i + 3 * del[i] < n.core.next + 65536 + 3
    ensures EntryMatches(ExecOne(n), hist, del, s)
  {
    var k := n.core.next;
    Numbering(s);
    if s < k + 65536 {
      SlotsDistinct(k, s, k);
      assert SlotAt(ExecOne(n), s) == SlotAt(n, s);
    } else {
      assert s % 65536 == k % 65536;
    }
  }

  lemma {:induction false} ExecutedGrows(c: Core, hist: seq<seq<Message>>, preload: map<string, string>)
    requires HistoriesOk(hist) && |c.pending| == 65536 && ExecutedMatches(c, hist, preload) && Proposed(hist, c.next)
    ensures ExecutedMatches(Complete(c, SlotOf(ProposalOf(hist, c.next))), hist, preload)
  {
    var sl := SlotOf(ProposalOf(hist, c.next));
    Numbering(c.next);
    assert sl.e.decision == 1;
    var r := Complete(c, sl);
    assert r.executed == c.executed + [CommandOf(sl)];
    assert r.executed[..|c.executed|] == c.executed;
  }

  lemma {:induction false} ReadyMeansDelivered(n: Node, hist: seq<seq<Message>>, del: seq<nat>)
    requires LogRepresents(n, hist, del)
    ensures Ready(n) <==> n.core.next < Frontier(del)
    ensures Ready(n) ==> Proposed(hist, n.core.next) && SlotAt(n, n.core.next) == SlotOf(ProposalOf(hist, n.core.next))
  {
    var k := n.core.next;
    FrontierMeaning(del, k);
    Numbering(k);
    assert EntryMatches(n, hist, del, k);
    if Index(k) < del[Owner(k)] {
      var m := ProposalOf(hist, k);
      assert m.sn == k && SlotOf(m).e == SlotAt(n, k).e;
    }
  }

  lemma {:induction false} ExecRepresents(n: Node, hist: seq<seq<Message>>, del: seq<nat>, preload: map<string, string>)
    requires Represents(n, hist, del, preload) && Ready(n)
    ensures Represents(ExecOne(n), hist, del, preload)
  {
    ReadyMeansDelivered(n, hist, del);
    ExecutedGrows(n.core, hist, preload);
    CleanExec(n);
    hide Clean;
    forall s | n.core.next < s <= n.core.next + 65536 ensures EntryMatches(ExecOne(n), hist, del, s) {
      ExecEntry(n, hist, del, s);
    }
  }
}
