/** What the handlers make of messages that do not fit, come late or come twice
    (src/bandle.cpp:640-829), stated from the messages alone. */
module Handlers {
  import opened Types
  import opened NodeSpec
  import opened Accounting

  /** A promise counts only with value 1, a non-zero promise and a sender of the cluster. */
  lemma {:induction false} InvalidPromise(n: Node, m: Message)
    requires Sized(n) && (m.value != 1 || m.promise == 0 || m.sender < 1 || m.sender > 3)
    ensures HandleP1(n, m) == n
  {
  }

  /** A proposal whose announced bytes exceed the buffer is recorded as a no-op and leaves the
      payload buffers alone. */
  lemma {:induction false} OversizeIsNoop(n: Node, m: Message)
    requires Sized(n) && m.keyLen + m.valueLen > 1088 && !(n.log[m.sn % 65536].sn == m.sn && n.log[m.sn % 65536].known)
    requires m.op != 'G'
    ensures var r := HandleProposal(n, m);
            var e := r.log[m.sn % 65536];
            && r.payloads == n.payloads && r.core == n.core && r.prop == n.prop
            && e.sn == m.sn && e.known && e.decided && e.decision == 1
            && e.op == 'N' && e.keyLen == 0 && e.valueLen == 0
  {
  }

  /** The first proposal for a number stands: a second one, whatever it carries, changes nothing. */
  lemma {:induction false} FirstProposalStands(n: Node, a: Message, b: Message)
    requires Sized(n) && a.sn == b.sn
    ensures HandleProposal(HandleProposal(n, a), b) == HandleProposal(n, a)
  {
    var r := HandleProposal(n, a);
    assert r.log[a.sn % 65536].known && r.log[a.sn % 65536].sn == a.sn;
    assert r.log[a.sn % 65536 := r.log[a.sn % 65536]] == r.log;
    assert r.payloads[a.sn % 65536 := r.payloads[a.sn % 65536]] == r.payloads;
  }

  /** A decision stands: deciding a decided number again, with any value, changes nothing. */
  lemma {:induction false} DecisionStands(n: Node, sn: nat, value: nat)
    requires Sized(n) && n.log[sn % 65536].sn == sn && n.log[sn % 65536].decided
    ensures Decide(n, sn, value) == n
  {
    assert n.log[sn % 65536 := n.log[sn % 65536]] == n.log;
    hide Advance;
  }

  /** A decided entry is passed over without effect unless its decision is 1. */
  lemma {:induction false} OtherDecisionSkipped(c: Core, s: Slot)
    requires |c.pending| == 65536 && s.e.decision != 1
    ensures var r := Complete(c, s);
            r == c.(next := c.next + 1, executed := r.executed)
  {
  }

  /** Executing an entry answers a pending request exactly when the entry is the node's own,
      carries a request id, and the slot of the pending table still waits for that id. */
  lemma {:induction false} AnswersExactly(c: Core, s: Slot)
    requires |c.pending| == 65536
    ensures var r, p := Complete(c, s), c.pending[PendingSlot(s.e.reqId)];
            var answers := s.e.decision == 1 && s.e.proposer == c.id && s.e.reqId != 0 && p.id == s.e.reqId && !p.done;
            && r.ok == c.ok + (if answers then 1 else 0) && r.total == c.total + (if answers then 1 else 0)
            && r.readOps == c.readOps + (if answers && p.op == 'G' then 1 else 0)
            && r.writeOps == c.writeOps + (if answers && p.op != 'G' then 1 else 0)
            && r.pending == (if answers then c.pending[PendingSlot(s.e.reqId) := p.(done := true)] else c.pending)
            && r.errors == c.errors
  {
    hide Apply, Take;
  }

  /** Neither handler executes anything when the number decided is not the next one. */
  lemma {:induction false} DecidedAhead(n: Node, sn: nat, e: LogEntry)
    requires Sized(n) && !Ready(n) && n.core.next < sn < n.core.next + 65536
    ensures !Ready(n.(log := n.log[sn % 65536 := e]))
  {
    assert sn % 65536 != n.core.next % 65536;
  }

  /** A decision ahead of execution is recorded with the value it came with, by either handler,
      unless the number was decided before. */
  lemma {:induction false} DecisionRecorded(n: Node, m: Message)
    requires Sized(n) && !Ready(n) && n.core.next < m.sn < n.core.next + 65536
    requires !(n.log[m.sn % 65536].sn == m.sn && n.log[m.sn % 65536].decided)
    ensures HandleDecide(n, m) == Decide(n, m.sn, m.value)
    ensures var r := HandleDecide(n, m);
            var e := r.log[m.sn % 65536];
            && r.core == n.core && e.sn == m.sn && e.decided && e.decision == m.value
            && forall x :: 0 <= x < 65536 && x != m.sn % 65536 ==> r.log[x] == n.log[x]
  {
    DecidedAhead(n, m.sn, Settle(Claim(n.log[m.sn % 65536], m.sn), m.value));
    hide Ready;
  }
}
