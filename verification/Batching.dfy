/** Chunked handling with deferred execution is the same as handling one message at
    a time, and vote messages do not influence what is executed. */
module Batching {
  import opened Types
  import opened NodeSpec
  import opened LogView

  /** Traffic a replica can meet: numbers of one window, value-1 decisions. */
  ghost predicate InWindow(ms: seq<Message>, lo: nat) {
    forall i :: 0 <= i < |ms| ==> lo <= ms[i].sn < lo + 65536 && Sendable(ms[i])
  }

  ghost predicate Healthy(n: Node, lo: nat) {
    Sized(n) && LogOk(n) && Bounded(n, lo + 65536) && lo <= n.core.next
  }

  /** Recording on the circular log is recording on the view. */
  lemma {:induction false} RecordView(n: Node, m: Message, lo: nat, e: LogEntry, buf: Buffer)
    requires Healthy(n, lo) && lo <= m.sn < lo + 65536 && Relevant(m) && Sendable(m)
    requires n.core.next <= m.sn ==> Slot(e, Take(buf, e.keyLen + e.valueLen)) == After(SlotIn(ViewOf(n), m.sn), m)
    requires e.sn == m.sn && EntryOk(e)
    ensures Healthy(Put(n, m.sn, e, buf), lo)
    ensures ViewOf(Put(n, m.sn, e, buf)) == Touch(ViewOf(n), m)
  {
    if m.sn < n.core.next {
      PutStale(n, m.sn, e, buf, lo + 65536);
    } else {
      PutView(n, m.sn, e, buf);
    }
  }

  lemma {:induction false} ViewIsOk(n: Node)
    requires Sized(n) && LogOk(n)
    ensures ViewOk(ViewOf(n)) && (ReadyV(ViewOf(n)) <==> Ready(n))
  {
  }

  lemma {:induction false} RecordedBytes(buf: Buffer, m: Message)
    requires Sendable(m) && Carries(m)
    ensures Take(Overlay(buf, Take(m.data, m.keyLen + m.valueLen)), m.keyLen + m.valueLen) ==
            Take(m.data, m.keyLen + m.valueLen)
  {
  }

  lemma {:induction false} ProposalStep(n: Node, m: Message, lo: nat)
    requires Healthy(n, lo) && lo <= m.sn < lo + 65536 && m.kind == PROPOSAL && Sendable(m)
    ensures Healthy(HandleProposal(n, m), lo) && ViewOf(HandleProposal(n, m)) == Touch(ViewOf(n), m)
  {
    var slot := m.sn % 65536;
    var e := Claim(n.log[slot], m.sn);
    if Carries(m) {
      RecordedBytes(n.payloads[slot], m);
    }
    RecordView(n, m, lo, AcceptProposal(e, m), AcceptPayload(e, n.payloads[slot], m));
  }

  lemma {:induction false} AdvanceStep(n: Node, lo: nat)
    requires Healthy(n, lo)
    ensures Healthy(Advance(n), lo) && ViewOf(Advance(n)) == AdvanceV(ViewOf(n))
  {
    AdvanceKeepsLog(n, lo + 65536);
    AdvanceView(n);
  }

  lemma {:induction false} DecideStep(n: Node, m: Message, lo: nat)
    requires Healthy(n, lo) && lo <= m.sn < lo + 65536 && Sendable(m) && m.kind == DECIDE
    ensures Healthy(HandleDecide(n, m), lo) && ViewOf(HandleDecide(n, m)) == AdvanceV(Touch(ViewOf(n), m))
  {
    var slot := m.sn % 65536;
    var e := Settle(Claim(n.log[slot], m.sn), m.value);
    RecordView(n, m, lo, e, n.payloads[slot]);
    var r := Put(n, m.sn, e, n.payloads[slot]);
    assert r.payloads == n.payloads;
    assert r == n.(log := n.log[slot := e]);
    AdvanceStep(r, lo);
  }

  /** The entry a valid promise leaves behind. */
  function Promised(e: LogEntry, m: Message): LogEntry {
    var e1 := AcceptPromise(Claim(e, m.sn), m);
    if |e1.promises| >= 2 then Settle(e1, 1) else e1
  }

  lemma {:induction false} PromiseShape(n: Node, m: Message)
    requires Sized(n) && PromiseValid(m)
    ensures var slot := m.sn % 65536;
            var r := Put(n, m.sn, Promised(n.log[slot], m), n.payloads[slot]);
            HandleP1(n, m) == r || HandleP1(n, m) == Advance(r)
  {
    hide Advance;
    var slot := m.sn % 65536;
    var e1 := AcceptPromise(Claim(n.log[slot], m.sn), m);
    assert n.payloads[slot := n.payloads[slot]] == n.payloads;
    assert n.log[slot := e1][slot := Settle(e1, 1)] == n.log[slot := Settle(e1, 1)];
  }

  lemma {:induction false} PromiseStep(n: Node, m: Message, lo: nat)
    requires Healthy(n, lo) && lo <= m.sn < lo + 65536 && m.kind == P1 && PromiseValid(m) && Sendable(m)
    ensures var r, v := HandleP1(n, m), Touch(ViewOf(n), m);
            Healthy(r, lo) && (ViewOf(r) == v || ViewOf(r) == AdvanceV(v))
  {
    hide Advance, HandleP1;
    var slot := m.sn % 65536;
    var e := Promised(n.log[slot], m);
    RecordView(n, m, lo, e, n.payloads[slot]);
    PromiseShape(n, m);
    AdvanceStep(Put(n, m.sn, e, n.payloads[slot]), lo);
  }

  lemma {:induction false} VoteStep(n: Node, m: Message, lo: nat)
    requires Healthy(n, lo) && lo <= m.sn < lo + 65536 && Sendable(m) && m.kind != PROPOSAL
    ensures var r, v := HandleDeferred(n, m), Touch(ViewOf(n), m);
            Healthy(r, lo) && (ViewOf(r) == v || ViewOf(r) == AdvanceV(v))
  {
    if m.kind == DECIDE {
      DecideStep(n, m, lo);
    } else if Relevant(m) {
      PromiseStep(n, m, lo);
    }
  }

  /** Both ways of handling one message agree once execution catches up. */
  lemma {:induction false} OneMessage(n: Node, m: Message, lo: nat)
    requires Healthy(n, lo) && lo <= m.sn < lo + 65536 && Sendable(m)
    ensures Healthy(HandleDeferred(n, m), lo) && Healthy(HandleMessage(n, m), lo)
    ensures AdvanceV(ViewOf(HandleDeferred(n, m))) == AdvanceV(Touch(ViewOf(n), m))
    ensures AdvanceV(ViewOf(HandleMessage(n, m))) == AdvanceV(Touch(ViewOf(n), m))
  {
    if m.kind == PROPOSAL {
      ProposalStep(n, m, lo);
      AdvanceStep(HandleProposal(n, m), lo);
    } else {
      VoteStep(n, m, lo);
    }
  }

  lemma {:induction false} TouchAllOk(v: View, ms: seq<Message>)
    requires ViewOk(v) && forall i :: 0 <= i < |ms| ==> Sendable(ms[i])
    ensures ViewOk(TouchAll(v, ms))
  {
    if ms != [] {
      TouchAllOk(v, ms[..|ms| - 1]);
      TouchKeepsOk(TouchAll(v, ms[..|ms| - 1]), ms[|ms| - 1]);
    }
  }

  /** Where a list of messages leads once execution catches up. */
  lemma {:induction false} NormalForm(n: Node, ms: seq<Message>, lo: nat)
    requires Healthy(n, lo) && InWindow(ms, lo)
    ensures Healthy(HandleAll(n, ms), lo) && Healthy(HandleEach(n, ms), lo)
    ensures AdvanceV(ViewOf(HandleAll(n, ms))) == AdvanceV(TouchAll(ViewOf(n), ms))
    ensures AdvanceV(ViewOf(HandleEach(n, ms))) == AdvanceV(TouchAll(ViewOf(n), ms))
  {
    if ms != [] {
      var front, m := ms[..|ms| - 1], ms[|ms| - 1];
      NormalForm(n, front, lo);
      ViewIsOk(n);
      TouchAllOk(ViewOf(n), front);
      Absorb(TouchAll(ViewOf(n), front), m);
      OneMessage(HandleAll(n, front), m, lo);
      ViewIsOk(HandleAll(n, front));
      Absorb(ViewOf(HandleAll(n, front)), m);
      OneMessage(HandleEach(n, front), m, lo);
      ViewIsOk(HandleEach(n, front));
      Absorb(ViewOf(HandleEach(n, front)), m);
    }
  }

  lemma {:induction false} VoteKeepsQuiet(n: Node, m: Message)
    requires Sized(n) && LogOk(n) && !Ready(n) && m.kind != PROPOSAL && Sendable(m)
    ensures !Ready(HandleDeferred(n, m))
  {
  }

  lemma {:induction false} EachKeepsQuiet(n: Node, ms: seq<Message>, lo: nat)
    requires Healthy(n, lo) && InWindow(ms, lo) && !Ready(n)
    ensures !Ready(HandleEach(n, ms))
  {
    if ms != [] {
      var front := ms[..|ms| - 1];
      EachKeepsQuiet(n, front, lo);
      NormalForm(n, front, lo);
      if ms[|ms| - 1].kind != PROPOSAL {
        VoteKeepsQuiet(HandleEach(n, front), ms[|ms| - 1]);
      }
    }
  }

  lemma {:induction false} VotesOnlyQuiet(n: Node, ms: seq<Message>, lo: nat)
    requires Healthy(n, lo) && InWindow(ms, lo) && !Ready(n) && !HasProposal(ms)
    ensures !Ready(HandleAll(n, ms))
  {
    if ms != [] {
      var front := ms[..|ms| - 1];
      VotesOnlyQuiet(n, front, lo);
      NormalForm(n, front, lo);
      VoteKeepsQuiet(HandleAll(n, front), ms[|ms| - 1]);
    }
  }

  lemma {:induction false} QuietIsNormal(n: Node)
    requires Sized(n) && LogOk(n) && !Ready(n)
    ensures AdvanceV(ViewOf(n)) == ViewOf(n)
  {
    ViewIsOk(n);
  }

  lemma {:induction false} ChunkNormalForm(n: Node, ms: seq<Message>, lo: nat)
    requires Healthy(n, lo) && InWindow(ms, lo) && !Ready(n)
    ensures var r := HandleChunk(n, ms);
            Healthy(r, lo) && !Ready(r) && ViewOf(r) == AdvanceV(TouchAll(ViewOf(n), ms))
  {
    NormalForm(n, ms, lo);
    if HasProposal(ms) {
      AdvanceStep(HandleAll(n, ms), lo);
    } else {
      VotesOnlyQuiet(n, ms, lo);
      QuietIsNormal(HandleAll(n, ms));
    }
  }

  lemma {:induction false} TouchAllAppend(v: View, xs: seq<Message>, ys: seq<Message>)
    ensures TouchAll(v, xs + ys) == TouchAll(TouchAll(v, xs), ys)
  {
    if ys == [] {
      assert xs + ys == xs;
    } else {
      assert (xs + ys)[..|xs + ys| - 1] == xs + ys[..|ys| - 1];
      TouchAllAppend(v, xs, ys[..|ys| - 1]);
    }
  }

  lemma {:induction false} AbsorbAll(v: View, ms: seq<Message>)
    requires ViewOk(v) && forall i :: 0 <= i < |ms| ==> Sendable(ms[i])
    ensures ViewOk(AdvanceV(v)) && AdvanceV(TouchAll(v, ms)) == AdvanceV(TouchAll(AdvanceV(v), ms))
  {
    AdvanceKeepsOk(v);
    if ms != [] {
      var front, m := ms[..|ms| - 1], ms[|ms| - 1];
      AbsorbAll(v, front);
      TouchAllOk(v, front);
      Absorb(TouchAll(v, front), m);
      TouchAllOk(AdvanceV(v), front);
      Absorb(TouchAll(AdvanceV(v), front), m);
    }
  }

  lemma {:induction false} BatchNormalForm(n: Node, ms: seq<Message>, lo: nat)
    requires Healthy(n, lo) && InWindow(ms, lo) && !Ready(n)
    ensures var r := HandleBatch(n, ms);
            Healthy(r, lo) && !Ready(r) && ViewOf(r) == AdvanceV(TouchAll(ViewOf(n), ms))
    decreases |ms|
  {
    if |ms| <= 64 {
      ChunkNormalForm(n, ms, lo);
    } else {
      var head, tail := ms[..64], ms[64..];
      ChunkNormalForm(n, head, lo);
      BatchNormalForm(HandleChunk(n, head), tail, lo);
      ViewIsOk(n);
      TouchAllOk(ViewOf(n), head);
      AbsorbAll(TouchAll(ViewOf(n), head), tail);
      TouchAllAppend(ViewOf(n), head, tail);
      assert head + tail == ms;
    }
  }

  /** Handling a drained batch in chunks of 64 with deferred execution leaves the same
      live log, store, pending table, counters and `execute_next_` as handling each
      message on its own: both reach the normal form "record all, then execute". */
  lemma {:induction false} BatchingUnobservable(n: Node, ms: seq<Message>)
    requires Healthy(n, n.core.next) && !Ready(n) && InWindow(ms, n.core.next)
    ensures ViewOf(HandleBatch(n, ms)) == ViewOf(HandleEach(n, ms))
    ensures ViewOf(HandleBatch(n, ms)) == AdvanceV(TouchAll(ViewOf(n), ms))
  {
    var lo := n.core.next;
    BatchNormalForm(n, ms, lo);
    NormalForm(n, ms, lo);
    EachKeepsQuiet(n, ms, lo);
    QuietIsNormal(HandleEach(n, ms));
  }

  // ------------------------- slot-for-slot equality on the traffic that is sent

  predicate Unrecorded(n: Node, sn: nat)
    requires Sized(n)
  {
    0 < sn && n.log[sn % 65536].sn != sn
  }

  /** Distinct proposals none of which is in the log yet: all that peers ever send. */
  ghost predicate Fresh(n: Node, ms: seq<Message>)
    requires Sized(n)
  {
    && (forall i :: 0 <= i < |ms| ==> ms[i].kind == PROPOSAL && Unrecorded(n, ms[i].sn))
    && (forall i, j :: 0 <= i < j < |ms| ==> ms[i].sn != ms[j].sn)
  }

  lemma {:induction false} AdvanceKeepsUnrecorded(n: Node, sn: nat)
    requires Sized(n) && Unrecorded(n, sn)
    ensures Unrecorded(Advance(n), sn)
    decreases CountDecided(n.log)
  {
    if Ready(n) {
      ClearingLowersCount(n.log, n.core.next % 65536, BlankEntry(0));
      AdvanceKeepsUnrecorded(ExecOne(n), sn);
    }
  }

  lemma {:induction false} FreshCommute(n: Node, m: Message, lo: nat)
    requires Healthy(n, lo) && Ready(n) && lo <= m.sn < lo + 65536 && m.sn != n.core.next
    ensures Ready(HandleProposal(n, m)) && ExecOne(HandleProposal(n, m)) == HandleProposal(ExecOne(n), m)
  {
    var k := n.core.next;
    SlotsDistinct(lo, m.sn, k);
    var a, b := ExecOne(HandleProposal(n, m)), HandleProposal(ExecOne(n), m);
    assert a.log == b.log;
    assert SlotAt(HandleProposal(n, m), k) == SlotAt(n, k);
  }

  lemma {:induction false} AbsorbExact(n: Node, m: Message, lo: nat)
    requires Healthy(n, lo) && lo <= m.sn < lo + 65536 && Unrecorded(n, m.sn)
    ensures Advance(HandleProposal(n, m)) == Advance(HandleProposal(Advance(n), m))
    decreases CountDecided(n.log)
  {
    if Ready(n) {
      FreshCommute(n, m, lo);
      ClearingLowersCount(n.log, n.core.next % 65536, BlankEntry(0));
      AbsorbExact(ExecOne(n), m, lo);
    }
  }

  lemma {:induction false} ExactChunk(n: Node, ms: seq<Message>, lo: nat, others: set<nat>)
    requires Healthy(n, lo) && !Ready(n) && InWindow(ms, lo) && Fresh(n, ms)
    requires forall s :: s in others ==> Unrecorded(n, s) && forall i :: 0 <= i < |ms| ==> ms[i].sn != s
    ensures Healthy(HandleAll(n, ms), lo) && Advance(HandleAll(n, ms)) == HandleEach(n, ms)
    ensures forall s :: s in others ==> Unrecorded(HandleAll(n, ms), s)
  {
    if ms != [] {
      var front, m := ms[..|ms| - 1], ms[|ms| - 1];
      ExactChunk(n, front, lo, others + {m.sn});
      ProposalStep(HandleAll(n, front), m, lo);
      AbsorbExact(HandleAll(n, front), m, lo);
    }
  }

  lemma {:induction false} EachAppend(n: Node, xs: seq<Message>, ys: seq<Message>)
    requires Sized(n)
    ensures HandleEach(n, xs + ys) == HandleEach(HandleEach(n, xs), ys)
  {
    if ys == [] {
      assert xs + ys == xs;
    } else {
      assert (xs + ys)[..|xs + ys| - 1] == xs + ys[..|ys| - 1];
      EachAppend(n, xs, ys[..|ys| - 1]);
    }
  }

  lemma {:induction false} ExactHead(n: Node, head: seq<Message>, tail: seq<Message>, lo: nat)
    requires Healthy(n, lo) && !Ready(n) && InWindow(head, lo) && head != [] && Fresh(n, head + tail)
    ensures var r := HandleChunk(n, head);
            r == HandleEach(n, head) && Healthy(r, lo) && !Ready(r) && Fresh(r, tail)
  {
    var all := head + tail;
    forall i | 0 <= i < |head| ensures head[i] == all[i] {}
    forall i | 0 <= i < |tail| ensures tail[i] == all[|head| + i] {}
    var others := set i | 0 <= i < |tail| :: tail[i].sn;
    ExactChunk(n, head, lo, others);
    var r := HandleAll(n, head);
    assert head[0].kind == PROPOSAL;
    AdvanceStep(r, lo);
    forall i | 0 <= i < |tail| ensures Unrecorded(Advance(r), tail[i].sn) {
      assert tail[i].sn in others;
      AdvanceKeepsUnrecorded(r, tail[i].sn);
    }
  }

  /** On fresh proposals batching is the identity on the whole node, slot for slot. */
  lemma {:induction false} BatchingExact(n: Node, ms: seq<Message>, lo: nat)
    requires Healthy(n, lo) && !Ready(n) && InWindow(ms, lo) && Fresh(n, ms)
    ensures HandleBatch(n, ms) == HandleEach(n, ms)
    decreases |ms|
  {
    if 0 < |ms| <= 64 {
      assert ms + [] == ms;
      ExactHead(n, ms, [], lo);
    } else if 64 < |ms| {
      var head, tail := ms[..64], ms[64..];
      assert head + tail == ms;
      ExactHead(n, head, tail, lo);
      BatchingExact(HandleChunk(n, head), tail, lo);
      EachAppend(n, head, tail);
    }
  }
}
