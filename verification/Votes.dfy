/** P1 and DECIDE messages with value 1 never change what is executed. */
module Votes {
  import opened Types
  import opened NodeSpec
  import opened LogView
  import opened Batching

  /** The proposals of a message list, in order. */
  function Proposals(ms: seq<Message>): seq<Message> {
    if ms == [] then []
    else
      var front := Proposals(ms[..|ms| - 1]);
      if ms[|ms| - 1].kind == PROPOSAL then front + [ms[|ms| - 1]] else front
  }

  /** The commands waiting for execution. */
  ghost function Known(v: View): map<nat, Command> {
    map s | s in v.live && v.live[s].e.known :: CommandOf(v.live[s])
  }

  /** Two views that differ in votes only. */
  ghost predicate Alike(v: View, w: View) {
    v.core == w.core && Known(v) == Known(w)
  }

  lemma {:induction false} VoteInvisible(v: View, m: Message)
    requires ViewOk(v) && m.kind != PROPOSAL
    ensures Alike(Touch(v, m), v)
  {
    assert forall s :: s in Known(Touch(v, m)) <==> s in Known(v);
  }

  lemma {:induction false} KnownAfterProposal(v: View, m: Message)
    requires ViewOk(v) && m.kind == PROPOSAL && v.core.next <= m.sn
    ensures Known(Touch(v, m)) ==
            Known(v)[m.sn := if m.sn in Known(v) then Known(v)[m.sn]
                             else CommandOf(After(Slot(BlankEntry(m.sn), ""), m))]
  {
    var slot := After(SlotIn(v, m.sn), m);
    assert slot.e.known;
    assert CommandOf(slot) == if m.sn in Known(v) then Known(v)[m.sn]
                               else CommandOf(After(Slot(BlankEntry(m.sn), ""), m));
    forall s | s != m.sn
      ensures s in Known(Touch(v, m)) <==> s in Known(v)
      ensures s in Known(v) ==> Known(Touch(v, m))[s] == Known(v)[s]
    {
    }
  }

  lemma {:induction false} ProposalAlike(v: View, w: View, m: Message)
    requires ViewOk(v) && ViewOk(w) && Alike(v, w) && m.kind == PROPOSAL
    ensures Alike(Touch(v, m), Touch(w, m))
  {
    if v.core.next <= m.sn {
      KnownAfterProposal(v, m);
      KnownAfterProposal(w, m);
    }
  }

  lemma {:induction false} AdvanceAlike(v: View, w: View)
    requires ViewOk(v) && ViewOk(w) && Alike(v, w)
    ensures Alike(AdvanceV(v), AdvanceV(w))
    decreases |v.live|
  {
    ReadyIsKnown(v);
    ReadyIsKnown(w);
    hide CommandOf, Known, EntryOk, ReadyEntry;
    if ReadyV(v) {
      ExecKeepsOk(v);
      ExecKeepsOk(w);
      assert v.live.Keys == ExecV(v).live.Keys + {v.core.next};
      ExecKnown(v);
      ExecKnown(w);
      assert ExecV(v).core == ExecV(w).core by {
        ExecSameCore(v, w);
      }
      AdvanceAlike(ExecV(v), ExecV(w));
    }
  }

  lemma {:induction false} ReadyIsKnown(v: View)
    requires ViewOk(v)
    ensures ReadyV(v) <==> v.core.next in Known(v)
  {
    hide CommandOf;
  }

  lemma {:induction false} ExecKnown(v: View)
    requires ViewOk(v) && ReadyV(v)
    ensures Known(ExecV(v)) == Known(v) - {v.core.next}
  {
    hide CommandOf, Complete;
  }

  lemma {:induction false} ExecSameCore(v: View, w: View)
    requires ViewOk(v) && ViewOk(w) && Alike(v, w) && ReadyV(v) && ReadyV(w)
    ensures ExecV(v).core == ExecV(w).core
  {
    hide Account, Apply, CommandOf;
    var k := v.core.next;
    ReadyIsKnown(v);
    ReadyIsKnown(w);
    assert Known(v)[k] == Known(w)[k];
  }

  lemma {:induction false} OnlyProposalsCount(v: View, ms: seq<Message>)
    requires ViewOk(v) && forall i :: 0 <= i < |ms| ==> Sendable(ms[i])
    ensures ViewOk(TouchAll(v, ms)) && ViewOk(TouchAll(v, Proposals(ms)))
    ensures Alike(TouchAll(v, ms), TouchAll(v, Proposals(ms)))
  {
    TouchAllOk(v, ms);
    if ms != [] {
      var front, m := ms[..|ms| - 1], ms[|ms| - 1];
      OnlyProposalsCount(v, front);
      if m.kind == PROPOSAL {
        var ps := Proposals(front);
        assert (ps + [m])[..|ps|] == ps;
        ProposalAlike(TouchAll(v, front), TouchAll(v, ps), m);
        TouchKeepsOk(TouchAll(v, ps), m);
      } else {
        VoteInvisible(TouchAll(v, front), m);
      }
    }
  }

  /** Interleaving any value-1 votes with the same proposals, batched or not, leads to
      the same executed commands, store, accounting and waiting proposals. */
  lemma {:induction false} VotesCommute(n: Node, xs: seq<Message>, ys: seq<Message>)
    requires Healthy(n, n.core.next) && !Ready(n)
    requires InWindow(xs, n.core.next) && InWindow(ys, n.core.next) && Proposals(xs) == Proposals(ys)
    ensures HandleBatch(n, xs).core == HandleEach(n, ys).core
    ensures Alike(ViewOf(HandleBatch(n, xs)), ViewOf(HandleEach(n, ys)))
  {
    var v := ViewOf(n);
    BatchingUnobservable(n, xs);
    BatchingUnobservable(n, ys);
    ViewIsOk(n);
    OnlyProposalsCount(v, xs);
    OnlyProposalsCount(v, ys);
    AdvanceAlike(TouchAll(v, xs), TouchAll(v, Proposals(xs)));
    AdvanceAlike(TouchAll(v, ys), TouchAll(v, Proposals(ys)));
  }

  lemma {:induction false} ProposalsConcat(xs: seq<Message>, ys: seq<Message>)
    ensures Proposals(xs + ys) == Proposals(xs) + Proposals(ys)
    decreases |ys|
  {
    if ys == [] {
      assert xs + ys == xs;
    } else {
      var k := |ys| - 1;
      assert (xs + ys)[..|xs| + k] == xs + ys[..k];
      ProposalsConcat(xs, ys[..k]);
    }
  }

  /** One vote more or less, anywhere between the same messages, changes nothing that is
      executed. */
  lemma {:induction false} VoteInserted(n: Node, xs: seq<Message>, m: Message, ys: seq<Message>)
    requires Healthy(n, n.core.next) && !Ready(n) && InWindow(xs + [m] + ys, n.core.next) &&
             InWindow(xs + ys, n.core.next)
    requires m.kind == P1 || m.kind == DECIDE || m.kind == P2
    ensures HandleBatch(n, xs + [m] + ys).core == HandleBatch(n, xs + ys).core == HandleEach(n, xs + ys).core
  {
    ProposalsConcat(xs + [m], ys);
    ProposalsConcat(xs, [m]);
    ProposalsConcat(xs, ys);
    assert [m][..0] == [] && Proposals([m]) == [];
    hide Healthy, InWindow, HandleBatch, HandleEach, Ready, Proposals, Alike;
    VotesCommute(n, xs + [m] + ys, xs + ys);
    VotesCommute(n, xs + ys, xs + ys);
  }

  /** The distinct valid promisers of `sn` in a message list. */
  function Promisers(ms: seq<Message>, sn: nat): set<nat> {
    set i | 0 <= i < |ms| && Promises(ms[i], sn) :: ms[i].sender
  }

  predicate Promises(m: Message, sn: nat) {
    m.sn == sn && m.value == 1 && m.promise != 0 && 1 <= m.sender <= 3
  }

  lemma {:induction false} PromisersGrow(ms: seq<Message>, m: Message, sn: nat)
    ensures var before, after := Promisers(ms, sn), Promisers(ms + [m], sn);
            after == if m.sn == sn && PromiseValid(m) then before + {m.sender} else before
  {
    var before, all := Promisers(ms, sn), ms + [m];
    assert Promises(m, sn) <==> m.sn == sn && PromiseValid(m);
    hide Promises, PromiseValid;
    forall x | x in before ensures x in Promisers(all, sn) {
      var i :| 0 <= i < |ms| && Promises(ms[i], sn) && ms[i].sender == x;
      assert all[i] == ms[i];
    }
    assert all[|ms|] == m;
  }

  /** A slot with the promises collected for it; `was` says that it was decided before. */
  predicate Collecting(s: Slot, promisers: set<nat>, was: bool) {
    s.e.promises == promisers && (s.e.decided <==> was || |promisers| >= 2)
  }

  lemma {:induction false} PromiseCounted(s: Slot, promisers: set<nat>, m: Message, was: bool)
    requires Collecting(s, promisers, was) && m.kind == P1
    ensures Collecting(After(s, m), promisers + {m.sender}, was)
  {
    if m.sender in promisers {
      assert promisers + {m.sender} == promisers;
    } else {
      assert |promisers + {m.sender}| == |promisers| + 1;
    }
  }

  lemma {:induction false} PromiseTouches(v: View, m: Message, sn: nat)
    requires v.core.next <= sn && m.kind == P1
    ensures SlotIn(Touch(v, m), sn) == if m.sn == sn && PromiseValid(m) then After(SlotIn(v, sn), m) else SlotIn(v, sn)
  {
    hide After, PromiseValid;
  }

  lemma {:induction false} PromisesCollected(v: View, ms: seq<Message>, sn: nat, earlier: set<nat>, was: bool)
    requires v.core.next <= sn && Collecting(SlotIn(v, sn), earlier, was)
    requires forall i :: 0 <= i < |ms| ==> ms[i].kind == P1
    ensures Collecting(SlotIn(TouchAll(v, ms), sn), earlier + Promisers(ms, sn), was)
  {
    hide Collecting, Promisers, SlotIn, Touch, After, PromiseValid;
    if ms == [] {
      NoPromisers(sn);
      assert earlier + {} == earlier;
    } else {
      var front, m := ms[..|ms| - 1], ms[|ms| - 1];
      assert front + [m] == ms;
      PromisesCollected(v, front, sn, earlier, was);
      PromisersGrow(front, m, sn);
      PromiseTouches(TouchAll(v, front), m, sn);
      PromiseCounted(SlotIn(TouchAll(v, front), sn), earlier + Promisers(front, sn), m, was);
      UnionSnoc(earlier, Promisers(front, sn), m.sender);
    }
  }

  lemma {:induction false} NoPromisers(sn: nat)
    ensures Promisers([], sn) == {}
  {
  }

  lemma {:induction false} UnionSnoc(a: set<nat>, b: set<nat>, x: nat)
    ensures a + (b + {x}) == a + b + {x}
  {
  }

  lemma {:induction false} StopsAtUnknown(v: View, sn: nat)
    requires ViewOk(v) && v.core.next <= sn && sn !in Known(v)
    ensures AdvanceV(v).core.next <= sn
    decreases |v.live|
  {
    if ReadyV(v) {
      assert v.core.next in Known(v);
      ExecKeepsOk(v);
      assert v.live.Keys == ExecV(v).live.Keys + {v.core.next};
      StopsAtUnknown(ExecV(v), sn);
    }
  }

  lemma {:induction false} UnknownKept(v: View, ms: seq<Message>, sn: nat)
    requires ViewOk(v) && sn !in Known(v)
    requires forall i :: 0 <= i < |ms| ==> Sendable(ms[i]) && !(ms[i].kind == PROPOSAL && ms[i].sn == sn)
    ensures sn !in Known(TouchAll(v, ms))
  {
    if ms != [] {
      hide Known, Touch, Sendable;
      UnknownKept(v, ms[..|ms| - 1], sn);
      UnknownTouch(TouchAll(v, ms[..|ms| - 1]), ms[|ms| - 1], sn);
    }
  }

  lemma {:induction false} UnknownTouch(v: View, m: Message, sn: nat)
    requires sn !in Known(v) && !(m.kind == PROPOSAL && m.sn == sn)
    ensures sn !in Known(Touch(v, m))
  {
    hide CommandOf;
  }

  lemma {:induction false} SlotEntry(n: Node, sn: nat)
    requires Sized(n)
    ensures SlotAt(n, sn).e == n.log[sn % 65536]
  {
  }

  /** Promises for numbers that wait for a proposal let nothing run. */
  lemma {:induction false} PromisesRunNothing(n: Node, ms: seq<Message>)
    requires Healthy(n, n.core.next) && !Ready(n) && InWindow(ms, n.core.next)
    requires forall i :: 0 <= i < |ms| ==> ms[i].kind == P1
    ensures ViewOf(HandleBatch(n, ms)) == ViewOf(HandleEach(n, ms)) == TouchAll(ViewOf(n), ms)
  {
    var v := ViewOf(n);
    ViewIsOk(n);
    ReadyView(n);
    ReadyIsKnown(v);
    BatchingUnobservable(n, ms);
    hide Healthy, Ready, ViewOf, HandleBatch, HandleEach, Known;
    TouchAllOk(v, ms);
    UnknownKept(v, ms, v.core.next);
    ReadyIsKnown(TouchAll(v, ms));
  }

  /** The distinct senders whose promises for `sn` the log holds, and whether it is decided. */
  function PromisedAt(n: Node, sn: nat): set<nat>
    requires Sized(n)
  {
    if n.log[sn % 65536].sn == sn then n.log[sn % 65536].promises else {}
  }

  predicate DecidedAt(n: Node, sn: nat)
    requires Sized(n)
  {
    n.log[sn % 65536].sn == sn && n.log[sn % 65536].decided
  }

  lemma {:induction false} SlotOfView(n: Node, sn: nat)
    requires Sized(n) && n.core.next <= sn < n.core.next + 65536
    ensures var e := SlotIn(ViewOf(n), sn).e; e.promises == PromisedAt(n, sn) && e.decided == DecidedAt(n, sn)
  {
    SlotEntry(n, sn);
    hide SlotAt;
  }

  /** P1 messages on their own, whatever arrived before them, add their distinct valid
      senders, decide a number if and only if a quorum is complete (or it was decided
      already), and execute nothing. */
  lemma {:induction false} QuorumDecides(n: Node, ms: seq<Message>, sn: nat)
    requires Healthy(n, n.core.next) && !Ready(n) && InWindow(ms, n.core.next)
    requires forall i :: 0 <= i < |ms| ==> ms[i].kind == P1
    requires n.core.next <= sn < n.core.next + 65536
    ensures var r := HandleBatch(n, ms);
            && r.core == n.core
            && PromisedAt(r, sn) == PromisedAt(n, sn) + Promisers(ms, sn)
            && (DecidedAt(r, sn) <==> DecidedAt(n, sn) || |PromisedAt(n, sn) + Promisers(ms, sn)| >= 2)
  {
    var v, r := ViewOf(n), HandleBatch(n, ms);
    PromisesRunNothing(n, ms);
    assert r.core == n.core;
    ViewIsOk(n);
    QuorumSettled(v, sn);
    hide HandleBatch, TouchAll, Healthy, Promisers, ViewOf, InWindow, PromisedAt, DecidedAt, SlotIn;
    SlotOfView(n, sn);
    SlotOfView(r, sn);
    PromisesCollected(v, ms, sn, PromisedAt(n, sn), DecidedAt(n, sn));
  }

  lemma {:induction false} QuorumSettled(v: View, sn: nat)
    requires ViewOk(v)
    ensures var e := SlotIn(v, sn).e; |e.promises| >= 2 ==> e.decided
  {
  }

  /** Execution never passes a number whose proposal has not arrived, whatever votes
      or decisions for it have. */
  lemma {:induction false} NeverPassesUnknown(n: Node, ms: seq<Message>, sn: nat)
    requires Healthy(n, n.core.next) && !Ready(n) && InWindow(ms, n.core.next)
    requires n.core.next <= sn && sn !in Known(ViewOf(n))
    requires forall i :: 0 <= i < |ms| ==> !(ms[i].kind == PROPOSAL && ms[i].sn == sn)
    ensures HandleBatch(n, ms).core.next <= sn && HandleEach(n, ms).core.next <= sn
  {
    var v := ViewOf(n);
    BatchingUnobservable(n, ms);
    ViewIsOk(n);
    TouchAllOk(v, ms);
    UnknownKept(v, ms, sn);
    StopsAtUnknown(TouchAll(v, ms), sn);
  }
}
