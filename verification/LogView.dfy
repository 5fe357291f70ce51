/** The circular log seen through the execution window: which sequence numbers in
    `[execute_next_, execute_next_ + 65536)` hold an entry, and which one. Slots left
    over from already executed numbers are invisible. Over this view the order of
    executing and recording does not matter, which is what batching relies on. */
module LogView {
  import opened Types
  import opened NodeSpec

  datatype View = View(live: map<nat, Slot>, core: Core)

  ghost function ViewOf(n: Node): (v: View)
    requires Sized(n)
  {
    View(map s: nat | n.core.next <= s < n.core.next + 65536 && n.log[s % 65536].sn == s :: SlotAt(n, s), n.core)
  }

  /** Facts every entry satisfies while only value-1 decisions are sent. */
  predicate EntryOk(e: LogEntry) {
    && (e.known ==> e.decided)
    && (e.decided ==> e.decision == 1)
    && (|e.promises| >= 2 ==> e.decided)
    && e.keyLen + e.valueLen <= 1088
    && (!e.known ==> e.keyLen == 0 && e.valueLen == 0)
  }

  ghost predicate LogOk(n: Node)
    requires Sized(n)
  {
    forall x :: 0 <= x < 65536 ==> EntryOk(n.log[x])
  }

  ghost predicate ViewOk(v: View) {
    && |v.core.pending| == 65536
    && forall s :: s in v.live ==> v.core.next <= s && EntryOk(v.live[s].e) && v.live[s].e.sn == s
  }

  // ------------------------------------------------- execution on the view

  predicate ReadyV(v: View) {
    v.core.next in v.live && ReadyEntry(v.live[v.core.next].e)
  }

  function ExecV(v: View): View
    requires |v.core.pending| == 65536 && v.core.next in v.live
  {
    View(v.live - {v.core.next}, Complete(v.core, v.live[v.core.next]))
  }

  function AdvanceV(v: View): (r: View)
    requires |v.core.pending| == 65536
    ensures |r.core.pending| == 65536 && !ReadyV(r)
    decreases |v.live|
  {
    if ReadyV(v) then
      assert v.live.Keys == ExecV(v).live.Keys + {v.core.next};
      AdvanceV(ExecV(v))
    else v
  }

  // ---------------------------------------------- recording one message

  function SlotIn(v: View, sn: nat): Slot {
    if sn in v.live then v.live[sn] else Slot(BlankEntry(sn), "")
  }

  function After(s: Slot, m: Message): Slot {
    match m.kind
    case PROPOSAL =>
      Slot(AcceptProposal(s.e, m),
           if s.e.known then s.bytes else if Carries(m) then Take(m.data, m.keyLen + m.valueLen) else "")
    case P1 =>
      var e := AcceptPromise(s.e, m);
      s.(e := if |e.promises| >= 2 then Settle(e, 1) else e)
    case DECIDE => s.(e := Settle(s.e, m.value))
    case P2 => s
  }

  predicate Relevant(m: Message) {
    m.kind == PROPOSAL || m.kind == DECIDE || (m.kind == P1 && PromiseValid(m))
  }

  /** Record `m` unless its number has been executed. */
  function Touch(v: View, m: Message): View {
    if m.sn < v.core.next || !Relevant(m) then v
    else v.(live := v.live[m.sn := After(SlotIn(v, m.sn), m)])
  }

  function TouchAll(v: View, ms: seq<Message>): (r: View)
    ensures r.core == v.core
  {
    if ms == [] then v else Touch(TouchAll(v, ms[..|ms| - 1]), ms[|ms| - 1])
  }

  /** Messages nodes send: a full payload buffer, and only value-1 decisions. */
  predicate Sendable(m: Message) {
    |m.data| == 1088 && (m.kind == DECIDE ==> m.value == 1)
  }

  lemma {:induction false} TouchKeepsOk(v: View, m: Message)
    requires ViewOk(v) && Sendable(m)
    ensures ViewOk(Touch(v, m))
  {
  }

  lemma {:induction false} ExecKeepsOk(v: View)
    requires ViewOk(v) && ReadyV(v)
    ensures ViewOk(ExecV(v))
  {
  }

  lemma {:induction false} AdvanceKeepsOk(v: View)
    requires ViewOk(v)
    ensures ViewOk(AdvanceV(v))
    decreases |v.live|
  {
    if ReadyV(v) {
      ExecKeepsOk(v);
      assert v.live.Keys == ExecV(v).live.Keys + {v.core.next};
      AdvanceKeepsOk(ExecV(v));
    }
  }

  // ---------------------------- the circular log implements the view

  lemma {:induction false} SlotsDistinct(next: nat, s: nat, t: nat)
    requires next <= s < next + 65536 && next <= t < next + 65536 && s != t
    ensures s % 65536 != t % 65536
  {
  }

  function Put(n: Node, sn: nat, e: LogEntry, buf: Buffer): (r: Node)
    requires Sized(n)
    ensures Sized(r)
  {
    n.(log := n.log[sn % 65536 := e], payloads := n.payloads[sn % 65536 := buf])
  }

  /** Writing the slot of a number inside the window changes that number only. */
  lemma {:induction false} PutView(n: Node, sn: nat, e: LogEntry, buf: Buffer)
    requires Sized(n) && n.core.next <= sn < n.core.next + 65536 && e.sn == sn
    ensures ViewOf(Put(n, sn, e, buf)) ==
            ViewOf(n).(live := ViewOf(n).live[sn := Slot(e, Take(buf, e.keyLen + e.valueLen))])
  {
    var r := Put(n, sn, e, buf);
    forall s: nat | n.core.next <= s < n.core.next + 65536 && s != sn
      ensures r.log[s % 65536] == n.log[s % 65536] && SlotAt(r, s) == SlotAt(n, s)
    {
      SlotsDistinct(n.core.next, s, sn);
    }
  }

  ghost predicate Bounded(n: Node, bound: nat)
    requires Sized(n)
  {
    forall x :: 0 <= x < 65536 ==> n.log[x].sn < bound
  }

  lemma {:induction false} StaleSlot(next: nat, s: nat, sn: nat)
    requires sn < next <= s && s % 65536 == sn % 65536
    ensures s >= sn + 65536
  {
  }

  lemma {:induction false} PutStaleAt(n: Node, sn: nat, e: LogEntry, buf: Buffer, bound: nat, s: nat)
    requires Sized(n) && Bounded(n, bound) && sn < n.core.next <= s && bound <= sn + 65536 && e.sn == sn
    ensures var r := Put(n, sn, e, buf);
            && (r.log[s % 65536].sn == s <==> n.log[s % 65536].sn == s)
            && (n.log[s % 65536].sn == s ==> SlotAt(r, s) == SlotAt(n, s))
  {
    hide Take;
    if s % 65536 == sn % 65536 {
      StaleSlot(n.core.next, s, sn);
    }
  }

  /** A late message for an executed number cannot hit a live entry. */
  lemma {:induction false} PutStale(n: Node, sn: nat, e: LogEntry, buf: Buffer, bound: nat)
    requires Sized(n) && Bounded(n, bound) && sn < n.core.next && bound <= sn + 65536 && e.sn == sn
    ensures ViewOf(Put(n, sn, e, buf)) == ViewOf(n)
  {
    var r := Put(n, sn, e, buf);
    assert r.core == n.core;
    hide SlotAt, Put, Bounded, Take;
    forall s: nat | n.core.next <= s < n.core.next + 65536
      ensures r.log[s % 65536].sn == s <==> n.log[s % 65536].sn == s
      ensures n.log[s % 65536].sn == s ==> SlotAt(r, s) == SlotAt(n, s)
    {
      PutStaleAt(n, sn, e, buf, bound, s);
    }
  }

  lemma {:induction false} ExecKeepsOthers(n: Node, s: nat)
    requires Sized(n) && n.core.next < s <= n.core.next + 65536
    ensures s < n.core.next + 65536 ==>
            ExecOne(n).log[s % 65536] == n.log[s % 65536] && SlotAt(ExecOne(n), s) == SlotAt(n, s)
    ensures s == n.core.next + 65536 ==> ExecOne(n).log[s % 65536].sn == 0
  {
    var k := n.core.next;
    if s < k + 65536 {
      SlotsDistinct(k, s, k);
    } else {
      assert s % 65536 == k % 65536;
    }
  }

  lemma {:induction false} ReadyView(n: Node)
    requires Sized(n)
    ensures Ready(n) <==> ReadyV(ViewOf(n))
  {
    hide Take;
  }

  lemma {:induction false} ExecLiveAt(n: Node, s: nat)
    requires Sized(n) && n.core.next < s <= n.core.next + 65536
    ensures var a, b := ViewOf(ExecOne(n)).live, ViewOf(n).live;
            (s in a <==> s in b) && (s in b ==> a[s] == b[s])
  {
    hide SlotAt, Complete;
    ExecKeepsOthers(n, s);
  }

  lemma {:induction false} ExecLive(n: Node)
    requires Sized(n)
    ensures ViewOf(ExecOne(n)).live == ViewOf(n).live - {n.core.next}
  {
    hide SlotAt, Complete;
    var k, a, b := n.core.next, ViewOf(ExecOne(n)).live, ViewOf(n).live;
    forall s | k < s <= k + 65536 ensures (s in a <==> s in b) && (s in b ==> a[s] == b[s]) {
      ExecLiveAt(n, s);
    }
  }

  lemma {:induction false} ExecView(n: Node)
    requires Sized(n) && Ready(n)
    ensures ReadyV(ViewOf(n)) && ViewOf(ExecOne(n)) == ExecV(ViewOf(n))
  {
    hide Complete, SlotAt, ReadyEntry;
    ReadyView(n);
    ExecLive(n);
  }

  lemma {:induction false} AdvanceView(n: Node)
    requires Sized(n)
    ensures ViewOf(Advance(n)) == AdvanceV(ViewOf(n))
    decreases CountDecided(n.log)
  {
    if Ready(n) {
      ExecView(n);
      ClearingLowersCount(n.log, n.core.next % 65536, BlankEntry(0));
      AdvanceView(ExecOne(n));
    }
  }

  lemma {:induction false} AdvanceKeepsLog(n: Node, bound: nat)
    requires Sized(n) && LogOk(n) && Bounded(n, bound) && 0 < bound
    ensures LogOk(Advance(n)) && Bounded(Advance(n), bound) && n.core.next <= Advance(n).core.next
    decreases CountDecided(n.log)
  {
    if Ready(n) {
      ClearingLowersCount(n.log, n.core.next % 65536, BlankEntry(0));
      AdvanceKeepsLog(ExecOne(n), bound);
    }
  }

  // ------------------------------------------------- absorption of execution

  /** Recording keeps a ready entry ready and its command unchanged, so executing
      first and recording first meet. */
  lemma {:induction false} TouchExecCommute(v: View, m: Message)
    requires ViewOk(v) && Sendable(m) && ReadyV(v)
    ensures ReadyV(Touch(v, m)) && ExecV(Touch(v, m)) == Touch(ExecV(v), m)
  {
    var k := v.core.next;
    var w := Touch(v, m);
    assert CommandOf(w.live[k]) == CommandOf(v.live[k]);
    assert w.live - {k} == Touch(ExecV(v), m).live;
  }

  lemma {:induction false} Absorb(v: View, m: Message)
    requires ViewOk(v) && Sendable(m)
    ensures ViewOk(AdvanceV(v))
    ensures AdvanceV(Touch(v, m)) == AdvanceV(Touch(AdvanceV(v), m))
    decreases |v.live|
  {
    AdvanceKeepsOk(v);
    if ReadyV(v) {
      TouchExecCommute(v, m);
      ExecKeepsOk(v);
      assert v.live.Keys == ExecV(v).live.Keys + {v.core.next};
      Absorb(ExecV(v), m);
    }
  }
}
