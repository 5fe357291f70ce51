/** The handlers that run under `mu_`, one message and one execution at a time
    (src/bandle.cpp). The imperative forms in Replica.dfy are proved equal to these. */
module NodeSpec {
  import opened Types

  predicate Sized(n: Node) {
    |n.log| == 65536 && |n.payloads| == 65536 && |n.core.pending| == 65536
  }

  // ------------------------------------------------------------ log entries

  function BlankEntry(sn: nat): LogEntry {
    LogEntry(sn, false, false, 0, {}, 'N', 0, 0, 0, 0, 0)
  }

  /** `if (e.seq != seq) reset_log_entry(e, seq)`. */
  function Claim(e: LogEntry, sn: nat): LogEntry {
    if e.sn != sn then BlankEntry(sn) else e
  }

  predicate Carries(m: Message) {
    m.op != 'G' && m.op != 'N' && m.keyLen + m.valueLen <= 1088
  }

  function AcceptProposal(e: LogEntry, m: Message): LogEntry {
    if e.known then e.(decided := true, decision := 1)
    else e.(known := true, decided := true, decision := 1,
            op := if m.op == 'G' || Carries(m) then m.op else 'N',
            keyLen := if Carries(m) then m.keyLen else 0,
            valueLen := if Carries(m) then m.valueLen else 0,
            proposer := m.proposer, reqId := m.reqId, startTsc := m.startTsc)
  }

  function Take(s: string, k: nat): string {
    if k <= |s| then s[..k] else s
  }

  /** `memcpy` of `bytes` to the front of a buffer. */
  function Overlay(buf: Buffer, bytes: string): Buffer {
    bytes + if |bytes| <= |buf| then buf[|bytes|..] else ""
  }

  function AcceptPayload(e: LogEntry, buf: Buffer, m: Message): Buffer {
    if !e.known && Carries(m) then Overlay(buf, Take(m.data, m.keyLen + m.valueLen)) else buf
  }

  predicate PromiseValid(m: Message) {
    m.value == 1 && m.promise != 0 && 1 <= m.sender <= 3
  }

  function AcceptPromise(e: LogEntry, m: Message): LogEntry {
    e.(promises := e.promises + {m.sender})
  }

  function Settle(e: LogEntry, value: nat): LogEntry {
    if e.decided then e else e.(decided := true, decision := value)
  }

  /** A log entry together with the payload bytes that belong to it. */
  datatype Slot = Slot(e: LogEntry, bytes: string)

  function CommandOf(s: Slot): Command {
    var key := Take(s.bytes, s.e.keyLen);
    Command(s.e.sn, s.e.op, key, if s.e.op == 'D' then "" else s.bytes[|key|..], s.e.proposer, s.e.reqId)
  }

  function SlotAt(n: Node, sn: nat): Slot
    requires Sized(n)
  {
    var e := n.log[sn % 65536];
    Slot(e, Take(n.payloads[sn % 65536], e.keyLen + e.valueLen))
  }

  // -------------------------------------------------------------- execution

  /** The accounting part of executing a decided command (src/bandle.cpp:797-822). */
  function Account(c: Core, cmd: Command): Core
    requires |c.pending| == 65536
  {
    var slot := (cmd.reqId % 0x100000000000000) % 65536;
    var p := c.pending[slot];
    if cmd.proposer == c.id && cmd.reqId != 0 && p.id == cmd.reqId && !p.done then
      var c1 := c.(pending := c.pending[slot := p.(done := true)], ok := c.ok + 1, total := c.total + 1,
                   pendingCount := if c.pendingCount > 0 then c.pendingCount - 1 else 0);
      if p.op == 'G' then c1.(readOps := c.readOps + 1, readSamples := c.readSamples + 1)
      else c1.(writeOps := c.writeOps + 1, writeSamples := c.writeSamples + 1)
    else c
  }

  /** Executing an entry: a value-1 decision applies and accounts, any other is skipped. */
  function Complete(c: Core, s: Slot): (r: Core)
    requires |c.pending| == 65536
    ensures |r.pending| == 65536 && r.next == c.next + 1 && r.id == c.id && r.errors == c.errors
  {
    var cmd := CommandOf(s);
    var c1 := if s.e.decision == 1
              then Account(c, cmd).(store := Apply(c.store, cmd.op, cmd.key, cmd.value)) else c;
    c1.(next := c.next + 1, executed := c.executed + [cmd])
  }

  predicate ReadyEntry(e: LogEntry) {
    e.decided && (e.decision == 1 ==> e.known)
  }

  predicate Ready(n: Node)
    requires Sized(n)
  {
    var e := n.log[n.core.next % 65536];
    e.sn == n.core.next && ReadyEntry(e)
  }

  function ExecOne(n: Node): (r: Node)
    requires Sized(n)
    ensures Sized(r)
  {
    n.(log := n.log[n.core.next % 65536 := BlankEntry(0)], core := Complete(n.core, SlotAt(n, n.core.next)))
  }

  function CountDecided(log: seq<LogEntry>): nat {
    if log == [] then 0
    else CountDecided(log[..|log| - 1]) + if log[|log| - 1].decided then 1 else 0
  }

  lemma {:induction false} ClearingLowersCount(log: seq<LogEntry>, i: nat, e: LogEntry)
    requires i < |log| && log[i].decided && !e.decided
    ensures CountDecided(log[i := e]) == CountDecided(log) - 1
  {
    var k := |log| - 1;
    if i == k {
      assert log[i := e][..k] == log[..k];
    } else {
      assert log[i := e][..k] == log[..k][i := e];
      ClearingLowersCount(log[..k], i, e);
    }
  }

  /** `advance_execute_locked`, one entry at a time: terminates because each
      execution clears a decided slot. */
  function Advance(n: Node): (r: Node)
    requires Sized(n)
    ensures Sized(r) && !Ready(r) && r.prop == n.prop
    decreases CountDecided(n.log)
  {
    if Ready(n) then
      ClearingLowersCount(n.log, n.core.next % 65536, BlankEntry(0));
      Advance(ExecOne(n))
    else n
  }

  // --------------------------------------------------------------- handlers

  function HandleProposal(n: Node, m: Message): (r: Node)
    requires Sized(n)
    ensures Sized(r)
  {
    var slot := m.sn % 65536;
    var e := Claim(n.log[slot], m.sn);
    n.(log := n.log[slot := AcceptProposal(e, m)],
       payloads := n.payloads[slot := AcceptPayload(e, n.payloads[slot], m)])
  }

  function Decide(n: Node, sn: nat, value: nat): (r: Node)
    requires Sized(n)
    ensures Sized(r)
  {
    var slot := sn % 65536;
    var e := Claim(n.log[slot], sn);
    var n1 := n.(log := n.log[slot := Settle(e, value)]);
    if e.decided then n1 else Advance(n1)
  }

  function HandleP1(n: Node, m: Message): (r: Node)
    requires Sized(n)
    ensures Sized(r)
  {
    if !PromiseValid(m) then n
    else
      var slot := m.sn % 65536;
      var e := AcceptPromise(Claim(n.log[slot], m.sn), m);
      var n1 := n.(log := n.log[slot := e]);
      if |e.promises| >= 2 then Decide(n1, m.sn, 1) else n1
  }

  function HandleDecide(n: Node, m: Message): (r: Node)
    requires Sized(n)
    ensures Sized(r)
  {
    var slot := m.sn % 65536;
    Advance(n.(log := n.log[slot := Settle(Claim(n.log[slot], m.sn), m.value)]))
  }

  /** One message inside a chunk: a proposal is recorded and its execution deferred. */
  function HandleDeferred(n: Node, m: Message): (r: Node)
    requires Sized(n)
    ensures Sized(r)
  {
    match m.kind
    case PROPOSAL => HandleProposal(n, m)
    case P1 => HandleP1(n, m)
    case DECIDE => HandleDecide(n, m)
    case P2 => n
  }

  /** `handle_message`: a proposal is executed at once if it can be. */
  function HandleMessage(n: Node, m: Message): (r: Node)
    requires Sized(n)
    ensures Sized(r)
  {
    if m.kind == PROPOSAL then Advance(HandleProposal(n, m)) else HandleDeferred(n, m)
  }

  function HandleAll(n: Node, ms: seq<Message>): (r: Node)
    requires Sized(n)
    ensures Sized(r)
  {
    if ms == [] then n else HandleDeferred(HandleAll(n, ms[..|ms| - 1]), ms[|ms| - 1])
  }

  function HandleEach(n: Node, ms: seq<Message>): (r: Node)
    requires Sized(n)
    ensures Sized(r)
  {
    if ms == [] then n else HandleMessage(HandleEach(n, ms[..|ms| - 1]), ms[|ms| - 1])
  }

  /** `handle_proposal_locked` over a list without executing, as on self-delivery. */
  function RecordAll(n: Node, ms: seq<Message>): (r: Node)
    requires Sized(n)
    ensures Sized(r) && r.core == n.core && r.prop == n.prop
  {
    if ms == [] then n else HandleProposal(RecordAll(n, ms[..|ms| - 1]), ms[|ms| - 1])
  }

  lemma {:induction false} SliceSnoc(h: seq<Message>, a: nat, b: nat)
    requires a <= b < |h|
    ensures h[a..b + 1][..b - a] == h[a..b] && h[a..b + 1][b - a] == h[b]
  {
  }

  lemma {:induction false} RecordAllSnoc(n: Node, h: seq<Message>, a: nat, b: nat)
    requires Sized(n) && a <= b < |h|
    ensures RecordAll(n, h[a..b + 1]) == HandleProposal(RecordAll(n, h[a..b]), h[b])
  {
    SliceSnoc(h, a, b);
  }

  lemma {:induction false} HandleDeferredProposal(n: Node, m: Message)
    requires Sized(n) && m.kind == PROPOSAL
    ensures HandleDeferred(n, m) == HandleProposal(n, m)
  {
  }

  lemma {:induction false} HandleAllProposals(n: Node, ms: seq<Message>)
    requires Sized(n) && forall i :: 0 <= i < |ms| ==> ms[i].kind == PROPOSAL
    ensures HandleAll(n, ms) == RecordAll(n, ms)
  {
    if ms != [] {
      HandleAllProposals(n, ms[..|ms| - 1]);
      HandleDeferredProposal(HandleAll(n, ms[..|ms| - 1]), ms[|ms| - 1]);
    }
  }

  predicate HasProposal(ms: seq<Message>) {
    exists i :: 0 <= i < |ms| && ms[i].kind == PROPOSAL
  }

  /** One critical section of `handle_messages_batch`. */
  function HandleChunk(n: Node, ms: seq<Message>): (r: Node)
    requires Sized(n)
    ensures Sized(r)
  {
    var n1 := HandleAll(n, ms);
    if HasProposal(ms) then Advance(n1) else n1
  }

  /** `handle_messages_batch`: chunks of at most 64 messages. */
  function HandleBatch(n: Node, ms: seq<Message>): (r: Node)
    requires Sized(n)
    ensures Sized(r)
    decreases |ms|
  {
    if |ms| <= 64 then HandleChunk(n, ms) else HandleBatch(HandleChunk(n, ms[..64]), ms[64..])
  }

  lemma {:induction false} ChunkOfProposals(n: Node, ms: seq<Message>)
    requires Sized(n) && ms != [] && forall i :: 0 <= i < |ms| ==> ms[i].kind == PROPOSAL
    ensures HandleChunk(n, ms) == Advance(RecordAll(n, ms))
  {
    HandleAllProposals(n, ms);
    assert ms[0].kind == PROPOSAL;
  }
}
