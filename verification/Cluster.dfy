/** Three replicas joined by pairwise rings, as a step system. Each step is one
    critical section, one publication or one drain; any interleaving is a run
    (src/bandle.cpp, src/main.cpp:394-413). */
module Cluster {
  import opened Types
  import opened NodeSpec

  // ------------------------------------------------------------ submission

  function AtLeast(a: nat, b: nat): nat {
    if a >= b then a else b
  }

  /** A request on its way to a number: the clock reading it will be stamped with
      and the stale bytes of the reused message buffer. */
  datatype Draft = Draft(req: Request, tsc: nat, scratch: Buffer)

  function KeyLen(r: Request): nat {
    if r.op == 'G' then 0 else AtMost(|r.key|, 1088)
  }

  function ValueLen(r: Request): nat {
    if r.op == 'G' then 0 else AtMost(|r.value|, 1088 - KeyLen(r))
  }

  /** The proposal built for a valid request, before it has a number (src/bandle.cpp:222-249). */
  function MakeProposal(id: nat, d: Draft): Message {
    var r := d.req;
    Message(PROPOSAL, 0, id, id, 0, 0, 1, 0, r.op, KeyLen(r), ValueLen(r),
            Overlay(d.scratch, r.key[..KeyLen(r)] + r.value[..ValueLen(r)]))
  }

  function Stamp(n: Node, m: Message, tsc: nat): Message {
    m.(sn := n.prop.nextSeq, startTsc := tsc, reqId := n.core.id * 0x100000000000000 + n.prop.nextReq)
  }

  /** One turn of the assignment loop (src/bandle.cpp:270-285). */
  function AssignOne(n: Node, d: Draft): (r: Node)
    requires Sized(n)
    ensures Sized(r)
  {
    var m := Stamp(n, MakeProposal(n.core.id, d), d.tsc);
    n.(prop := n.prop.(highest := AtLeast(n.prop.highest, n.prop.nextSeq),
                       nextSeq := n.prop.nextSeq + 3, nextReq := n.prop.nextReq + 1),
       core := n.core.(pending := n.core.pending[n.prop.nextReq % 65536 := Pending(m.reqId, m.op, d.tsc, false)],
                       pendingCount := n.core.pendingCount + 1))
  }

  function AssignAll(n: Node, ds: seq<Draft>): (r: Node)
    requires Sized(n)
    ensures Sized(r)
  {
    if ds == [] then n else AssignOne(AssignAll(n, ds[..|ds| - 1]), ds[|ds| - 1])
  }

  function Stamped(n: Node, ds: seq<Draft>): (ms: seq<Message>)
    requires Sized(n)
    ensures |ms| == |ds|
  {
    if ds == [] then []
    else
      var front, d := ds[..|ds| - 1], ds[|ds| - 1];
      Stamped(n, front) + [Stamp(AssignAll(n, front), MakeProposal(n.core.id, d), d.tsc)]
  }

  /** `max_inflight_seq_window`. */
  function Window(chunk: nat, configured: nat): nat {
    AtLeast(configured, 3 * AtLeast(chunk, 1) + 3)
  }

  predicate Admits(n: Node, chunk: nat, configured: nat)
    requires 1 <= chunk
  {
    n.prop.nextSeq + (chunk - 1) * 3 < n.core.next + Window(chunk, configured)
  }

  /** The admission test without `max_inflight_seq_window`. */
  lemma {:induction false} AdmitsExactly(n: Node, chunk: nat, configured: nat)
    requires 1 <= chunk
    ensures Admits(n, chunk, configured) <==>
            n.prop.nextSeq + 3 * (chunk - 1) < n.core.next + configured || n.prop.nextSeq < n.core.next + 6
  {
  }

  function NoopProposal(id: nat, sn: nat): Message {
    Message(PROPOSAL, sn, id, id, 0, 0, 1, 0, 'N', 0, 0, seq(1088, _ => '\0'))
  }

  function AssignNoop(n: Node): Node {
    n.(prop := n.prop.(highest := AtLeast(n.prop.highest, n.prop.nextSeq), nextSeq := n.prop.nextSeq + 3))
  }

  // ---------------------------------------------------------------- state

  /** What a client does next: submit a chunk of valid requests, or an invalid request. */
  datatype Input = Chunk(drafts: seq<Draft>) | Invalid

  /** What the sending side of a node is doing. A submitter that has a chunk stays in the
      admission loop (`Waiting`) until it is admitted. `sent` counts the peers published to. */
  datatype Phase =
    | Idle
    | Waiting(drafts: seq<Draft>)
    | Armed
    | Outgoing(batch: seq<Message>, noop: bool, reserved: bool, sent: nat)

  /** Admission window, admission batch, receive batch capacity, one receiver thread per
      source or one for both, and everything the node's client will submit. */
  datatype Config = Config(window: nat, batch: nat, recvMax: nat, perSource: bool, load: seq<Input>)

  /** `input`: what is left of the load. `inHand[src]`: messages drained from src whose tail
      is committed but which are not handled yet. `proposed` and `submitted` are history. */
  datatype Proc = Proc(
    cfg: Config, node: Node, phase: Phase, input: seq<Input>, inHand: seq<seq<Message>>, finished: bool,
    proposed: seq<Message>, submitted: nat)

  predicate ChunkOk(ds: seq<Draft>, batch: nat) {
    1 <= |ds| <= batch && AllClient(ds)
  }

  /** Reads, puts, updates and deletes, each with a message buffer. */
  predicate AllClient(ds: seq<Draft>) {
    forall k :: 0 <= k < |ds| ==> IsClient(ds[k])
  }

  predicate IsClient(d: Draft) {
    (d.req.op == 'G' || d.req.op == 'P' || d.req.op == 'U' || d.req.op == 'D') && |d.scratch| == 1088
  }

  /** Valid and invalid requests in a load. */
  function RequestsIn(load: seq<Input>): nat {
    if load == [] then 0 else RequestsIn(load[1..]) + if load[0].Chunk? then |load[0].drafts| else 0
  }

  function RejectsIn(load: seq<Input>): nat {
    if load == [] then 0 else RejectsIn(load[1..]) + if load[0].Invalid? then 1 else 0
  }

  function DraftsOf(ph: Phase): seq<Draft> {
    if ph.Waiting? then ph.drafts else []
  }

  /** Valid requests that have no number yet. */
  function Due(p: Proc): nat {
    |DraftsOf(p.phase)| + RequestsIn(p.input)
  }

  /** A ring as a queue: everything published, and how much of it was consumed. */
  datatype Ring = Ring(sent: seq<Message>, tail: nat)

  /** Index 0 is unused, as in the shared arrays. */
  datatype System = System(procs: seq<Proc>, rings: seq<seq<Ring>>)

  predicate Shape(c: System) {
    && |c.procs| == 4 && |c.rings| == 4
    && (forall i :: 0 <= i < 4 ==> |c.rings[i]| == 4 && |c.procs[i].inHand| == 4 && Sized(c.procs[i].node))
  }

  function SetProc(c: System, i: nat, p: Proc): System
    requires i < |c.procs|
  {
    c.(procs := c.procs[i := p])
  }

  function SetRing(c: System, i: nat, j: nat, r: Ring): System
    requires i < |c.rings| && j < |c.rings[i]|
  {
    c.(rings := c.rings[i := c.rings[i][j := r]])
  }

  /** Peers in the order the broadcast loops visit them. */
  function Peer(i: nat, k: nat): (j: nat)
    requires 1 <= i <= 3 && k < 2
    ensures 1 <= j <= 3 && j != i
  {
    if k == 0 then (if i == 1 then 2 else 1) else (if i == 3 then 2 else 3)
  }

  predicate HasSpace(r: Ring, count: nat) {
    |r.sent| - r.tail + count <= 32768
  }

  predicate AllFinished(c: System)
    requires |c.procs| == 4
  {
    c.procs[1].finished && c.procs[2].finished && c.procs[3].finished
  }

  // ----------------------------------------------------------------- steps

  datatype Step =
    | Reject(i: nat)
    | Submit(i: nat)
    | Assign(i: nat, drafts: seq<Draft>)
    | Reserve(i: nat)
    | Publish(i: nat)
    | SelfDeliver(i: nat)
    | Drain(i: nat, src: nat, count: nat)
    | Handle(i: nat, src: nat)
    | MarkDone(i: nat)
    | ArmNoop(i: nat)
    | ProposeNoop(i: nat)
    | Finish(i: nat)

  predicate Enabled(c: System, st: Step)
    requires Shape(c)
  {
    1 <= st.i <= 3 &&
    var p := c.procs[st.i];
    match st
    case Reject(_) => p.phase.Idle? && p.input != [] && p.input[0].Invalid?
    case Submit(_) => p.phase.Idle? && p.input != [] && p.input[0].Chunk?
    case Assign(i, ds) => p.phase == Waiting(ds) && ds != [] && Admits(p.node, |ds|, p.cfg.window)
    case Reserve(i) =>
      && p.phase.Outgoing? && !p.phase.reserved
      && HasSpace(c.rings[i][Peer(i, 0)], |p.phase.batch|) && HasSpace(c.rings[i][Peer(i, 1)], |p.phase.batch|)
    case Publish(i) =>
      && p.phase.Outgoing? && p.phase.reserved && p.phase.sent < 2
      && (p.phase.noop ==> HasSpace(c.rings[i][Peer(i, p.phase.sent)], |p.phase.batch|))
    case SelfDeliver(i) => p.phase.Outgoing? && p.phase.reserved && p.phase.sent == 2
    case Drain(i, src, count) =>
      && 1 <= src <= 3 && src != i && p.inHand[src] == []
      && (p.cfg.perSource || forall s :: 1 <= s <= 3 && s != i ==> p.inHand[s] == [])
      && c.rings[src][i].tail <= |c.rings[src][i].sent|
      && 1 <= count <= |c.rings[src][i].sent| - c.rings[src][i].tail && count <= p.cfg.recvMax
    case Handle(i, src) => 1 <= src <= 3 && src != i && p.inHand[src] != []
    case MarkDone(_) => p.phase.Idle? && p.input == [] && !p.node.prop.inputDone
    case ArmNoop(_) =>
      && p.phase.Idle? && p.node.prop.inputDone && !AllFinished(c)
      && p.node.prop.highest < p.node.core.next + 1536
    case ProposeNoop(_) => p.phase.Armed?
    case Finish(_) => p.node.prop.inputDone && p.node.core.pendingCount == 0 && !p.finished
  }

  // What each step makes of the process taking it.

  function Rejected(p: Proc): Proc
    requires p.input != []
  {
    var core := p.node.core;
    p.(node := p.node.(core := core.(errors := core.errors + 1, total := core.total + 1)),
       input := p.input[1..], submitted := p.submitted + 1)
  }

  /** The submitter enters the admission loop with its next chunk. */
  function Submitted(p: Proc): Proc
    requires p.input != [] && p.input[0].Chunk?
  {
    p.(phase := Waiting(p.input[0].drafts), input := p.input[1..], submitted := p.submitted + |p.input[0].drafts|)
  }

  function Assigned(p: Proc, ds: seq<Draft>): Proc
    requires Sized(p.node)
  {
    var ms := Stamped(p.node, ds);
    p.(node := AssignAll(p.node, ds), phase := Outgoing(ms, false, false, 0),
       proposed := p.proposed + ms)
  }

  function SelfDelivered(p: Proc): Proc
    requires Sized(p.node) && p.phase.Outgoing?
  {
    p.(node := Advance(RecordAll(p.node, p.phase.batch)), phase := Idle)
  }

  /** The messages of the next critical section of `handle_messages_batch`. */
  function ChunkSize(hand: seq<Message>): (k: nat)
    ensures k <= |hand| && k <= 64 && (hand != [] ==> 0 < k)
  {
    AtMost(|hand|, 64)
  }

  function Handled(p: Proc, src: nat): Proc
    requires Sized(p.node) && src < |p.inHand|
  {
    var hand := p.inHand[src];
    p.(node := HandleChunk(p.node, hand[..ChunkSize(hand)]), inHand := p.inHand[src := hand[ChunkSize(hand)..]])
  }

  function InputMarkedDone(p: Proc): Proc {
    p.(node := p.node.(prop := p.node.prop.(inputDone := true)))
  }

  function NoopProposed(p: Proc): Proc {
    var m := NoopProposal(p.node.core.id, p.node.prop.nextSeq);
    p.(node := AssignNoop(p.node), phase := Outgoing([m], true, true, 0), proposed := p.proposed + [m])
  }

  function PublishTo(c: System, i: nat): System
    requires Shape(c) && 1 <= i <= 3 && c.procs[i].phase.Outgoing? && c.procs[i].phase.sent < 2
  {
    var p := c.procs[i];
    var j := Peer(i, p.phase.sent);
    var r := c.rings[i][j];
    SetProc(SetRing(c, i, j, r.(sent := r.sent + p.phase.batch)), i, p.(phase := p.phase.(sent := p.phase.sent + 1)))
  }

  function DrainFrom(c: System, i: nat, src: nat, count: nat): System
    requires Shape(c) && i < 4 && src < 4 && c.rings[src][i].tail + count <= |c.rings[src][i].sent|
  {
    var p, r := c.procs[i], c.rings[src][i];
    SetProc(SetRing(c, src, i, r.(tail := r.tail + count)), i,
            p.(inHand := p.inHand[src := r.sent[r.tail..r.tail + count]]))
  }

  function Next(c: System, st: Step): System
    requires Shape(c) && Enabled(c, st)
  {
    var i, p := st.i, c.procs[st.i];
    match st
    case Reject(_) => SetProc(c, i, Rejected(p))
    case Submit(_) => SetProc(c, i, Submitted(p))
    case Assign(_, ds) => SetProc(c, i, Assigned(p, ds))
    case Reserve(_) => SetProc(c, i, p.(phase := p.phase.(reserved := true)))
    case Publish(_) => PublishTo(c, i)
    case SelfDeliver(_) => SetProc(c, i, SelfDelivered(p))
    case Drain(_, src, count) => DrainFrom(c, i, src, count)
    case Handle(_, src) => SetProc(c, i, Handled(p, src))
    case MarkDone(_) => SetProc(c, i, InputMarkedDone(p))
    case ArmNoop(_) => SetProc(c, i, p.(phase := Armed))
    case ProposeNoop(_) => SetProc(c, i, NoopProposed(p))
    case Finish(_) => SetProc(c, i, p.(finished := true))
  }

  // ------------------------------------------------------------------ runs

  function InitialNode(id: nat, preload: map<string, string>): (n: Node)
    ensures Sized(n)
  {
    Node(seq(65536, _ => BlankEntry(0)), seq(65536, _ => seq(1088, _ => '\0')),
         Core(id, 1, [], preload, seq(65536, _ => Pending(0, 'G', 0, false)), 0, 0, 0, 0, 0, 0, 0, 0),
         Proposer(id, 0, 1, false))
  }

  function InitialProc(id: nat, cfg: Config, preload: map<string, string>): Proc {
    Proc(cfg, InitialNode(id, preload), Idle, cfg.load, [[], [], [], []], false, [], 0)
  }

  /** All replicas start from the same preload (src/main.cpp:289-310). */
  function Initial(cfgs: seq<Config>, preload: map<string, string>): (c: System)
    requires |cfgs| == 4
    ensures Shape(c)
  {
    System(seq(4, i requires 0 <= i < 4 => InitialProc(i, cfgs[i], preload)), seq(4, _ => seq(4, _ => Ring([], 0))))
  }

  /** `run` lists the states of a run, `steps` what happened between them. */
  ghost predicate IsRun(run: seq<System>, steps: seq<Step>) {
    && |run| == |steps| + 1
    && (forall k :: 0 <= k < |run| ==> Shape(run[k]))
    && (forall k :: 0 <= k < |steps| ==> Enabled(run[k], steps[k]) && run[k + 1] == Next(run[k], steps[k]))
  }
}
