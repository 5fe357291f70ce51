/** The cluster with its six rings at the grain of single loads and stores: every run of it
    is a run of the cluster with queues, up to bytes no handler reads. */
module Deployed {
  import opened Types
  import opened NodeSpec
  import opened Agreement
  import C = Cluster
  import I = Invariant
  import M = RingModel
  import S = RingSafety
  import F = RingFifo

  // ----------------------------------------------------------------- state

  /** `links[i][j]` is the ring from i to j. */
  datatype System = System(procs: seq<C.Proc>, links: seq<seq<M.State>>)

  predicate Shape(d: System) {
    && |d.procs| == 4 && |d.links| == 4
    && (forall i :: 0 <= i < 4 ==> |d.links[i]| == 4 && |d.procs[i].inHand| == 4 && Sized(d.procs[i].node))
    && (forall i, j :: 0 <= i < 4 && 0 <= j < 4 ==> M.Formed(d.links[i][j]))
  }

  /** The same system with each ring seen as a queue. */
  function Row(row: seq<M.State>): (q: seq<C.Ring>)
    ensures |q| == |row| && forall j :: 0 <= j < |row| ==> q[j] == F.AsQueue(row[j])
  {
    seq(|row|, j requires 0 <= j < |row| => F.AsQueue(row[j]))
  }

  function Queues(links: seq<seq<M.State>>): (q: seq<seq<C.Ring>>)
    ensures |q| == |links| && forall i :: 0 <= i < |links| ==> q[i] == Row(links[i])
  {
    seq(|links|, i requires 0 <= i < |links| => Row(links[i]))
  }

  function Raw(d: System): C.System {
    C.System(d.procs, Queues(d.links))
  }

  function SetProc(d: System, i: nat, p: C.Proc): System
    requires i < |d.procs|
  {
    d.(procs := d.procs[i := p])
  }

  function SetLink(d: System, i: nat, j: nat, s: M.State): System
    requires i < |d.links| && j < |d.links[i]|
  {
    d.(links := d.links[i := d.links[i][j := s]])
  }

  predicate Link(i: nat, j: nat) {
    1 <= i <= 3 && 1 <= j <= 3 && i != j
  }

  // ----------------------------------------------------------------- steps

  /** `Local`: a step of one node that touches no ring. `Reserved`: both space checks of a
      batch have succeeded. `Produce` and `Consume`: one load or store on a ring. */
  datatype Step =
    | Local(st: C.Step)
    | Reserved(i: nat)
    | Produce(i: nat, j: nat, rs: M.Step)
    | Consume(i: nat, j: nat, rs: M.Step)

  predicate IsLocal(st: C.Step) {
    !st.Reserve? && !st.Publish? && !st.Drain?
  }

  /** When the broadcast loops touch the ring to j: a batch is checked before it is reserved
      and written after; a no-op is pushed to one peer after the other. Heads are published in
      peer order. */
  predicate ProducerTurn(p: C.Proc, i: nat, j: nat, rs: M.Step)
    requires Link(i, j)
  {
    && p.phase.Outgoing? && p.phase.sent <= I.PeerRank(i, j)
    && match rs
       case StartPush(batch) => batch == p.phase.batch && (!p.phase.reserved || (p.phase.noop &&
         j == C.Peer(i, p.phase.sent)))
       case CheckSpace => true
       case StorePayload => p.phase.reserved
       case StoreWord => p.phase.reserved
       case Abandon => p.phase.reserved
       case PublishHead => p.phase.reserved && j == C.Peer(i, p.phase.sent)
       case _ => false
  }

  /** One receiver thread per source, or one that turns to a source only when it holds
      nothing and reads nowhere else. */
  predicate MayRead(d: System, i: nat, j: nat)
    requires Shape(d) && Link(i, j)
  {
    var q := d.procs[j];
    && q.inHand[i] == []
    && (q.cfg.perSource ||
        forall s :: 1 <= s <= 3 && s != j && s != i ==> q.inHand[s] == [] && d.links[s][j].cons.Waiting?)
  }

  predicate ConsumerTurn(d: System, i: nat, j: nat, rs: M.Step)
    requires Shape(d) && Link(i, j)
  {
    match rs
    case StartRead => MayRead(d, i, j)
    case LoadHead(max) => max == d.procs[j].cfg.recvMax
    case LoadWord => true
    case AcceptWords(_) => true
    case CopyByte => true
    case NextPayload => true
    case CommitTail => true
    case _ => false
  }

  predicate Enabled(d: System, st: Step)
    requires Shape(d)
  {
    match st
    case Local(cs) => IsLocal(cs) && C.Shape(Raw(d)) && C.Enabled(Raw(d), cs)
    case Reserved(i) =>
      && 1 <= i <= 3 && d.procs[i].phase.Outgoing? && !d.procs[i].phase.reserved
      && d.links[i][C.Peer(i, 0)].prod.Writing? && d.links[i][C.Peer(i, 1)].prod.Writing?
    case Produce(i, j, rs) => Link(i, j) && ProducerTurn(d.procs[i], i, j, rs) && M.Enabled(d.links[i][j], rs)
    case Consume(i, j, rs) => Link(i, j) && ConsumerTurn(d, i, j, rs) && M.Enabled(d.links[i][j], rs)
  }

  /** What a ring step means to its sender: a published head counts the peer, and a batch
      given up half-written is not published to anyone any more. */
  function Sender(p: C.Proc, rs: M.Step): C.Proc
    requires p.phase.Outgoing?
  {
    if rs.PublishHead? then p.(phase := p.phase.(sent := p.phase.sent + 1))
    else if rs.Abandon? then p.(phase := p.phase.(sent := 2))
    else p
  }

  /** What it means to its receiver: committed messages are in hand. */
  function Receiver(q: C.Proc, i: nat, s: M.State, rs: M.Step): C.Proc
    requires i < |q.inHand|
  {
    if rs.CommitTail? && s.cons.Copying? then q.(inHand := q.inHand[i := s.cons.out]) else q
  }

  function Next(d: System, st: Step): System
    requires Shape(d) && Enabled(d, st)
  {
    match st
    case Local(cs) => d.(procs := C.Next(Raw(d), cs).procs)
    case Reserved(i) => SetProc(d, i, d.procs[i].(phase := d.procs[i].phase.(reserved := true)))
    case Produce(i, j, rs) =>
      SetProc(SetLink(d, i, j, M.Next(d.links[i][j], rs)), i, Sender(d.procs[i], rs))
    case Consume(i, j, rs) =>
      SetProc(SetLink(d, i, j, M.Next(d.links[i][j], rs)), j, Receiver(d.procs[j], i, d.links[i][j], rs))
  }

  function Initial(cfgs: seq<C.Config>, preload: map<string, string>): (d: System)
    requires |cfgs| == 4
    ensures Shape(d)
  {
    System(C.Initial(cfgs, preload).procs, seq(4, _ => seq(4, _ => M.Initial())))
  }

  ghost predicate IsRun(run: seq<System>, steps: seq<Step>, g: Setup) {
    && |run| == |steps| + 1 && |g.cfgs| == 4 && run[0] == Initial(g.cfgs, g.preload)
    && (forall i :: 1 <= i <= 3 ==> I.ConfigOk(g.cfgs[i], g.w))
    && (forall k :: 0 <= k < |run| ==> Shape(run[k]))
    && (forall k :: 0 <= k < |steps| ==> Enabled(run[k], steps[k]) && run[k + 1] == Next(run[k], steps[k]))
  }

  // -------------------------------------------------------------- coupling

  /** The space check for a batch that is not published to j yet has succeeded. */
  predicate Unpublished(p: C.Proc, i: nat, j: nat)
    requires Link(i, j)
  {
    p.phase.Outgoing? && p.phase.reserved && !p.phase.noop && p.phase.sent <= I.PeerRank(i, j)
  }

  /** The sender's side of a ring, and how much its reader may take at once. */
  ghost predicate LinkOk(p: C.Proc, q: C.Proc, s: M.State, i: nat, j: nat)
    requires Link(i, j)
  {
    && S.Inv(s)
    && (s.prod.Resting? ||
        (p.phase.Outgoing? && s.prod.batch == p.phase.batch && p.phase.sent <= I.PeerRank(i, j)))
    && (Unpublished(p, i, j) ==> s.prod.Writing?)
    && (s.cons.Describing? || s.cons.Copying? ==> s.cons.count <= q.cfg.recvMax)
  }

  /** A receiver reads a ring only while it may. */
  ghost predicate ReceiverOk(d: System, j: nat)
    requires Shape(d) && 1 <= j <= 3
  {
    forall i: nat :: Link(i, j) && !d.links[i][j].cons.Waiting? ==> MayRead(d, i, j)
  }

  ghost predicate Coupled(d: System) {
    && Shape(d)
    && (forall i: nat, j: nat :: Link(i, j) ==> LinkOk(d.procs[i], d.procs[j], d.links[i][j], i, j))
    && (forall j: nat :: 1 <= j <= 3 ==> ReceiverOk(d, j))
  }

  // ------------------------------------------- equal up to unread bytes

  /** Same process, except for bytes of held messages beyond their lengths. */
  ghost predicate SameProc(p: C.Proc, q: C.Proc) {
    && q == p.(inHand := q.inHand) && |p.inHand| == |q.inHand| == 4
    && forall s :: 0 <= s < 4 ==> F.SameMessages(p.inHand[s], q.inHand[s])
  }

  ghost predicate Alike(c: C.System, a: C.System) {
    && c.rings == a.rings && |c.procs| == |a.procs| == 4
    && forall i :: 0 <= i < 4 ==> SameProc(c.procs[i], a.procs[i])
  }
}
