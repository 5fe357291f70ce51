/** The deployed system is not stuck either: while a client is not served, some load, store
    or local step is enabled. */
module DeployedProgress {
  import opened Types
  import opened NodeSpec
  import opened Agreement
  import opened Deployed
  import opened Refinement
  import C = Cluster
  import I = Invariant
  import K = Safety
  import P = Progress
  import M = RingModel
  import S = RingSafety
  import F = RingFifo

  // ---------------------------------------------------------------- senders

  /** What a producer does next with a batch whose messages fit. */
  lemma {:induction false} WriterGoes(s: M.State) returns (rs: M.Step)
    requires M.Formed(s) && s.prod.Writing?
    requires forall k :: 0 <= k < |s.prod.batch| ==> M.Fits(s.prod.batch[k])
    ensures M.Enabled(s, rs) && (rs.StorePayload? || rs.StoreWord? || rs.PublishHead?)
  {
    if s.prod.i == |s.prod.batch| {
      rs := M.PublishHead;
    } else if s.prod.off < M.Bytes(s.prod.batch[s.prod.i]) {
      rs := M.StorePayload;
    } else {
      rs := M.StoreWord;
    }
  }

  /** A batch as the protocol sends it: not empty, of bounded size, each message fitting. */
  predicate Sendable(batch: seq<Message>) {
    1 <= |batch| <= 32768 && forall k :: 0 <= k < |batch| ==> M.Fits(batch[k])
  }

  /** Before a batch is reserved, each ring's space check can go on until it has succeeded. */
  lemma {:induction false} CheckGoes(d: System, i: nat, j: nat)
    requires Coupled(d) && Link(i, j) && d.procs[i].phase.Outgoing? && Sendable(d.procs[i].phase.batch)
    requires d.procs[i].phase.sent <= I.PeerRank(i, j) && !d.links[i][j].prod.Writing?
    requires !d.procs[i].phase.reserved || (d.procs[i].phase.noop && j == C.Peer(i, d.procs[i].phase.sent))
    ensures Enabled(d, Produce(i, j, M.StartPush(d.procs[i].phase.batch))) || Enabled(d, Produce(i, j, M.CheckSpace))
  {
    hide M.Formed, Sized, LinkOk, ReceiverOk;
  }

  lemma {:induction false} SenderGoes(d: System, i: nat) returns (st: Step)
    requires Coupled(d) && 1 <= i <= 3 && d.procs[i].phase.Outgoing? && Sendable(d.procs[i].phase.batch)
    requires var ph := d.procs[i].phase; if ph.reserved then ph.sent < 2 else ph.sent == 0
    ensures Enabled(d, st)
  {
    var ph := d.procs[i].phase;
    var x, y := C.Peer(i, 0), C.Peer(i, 1);
    if ph.reserved {
      st := ReservedGoes(d, i);
    } else if !d.links[i][x].prod.Writing? {
      CheckGoes(d, i, x);
      st := if Enabled(d, Produce(i, x, M.CheckSpace)) then Produce(i, x, M.CheckSpace)
            else Produce(i, x, M.StartPush(ph.batch));
    } else if !d.links[i][y].prod.Writing? {
      CheckGoes(d, i, y);
      st := if Enabled(d, Produce(i, y, M.CheckSpace)) then Produce(i, y, M.CheckSpace)
            else Produce(i, y, M.StartPush(ph.batch));
    } else {
      st := Reserved(i);
    }
    hide Coupled;
  }

  lemma {:induction false} ReservedGoes(d: System, i: nat) returns (st: Step)
    requires Coupled(d) && 1 <= i <= 3 && d.procs[i].phase.Outgoing? && Sendable(d.procs[i].phase.batch)
    requires d.procs[i].phase.reserved && d.procs[i].phase.sent < 2
    ensures Enabled(d, st)
  {
    var ph := d.procs[i].phase;
    var j := C.Peer(i, ph.sent);
    var s := d.links[i][j];
    assert LinkOk(d.procs[i], d.procs[j], s, i, j);
    hide S.Inv, ReceiverOk;
    if s.prod.Writing? {
      var rs := WriterGoes(s);
      st := Produce(i, j, rs);
    } else {
      CheckGoes(d, i, j);
      st := if Enabled(d, Produce(i, j, M.CheckSpace)) then Produce(i, j, M.CheckSpace)
            else Produce(i, j, M.StartPush(ph.batch));
    }
    hide Coupled, M.Formed, Sized;
  }

  // -------------------------------------------------------------- receivers

  lemma {:induction false} ReaderGoes(d: System, i: nat, j: nat) returns (st: Step)
    requires Shape(d) && Link(i, j) && !d.links[i][j].cons.Waiting? && d.procs[j].cfg.recvMax >= 1
    ensures Enabled(d, st)
  {
    var s := d.links[i][j];
    var scratch: Buffer := seq(1088, _ => '\0');
    assert M.Formed(s);
    var rs: M.Step;
    match s.cons {
      case Looking(_) => rs := M.LoadHead(d.procs[j].cfg.recvMax);
      case Describing(_, _, _, w) => rs := if |w| < 12 then M.LoadWord else M.AcceptWords(scratch);
      case Copying(_, _, out, k, off) =>
        rs := if k == |out| then M.CommitTail else if off < M.Bytes(out[k]) then M.CopyByte else M.NextPayload;
    }
    st := Consume(i, j, rs);
    hide Sized;
  }

  lemma {:induction false} ReceiverGoes(d: System, i: nat, j: nat) returns (st: Step)
    requires Shape(d) && Link(i, j) && d.procs[j].cfg.recvMax >= 1 && d.procs[j].inHand[i] == []
    requires d.procs[j].cfg.perSource || forall s :: 1 <= s <= 3 && s != j ==> d.procs[j].inHand[s] == []
    ensures Enabled(d, st)
  {
    hide Sized, M.Formed;
    if !d.links[i][j].cons.Waiting? {
      st := ReaderGoes(d, i, j);
    } else if s: nat :| 1 <= s <= 3 && s != j && !d.links[s][j].cons.Waiting? {
      st := ReaderGoes(d, s, j);
    } else {
      st := Consume(i, j, M.StartRead);
    }
  }

  // ----------------------------------------------------------------- system

  lemma {:induction false} SameSym(a: seq<Message>, b: seq<Message>)
    requires F.SameMessages(a, b)
    ensures F.SameMessages(b, a)
  {
    forall k | 0 <= k < |a| ensures M.SameMessage(b[k], a[k]) {
      assert M.SameMessage(a[k], b[k]);
    }
  }

  lemma {:induction false} AlikeSym(c: C.System, a: C.System)
    requires Alike(c, a)
    ensures Alike(a, c)
  {
    hide F.SameMessages;
    forall i | 0 <= i < 4 ensures SameProc(a.procs[i], c.procs[i]) {
      assert SameProc(c.procs[i], a.procs[i]);
      forall s | 0 <= s < 4 ensures F.SameMessages(a.procs[i].inHand[s], c.procs[i].inHand[s]) {
        SameSym(c.procs[i].inHand[s], a.procs[i].inHand[s]);
      }
    }
  }

  lemma {:induction false} SendStepFacts(c: C.System, i: nat)
    requires C.Shape(c) && (C.Enabled(c, C.Reserve(i)) || C.Enabled(c, C.Publish(i)))
    ensures 1 <= i <= 3 && c.procs[i].phase.Outgoing?
    ensures var ph := c.procs[i].phase; if ph.reserved then ph.sent < 2 else C.Enabled(c, C.Reserve(i))
  {
    hide Sized;
  }

  lemma {:induction false} BatchSendable(c: C.System, w: nat, preload: map<string, string>, i: nat)
    requires C.Shape(c) && 1 <= i <= 3 && c.procs[i].phase.Outgoing?
    requires I.Inv(c, w, preload)
    ensures Sendable(c.procs[i].phase.batch) && (!c.procs[i].phase.reserved ==> c.procs[i].phase.sent == 0)
  {
    hide I.Inv;
    OutgoingFits(c, w, preload, i);
    P.OutgoingFacts(c, w, preload, i);
    UndeliveredBound(c, w, preload, i, i);
    BatchUndelivered(c, i);
    hide M.Fits;
  }

  lemma {:induction false} BatchUndelivered(c: C.System, i: nat)
    requires C.Shape(c) && 1 <= i <= 3 && c.procs[i].phase.Outgoing? &&
             |c.procs[i].phase.batch| <= |c.procs[i].proposed|
    ensures |c.procs[i].proposed| - I.Delivered(c, i)[i] == |c.procs[i].phase.batch|
  {
  }

  lemma {:induction false} LocalGoes(d: System, cs: C.Step)
    requires Shape(d) && IsLocal(cs) && C.Shape(Raw(d)) && C.Enabled(Raw(d), cs)
    ensures Enabled(d, Local(cs))
  {
    hide Shape, C.Enabled, C.Shape;
  }

  lemma {:induction false} DrainGoes(d: System, cs: C.Step) returns (st: Step)
    requires Shape(d) && cs.Drain? && C.Shape(Raw(d)) && C.Enabled(Raw(d), cs)
    ensures Enabled(d, st)
  {
    DrainFacts(Raw(d), cs.i, cs.src, cs.count);
    hide C.Enabled, Enabled, Shape, C.Shape;
    st := ReceiverGoes(d, cs.src, cs.i);
  }

  lemma {:induction false} SendGoes(d: System, cs: C.Step, w: nat, preload: map<string, string>, a: C.System)
    returns (st: Step)
    requires Shape(d) && Coupled(d) && C.Shape(a) && Alike(Raw(d), a) && C.Enabled(a, cs) &&
             (cs.Reserve? || cs.Publish?)
    requires I.Inv(a, w, preload)
    ensures Enabled(d, st)
  {
    hide I.Inv, Alike, Coupled, C.Enabled, Enabled, Shape, C.Shape, Sendable;
    SendStepFacts(a, cs.i);
    BatchSendable(a, w, preload, cs.i);
    SamePhase(d, a, cs.i);
    st := SenderGoes(d, cs.i);
  }

  /** Every step the cluster can take has a counterpart that is enabled. */
  lemma {:induction false} StepEnabled(d: System, cs: C.Step, w: nat, preload: map<string, string>, a: C.System)
    returns (st: Step)
    requires Coupled(d) && C.Shape(a) && Alike(Raw(d), a) && C.Enabled(a, cs)
    requires I.Inv(a, w, preload)
    ensures Enabled(d, st)
  {
    hide I.Inv, Alike, Coupled, C.Enabled, Enabled, Shape, C.Shape;
    CoupledShape(d);
    RawShape(d);
    AlikeSym(Raw(d), a);
    AlikeEnabled(a, Raw(d), cs);
    if IsLocal(cs) {
      st := Local(cs);
      LocalGoes(d, cs);
    } else if cs.Drain? {
      st := DrainGoes(d, cs);
    } else {
      st := SendGoes(d, cs, w, preload, a);
    }
  }

  lemma {:induction false} SamePhase(d: System, a: C.System, i: nat)
    requires Shape(d) && Alike(Raw(d), a) && 1 <= i <= 3
    ensures |a.procs| == 4 && a.procs[i].phase == d.procs[i].phase && a.procs[i].input == d.procs[i].input
    ensures a.procs[i].node == d.procs[i].node
  {
    hide Sized, M.Formed, F.SameMessages;
    assert SameProc(Raw(d).procs[i], a.procs[i]);
  }

  lemma {:induction false} DrainFacts(c: C.System, i: nat, src: nat, count: nat)
    requires C.Shape(c) && C.Enabled(c, C.Drain(i, src, count))
    ensures Link(src, i) && c.procs[i].cfg.recvMax >= 1 && c.procs[i].inHand[src] == []
    ensures c.procs[i].cfg.perSource || forall s :: 1 <= s <= 3 && s != i ==> c.procs[i].inHand[s] == []
  {
    hide Sized;
  }

  /** While a client of any node is not served, the deployed system can take a step. */
  lemma {:induction false} DeployedNeverStuck(run: seq<System>, steps: seq<Step>, g: Setup, t: nat, j: nat)
    returns (st: Step)
    requires IsRun(run, steps, g) && t < |run| && 1 <= j <= 3 && Shape(run[t]) && P.Busy(run[t].procs[j])
    ensures Enabled(run[t], st)
  {
    var a0, s0 := InitialBehind(run, steps, g);
    var arun, asteps := RunRefines(run, steps, g, 0, t, a0, s0);
    hide IsRun, Behind;
    BehindParts(run[t], arun, asteps, g);
    var a := arun[|asteps|];
    hide Execution, Coupled, Alike, I.Inv, Enabled, C.Enabled, P.Covers, P.HighestNumber, P.Useful;
    ReachableInv(arun, asteps, g, |asteps|);
    SamePhase(run[t], a, j);
    P.HighestCovers(a, g.w, g.preload);
    var cs := P.BusyAdvances(a, g.w, g.preload, j, P.HighestNumber(a));
    st := StepEnabled(run[t], cs, g.w, g.preload, a);
  }
}
