/** The deployed system refines the cluster: each load or store on a ring is invisible, a
    publication or a drain of the cluster, and everything the cluster guarantees carries over. */
module Refinement {
  import opened Types
  import opened NodeSpec
  import opened Agreement
  import opened Deployed
  import C = Cluster
  import I = Invariant
  import K = Safety
  import M = RingModel
  import S = RingSafety
  import F = RingFifo
  import T = Theorems

  // ---------------------------------------------------------- equal messages

  lemma {:induction false} SameRefl(a: seq<Message>)
    ensures F.SameMessages(a, a)
  {
  }

  lemma {:induction false} SameTrans(a: seq<Message>, b: seq<Message>, c: seq<Message>)
    requires F.SameMessages(a, b) && F.SameMessages(b, c)
    ensures F.SameMessages(a, c)
  {
    forall k | 0 <= k < |a| ensures M.SameMessage(a[k], c[k]) {
      assert M.SameMessage(a[k], b[k]) && M.SameMessage(b[k], c[k]);
    }
  }

  lemma {:induction false} SameSlice(a: seq<Message>, b: seq<Message>, k: nat)
    requires F.SameMessages(a, b) && k <= |a|
    ensures F.SameMessages(a[..k], b[..k]) && F.SameMessages(a[k..], b[k..])
  {
    hide M.SameMessage;
  }

  lemma {:induction false} AlikeRefl(c: C.System)
    requires C.Shape(c)
    ensures Alike(c, c)
  {
    hide F.SameMessages, Sized;
    forall i | 0 <= i < 4 ensures SameProc(c.procs[i], c.procs[i]) {
      forall s | 0 <= s < 4 ensures F.SameMessages(c.procs[i].inHand[s], c.procs[i].inHand[s]) {
        SameRefl(c.procs[i].inHand[s]);
      }
    }
  }

  lemma {:induction false} ProcTrans(p: C.Proc, q: C.Proc, r: C.Proc)
    requires SameProc(p, q) && SameProc(q, r)
    ensures SameProc(p, r)
  {
    hide F.SameMessages;
    forall s | 0 <= s < 4 ensures F.SameMessages(p.inHand[s], r.inHand[s]) {
      SameTrans(p.inHand[s], q.inHand[s], r.inHand[s]);
    }
  }

  lemma {:induction false} AlikeTrans(c: C.System, b: C.System, a: C.System)
    requires Alike(c, b) && Alike(b, a)
    ensures Alike(c, a)
  {
    hide SameProc;
    forall i | 0 <= i < 4 ensures SameProc(c.procs[i], a.procs[i]) {
      ProcTrans(c.procs[i], b.procs[i], a.procs[i]);
    }
  }

  // ----------------------------- the cluster cannot tell equal messages apart

  lemma {:induction false} FinishedAlike(c: C.System, a: C.System)
    requires Alike(c, a)
    ensures C.AllFinished(c) == C.AllFinished(a)
  {
    assert SameProc(c.procs[1], a.procs[1]) && SameProc(c.procs[2], a.procs[2]) && SameProc(c.procs[3], a.procs[3]);
  }

  lemma {:induction false} HandsAlike(p: C.Proc, q: C.Proc, s: nat)
    requires SameProc(p, q) && s < 4
    ensures p.inHand[s] == [] <==> q.inHand[s] == []
  {
    assert F.SameMessages(p.inHand[s], q.inHand[s]);
  }

  lemma {:induction false} AlikeEnabled(c: C.System, a: C.System, st: C.Step)
    requires C.Shape(c) && C.Shape(a) && Alike(c, a) && C.Enabled(c, st)
    ensures C.Enabled(a, st)
  {
    hide Sized, C.Admits, C.HasSpace, F.SameMessages, C.AllFinished;
    FinishedAlike(c, a);
    var p, q := c.procs[st.i], a.procs[st.i];
    assert SameProc(p, q);
    forall s | 0 <= s < 4 ensures p.inHand[s] == [] <==> q.inHand[s] == [] {
      HandsAlike(p, q, s);
    }
    assert q == p.(inHand := q.inHand) && c.rings == a.rings;
    hide SameProc, Alike;
  }

  lemma {:induction false} SetAlike(c: C.System, a: C.System, i: nat, p: C.Proc, q: C.Proc)
    requires Alike(c, a) && i < 4 && SameProc(p, q)
    ensures Alike(C.SetProc(c, i, p), C.SetProc(a, i, q))
  {
    hide SameProc;
  }

  lemma {:induction false} HandledAlike(p: C.Proc, q: C.Proc, src: nat)
    requires SameProc(p, q) && src < 4 && Sized(p.node)
    ensures SameProc(C.Handled(p, src), C.Handled(q, src))
  {
    var x, y := p.inHand[src], q.inHand[src];
    assert F.SameMessages(x, y);
    var k := C.ChunkSize(x);
    SameSlice(x, y, k);
    F.DeliveredAlike(p.node, x[..k], y[..k]);
    hide F.SameMessages, HandleChunk;
  }

  lemma {:induction false} DrainAlike(c: C.System, a: C.System, i: nat, src: nat, count: nat)
    requires C.Shape(c) && C.Shape(a) && Alike(c, a) && 1 <= i <= 3 && 1 <= src <= 3
    requires c.rings[src][i].tail + count <= |c.rings[src][i].sent|
    ensures Alike(C.DrainFrom(c, i, src, count), C.DrainFrom(a, i, src, count))
  {
    var r := c.rings[src][i];
    SameRefl(r.sent[r.tail..r.tail + count]);
    hide F.SameMessages, Sized;
    assert SameProc(c.procs[i], a.procs[i]);
    var p, q := C.DrainFrom(c, i, src, count).procs[i], C.DrainFrom(a, i, src, count).procs[i];
    assert SameProc(p, q);
    hide SameProc;
  }

  /** Steps inside a process that do not look at its hands. */
  lemma {:induction false} LocalAlike(c: C.System, a: C.System, st: C.Step)
    requires C.Shape(c) && C.Shape(a) && Alike(c, a) && C.Enabled(c, st) && C.Enabled(a, st)
    requires !st.Handle? && !st.Drain? && !st.Publish?
    ensures Alike(C.Next(c, st), C.Next(a, st))
  {
    hide Sized, C.Admits, F.SameMessages, C.Stamped, C.AssignAll, C.AssignNoop, Advance, RecordAll;
    var p, q := C.Next(c, st).procs[st.i], C.Next(a, st).procs[st.i];
    assert SameProc(c.procs[st.i], a.procs[st.i]);
    assert SameProc(p, q);
    SetAlike(c, a, st.i, p, q);
    assert C.Next(c, st) == C.SetProc(c, st.i, p) && C.Next(a, st) == C.SetProc(a, st.i, q);
    hide SameProc, C.Next, C.Enabled;
  }

  lemma {:induction false} PublishAlike(c: C.System, a: C.System, i: nat)
    requires C.Shape(c) && C.Shape(a) && Alike(c, a) && 1 <= i <= 3
    requires c.procs[i].phase.Outgoing? && c.procs[i].phase.sent < 2 && a.procs[i].phase == c.procs[i].phase
    ensures Alike(C.PublishTo(c, i), C.PublishTo(a, i))
  {
    hide F.SameMessages, Sized;
    assert SameProc(c.procs[i], a.procs[i]);
    assert SameProc(C.PublishTo(c, i).procs[i], C.PublishTo(a, i).procs[i]);
    hide SameProc;
  }

  lemma {:induction false} AlikeNext(c: C.System, a: C.System, st: C.Step)
    requires C.Shape(c) && C.Shape(a) && Alike(c, a) && C.Enabled(c, st)
    ensures C.Enabled(a, st) && Alike(C.Next(c, st), C.Next(a, st))
  {
    AlikeEnabled(c, a, st);
    K.EnabledProc(c, st);
    assert SameProc(c.procs[st.i], a.procs[st.i]);
    match st {
      case Handle(i, src) =>
        hide Sized, F.SameMessages, C.Handled, SameProc;
        HandleSized(c, i);
        HandledAlike(c.procs[i], a.procs[i], src);
        SetAlike(c, a, i, C.Handled(c.procs[i], src), C.Handled(a.procs[i], src));
      case Drain(i, src, count) =>
        hide Sized, F.SameMessages, C.DrainFrom, SameProc;
        DrainAlike(c, a, i, src, count);
      case Publish(i) =>
        hide Sized, F.SameMessages, C.PublishTo;
        PublishAlike(c, a, i);
      case _ =>
        LocalAlike(c, a, st);
    }
    hide C.Next, C.Enabled, Alike;
  }

  lemma {:induction false} HandleSized(c: C.System, i: nat)
    requires C.Shape(c) && 1 <= i <= 3
    ensures Sized(c.procs[i].node)
  {
    hide Sized;
  }

  // ------------------------------------------------------------ ring steps

  predicate IsProducer(rs: M.Step) {
    rs.StartPush? || rs.CheckSpace? || rs.StorePayload? || rs.StoreWord? || rs.Abandon? || rs.PublishHead?
  }

  /** What a producer's load or store does to a ring. */
  lemma {:induction false} ProduceEffect(s: M.State, rs: M.Step)
    requires S.Inv(s) && M.Enabled(s, rs) && IsProducer(rs)
    ensures var r := M.Next(s, rs);
            && S.Inv(r) && r.cons == s.cons && r.consumed == s.consumed
            && (if rs.PublishHead? then
                  && r.published == s.published + s.prod.batch && r.prod.Resting?
                  && |r.published| <= |s.consumed| + 32768
                else r.published == s.published)
            && (r.prod.Resting? || r.prod.batch == if rs.StartPush? then rs.batch else s.prod.batch)
  {
    S.StepKeeps(s, rs);
    hide S.ConsumerOk, S.Kept, M.SameMessage, M.PayloadStored, M.WordStored, S.PartlyStored, S.Holds;
  }

  /** What a consumer's load or store does to a ring. */
  lemma {:induction false} ConsumeEffect(s: M.State, rs: M.Step)
    requires S.Inv(s) && M.Enabled(s, rs) && !IsProducer(rs)
    ensures var r := M.Next(s, rs);
            && S.Inv(r) && r.prod == s.prod && r.published == s.published
            && (if rs.CommitTail? then
                  && r.cons.Waiting? && s.cons.Copying? && 0 < |s.cons.out| == s.cons.count
                  && r.consumed == s.consumed + s.cons.out && |r.consumed| <= |s.published|
                  && F.SameMessages(s.cons.out, s.published[|s.consumed|..|r.consumed|])
                else r.consumed == s.consumed)
            && (!rs.StartRead? && !r.cons.Waiting? ==> !s.cons.Waiting?)
            && (r.cons.Describing? || r.cons.Copying? ==>
                  if rs.LoadHead? then r.cons.count <= rs.max
                  else (s.cons.Describing? || s.cons.Copying?) && r.cons.count == s.cons.count)
  {
    S.StepKeeps(s, rs);
    hide S.ProducerOk, S.Kept, M.SameMessage, M.SameHeader, M.Described, M.Words, M.Wrap, M.Cell, Take;
  }

  // ------------------------------------------------------------- coupling

  lemma {:induction false} RawShape(d: System)
    requires Shape(d)
    ensures C.Shape(Raw(d))
    ensures forall i, j :: 0 <= i < 4 && 0 <= j < 4 ==> Raw(d).rings[i][j] == F.AsQueue(d.links[i][j])
  {
    hide Sized, M.Formed;
  }

  lemma {:induction false} LinkKept(p: C.Proc, q: C.Proc, p': C.Proc, q': C.Proc, s: M.State, i: nat, j: nat)
    requires Link(i, j) && LinkOk(p, q, s, i, j) && q'.cfg == q.cfg
    requires p'.phase == p.phase || !p.phase.Outgoing? || p.phase.sent == 2 ||
             (p'.phase.Outgoing? && p'.phase.batch == p.phase.batch && p'.phase.sent == p.phase.sent)
    requires p'.phase != p.phase && Unpublished(p', i, j) ==> s.prod.Writing?
    ensures LinkOk(p', q', s, i, j)
  {
    hide S.Inv;
  }

  /** Receivers whose hands and readers are where they were. */
  lemma {:induction false} ReceiverFrame(d: System, d': System, j: nat)
    requires Shape(d) && Shape(d') && 1 <= j <= 3 && ReceiverOk(d, j)
    requires d'.procs[j].inHand == d.procs[j].inHand && d'.procs[j].cfg == d.procs[j].cfg
    requires forall s :: 1 <= s <= 3 ==> d'.links[s][j].cons.Waiting? == d.links[s][j].cons.Waiting?
    ensures ReceiverOk(d', j)
  {
    hide Sized, M.Formed;
    forall i: nat | Link(i, j) && !d'.links[i][j].cons.Waiting? ensures MayRead(d', i, j) {
      assert MayRead(d, i, j);
    }
  }

  /** Adding up the parts after a step. */
  lemma {:induction false} CoupledIntro(d: System)
    requires Shape(d)
    requires forall i: nat, j: nat :: Link(i, j) ==> LinkOk(d.procs[i], d.procs[j], d.links[i][j], i, j)
    requires forall j: nat :: 1 <= j <= 3 ==> ReceiverOk(d, j)
    ensures Coupled(d)
  {
    hide LinkOk, ReceiverOk, Shape;
  }

  // ------------------------------------------------------------ local steps

  /** How a local step may change a process. */
  predicate LocalChange(p: C.Proc, p': C.Proc) {
    && Sized(p'.node) && |p'.inHand| == |p.inHand| && p'.cfg == p.cfg
    && (p'.phase == p.phase || !p.phase.Outgoing? || p.phase.sent == 2)
    && (p'.phase != p.phase && p'.phase.Outgoing? ==> !p'.phase.reserved || p'.phase.noop)
    && forall s :: 0 <= s < |p.inHand| && p.inHand[s] == [] ==> p'.inHand[s] == []
  }

  lemma {:induction false} LocalChanges(c: C.System, st: C.Step, a: nat)
    requires C.Shape(c) && C.Enabled(c, st) && IsLocal(st) && a < 4
    ensures |C.Next(c, st).procs| == 4 && C.Next(c, st).rings == c.rings
    ensures LocalChange(c.procs[a], C.Next(c, st).procs[a])
    ensures C.Next(c, st).procs[a].inHand != c.procs[a].inHand ==> st.Handle? && st.i == a
  {
    hide C.Admits, C.Stamped, C.AssignAll, Advance, RecordAll, HandleChunk;
  }

  /** A receiver that holds messages and reads elsewhere has a thread for each source. */
  lemma {:induction false} ReceiverHandles(d: System, d': System, j: nat, src: nat)
    requires Shape(d) && Shape(d') && Link(src, j) && ReceiverOk(d, j) && d.procs[j].inHand[src] != []
    requires d'.links == d.links && LocalChange(d.procs[j], d'.procs[j])
    ensures ReceiverOk(d', j)
  {
    hide Sized, M.Formed;
    forall i: nat | Link(i, j) && !d'.links[i][j].cons.Waiting? ensures MayRead(d', i, j) {
      assert MayRead(d, i, j);
    }
  }

  lemma {:induction false} LocalKeepsShape(d: System, cs: C.Step)
    requires Shape(d) && C.Shape(Raw(d)) && C.Enabled(Raw(d), cs) && IsLocal(cs)
    ensures Shape(d.(procs := C.Next(Raw(d), cs).procs)) &&
            Raw(d.(procs := C.Next(Raw(d), cs).procs)) == C.Next(Raw(d), cs)
  {
    hide C.Next, C.Enabled, M.Formed, Sized;
    LocalChanges(Raw(d), cs, 0);
    forall a | 0 <= a < 4 ensures LocalChange(d.procs[a], C.Next(Raw(d), cs).procs[a]) {
      LocalChanges(Raw(d), cs, a);
    }
  }

  lemma {:induction false} LocalCoupled(d: System, cs: C.Step)
    requires Coupled(d) && Enabled(d, Local(cs))
    ensures Coupled(Next(d, Local(cs))) && Raw(Next(d, Local(cs))) == C.Next(Raw(d), cs)
  {
    var d' := Next(d, Local(cs));
    LocalKeepsShape(d, cs);
    K.EnabledProc(Raw(d), cs);
    if cs.Handle? {
      HandEnabled(d, cs);
    }
    hide C.Next, C.Enabled, Shape, Sized, Enabled;
    assert d' == d.(procs := C.Next(Raw(d), cs).procs);
    hide Next;
    forall a | 0 <= a < 4
      ensures LocalChange(d.procs[a], d'.procs[a]) && (d'.procs[a].inHand != d.procs[a].inHand ==>
              cs.Handle? && cs.i == a)
    {
      LocalChanges(Raw(d), cs, a);
    }
    hide LocalChange;
    forall i: nat, j: nat | Link(i, j) ensures LinkOk(d'.procs[i], d'.procs[j], d'.links[i][j], i, j) {
      LocalLink(d, d', i, j);
    }
    forall j: nat | 1 <= j <= 3 ensures ReceiverOk(d', j) {
      if d'.procs[j].inHand == d.procs[j].inHand {
        LocalCfg(d.procs[j], d'.procs[j]);
        ReceiverFrame(d, d', j);
      } else {
        ReceiverHandles(d, d', j, cs.src);
      }
    }
    hide LinkOk, ReceiverOk, Coupled;
    CoupledIntro(d');
  }

  lemma {:induction false} LocalCfg(p: C.Proc, p': C.Proc)
    requires LocalChange(p, p')
    ensures p'.cfg == p.cfg
  {
  }

  lemma {:induction false} LocalLink(d: System, d': System, i: nat, j: nat)
    requires Coupled(d) && Link(i, j) && d'.links == d.links && |d'.procs| == 4
    requires LocalChange(d.procs[i], d'.procs[i]) && LocalChange(d.procs[j], d'.procs[j])
    ensures LinkOk(d'.procs[i], d'.procs[j], d'.links[i][j], i, j)
  {
    assert LinkOk(d.procs[i], d.procs[j], d.links[i][j], i, j);
    hide LinkOk, Sized;
    LinkKept(d.procs[i], d.procs[j], d'.procs[i], d'.procs[j], d.links[i][j], i, j);
  }

  lemma {:induction false} HandEnabled(d: System, cs: C.Step)
    requires Shape(d) && C.Shape(Raw(d)) && C.Enabled(Raw(d), cs) && cs.Handle?
    ensures Link(cs.src, cs.i) && d.procs[cs.i].inHand[cs.src] != []
  {
    hide Sized, M.Formed;
  }

  // ------------------------------------------------------------- ring steps

  lemma {:induction false} WritingHasRoom(p: C.Proc, q: C.Proc, s: M.State, i: nat, j: nat)
    requires Link(i, j) && LinkOk(p, q, s, i, j) && s.prod.Writing?
    ensures p.phase.Outgoing? && C.HasSpace(F.AsQueue(s), |p.phase.batch|)
  {
    hide S.Kept, S.ConsumerOk, S.PartlyStored, S.Holds, M.SameMessage;
  }

  lemma {:induction false} ReservedMeaning(d: System, i: nat)
    requires Coupled(d) && Enabled(d, Reserved(i))
    ensures C.Shape(Raw(d)) && C.Enabled(Raw(d), C.Reserve(i))
    ensures Raw(Next(d, Reserved(i))) == C.Next(Raw(d), C.Reserve(i))
  {
    RawShape(d);
    hide M.Formed, Sized;
    var x, y := C.Peer(i, 0), C.Peer(i, 1);
    assert LinkOk(d.procs[i], d.procs[x], d.links[i][x], i, x) && LinkOk(d.procs[i], d.procs[y], d.links[i][y], i, y);
    hide LinkOk, C.HasSpace, ReceiverOk, Coupled;
    WritingHasRoom(d.procs[i], d.procs[x], d.links[i][x], i, x);
    WritingHasRoom(d.procs[i], d.procs[y], d.links[i][y], i, y);
  }

  lemma {:induction false} ReservedCoupled(d: System, i: nat)
    requires Coupled(d) && Enabled(d, Reserved(i))
    ensures Coupled(Next(d, Reserved(i)))
  {
    hide M.Formed, Sized, LinkOk, ReceiverOk;
    var d' := Next(d, Reserved(i));
    forall a: nat, b: nat | Link(a, b) ensures LinkOk(d'.procs[a], d'.procs[b], d'.links[a][b], a, b) {
      assert LinkOk(d.procs[a], d.procs[b], d.links[a][b], a, b);
      LinkKept(d.procs[a], d.procs[b], d'.procs[a], d'.procs[b], d.links[a][b], a, b);
    }
    forall j: nat | 1 <= j <= 3 ensures ReceiverOk(d', j) {
      ReceiverFrame(d, d', j);
    }
    CoupledIntro(d');
    hide Coupled;
  }

  lemma {:induction false} QueuesUpdate(links: seq<seq<M.State>>, i: nat, j: nat, s: M.State)
    requires i < |links| && j < |links[i]|
    ensures Queues(links[i := links[i][j := s]]) == Queues(links)[i := Queues(links)[i][j := F.AsQueue(s)]]
  {
    hide F.AsQueue;
    assert Row(links[i][j := s]) == Row(links[i])[j := F.AsQueue(s)];
  }

  /** A ring and one process replaced. */
  lemma {:induction false} ReplacedShape(d: System, i: nat, j: nat, s: M.State, k: nat, p: C.Proc)
    requires Shape(d) && Link(i, j) && M.Formed(s) && k < 4 && |p.inHand| == 4 && Sized(p.node)
    ensures Shape(SetProc(SetLink(d, i, j, s), k, p))
    ensures Raw(SetProc(SetLink(d, i, j, s), k, p)) == C.SetProc(C.SetRing(Raw(d), i, j, F.AsQueue(s)), k, p)
  {
    hide M.Formed, Sized, F.AsQueue;
    var d' := SetProc(SetLink(d, i, j, s), k, p);
    QueuesUpdate(d.links, i, j, s);
  }

  lemma {:induction false} SameQueue(d: System, i: nat, j: nat, k: nat)
    requires Shape(d) && Link(i, j) && k < 4
    ensures C.SetProc(C.SetRing(Raw(d), i, j, F.AsQueue(d.links[i][j])), k, d.procs[k]) == Raw(d)
  {
    hide M.Formed, Sized, F.AsQueue;
    QueuesUpdate(d.links, i, j, d.links[i][j]);
    assert d.links[i := d.links[i][j := d.links[i][j]]] == d.links by {
      assert d.links[i][j := d.links[i][j]] == d.links[i];
    }
  }

  lemma {:induction false} ProducedLink(p: C.Proc, q: C.Proc, s: M.State, i: nat, j: nat, rs: M.Step)
    requires Link(i, j) && LinkOk(p, q, s, i, j) && ProducerTurn(p, i, j, rs) && M.Enabled(s, rs) && !rs.Abandon?
    ensures LinkOk(Sender(p, rs), q, M.Next(s, rs), i, j)
  {
    assert IsProducer(rs);
    ProduceEffect(s, rs);
    hide S.Inv, M.Next, M.Enabled;
  }

  /** The sender's other ring after a publication. */
  lemma {:induction false} OtherLink(p: C.Proc, q: C.Proc, s: M.State, i: nat, j: nat, k: nat, rs: M.Step)
    requires Link(i, j) && Link(i, k) && j != k && LinkOk(p, q, s, i, k) && ProducerTurn(p, i, j, rs) && !rs.Abandon?
    ensures LinkOk(Sender(p, rs), q, s, i, k)
  {
    hide S.Inv;
  }

  lemma {:induction false} ProduceShape(d: System, i: nat, j: nat, rs: M.Step)
    requires Coupled(d) && Enabled(d, Produce(i, j, rs)) && !rs.Abandon?
    ensures Link(i, j) && Shape(Next(d, Produce(i, j, rs))) && ProducerTurn(d.procs[i], i, j, rs)
    ensures M.Formed(d.links[i][j]) && M.Enabled(d.links[i][j], rs)
    ensures M.Next(d.links[i][j], rs).cons == d.links[i][j].cons
    ensures Next(d, Produce(i, j, rs)) ==
            SetProc(SetLink(d, i, j, M.Next(d.links[i][j], rs)), i, Sender(d.procs[i], rs))
  {
    var s := d.links[i][j];
    assert IsProducer(rs) && LinkOk(d.procs[i], d.procs[j], s, i, j);
    ProduceEffect(s, rs);
    ReplacedShape(d, i, j, M.Next(s, rs), i, Sender(d.procs[i], rs));
    hide M.Next, Coupled, S.Inv, Sized;
  }

  lemma {:induction false} ProduceLinkAt(d: System, i: nat, j: nat, rs: M.Step, a: nat, b: nat)
    requires Coupled(d) && Enabled(d, Produce(i, j, rs)) && !rs.Abandon? && Link(a, b)
    ensures var d' := Next(d, Produce(i, j, rs)); Shape(d') && LinkOk(d'.procs[a], d'.procs[b], d'.links[a][b], a, b)
  {
    hide Next, Enabled, M.Next, M.Formed, M.Enabled, Sized, LinkOk, ProducerTurn;
    ProduceShape(d, i, j, rs);
    var d' := Next(d, Produce(i, j, rs));
    assert LinkOk(d.procs[a], d.procs[b], d.links[a][b], a, b);
    hide Coupled;
    if a == i && b == j {
      ProducedLink(d.procs[i], d.procs[j], d.links[i][j], i, j, rs);
    } else if a == i {
      OtherLink(d.procs[i], d.procs[b], d.links[i][b], i, j, b, rs);
    } else {
      LinkKept(d.procs[a], d.procs[b], d'.procs[a], d'.procs[b], d.links[a][b], a, b);
    }
  }

  lemma {:induction false} ProduceCoupled(d: System, i: nat, j: nat, rs: M.Step)
    requires Coupled(d) && Enabled(d, Produce(i, j, rs)) && !rs.Abandon?
    ensures Coupled(Next(d, Produce(i, j, rs)))
  {
    hide Next, Enabled, M.Next, M.Formed, M.Enabled, Sized, LinkOk, ProducerTurn;
    ProduceShape(d, i, j, rs);
    var d' := Next(d, Produce(i, j, rs));
    forall x: nat | 1 <= x <= 3 ensures ReceiverOk(d', x) {
      ReceiverFrame(d, d', x);
    }
    hide ReceiverOk, Coupled;
    forall a: nat, b: nat | Link(a, b) ensures LinkOk(d'.procs[a], d'.procs[b], d'.links[a][b], a, b) {
      ProduceLinkAt(d, i, j, rs, a, b);
    }
    CoupledIntro(d');
  }

  lemma {:induction false} ProducedQueue(p: C.Proc, q: C.Proc, s: M.State, i: nat, j: nat, rs: M.Step)
    requires Link(i, j) && LinkOk(p, q, s, i, j) && M.Enabled(s, rs) && IsProducer(rs)
    ensures M.Formed(M.Next(s, rs))
    ensures !rs.PublishHead? ==> F.AsQueue(M.Next(s, rs)) == F.AsQueue(s)
    ensures rs.PublishHead? ==>
              && p.phase.Outgoing? && C.HasSpace(F.AsQueue(s), |p.phase.batch|)
              && F.AsQueue(M.Next(s, rs)) == F.AsQueue(s).(sent := F.AsQueue(s).sent + p.phase.batch)
  {
    ProduceEffect(s, rs);
    hide M.Next, S.Inv;
  }

  /** A producer's load or store is invisible unless it publishes. */
  lemma {:induction false} QuietProduce(d: System, i: nat, j: nat, rs: M.Step)
    requires Coupled(d) && Enabled(d, Produce(i, j, rs)) && !rs.Abandon? && !rs.PublishHead?
    ensures Raw(Next(d, Produce(i, j, rs))) == Raw(d)
  {
    hide Enabled, Next, M.Next, M.Enabled, Sized, LinkOk, M.Formed;
    ProduceShape(d, i, j, rs);
    assert LinkOk(d.procs[i], d.procs[j], d.links[i][j], i, j);
    hide Coupled, Shape;
    ProducedQueue(d.procs[i], d.procs[j], d.links[i][j], i, j, rs);
    LinkProcs(d, j, i);
    ReplacedShape(d, i, j, M.Next(d.links[i][j], rs), i, d.procs[i]);
    SameQueue(d, i, j, i);
  }

  /** A published head is a publication of the cluster. */
  lemma {:induction false} PublishMeaning(d: System, i: nat, j: nat)
    requires Coupled(d) && Enabled(d, Produce(i, j, M.PublishHead)) && C.Shape(Raw(d))
    ensures C.Enabled(Raw(d), C.Publish(i)) &&
            Raw(Next(d, Produce(i, j, M.PublishHead))) == C.Next(Raw(d), C.Publish(i))
  {
    hide Enabled, Next, M.Next, M.Enabled, Sized, LinkOk, M.Formed, C.HasSpace;
    ProduceShape(d, i, j, M.PublishHead);
    assert LinkOk(d.procs[i], d.procs[j], d.links[i][j], i, j);
    RawShape(d);
    hide Coupled, Shape;
    ProducedQueue(d.procs[i], d.procs[j], d.links[i][j], i, j, M.PublishHead);
    LinkProcs(d, j, i);
    ReplacedShape(d, i, j, M.Next(d.links[i][j], M.PublishHead), i, Sender(d.procs[i], M.PublishHead));
    PublishNext(Raw(d), i, j);
  }

  lemma {:induction false} PublishNext(c: C.System, i: nat, j: nat)
    requires C.Shape(c) && Link(i, j) && c.procs[i].phase.Outgoing? && c.procs[i].phase.reserved
    requires c.procs[i].phase.sent < 2 && j == C.Peer(i, c.procs[i].phase.sent)
    requires C.HasSpace(c.rings[i][j], |c.procs[i].phase.batch|)
    ensures var r, p := c.rings[i][j], c.procs[i];
            && C.Enabled(c, C.Publish(i))
            && C.Next(c, C.Publish(i)) == C.SetProc(C.SetRing(c, i, j, r.(sent := r.sent + p.phase.batch)), i,
                                                    p.(phase := p.phase.(sent := p.phase.sent + 1)))
  {
    hide Sized, C.HasSpace;
  }

  lemma {:induction false} ConsumedLink(p: C.Proc, q: C.Proc, s: M.State, i: nat, j: nat, rs: M.Step)
    requires Link(i, j) && LinkOk(p, q, s, i, j) && M.Enabled(s, rs) && !IsProducer(rs) && i < |q.inHand|
    requires rs.LoadHead? ==> rs.max == q.cfg.recvMax
    ensures LinkOk(p, Receiver(q, i, s, rs), M.Next(s, rs), i, j)
  {
    ConsumeEffect(s, rs);
    hide S.Inv, M.Next, M.Enabled, F.SameMessages;
  }

  lemma {:induction false} ReceiverReads(d: System, d': System, i: nat, j: nat, rs: M.Step)
    requires Shape(d) && Shape(d') && Link(i, j) && ReceiverOk(d, j) && ConsumerTurn(d, i, j, rs)
    requires d' == SetProc(SetLink(d, i, j, d'.links[i][j]), j, d'.procs[j])
    requires d'.procs[j] == d.procs[j].(inHand := d.procs[j].inHand[i := d'.procs[j].inHand[i]])
    requires d'.procs[j].inHand[i] != d.procs[j].inHand[i] ==> d'.links[i][j].cons.Waiting?
    requires !rs.StartRead? ==> !d.links[i][j].cons.Waiting?
    ensures ReceiverOk(d', j)
  {
    hide M.Formed, Sized;
    forall k: nat | Link(k, j) && !d'.links[k][j].cons.Waiting? ensures MayRead(d', k, j) {
      if k == i {
        assert MayRead(d, i, j);
      } else {
        assert MayRead(d, k, j);
      }
    }
  }

  lemma {:induction false} ConsumeShape(d: System, i: nat, j: nat, rs: M.Step)
    requires Coupled(d) && Enabled(d, Consume(i, j, rs))
    ensures Link(i, j) && Shape(Next(d, Consume(i, j, rs))) && ConsumerTurn(d, i, j, rs) && !IsProducer(rs)
    ensures M.Formed(d.links[i][j]) && M.Enabled(d.links[i][j], rs)
    ensures Next(d, Consume(i, j, rs)) ==
            SetProc(SetLink(d, i, j, M.Next(d.links[i][j], rs)), j, Receiver(d.procs[j], i, d.links[i][j], rs))
    ensures !rs.StartRead? ==> !d.links[i][j].cons.Waiting?
    ensures rs.CommitTail? ==> M.Next(d.links[i][j], rs).cons.Waiting?
  {
    var s := d.links[i][j];
    assert !IsProducer(rs) && LinkOk(d.procs[i], d.procs[j], s, i, j);
    ConsumeEffect(s, rs);
    ReplacedShape(d, i, j, M.Next(s, rs), j, Receiver(d.procs[j], i, s, rs));
    assert !rs.StartRead? ==> !s.cons.Waiting?;
    hide M.Next, Coupled, S.Inv, Sized, M.Enabled;
  }

  lemma {:induction false} ConsumeLinkAt(d: System, i: nat, j: nat, rs: M.Step, a: nat, b: nat)
    requires Coupled(d) && Enabled(d, Consume(i, j, rs)) && Link(a, b)
    ensures var d' := Next(d, Consume(i, j, rs)); Shape(d') && LinkOk(d'.procs[a], d'.procs[b], d'.links[a][b], a, b)
  {
    hide Next, Enabled, M.Next, M.Formed, M.Enabled, Sized, LinkOk;
    ConsumeShape(d, i, j, rs);
    var d' := Next(d, Consume(i, j, rs));
    assert LinkOk(d.procs[a], d.procs[b], d.links[a][b], a, b);
    hide Coupled;
    if a == i && b == j {
      ConsumedLink(d.procs[i], d.procs[j], d.links[i][j], i, j, rs);
    } else {
      LinkKept(d.procs[a], d.procs[b], d'.procs[a], d'.procs[b], d.links[a][b], a, b);
    }
  }

  lemma {:induction false} ConsumeCoupled(d: System, i: nat, j: nat, rs: M.Step)
    requires Coupled(d) && Enabled(d, Consume(i, j, rs))
    ensures Coupled(Next(d, Consume(i, j, rs)))
  {
    hide Next, Enabled, M.Next, M.Formed, M.Enabled, Sized, LinkOk, ConsumerTurn, IsProducer;
    ConsumeShape(d, i, j, rs);
    var d' := Next(d, Consume(i, j, rs));
    hide MayRead;
    forall x: nat | 1 <= x <= 3 ensures ReceiverOk(d', x) {
      assert ReceiverOk(d, x);
      if x == j {
        ReceiverReads(d, d', i, j, rs);
      } else {
        ReceiverFrame(d, d', x);
      }
    }
    hide ReceiverOk, Coupled;
    forall a: nat, b: nat | Link(a, b) ensures LinkOk(d'.procs[a], d'.procs[b], d'.links[a][b], a, b) {
      ConsumeLinkAt(d, i, j, rs, a, b);
    }
    CoupledIntro(d');
  }

  lemma {:induction false} DrainEnabled(d: System, i: nat, j: nat)
    requires Coupled(d) && Enabled(d, Consume(i, j, M.CommitTail)) && C.Shape(Raw(d))
    ensures d.links[i][j].cons.Copying? && C.Enabled(Raw(d), C.Drain(j, i, |d.links[i][j].cons.out|))
  {
    var s := d.links[i][j];
    assert LinkOk(d.procs[i], d.procs[j], s, i, j) && ReceiverOk(d, j);
    ConsumeEffect(s, M.CommitTail);
    assert MayRead(d, i, j);
    RawShape(d);
    hide M.Formed, Sized, M.Next, S.Inv, Coupled, Shape, F.SameMessages;
  }

  /** A consumer's load or store is invisible unless it commits the tail. */
  lemma {:induction false} QuietConsume(d: System, i: nat, j: nat, rs: M.Step)
    requires Coupled(d) && Enabled(d, Consume(i, j, rs)) && !rs.CommitTail?
    ensures Raw(Next(d, Consume(i, j, rs))) == Raw(d)
  {
    hide Enabled, Next, M.Next, M.Enabled, Sized, LinkOk, ConsumerTurn, M.Formed;
    ConsumeShape(d, i, j, rs);
    assert LinkOk(d.procs[i], d.procs[j], d.links[i][j], i, j);
    hide Coupled, Shape;
    QuietQueue(d.procs[i], d.procs[j], d.links[i][j], i, j, rs);
    LinkProcs(d, i, j);
    ReplacedShape(d, i, j, M.Next(d.links[i][j], rs), j, d.procs[j]);
    SameQueue(d, i, j, j);
  }

  lemma {:induction false} LinkProcs(d: System, i: nat, j: nat)
    requires Shape(d) && Link(i, j)
    ensures |d.procs[j].inHand| == 4 && Sized(d.procs[j].node)
  {
    hide Sized, M.Formed;
  }

  lemma {:induction false} QuietQueue(p: C.Proc, q: C.Proc, s: M.State, i: nat, j: nat, rs: M.Step)
    requires Link(i, j) && LinkOk(p, q, s, i, j) && M.Enabled(s, rs) && !IsProducer(rs) && !rs.CommitTail?
    ensures M.Formed(M.Next(s, rs)) && F.AsQueue(M.Next(s, rs)) == F.AsQueue(s)
  {
    ConsumeEffect(s, rs);
    hide M.Next, M.Enabled, S.Inv;
  }

  lemma {:induction false} CommitQueue(p: C.Proc, q: C.Proc, s: M.State, i: nat, j: nat)
    requires Link(i, j) && LinkOk(p, q, s, i, j) && M.Enabled(s, M.CommitTail)
    ensures var r, z := F.AsQueue(M.Next(s, M.CommitTail)), F.AsQueue(s);
            && M.Formed(M.Next(s, M.CommitTail)) && s.cons.Copying?
            && r == z.(tail := z.tail + |s.cons.out|) && r.tail <= |z.sent|
            && F.SameMessages(s.cons.out, z.sent[z.tail..r.tail])
  {
    ConsumeEffect(s, M.CommitTail);
    hide M.Next, M.Enabled, S.Inv, F.SameMessages;
  }

  /** A committed tail is a drain that hands out the front of the queue. */
  lemma {:induction false} CommitMeaning(d: System, i: nat, j: nat)
    requires Coupled(d) && Enabled(d, Consume(i, j, M.CommitTail)) && C.Shape(Raw(d))
    ensures d.links[i][j].cons.Copying? && C.Enabled(Raw(d), C.Drain(j, i, |d.links[i][j].cons.out|))
    ensures Alike(Raw(Next(d, Consume(i, j, M.CommitTail))),
                  C.Next(Raw(d), C.Drain(j, i, |d.links[i][j].cons.out|)))
  {
    hide Enabled, Next, M.Next, M.Enabled, Sized, LinkOk, ConsumerTurn, M.Formed, C.Enabled, F.SameMessages;
    ConsumeShape(d, i, j, M.CommitTail);
    DrainEnabled(d, i, j);
    var s := d.links[i][j];
    assert LinkOk(d.procs[i], d.procs[j], s, i, j);
    RawShape(d);
    hide Coupled, Shape, C.Shape;
    CommitQueue(d.procs[i], d.procs[j], s, i, j);
    LinkProcs(d, i, j);
    ReplacedShape(d, i, j, M.Next(s, M.CommitTail), j, Receiver(d.procs[j], i, s, M.CommitTail));
    DrainedAlike(Raw(d), i, j, s.cons.out);
    DrainNext(Raw(d), i, j, |s.cons.out|);
    hide Alike, C.Next, C.DrainFrom;
  }

  lemma {:induction false} DrainNext(c: C.System, i: nat, j: nat, count: nat)
    requires C.Shape(c) && Link(i, j) && C.Enabled(c, C.Drain(j, i, count))
    ensures c.rings[i][j].tail + count <= |c.rings[i][j].sent|
    ensures C.Next(c, C.Drain(j, i, count)) == C.DrainFrom(c, j, i, count)
  {
    hide Sized;
  }

  lemma {:induction false} DrainedAlike(c: C.System, i: nat, j: nat, out: seq<Message>)
    requires C.Shape(c) && Link(i, j) && c.rings[i][j].tail + |out| <= |c.rings[i][j].sent|
    requires var r := c.rings[i][j]; F.SameMessages(out, r.sent[r.tail..r.tail + |out|])
    ensures var r, q := c.rings[i][j], c.procs[j];
            Alike(C.SetProc(C.SetRing(c, i, j, r.(tail := r.tail + |out|)), j, q.(inHand := q.inHand[i := out])),
                  C.DrainFrom(c, j, i, |out|))
  {
    AlikeRefl(c);
    hide Sized, F.SameMessages;
    var r, q := c.rings[i][j], c.procs[j];
    assert SameProc(q, q);
    assert SameProc(q.(inHand := q.inHand[i := out]), C.DrainFrom(c, j, i, |out|).procs[j]);
    hide SameProc;
  }

  // ------------------------------------------------------------- every step

  lemma {:induction false} OutgoingFits(a: C.System, w: nat, preload: map<string, string>, i: nat)
    requires C.Shape(a) && 1 <= i <= 3 && a.procs[i].phase.Outgoing?
    requires I.Inv(a, w, preload)
    ensures forall k :: 0 <= k < |a.procs[i].phase.batch| ==> M.Fits(a.procs[i].phase.batch[k])
  {
    hide I.Inv, I.NodeOk, I.SenderOk, M.Fits;
    K.InvParts(a, w, preload, i);
    T.NewestFit(a.procs[i], i, w);
  }

  lemma {:induction false} FittingWritten(p: C.Proc, q: C.Proc, s: M.State, i: nat, j: nat)
    requires Link(i, j) && LinkOk(p, q, s, i, j) && s.prod.Writing?
    ensures p.phase.Outgoing? && s.prod.batch == p.phase.batch
    ensures (forall k :: 0 <= k < |p.phase.batch| ==> M.Fits(p.phase.batch[k])) ==> !M.Enabled(s, M.Abandon)
  {
    hide S.Inv;
  }

  /** Batches fit their slots, so no batch is ever given up. */
  lemma {:induction false} NeverAbandoned(d: System, i: nat, j: nat, a: C.System, w: nat, preload: map<string, string>)
    requires Coupled(d) && Link(i, j) && C.Shape(a) && Alike(Raw(d), a) && d.links[i][j].prod.Writing?
    requires I.Inv(a, w, preload)
    ensures !M.Enabled(d.links[i][j], M.Abandon)
  {
    hide I.Inv, Sized, M.Formed, M.Enabled, M.Fits, F.SameMessages;
    assert LinkOk(d.procs[i], d.procs[j], d.links[i][j], i, j);
    assert SameProc(Raw(d).procs[i], a.procs[i]);
    hide LinkOk, Coupled, Alike;
    FittingWritten(d.procs[i], d.procs[j], d.links[i][j], i, j);
    OutgoingFits(a, w, preload, i);
  }

  /** The cluster's answer to a step: either it moves along, or nothing is to be seen. */
  ghost predicate Answer(d': System, a: C.System, moves: bool, cs: C.Step)
    requires C.Shape(a)
  {
    && Coupled(d')
    && (moves ==> C.Enabled(a, cs) && Alike(Raw(d'), C.Next(a, cs)))
    && (!moves ==> Alike(Raw(d'), a))
  }

  lemma {:induction false} ProduceRefines(d: System, i: nat, j: nat, rs: M.Step, a: C.System)
    returns (moves: bool, cs: C.Step)
    requires Coupled(d) && Enabled(d, Produce(i, j, rs)) && !rs.Abandon?
    requires C.Shape(Raw(d)) && C.Shape(a) && Alike(Raw(d), a)
    ensures Answer(Next(d, Produce(i, j, rs)), a, moves, cs)
  {
    hide Coupled, Shape, Alike, C.Enabled, C.Next, C.Shape, Enabled, Next;
    ProduceCoupled(d, i, j, rs);
    moves, cs := rs.PublishHead?, C.Publish(i);
    if moves {
      PublishMeaning(d, i, j);
      AlikeNext(Raw(d), a, cs);
    } else {
      QuietProduce(d, i, j, rs);
    }
  }

  lemma {:induction false} ConsumeRefines(d: System, i: nat, j: nat, rs: M.Step, a: C.System)
    returns (moves: bool, cs: C.Step)
    requires Coupled(d) && Enabled(d, Consume(i, j, rs))
    requires C.Shape(Raw(d)) && C.Shape(a) && Alike(Raw(d), a)
    ensures Answer(Next(d, Consume(i, j, rs)), a, moves, cs)
  {
    CoupledShape(d);
    LinkOfConsume(d, i, j, rs);
    hide Coupled, Alike, C.Enabled, C.Next, C.Shape, Enabled, Next, Sized, M.Formed;
    ConsumeCoupled(d, i, j, rs);
    moves, cs := rs.CommitTail?, C.MarkDone(0);
    if moves {
      CommitMeaning(d, i, j);
      cs := C.Drain(j, i, |d.links[i][j].cons.out|);
      AlikeNext(Raw(d), a, cs);
      AlikeTrans(Raw(Next(d, Consume(i, j, rs))), C.Next(Raw(d), cs), C.Next(a, cs));
    } else {
      QuietConsume(d, i, j, rs);
    }
  }

  lemma {:induction false} LinkOfConsume(d: System, i: nat, j: nat, rs: M.Step)
    requires Shape(d) && Enabled(d, Consume(i, j, rs))
    ensures Link(i, j)
  {
    hide Shape;
  }

  /** A step of the deployed system is a step of the cluster or none. */
  lemma {:induction false} StepRefines(d: System, st: Step, a: C.System, w: nat, preload: map<string, string>)
    returns (moves: bool, cs: C.Step)
    requires Coupled(d) && Enabled(d, st) && C.Shape(a) && Alike(Raw(d), a)
    requires I.Inv(a, w, preload)
    ensures Coupled(Next(d, st))
    ensures moves ==> C.Enabled(a, cs) && Alike(Raw(Next(d, st)), C.Next(a, cs))
    ensures !moves ==> Alike(Raw(Next(d, st)), a)
  {
    CoupledShape(d);
    RawShape(d);
    hide Coupled, Shape, Alike, I.Inv, C.Enabled, C.Next, C.Shape;
    moves, cs := true, C.MarkDone(0);
    match st {
      case Local(l) =>
        LocalEnabled(d, l);
        hide Enabled, Next;
        LocalCoupled(d, l);
        cs := l;
        AlikeNext(Raw(d), a, cs);
      case Reserved(i) =>
        hide Enabled, Next;
        ReservedCoupled(d, i);
        ReservedMeaning(d, i);
        cs := C.Reserve(i);
        AlikeNext(Raw(d), a, cs);
      case Produce(i, j, rs) =>
        if rs.Abandon? {
          AbandonWrites(d, i, j);
          NeverAbandoned(d, i, j, a, w, preload);
          assert false;
        }
        hide Enabled, Next;
        moves, cs := ProduceRefines(d, i, j, rs, a);
      case Consume(i, j, rs) =>
        hide Enabled, Next;
        moves, cs := ConsumeRefines(d, i, j, rs, a);
    }
  }

  lemma {:induction false} CoupledShape(d: System)
    requires Coupled(d)
    ensures Shape(d)
  {
  }

  lemma {:induction false} LocalEnabled(d: System, cs: C.Step)
    requires Shape(d) && Enabled(d, Local(cs))
    ensures IsLocal(cs) && C.Shape(Raw(d)) && C.Enabled(Raw(d), cs)
  {
    hide C.Enabled, Shape;
  }

  lemma {:induction false} AbandonWrites(d: System, i: nat, j: nat)
    requires Shape(d) && Enabled(d, Produce(i, j, M.Abandon))
    ensures Link(i, j) && d.links[i][j].prod.Writing? && M.Enabled(d.links[i][j], M.Abandon)
  {
    hide Sized, M.Formed;
  }

  // -------------------------------------------------------------- every run

  lemma {:induction false} InitialRow(row: seq<M.State>)
    requires |row| == 4 && forall j :: 0 <= j < 4 ==> row[j] == M.Initial()
    ensures Row(row) == seq(4, _ => C.Ring([], 0))
  {
  }

  lemma {:induction false} InitialRaw(cfgs: seq<C.Config>, preload: map<string, string>)
    requires |cfgs| == 4
    ensures Raw(Initial(cfgs, preload)) == C.Initial(cfgs, preload)
  {
    var d := Initial(cfgs, preload);
    forall i | 0 <= i < 4 ensures Queues(d.links)[i] == C.Initial(cfgs, preload).rings[i] {
      InitialRow(d.links[i]);
    }
  }

  lemma {:induction false} InitialCoupled(cfgs: seq<C.Config>, preload: map<string, string>)
    requires |cfgs| == 4
    ensures Coupled(Initial(cfgs, preload))
  {
    S.InitialInv();
    hide S.Inv, Sized, M.Formed, C.InitialNode;
    var d := Initial(cfgs, preload);
    forall j: nat | 1 <= j <= 3 ensures ReceiverOk(d, j) {
    }
    CoupledIntro(d);
  }

  /** One run of the cluster behind a stretch of a run of the deployed system. */
  ghost predicate Behind(d: System, arun: seq<C.System>, asteps: seq<C.Step>, g: Setup) {
    Execution(arun, asteps, g) && Coupled(d) && Alike(Raw(d), arun[|asteps|])
  }

  lemma {:induction false} ExecutionSnoc(arun: seq<C.System>, asteps: seq<C.Step>, g: Setup, cs: C.Step)
    requires Execution(arun, asteps, g) && C.Shape(arun[|asteps|]) && C.Enabled(arun[|asteps|], cs)
    requires C.Shape(C.Next(arun[|asteps|], cs))
    ensures Execution(arun + [C.Next(arun[|asteps|], cs)], asteps + [cs], g)
  {
    hide C.Shape, C.Enabled, C.Next, I.ConfigOk, C.Initial;
    var r, s := arun + [C.Next(arun[|asteps|], cs)], asteps + [cs];
    forall k | 0 <= k < |s| ensures C.Enabled(r[k], s[k]) && r[k + 1] == C.Next(r[k], s[k]) {
      if k < |asteps| {
        assert r[k] == arun[k] && s[k] == asteps[k] && r[k + 1] == arun[k + 1];
      }
    }
  }

  lemma {:induction false} BehindParts(d: System, arun: seq<C.System>, asteps: seq<C.Step>, g: Setup)
    requires Behind(d, arun, asteps, g)
    ensures |arun| == |asteps| + 1 && Execution(arun, asteps, g) && Coupled(d) && Alike(Raw(d), arun[|asteps|])
  {
    hide Coupled, Alike;
  }

  lemma {:induction false} StepBehind(d: System, st: Step, g: Setup, arun: seq<C.System>, asteps: seq<C.Step>)
    returns (more: seq<C.System>, moreSteps: seq<C.Step>)
    requires Shape(d) && Enabled(d, st) && Behind(d, arun, asteps, g)
    ensures Behind(Next(d, st), more, moreSteps, g) && arun <= more && asteps <= moreSteps
  {
    hide Shape, Coupled, Alike, Enabled, Next, Execution, I.Inv, C.Enabled, C.Next, C.Shape;
    BehindParts(d, arun, asteps, g);
    var a := arun[|asteps|];
    ReachableInv(arun, asteps, g, |asteps|);
    var moves, cs := StepRefines(d, st, a, g.w, g.preload);
    if moves {
      K.StepKeeps(a, cs, g.w, g.preload);
      K.InvShape(C.Next(a, cs), g.w, g.preload);
      ExecutionSnoc(arun, asteps, g, cs);
      more, moreSteps := arun + [C.Next(a, cs)], asteps + [cs];
    } else {
      more, moreSteps := arun, asteps;
    }
  }

  /** A run of the cluster can follow any run of the deployed system. */
  lemma {:induction false} RunRefines(run: seq<System>, steps: seq<Step>, g: Setup, t: nat, u: nat,
      arun: seq<C.System>, asteps: seq<C.Step>) returns (more: seq<C.System>, moreSteps: seq<C.Step>)
    requires IsRun(run, steps, g) && t <= u < |run| && Behind(run[t], arun, asteps, g)
    ensures Behind(run[u], more, moreSteps, g) && arun <= more && asteps <= moreSteps
    decreases u - t
  {
    hide Behind, Enabled, Next, Initial, I.ConfigOk, Shape;
    more, moreSteps := arun, asteps;
    if t < u {
      assert Enabled(run[t], steps[t]) && run[t + 1] == Next(run[t], steps[t]);
      var a1, s1 := StepBehind(run[t], steps[t], g, arun, asteps);
      more, moreSteps := RunRefines(run, steps, g, t + 1, u, a1, s1);
    }
  }

  lemma {:induction false} InitialBehind(run: seq<System>, steps: seq<Step>, g: Setup)
    returns (arun: seq<C.System>, asteps: seq<C.Step>)
    requires IsRun(run, steps, g)
    ensures Behind(run[0], arun, asteps, g)
  {
    arun, asteps := [C.Initial(g.cfgs, g.preload)], [];
    hide Initial, C.Initial, Coupled, Alike;
    InitialRaw(g.cfgs, g.preload);
    InitialCoupled(g.cfgs, g.preload);
    AlikeRefl(C.Initial(g.cfgs, g.preload));
  }

  lemma {:induction false} SameNode(d: System, a: C.System, i: nat)
    requires Shape(d) && Alike(Raw(d), a) && 1 <= i <= 3
    ensures |a.procs| == 4 && a.procs[i].node == d.procs[i].node
  {
    hide Sized, M.Formed, F.SameMessages;
    assert SameProc(Raw(d).procs[i], a.procs[i]);
  }

  /** Replica agreement down to single loads and stores: at any two moments of any run of
      the deployed system, the histories of any two nodes are prefixes of one another, and
      equal execution points mean equal stores. */
  lemma {:induction false} DeployedAgreement(run: seq<System>, steps: seq<Step>, g: Setup, t: nat, u: nat, i: nat,
      j: nat)
    requires IsRun(run, steps, g) && t <= u < |run| && 1 <= i <= 3 && 1 <= j <= 3
    ensures Shape(run[t]) && Shape(run[u])
    ensures var a, b := run[t].procs[i].node.core, run[u].procs[j].node.core;
            && (a.executed <= b.executed || b.executed <= a.executed)
            && (a.next == b.next ==> a.executed == b.executed && a.store == b.store)
  {
    var a0, s0 := InitialBehind(run, steps, g);
    var a1, s1 := RunRefines(run, steps, g, 0, t, a0, s0);
    var a2, s2 := RunRefines(run, steps, g, t, u, a1, s1);
    assert Shape(run[t]) && Shape(run[u]);
    hide IsRun, Shape, Coupled, Alike, Execution, Behind;
    BehindParts(run[t], a1, s1, g);
    BehindParts(run[u], a2, s2, g);
    assert a2[|s1|] == a1[|s1|];
    SameNode(run[t], a2[|s1|], i);
    SameNode(run[u], a2[|s2|], j);
    ReplicaAgreement(a2, s2, g, |s1|, |s2|, i, j);
  }
}
