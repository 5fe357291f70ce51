/** The greedy trace splitter (src/bandle_trace_gen.cpp). `parse` stands for `parse_line`:
    nothing below depends on which lines it accepts. */
module Splitter {
  import opened Types
  import opened Trace

  datatype Op = Op(ts: nat, op: char)

  /** A line together with what it was parsed to. */
  datatype Item = Item(text: string, ts: nat, op: char)

  type Parser = string -> Option<Op>

  // ---------------------------------------------------------- specification

  function Accepted(parse: Parser, line: string): seq<Item> {
    match parse(line)
    case Some(o) => [Item(line, o.ts, o.op)]
    case None => []
  }

  function AllValid(parse: Parser, lines: seq<string>): seq<Item> {
    if lines == [] then [] else AllValid(parse, lines[..|lines| - 1]) + Accepted(parse, lines[|lines| - 1])
  }

  /** The first `maxOps` valid lines; 0 means no limit. */
  function Kept(parse: Parser, lines: seq<string>, maxOps: nat): seq<Item> {
    var all := AllValid(parse, lines);
    if 0 < maxOps < |all| then all[..maxOps] else all
  }

  /** The items given to node i, in their original order. */
  function Select(items: seq<Item>, owner: seq<nat>, i: nat): seq<Item>
    requires |items| == |owner|
  {
    var n := |items| - 1;
    if items == [] then [] else Select(items[..n], owner[..n], i) + if owner[n] == i then [items[n]] else []
  }

  function Reads(items: seq<Item>): (r: nat)
    ensures r <= |items|
  {
    if items == [] then 0 else Reads(items[..|items| - 1]) + if items[|items| - 1].op == 'G' then 1 else 0
  }

  function Writes(items: seq<Item>): nat {
    |items| - Reads(items)
  }

  function LastTs(items: seq<Item>): nat {
    if items == [] then 0 else items[|items| - 1].ts
  }

  predicate Balanced(counts: seq<nat>) {
    forall i, j :: 0 <= i < |counts| && 0 <= j < |counts| ==> counts[i] <= counts[j] + 1
  }

  // ------------------------------------------------------------ node choice

  /** i comes before j: fewer operations, then an earlier last timestamp. */
  predicate Before(counts: seq<nat>, last: seq<nat>, i: nat, j: nat)
    requires i < |counts| == |last| && j < |counts|
  {
    counts[i] < counts[j] || (counts[i] == counts[j] && last[i] < last[j])
  }

  /** The selection loop: the first node no other node comes before. */
  method PickNode(counts: seq<nat>, last: seq<nat>) returns (best: nat)
    requires 0 < |counts| == |last| && forall i :: 0 <= i < |counts| ==> counts[i] < MAX_U64
    ensures best < |counts| && (forall i :: 0 <= i < |counts| ==> !Before(counts, last, i, best))
    ensures forall i :: 0 <= i < best ==> Before(counts, last, best, i)
    ensures forall i :: 0 <= i < |counts| ==> counts[best] <= counts[i]
  {
    var bestCount, bestLast := MAX_U64, MAX_U64;
    best := 0;
    for i := 0 to |counts|
      invariant i == 0 ==> bestCount == MAX_U64
      invariant i > 0 ==> best < i && bestCount == counts[best] && bestLast == last[best]
      invariant i > 0 ==> forall k :: 0 <= k < i ==> !Before(counts, last, k, best)
      invariant i > 0 ==> forall k :: 0 <= k < best ==> Before(counts, last, best, k)
    {
      var c, l := counts[i], last[i];
      if c < bestCount || (c == bestCount && l < bestLast) {
        forall k | 0 <= k < i ensures Before(counts, last, i, k) && !Before(counts, last, k, i) {
          assert !Before(counts, last, k, best);
        }
        bestCount, bestLast, best := c, l, i;
      }
    }
    forall i | 0 <= i < |counts| ensures counts[best] <= counts[i] {
      assert !Before(counts, last, i, best);
    }
  }

  lemma {:induction false} BalancedStep(counts: seq<nat>, best: nat)
    requires Balanced(counts) && best < |counts| && forall i :: 0 <= i < |counts| ==> counts[best] <= counts[i]
    ensures Balanced(counts[best := counts[best] + 1])
  {
  }

  // ------------------------------------------------------------------ state

  /** What the loop keeps per node. */
  datatype Split = Split(outs: seq<seq<Item>>, last: seq<nat>, readCounts: seq<nat>, writeCounts: seq<nat>)

  predicate Shaped(s: Split, nodes: nat) {
    |s.outs| == |s.last| == |s.readCounts| == |s.writeCounts| == nodes
  }

  /** The counters describe the outputs. */
  predicate Describes(s: Split, nodes: nat) {
    && Shaped(s, nodes)
    && forall i :: 0 <= i < nodes ==>
         s.readCounts[i] == Reads(s.outs[i]) && s.writeCounts[i] == Writes(s.outs[i]) && s.last[i] == LastTs(s.outs[i])
  }

  /** The outputs are an order-preserving partition of the items. */
  predicate Partition(outs: seq<seq<Item>>, items: seq<Item>, owner: seq<nat>) {
    && |owner| == |items| && (forall k :: 0 <= k < |owner| ==> owner[k] < |outs|)
    && forall i :: 0 <= i < |outs| ==> outs[i] == Select(items, owner, i)
  }

  predicate Fair(s: Split, multi: bool) {
    && Balanced(s.readCounts)
    && (multi ==> Balanced(s.writeCounts))
    && (!multi ==> forall i :: 1 <= i < |s.writeCounts| ==> s.writeCounts[i] == 0)
  }

  function Given(s: Split, t: nat, x: Item): Split
    requires t < |s.outs| && Shaped(s, |s.outs|)
  {
    Split(s.outs[t := s.outs[t] + [x]], s.last[t := x.ts],
          if x.op == 'G' then s.readCounts[t := s.readCounts[t] + 1] else s.readCounts,
          if x.op == 'G' then s.writeCounts else s.writeCounts[t := s.writeCounts[t] + 1])
  }

  lemma {:induction false} ReadsSnoc(items: seq<Item>, x: Item)
    ensures Reads(items + [x]) == Reads(items) + if x.op == 'G' then 1 else 0
  {
    assert (items + [x])[..|items|] == items;
  }

  lemma {:induction false} GivenDescribes(s: Split, nodes: nat, t: nat, x: Item)
    requires Describes(s, nodes) && t < nodes
    ensures Describes(Given(s, t, x), nodes)
  {
    ReadsSnoc(s.outs[t], x);
    hide Reads;
  }

  lemma {:induction false} GivenPartition(s: Split, items: seq<Item>, owner: seq<nat>, t: nat, x: Item)
    requires Partition(s.outs, items, owner) && t < |s.outs| && Shaped(s, |s.outs|)
    ensures Partition(Given(s, t, x).outs, items + [x], owner + [t])
  {
    var outs := Given(s, t, x).outs;
    var n := |items|;
    assert (items + [x])[..n] == items && (owner + [t])[..n] == owner;
    forall i | 0 <= i < |outs| ensures outs[i] == Select(items + [x], owner + [t], i) {
    }
  }

  /** A node's load when operation k comes: what it was given of the same kind before. */
  function LoadAt(items: seq<Item>, owner: seq<nat>, k: nat, i: nat): nat
    requires k < |items| == |owner|
  {
    var mine := Select(items[..k], owner[..k], i);
    if items[k].op == 'G' then Reads(mine) else Writes(mine)
  }

  function LastAt(items: seq<Item>, owner: seq<nat>, k: nat, i: nat): nat
    requires k < |items| == |owner|
  {
    LastTs(Select(items[..k], owner[..k], i))
  }

  /** Node t comes first by load, then by last timestamp, then by its number. */
  predicate First(load: nat, last: nat, t: nat, load': nat, last': nat, i: nat) {
    load < load' || (load == load' && (last < last' || (last == last' && t <= i)))
  }

  /** Operation k went to the right node: the first one by load, last timestamp and number;
      writes to node 0 unless they are spread. */
  ghost predicate ChosenWell(items: seq<Item>, owner: seq<nat>, k: nat, nodes: nat, multi: bool)
    requires k < |items| == |owner|
  {
    var t := owner[k];
    if items[k].op != 'G' && !multi then t == 0
    else
      t < nodes && forall i: nat :: i < nodes ==>
        First(LoadAt(items, owner, k, t), LastAt(items, owner, k, t), t,
              LoadAt(items, owner, k, i), LastAt(items, owner, k, i), i)
  }

  ghost predicate Greedy(items: seq<Item>, owner: seq<nat>, nodes: nat, multi: bool)
    requires |items| == |owner|
  {
    forall k: nat :: k < |items| ==> ChosenWell(items, owner, k, nodes, multi)
  }

  /** Everything the loop of pass 2 keeps. */
  ghost predicate Good(s: Split, nodes: nat, multi: bool, items: seq<Item>, owner: seq<nat>) {
    Describes(s, nodes) && Partition(s.outs, items, owner) && Fair(s, multi) && Greedy(items, owner, nodes, multi)
  }

  /** A new operation does not change what earlier ones saw. */
  lemma {:induction false} EarlierChoices(items: seq<Item>, owner: seq<nat>, x: Item, t: nat, nodes: nat,
      multi: bool, k: nat)
    requires k < |items| == |owner| && ChosenWell(items, owner, k, nodes, multi)
    ensures ChosenWell(items + [x], owner + [t], k, nodes, multi)
  {
    var all, who := items + [x], owner + [t];
    assert all[..k] == items[..k] && who[..k] == owner[..k] && all[k] == items[k] && who[k] == owner[k];
    hide Select, Reads, LastTs, First;
    forall i: nat ensures LoadAt(all, who, k, i) == LoadAt(items, owner, k, i)
    {
    }
    forall i: nat ensures LastAt(all, who, k, i) == LastAt(items, owner, k, i)
    {
    }
  }

  lemma {:induction false} LatestChoice(s: Split, items: seq<Item>, owner: seq<nat>, x: Item, t: nat, nodes: nat,
      multi: bool)
    requires Good(s, nodes, multi, items, owner) && t < nodes
    requires x.op != 'G' && !multi ==> t == 0
    requires x.op == 'G' || multi ==> forall i: nat :: i < nodes ==>
               First(if x.op == 'G' then s.readCounts[t] else s.writeCounts[t], s.last[t], t,
                     if x.op == 'G' then s.readCounts[i] else s.writeCounts[i], s.last[i], i)
    ensures ChosenWell(items + [x], owner + [t], |items|, nodes, multi)
  {
    var all, who, k := items + [x], owner + [t], |items|;
    assert all[..k] == items && who[..k] == owner && all[k] == x && who[k] == t;
    hide First, Reads, Select, LastTs, Greedy, Fair;
    forall i: nat | i < nodes
      ensures LoadAt(all, who, k, i) == (if x.op == 'G' then s.readCounts[i] else s.writeCounts[i])
      ensures LastAt(all, who, k, i) == s.last[i]
    {
      assert s.outs[i] == Select(items, owner, i);
    }
  }

  lemma {:induction false} GreedySnoc(s: Split, items: seq<Item>, owner: seq<nat>, x: Item, t: nat, nodes: nat,
      multi: bool)
    requires Good(s, nodes, multi, items, owner) && ChosenWell(items + [x], owner + [t], |items|, nodes, multi)
    ensures Greedy(items + [x], owner + [t], nodes, multi)
  {
    hide ChosenWell;
    forall k: nat | k < |items + [x]| ensures ChosenWell(items + [x], owner + [t], k, nodes, multi) {
      if k < |items| {
        EarlierChoices(items, owner, x, t, nodes, multi, k);
      }
    }
  }

  lemma {:induction false} CountsShort(s: Split, nodes: nat, multi: bool, items: seq<Item>, owner: seq<nat>)
    requires Good(s, nodes, multi, items, owner)
    ensures forall i :: 0 <= i < nodes ==> s.readCounts[i] <= |items| && s.writeCounts[i] <= |items|
  {
    forall i | 0 <= i < nodes ensures s.readCounts[i] <= |items| && s.writeCounts[i] <= |items| {
      SelectShorter(items, owner, i);
    }
    hide Select, Reads, Fair;
  }

  /** Which node gets the next operation. */
  method Target(s: Split, op: char, multi: bool) returns (t: nat)
    requires s.outs != [] && Shaped(s, |s.outs|) && Fair(s, multi)
    requires forall i :: 0 <= i < |s.outs| ==> s.readCounts[i] < MAX_U64 && s.writeCounts[i] < MAX_U64
    ensures t < |s.outs| && (op != 'G' && !multi ==> t == 0)
    ensures op == 'G' ==> Balanced(s.readCounts[t := s.readCounts[t] + 1])
    ensures op != 'G' && multi ==> Balanced(s.writeCounts[t := s.writeCounts[t] + 1])
    ensures op == 'G' || multi ==> forall i: nat :: i < |s.outs| ==>
              First(if op == 'G' then s.readCounts[t] else s.writeCounts[t], s.last[t], t,
                    if op == 'G' then s.readCounts[i] else s.writeCounts[i], s.last[i], i)
  {
    t := 0;
    if op == 'G' {
      t := PickNode(s.readCounts, s.last);
      PickedFirst(s.readCounts, s.last, t);
      BalancedStep(s.readCounts, t);
    } else if multi {
      t := PickNode(s.writeCounts, s.last);
      PickedFirst(s.writeCounts, s.last, t);
      BalancedStep(s.writeCounts, t);
    }
    hide Balanced, First;
  }

  lemma {:induction false} PickedFirst(counts: seq<nat>, last: seq<nat>, t: nat)
    requires t < |counts| == |last| && (forall i :: 0 <= i < |counts| ==> !Before(counts, last, i, t))
    requires forall i :: 0 <= i < t ==> Before(counts, last, t, i)
    ensures forall i: nat :: i < |counts| ==> First(counts[t], last[t], t, counts[i], last[i], i)
  {
    forall i: nat | i < |counts| ensures First(counts[t], last[t], t, counts[i], last[i], i) {
      assert !Before(counts, last, i, t);
      assert i < t ==> Before(counts, last, t, i);
    }
  }

  /** One operation goes to the node the selection loop names. */
  method Place(s: Split, x: Item, multi: bool, nodes: nat, ghost items: seq<Item>, ghost owner: seq<nat>)
    returns (r: Split, ghost t: nat)
    requires nodes > 0 && Good(s, nodes, multi, items, owner) && |items| < MAX_U64
    ensures Good(r, nodes, multi, items + [x], owner + [t])
  {
    CountsShort(s, nodes, multi, items, owner);
    var target := Target(s, x.op, multi);
    r, t := Given(s, target, x), target;
    GivenDescribes(s, |s.outs|, target, x);
    GivenPartition(s, items, owner, target, x);
    LatestChoice(s, items, owner, x, target, nodes, multi);
    GreedySnoc(s, items, owner, x, target, nodes, multi);
    hide Describes, Partition, Balanced, Greedy;
  }

  // ------------------------------------------------------------- both passes

  lemma {:induction false} KeptStep(parse: Parser, lines: seq<string>, maxOps: nat, k: nat)
    requires k < |lines|
    ensures var front, next := Kept(parse, lines[..k], maxOps), Kept(parse, lines[..k + 1], maxOps);
            next == if 0 < maxOps <= |front| then front else front + Accepted(parse, lines[k])
  {
    assert lines[..k + 1][..k] == lines[..k];
    hide Accepted;
    assert |Accepted(parse, lines[k])| <= 1 by { AcceptedOne(parse, lines[k]); }
  }

  lemma {:induction false} AcceptedOne(parse: Parser, line: string)
    ensures |Accepted(parse, line)| <= 1
  {
  }

  lemma {:induction false} AcceptedIs(parse: Parser, line: string)
    ensures var o := parse(line);
            Accepted(parse, line) == if o.Some? then [Item(line, o.value.ts, o.value.op)] else []
  {
  }

  /** Once the limit is reached the rest of the input does not matter. */
  lemma {:induction false} KeptFull(parse: Parser, lines: seq<string>, maxOps: nat, k: nat)
    requires k <= |lines| && 0 < maxOps <= |Kept(parse, lines[..k], maxOps)|
    ensures Kept(parse, lines, maxOps) == Kept(parse, lines[..k], maxOps)
    decreases |lines| - k
  {
    if k == |lines| {
      assert lines[..k] == lines;
    } else {
      KeptStep(parse, lines, maxOps, k);
      hide Kept;
      KeptFull(parse, lines, maxOps, k + 1);
    }
  }

  /** Pass 1: timestamp of the last operation kept. */
  method EndTimestamp(parse: Parser, lines: seq<string>, maxOps: nat) returns (end: nat)
    ensures end == LastTs(Kept(parse, lines, maxOps))
  {
    var total := 0;
    end := 0;
    hide Kept;
    KeptNothing(parse, lines, maxOps);
    for k := 0 to |lines|
      invariant total == |Kept(parse, lines[..k], maxOps)| && end == LastTs(Kept(parse, lines[..k], maxOps))
    {
      KeptStep(parse, lines, maxOps, k);
      var op := parse(lines[k]);
      if op.Some? {
        if maxOps > 0 && total >= maxOps {
          KeptFull(parse, lines, maxOps, k);
          return;
        }
        total, end := total + 1, op.value.ts;
      }
    }
    assert lines[..|lines|] == lines;
  }

  lemma {:induction false} KeptNothing(parse: Parser, lines: seq<string>, maxOps: nat)
    ensures Kept(parse, lines[..0], maxOps) == []
  {
  }

  lemma {:induction false} NothingPlaced(nodes: nat, multi: bool)
    ensures var s := Split(seq(nodes, _ => []), seq(nodes, _ => 0), seq(nodes, _ => 0), seq(nodes, _ => 0));
            Good(s, nodes, multi, [], [])
  {
  }

  lemma {:induction false} SelectShorter(items: seq<Item>, owner: seq<nat>, i: nat)
    requires |items| == |owner|
    ensures |Select(items, owner, i)| <= |items|
  {
    if items != [] {
      SelectShorter(items[..|items| - 1], owner[..|items| - 1], i);
    }
  }

  /** Pass 2. Every kept line goes to exactly one node (`owner`), order is preserved within
      a node, and the counts stay within one of each other. */
  method Distribute(parse: Parser, lines: seq<string>, nodes: nat, maxOps: nat, multi: bool)
    returns (s: Split, ghost owner: seq<nat>)
    requires nodes >= 1 && |lines| < MAX_U64
    ensures Good(s, nodes, multi, Kept(parse, lines, maxOps), owner)
  {
    s := Split(seq(nodes, _ => []), seq(nodes, _ => 0), seq(nodes, _ => 0), seq(nodes, _ => 0));
    owner := [];
    hide Kept, Good, Accepted;
    NothingPlaced(nodes, multi);
    KeptNothing(parse, lines, maxOps);
    var total := 0;
    for k := 0 to |lines|
      invariant total == |Kept(parse, lines[..k], maxOps)| && total <= k
      invariant Good(s, nodes, multi, Kept(parse, lines[..k], maxOps), owner)
    {
      ghost var front := Kept(parse, lines[..k], maxOps);
      KeptStep(parse, lines, maxOps, k);
      AcceptedIs(parse, lines[k]);
      var op := parse(lines[k]);
      if op.Some? {
        if maxOps > 0 && total >= maxOps {
          KeptFull(parse, lines, maxOps, k);
          return;
        }
        ghost var t;
        s, t := Place(s, Item(lines[k], op.value.ts, op.value.op), multi, nodes, front, owner);
        owner := owner + [t];
        total := total + 1;
      } else {
        assert front + [] == front;
      }
    }
    assert lines[..|lines|] == lines;
  }

  /** The padding read of node i, counted from 1 in its text. */
  function PadItem(end: nat, i: nat): Item {
    Item(Digits(end) + ",G __pad_node" + Digits(i + 1), end, 'G')
  }

  function Padding(end: nat, i: nat, last: nat): seq<Item> {
    if last < end then [PadItem(end, i)] else []
  }

  /** The padding loop: every node's last timestamp reaches the global end, and at most one
      read is added to an output. */
  method PadAll(s: Split, end: nat) returns (r: Split)
    requires Describes(s, |s.outs|)
    ensures Describes(r, |s.outs|) && |r.outs| == |s.outs|
    ensures forall i :: 0 <= i < |s.outs| ==>
            r.outs[i] == s.outs[i] + Padding(end, i, s.last[i]) && LastTs(r.outs[i]) >= end
  {
    r := s;
    var nodes := |s.outs|;
    for i := 0 to nodes
      invariant Describes(r, nodes)
      invariant forall k :: 0 <= k < i ==> r.outs[k] == s.outs[k] + Padding(end, k, s.last[k]) && r.last[k] >= end
      invariant forall k :: i <= k < nodes ==> r.outs[k] == s.outs[k] && r.last[k] == s.last[k]
    {
      if r.last[i] < end {
        GivenDescribes(r, nodes, i, PadItem(end, i));
        r := Given(r, i, PadItem(end, i));
      }
    }
  }

  /** The whole tool after its arguments are read: it refuses a trace whose last kept
      operation has timestamp 0, as well as one with no operation. */
  method SplitTrace(parse: Parser, lines: seq<string>, nodes: nat, maxOps: nat, multi: bool)
    returns (r: Option<Split>, ghost before: Split, ghost owner: seq<nat>)
    requires nodes >= 1 && |lines| < MAX_U64
    ensures r.None? <==> LastTs(Kept(parse, lines, maxOps)) == 0
    ensures r.Some? ==> Good(before, nodes, multi, Kept(parse, lines, maxOps), owner)
    ensures r.Some? ==> Describes(r.value, nodes) && forall i :: 0 <= i < nodes ==>
                          && LastTs(r.value.outs[i]) >= LastTs(Kept(parse, lines, maxOps))
                          && r.value.outs[i] == before.outs[i] +
                               var end := LastTs(Kept(parse, lines, maxOps));
                               if LastTs(before.outs[i]) >= end then []
                               else [Item(Digits(end) + ",G __pad_node" + Digits(i + 1), end, 'G')]
  {
    before, owner := Split([], [], [], []), [];
    var end := EndTimestamp(parse, lines, maxOps);
    if end == 0 {
      return None, before, owner;
    }
    var s;
    s, owner := Distribute(parse, lines, nodes, maxOps, multi);
    var padded := PadAll(s, end);
    return Some(padded), s, owner;
  }

  // ------------------------------------------------ what the words mean

  /** Item x is line k, which is valid. */
  predicate IsLine(parse: Parser, lines: seq<string>, k: nat, x: Item) {
    k < |lines| && var o := parse(lines[k]); o.Some? && x == Item(lines[k], o.value.ts, o.value.op)
  }

  /** The valid lines, by their places in the input. */
  lemma {:induction false} ValidPlaces(parse: Parser, lines: seq<string>) returns (at: seq<nat>)
    ensures Increasing(at) && |at| == |AllValid(parse, lines)|
    ensures forall r :: 0 <= r < |at| ==> IsLine(parse, lines, at[r], AllValid(parse, lines)[r])
    ensures forall k: nat :: k < |lines| && parse(lines[k]).Some? ==> k in at
  {
    at := [];
    if lines != [] {
      var n := |lines| - 1;
      var front := ValidPlaces(parse, lines[..n]);
      var items := AllValid(parse, lines[..n]);
      AcceptedIs(parse, lines[n]);
      at := front + if parse(lines[n]).Some? then [n] else [];
      hide Accepted;
      var all := AllValid(parse, lines);
      forall r | 0 <= r < |at| ensures IsLine(parse, lines, at[r], all[r]) {
        if r < |front| {
          assert IsLine(parse, lines[..n], front[r], items[r]) && all[r] == items[r];
        }
      }
      hide AllValid;
      forall k: nat | k < |lines| && parse(lines[k]).Some? ensures k in at {
        if k < n {
          assert lines[..n][k] == lines[k];
          assert k in front;
        } else {
          assert at[|front|] == n;
        }
      }
      PlacesGrow(parse, lines[..n], front, items, n);
    }
  }

  lemma {:induction false} PlacesGrow(parse: Parser, lines: seq<string>, front: seq<nat>, items: seq<Item>, n: nat)
    requires Increasing(front) && |front| == |items| && |lines| == n
    requires forall r :: 0 <= r < |front| ==> IsLine(parse, lines, front[r], items[r])
    ensures Increasing(front) && Increasing(front + [n])
  {
  }

  /** The lines kept are the valid ones in their order, all of them, or as many as the limit
      allows from the front. */
  lemma {:induction false} KeptExactly(parse: Parser, lines: seq<string>, maxOps: nat) returns (at: seq<nat>)
    ensures Increasing(at) && |at| == |Kept(parse, lines, maxOps)|
    ensures forall r :: 0 <= r < |at| ==> IsLine(parse, lines, at[r], Kept(parse, lines, maxOps)[r])
    ensures forall k: nat :: k < |lines| && parse(lines[k]).Some? ==>
              k in at || (0 < maxOps == |at| && forall r :: 0 <= r < |at| ==> at[r] < k)
  {
    var all := ValidPlaces(parse, lines);
    at := if 0 < maxOps < |all| then all[..maxOps] else all;
    forall k: nat | k < |lines| && parse(lines[k]).Some?
      ensures k in at || (0 < maxOps == |at| && forall r :: 0 <= r < |at| ==> at[r] < k)
    {
      assert k in all;
      var p :| 0 <= p < |all| && all[p] == k;
      if p < |at| {
        assert at[p] == k;
      }
    }
  }

  /** How many of the first k operations node i got: the place of its next one. */
  function GivenBefore(owner: seq<nat>, i: nat): nat {
    if owner == [] then 0 else GivenBefore(owner[..|owner| - 1], i) + if owner[|owner| - 1] == i then 1 else 0
  }

  /** A node's output holds each of its operations at its place, and nothing else. */
  lemma {:induction false} SelectExactly(items: seq<Item>, owner: seq<nat>, i: nat, k: nat)
    requires |items| == |owner| && k < |items| && owner[k] == i
    ensures |Select(items, owner, i)| == GivenBefore(owner, i)
    ensures GivenBefore(owner[..k], i) < GivenBefore(owner, i)
    ensures Select(items, owner, i)[GivenBefore(owner[..k], i)] == items[k]
  {
    SelectLength(items, owner, i);
    var n := |items| - 1;
    if k < n {
      SelectExactly(items[..n], owner[..n], i, k);
      SelectLength(items[..n], owner[..n], i);
      assert owner[..n][..k] == owner[..k];
    } else {
      SelectLength(items[..n], owner[..n], i);
    }
  }

  lemma {:induction false} SelectLength(items: seq<Item>, owner: seq<nat>, i: nat)
    requires |items| == |owner|
    ensures |Select(items, owner, i)| == GivenBefore(owner, i)
  {
    if items != [] {
      SelectLength(items[..|items| - 1], owner[..|owner| - 1], i);
    }
  }

  /** `Reads` counts the operations that are 'G'. */
  lemma {:induction false} ReadsExactly(items: seq<Item>)
    ensures Reads(items) == |set k | 0 <= k < |items| && items[k].op == 'G'|
  {
    if items != [] {
      var n := |items| - 1;
      ReadsExactly(items[..n]);
      var front := set k | 0 <= k < |items[..n]| && items[..n][k].op == 'G';
      var all := set k | 0 <= k < |items| && items[k].op == 'G';
      assert all == front + if items[n].op == 'G' then {n} else {};
    }
  }
}
