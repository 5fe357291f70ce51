/** Records exchanged between replicas and kept by each of them
    (include/message_queue.h, include/bandle.h). */
module Types {

  /** `char data[kMaxValueBytes]`: the bytes of a payload buffer. */
  type Buffer = string

  const MAX_U64: nat := 0xFFFF_FFFF_FFFF_FFFF

  function AtMost(a: nat, b: nat): nat {
    if a <= b then a else b
  }

  predicate Increasing(s: seq<nat>) {
    forall a, b :: 0 <= a < b < |s| ==> s[a] < s[b]
  }

  datatype Kind = PROPOSAL | P1 | P2 | DECIDE

  /** A message body; `sn` is the sequence number (`seq` is a Dafny keyword). */
  datatype Message = Message(
    kind: Kind, sn: nat, sender: nat, proposer: nat, reqId: nat, startTsc: nat,
    value: nat, promise: nat, op: char, keyLen: nat, valueLen: nat, data: Buffer)

  /** A slot of the circular log; the promise bit mask is the set of sender ids. */
  datatype LogEntry = LogEntry(
    sn: nat, known: bool, decided: bool, decision: nat, promises: set<nat>, op: char,
    keyLen: nat, valueLen: nat, proposer: nat, reqId: nat, startTsc: nat)

  datatype Pending = Pending(id: nat, op: char, startTsc: nat, done: bool)

  /** What executing a log entry means to the replica. */
  datatype Command = Command(sn: nat, op: char, key: string, value: string, proposer: nat, reqId: nat)

  /** Everything execution touches apart from the log; `executed` is the history
      of commands executed so far, in order. */
  datatype Core = Core(
    id: nat, next: nat, executed: seq<Command>, store: map<string, string>,
    pending: seq<Pending>, pendingCount: nat,
    readOps: nat, writeOps: nat, readSamples: nat, writeSamples: nat,
    ok: nat, errors: nat, total: nat)

  /** Sequence-number and request-id allocation. */
  datatype Proposer = Proposer(nextSeq: nat, highest: nat, nextReq: nat, inputDone: bool)

  datatype Node = Node(log: seq<LogEntry>, payloads: seq<Buffer>, core: Core, prop: Proposer)

  /** A client request; a null pointer is an empty string. */
  datatype Request = Request(op: char, key: string, value: string)

  predicate IsWrite(op: char) {
    op == 'P' || op == 'U' || op == 'D'
  }

  /** Effect of one command on the flat key-value map. */
  function Apply(store: map<string, string>, op: char, key: string, value: string): map<string, string> {
    if op == 'P' then store[key := value]
    else if op == 'U' then (if key in store then store[key := value] else store)
    else if op == 'D' then store - {key}
    else store
  }

  function ApplyAll(store: map<string, string>, cmds: seq<Command>): map<string, string>
  {
    if cmds == [] then store
    else
      var c := cmds[|cmds| - 1];
      Apply(ApplyAll(store, cmds[..|cmds| - 1]), c.op, c.key, c.value)
  }
}
