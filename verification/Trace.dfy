/** The trace printer (ycsb_binding/CxlTraceDB.java) and the replay parser (src/main.cpp):
    scanning printed lines gives the operations back. */
module Trace {

  datatype Option<T> = None | Some(value: T)

  /** An operation as recorded, and as replayed. */
  datatype Entry = Entry(ts: nat, op: char, key: string, value: string)

  // ---------------------------------------------------------------- parser

  /** `memchr`; the length when there is no match. */
  function Find(s: string, c: char): (i: nat)
    ensures i <= |s| && c !in s[..i] && (i < |s| ==> s[i] == c)
  {
    if s == "" || s[0] == c then 0
    else
      var i := 1 + Find(s[1..], c);
      assert s[..i] == [s[0]] + s[1..][..i - 1];
      i
  }

  predicate IsDigit(c: char) {
    '0' <= c <= '9'
  }

  predicate AllDigits(s: string) {
    forall i :: 0 <= i < |s| ==> IsDigit(s[i])
  }

  /** Decimal value in 64-bit arithmetic. */
  function Value(s: string): nat
    requires AllDigits(s)
  {
    if s == "" then 0 else (Value(s[..|s| - 1]) * 10 + (s[|s| - 1] as int - '0' as int)) % 0x1_0000_0000_0000_0000
  }

  function ParsedNumber(s: string): Option<nat> {
    if s != "" && AllDigits(s) then Some(Value(s)) else None
  }

  method ParseU64(s: string) returns (r: Option<nat>)
    ensures r == ParsedNumber(s)
  {
    if |s| == 0 {
      return None;
    }
    var v := 0;
    for p := 0 to |s|
      invariant AllDigits(s[..p]) && v == Value(s[..p])
    {
      if s[p] < '0' || s[p] > '9' {
        return None;
      }
      v := (v * 10 + (s[p] as int - '0' as int)) % 0x1_0000_0000_0000_0000;
      assert s[..p + 1][..p] == s[..p];
    }
    assert s[..|s|] == s;
    return Some(v);
  }

  predicate IsEol(c: char) {
    c == '\n' || c == '\r'
  }

  function Stripped(s: string): string {
    if s != "" && IsEol(s[|s| - 1]) then Stripped(s[..|s| - 1]) else s
  }

  /** `parse_line_view` on one line without its newline. */
  function ParsedLine(line: string): Option<Entry> {
    if line == "" || line[0] == '#' then None else ParsedText(Stripped(line))
  }

  function ParsedText(s: string): Option<Entry> {
    var comma := Find(s, ',');
    if comma == |s| || comma + 3 > |s| || ParsedNumber(s[..comma]).None? || s[comma + 2] != ' ' then None
    else ParsedRequest(ParsedNumber(s[..comma]).value, s[comma + 1], s[comma + 3..])
  }

  function ParsedRequest(ts: nat, op: char, rest: string): Option<Entry> {
    var colon := Find(rest, ':');
    if colon == 0 then None
    else Some(Entry(ts, op, rest[..colon], if colon < |rest| then rest[colon + 1..] else ""))
  }

  method StripEol(data: string) returns (s: string)
    ensures s == Stripped(data)
  {
    var len := |data|;
    assert data[..len] == data;
    while len > 0 && (data[len - 1] == '\n' || data[len - 1] == '\r')
      invariant len <= |data| && Stripped(data[..len]) == Stripped(data)
    {
      len := len - 1;
      assert data[..len + 1][..len] == data[..len];
    }
    return data[..len];
  }

  method ParseLineView(data: string) returns (r: Option<Entry>)
    ensures r == ParsedLine(data)
  {
    if |data| == 0 || data[0] == '#' {
      return None;
    }
    var s := StripEol(data);
    hide Stripped, Find, ParsedNumber;
    var comma := Find(s, ',');
    if comma == |s| || comma + 3 > |s| {
      return None;
    }
    var ts := ParseU64(s[..comma]);
    if ts.None? || s[comma + 2] != ' ' {
      return None;
    }
    var rest := s[comma + 3..];
    var colon := Find(rest, ':');
    if colon == 0 {
      return None;
    }
    var value := if colon < |rest| then rest[colon + 1..] else "";
    return Some(Entry(ts.value, s[comma + 1], rest[..colon], value));
  }

  /** The operations of a dataset: lines that do not parse are skipped. */
  function Scanned(data: string): seq<Entry>
    decreases |data|
  {
    if data == "" then []
    else
      var nl := Find(data, '\n');
      Listed(ParsedLine(data[..nl])) + Scanned(AfterLine(data, nl))
  }

  function Listed(e: Option<Entry>): seq<Entry> {
    if e.Some? then [e.value] else []
  }

  function AfterLine(data: string, nl: nat): (r: string)
    requires nl <= |data|
    ensures data != "" ==> |r| < |data|
  {
    if nl < |data| then data[nl + 1..] else ""
  }

  /** The dataset loop of `main`. */
  method ScanDataset(dataset: string) returns (ops: seq<Entry>)
    ensures ops == Scanned(dataset)
  {
    ops := [];
    var rest := dataset;
    hide ParsedLine, Find, AfterLine;
    while rest != ""
      invariant ops + Scanned(rest) == Scanned(dataset)
      decreases |rest|
    {
      ScanStep(rest);
      var nl := Find(rest, '\n');
      var v := ParseLineView(rest[..nl]);
      rest := AfterLine(rest, nl);
      hide Scanned;
      Regroup(ops, Listed(v), Scanned(rest));
      if v.Some? {
        ops := ops + [v.value];
      } else {
        assert ops + [] == ops;
      }
    }
  }

  lemma {:induction false} Regroup(a: seq<Entry>, b: seq<Entry>, c: seq<Entry>)
    ensures a + (b + c) == a + b + c
  {
  }

  lemma {:induction false} ScanStep(data: string)
    requires data != ""
    ensures var nl := Find(data, '\n'); Scanned(data) == Listed(ParsedLine(data[..nl])) + Scanned(AfterLine(data, nl))
  {
    hide ParsedLine, Find, AfterLine;
  }

  // --------------------------------------------------------------- printer

  /** `Long.toString` of a non-negative number. */
  function Digits(n: nat): (s: string)
    ensures s != "" && AllDigits(s)
  {
    if n < 10 then [Digit(n)] else Digits(n / 10) + [Digit(n % 10)]
  }

  function Digit(d: nat): (c: char)
    requires d < 10
    ensures IsDigit(c) && c as int - '0' as int == d
  {
    ('0' as int + d) as char
  }

  function Pad(k: nat): (z: string)
    ensures |z| == k && forall i :: 0 <= i < k ==> z[i] == '0'
  {
    seq(k, _ => '0')
  }

  function Normalized(key: string, keyBytes: nat): (r: string)
    ensures |r| == keyBytes
  {
    if |key| >= keyBytes then key[..keyBytes] else key + Pad(keyBytes - |key|)
  }

  /** A key cut or padded to a length. */
  predicate KeyAs(key: string, keyBytes: nat, r: string) {
    if |key| >= keyBytes then r == key[..keyBytes]
    else key <= r && |r| == keyBytes && forall i :: |key| <= i < keyBytes ==> r[i] == '0'
  }

  lemma {:induction false} NormalizedAs(key: string, keyBytes: nat)
    ensures KeyAs(key, keyBytes, Normalized(key, keyBytes))
  {
  }

  method NormalizeKey(key: string, keyBytes: nat) returns (r: string)
    ensures r == Normalized(key, keyBytes)
    ensures |key| >= keyBytes ==> r == key[..keyBytes]
    ensures |key| < keyBytes ==> key <= r && |r| == keyBytes && forall i :: |key| <= i < keyBytes ==> r[i] == '0'
  {
    NormalizedAs(key, keyBytes);
    if |key| == keyBytes {
      assert key[..keyBytes] == key;
      return key;
    }
    if |key| > keyBytes {
      return key[..keyBytes];
    }
    r := key;
    while |r| < keyBytes
      invariant |key| <= |r| <= keyBytes && r == key + Pad(|r| - |key|)
    {
      r := r + ['0'];
    }
  }

  /** The value as `buildPayload` truncates it; at least one character may stay. */
  function Truncated(key: string, value: string, maxPayload: int): (v: string)
    ensures v <= value
  {
    var room := maxPayload - (1 + 1 + |key| + 1);
    var cap := if room < 1 then 1 else room;
    if |value| > cap then value[..cap] else value
  }

  /** A value whole if there is room for it beside operation, key and separators, otherwise
      cut to the room, but not below one character. */
  predicate ValueAs(value: string, keyBytes: nat, maxPayload: int, v: string) {
    if keyBytes + 3 + |value| <= maxPayload then v == value
    else v <= value && |v| == if value ==
      "" then 0 else if maxPayload <= keyBytes + 4 then 1 else maxPayload - keyBytes - 3
  }

  lemma {:induction false} TruncatedAs(key: string, value: string, maxPayload: int)
    ensures ValueAs(value, |key|, maxPayload, Truncated(key, value, maxPayload))
  {
  }

  predicate TakesValue(op: char) {
    op == 'P' || op == 'U'
  }

  /** What a recorded operation is replayed as. */
  function Recorded(e: Entry, keyBytes: nat, maxPayload: int): Entry {
    var key := Normalized(e.key, keyBytes);
    Entry(e.ts, e.op, key, if TakesValue(e.op) then Truncated(key, e.value, maxPayload) else "")
  }

  /** One line as `appendLine` writes it, without its line separator. */
  function PrintedLine(e: Entry, keyBytes: nat, maxPayload: int): string {
    Digits(e.ts) + [',', e.op, ' '] + Body(Recorded(e, keyBytes, maxPayload))
  }

  function Body(r: Entry): string {
    r.key + if TakesValue(r.op) then [':'] + r.value else ""
  }

  /** A trace file; `eol` is the platform's line separator. */
  function Printed(es: seq<Entry>, keyBytes: nat, maxPayload: int, eol: string): string {
    if es == [] then ""
    else PrintedLine(es[0], keyBytes, maxPayload) + eol + Printed(es[1..], keyBytes, maxPayload, eol)
  }

  function AllRecorded(es: seq<Entry>, keyBytes: nat, maxPayload: int): seq<Entry> {
    if es == [] then [] else [Recorded(es[0], keyBytes, maxPayload)] + AllRecorded(es[1..], keyBytes, maxPayload)
  }

  // --------------------------------------------------------- payload limit

  /** The payload of a line: operation, key and value, which `cxl.maxpayload` is meant to bound. */
  function Payload(e: Entry, keyBytes: nat, maxPayload: int): string {
    [e.op, ' '] + Body(Recorded(e, keyBytes, maxPayload))
  }

  /** A payload with a value keeps the limit if and only if there is room for the prefix and,
      unless the value is empty, one character of it. */
  lemma {:induction false} PayloadLimit(e: Entry, keyBytes: nat, maxPayload: int)
    requires e.op == 'P' || e.op == 'U'
    ensures |Payload(e, keyBytes, maxPayload)| <= maxPayload
            <==> keyBytes + 3 + (if e.value == "" then 0 else 1) <= maxPayload
  {
    hide Normalized;
  }

  /** Without a value the payload is as long as the key makes it, whatever the limit. */
  lemma {:induction false} PayloadLength(e: Entry, keyBytes: nat, maxPayload: int)
    requires e.op != 'P' && e.op != 'U'
    ensures |Payload(e, keyBytes, maxPayload)| == keyBytes + 2
  {
    hide Normalized;
  }

  /** A failing input: the documented default of 63 with the default key length of 64. */
  lemma {:induction false} PayloadExceeds()
    ensures |Payload(Entry(0, 'P', "k", "v"), 64, 63)| == 68 > 63
  {
    var e := Entry(0, 'P', "k", "v");
    assert Truncated(Normalized("k", 64), "v", 63) == "v";
    hide Normalized, Truncated;
  }

  // ------------------------------------------------------------ round trip

  predicate NoEol(s: string) {
    '\n' !in s && '\r' !in s
  }

  /** What is printed of the operation has no line break in it. */
  predicate Recordable(e: Entry, keyBytes: nat, maxPayload: int) {
    var r := Recorded(e, keyBytes, maxPayload);
    && e.ts < 0x1_0000_0000_0000_0000 && (TakesValue(e.op) || e.op == 'G' || e.op == 'D')
    && NoEol(r.key) && NoEol(r.value)
  }

  predicate AllRecordable(es: seq<Entry>, keyBytes: nat, maxPayload: int) {
    forall i :: 0 <= i < |es| ==> Recordable(es[i], keyBytes, maxPayload)
  }

  /** What is printed of the key has no colon. */
  predicate Unambiguous(e: Entry, keyBytes: nat) {
    ':' !in if |e.key| >= keyBytes then e.key[..keyBytes] else e.key
  }

  lemma {:induction false} UnambiguousPrinted(e: Entry, keyBytes: nat)
    ensures Unambiguous(e, keyBytes) <==> ':' !in Normalized(e.key, keyBytes)
  {
    var r := Normalized(e.key, keyBytes);
    if |e.key| < keyBytes {
      assert forall i :: 0 <= i < |e.key| ==> e.key[i] == r[i];
      assert forall i :: |e.key| <= i < keyBytes ==> r[i] == '0';
    }
  }

  /** What an operation is replayed as, from the operation alone. */
  predicate ReplayedAs(e: Entry, keyBytes: nat, maxPayload: int, r: Entry) {
    && r.ts == e.ts && r.op == e.op && KeyAs(e.key, keyBytes, r.key)
    && if e.op == 'P' || e.op == 'U' then ValueAs(e.value, keyBytes, maxPayload, r.value) else r.value == ""
  }

  lemma {:induction false} RecordedAs(e: Entry, keyBytes: nat, maxPayload: int)
    ensures ReplayedAs(e, keyBytes, maxPayload, Recorded(e, keyBytes, maxPayload))
  {
    NormalizedAs(e.key, keyBytes);
    TruncatedAs(Normalized(e.key, keyBytes), e.value, maxPayload);
    hide Normalized, Truncated, KeyAs, ValueAs;
  }

  lemma {:induction false} FindUnique(s: string, c: char, i: nat)
    requires i <= |s| && c !in s[..i] && (i < |s| ==> s[i] == c)
    ensures Find(s, c) == i
  {
  }

  lemma {:induction false} ValueOfDigits(n: nat)
    requires n < 0x1_0000_0000_0000_0000
    ensures Value(Digits(n)) == n
  {
    if n < 10 {
      assert Digits(n)[..0] == "";
    } else {
      ValueOfDigits(n / 10);
      assert Digits(n)[..|Digits(n)| - 1] == Digits(n / 10);
    }
  }

  /** Keys and values without line breaks are printed without line breaks. */
  lemma {:induction false} CleanRecordable(e: Entry, keyBytes: nat, maxPayload: int)
    requires e.ts < 0x1_0000_0000_0000_0000 && (TakesValue(e.op) || e.op == 'G' || e.op == 'D')
    requires NoEol(e.key) && NoEol(e.value)
    ensures Recordable(e, keyBytes, maxPayload) && (':' !in e.key ==> Unambiguous(e, keyBytes))
  {
    var r := Recorded(e, keyBytes, maxPayload);
    assert forall i :: 0 <= i < |r.key| ==> r.key[i] == '0' || r.key[i] in e.key;
    assert forall i :: 0 <= i < |r.value| ==> r.value[i] in e.value;
  }

  lemma {:induction false} StrippedSelf(s: string)
    requires s == "" || !IsEol(s[|s| - 1])
    ensures Stripped(s) == s && Stripped(s + "\r") == s
  {
    assert (s + "\r")[..|s|] == s;
  }

  lemma {:induction false} DigitsHaveNo(s: string, c: char)
    requires AllDigits(s) && !IsDigit(c)
    ensures c !in s
  {
  }

  lemma {:induction false} ShapeParts(num: string, op: char, rest: string)
    requires num != "" && AllDigits(num)
    ensures var s := num + [',', op, ' '] + rest;
            && s[..|num|] == num && s[|num| + 1] == op && s[|num| + 2] == ' ' && s[|num| + 3..] == rest
            && Find(s, ',') == |num| && IsDigit(s[0])
  {
    var s := num + [',', op, ' '] + rest;
    DigitsHaveNo(num, ',');
    assert s[..|num|] == num;
    FindUnique(s, ',', |num|);
  }

  lemma {:induction false} StripShape(num: string, op: char, rest: string, cr: string)
    requires num != "" && AllDigits(num) && rest != "" && !IsEol(rest[|rest| - 1]) && (cr == "" || cr == "\r")
    ensures var s := num + [',', op, ' '] + rest; ParsedLine(s + cr) == ParsedText(s)
  {
    var s := num + [',', op, ' '] + rest;
    hide ParsedText;
    assert s[|s| - 1] == rest[|rest| - 1];
    StrippedSelf(s);
    assert s + "" == s && (s + cr)[0] == s[0] == num[0] && IsDigit(num[0]);
    hide Stripped;
  }

  lemma {:induction false} TextShape(num: string, op: char, rest: string)
    requires num != "" && AllDigits(num)
    ensures ParsedText(num + [',', op, ' '] + rest) == ParsedRequest(Value(num), op, rest)
  {
    ShapeParts(num, op, rest);
    assert ParsedNumber(num) == Some(Value(num));
    hide Find, ParsedRequest, Value, AllDigits, ParsedNumber;
  }

  predicate Separator(eol: string) {
    eol == "\n" || eol == "\r\n"
  }

  function Cr(eol: string): string {
    if eol == "\n" then "" else "\r"
  }

  lemma {:induction false} NotIn(a: string, b: string, c: char)
    requires c !in a && c !in b
    ensures c !in a + b
  {
  }

  lemma {:induction false} BodyClean(r: Entry)
    requires r.key != "" && NoEol(r.key) && NoEol(r.value)
    ensures var body := Body(r); body != "" && '\n' !in body && !IsEol(body[|body| - 1])
  {
    var body := Body(r);
    assert forall i :: 0 <= i < |body| ==> body[i] in r.key || body[i] in r.value || body[i] == ':';
  }

  /** A printed line has no newline in it and is parsed down to its body. */
  lemma {:induction false} LineParses(e: Entry, keyBytes: nat, maxPayload: int, eol: string)
    requires Recordable(e, keyBytes, maxPayload) && keyBytes >= 1 && Separator(eol)
    ensures var line := PrintedLine(e, keyBytes, maxPayload) + Cr(eol);
            '\n' !in line && ParsedLine(line) == ParsedRequest(e.ts, e.op, Body(Recorded(e, keyBytes, maxPayload)))
  {
    var body, num := Body(Recorded(e, keyBytes, maxPayload)), Digits(e.ts);
    BodyClean(Recorded(e, keyBytes, maxPayload));
    ValueOfDigits(e.ts);
    DigitsHaveNo(num, '\n');
    hide Body, Recorded, Digits, ParsedLine, ParsedRequest, Value, AllDigits, ParsedNumber, IsDigit;
    StripShape(num, e.op, body, Cr(eol));
    TextShape(num, e.op, body);
    NotIn(num, [',', e.op, ' '], '\n');
    NotIn(num + [',', e.op, ' '], body, '\n');
    NotIn(num + [',', e.op, ' '] + body, Cr(eol), '\n');
  }

  /** What a body is parsed to: the operation itself if its key has no colon, nothing if the
      key starts with one, and otherwise a shorter key. */
  lemma {:induction false} BodyParses(r: Entry)
    requires r.key != "" && (TakesValue(r.op) || r.value == "")
    ensures var i, p := Find(r.key, ':'), ParsedRequest(r.ts, r.op, Body(r));
            if i == |r.key| then p == Some(r)
            else if i == 0 then p == None
            else p == Some(Entry(r.ts, r.op, r.key[..i], Body(r)[i + 1..]))
  {
    var i, body := Find(r.key, ':'), Body(r);
    assert body[..i] == r.key[..i] && (i < |r.key| ==> body[i] == r.key[i]);
    FindUnique(body, ':', i);
    assert body[..|r.key|] == r.key;
    assert TakesValue(r.op) ==> body[|r.key| + 1..] == r.value;
  }

  lemma {:induction false} FindNone(s: string, c: char)
    ensures Find(s, c) == |s| <==> c !in s
  {
    assert s[..|s|] == s;
  }

  /** A printed line is replayed as recorded if and only if the printed key has no colon. */
  lemma {:induction false} LineRoundTrip(e: Entry, keyBytes: nat, maxPayload: int, eol: string)
    requires Recordable(e, keyBytes, maxPayload) && keyBytes >= 1 && Separator(eol)
    ensures var line := PrintedLine(e, keyBytes, maxPayload) + Cr(eol);
            && '\n' !in line
            && (ParsedLine(line) == Some(Recorded(e, keyBytes, maxPayload)) <==> Unambiguous(e, keyBytes))
  {
    var r := Recorded(e, keyBytes, maxPayload);
    LineParses(e, keyBytes, maxPayload, eol);
    BodyParses(r);
    FindNone(r.key, ':');
    UnambiguousPrinted(e, keyBytes);
    hide ParsedLine, ParsedRequest, Body, PrintedLine, Find, Unambiguous, Normalized;
  }

  /** What becomes of a printed key with a colon, for any operation: the line is dropped if
      the colon comes first, otherwise the key ends there and the rest is taken for a value. */
  lemma {:induction false} ColonLost(e: Entry, keyBytes: nat, maxPayload: int, eol: string)
    requires Recordable(e, keyBytes, maxPayload) && keyBytes >= 1 && Separator(eol) && !Unambiguous(e, keyBytes)
    ensures var line, r := PrintedLine(e, keyBytes, maxPayload) + Cr(eol), Recorded(e, keyBytes, maxPayload);
            var i := Find(r.key, ':');
            && i < |r.key|
            && ParsedLine(line) == if i == 0 then None else Some(Entry(e.ts, e.op, r.key[..i], Body(r)[i + 1..]))
  {
    var r := Recorded(e, keyBytes, maxPayload);
    LineParses(e, keyBytes, maxPayload, eol);
    BodyParses(r);
    FindNone(r.key, ':');
    UnambiguousPrinted(e, keyBytes);
    hide ParsedLine, ParsedRequest, Body, PrintedLine, Find, Unambiguous, Normalized;
  }

  lemma {:induction false} ScanLine(line: string, more: string)
    requires '\n' !in line
    ensures Scanned(line + "\n" + more) == Listed(ParsedLine(line)) + Scanned(more)
  {
    var data := line + "\n" + more;
    assert data[..|line|] == line && data[|line| + 1..] == more;
    FindUnique(data, '\n', |line|);
    hide ParsedLine;
  }

  lemma {:induction false} ScanPrintedShort(es: seq<Entry>, keyBytes: nat, maxPayload: int, eol: string)
    requires AllRecordable(es, keyBytes, maxPayload) && keyBytes >= 1 && Separator(eol)
    ensures |Scanned(Printed(es, keyBytes, maxPayload, eol))| <= |es|
  {
    hide ParsedLine, PrintedLine, Recordable, Unambiguous, Scanned, Recorded;
    if es == [] {
      EmptyScan();
    } else {
      LineRoundTrip(es[0], keyBytes, maxPayload, eol);
      ScanPrintedShort(es[1..], keyBytes, maxPayload, eol);
      ScanPrinted(PrintedLine(es[0], keyBytes, maxPayload), Printed(es[1..], keyBytes, maxPayload, eol), eol);
    }
  }

  /** Trace round trip, under either line separator: scanning a printed trace gives back
      every operation, in order, with its key normalised and its value truncated, if and only
      if no printed key has a colon. */
  lemma {:induction false} RoundTrip(es: seq<Entry>, keyBytes: nat, maxPayload: int, eol: string)
    requires AllRecordable(es, keyBytes, maxPayload) && keyBytes >= 1 && Separator(eol)
    ensures Scanned(Printed(es, keyBytes, maxPayload, eol)) == AllRecorded(es, keyBytes, maxPayload)
            <==> forall i :: 0 <= i < |es| ==> Unambiguous(es[i], keyBytes)
  {
    hide ParsedLine, PrintedLine, Recordable, Unambiguous, Recorded, Scanned;
    if es == [] {
      EmptyScan();
    } else {
      var e, rest := es[0], es[1..];
      var more := Printed(rest, keyBytes, maxPayload, eol);
      var line := PrintedLine(e, keyBytes, maxPayload);
      LineRoundTrip(e, keyBytes, maxPayload, eol);
      RoundTrip(rest, keyBytes, maxPayload, eol);
      ScanPrintedShort(rest, keyBytes, maxPayload, eol);
      RecordedLength(rest, keyBytes, maxPayload);
      ScanPrinted(line, more, eol);
      HeadAndTail(ParsedLine(line + Cr(eol)), Scanned(more), Recorded(e, keyBytes, maxPayload), AllRecorded(rest,
        keyBytes, maxPayload));
      assert (forall i :: 0 <= i < |es| ==> Unambiguous(es[i], keyBytes))
        <==> Unambiguous(e, keyBytes) && forall i :: 0 <= i < |rest| ==> Unambiguous(rest[i], keyBytes)
        by { AllOf(es, keyBytes); }
      hide AllRecorded;
    }
  }

  lemma {:induction false} AllOf(es: seq<Entry>, keyBytes: nat)
    requires es != []
    ensures (forall i :: 0 <= i < |es| ==> Unambiguous(es[i], keyBytes))
            <==> Unambiguous(es[0], keyBytes) && forall i :: 0 <= i < |es[1..]| ==> Unambiguous(es[1..][i], keyBytes)
  {
    hide Unambiguous;
    var rest := es[1..];
    if forall i :: 0 <= i < |es| ==> Unambiguous(es[i], keyBytes) {
      forall i | 0 <= i < |rest| ensures Unambiguous(rest[i], keyBytes) {
        assert rest[i] == es[i + 1];
      }
    }
    if Unambiguous(es[0], keyBytes) && forall i :: 0 <= i < |rest| ==> Unambiguous(rest[i], keyBytes) {
      forall i | 0 <= i < |es| ensures Unambiguous(es[i], keyBytes) {
        assert i > 0 ==> es[i] == rest[i - 1];
      }
    }
  }

  lemma {:induction false} RecordedLength(es: seq<Entry>, keyBytes: nat, maxPayload: int)
    ensures |AllRecorded(es, keyBytes, maxPayload)| == |es|
  {
    hide Recorded;
    if es != [] {
      RecordedLength(es[1..], keyBytes, maxPayload);
    }
  }

  /** A line that is dropped cannot be made up for by fewer lines after it. */
  lemma {:induction false} HeadAndTail(p: Option<Entry>, scanned: seq<Entry>, r: Entry, recorded: seq<Entry>)
    requires |scanned| <= |recorded|
    ensures Listed(p) + scanned == [r] + recorded <==> p == Some(r) && scanned == recorded
  {
    if Listed(p) + scanned == [r] + recorded {
      assert |Listed(p)| == 1 && (Listed(p) + scanned)[0] == ([r] + recorded)[0];
      assert (Listed(p) + scanned)[1..] == scanned && ([r] + recorded)[1..] == recorded;
    }
  }

  lemma {:induction false} EmptyScan()
    ensures Scanned("") == []
  {
  }

  lemma {:induction false} ScanPrinted(line: string, more: string, eol: string)
    requires Separator(eol) && '\n' !in line + Cr(eol)
    ensures Scanned(line + eol + more) == Listed(ParsedLine(line + Cr(eol))) + Scanned(more)
  {
    hide ParsedLine, Scanned;
    assert eol == Cr(eol) + "\n";
    assert line + eol + more == line + Cr(eol) + "\n" + more;
    ScanLine(line + Cr(eol), more);
  }

  /** The same from the operations alone: if no printed part of a key has a colon, the replay
      yields as many operations, each with its time and operation, its key cut or padded with
      '0' to the key length, and its value whole or cut to the room there is. */
  lemma {:induction false} Replayed(es: seq<Entry>, keyBytes: nat, maxPayload: int, eol: string)
    requires AllRecordable(es, keyBytes, maxPayload) && keyBytes >= 1 && Separator(eol)
    requires forall i :: 0 <= i < |es| ==> Unambiguous(es[i], keyBytes)
    ensures var out := Scanned(Printed(es, keyBytes, maxPayload, eol));
            |out| == |es| && forall i :: 0 <= i < |es| ==> ReplayedAs(es[i], keyBytes, maxPayload, out[i])
  {
    RoundTrip(es, keyBytes, maxPayload, eol);
    hide Scanned, Printed, Unambiguous, ReplayedAs;
    AllRecordedAs(es, keyBytes, maxPayload);
  }

  lemma {:induction false} AllRecordedAs(es: seq<Entry>, keyBytes: nat, maxPayload: int)
    ensures var out := AllRecorded(es, keyBytes, maxPayload);
            |out| == |es| && forall i :: 0 <= i < |es| ==> ReplayedAs(es[i], keyBytes, maxPayload, out[i])
  {
    hide Recorded, ReplayedAs;
    if es != [] {
      var out, rest := AllRecorded(es, keyBytes, maxPayload), AllRecorded(es[1..], keyBytes, maxPayload);
      AllRecordedAs(es[1..], keyBytes, maxPayload);
      RecordedAs(es[0], keyBytes, maxPayload);
      forall i | 0 <= i < |es| ensures ReplayedAs(es[i], keyBytes, maxPayload, out[i]) {
        assert i > 0 ==> out[i] == rest[i - 1] && es[i] == es[1..][i - 1];
      }
    }
  }

  // --------------------------------------------------------------- grammar

  predicate AllEol(s: string) {
    forall k :: 0 <= k < |s| ==> s[k] == '\n' || s[k] == '\r'
  }

  /** A line of the trace language: number, comma, operation, blank, key, optional value
      after a colon, line breaks. */
  predicate Grammatical(line: string, e: Entry, num: string, tail: string, eol: string) {
    && line == num + [',', e.op, ' '] + (e.key + tail) + eol
    && num != "" && AllDigits(num) && e.ts == Value(num)
    && e.key != "" && ':' !in e.key && (tail == if tail == "" then e.value else [':'] + e.value)
    && AllEol(eol) && !IsEol((e.key + tail)[|e.key + tail| - 1])
  }

  lemma {:induction false} StrippedSplit(line: string)
    ensures var s := Stripped(line);
            && |s| <= |line| && line[..|s|] == s && AllEol(line[|s|..]) && (s == "" || !IsEol(s[|s| - 1]))
  {
    var n := |line|;
    if line != "" && IsEol(line[n - 1]) {
      StrippedSplit(line[..n - 1]);
      var s := Stripped(line[..n - 1]);
      assert line[|s|..] == line[..n - 1][|s|..] + [line[n - 1]];
      assert line[..n - 1][..|s|] == line[..|s|];
    } else {
      assert line[..n] == line && line[n..] == "";
    }
  }

  lemma {:induction false} StrippedEol(s: string, eol: string)
    requires AllEol(eol) && (s == "" || !IsEol(s[|s| - 1]))
    ensures Stripped(s + eol) == s
  {
    if eol == "" {
      assert s + eol == s;
    } else {
      var k := |eol| - 1;
      assert (s + eol)[..|s| + k] == s + eol[..k];
      StrippedEol(s, eol[..k]);
    }
  }

  lemma {:induction false} LineToText(num: string, op: char, body: string, eol: string)
    requires num != "" && AllDigits(num) && body != "" && !IsEol(body[|body| - 1]) && AllEol(eol)
    ensures var s := num + [',', op, ' '] + body; ParsedLine(s + eol) == ParsedText(s)
  {
    var s := num + [',', op, ' '] + body;
    hide ParsedText, Stripped;
    assert s[|s| - 1] == body[|body| - 1];
    StrippedEol(s, eol);
    assert (s + eol)[0] == num[0] && IsDigit(num[0]);
  }

  lemma {:induction false} BodyToRequest(ts: nat, op: char, key: string, tail: string, value: string)
    requires key != "" && ':' !in key && (tail == if tail == "" then value else [':'] + value)
    ensures ParsedRequest(ts, op, key + tail) == Some(Entry(ts, op, key, value))
  {
    var body := key + tail;
    assert body[..|key|] == key;
    FindUnique(body, ':', |key|);
    hide Find;
    assert tail != "" ==> body[|key| + 1..] == value;
  }

  lemma {:induction false} GrammarParses(line: string, e: Entry, num: string, tail: string, eol: string)
    requires Grammatical(line, e, num, tail, eol)
    ensures ParsedLine(line) == Some(e)
  {
    hide ParsedLine, ParsedText, ParsedRequest, Value, AllDigits, AllEol, IsEol;
    LineToText(num, e.op, e.key + tail, eol);
    TextShape(num, e.op, e.key + tail);
    BodyToRequest(e.ts, e.op, e.key, tail, e.value);
  }

  lemma {:induction false} RequestToBody(ts: nat, op: char, rest: string, e: Entry) returns (tail: string)
    requires ParsedRequest(ts, op, rest) == Some(e)
    ensures e.ts == ts && e.op == op && rest == e.key + tail && e.key != "" && ':' !in e.key
    ensures tail == if tail == "" then e.value else [':'] + e.value
  {
    var colon := Find(rest, ':');
    tail := rest[colon..];
    hide Find;
    assert rest == rest[..colon] + rest[colon..];
    assert tail != "" ==> tail == [':'] + e.value;
  }

  lemma {:induction false} CutThree(s: string, k: nat)
    requires k + 3 <= |s|
    ensures s == s[..k] + [s[k], s[k + 1], s[k + 2]] + s[k + 3..]
  {
  }

  lemma {:induction false} TextToParts(s: string, e: Entry) returns (num: string, tail: string)
    requires ParsedText(s) == Some(e)
    ensures s == num + [',', e.op, ' '] + (e.key + tail) && num != "" && AllDigits(num) && e.ts == Value(num)
    ensures e.key != "" && ':' !in e.key && (tail == if tail == "" then e.value else [':'] + e.value)
  {
    var comma := Find(s, ',');
    num := s[..comma];
    assert num != "" && AllDigits(num) && ParsedNumber(num) == Some(Value(num));
    hide Find, ParsedRequest, Value, AllDigits, ParsedNumber;
    var rest := s[comma + 3..];
    tail := RequestToBody(Value(num), s[comma + 1], rest, e);
    CutThree(s, comma);
  }

  lemma {:induction false} ParsedGrammar(line: string, e: Entry) returns (num: string, tail: string, eol: string)
    requires ParsedLine(line) == Some(e)
    ensures Grammatical(line, e, num, tail, eol)
  {
    hide ParsedText, Stripped, Value, AllDigits, AllEol;
    StrippedSplit(line);
    var s := Stripped(line);
    eol := line[|s|..];
    num, tail := TextToParts(s, e);
    assert line == s + eol;
    var body := e.key + tail;
    assert s[|s| - 1] == body[|body| - 1];
  }

  /** `parse_line_view` accepts exactly the lines of the language, as what they say; all other
      lines, comments among them, are skipped. */
  lemma {:induction false} ParsesExactly(line: string, e: Entry)
    ensures ParsedLine(line) == Some(e) <==> exists num, tail, eol :: Grammatical(line, e, num, tail, eol)
  {
    hide Grammatical, ParsedLine;
    if ParsedLine(line) == Some(e) {
      var num, tail, eol := ParsedGrammar(line, e);
    }
    forall num, tail, eol | Grammatical(line, e, num, tail, eol) ensures ParsedLine(line) == Some(e) {
      GrammarParses(line, e, num, tail, eol);
    }
  }

  /** A last line without a newline counts too. */
  lemma {:induction false} ScanLast(line: string)
    requires line != "" && '\n' !in line
    ensures Scanned(line) == Listed(ParsedLine(line))
  {
    assert line[..|line|] == line;
    FindUnique(line, '\n', |line|);
    hide ParsedLine;
    assert Listed(ParsedLine(line)) + [] == Listed(ParsedLine(line));
  }

  /** Numbers are printed without leading zeros. */
  lemma {:induction false} DigitsCanonical(n: nat)
    ensures Digits(n)[0] == '0' <==> n == 0
  {
    if n >= 10 {
      DigitsCanonical(n / 10);
      assert Digits(n)[0] == Digits(n / 10)[0];
    }
  }
}
