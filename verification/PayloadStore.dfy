/** Writing a payload into a ring slot with 16-byte stores (`nt_store_payload_padded` in
    include/message_queue.h). */
module PayloadStore {
  import opened Types

  function Zeros(k: nat): (z: string)
    ensures |z| == k && forall i :: 0 <= i < k ==> z[i] == '\0'
  {
    seq(k, _ => '\0')
  }

  /** One 16-byte store at `off`; the last one is padded with zeros. */
  function StoreBlock(buf: Buffer, data: Buffer, len: nat, off: nat): (r: Buffer)
    requires |buf| == 1088 && off < len <= |data| && off + 16 <= 1088
    ensures |r| == 1088
  {
    var block := if off + 16 <= len then data[off..off + 16] else data[off..len] + Zeros(off + 16 - len);
    buf[..off] + block + buf[off + 16..]
  }

  /** A buffer after all stores below `off`: the data, the padding, what was there before. */
  function Filled(buf: Buffer, data: Buffer, len: nat, off: nat): (r: Buffer)
    requires |buf| == 1088 && len <= |data| && off <= 1088
    ensures |r| == 1088
  {
    if off <= len then data[..off] + buf[off..] else data[..len] + Zeros(off - len) + buf[off..]
  }

  lemma {:induction false} BlockFills(buf: Buffer, data: Buffer, len: nat, off: nat)
    requires |buf| == 1088 && off < len <= |data| && off + 16 <= 1088
    ensures StoreBlock(Filled(buf, data, len, off), data, len, off) == Filled(buf, data, len, off + 16)
  {
  }

  /** 1088 is a multiple of 16: a store that starts below the length stays in the slot. */
  lemma {:induction false} BlockInside(len: nat, off: nat)
    requires off % 16 == 0 && off < len <= 1088
    ensures off + 16 <= 1088
  {
  }

  lemma {:induction false} BlockExtends(buf: Buffer, data: Buffer, len: nat, off: nat)
    requires |buf| == 1088 && off < len <= |data| && off + 16 <= 1088 && buf[..off] == data[..off]
    ensures var upto := if off + 16 <= len then off + 16 else len;
            StoreBlock(buf, data, len, off)[..upto] == data[..upto]
  {
    var upto := if off + 16 <= len then off + 16 else len;
    var r := StoreBlock(buf, data, len, off);
    forall x | 0 <= x < upto ensures r[x] == data[x] {
      if x < off {
        assert r[x] == buf[..off][x] == data[..off][x];
      }
    }
  }

  method NtStore16(dst: array<char>, at: nat, src: seq<char>)
    requires |src| == 16 && at + 16 <= dst.Length
    modifies dst
    ensures dst[..] == old(dst[..])[..at] + src + old(dst[..])[at + 16..]
  {
    ghost var was := dst[..];
    for i := 0 to 16
      invariant dst[..at] == was[..at] && dst[at + 16..] == was[at + 16..]
      invariant forall k :: 0 <= k < i ==> dst[at + k] == src[k]
    {
      dst[at + i] := src[i];
    }
    assert dst[..] == dst[..at] + dst[at..at + 16] + dst[at + 16..];
    assert dst[at..at + 16] == src;
  }

  method StoreFullBlock(dst: array<char>, data: Buffer, len: nat, off: nat, ghost was: Buffer)
    requires dst.Length == 1088 == |was| && off + 16 <= len <= |data| && len <= 1088
    requires dst[..] == Filled(was, data, len, off)
    modifies dst
    ensures dst[..] == Filled(was, data, len, off + 16)
  {
    BlockFills(was, data, len, off);
    NtStore16(dst, off, data[off..off + 16]);
  }

  method StoreTail(dst: array<char>, data: Buffer, len: nat, off: nat, ghost was: Buffer)
    requires dst.Length == 1088 == |was| && Aligned(off, 16) && off < len < off + 16 && len <= |data| && len <= 1088
    requires dst[..] == Filled(was, data, len, off)
    modifies dst
    ensures off + 16 <= 1088 && dst[..] == Filled(was, data, len, off + 16)
  {
    BlockInside(len, off);
    BlockFills(was, data, len, off);
    NtStore16(dst, off, data[off..len] + Zeros(off + 16 - len));
  }

  method StoreLine(dst: array<char>, data: Buffer, len: nat, off: nat, ghost was: Buffer)
    requires dst.Length == 1088 == |was| && off + 64 <= len <= |data| && len <= 1088
    requires dst[..] == Filled(was, data, len, off)
    modifies dst
    ensures dst[..] == Filled(was, data, len, off + 64)
  {
    hide Filled;
    StoreFullBlock(dst, data, len, off, was);
    StoreFullBlock(dst, data, len, off + 16, was);
    StoreFullBlock(dst, data, len, off + 32, was);
    StoreFullBlock(dst, data, len, off + 48, was);
  }

  predicate Aligned(off: nat, k: nat)
    requires k > 0
  {
    off % k == 0
  }

  lemma {:induction false} LastBlock(len: nat, off: nat)
    requires Aligned(off, 16) && off <= len < off + 16
    ensures (len + 15) / 16 * 16 == if off < len then off + 16 else off
  {
  }

  lemma {:induction false} LineStart(len: nat)
    ensures len / 64 * 64 <= len && Aligned(len / 64 * 64, 64) && Aligned(0, 64)
  {
  }

  lemma {:induction false} NextLine(off: nat, full: nat)
    requires Aligned(off, 64) && Aligned(full, 64) && off < full
    ensures off + 64 <= full && Aligned(off + 64, 64)
  {
  }

  lemma {:induction false} NextBlock(off: nat)
    ensures Aligned(off, 64) ==> Aligned(off, 16)
    ensures Aligned(off, 16) ==> Aligned(off + 16, 16)
  {
  }

  /** The store loops: whole 64-byte lines, then 16-byte blocks, then a padded tail. The
      data arrives, padded to 16 with zeros, and the rest of the slot is untouched. */
  method NtStorePayloadPadded(dst: array<char>, data: Buffer, len: nat)
    requires dst.Length == 1088 && len <= 1088 && len <= |data|
    modifies dst
    ensures dst[..] == Filled(old(dst[..]), data, len, (len + 15) / 16 * 16)
    ensures forall x :: 0 <= x < 1088 ==>
              dst[x] == if x < len then data[x] else if x < (len + 15) / 16 * 16 then '\0' else old(dst[x])
  {
    StoreAll(dst, data, len);
    FilledAt(old(dst[..]), data, len);
    assert forall x :: 0 <= x < 1088 ==> dst[x] == dst[..][x] && old(dst[x]) == old(dst[..])[x];
  }

  lemma {:induction false} FilledAt(buf: Buffer, data: Buffer, len: nat)
    requires |buf| == 1088 && len <= 1088 && len <= |data|
    ensures (len + 15) / 16 * 16 <= 1088
    ensures var r := Filled(buf, data, len, (len + 15) / 16 * 16);
            forall x :: 0 <= x < 1088 ==>
              r[x] == if x < len then data[x] else if x < (len + 15) / 16 * 16 then '\0' else buf[x]
  {
  }

  method StoreAll(dst: array<char>, data: Buffer, len: nat)
    requires dst.Length == 1088 && len <= 1088 && len <= |data|
    modifies dst
    ensures dst[..] == Filled(old(dst[..]), data, len, (len + 15) / 16 * 16)
  {
    ghost var was := dst[..];
    assert Filled(was, data, len, 0) == was;
    hide Filled, StoreBlock, Aligned;
    if len == 0 {
      return;
    }
    LineStart(len);
    var full := len / 64 * 64;
    var off := 0;
    while off < full
      invariant off <= full && Aligned(off, 64) && dst[..] == Filled(was, data, len, off)
    {
      NextLine(off, full);
      StoreLine(dst, data, len, off, was);
      off := off + 64;
    }
    NextBlock(off);
    while off + 16 <= len
      invariant off <= len && Aligned(off, 16) && dst[..] == Filled(was, data, len, off)
    {
      NextBlock(off);
      StoreFullBlock(dst, data, len, off, was);
      off := off + 16;
    }
    LastBlock(len, off);
    if off < len {
      StoreTail(dst, data, len, off, was);
    }
  }
}
