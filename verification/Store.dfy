/** The sharded key-value store (src/kv_store.cpp) refines one flat map. The hash is
    a parameter: nothing below depends on which one it is. */
module Store {
  import opened Types

  datatype ApplyOp = ApplyOp(op: char, shard: nat, key: string, value: string)

  type Shards = seq<map<string, string>>

  /** The hash function in use. */
  datatype Hash = Hash(of: string -> nat)

  /** Every key lives only in the shard its hash selects. */
  ghost predicate Placed(hash: Hash, shards: Shards) {
    |shards| == 256 && forall s, k :: 0 <= s < 256 && k in shards[s] ==> hash.of(k) % 256 == s
  }

  ghost function AllKeys(shards: Shards): set<string> {
    set s, k | 0 <= s < |shards| && k in shards[s] :: k
  }

  /** The flat map a placed store stands for. */
  ghost function Flat(hash: Hash, shards: Shards): map<string, string>
    requires Placed(hash, shards)
  {
    map k | k in AllKeys(shards) :: shards[hash.of(k) % 256][k]
  }

  lemma {:induction false} FlatAt(hash: Hash, shards: Shards, k: string)
    requires Placed(hash, shards)
    ensures k in Flat(hash, shards) <==> k in shards[hash.of(k) % 256]
    ensures k in Flat(hash, shards) ==> Flat(hash, shards)[k] == shards[hash.of(k) % 256][k]
  {
    var s := hash.of(k) % 256;
    if k in shards[s] {
      assert k in AllKeys(shards);
    }
  }

  /** Nothing is hidden behind the flat view: placed stores with the same contents are
      the same, shard by shard. */
  lemma {:induction false} FlatDetermines(hash: Hash, a: Shards, b: Shards)
    requires Placed(hash, a) && Placed(hash, b) && Flat(hash, a) == Flat(hash, b)
    ensures a == b
  {
    forall s | 0 <= s < 256 ensures a[s] == b[s] {
      forall k ensures (k in a[s] <==> k in b[s]) && (k in a[s] ==> a[s][k] == b[s][k]) {
        FlatAt(hash, a, k);
        FlatAt(hash, b, k);
      }
    }
  }

  lemma {:induction false} ApplyKeepsPlaced(hash: Hash, shards: Shards, op: char, key: string, value: string)
    requires Placed(hash, shards)
    ensures Placed(hash, shards[hash.of(key) % 256 := Apply(shards[hash.of(key) % 256], op, key, value)])
  {
  }

  /** What an operation makes of one key. */
  lemma {:induction false} ApplyPoint(m: map<string, string>, op: char, key: string, value: string, k: string)
    ensures var a := Apply(m, op, key, value);
            if k == key then
              && (k in a <==> op == 'P' || (op != 'D' && k in m))
              && (k in a ==> a[k] == if op == 'P' || op == 'U' then value else m[k])
            else (k in a <==> k in m) && (k in m ==> a[k] == m[k])
  {
  }

  lemma {:induction false} ApplyInShardAt(hash: Hash, shards: Shards, op: char, key: string, value: string, k: string)
    requires Placed(hash, shards)
    requires Placed(hash, shards[hash.of(key) % 256 := Apply(shards[hash.of(key) % 256], op, key, value)])
    ensures var s := hash.of(key) % 256;
            var a, b := Flat(hash, shards[s := Apply(shards[s], op, key, value)]), Apply(Flat(hash, shards), op, key,
              value);
            (k in a <==> k in b) && (k in b ==> a[k] == b[k])
  {
    var s := hash.of(key) % 256;
    FlatAt(hash, shards, k);
    FlatAt(hash, shards[s := Apply(shards[s], op, key, value)], k);
    ApplyPoint(shards[s], op, key, value, k);
    ApplyPoint(Flat(hash, shards), op, key, value, k);
    hide Apply, Flat;
  }

  /** Applying an operation to its shard is applying it to the flat map. */
  lemma {:induction false} ApplyInShard(hash: Hash, shards: Shards, op: char, key: string, value: string)
    requires Placed(hash, shards)
    ensures var s := hash.of(key) % 256;
            var after := shards[s := Apply(shards[s], op, key, value)];
            Placed(hash, after) && Flat(hash, after) == Apply(Flat(hash, shards), op, key, value)
  {
    ApplyKeepsPlaced(hash, shards, op, key, value);
    hide Flat, Apply, AllKeys;
    var s := hash.of(key) % 256;
    var a, b := Flat(hash, shards[s := Apply(shards[s], op, key, value)]), Apply(Flat(hash, shards), op, key, value);
    forall k ensures (k in a <==> k in b) && (k in b ==> a[k] == b[k]) {
      ApplyInShardAt(hash, shards, op, key, value, k);
    }
  }

  function ApplyOps(store: map<string, string>, ops: seq<ApplyOp>): map<string, string> {
    if ops == [] then store
    else
      var o := ops[|ops| - 1];
      Apply(ApplyOps(store, ops[..|ops| - 1]), o.op, o.key, o.value)
  }

  class KVStore {
    const hash: Hash
    var shards: Shards

    ghost predicate Valid()
      reads this
    {
      Placed(hash, shards)
    }

    ghost function Contents(): map<string, string>
      requires Valid()
      reads this
    {
      Flat(hash, shards)
    }

    constructor (hash: Hash)
      ensures Valid() && Contents() == map[] && this.hash == hash
    {
      this.hash := hash;
      shards := seq(256, _ => map[]);
      new;
      assert AllKeys(shards) == {};
    }

    method Put(key: string, value: string)
      requires Valid()
      modifies this
      ensures Valid() && Contents() == old(Contents())[key := value]
    {
      var s := hash.of(key) % 256;
      ApplyInShard(hash, shards, 'P', key, value);
      shards := shards[s := shards[s][key := value]];
    }

    method Update(key: string, value: string) returns (found: bool)
      requires Valid()
      modifies this
      ensures Valid() && found == (key in old(Contents()))
      ensures Contents() == if found then old(Contents())[key := value] else old(Contents())
    {
      var s := hash.of(key) % 256;
      FlatAt(hash, shards, key);
      ApplyInShard(hash, shards, 'U', key, value);
      found := key in shards[s];
      if found {
        shards := shards[s := shards[s][key := value]];
      }
    }

    method Erase(key: string) returns (found: bool)
      requires Valid()
      modifies this
      ensures Valid() && found == (key in old(Contents())) && Contents() == old(Contents()) - {key}
    {
      var s := hash.of(key) % 256;
      FlatAt(hash, shards, key);
      ApplyInShard(hash, shards, 'D', key, "");
      found := key in shards[s];
      if found {
        shards := shards[s := shards[s] - {key}];
      } else {
        assert shards[s] - {key} == shards[s];
        assert shards[s := shards[s]] == shards;
      }
    }

    method Get(key: string) returns (value: string)
      requires Valid()
      ensures value == if key in Contents() then Contents()[key] else ""
    {
      FlatAt(hash, shards, key);
      var s := hash.of(key) % 256;
      value := if key in shards[s] then shards[s][key] else "";
    }

    /** `apply_ops_in_order`: operations take effect in the given order, whatever shards
        they hit. */
    method ApplyOpsInOrder(ops: seq<ApplyOp>)
      requires Valid()
      requires forall i :: 0 <= i < |ops| ==> ops[i].shard == hash.of(ops[i].key) % 256
      modifies this
      ensures Valid() && Contents() == ApplyOps(old(Contents()), ops)
    {
      for i := 0 to |ops|
        invariant Valid() && Contents() == ApplyOps(old(Contents()), ops[..i])
      {
        var o := ops[i];
        var m := shards[o.shard];
        ApplyInShard(hash, shards, o.op, o.key, o.value);
        if o.op == 'P' {
          m := m[o.key := o.value];
        } else if o.op == 'U' {
          if o.key in m {
            m := m[o.key := o.value];
          }
        } else if o.op == 'D' {
          if o.key in m {
            m := m - {o.key};
          } else {
            assert m - {o.key} == m;
          }
        }
        shards := shards[o.shard := m];
        assert ops[..i + 1][..i] == ops[..i];
      }
      assert ops[..|ops|] == ops;
    }

    /** `take_snapshot`: `insert` keeps an entry that is already there. */
    method TakeSnapshot() returns (snapshot: map<string, string>)
      requires Valid()
      ensures snapshot == Contents()
    {
      snapshot := map[];
      for i := 0 to 256
        invariant forall k :: k in snapshot <==> hash.of(k) % 256 < i && k in shards[hash.of(k) % 256]
        invariant forall k :: k in snapshot ==> snapshot[k] == shards[hash.of(k) % 256][k]
      {
        snapshot := shards[i] + snapshot;
      }
      forall k ensures (k in snapshot <==> k in Contents()) && (k in snapshot ==> snapshot[k] == Contents()[k]) {
        FlatAt(hash, shards, k);
      }
    }

    method ClearShards()
      modifies this
      ensures Valid() && Contents() == map[]
    {
      shards := seq(256, _ => map[]);
      assert AllKeys(shards) == {};
    }

    /** `insert` of one entry whose key is not there yet. */
    method InsertNew(key: string, value: string)
      requires Valid() && key !in Contents()
      modifies this
      ensures Valid() && Contents() == old(Contents())[key := value]
    {
      var s := hash.of(key) % 256;
      FlatAt(hash, shards, key);
      ApplyInShard(hash, shards, 'P', key, value);
      if key !in shards[s] {
        shards := shards[s := shards[s][key := value]];
      }
    }

    /** `apply_snapshot`: clear all shards, then insert every entry. */
    method ApplySnapshot(snapshot: map<string, string>)
      modifies this
      ensures Valid() && Contents() == snapshot
    {
      ClearShards();
      var todo := snapshot.Keys;
      assert snapshot - todo == map[];
      while todo != {}
        invariant Valid() && todo <= snapshot.Keys && Contents() == snapshot - todo
        decreases todo
      {
        var key :| key in todo;
        InsertNew(key, snapshot[key]);
        RestrictStep(snapshot, todo, key);
        todo := todo - {key};
      }
      assert snapshot - {} == snapshot;
    }
  }

  /** `apply_snapshot(take_snapshot())` puts every key back into the shard it was in. */
  method RestoreSnapshot(kv: KVStore)
    requires kv.Valid()
    modifies kv
    ensures kv.Valid() && kv.shards == old(kv.shards)
  {
    var snapshot := kv.TakeSnapshot();
    ghost var was := kv.shards;
    kv.ApplySnapshot(snapshot);
    FlatDetermines(kv.hash, was, kv.shards);
  }

  lemma {:induction false} RestrictStep(m: map<string, string>, todo: set<string>, key: string)
    requires key in todo && key in m
    ensures (m - todo)[key := m[key]] == m - (todo - {key})
  {
  }
}
