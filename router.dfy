/**
 * The partition router of the Python gateway: a key belongs to shard
 * `hash(key) % n`, and a write batch is split into one sub-batch per shard.
 * The digest (MD5 read as an unsigned integer) is a parameter `hash`.
 */
module Router {

  /** The shard that owns `key`. */
  function ShardOf(hash: string -> nat, n: nat, key: string): (i: nat)
    requires n > 0
    ensures i < n
    ensures hash(key) == (hash(key) / n) * n + i
  {
    hash(key) % n
  }

  /** The pairs of `batch` whose key routes to shard `i`. */
  function Bucket<V>(batch: map<string, V>, hash: string -> nat, n: nat, i: nat): map<string, V>
    requires n > 0
  {
    map k | k in batch && ShardOf(hash, n, k) == i :: batch[k]
  }

  /** The whole split: one bucket per shard, in shard order. */
  function Buckets<V>(batch: map<string, V>, hash: string -> nat, n: nat): (bs: seq<map<string, V>>)
    requires n > 0
    ensures |bs| == n
    ensures forall i, k :: 0 <= i < n && k in batch ==> (k in bs[i] <==> i == ShardOf(hash, n, k))
    ensures forall i, k :: 0 <= i < n && k in bs[i] ==> k in batch && bs[i][k] == batch[k]
  {
    seq(n, i requires 0 <= i => Bucket(batch, hash, n, i))
  }

  /**
   * The partition loop of the gateway: start from `n` empty dictionaries and put
   * every pair of the batch into the dictionary of its shard.
   */
  method Partition<V>(batch: map<string, V>, hash: string -> nat, n: nat) returns (buckets: seq<map<string, V>>)
    requires n > 0
    ensures buckets == Buckets(batch, hash, n)
  {
    buckets := seq(n, _ => map[]);
    var rest := batch.Keys;
    ghost var done: map<string, V> := map[];
    assert buckets == Buckets(done, hash, n);
    while rest != {}
      invariant rest <= batch.Keys
      invariant done == map k | k in batch && k !in rest :: batch[k]
      invariant buckets == Buckets(done, hash, n)
      decreases rest
    {
      var key :| key in rest;
      var index := ShardOf(hash, n, key);
      PartitionStep(done, hash, n, key, batch[key]);
      buckets := buckets[index := buckets[index][key := batch[key]]];
      rest := rest - {key};
      done := done[key := batch[key]];
    }
    assert done == batch;
  }

  /** Adding one new pair to a batch adds it to its own shard's bucket only. */
  lemma PartitionStep<V>(done: map<string, V>, hash: string -> nat, n: nat, key: string, value: V)
    requires n > 0 && key !in done
    ensures var bs, i := Buckets(done, hash, n), ShardOf(hash, n, key);
      Buckets(done[key := value], hash, n) == bs[i := bs[i][key := value]]
  {
    var bs, i := Buckets(done, hash, n), ShardOf(hash, n, key);
    var bs' := Buckets(done[key := value], hash, n);
    forall j | 0 <= j < n ensures bs'[j] == bs[i := bs[i][key := value]][j] {
      if j == i {
        assert bs'[j] == bs[i][key := value];
      } else {
        assert bs'[j] == bs[j];
      }
    }
  }

  /** The union of a sequence of dictionaries, later ones winning. */
  function MergeAll<V>(ms: seq<map<string, V>>): map<string, V>
  {
    if ms == [] then map[] else MergeAll(ms[..|ms| - 1]) + ms[|ms| - 1]
  }

  /** The sum of the sizes of a sequence of dictionaries. */
  function TotalSize<V>(ms: seq<map<string, V>>): nat
  {
    if ms == [] then 0 else TotalSize(ms[..|ms| - 1]) + |ms[|ms| - 1]|
  }

  /** The pairs of `batch` routed to shards below `m`. */
  function Below<V>(batch: map<string, V>, hash: string -> nat, n: nat, m: nat): map<string, V>
    requires n > 0
  {
    map k | k in batch && ShardOf(hash, n, k) < m :: batch[k]
  }

  lemma {:induction false} BelowStep<V>(batch: map<string, V>, hash: string -> nat, n: nat, m: nat)
    requires n > 0
    ensures Below(batch, hash, n, m + 1) == Below(batch, hash, n, m) + Bucket(batch, hash, n, m)
    ensures Below(batch, hash, n, m).Keys !! Bucket(batch, hash, n, m).Keys
    ensures |Below(batch, hash, n, m + 1)| == |Below(batch, hash, n, m)| + |Bucket(batch, hash, n, m)|
  {
  }

  lemma {:induction false} PrefixMerge<V>(batch: map<string, V>, hash: string -> nat, n: nat, m: nat)
    requires n > 0 && m <= n
    ensures MergeAll(Buckets(batch, hash, n)[..m]) == Below(batch, hash, n, m)
    ensures TotalSize(Buckets(batch, hash, n)[..m]) == |Below(batch, hash, n, m)|
  {
    var bs := Buckets(batch, hash, n);
    if m == 0 {
      assert Below(batch, hash, n, 0) == map[];
    } else {
      PrefixMerge(batch, hash, n, m - 1);
      BelowStep(batch, hash, n, m - 1);
      assert bs[..m][..m - 1] == bs[..m - 1];
    }
  }

  /** The split is lossless: the union of all buckets is the batch. */
  lemma {:induction false} PartitionLossless<V>(batch: map<string, V>, hash: string -> nat, n: nat)
    requires n > 0
    ensures MergeAll(Buckets(batch, hash, n)) == batch
    ensures TotalSize(Buckets(batch, hash, n)) == |batch|
  {
    var bs := Buckets(batch, hash, n);
    PrefixMerge(batch, hash, n, n);
    assert bs[..n] == bs;
    assert Below(batch, hash, n, n) == batch;
  }

  /** The split is disjoint: no key lies in two buckets. */
  lemma PartitionDisjoint<V>(batch: map<string, V>, hash: string -> nat, n: nat, i: nat, j: nat)
    requires n > 0 && i < n && j < n && i != j
    ensures Buckets(batch, hash, n)[i].Keys !! Buckets(batch, hash, n)[j].Keys
  {
  }
}
