/**
 * The cache node service of the Python implementation: one dictionary `cache`
 * from key to JSON value and one counter `total_cnt`, served by the three RPC
 * handlers Update, Search and Delete. The handlers run one at a time here.
 */
module CacheNode {
  import opened Wrappers
  import opened Json

  /** The reply of Search: the empty object `{}`, or the one-pair object `{key: value}`. */
  datatype SearchReply = Empty | Pair(key: string, value: Value)

  /** Why an Update call is refused: its text does not decode to a JSON object. */
  datatype NodeError = MalformedBatch

  /** The keys of `batch` that Update counts as new: those for which `cache.get(key)` is `None`. */
  function NewlyCounted(cache: map<string, Value>, batch: map<string, Value>): set<string>
  {
    set k | k in batch && Get(cache, k) == Null
  }

  /** Writing one more batch key: the written part grows by that pair, the counted part by at most that key. */
  lemma UpdateStep(cache0: map<string, Value>, kvMap: map<string, Value>, rest: set<string>, key: string)
    requires key in rest && rest <= kvMap.Keys
    ensures cache0 + (kvMap - (rest - {key})) == (cache0 + (kvMap - rest))[key := kvMap[key]]
    ensures Get(cache0 + (kvMap - rest), key) == Get(cache0, key)
    ensures |NewlyCounted(cache0, kvMap - (rest - {key}))|
         == |NewlyCounted(cache0, kvMap - rest)| + if Get(cache0, key) == Null then 1 else 0
  {
    var before, after := kvMap - rest, kvMap - (rest - {key});
    assert after == before[key := kvMap[key]];
    assert cache0 + after == (cache0 + before)[key := kvMap[key]];
    var nb, na := NewlyCounted(cache0, before), NewlyCounted(cache0, after);
    assert key !in nb;
    if Get(cache0, key) == Null {
      assert na == nb + {key};
    } else {
      assert na == nb;
    }
  }

  /** The map grows by at most as many keys as Update counts, so `total_cnt >= |cache|` survives an Update. */
  lemma CounterCoversSize(cache: map<string, Value>, batch: map<string, Value>)
    ensures |cache + batch| <= |cache| + |NewlyCounted(cache, batch)|
  {
    var added := batch.Keys - cache.Keys;
    assert (cache + batch).Keys == cache.Keys + added;
    assert cache.Keys * added == {};
    assert added <= NewlyCounted(cache, batch);
    SubsetSize(added, NewlyCounted(cache, batch));
  }

  lemma {:induction false} SubsetSize(a: set<string>, b: set<string>)
    requires a <= b
    ensures |a| <= |b|
  {
    if a != {} {
      var x :| x in a;
      SubsetSize(a - {x}, b - {x});
    }
  }

  class Node {
    var cache: map<string, Value>
    var totalCnt: nat

    /** What the handlers keep: Delete never lowers the counter, so it can only exceed the map's size. */
    ghost predicate Valid()
      reads this
    {
      totalCnt >= |cache|
    }

    constructor ()
      ensures Valid() && cache == map[] && totalCnt == 0
    {
      cache, totalCnt := map[], 0;
    }

    /**
     * `UpdateKeyValue`: `decoded` is what `json.loads` makes of the request text, or
     * `None` when that raises or yields no object. Every pair is written; the counter
     * grows for each key whose previous `cache.get` was `None`; the reply is the
     * number of pairs processed.
     */
    method UpdateKeyValue(decoded: Option<map<string, Value>>) returns (r: Result<int, NodeError>)
      requires Valid()
      modifies this
      ensures Valid()
      ensures decoded.None? ==> r == Failure(MalformedBatch) && cache == old(cache) && totalCnt == old(totalCnt)
      ensures decoded.Some? ==>
        && r == Success(|decoded.value|)
        && cache == old(cache) + decoded.value
        && totalCnt == old(totalCnt) + |NewlyCounted(old(cache), decoded.value)|
    {
      if decoded.None? {
        return Failure(MalformedBatch);
      }
      ghost var cache0 := cache;
      var updateCnt := UpdateAll(decoded.value);
      CounterCoversSize(cache0, decoded.value);
      return Success(updateCnt);
    }

    /** The loop of `UpdateKeyValue` over the pairs of a decoded batch. */
    method UpdateAll(kvMap: map<string, Value>) returns (updateCnt: int)
      modifies this
      ensures updateCnt == |kvMap|
      ensures cache == old(cache) + kvMap
      ensures totalCnt == old(totalCnt) + |NewlyCounted(old(cache), kvMap)|
    {
      updateCnt := 0;
      var rest := kvMap.Keys;
      ghost var cache0, total0 := cache, totalCnt;
      assert kvMap - rest == map[];
      while rest != {}
        invariant rest <= kvMap.Keys
        invariant updateCnt + |rest| == |kvMap|
        invariant cache == cache0 + (kvMap - rest)
        invariant totalCnt == total0 + |NewlyCounted(cache0, kvMap - rest)|
        decreases rest
      {
        var key :| key in rest;
        UpdateStep(cache0, kvMap, rest, key);
        Put(key, kvMap[key]);
        updateCnt := updateCnt + 1;
        rest := rest - {key};
      }
      assert kvMap - rest == kvMap;
    }

    /** One step of Update: count the key if `cache.get` gives `None`, then write it. */
    method Put(key: string, value: Value)
      modifies this
      ensures cache == old(cache)[key := value]
      ensures totalCnt == old(totalCnt) + if Get(old(cache), key) == Null then 1 else 0
    {
      var isExist := Get(cache, key);
      if isExist == Null {
        totalCnt := totalCnt + 1;
      }
      cache := cache[key := value];
    }

    /** `SearchKeyValue`: a read of `cache`; a key whose `get` is `None` gives `{}`. */
    function SearchKeyValue(key: string): (reply: SearchReply)
      reads this
      ensures reply == Empty <==> key !in cache || cache[key] == Null
      ensures reply != Empty ==> reply == Pair(key, cache[key])
    {
      var value := Get(cache, key);
      if value == Null then Empty else Pair(key, value)
    }

    /**
     * `DeleteKeyValue`: pops the key; the reply is 1 only when the popped value is
     * truthy, and the counter is left as it was.
     */
    method DeleteKeyValue(key: string) returns (deleteCnt: int)
      requires Valid()
      modifies this
      ensures Valid()
      ensures cache == old(cache) - {key} && totalCnt == old(totalCnt)
      ensures deleteCnt == if key in old(cache) && Truthy(old(cache)[key]) then 1 else 0
      ensures key in old(cache) ==> totalCnt > |cache|
    {
      deleteCnt := 0;
      var value := Get(cache, key);
      cache := cache - {key};
      if Truthy(value) {
        deleteCnt := deleteCnt + 1;
      }
    }
  }

  /** A client session: writing a key twice with non-null values counts it once, and the second value wins. */
  method OverwriteSession(key: string, v1: Value, v2: Value) returns (cntAfterFirst: nat, cntAfterSecond: nat, found: SearchReply)
    requires v1 != Null && v2 != Null
    ensures cntAfterFirst == 1 && cntAfterSecond == 1
    ensures found == Pair(key, v2)
  {
    var node := new Node();
    var first, second := map[key := v1], map[key := v2];
    assert NewlyCounted(map[], first) == {key};
    var r1 := node.UpdateKeyValue(Some(first));
    assert node.cache == first;
    cntAfterFirst := node.totalCnt;
    assert NewlyCounted(first, second) == {};
    var r2 := node.UpdateKeyValue(Some(second));
    cntAfterSecond := node.totalCnt;
    found := node.SearchKeyValue(key);
  }

  /**
   * A client session: deleting a stored key answers 1 when its value is truthy and
   * 0 otherwise; either way the key then searches as absent, while the counter
   * still counts the deleted key.
   */
  method DeleteSession(key: string, v: Value) returns (deleted: int, gone: SearchReply, cntAtEnd: nat, sizeAtEnd: nat)
    ensures deleted == (if Truthy(v) then 1 else 0) && gone == Empty
    ensures cntAtEnd == 1 && sizeAtEnd == 0
  {
    var node := new Node();
    var batch := map[key := v];
    assert NewlyCounted(map[], batch) == {key};
    var r := node.UpdateKeyValue(Some(batch));
    assert node.cache == batch && node.totalCnt == 1;
    deleted := node.DeleteKeyValue(key);
    assert node.cache == map[];
    gone := node.SearchKeyValue(key);
    cntAtEnd, sizeAtEnd := node.totalCnt, |node.cache|;
  }

  /** A client session: deleting a key that was never written answers 0. */
  method MissingDeleteSession() returns (missing: int)
    ensures missing == 0
  {
    var node := new Node();
    missing := node.DeleteKeyValue("missing");
  }

  /** A client session: deleting a key stored with `""` removes it but answers 0. */
  method FalsyDeleteSession() returns (deleted: int, stillThere: bool)
    ensures deleted == 0 && !stillThere
  {
    var node := new Node();
    var r := node.UpdateKeyValue(Some(map["e" := Str("")]));
    deleted := node.DeleteKeyValue("e");
    stillThere := "e" in node.cache;
  }

  /** A client session: a key written with `null` is counted again on every write and searches as absent. */
  method NullValueSession() returns (cnt: nat, found: SearchReply, stored: bool)
    ensures cnt == 2 && found == Empty && stored
  {
    var node := new Node();
    var batch := map["n" := Null];
    assert NewlyCounted(map[], batch) == {"n"};
    var r1 := node.UpdateKeyValue(Some(batch));
    assert node.cache == batch;
    assert NewlyCounted(batch, batch) == {"n"};
    var r2 := node.UpdateKeyValue(Some(batch));
    cnt := node.totalCnt;
    found := node.SearchKeyValue("n");
    stored := "n" in node.cache;
  }
}
