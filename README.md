# Sharded key-value cache: node stores, partition router and Go replicated store

This project models the key-value logic of two implementations of a small
distributed cache.

**The Python implementation** (`sdcs_lzzy_python/cache_node.py`) has two parts.

* A gateway routes every key to shard `md5(key) % server_cnt`. It splits a write
  batch into one sub-batch per shard, sends each non-empty sub-batch to its node
  over RPC, and adds up the counts the nodes send back. It keeps one RPC client per
  shard and creates each client the first time that shard is used.
* Each node keeps a dictionary `cache` from key to JSON value and a counter
  `total_cnt`. It serves three RPCs:
  * Update writes a batch.
  * Search reads one key.
  * Delete removes one key.

**The Go implementation** (`sdcs_lzzy_go/server.go`) is a server holding one
`map[string]string`.

* Peers reach it through the RPCs `SetCache`, `GetCache` and `DeleteCache`.
* Clients reach it through the HTTP handlers `handleGet`, `handleSet` and
  `handleDelete`. The write handlers forward each write to the two peer servers.

Modules:

| module | file | models |
|---|---|---|
| `Wrappers` | wrappers.dfy | `Option` and `Result` |
| `Json` | json.dfy | JSON values, Python truthiness, `dict.get` |
| `Router` | router.dfy | `get_hash_value(key) % server_cnt`, the partition loop, losslessness and disjointness |
| `CacheNode` | node.dfy | the node's `cache` and `total_cnt` as the class `Node`, with its three RPC handlers |
| `Gateway` | gateway.dfy | the `grpc_channels` / `grpc_clients` pool and the fan-out and aggregation loop of `update_cache` |
| `GoServer` | go_server.dfy | `cacheServer` as the class `CacheServer`, with its RPC and HTTP handlers |

Modelling choices:

* **Hashing.** The MD5 digest, read as an unsigned integer, is a parameter
  `hash: string -> nat`. Only the digest modulo the shard count matters.
* **JSON decoding.** `json.loads` becomes a parameter in two places:
  * On the node, Update receives `Option<map<string, Value>>`. `None` stands for
    text that does not decode to a JSON object. In that case the handler raises
    before writing anything.
  * Search replies with the datatype `SearchReply` (`Empty` for `"{}"`, or
    `Pair(key, value)`), not with serialized text.
* **Python values are JSON values.** A Python `None` read back from `cache` cannot be
  told apart from a stored JSON `null`. The model keeps that: `Json.Get` returns
  `Null` for an absent key.
* **Node RPC replies.** In `update_cache`, a node's reply is a parameter
  `reply(shard, sub_batch)`. It is `Some(update_cnt)`, or `None` when the call raises.
* **Go body parsing.** The regular-expression parse in `handleSet` is a parameter
  `Option<(string, string)>`.
* **Go forwarding.** The writes forwarded to peers by `go CacheSet` / `go
  CacheDelete` are appended to a log field `sent`.
* **Sequential handlers.** Every handler runs as one atomic step.

Behaviours of the code that a reader might not expect, which the model keeps:

* **Delete and the counter.** One might expect the counter to equal the number of
  stored keys. `DeleteKeyValue` never lowers `total_cnt`, so the invariant the
  code keeps is `total_cnt >= |cache|` (`Node.Valid`). A delete of a present key
  makes the inequality strict.
* **Delete's reply.** One might expect Delete to answer 1 whenever it removes a key.
  The code answers 1 only when the removed value is truthy, so a key stored with
  `""`, `0`, `false`, `[]`, `{}` or `null` is removed with reply 0.
* **Null values.** One might expect Update to count a key only on its first
  insertion, and Search to report absence only for a missing key. The code tests
  `cache.get(key) is None`. A key stored with JSON `null` is therefore counted again
  on every write, and Search reports it as absent.
* **Write reply.** One might expect the gateway to report the summed count. The code
  computes `result_cnt` but always replies `"update successfully!", 200`. The model
  returns `result_cnt` so that it can be stated.
* **GET body.** `handleGet` writes key and value into `{"…":"…"}` without escaping,
  so two different pairs can give the same body (`GoServer.PairBodyAmbiguous`).

## Model

| member | source | states |
|---|---|---|
| `Router.ShardOf` | sdcs_lzzy_python/cache_node.py:126-128 | the shard index lies in `[0, n)` and is the remainder of the key's digest divided by `n` |
| `Router.Buckets` | sdcs_lzzy_python/cache_node.py:121-130 | there are `n` sub-batches; a batch key lies in sub-batch `i` exactly when `i` is its shard; every pair of a sub-batch is a pair of the batch with the same value |
| `Router.Partition` | sdcs_lzzy_python/cache_node.py:121-130 | the partition loop, started from `n` empty dictionaries, ends with exactly the sub-batches `Buckets` describes |
| `Router.PartitionLossless` | sdcs_lzzy_python/cache_node.py:121-130 | the union of all sub-batches is the input batch, and their sizes add up to its size |
| `Router.PartitionDisjoint` | sdcs_lzzy_python/cache_node.py:121-130 | two different sub-batches share no key |
| `CacheNode.Node.constructor` | sdcs_lzzy_python/cache_node.py:39-42 | a node starts with an empty `cache` and `total_cnt == 0`, which satisfies the counter invariant |
| `CacheNode.Node.UpdateKeyValue` | sdcs_lzzy_python/cache_node.py:47-64 | undecodable input: the call fails and nothing changes; otherwise the reply is the batch size, every batch pair is written with other keys unchanged, `total_cnt` grows by the number of keys whose previous `get` was `None`, and the counter stays at least the size of `cache` |
| `CacheNode.Node.UpdateAll` | sdcs_lzzy_python/cache_node.py:53-62 | the loop over the decoded pairs: the count of processed pairs is the batch size, `cache` becomes old `cache` overridden by the batch, and the counter grows by the newly counted keys |
| `CacheNode.Node.Put` | sdcs_lzzy_python/cache_node.py:56-61 | one loop step: the key is written, and the counter grows by 1 exactly when the key's previous `get` was `None` |
| `CacheNode.CounterCoversSize` | sdcs_lzzy_python/cache_node.py:55-61 | Update adds no more keys to `cache` than it adds to `total_cnt`, so the counter never falls below the size |
| `CacheNode.Node.SearchKeyValue` | sdcs_lzzy_python/cache_node.py:67-77 | the reply is `{}` exactly when the key is absent or stored as `null`, and otherwise the one pair `{key: stored value}`; it reads the state and changes nothing |
| `CacheNode.Node.DeleteKeyValue` | sdcs_lzzy_python/cache_node.py:80-89 | the key is gone, every other key is unchanged, `total_cnt` is unchanged (so it exceeds the size after removing a present key), and the reply is 1 exactly when the removed value was truthy |
| `CacheNode.OverwriteSession` | sdcs_lzzy_python/cache_node.py:47-77 | on a fresh node, for any key and any two non-null values: two writes of the key leave the counter at 1, and Search returns the second value |
| `CacheNode.DeleteSession` | sdcs_lzzy_python/cache_node.py:47-89 | on a fresh node, for any key and value: after one write, deleting the key answers 1 exactly when the value is truthy, Search then finds nothing, and the counter stays 1 while the map is empty |
| `CacheNode.MissingDeleteSession` | sdcs_lzzy_python/cache_node.py:80-89 | deleting a key that was never written answers 0 |
| `CacheNode.FalsyDeleteSession` | sdcs_lzzy_python/cache_node.py:80-89 | deleting a key stored with `""` removes it and answers 0 |
| `CacheNode.NullValueSession` | sdcs_lzzy_python/cache_node.py:54-77 | writing a key with `null` twice counts it twice; the key is stored, but Search reports it absent |
| `Gateway.Gateway.constructor` | sdcs_lzzy_python/cache_node.py:28-29 | the gateway starts with no channels and no clients, which satisfies the pool invariant |
| `Gateway.KeepsClientsStep` | sdcs_lzzy_python/cache_node.py:31-37 | one `get_grpc_client` call keeps the pool an extension of the starting pool: stored clients are kept, and the only new client is the called shard's |
| `Gateway.Gateway.GetGrpcClient` | sdcs_lzzy_python/cache_node.py:31-37 | for a shard that has a client, the stored client is returned and nothing changes; otherwise a fresh channel to the shard's endpoint and a fresh client on it are stored under that shard only and returned |
| `Gateway.CalledShardsSpec` | sdcs_lzzy_python/cache_node.py:134-136 | a shard is called exactly when its sub-batch is non-empty |
| `Gateway.Gateway.UpdateCache` | sdcs_lzzy_python/cache_node.py:116-142 | `result_cnt` is the sum of the successful replies of the non-empty shards, in shard order; the shards called are exactly the non-empty ones; each of them has a client afterwards, every client stored before is kept, and new clients appear only for called shards |
| `Gateway.SumRepliesBound` | sdcs_lzzy_python/cache_node.py:133-142 | if each node reports either failure or its sub-batch's size, the sum is at most the total size, and equals it exactly when every called shard answered |
| `Gateway.ResultCountIsBatchSize` | sdcs_lzzy_python/cache_node.py:121-142 | with such nodes, `result_cnt` is at most the size of the write batch, and equals it exactly when no shard call failed |
| `GoServer.PairBody` | sdcs_lzzy_go/server.go:43 | the GET body is `{"`, then the key, then `":"`, then the value, then `"}`, with no escaping |
| `GoServer.PairBodyAmbiguous` | sdcs_lzzy_go/server.go:43 | since nothing is escaped, moving a `":"` from the end of the key to the start of the value leaves the GET body unchanged, so the body does not determine the pair |
| `GoServer.PairBodyCollision` | sdcs_lzzy_go/server.go:43 | the distinct pairs `(a":"b, c)` and `(a, b":"c)` give the same GET body |
| `GoServer.CacheServer.constructor` | sdcs_lzzy_go/server.go:152 | a server starts with an empty map and nothing forwarded |
| `GoServer.CacheServer.GetCache` | sdcs_lzzy_go/server.go:114-118 | the reply carries the request key and the stored value, or `""` for an absent key; nothing changes |
| `GoServer.CacheServer.SetCache` | sdcs_lzzy_go/server.go:121-126 | the key maps to the new value, other keys are unchanged, and nothing is forwarded |
| `GoServer.CacheServer.DeleteCache` | sdcs_lzzy_go/server.go:129-137 | the key is gone, and the reply is 1 if it was present and 0 otherwise, with the map unchanged in that case |
| `GoServer.CacheServer.HandleGet` | sdcs_lzzy_go/server.go:36-47 | a present key gives status 200 and the pair body; an absent key gives 404 with no body; nothing changes |
| `GoServer.CacheServer.HandleSet` | sdcs_lzzy_go/server.go:50-68 | no match: status 400 with the error text, and no change; a match: the parsed pair is stored, forwarded to peers 0 and 1, and the status is 200 |
| `GoServer.CacheServer.HandleDelete` | sdcs_lzzy_go/server.go:71-85 | the status is always 200; a present key is removed, a delete is forwarded to both peers and the body is `"1\n"`; an absent key gives body `"0\n"` with no change and nothing forwarded |
| `GoServer.SetGetDeleteSession` | sdcs_lzzy_go/server.go:36-85 | on a fresh server: set, then get, returns the pair; the first delete answers 1; the second answers 0; get then gives 404; four writes were forwarded |
| `GoServer.ZeroValueSession` | sdcs_lzzy_go/server.go:114-126 | GetCache gives the same reply for an absent key as for a key stored with `""` |

## Left out

- Concurrency is not modelled:
  * the gRPC thread pool of the Python node, which runs the unguarded check-then-increment of `total_cnt` concurrently;
  * the `sync.RWMutex` of the Go server;
  * the `go CacheSet` / `go CacheDelete` goroutines, which appear only as entries of the `sent` log;
  * the thread pool of `preload_data`.
- MD5, `json.loads` / `json.dumps` and the Go regular expression are parameters of the model, not implementations. The model assumes the gateway's `json.dumps` followed by the node's `json.loads` gives back the same object. `Gateway.SumRepliesBound` and `Gateway.ResultCountIsBatchSize` take that round trip, together with `CacheNode.Node.UpdateKeyValue`'s reply of the batch size, as their precondition `Honest`: each node answers either with a failure or with the size of the sub-batch it was sent.
- Strings are Dafny strings, sequences of Unicode scalar values, which is narrower than both sources:
  * A Python `str` key can hold a lone surrogate; a request body `{"\ud800": "x"}` decodes to one. On such a key, `key.encode()` in `get_hash_value` raises `UnicodeEncodeError`, so `update_cache` fails inside the partition loop before any RPC and the framework answers 500. The model's `hash` is total, so this error path is not modelled.
  * A Go `string` is a byte string. Keys and values that are not valid UTF-8 are not represented.
  * `PairBody`'s length counts characters, not the bytes Go writes.
- JSON numbers are modelled as `real`. Python's distinction between `int` and `float`, and non-standard literals such as `NaN`, are not modelled.
- Gateway.Gateway.UpdateCache: does not model the HTTP side. The parsing of `request.json` by the web framework is left out; a body that is not a JSON object fails in the framework. The constant reply `"update successfully!", 200` is left out too.
- The Python read and delete routes (`get_cache`, `delete_cache`, `grpc_search_client`, `grpc_delete_client`), apart from their use of `ShardOf`, are framework plumbing and are not modelled. This includes the status-code mapping and the `"0"` reply on a failed delete call.
- A failure while creating a channel or stub in `get_grpc_client` is not modelled. Creation always succeeds in the model.
- `preload_data` is the same partition loop (`Router.Partition`) applied to the fixed batch `key-1 … key-500`. Its thread pool and logging are not modelled, and neither are `ready_for_test`, `run_grpc_server` or `app.run`.
- `handleHttpRequest` (the method dispatch and the 500 on an unreadable body), `setAddress`, `startHttpServer`, `startRpcServer`, `main` and the whole of `sdcs_lzzy_go/client.go` are bootstrap and transport code. They are not part of this model.
- In `handleGet`, the `Content-Type` header is set after the status is written, so Go never sends it. The model does not track headers.
- Logging and printing throughout are not modelled.
- Every Dafny function is deterministic. The property that one key always maps to the same shard therefore holds by construction, so there is no separate lemma for it.
