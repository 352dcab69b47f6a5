/**
 * The write path of the Python gateway: the lazily filled pool of one RPC client
 * per shard (`get_grpc_client`) and `update_cache`, which splits a write batch by
 * shard, sends every non-empty sub-batch to its node and adds up the replies.
 * What a node replies is a parameter `reply`: `Some(update_cnt)`, or `None` when
 * the call raises.
 */
module Gateway {
  import opened Wrappers
  import opened Json
  import Router

  /** The node endpoints, indexed by shard. */
  const ServerRpcUrl: seq<string> := ["node0:8000", "node1:8000", "node2:8000"]

  /** The number of shards. */
  const ServerCnt: nat := 3

  /** A channel to one node endpoint. */
  class Channel {
    const target: string

    constructor (target: string)
      ensures this.target == target
    {
      this.target := target;
    }
  }

  /** A client stub bound to one channel. */
  class Stub {
    const channel: Channel

    constructor (channel: Channel)
      ensures this.channel == channel
    {
      this.channel := channel;
    }
  }

  /** The reply of shard `i` to an Update carrying sub-batch `b`. */
  type Reply = (nat, map<string, Value>) -> Option<int>

  /** What one shard adds to `result_cnt`: nothing for an empty sub-batch or a failed call. */
  function Contribution(i: nat, b: map<string, Value>, reply: Reply): int
  {
    if b == map[] then 0
    else match reply(i, b)
      case Some(cnt) => cnt
      case None => 0
  }

  /** `result_cnt` after the shards `0 .. |bs| - 1`. */
  function SumReplies(bs: seq<map<string, Value>>, reply: Reply): int
  {
    if bs == [] then 0 else SumReplies(bs[..|bs| - 1], reply) + Contribution(|bs| - 1, bs[|bs| - 1], reply)
  }

  /** The shards, in order, whose sub-batch is non-empty and so gets a call. */
  function CalledShards(bs: seq<map<string, Value>>): seq<nat>
  {
    if bs == [] then [] else CalledShards(bs[..|bs| - 1]) + if bs[|bs| - 1] == map[] then [] else [|bs| - 1]
  }

  /** Extending the prefix of shards by one adds that shard's contribution and, if it is called, its index. */
  lemma PrefixStep(bs: seq<map<string, Value>>, i: nat, reply: Reply)
    requires i < |bs|
    ensures SumReplies(bs[..i + 1], reply) == SumReplies(bs[..i], reply) + Contribution(i, bs[i], reply)
    ensures CalledShards(bs[..i + 1]) == CalledShards(bs[..i]) + if bs[i] == map[] then [] else [i]
  {
    assert bs[..i + 1][..i] == bs[..i];
  }

  lemma {:induction false} CalledShardsSpec(bs: seq<map<string, Value>>, i: nat)
    ensures i in CalledShards(bs) <==> i < |bs| && bs[i] != map[]
  {
    if bs != [] {
      CalledShardsSpec(bs[..|bs| - 1], i);
    }
  }

  /** A node answers honestly when it reports the size of the sub-batch it applied, as `UpdateKeyValue` does. */
  ghost predicate Honest(bs: seq<map<string, Value>>, reply: Reply)
  {
    forall i :: 0 <= i < |bs| && bs[i] != map[] ==> reply(i, bs[i]) == None || reply(i, bs[i]) == Some(|bs[i]|)
  }

  lemma {:induction false} SumRepliesBound(bs: seq<map<string, Value>>, reply: Reply)
    requires Honest(bs, reply)
    ensures SumReplies(bs, reply) <= Router.TotalSize(bs)
    ensures SumReplies(bs, reply) == Router.TotalSize(bs)
        <==> forall i :: 0 <= i < |bs| && bs[i] != map[] ==> reply(i, bs[i]).Some?
  {
    if bs != [] {
      var init := bs[..|bs| - 1];
      assert Honest(init, reply) by {
        forall i | 0 <= i < |init| && init[i] != map[] ensures reply(i, init[i]) == None || reply(i, init[i]) == Some(|init[i]|) {
          assert init[i] == bs[i];
        }
      }
      SumRepliesBound(init, reply);
      forall i | 0 <= i < |init| ensures init[i] == bs[i] { }
    }
  }

  /**
   * With honest nodes, `result_cnt` equals the size of the write batch exactly when
   * every shard that was sent a sub-batch answered; a failed shard's pairs are missing.
   */
  lemma ResultCountIsBatchSize(batch: map<string, Value>, hash: string -> nat, reply: Reply)
    requires Honest(Router.Buckets(batch, hash, ServerCnt), reply)
    ensures var bs := Router.Buckets(batch, hash, ServerCnt);
      && SumReplies(bs, reply) <= |batch|
      && (SumReplies(bs, reply) == |batch| <==> forall i :: 0 <= i < ServerCnt && bs[i] != map[] ==> reply(i, bs[i]).Some?)
  {
    Router.PartitionLossless(batch, hash, ServerCnt);
    SumRepliesBound(Router.Buckets(batch, hash, ServerCnt), reply);
  }

  /** The gateway's connection state: the `grpc_channels` and `grpc_clients` dictionaries. */
  /**
   * The pool `after` extends `before` for the calls `called`: every stored client is
   * kept, and every new one belongs to a called shard and is reachable from it.
   */
  ghost predicate KeepsClients(before: map<nat, Stub>, after: map<nat, Stub>, called: seq<nat>)
  {
    && (forall id :: id in before ==> id in after && after[id] == before[id])
    && (forall id :: id in after && id !in before ==> id in called)
    && (forall id :: id in called ==> id in after)
  }

  lemma KeepsClientsStep(before: map<nat, Stub>, mid: map<nat, Stub>, called: seq<nat>, id: nat, client: Stub)
    requires KeepsClients(before, mid, called)
    requires id in mid ==> mid[id] == client
    ensures KeepsClients(before, mid[id := client], called + [id])
  {
  }

  class Gateway {
    var channels: map<nat, Channel>
    var clients: map<nat, Stub>

    /** Each stored client belongs to a known shard and is bound to that shard's stored channel. */
    ghost predicate Valid()
      reads this
    {
      && channels.Keys == clients.Keys
      && forall id :: id in clients ==> id < |ServerRpcUrl| && clients[id].channel == channels[id]
                                         && channels[id].target == ServerRpcUrl[id]
    }

    constructor ()
      ensures Valid() && channels == map[] && clients == map[]
    {
      channels, clients := map[], map[];
    }

    /** `get_grpc_client`: create and store a client on the first request for a shard, and return the stored one. */
    method GetGrpcClient(serverId: nat) returns (client: Stub)
      requires Valid() && serverId < |ServerRpcUrl|
      modifies this
      ensures Valid()
      ensures clients == old(clients)[serverId := client]
      ensures serverId in old(clients) ==> client == old(clients[serverId]) && clients == old(clients) && channels == old(channels)
      ensures serverId !in old(clients) ==>
        && fresh(client) && fresh(client.channel) && client.channel.target == ServerRpcUrl[serverId]
        && clients == old(clients)[serverId := client] && channels == old(channels)[serverId := client.channel]
    {
      if serverId !in clients {
        var conn := new Channel(ServerRpcUrl[serverId]);
        var stub := new Stub(conn);
        channels := channels[serverId := conn];
        clients := clients[serverId := stub];
      }
      client := clients[serverId];
    }

    /**
     * `update_cache`: split the batch, then for each shard in order skip an empty
     * sub-batch, fetch the shard's client, send the sub-batch, and add a successful
     * reply to `result_cnt`; a failed call adds nothing and the loop goes on.
     * `called` lists the shards a call was sent to.
     */
    method UpdateCache(requestData: map<string, Value>, hash: string -> nat, reply: Reply)
      returns (resultCnt: int, called: seq<nat>)
      requires Valid()
      modifies this
      ensures Valid()
      ensures var bs := Router.Buckets(requestData, hash, ServerCnt);
        resultCnt == SumReplies(bs, reply) && called == CalledShards(bs)
      ensures forall id :: id in called ==> id in clients
      ensures forall id :: id in old(clients) ==> id in clients && clients[id] == old(clients)[id]
      ensures forall id :: id in clients && id !in old(clients) ==> id in called
    {
      ghost var clients0 := clients;
      var kvToUpdateList := Router.Partition(requestData, hash, ServerCnt);
      resultCnt, called := 0, [];
      var serverI := 0;
      while serverI < ServerCnt
        invariant 0 <= serverI <= ServerCnt
        invariant Valid()
        invariant resultCnt == SumReplies(kvToUpdateList[..serverI], reply)
        invariant called == CalledShards(kvToUpdateList[..serverI])
        invariant KeepsClients(clients0, clients, called)
        invariant forall id :: id in called ==> id < serverI
      {
        PrefixStep(kvToUpdateList, serverI, reply);
        if kvToUpdateList[serverI] == map[] {
          serverI := serverI + 1;
          continue;
        }
        ghost var before := clients;
        var client := GetGrpcClient(serverI);
        KeepsClientsStep(clients0, before, called, serverI, client);
        called := called + [serverI];
        match reply(serverI, kvToUpdateList[serverI]) {
          case Some(cnt) => resultCnt := resultCnt + cnt;
          case None =>
        }
        serverI := serverI + 1;
      }
      assert kvToUpdateList[..ServerCnt] == kvToUpdateList;
    }
  }
}
