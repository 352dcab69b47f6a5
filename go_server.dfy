/**
 * The cache server of the Go implementation: one `map[string]string`, served to
 * peers by the RPC handlers SetCache, GetCache and DeleteCache and to clients by
 * the HTTP handlers handleGet, handleSet and handleDelete. The HTTP handlers
 * forward each write to the two peer servers; those forwarded calls are recorded
 * in the log `sent`. Each handler runs as one atomic step here.
 */
module GoServer {
  import opened Wrappers

  const StatusOK: int := 200
  const StatusBadRequest: int := 400
  const StatusNotFound: int := 404

  /** A write forwarded to peer `peer` (0 or 1) by an HTTP handler. */
  datatype Forward = SetSent(peer: nat, key: string, value: string) | DeleteSent(peer: nat, key: string)

  /** The status code and body an HTTP handler writes. */
  datatype HttpResponse = HttpResponse(status: int, body: string)

  /** The reply of the GetCache RPC. */
  datatype GetReply = GetReply(key: string, value: string)

  /** The body handleGet writes: the key and value dropped into `{"…":"…"}` without escaping. */
  function PairBody(key: string, value: string): (body: string)
    ensures |body| == |key| + |value| + 7
    ensures body[..2] == "{\"" && body[2..2 + |key|] == key
    ensures body[2 + |key|..5 + |key|] == "\":\"" && body[5 + |key|..5 + |key| + |value|] == value
    ensures body[|body| - 2..] == "\"}"
  {
    "{\"" + key + "\":\"" + value + "\"}"
  }

  /**
   * Because nothing is escaped, the body does not determine the pair: moving a
   * `":"` from the end of the key to the start of the value gives the same body.
   */
  lemma PairBodyAmbiguous(key: string, middle: string, value: string)
    ensures PairBody(key + "\":\"" + middle, value) == PairBody(key, middle + "\":\"" + value)
  {
  }

  /** The concrete instance: the pairs ("a\":\"b", "c") and ("a", "b\":\"c") give one body. */
  lemma PairBodyCollision()
    ensures "a\":\"b" != "a" && PairBody("a\":\"b", "c") == PairBody("a", "b\":\"c")
  {
    PairBodyAmbiguous("a", "b", "c");
  }

  class CacheServer {
    var cache: map<string, string>
    var sent: seq<Forward>

    constructor ()
      ensures cache == map[] && sent == []
    {
      cache, sent := map[], [];
    }

    /** GetCache: the stored value, or Go's zero value `""` for an absent key; nothing changes. */
    method GetCache(key: string) returns (reply: GetReply)
      ensures reply.key == key
      ensures key in cache ==> reply.value == cache[key]
      ensures key !in cache ==> reply.value == ""
    {
      var value := if key in cache then cache[key] else "";
      reply := GetReply(key, value);
    }

    /** SetCache: store the pair; it never fails and forwards nothing. */
    method SetCache(key: string, value: string)
      modifies this
      ensures cache == old(cache)[key := value]
      ensures sent == old(sent)
    {
      cache := cache[key := value];
    }

    /** DeleteCache: remove a present key and answer 1; answer 0 for an absent key. */
    method DeleteCache(key: string) returns (num: int)
      modifies this
      ensures cache == old(cache) - {key}
      ensures num == if key in old(cache) then 1 else 0
      ensures sent == old(sent)
    {
      if key in cache {
        cache := cache - {key};
        return 1;
      }
      return 0;
    }

    /** handleGet: 200 with the pair as body for a present key, 404 with no body otherwise; nothing changes. */
    method HandleGet(key: string) returns (resp: HttpResponse)
      ensures key in cache ==> resp == HttpResponse(StatusOK, PairBody(key, cache[key]))
      ensures key !in cache ==> resp == HttpResponse(StatusNotFound, "")
    {
      if key in cache {
        var value := cache[key];
        return HttpResponse(StatusOK, PairBody(key, value));
      }
      return HttpResponse(StatusNotFound, "");
    }

    /**
     * handleSet: `parsed` is the first match of the body-parsing regular expression,
     * or `None` when there is none. Without a match: 400 and no change. With a match:
     * store the pair, forward it to both peers, answer 200.
     */
    method HandleSet(parsed: Option<(string, string)>) returns (resp: HttpResponse)
      modifies this
      ensures parsed.None? ==> resp == HttpResponse(StatusBadRequest, "Invalid JSON format\n")
                               && cache == old(cache) && sent == old(sent)
      ensures parsed.Some? ==>
        var (key, value) := parsed.value;
        && resp == HttpResponse(StatusOK, "")
        && cache == old(cache)[key := value]
        && sent == old(sent) + [SetSent(0, key, value), SetSent(1, key, value)]
    {
      if parsed.None? {
        return HttpResponse(StatusBadRequest, "Invalid JSON format\n");
      }
      var (key, value) := parsed.value;
      cache := cache[key := value];
      sent := sent + [SetSent(0, key, value), SetSent(1, key, value)];
      return HttpResponse(StatusOK, "");
    }

    /** handleDelete: for a present key remove it, forward the delete to both peers and write "1"; otherwise write "0". */
    method HandleDelete(key: string) returns (resp: HttpResponse)
      modifies this
      ensures resp.status == StatusOK
      ensures key in old(cache) ==>
        && resp.body == "1\n"
        && cache == old(cache) - {key}
        && sent == old(sent) + [DeleteSent(0, key), DeleteSent(1, key)]
      ensures key !in old(cache) ==> resp.body == "0\n" && cache == old(cache) && sent == old(sent)
    {
      if key in cache {
        cache := cache - {key};
        sent := sent + [DeleteSent(0, key), DeleteSent(1, key)];
        return HttpResponse(StatusOK, "1\n");
      }
      return HttpResponse(StatusOK, "0\n");
    }
  }

  /**
   * A client session against one fresh server: a set is visible to get, a delete
   * of a present key answers "1" and forwards, a second delete answers "0", and
   * a get after the delete is 404.
   */
  method SetGetDeleteSession(key: string, value: string)
    returns (got: HttpResponse, del1: HttpResponse, del2: HttpResponse, after: HttpResponse, forwarded: seq<Forward>)
    ensures got == HttpResponse(StatusOK, PairBody(key, value))
    ensures del1 == HttpResponse(StatusOK, "1\n") && del2 == HttpResponse(StatusOK, "0\n")
    ensures after == HttpResponse(StatusNotFound, "")
    ensures forwarded == [SetSent(0, key, value), SetSent(1, key, value), DeleteSent(0, key), DeleteSent(1, key)]
  {
    var server := new CacheServer();
    var setResp := server.HandleSet(Some((key, value)));
    got := server.HandleGet(key);
    del1 := server.HandleDelete(key);
    del2 := server.HandleDelete(key);
    after := server.HandleGet(key);
    forwarded := server.sent;
  }

  /** GetCache cannot tell an absent key from a key stored with the empty value. */
  method ZeroValueSession(key: string) returns (absent: GetReply, empty: GetReply)
    ensures absent == empty == GetReply(key, "")
  {
    var server := new CacheServer();
    absent := server.GetCache(key);
    server.SetCache(key, "");
    empty := server.GetCache(key);
  }
}
