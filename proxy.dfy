/**
 * The proxy as the program runs it: the blocklist, the cache and the
 * configuration live in one object (the program's globals), and each handler
 * step is a method that updates the shared cache in place. Every method is
 * proved to do what the corresponding function of `Pipeline` describes, and
 * records the collaborator calls it makes in the ghost log `calls`.
 */
module Proxy {
  import opened Wrappers
  import opened Messages
  import opened CacheKey
  import opened ResponseCache
  import opened Blocklist
  import Pipeline

  class DnsBlocker {
    const blocked: seq<string>
    const tables: Mnemonics
    const codec: Codec
    const cacheDuration: int
    const cache: Cache
    ghost var calls: seq<Pipeline.Call>

    function Config(): Pipeline.Config {
      Pipeline.Config(blocked, tables, codec, cacheDuration, cache.maxKeyValue)
    }

    constructor (blocked: seq<string>, tables: Mnemonics, codec: Codec, cacheDuration: int, cache: Cache)
      ensures this.blocked == blocked && this.tables == tables && this.codec == codec
      ensures this.cacheDuration == cacheDuration && this.cache == cache
      ensures calls == []
    {
      this.blocked := blocked;
      this.tables := tables;
      this.codec := codec;
      this.cacheDuration := cacheDuration;
      this.cache := cache;
      calls := [];
    }

    method FetchCache(cacheKey: string) returns (r: Result<Msg, Pipeline.Fault>)
      modifies this
      ensures r == Pipeline.FetchCache(Config(), cache.entries, cache.now, cacheKey)
      ensures calls == old(calls) + [Pipeline.CacheGet(cacheKey)]
    {
      calls := calls + [Pipeline.CacheGet(cacheKey)];
      var messageData := cache.Get(cacheKey);
      if messageData.None? {
        return Failure(Pipeline.ErrNotFound);
      }
      var dnsMessage := codec.unpack(messageData.value);
      if dnsMessage.None? {
        return Failure(Pipeline.UnpackFailed);
      }
      r := Success(dnsMessage.value);
    }

    method WriteCache(cacheKey: string, dnsMessage: Msg) returns (err: Option<Pipeline.Fault>)
      modifies this, cache
      ensures cache.now == old(cache.now)
      ensures var w := Pipeline.WriteCache(Config(), old(cache.entries), cache.now, cacheKey, dnsMessage);
        err == w.value && cache.entries == w.entries && calls == old(calls) + w.calls
    {
      var messageData := codec.pack(dnsMessage);
      if messageData.None? {
        return Some(Pipeline.PackFailed);
      }
      calls := calls + [Pipeline.CacheSet(cacheKey)];
      var cacheErr := cache.Set(cacheKey, messageData.value, cacheDuration);
      if cacheErr.Some? {
        return Some(Pipeline.SetFailed(cacheErr.value));
      }
      err := None;
    }

    /**
     * `reply` is what the upstream exchange returns if it is made, and
     * `elapsed` the seconds it takes; the cache's clock advances by that much
     * while the exchange is under way.
     */
    method DnsExchangeWithCache(requestMessage: Msg, reply: Option<Msg>, elapsed: nat) returns (r: Result<Msg, Pipeline.Fault>)
      modifies this, cache
      ensures var x := Pipeline.ExchangeWithCache(Config(), old(cache.entries), old(cache.now), requestMessage, reply, elapsed);
        r == x.value && cache.entries == x.entries && cache.now == x.clock && calls == old(calls) + x.calls
    {
      var cacheKey := MessageCacheKey(tables, requestMessage);
      var fetched := FetchCache(cacheKey);
      if fetched.Success? {
        return Success(SetReply(fetched.value, requestMessage));
      } else if fetched.error != Pipeline.ErrNotFound {
        return Failure(fetched.error);
      }
      calls := calls + [Pipeline.UpstreamExchange];
      cache.Advance(elapsed);
      if reply.None? {
        return Failure(Pipeline.ExchangeFailed);
      }
      var responseMessage := reply.value;
      var writeErr := WriteCache(cacheKey, responseMessage);
      if writeErr.Some? {
        return Failure(writeErr.value);
      }
      r := Success(responseMessage);
    }

    method ProxyRequest(requestMessage: Msg, reply: Option<Msg>, elapsed: nat) returns (response: Msg)
      modifies this, cache
      ensures var p := Pipeline.ProxyRequest(Config(), old(cache.entries), old(cache.now), requestMessage, reply, elapsed);
        response == p.value && cache.entries == p.entries && cache.now == p.clock && calls == old(calls) + p.calls
    {
      var fetched := DnsExchangeWithCache(requestMessage, reply, elapsed);
      if fetched.Success? {
        response := fetched.value;
      } else {
        response := ErrorResponse(requestMessage, RcodeServerFailure);
      }
    }

    /** `handler`: returns the one response that is written back to the client. */
    method Handler(requestMessage: Msg, reply: Option<Msg>, elapsed: nat) returns (response: Msg)
      modifies this, cache
      ensures var h := Pipeline.Handle(Config(), old(cache.entries), old(cache.now), requestMessage, reply, elapsed);
        response == h.value && cache.entries == h.entries && cache.now == h.clock && calls == old(calls) + h.calls
    {
      ghost var entries, now, log := cache.entries, cache.now, calls;
      ghost var h := Pipeline.Handle(Config(), entries, now, requestMessage, reply, elapsed);
      if |requestMessage.question| != 1 {
        return ErrorResponse(requestMessage, RcodeFormatError);
      }
      var question := requestMessage.question[0];
      calls := calls + [Pipeline.BlockCheck(question.name)];
      if IsBlocked(blocked, question.name) {
        response := ErrorResponse(requestMessage, RcodeRefused);
      } else {
        response := ProxyRequest(requestMessage, reply, elapsed);
        ghost var p := Pipeline.ProxyRequest(Config(), entries, now, requestMessage, reply, elapsed);
        assert h == Pipeline.Step(p.value, p.entries, p.clock, [Pipeline.BlockCheck(question.name)] + p.calls);
        assert calls == log + h.calls;
      }
    }
  }
}
