/**
 * The per-query decision pipeline as functions of the cache contents and the
 * clock: validate the question count, consult the blocklist, look the query
 * up in the cache, and on a miss forward it upstream and cache the answer.
 * Each step also returns the calls it made on its collaborators, in order,
 * so that the lemmas can say which of the blocklist, the cache and upstream
 * a query reaches.
 *
 * The upstream exchange is an oracle: `reply` is what `dns.Exchange` returns
 * for this query if it is asked (None for a failed exchange), and `elapsed`
 * is how many seconds that exchange takes. Everything else is instantaneous.
 */
module Pipeline {
  import opened Wrappers
  import opened Messages
  import opened CacheKey
  import opened ResponseCache
  import opened Blocklist

  /** The configuration the handler reads: blocklist, key tables, codec, cache duration and entry limit. */
  datatype Config = Config(rules: seq<string>, tables: Mnemonics, codec: Codec, duration: int, maxKeyValue: nat)

  /** The errors that travel back from the cache and upstream to `proxyRequest`. */
  datatype Fault = ErrNotFound | UnpackFailed | PackFailed | SetFailed(cause: CacheError) | ExchangeFailed

  /** One call on a collaborator. */
  datatype Call = BlockCheck(name: string) | CacheGet(key: string) | CacheSet(key: string) | UpstreamExchange

  /** A step's value, the cache contents after it, the clock when it ends, and the calls it made. */
  datatype Step<T> = Step(value: T, entries: map<string, Entry>, clock: int, calls: seq<Call>)

  /** `fetchCache`: look the key up and unpack the stored bytes. */
  function FetchCache(cfg: Config, entries: map<string, Entry>, now: int, key: string): Result<Msg, Fault> {
    match Lookup(entries, key, now)
    case None => Failure(ErrNotFound)
    case Some(data) =>
      match cfg.codec.unpack(data)
      case None => Failure(UnpackFailed)
      case Some(m) => Success(m)
  }

  /** `writeCache`: pack the message, then store it under the key for `duration` seconds, stamped `now`. */
  function WriteCache(cfg: Config, entries: map<string, Entry>, now: int, key: string, m: Msg): Step<Option<Fault>> {
    match cfg.codec.pack(m)
    case None => Step(Some(PackFailed), entries, now, [])
    case Some(data) =>
      match Store(entries, key, data, cfg.duration, now, cfg.maxKeyValue)
      case Failure(e) => Step(Some(SetFailed(e)), entries, now, [CacheSet(key)])
      case Success(stored) => Step(None, stored, now, [CacheSet(key)])
  }

  /**
   * `dnsExchangeWithCache`, starting at clock reading `now`. The upstream
   * exchange takes `elapsed` seconds, so a forwarded answer is written to the
   * cache at `now + elapsed`.
   */
  function ExchangeWithCache(cfg: Config, entries: map<string, Entry>, now: int, request: Msg, reply: Option<Msg>, elapsed: nat)
    : Step<Result<Msg, Fault>>
  {
    var key := Key(cfg.tables, request.question);
    match FetchCache(cfg, entries, now, key)
    case Success(cached) => Step(Success(SetReply(cached, request)), entries, now, [CacheGet(key)])
    case Failure(e) =>
      if e != ErrNotFound then Step(Failure(e), entries, now, [CacheGet(key)])
      else
        var answered := now + elapsed;
        match reply
        case None => Step(Failure(ExchangeFailed), entries, answered, [CacheGet(key), UpstreamExchange])
        case Some(response) =>
          var w := WriteCache(cfg, entries, answered, key, response);
          var calls := [CacheGet(key), UpstreamExchange] + w.calls;
          match w.value
          case Some(writeErr) => Step(Failure(writeErr), w.entries, answered, calls)
          case None => Step(Success(response), w.entries, answered, calls)
  }

  /** `proxyRequest`: the exchange's answer, or ServerFailure on any error. */
  function ProxyRequest(cfg: Config, entries: map<string, Entry>, now: int, request: Msg, reply: Option<Msg>, elapsed: nat)
    : Step<Msg>
  {
    var x := ExchangeWithCache(cfg, entries, now, request, reply, elapsed);
    match x.value
    case Success(response) => Step(response, x.entries, x.clock, x.calls)
    case Failure(_) => Step(ErrorResponse(request, RcodeServerFailure), x.entries, x.clock, x.calls)
  }

  /** `handler`: the one response to a query, with the cache and clock after it and the calls made. */
  function Handle(cfg: Config, entries: map<string, Entry>, now: int, request: Msg, reply: Option<Msg>, elapsed: nat)
    : Step<Msg>
  {
    if |request.question| != 1 then
      Step(ErrorResponse(request, RcodeFormatError), entries, now, [])
    else
      var name := request.question[0].name;
      if IsBlocked(cfg.rules, name) then
        Step(ErrorResponse(request, RcodeRefused), entries, now, [BlockCheck(name)])
      else
        var p := ProxyRequest(cfg, entries, now, request, reply, elapsed);
        Step(p.value, p.entries, p.clock, [BlockCheck(name)] + p.calls)
  }

  /** A single-question query for a name the blocklist lets through. */
  predicate Proxied(cfg: Config, request: Msg) {
    |request.question| == 1 && !IsBlocked(cfg.rules, request.question[0].name)
  }

  /** A proxied query with no live cache entry. */
  predicate Miss(cfg: Config, entries: map<string, Entry>, now: int, request: Msg) {
    Proxied(cfg, request) && Lookup(entries, Key(cfg.tables, request.question), now) == None
  }

  /** A cache entry is unusable only by being absent or expired, or by failing to unpack. */
  lemma FetchOutcomes(cfg: Config, entries: map<string, Entry>, now: int, key: string)
    ensures FetchCache(cfg, entries, now, key) == Failure(ErrNotFound) <==> Lookup(entries, key, now) == None
    ensures FetchCache(cfg, entries, now, key) == Failure(UnpackFailed)
      <==> Lookup(entries, key, now).Some? && cfg.codec.unpack(Lookup(entries, key, now).value) == None
    ensures FetchCache(cfg, entries, now, key).Success?
      <==> Lookup(entries, key, now).Some? && cfg.codec.unpack(Lookup(entries, key, now).value).Some?
  {
  }

  /** A query without exactly one question is answered FormatError and touches nothing. */
  lemma FormatErrorForQuestionCount(cfg: Config, entries: map<string, Entry>, now: int, request: Msg, reply: Option<Msg>, elapsed: nat)
    requires |request.question| != 1
    ensures var h := Handle(cfg, entries, now, request, reply, elapsed);
      h.value == ErrorResponse(request, RcodeFormatError) && h.value.rcode == RcodeFormatError &&
      h.entries == entries && h.clock == now && h.calls == []
  {
  }

  /** A blocked name is answered Refused; neither the cache nor upstream is called. */
  lemma RefusedWhenBlocked(cfg: Config, entries: map<string, Entry>, now: int, request: Msg, reply: Option<Msg>, elapsed: nat)
    requires |request.question| == 1 && IsBlocked(cfg.rules, request.question[0].name)
    ensures var h := Handle(cfg, entries, now, request, reply, elapsed);
      h.value == ErrorResponse(request, RcodeRefused) && h.value.rcode == RcodeRefused &&
      h.entries == entries && h.clock == now && h.calls == [BlockCheck(request.question[0].name)]
  {
  }

  /**
   * A hit answers with the cached message re-addressed to the request; there
   * is no upstream exchange and no cache write.
   */
  lemma HitIsReaddressedCachedAnswer(cfg: Config, entries: map<string, Entry>, now: int, request: Msg, reply: Option<Msg>, elapsed: nat, cached: Msg)
    requires Proxied(cfg, request)
    requires FetchCache(cfg, entries, now, Key(cfg.tables, request.question)) == Success(cached)
    ensures var h := Handle(cfg, entries, now, request, reply, elapsed);
      h.value == SetReply(cached, request) && h.value.id == request.id && h.value.rcode == RcodeSuccess &&
      h.entries == entries && h.clock == now &&
      h.calls == [BlockCheck(request.question[0].name), CacheGet(Key(cfg.tables, request.question))]
  {
  }

  /**
   * A cache error other than not-found (an entry that does not unpack) is
   * answered ServerFailure without contacting upstream.
   */
  lemma CacheFaultIsServerFailure(cfg: Config, entries: map<string, Entry>, now: int, request: Msg, reply: Option<Msg>, elapsed: nat)
    requires Proxied(cfg, request)
    requires FetchCache(cfg, entries, now, Key(cfg.tables, request.question)).Failure?
    requires FetchCache(cfg, entries, now, Key(cfg.tables, request.question)).error != ErrNotFound
    ensures var h := Handle(cfg, entries, now, request, reply, elapsed);
      h.value == ErrorResponse(request, RcodeServerFailure) && h.entries == entries && h.clock == now &&
      UpstreamExchange !in h.calls
  {
  }

  /** A failed exchange is answered ServerFailure and nothing is written to the cache. */
  lemma UpstreamFailureIsServerFailure(cfg: Config, entries: map<string, Entry>, now: int, request: Msg, elapsed: nat)
    requires Miss(cfg, entries, now, request)
    ensures var h := Handle(cfg, entries, now, request, None, elapsed);
      h.value == ErrorResponse(request, RcodeServerFailure) && h.entries == entries && h.clock == now + elapsed &&
      h.calls == [BlockCheck(request.question[0].name), CacheGet(Key(cfg.tables, request.question)), UpstreamExchange]
  {
  }

  /**
   * A successful exchange is stored under the query's key with the configured
   * duration, stamped with the clock when the exchange returns, and the
   * upstream answer is returned as it came.
   */
  lemma ForwardStoresAnswer(cfg: Config, entries: map<string, Entry>, now: int, request: Msg, response: Msg, elapsed: nat, data: Bytes)
    requires Miss(cfg, entries, now, request)
    requires cfg.codec.pack(response) == Some(data)
    requires Store(entries, Key(cfg.tables, request.question), data, cfg.duration, now + elapsed, cfg.maxKeyValue).Success?
    ensures var h := Handle(cfg, entries, now, request, Some(response), elapsed);
      h.value == response &&
      h.entries == entries[Key(cfg.tables, request.question) := Entry(data, now + elapsed, cfg.duration)] &&
      h.clock == now + elapsed &&
      h.calls == [BlockCheck(request.question[0].name), CacheGet(Key(cfg.tables, request.question)), UpstreamExchange, CacheSet(Key(cfg.tables, request.question))]
  {
  }

  /** When the answer cannot be packed or stored, the query is answered ServerFailure and the cache is unchanged. */
  lemma WriteFailureIsServerFailure(cfg: Config, entries: map<string, Entry>, now: int, request: Msg, response: Msg, elapsed: nat)
    requires Miss(cfg, entries, now, request)
    requires cfg.codec.pack(response) == None ||
      Store(entries, Key(cfg.tables, request.question), cfg.codec.pack(response).value, cfg.duration, now + elapsed, cfg.maxKeyValue).Failure?
    ensures var h := Handle(cfg, entries, now, request, Some(response), elapsed);
      h.value == ErrorResponse(request, RcodeServerFailure) && h.entries == entries
  {
  }

  /**
   * The cache changes only through a successful forward: then the upstream
   * answer is what the client gets, and the calls end with the cache write.
   */
  lemma CacheChangesOnlyOnForward(cfg: Config, entries: map<string, Entry>, now: int, request: Msg, reply: Option<Msg>, elapsed: nat)
    requires Handle(cfg, entries, now, request, reply, elapsed).entries != entries
    ensures var h := Handle(cfg, entries, now, request, reply, elapsed);
      Miss(cfg, entries, now, request) && reply.Some? && h.value == reply.value &&
      |h.calls| == 4 && h.calls[2] == UpstreamExchange && h.calls[3] == CacheSet(Key(cfg.tables, request.question))
  {
    FetchOutcomes(cfg, entries, now, Key(cfg.tables, request.question));
  }

  /** The clock moves only while the query waits for upstream. */
  lemma ClockMovesOnlyUpstream(cfg: Config, entries: map<string, Entry>, now: int, request: Msg, reply: Option<Msg>, elapsed: nat)
    ensures var h := Handle(cfg, entries, now, request, reply, elapsed);
      h.clock == if UpstreamExchange in h.calls then now + elapsed else now
  {
    var key := Key(cfg.tables, request.question);
    var h := Handle(cfg, entries, now, request, reply, elapsed);
    if Proxied(cfg, request) && FetchCache(cfg, entries, now, key) == Failure(ErrNotFound) {
      assert h.calls[2] == UpstreamExchange;
    }
  }

  /**
   * Failures are not cached: after a failed exchange, any query with the same
   * questions (whatever its id and flags), at the same moment or later, misses
   * again and goes upstream again.
   */
  lemma RetryAfterUpstreamFailure(cfg: Config, entries: map<string, Entry>, now: int, request: Msg, elapsed: nat,
                                  request': Msg, later: int, reply: Option<Msg>, elapsed': nat)
    requires Miss(cfg, entries, now, request)
    requires request'.question == request.question
    requires now <= later
    ensures var first := Handle(cfg, entries, now, request, None, elapsed);
      first.value.rcode == RcodeServerFailure &&
      Miss(cfg, first.entries, later, request') &&
      UpstreamExchange in Handle(cfg, first.entries, later, request', reply, elapsed').calls
  {
    UpstreamFailureIsServerFailure(cfg, entries, now, request, elapsed);
    ExpiredStaysExpired(entries, Key(cfg.tables, request.question), now, later);
    FetchOutcomes(cfg, entries, later, Key(cfg.tables, request.question));
  }

  /**
   * A forwarded answer serves any query with the same questions (whatever its
   * id and flags) from the cache for the configured duration, counted from
   * when the answer was written: the second query makes no upstream exchange
   * and no cache write, and answers with the stored message re-addressed to it
   * (or ServerFailure if the stored bytes do not unpack).
   */
  lemma HitAfterForward(cfg: Config, entries: map<string, Entry>, now: int, request: Msg, response: Msg, elapsed: nat, data: Bytes,
                        request': Msg, later: int, reply: Option<Msg>, elapsed': nat)
    requires Miss(cfg, entries, now, request)
    requires request'.question == request.question
    requires cfg.codec.pack(response) == Some(data)
    requires Store(entries, Key(cfg.tables, request.question), data, cfg.duration, now + elapsed, cfg.maxKeyValue).Success?
    requires now + elapsed <= later && (cfg.duration <= 0 || later < now + elapsed + cfg.duration)
    ensures var first := Handle(cfg, entries, now, request, Some(response), elapsed);
      var second := Handle(cfg, first.entries, later, request', reply, elapsed');
      first.value == response &&
      second.entries == first.entries && second.clock == later &&
      UpstreamExchange !in second.calls &&
      second.value == match cfg.codec.unpack(data)
        case Some(cached) => SetReply(cached, request')
        case None => ErrorResponse(request', RcodeServerFailure)
  {
    ForwardStoresAnswer(cfg, entries, now, request, response, elapsed, data);
    var first := Handle(cfg, entries, now, request, Some(response), elapsed);
    HitWithinTtl(entries, Key(cfg.tables, request.question), data, cfg.duration, now + elapsed, cfg.maxKeyValue, later);
    assert Lookup(first.entries, Key(cfg.tables, request.question), later) == Some(data);
  }

  /**
   * When the codec round-trips the upstream answer, a later query with the
   * same questions within the duration gets that answer re-addressed to it.
   */
  lemma RepeatedQueryGetsSameAnswer(cfg: Config, entries: map<string, Entry>, now: int, request: Msg, response: Msg, elapsed: nat,
                                    request': Msg, later: int, reply: Option<Msg>, elapsed': nat)
    requires Miss(cfg, entries, now, request)
    requires request'.question == request.question
    requires cfg.codec.pack(response).Some? && cfg.codec.unpack(cfg.codec.pack(response).value) == Some(response)
    requires Store(entries, Key(cfg.tables, request.question), cfg.codec.pack(response).value, cfg.duration, now + elapsed, cfg.maxKeyValue).Success?
    requires now + elapsed <= later && (cfg.duration <= 0 || later < now + elapsed + cfg.duration)
    ensures var first := Handle(cfg, entries, now, request, Some(response), elapsed);
      Handle(cfg, first.entries, later, request', reply, elapsed').value == SetReply(response, request')
  {
    HitAfterForward(cfg, entries, now, request, response, elapsed, cfg.codec.pack(response).value, request', later, reply, elapsed');
  }

  /**
   * Every query's response is one of five kinds, each tied to its cause:
   * ServerFailure comes only from an entry that does not unpack, a failed
   * exchange, or an answer that cannot be packed or stored.
   */
  lemma ResponseKinds(cfg: Config, entries: map<string, Entry>, now: int, request: Msg, reply: Option<Msg>, elapsed: nat)
    ensures var r := Handle(cfg, entries, now, request, reply, elapsed).value;
      (|request.question| != 1 && r == ErrorResponse(request, RcodeFormatError)) ||
      (|request.question| == 1 && IsBlocked(cfg.rules, request.question[0].name) && r == ErrorResponse(request, RcodeRefused)) ||
      (Proxied(cfg, request) && FetchCache(cfg, entries, now, Key(cfg.tables, request.question)).Success? &&
        r == SetReply(FetchCache(cfg, entries, now, Key(cfg.tables, request.question)).value, request)) ||
      (Miss(cfg, entries, now, request) && reply.Some? && r == reply.value) ||
      (Proxied(cfg, request) && r == ErrorResponse(request, RcodeServerFailure) &&
        (FetchCache(cfg, entries, now, Key(cfg.tables, request.question)) == Failure(UnpackFailed) ||
         (Miss(cfg, entries, now, request) && reply.None?) ||
         (Miss(cfg, entries, now, request) && reply.Some? &&
          (cfg.codec.pack(reply.value) == None ||
           Store(entries, Key(cfg.tables, request.question), cfg.codec.pack(reply.value).value,
                 cfg.duration, now + elapsed, cfg.maxKeyValue).Failure?))))
  {
    FetchOutcomes(cfg, entries, now, Key(cfg.tables, request.question));
  }
}
