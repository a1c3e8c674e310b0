# go-dnsblocker: a Dafny model of the query pipeline

go-dnsblocker is a DNS proxy that refuses queries for names on a blocklist
(and for all their subdomains) and forwards every other query to an upstream
resolver. Successful upstream answers are cached for a fixed number of seconds.
This project models the per-query decision pipeline of `dnsblocker.go` and
proves what it does in each case:

- **Blocklist matching** (`isBlocked`): `Blocklist.IsBlocked` scans the rules in
  order. It is proved equal to "some rule is the name or a parent domain of it".
  The label comparison of the DNS library's `IsSubDomain` is modelled in
  `DomainNames`: labels are compared from the right, ASCII case is ignored, and
  the last label is compared together with its root dot. The empty string
  counts as one empty label: as a parent it matches only the empty name.
- **Loading rules** (`loadBlocked`): `Hosts.LoadBlocked` reads the file contents
  line by line. Each complete line loses its newline and is passed through
  `dns.Fqdn`.
- **Cache key** (`messageCacheKey`): `CacheKey.MessageCacheKey` builds one
  "name class type" row per question and joins the rows with ','.
- **Response cache** (freecache): `ResponseCache.Cache` is a class holding a map
  from key to (bytes, insertion time, ttl) and a clock in seconds.
- **Orchestration** (`handler` → `proxyRequest` → `dnsExchangeWithCache`,
  with `fetchCache` and `writeCache`): `Pipeline` gives each step as a function
  of the cache contents and the clock. Each step returns its value, the new
  cache contents and the list of collaborator calls it made (blocklist check,
  cache get, cache set, upstream exchange). `Proxy.DnsBlocker` is the program
  as it runs: one object holding the globals, whose methods update the shared
  cache in place. Each method is proved to agree with its `Pipeline` function,
  and the method keeps its calls in a ghost log.

The upstream exchange is an oracle. `reply: Option<Msg>` is what
`dns.Exchange` would return if it were called, and `None` stands for a failed
exchange. `elapsed` is how many seconds that exchange takes: the clock
advances by that much while the query waits, so a forwarded answer is stamped
with the time of the cache write, as freecache does. The wire codec is a pair
of functions that may fail (`Codec.pack`, `Codec.unpack`). `SetReply` and
`SetRcode` follow the DNS library: the id and opcode are copied, the RD and CD bits are copied for a query, the rcode is set
to success, and the first question is echoed.

Behaviours of the code worth knowing:

- A stored entry that fails to unpack is not treated as a miss. It is reported
  as an error, and the client gets ServerFailure (dnsblocker.go:128-132, 161-162).
- Rules are not lower-cased when they are loaded. Case is ignored by the
  comparison itself.
- On a cache hit, `SetReply` resets the rcode. So a cached negative answer is
  replayed with rcode NoError (`Pipeline.HitIsReaddressedCachedAnswer`).
- An empty line in the hosts file becomes the root rule ".", and that rule
  blocks every name (`Hosts.BlankLineBlocksEverything`).

## Model

| member | source | states |
|---|---|---|
| DomainNames.IsSubDomain | dnsblocker.go:97 | `dns.IsSubDomain` as a label-suffix test; its properties are the lemmas in the rows below |
| DomainNames.Fqdn | dnsblocker.go:85 | the result is fully qualified; a fully qualified name is returned unchanged, any other name gets exactly one '.' appended |
| DomainNames.FqdnKeepsLabels | dnsblocker.go:85 | making a name fully qualified does not change its labels |
| DomainNames.SubDomainReflexive | dnsblocker.go:97 | every name is a subdomain of itself (equality counts as a match) |
| DomainNames.LabelsOfChild | dnsblocker.go:97 | putting a label and a dot in front of a name adds exactly that label on the left and keeps the name's qualification |
| DomainNames.SubDomainOfChild | dnsblocker.go:97 | a child of a subdomain of a rule is again a subdomain of that rule |
| DomainNames.SubDomainAtAnyDepth | dnsblocker.go:97 | any number of labels put in front of a subdomain of a rule still gives a subdomain of that rule |
| DomainNames.UnqualifiedParentMissesQualifiedChild | dnsblocker.go:97 | without the root dot, a non-root rule never matches a fully qualified query name, which is why rules go through Fqdn |
| DomainNames.SubDomainIgnoresCase | dnsblocker.go:97 | lower-casing both the parent and the child never changes the result of the subdomain test |
| Messages.SetRcode | dnsblocker.go:189-190 | the message is addressed to the request (id, opcode, response bit), carries the given rcode and keeps its record sections |
| Blocklist.IsBlocked | dnsblocker.go:95-102 | the early-exit scan returns true iff some rule r in the list has IsSubDomain(r, name) |
| Blocklist.EmptyBlocksNothing | dnsblocker.go:95-102 | an empty blocklist blocks no name |
| Blocklist.OrderIrrelevant | dnsblocker.go:95-102 | two rule lists with the same members give the same verdict for every name, whatever the order or repetition |
| Blocklist.BlocksSubdomains | dnsblocker.go:95-102 | a listed rule blocks its own name and every name below it, at any depth |
| Blocklist.RootBlocksEverything | dnsblocker.go:95-102 | a list containing the root rule "." blocks every name |
| Blocklist.MoreRulesBlockMore | dnsblocker.go:95-102 | appending rules never unblocks a name |
| Blocklist.AdsExample | dnsblocker.go:95-102 | with the rule "ads.example.com.", "x.ads.example.com." is blocked and "example.com." is not |
| Hosts.HostsRules | dnsblocker.go:77-87 | the rules of the file contents as a function; its properties are Hosts.LineBecomesRule, UnterminatedLastLineDropped, RulesShape, HostsAppend and BlankLineBlocksEverything |
| Hosts.LoadBlocked | dnsblocker.go:76-87 | the read loop returns exactly the rule list HostsRules gives for the file contents |
| Hosts.LineBecomesRule | dnsblocker.go:85-86 | the first complete line gives the first rule, the line without its newline made fully qualified, followed by the rules of the rest |
| Hosts.UnterminatedLastLineDropped | dnsblocker.go:78-80 | text after the last newline yields no rule |
| Hosts.RulesShape | dnsblocker.go:77-87 | there is one rule per newline in the file, and every rule is fully qualified |
| Hosts.HostsAppend | dnsblocker.go:77-87 | whole lines parse independently: the rules of two concatenated files are the two rule lists concatenated |
| Hosts.BlankLineBlocksEverything | dnsblocker.go:85-86 | an empty line anywhere in the file yields the root rule, so every name is blocked |
| Messages.SetReply | dnsblocker.go:159 | the re-addressed message carries the request's id and opcode, the response bit and rcode NoError, copies the request's RD and CD bits when it is a query, echoes the request's first question (a question-less request keeps the message's own) and keeps the record sections |
| Messages.ErrorResponse | dnsblocker.go:197-202 | the synthetic response is addressed to the request, carries the given rcode and has no records |
| CacheKey.Row | dnsblocker.go:107-108 | the "name class type" row of one question, with the class and type printed through the mnemonic tables; its properties are KeyDistinguishesType, KeyDistinguishesClass and UnnamedTypesShareKey |
| Strings.Join | dnsblocker.go:112 | `strings.Join` with a one-character separator; Strings.SplitJoin and CacheKey.KeySplitsIntoRows state that splitting undoes it for a non-empty list of parts none of which holds the separator |
| CacheKey.Key | dnsblocker.go:104-113 | the key as a function of the question list; its properties are KeySplitsIntoRows, KeyDiffersAtRow, KeyDistinguishesType, KeyDistinguishesClass and UnnamedTypesShareKey |
| CacheKey.MessageCacheKey | dnsblocker.go:104-113 | the loop returns the rows of all questions in order, joined by ','; an empty question list gives "", a single question gives its row |
| CacheKey.KeySplitsIntoRows | dnsblocker.go:104-113 | for a non-empty question list where no row contains ',', splitting the key at ',' gives back exactly one row per question, in question order |
| CacheKey.KeyDiffersAtRow | dnsblocker.go:104-113 | question lists that differ in a single question whose row differs get different keys |
| CacheKey.KeyDistinguishesType | dnsblocker.go:107-108 | queries that differ only in the record type of one question, where the types print differently, get different keys |
| CacheKey.KeyDistinguishesClass | dnsblocker.go:107-108 | queries that differ only in the class of one question, where the classes print differently, get different keys |
| CacheKey.UnnamedTypesShareKey | dnsblocker.go:107-108 | two record types missing from the mnemonic table both print as "", so their queries share one key |
| ResponseCache.Lookup | dnsblocker.go:116 | freecache `Get` on the entries and the clock; its properties are HitWithinTtl, MissAfterTtl, StoreFrame and ExpiredStaysExpired |
| ResponseCache.Store | dnsblocker.go:147 | freecache `Set`; its errors are StoreErrors and its effect on lookups HitWithinTtl, MissAfterTtl and StoreFrame |
| ResponseCache.HitWithinTtl | dnsblocker.go:147 | after a successful Set, Get returns the stored bytes at every moment before the ttl runs out (always, if the ttl is not positive) |
| ResponseCache.MissAfterTtl | dnsblocker.go:116 | once a positive ttl has elapsed since the Set, Get reports not-found |
| ResponseCache.StoreFrame | dnsblocker.go:147 | a Set leaves the lookup of every other key unchanged |
| ResponseCache.StoreErrors | dnsblocker.go:147-150 | Set fails with the large-key error exactly for keys over 65535 characters, and with the large-entry error exactly when the key is not over-long and key plus value exceed the entry limit |
| ResponseCache.ExpiredStaysExpired | dnsblocker.go:116-120 | a key that is not found now is not found at any later time without a new Set |
| ResponseCache.Cache.constructor | dnsblocker.go:91-93 | a new cache is empty and has the given entry limit and clock |
| ResponseCache.Cache.Get | dnsblocker.go:116 | returns the stored bytes iff the key is present and its entry has not expired |
| ResponseCache.Cache.Set | dnsblocker.go:147 | on success the entry for the key is replaced by (value, now, ttl); on failure the error is returned and the entries are unchanged |
| Pipeline.FetchCache | dnsblocker.go:115-136 | `fetchCache` as a function; its outcomes are Pipeline.FetchOutcomes |
| Pipeline.WriteCache | dnsblocker.go:138-153 | `writeCache` as a function; its effect is in ForwardStoresAnswer and WriteFailureIsServerFailure |
| Pipeline.ExchangeWithCache | dnsblocker.go:155-178 | `dnsExchangeWithCache` as a function; its cases are the lemmas from HitIsReaddressedCachedAnswer to HitAfterForward |
| Pipeline.ProxyRequest | dnsblocker.go:180-195 | `proxyRequest` as a function: every error becomes ServerFailure (CacheFaultIsServerFailure, UpstreamFailureIsServerFailure, WriteFailureIsServerFailure) |
| Pipeline.Handle | dnsblocker.go:204-224 | `handler` as a function; its cases are the lemmas below and ResponseKinds |
| Pipeline.FetchOutcomes | dnsblocker.go:115-136 | fetchCache reports not-found iff there is no live entry, an unpack error iff the live entry does not unpack, and a message otherwise |
| Pipeline.FormatErrorForQuestionCount | dnsblocker.go:208-212 | a query whose question count is not one gets FormatError; there is no blocklist check, no cache access and no upstream exchange |
| Pipeline.RefusedWhenBlocked | dnsblocker.go:217-219 | a single-question query for a blocked name gets Refused; the only call is the blocklist check, and the cache is unchanged |
| Pipeline.HitIsReaddressedCachedAnswer | dnsblocker.go:158-160 | on a hit the response is the cached message passed through SetReply (request's id, rcode NoError); no upstream exchange, no cache write |
| Pipeline.CacheFaultIsServerFailure | dnsblocker.go:161-162 | a fetch error other than not-found gives ServerFailure without an upstream exchange, and the cache is unchanged |
| Pipeline.UpstreamFailureIsServerFailure | dnsblocker.go:165-169 | on a miss, a failed exchange gives ServerFailure; the calls end with the exchange, and nothing is written |
| Pipeline.ForwardStoresAnswer | dnsblocker.go:173-177 | on a miss with a successful exchange, the packed answer is stored under the query's key with the configured duration, stamped with the clock when the exchange returns, and the upstream answer is returned |
| Pipeline.WriteFailureIsServerFailure | dnsblocker.go:138-153 | when the upstream answer cannot be packed or stored, the response is ServerFailure and the cache is unchanged |
| Pipeline.CacheChangesOnlyOnForward | dnsblocker.go:155-178 | if a query changes the cache, it was a miss with a successful exchange, the client gets the upstream answer and the last call is the cache write |
| Pipeline.ClockMovesOnlyUpstream | dnsblocker.go:165 | the clock after a query has moved by the exchange's duration if upstream was contacted, and not at all otherwise |
| Pipeline.RetryAfterUpstreamFailure | dnsblocker.go:165-169 | after a failed exchange, any query with the same questions (whatever its id), now or later, misses again and makes a new upstream exchange |
| Pipeline.HitAfterForward | dnsblocker.go:155-178 | after a successful forward, any query with the same questions (whatever its id) within the duration, counted from the cache write, makes no upstream exchange and no cache write; it gets the stored message re-addressed to it, or ServerFailure if the stored bytes do not unpack |
| Pipeline.RepeatedQueryGetsSameAnswer | dnsblocker.go:158-160 | when the codec round-trips the answer, a later query with the same questions within the duration gets the upstream answer re-addressed to it |
| Pipeline.ResponseKinds | dnsblocker.go:204-224 | the response to any query is one of five kinds, each tied to its cause: FormatError for a wrong question count, Refused for a blocked name, the re-addressed cached message on a hit, the upstream answer on a miss with a reply, or ServerFailure for a proxied query whose cached entry does not unpack, whose exchange fails, or whose answer cannot be packed or stored |
| Proxy.DnsBlocker.constructor | dnsblocker.go:21-28 | the proxy holds the given blocklist, key tables, codec, duration and shared cache, and its call log starts empty |
| Proxy.DnsBlocker.FetchCache | dnsblocker.go:115-136 | returns what Pipeline.FetchCache gives for the current cache and clock, and logs one cache get |
| Proxy.DnsBlocker.WriteCache | dnsblocker.go:138-153 | leaves the cache, the error and the call log as Pipeline.WriteCache describes, with the entry stamped with the current clock; the clock is unchanged |
| Proxy.DnsBlocker.DnsExchangeWithCache | dnsblocker.go:155-178 | result, new cache contents, clock and logged calls are those of Pipeline.ExchangeWithCache on the old cache and clock; the clock advances while upstream is asked |
| Proxy.DnsBlocker.ProxyRequest | dnsblocker.go:180-195 | response, new cache contents, clock and logged calls are those of Pipeline.ProxyRequest on the old cache and clock; the clock advances while upstream is asked |
| Proxy.DnsBlocker.Handler | dnsblocker.go:204-224 | response, new cache contents, clock and logged calls are those of Pipeline.Handle on the old cache and clock; the clock advances while upstream is asked |

## Left out

- Flag parsing, logger setup, `init` and the log lines: configuration and
  observability. Configuration values are constructor parameters.
- The file handling of `loadBlocked` (open, buffered reads, panics on I/O
  errors). The model starts from the file contents as a string.
- `main`, the UDP server and `writer.WriteMsg`: network I/O. `Handler` returns
  the response that would be written.
- `dns.Exchange`: a network call, modelled as the `reply` oracle and its
  duration `elapsed`. Every other step is taken to be instantaneous.
- DNS wire encoding (`Pack`, `Unpack`): library code, modelled as two functions
  that may fail.
- The contents of the library's `ClassToString` and `TypeToString` tables:
  they are a parameter (`CacheKey.Mnemonics`).
- CacheKey.KeyDistinguishesType: holds only for types whose mnemonics differ,
  because a code missing from the table prints as "" (see
  `CacheKey.UnnamedTypesShareKey`). The same limit applies to
  `CacheKey.KeyDistinguishesClass`.
- Backslash escapes in names (`\.` inside a label, or an escaped final dot):
  `IsFqdn`, `Fqdn` and label splitting treat every '.' as a separator.
- freecache internals: the byte capacity and the segment layout are not
  modelled. The entry limit is a parameter rather than being derived from the
  cache size. Eviction is left out, so the model may keep entries longer than
  freecache would, but never past their ttl.
- freecache locking and concurrent handlers: each query is handled as one
  sequential step against the shared cache.
- freecache removes an expired entry when `Get` finds it. The model leaves it
  in the map. This cannot be observed, because `Lookup` never returns an
  expired entry.
- freecache's clock is a 32-bit count of seconds. Its wrap-around is not
  modelled, and key length is counted in characters, not UTF-8 bytes.
- The "other cache error" branch of `fetchCache` (dnsblocker.go:121-124): this
  `Get` reports no error except not-found, so the model has no such error. The
  only non-not-found fetch error is the unpack failure, which takes the same
  path.
