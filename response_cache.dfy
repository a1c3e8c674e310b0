/**
 * The response cache (freecache): byte values stored under string keys, each
 * stamped with the clock reading at insertion and a lifetime in seconds.
 * Capacity-driven eviction is not modelled, so an entry stays until it is
 * replaced or expires.
 */
module ResponseCache {
  import opened Wrappers
  import opened Messages

  /** Keys longer than this are refused. */
  const MaxKeyLength: nat := 65535

  datatype Entry = Entry(data: Bytes, stamp: int, ttl: int)

  /**
   * An entry is served while the clock is before `stamp + ttl`; a ttl that is
   * not positive means the entry never expires.
   */
  predicate Live(e: Entry, now: int) {
    e.ttl <= 0 || now < e.stamp + e.ttl
  }

  /** `Get`: the stored bytes, or not-found when absent or expired. */
  function Lookup(entries: map<string, Entry>, key: string, now: int): Option<Bytes> {
    if key in entries && Live(entries[key], now) then Some(entries[key].data) else None
  }

  datatype CacheError = ErrLargeKey | ErrLargeEntry

  /**
   * `Set`: refuse an over-long key or an entry whose key and value together
   * exceed `maxKeyValue`; otherwise insert or replace the entry for `key`.
   */
  function Store(entries: map<string, Entry>, key: string, data: Bytes, ttl: int, now: int, maxKeyValue: nat)
    : Result<map<string, Entry>, CacheError>
  {
    if |key| > MaxKeyLength then Failure(ErrLargeKey)
    else if |key| + |data| > maxKeyValue then Failure(ErrLargeEntry)
    else Success(entries[key := Entry(data, now, ttl)])
  }

  /** `Set` followed by `Get` of the same key within the ttl returns the value just stored. */
  lemma HitWithinTtl(entries: map<string, Entry>, key: string, data: Bytes, ttl: int, now: int, maxKeyValue: nat, later: int)
    requires Store(entries, key, data, ttl, now, maxKeyValue).Success?
    requires now <= later && (ttl <= 0 || later < now + ttl)
    ensures Lookup(Store(entries, key, data, ttl, now, maxKeyValue).value, key, later) == Some(data)
  {
  }

  /** Once `ttl` seconds have passed since the `Set`, `Get` reports not-found. */
  lemma MissAfterTtl(entries: map<string, Entry>, key: string, data: Bytes, ttl: int, now: int, maxKeyValue: nat, later: int)
    requires Store(entries, key, data, ttl, now, maxKeyValue).Success?
    requires ttl > 0 && later >= now + ttl
    ensures Lookup(Store(entries, key, data, ttl, now, maxKeyValue).value, key, later) == None
  {
  }

  /** A `Set` leaves the lookup of every other key as it was. */
  lemma StoreFrame(entries: map<string, Entry>, key: string, data: Bytes, ttl: int, now: int, maxKeyValue: nat, other: string, at: int)
    requires Store(entries, key, data, ttl, now, maxKeyValue).Success?
    requires other != key
    ensures Lookup(Store(entries, key, data, ttl, now, maxKeyValue).value, other, at) == Lookup(entries, other, at)
  {
  }

  /** `Set` fails exactly on an over-long key or an over-large entry. */
  lemma StoreErrors(entries: map<string, Entry>, key: string, data: Bytes, ttl: int, now: int, maxKeyValue: nat)
    ensures Store(entries, key, data, ttl, now, maxKeyValue) == Failure(ErrLargeKey) <==> |key| > MaxKeyLength
    ensures Store(entries, key, data, ttl, now, maxKeyValue) == Failure(ErrLargeEntry)
      <==> |key| <= MaxKeyLength && |key| + |data| > maxKeyValue
  {
  }

  /** Expiry is final: an entry that is not served now is not served later either. */
  lemma ExpiredStaysExpired(entries: map<string, Entry>, key: string, now: int, later: int)
    requires Lookup(entries, key, now) == None
    requires now <= later
    ensures Lookup(entries, key, later) == None
  {
  }

  /** The cache object: its entries and the clock it reads, in whole seconds. */
  class Cache {
    var entries: map<string, Entry>
    var now: int
    const maxKeyValue: nat

    constructor (maxKeyValue: nat, now: int)
      ensures entries == map[] && this.now == now && this.maxKeyValue == maxKeyValue
    {
      this.entries := map[];
      this.now := now;
      this.maxKeyValue := maxKeyValue;
    }

    method Get(key: string) returns (value: Option<Bytes>)
      ensures value == Lookup(entries, key, now)
      ensures value.Some? ==> key in entries && value.value == entries[key].data
    {
      if key in entries && Live(entries[key], now) {
        value := Some(entries[key].data);
      } else {
        value := None;
      }
    }

    method Set(key: string, value: Bytes, expireSeconds: int) returns (err: Option<CacheError>)
      modifies this`entries
      ensures match Store(old(entries), key, value, expireSeconds, now, maxKeyValue)
        case Success(m) => err == None && entries == m
        case Failure(e) => err == Some(e) && entries == old(entries)
    {
      if |key| > MaxKeyLength {
        err := Some(ErrLargeKey);
      } else if |key| + |value| > maxKeyValue {
        err := Some(ErrLargeEntry);
      } else {
        entries := entries[key := Entry(value, now, expireSeconds)];
        err := None;
      }
    }

    /** The passage of time: the clock only moves forward. */
    method Advance(seconds: nat)
      modifies this`now
      ensures now == old(now) + seconds
    {
      now := now + seconds;
    }
  }
}
