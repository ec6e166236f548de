/**
 * The best-effort cache facade over a Redis-like backend
 * (`todos-api/cacheService.js`).
 *
 * The backend is a map from key to entry (serialized text and TTL).  Whether
 * the backend reports an error on a call is an input (`fault`), since it is
 * decided outside the service.  None of `Get`, `Set` and `Del` ever fails:
 * an error on `Get` is a miss, an error on `Set` or `Del` leaves the backend
 * as it was and the call still completes.
 */
module Cache {
  import opened Wrappers
  import opened Json

  /** TTL in seconds used by `Set` when the caller passes none. */
  const DefaultTtl: int := 300

  const KeyPrefix: string := "todos:user:"

  datatype Entry<V> = Entry(text: Text<V>, ttl: int)

  type Backend<V> = map<string, Entry<V>>

  /** The cache key of a user's todo list. */
  function UserTodosKey(username: string): (key: string)
    ensures |key| == |KeyPrefix| + |username|
    ensures key[..|KeyPrefix|] == KeyPrefix && key[|KeyPrefix|..] == username
  {
    KeyPrefix + username
  }

  /** Distinct users never share a cache key. */
  lemma UserTodosKeyInjective(a: string, b: string)
    ensures UserTodosKey(a) == UserTodosKey(b) <==> a == b
  {
  }

  /**
   * What a GET answered by the backend resolves to: the parsed value, or a
   * miss when the key is absent, the stored string is empty, or it does not
   * parse.
   */
  function Read<V>(backend: Backend<V>, key: string): (r: Option<V>)
    ensures r.Some? <==> key in backend && backend[key].text.Encoded?
    ensures r.Some? ==> backend[key].text == Serialize(r.value)
  {
    if key in backend && !backend[key].text.Empty? then Parse(backend[key].text) else None
  }

  /**
   * The backend after `SETEX key ttl value`.  The entry is replaced whole;
   * Redis refuses a TTL that is not positive, and that refusal, like any
   * other backend error, leaves the backend unchanged.
   */
  function Stored<V>(backend: Backend<V>, key: string, value: V, ttl: int, fault: bool): (b: Backend<V>)
    ensures fault || ttl <= 0 ==> b == backend
    ensures !fault && ttl > 0 ==> b.Keys == backend.Keys + {key} && b[key] == Entry(Serialize(value), ttl)
    ensures forall k :: k in backend && k != key ==> k in b && b[k] == backend[k]
  {
    if fault || ttl <= 0 then backend else backend[key := Entry(Serialize(value), ttl)]
  }

  /** The backend after `DEL key`; a backend error leaves it unchanged. */
  function Dropped<V>(backend: Backend<V>, key: string, fault: bool): (b: Backend<V>)
    ensures fault ==> b == backend
    ensures !fault ==> b.Keys == backend.Keys - {key}
    ensures forall k :: k in b ==> k in backend && b[k] == backend[k]
  {
    if fault then backend else backend - {key}
  }

  /** Round trip: a successful SET is read back as the value it stored. */
  lemma ReadAfterStore<V>(backend: Backend<V>, key: string, value: V, ttl: int)
    requires ttl > 0
    ensures Read(Stored(backend, key, value, ttl, false), key) == Some(value)
  {
  }

  /** A successful DEL makes the next GET of that key a miss. */
  lemma ReadAfterDrop<V>(backend: Backend<V>, key: string)
    ensures Read(Dropped(backend, key, false), key) == None
  {
  }

  /** SET and DEL of one key leave every read of another key as it was. */
  lemma ReadOtherKey<V>(backend: Backend<V>, key: string, other: string, value: V, ttl: int, fault: bool)
    requires other != key
    ensures Read(Stored(backend, key, value, ttl, fault), other) == Read(backend, other)
    ensures Read(Dropped(backend, key, fault), other) == Read(backend, other)
  {
  }

  class CacheService<V> {
    var backend: Backend<V>
    const defaultTtl: int

    /** A facade over a backend holding `backend`. */
    constructor (backend: Backend<V>)
      ensures this.backend == backend && defaultTtl == DefaultTtl
    {
      this.backend := backend;
      defaultTtl := DefaultTtl;
    }

    /** Never rejects: a backend error or an unreadable entry is a miss. */
    method Get(key: string, fault: bool) returns (r: Option<V>)
      ensures fault ==> r == None
      ensures !fault ==> r == Read(backend, key)
    {
      if fault {
        r := None;
      } else if key in backend && !backend[key].text.Empty? {
        r := Parse(backend[key].text);
      } else {
        r := None;
      }
    }

    /** Never rejects; `ttl` defaults to `defaultTtl`. */
    method Set(key: string, value: V, ttl: Option<int>, fault: bool)
      modifies this
      ensures backend == Stored(old(backend), key, value, ttl.GetOr(defaultTtl), fault)
    {
      var seconds := ttl.GetOr(defaultTtl);
      var text := Serialize(value);
      if !fault && seconds > 0 {
        backend := backend[key := Entry(text, seconds)];
      }
    }

    /** Never rejects. */
    method Del(key: string, fault: bool)
      modifies this
      ensures backend == Dropped(old(backend), key, fault)
    {
      if !fault {
        backend := backend - {key};
      }
    }
  }
}
