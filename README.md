# Memcached cache and lock, modelled in Dafny

This project models the two memcached-backed components of
pip-services3-memcached-java:

- `MemcachedCache`, a TTL value cache with an open/closed lifecycle.
  `store` converts the timeout from milliseconds to whole seconds. It
  encodes the value by its type (string or null, then date-time, then JSON)
  and writes it with memcached `set`. `retrieve` and `remove` read or delete
  one key.
- `MemcachedLock`, a lease lock with the same lifecycle. `tryAcquireLock`
  is one atomic memcached `add` of the sentinel `"lock"`. A "not stored"
  answer means the key is held, and the call returns false.
  `releaseLock` deletes the key.

The network client is replaced by a model of what the components use from
it. The servers' key space is an object `Memcached.KeySpace` holding a map from
key to `Entry(payload, exptime)`. A `Memcached.Client` holds the server list
and answers get/set/add/delete on that map with memcached's semantics. The
store outlives every client, and several components may share it. Network
faults are a `Link` parameter of each call (`Up`, or `Down(fault)` for a
timeout, an interruption or a server error). IOExceptions during `open` are
an `IoFault` parameter, and a failing shutdown is a boolean. Expiry is an
explicit step, `KeySpace.Expire`. In the lock's trace model it is the
`Expiry(key)` event.

The lock's central property is mutual exclusion. `Lock.AtMostOneWinner`
takes any sequence of acquire, release and expiry events, from any number of
processes. It proves that, as long as nothing frees a key, at most one
acquire of it succeeds. None succeeds while the key is already held.
`MemcachedLock.TryAcquireLock` is tied to that trace model by its `ensures`.

Modules: `Outcomes` (results and errors), `JavaInts` (Java integer
arithmetic), `Connections` (server list), `Memcached` (client and store),
`ValueCodec` (encoding), `Cache`, `Lock`.

## Behaviour worth noting

The model keeps the following behaviour of the code, each stated in the
contracts:

- `close` calls `shutdown` on the client without checking for null. On a
  closed component it therefore fails with `NullPointer` instead of being a
  no-op (MemcachedCache.java:116-119, MemcachedLock.java:112-115).
- `open` binds `_client` before the `addServer` loop. An IOException from
  `addServer` leaves the new, partly configured client bound, so `isOpen()`
  is true after the failed `open` (MemcachedCache.java:96-107).
- `store` is documented to return "the stored value"
  (MemcachedCache.java:163), but it returns the boolean answer of the
  client's `set` (MemcachedCache.java:182).
- `store` narrows `timeout / 1000` to a Java `int` (MemcachedCache.java:169).
  A timeout of 2^31 seconds or more wraps around, and
  `ExpiryWrapsForHugeTimeouts` shows one such input.
- The lock reports contention on two paths: `add` answering false, which is
  returned directly (MemcachedLock.java:149), and an exception whose message
  contains "not stored", which is mapped to false (MemcachedLock.java:151-152).
  The model's typed reply `AddReply.NotStored` covers both paths.

## Model

| member | source | states |
|---|---|---|
| `JavaInts.WholeSeconds` | src/org/pipservices3/memcached/cache/MemcachedCache.java:169 | Java's `/ 1000`: the result times 1000 lies within one second of the input, toward zero, on both sides of zero |
| `JavaInts.NarrowToInt` | src/org/pipservices3/memcached/cache/MemcachedCache.java:169 | the `(int)` cast: a 32-bit value congruent to the input modulo 2^32, equal to it when it fits |
| `Cache.ExpirySeconds` | src/org/pipservices3/memcached/cache/MemcachedCache.java:169 | a timeout in ms becomes whole seconds with the sub-second remainder dropped, for every timeout below 2^31 s in magnitude; otherwise it is the quotient modulo 2^32 |
| `Cache.ExpiryWrapsForHugeTimeouts` | src/org/pipservices3/memcached/cache/MemcachedCache.java:169 | a timeout of exactly 2^31 s is narrowed to the most negative int |
| `Connections.PortOf` | src/org/pipservices3/memcached/cache/MemcachedCache.java:101 | `getAsIntegerWithDefault("port", 11211)`: the connection's port when it gives one, else 11211 |
| `Connections.ServerList` | src/org/pipservices3/memcached/cache/MemcachedCache.java:99-104 | one server per resolved connection |
| `Connections.ServerListAt` | src/org/pipservices3/memcached/cache/MemcachedCache.java:99-104 | the i-th server has the i-th connection's host and its port, or 11211 when no port is given |
| `Connections.ServerListAppend` | src/org/pipservices3/memcached/lock/MemcachedLock.java:95-100 | each loop iteration appends exactly the next connection's server, in order |
| `Memcached.ServersAdded` | src/org/pipservices3/memcached/cache/MemcachedCache.java:99-107 | the loop registers every connection unless an `addServer` inside the list throws, and then stops exactly at that connection's index |
| `Memcached.AddServers` | src/org/pipservices3/memcached/cache/MemcachedCache.java:96-107 | the `addServer` loop: the client's servers become the old ones plus the server list of the connections reached; success exactly when no IOException occurs |
| `Memcached.KeySpace.Expire` | src/org/pipservices3/memcached/cache/MemcachedCache.java:137-144 | the servers expire a key: only that key disappears |
| `Memcached.Client.constructor` | src/org/pipservices3/memcached/cache/MemcachedCache.java:97 | a new client has no servers and reaches the given key space |
| `Memcached.Client.AddServer` | src/org/pipservices3/memcached/cache/MemcachedCache.java:103 | registers (host, port) at the end of the server list, or throws IOException and registers nothing |
| `Memcached.Client.Get` | src/org/pipservices3/memcached/cache/MemcachedCache.java:150 | the payload stored under the key, None for a missing key, a store failure when the call fails |
| `Memcached.Client.Set` | src/org/pipservices3/memcached/cache/MemcachedCache.java:182 | overwrites only the key with (payload, exptime) and answers true; a failed call changes nothing |
| `Memcached.Client.Add` | src/org/pipservices3/memcached/lock/MemcachedLock.java:149-152 | atomic add-if-absent: stores on an absent key, answers NotStored and changes nothing on a present one |
| `Memcached.Client.Delete` | src/org/pipservices3/memcached/cache/MemcachedCache.java:199 | removes only the key and answers whether it was present; a failed call changes nothing |
| `ValueCodec.ToUtc` | src/org/pipservices3/memcached/cache/MemcachedCache.java:177 | `withZoneSameInstant(UTC)`: the same instant, offset zero, zone UTC |
| `ValueCodec.Encode` | src/org/pipservices3/memcached/cache/MemcachedCache.java:172-183 | the only way encoding fails is a SerializationError |
| `ValueCodec.EncodeFailsOnlyForUnserializable` | src/org/pipservices3/memcached/cache/MemcachedCache.java:174-183 | encoding fails exactly for an object the JSON serialiser rejects; strings, null and date-times always encode |
| `ValueCodec.EncodeConsultsOnlyTheMatchingRule` | src/org/pipservices3/memcached/cache/MemcachedCache.java:174-180 | first match wins: a string is stored verbatim and null as "null", whatever the encoders do; a date-time never reaches the JSON serialiser |
| `ValueCodec.EncodeZoneIndependent` | src/org/pipservices3/memcached/cache/MemcachedCache.java:176-178 | two date-times denoting the same instant in different zones are stored identically |
| `ValueCodec.NullAndNullTextCollide` | src/org/pipservices3/memcached/cache/MemcachedCache.java:174-175 | null and the string "null" are stored identically, so retrieve cannot tell them apart |
| `Cache.MemcachedCache.constructor` | src/org/pipservices3/memcached/cache/MemcachedCache.java:40 | a new cache is closed |
| `Cache.MemcachedCache.IsOpen` | src/org/pipservices3/memcached/cache/MemcachedCache.java:81-83 | open exactly while a client is bound |
| `Cache.MemcachedCache.Open` | src/org/pipservices3/memcached/cache/MemcachedCache.java:85-108 | no connections: NO_CONNECTION with the client untouched; otherwise a fresh client with one server per connection in order (default port 11211); success iff no IOException, and any failure on a non-empty list is IoError; a failing addServer leaves the client bound |
| `Cache.MemcachedCache.Close` | src/org/pipservices3/memcached/cache/MemcachedCache.java:115-123 | unbinds the client so the cache is closed; on a closed cache it fails on the null client; a failing shutdown keeps the client |
| `Cache.MemcachedCache.CheckOpened` | src/org/pipservices3/memcached/cache/MemcachedCache.java:125-135 | passes exactly when open, else fails with InvalidState NOT_OPENED |
| `Cache.MemcachedCache.Retrieve` | src/org/pipservices3/memcached/cache/MemcachedCache.java:145-154 | NOT_OPENED when closed; otherwise the stored payload, or None for a missing or expired key |
| `Cache.MemcachedCache.Store` | src/org/pipservices3/memcached/cache/MemcachedCache.java:165-186 | NOT_OPENED when closed, SerializationError for an unserialisable value, a store failure on a failed call, each with the keys unchanged; otherwise the key maps to (encoded value, whole seconds of the timeout), every other key is unchanged, and it returns set's true |
| `Cache.MemcachedCache.Remove` | src/org/pipservices3/memcached/cache/MemcachedCache.java:194-203 | NOT_OPENED when closed with keys unchanged; otherwise only the key is deleted, a no-op when absent |
| `Cache.StoreThenRetrieve` | src/org/pipservices3/memcached/cache/MemcachedCache.java:145-186 | a retrieve right after a store returns the encoded payload |
| `Cache.RemoveThenRetrieve` | src/org/pipservices3/memcached/cache/MemcachedCache.java:145-203 | a retrieve right after a remove finds nothing, whether or not the key was present |
| `Cache.ClosedCacheRejects` | src/org/pipservices3/memcached/cache/MemcachedCache.java:115-203 | after close, retrieve, store and remove all fail with NOT_OPENED and the keys are untouched |
| `Lock.LeaseSeconds` | src/org/pipservices3/memcached/lock/MemcachedLock.java:146 | the ttl in ms as whole seconds, truncated toward zero on both sides of zero |
| `Lock.Acquire` | src/org/pipservices3/memcached/lock/MemcachedLock.java:146-149 | one add-if-absent of ("lock", ttl/1000): on an absent key it stores that entry and answers true; on a present key it changes nothing and answers false |
| `Lock.AtMostOneWinner` | src/org/pipservices3/memcached/lock/MemcachedLock.java:149 | over any sequence of lock events that never frees the key, at most one acquire of it succeeds, none if it was already held, and once taken it stays held |
| `Lock.SecondAcquireFails` | src/org/pipservices3/memcached/lock/MemcachedLock.java:146-152 | of two successive acquires of one key, the second fails and leaves the first's entry, lease included, unchanged |
| `Lock.ReleaseThenAcquireWins` | src/org/pipservices3/memcached/lock/MemcachedLock.java:163-172 | after a release, an acquire of the key succeeds and writes the sentinel with the new lease |
| `Lock.MemcachedLock.constructor` | src/org/pipservices3/memcached/lock/MemcachedLock.java:34 | a new lock is closed |
| `Lock.MemcachedLock.IsOpen` | src/org/pipservices3/memcached/lock/MemcachedLock.java:71-74 | open exactly while a client is bound |
| `Lock.MemcachedLock.Open` | src/org/pipservices3/memcached/lock/MemcachedLock.java:81-104 | as for the cache: NO_CONNECTION on an empty list, otherwise a fresh client with one server per connection (default port 11211); any failure on a non-empty list is IoError, and a failing addServer leaves the client bound |
| `Lock.MemcachedLock.Close` | src/org/pipservices3/memcached/lock/MemcachedLock.java:111-119 | unbinds the client so the lock is closed; fails on the null client when already closed |
| `Lock.MemcachedLock.CheckOpened` | src/org/pipservices3/memcached/lock/MemcachedLock.java:121-131 | passes exactly when open, else fails with InvalidState NOT_OPENED |
| `Lock.MemcachedLock.TryAcquireLock` | src/org/pipservices3/memcached/lock/MemcachedLock.java:142-155 | NOT_OPENED when closed, a store failure otherwise propagated, each with keys unchanged; an absent key becomes ("lock", ttl/1000) and true is returned; a held key returns false with every entry unchanged; agrees with the trace model's acquire step |
| `Lock.MemcachedLock.ReleaseLock` | src/org/pipservices3/memcached/lock/MemcachedLock.java:163-172 | NOT_OPENED when closed; otherwise deletes the key with no ownership check, a no-op when absent |
| `Lock.Contend` | src/org/pipservices3/memcached/lock/MemcachedLock.java:142-155 | two lock components on the same servers racing for one key cannot both win |
| `Lock.AcquireReleaseAcquire` | src/org/pipservices3/memcached/lock/MemcachedLock.java:142-172 | acquire, release, acquire: the second acquire succeeds and holds the key with its own lease |

## Left out

- `configure`, `setReferences` and the `ConnectionResolver`: configuration and discovery. The resolved connections are an input sequence of (host, optional port). A port that is absent or not an integer is `None`.
- `DefaultMemcachedFactory`: component registration with no behaviour to state.
- The inherited `Lock` base class is not part of this model. This covers its retrying `acquireLock` loop, which sleeps between attempts and is bounded by wall-clock time.
- The correlation id is dropped, since it only feeds diagnostics.
- Time: memcached's interpretation of the expiration time (0 never expires, large values are absolute dates) is not modelled. The model records the exptime each entry was written with. Expiry is the nondeterministic `KeySpace.Expire` step, or the `Expiry` lock event.
- The JSON serialiser and the ISO_OFFSET_DATE_TIME formatter are parameters. That their output is valid JSON, or parses back to the same instant, cannot be stated from this code.
- A failed network call is modelled as writing nothing. A real timeout may or may not have reached the servers.
- Key distribution across several servers: all servers form one key space.
- Concurrency: interleaving appears only as sequences of lock events and sequential calls on shared `KeySpace` objects.
- Resource release: `open` on an open component drops the old client without shutting it down, and the model does not track the leaked connection.
- The client's transcoder: payloads are strings, and `retrieve` returns them as stored.
- The exception-message match can itself throw when the message is null. This is not modelled.
- The RuntimeException wrapping: the model keeps the cause as the error kind.
