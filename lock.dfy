/** MemcachedLock: a lease lock over memcached. Holding the lock for a key
    is nothing but the presence of that key on the servers: a successful
    atomic add creates it, a release or the lease's expiry deletes it. */
module Lock {
  import opened Outcomes
  import opened JavaInts
  import opened Connections
  import opened Memcached

  /** The sentinel payload a lock entry carries. */
  const LOCK_PAYLOAD: string := "lock"

  /** `ttl / 1000` on a Java int: the lease in whole seconds, truncated
      toward zero. */
  function LeaseSeconds(ttl: Int32): (secs: Int32)
    ensures 0 <= ttl ==> 0 <= secs && secs * 1000 <= ttl < secs * 1000 + 1000
    ensures ttl < 0 ==> secs <= 0 && secs * 1000 - 1000 < ttl <= secs * 1000
  {
    WholeSeconds(ttl)
  }

  /** One acquire attempt on the servers' keys: the new keys and whether
      the lock was taken. */
  function Acquire(m: Entries, key: string, ttl: Int32): (r: (Entries, bool))
    ensures key !in m ==> r == (m[key := Entry(LOCK_PAYLOAD, LeaseSeconds(ttl))], true)
    ensures key in m ==> r == (m, false)
  {
    var (next, reply) := AddIfAbsent(m, key, Entry(LOCK_PAYLOAD, LeaseSeconds(ttl)));
    (next, reply == Stored)
  }

  /** What can happen to the servers' lock keys: an acquire attempt by any
      process, a release by any process, or the expiry of a lease. */
  datatype LockEvent = TryAcquire(key: string, ttl: Int32) | Release(key: string) | Expiry(key: string)

  /** The keys after an event, and whether it was a successful acquire. */
  function Step(m: Entries, ev: LockEvent): (Entries, bool) {
    match ev
    case TryAcquire(k, ttl) => Acquire(m, k, ttl)
    case Release(k) => (m - {k}, false)
    case Expiry(k) => (m - {k}, false)
  }

  /** The keys after a sequence of events. */
  function Run(m: Entries, evs: seq<LockEvent>): Entries
    decreases |evs|
  {
    if evs == [] then m else Run(Step(m, evs[0]).0, evs[1..])
  }

  /** The number of successful acquires of `key` in a sequence of events. */
  function Wins(m: Entries, evs: seq<LockEvent>, key: string): nat
    decreases |evs|
  {
    if evs == [] then 0
    else
      var (next, won) := Step(m, evs[0]);
      (if won && evs[0].key == key then 1 else 0) + Wins(next, evs[1..], key)
  }

  /** The events that make a held key absent again. */
  predicate Frees(ev: LockEvent, key: string) {
    (ev.Release? || ev.Expiry?) && ev.key == key
  }

  /** Mutual exclusion: between two events that free a key, at most one
      acquire of it succeeds, and none does while it is already held. The
      key stays held once taken. */
  lemma {:induction false} AtMostOneWinner(m: Entries, evs: seq<LockEvent>, key: string)
    requires forall i :: 0 <= i < |evs| ==> !Frees(evs[i], key)
    ensures Wins(m, evs, key) <= (if key in m then 0 else 1)
    ensures key in m || Wins(m, evs, key) > 0 ==> key in Run(m, evs)
    decreases |evs|
  {
    if evs != [] {
      var (next, won) := Step(m, evs[0]);
      assert !Frees(evs[0], key);
      assert key in m ==> key in next && !(won && evs[0].key == key);
      assert won && evs[0].key == key ==> key in next;
      assert key !in m && !(won && evs[0].key == key) ==> key !in next;
      forall i | 0 <= i < |evs[1..]|
        ensures !Frees(evs[1..][i], key)
      {
        assert evs[1..][i] == evs[i + 1];
      }
      AtMostOneWinner(next, evs[1..], key);
    }
  }

  /** Two acquires of the same key with nothing freeing it in between
      cannot both succeed; the loser leaves the winner's entry as it was. */
  lemma SecondAcquireFails(m: Entries, key: string, ttl1: Int32, ttl2: Int32)
    ensures var (m1, won1) := Acquire(m, key, ttl1);
            var (m2, won2) := Acquire(m1, key, ttl2);
            !won2 && m2 == m1
  {
  }

  /** A release always clears the way for the next acquire. */
  lemma ReleaseThenAcquireWins(m: Entries, key: string, ttl: Int32)
    ensures var (m1, won) := Acquire(Step(m, Release(key)).0, key, ttl);
            won && m1[key] == Entry(LOCK_PAYLOAD, LeaseSeconds(ttl))
  {
  }

  class MemcachedLock {
    /** The servers the resolved connections reach. */
    const cluster: KeySpace
    /** `_client`: null while closed. */
    var client: Client?

    ghost predicate Valid()
      reads this
    {
      client != null ==> client.store == cluster
    }

    constructor (cluster: KeySpace)
      ensures Valid() && this.cluster == cluster && client == null
    {
      this.cluster := cluster;
      client := null;
    }

    /** `isOpen()`: open exactly while a client is bound. */
    predicate IsOpen(): (open: bool)
      reads this
      ensures open <==> client != null
    {
      client != null
    }

    /** Same lifecycle as the cache: NO_CONNECTION on an empty list, else a
        fresh client with one server per connection (default port 11211);
        an IOException while registering leaves the new client bound. */
    method Open(connections: seq<Connection>, io: IoFault) returns (r: Result<()>)
      requires Valid()
      modifies this
      ensures Valid()
      ensures |connections| == 0 ==> r == Failure(ConfigError(NO_CONNECTION)) && client == old(client)
      ensures |connections| > 0 && io.CreateFails? ==> r == Failure(IoError) && client == old(client)
      ensures |connections| > 0 && !io.CreateFails? ==>
                client != null && fresh(client) &&
                client.servers == ServerList(connections[..ServersAdded(io, |connections|)])
      ensures r.Success? <==> |connections| > 0 && !io.CreateFails? && ServersAdded(io, |connections|) == |connections|
      ensures r.Success? ==> IsOpen() && client.servers == ServerList(connections)
      ensures r.Failure? ==> r.error == (if |connections| == 0 then ConfigError(NO_CONNECTION) else IoError)
    {
      if |connections| == 0 {
        return Failure(ConfigError(NO_CONNECTION));
      }
      if io.CreateFails? {
        return Failure(IoError);
      }
      client := new Client(cluster);
      r := AddServers(client, connections, io);
      assert connections[..|connections|] == connections;
    }

    /** Shuts the client down and unbinds it; on a closed lock the call
        dereferences the null client, and a failing shutdown leaves it
        bound. */
    method Close(shutdownFails: bool) returns (r: Result<()>)
      requires Valid()
      modifies this
      ensures Valid()
      ensures old(client) == null ==> r == Failure(NullPointer) && client == null
      ensures old(client) != null && shutdownFails ==> r == Failure(IoError) && client == old(client)
      ensures old(client) != null && !shutdownFails ==> r == Success(()) && !IsOpen()
    {
      if client == null {
        return Failure(NullPointer);
      }
      if shutdownFails {
        return Failure(IoError);
      }
      client := null;
      r := Success(());
    }

    function CheckOpened(): (r: Result<()>)
      reads this
      ensures r.Success? <==> IsOpen()
      ensures r.Failure? ==> r.error == InvalidStateError(NOT_OPENED)
    {
      if client == null then Failure(InvalidStateError(NOT_OPENED)) else Success(())
    }

    /** One atomic add-if-absent of the sentinel with the lease in whole
        seconds. An absent key is taken (true); a held key answers "not
        stored", which is false and not an error, and its entry, lease
        included, stays as it was. Every other failure propagates. */
    method TryAcquireLock(key: string, ttl: Int32, link: Link) returns (r: Result<bool>)
      requires Valid()
      modifies cluster
      ensures !IsOpen() ==> r == Failure(InvalidStateError(NOT_OPENED))
      ensures IsOpen() && link.Down? ==> r == Failure(StoreFailure(link.fault))
      ensures r.Failure? ==> cluster.entries == old(cluster.entries)
      ensures r.Success? <==> IsOpen() && link.Up?
      ensures r.Success? ==> (cluster.entries, r.value) == Acquire(old(cluster.entries), key, ttl)
      ensures r.Success? && key !in old(cluster.entries) ==>
                r.value && cluster.entries == old(cluster.entries)[key := Entry(LOCK_PAYLOAD, LeaseSeconds(ttl))]
      ensures r.Success? && key in old(cluster.entries) ==>
                !r.value && cluster.entries == old(cluster.entries)
    {
      var guard := CheckOpened();
      if guard.Failure? {
        return Failure(guard.error);
      }
      var lifetime := LeaseSeconds(ttl);
      var added := client.Add(key, lifetime, LOCK_PAYLOAD, link);
      match added
      case Failure(e) => r := Failure(e);
      case Success(reply) => r := Success(reply == Stored);
    }

    /** Deletes `key` whoever holds it; releasing a free key is not an
        error. */
    method ReleaseLock(key: string, link: Link) returns (r: Result<()>)
      requires Valid()
      modifies cluster
      ensures !IsOpen() ==> r == Failure(InvalidStateError(NOT_OPENED))
      ensures IsOpen() && link.Down? ==> r == Failure(StoreFailure(link.fault))
      ensures r.Failure? ==> cluster.entries == old(cluster.entries)
      ensures r.Success? <==> IsOpen() && link.Up?
      ensures r.Success? ==> cluster.entries == old(cluster.entries) - {key} == Step(old(cluster.entries), Release(key)).0
    {
      var guard := CheckOpened();
      if guard.Failure? {
        return Failure(guard.error);
      }
      var deleted := client.Delete(key, link);
      if deleted.Failure? {
        return Failure(deleted.error);
      }
      r := Success(());
    }
  }

  /** Two lock components on the same servers, two processes in effect,
      race for one key: at most one of them wins. */
  method Contend(a: MemcachedLock, b: MemcachedLock, key: string, ttlA: Int32, ttlB: Int32)
    returns (wonA: Result<bool>, wonB: Result<bool>)
    requires a.Valid() && b.Valid() && a.cluster == b.cluster
    modifies a.cluster
    ensures !(wonA == Success(true) && wonB == Success(true))
  {
    wonA := a.TryAcquireLock(key, ttlA, Up);
    wonB := b.TryAcquireLock(key, ttlB, Up);
  }

  /** Acquire, release, acquire again: the second acquire succeeds, even
      after a failed first one, since release checks no ownership. */
  method AcquireReleaseAcquire(l: MemcachedLock, key: string, ttl1: Int32, ttl2: Int32)
    returns (first: Result<bool>, second: Result<bool>)
    requires l.Valid() && l.IsOpen()
    modifies l.cluster
    ensures first.Success? && second == Success(true)
    ensures key in l.cluster.entries && l.cluster.entries[key] == Entry(LOCK_PAYLOAD, LeaseSeconds(ttl2))
  {
    first := l.TryAcquireLock(key, ttl1, Up);
    var released := l.ReleaseLock(key, Up);
    second := l.TryAcquireLock(key, ttl2, Up);
  }
}
