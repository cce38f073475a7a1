/** MemcachedCache: a value cache over memcached with an open/closed
    lifecycle. Open means a client is bound. */
module Cache {
  import opened Outcomes
  import opened JavaInts
  import opened Connections
  import opened Memcached
  import opened ValueCodec

  /** `(int) (timeout / 1000)`: a timeout in milliseconds (a Java long) as
      whole seconds, truncated toward zero and then narrowed to a Java int. */
  function ExpirySeconds(timeout: Int64): (secs: Int32)
    ensures 0 <= timeout < 1000 * 0x8000_0000 ==> 0 <= secs && secs * 1000 <= timeout < secs * 1000 + 1000
    ensures -1000 * 0x8000_0000 < timeout < 0 ==> secs <= 0 && secs * 1000 - 1000 < timeout <= secs * 1000
    ensures (WholeSeconds(timeout) - secs) % 0x1_0000_0000 == 0
  {
    NarrowToInt(WholeSeconds(timeout))
  }

  /** A timeout of 2^31 seconds or more wraps to a negative expiration
      time in the narrowing cast. */
  lemma ExpiryWrapsForHugeTimeouts()
    ensures ExpirySeconds(1000 * 0x8000_0000) == INT_MIN
  {
  }

  class MemcachedCache {
    /** The servers the resolved connections reach. */
    const cluster: KeySpace
    /** `_client`: null while closed. */
    var client: Client?

    ghost predicate Valid()
      reads this
    {
      client != null ==> client.store == cluster
    }

    /** A cache that is configured but not yet opened. */
    constructor (cluster: KeySpace)
      ensures Valid() && this.cluster == cluster && client == null
    {
      this.cluster := cluster;
      client := null;
    }

    /** `isOpen()`: open exactly while a client is bound. */
    predicate IsOpen(): (open: bool)
      reads this
      ensures open <==> client != null
    {
      client != null
    }

    /** Fails with NO_CONNECTION on an empty connection list before touching
        `_client`. Otherwise binds a fresh client and registers one server
        per connection, in order, with the default port where none is
        given. An IOException while registering leaves the new client
        bound. */
    method Open(connections: seq<Connection>, io: IoFault) returns (r: Result<()>)
      requires Valid()
      modifies this
      ensures Valid()
      ensures |connections| == 0 ==> r == Failure(ConfigError(NO_CONNECTION)) && client == old(client)
      ensures |connections| > 0 && io.CreateFails? ==> r == Failure(IoError) && client == old(client)
      ensures |connections| > 0 && !io.CreateFails? ==>
                client != null && fresh(client) &&
                client.servers == ServerList(connections[..ServersAdded(io, |connections|)])
      ensures r.Success? <==> |connections| > 0 && !io.CreateFails? && ServersAdded(io, |connections|) == |connections|
      ensures r.Success? ==> IsOpen() && client.servers == ServerList(connections)
      ensures r.Failure? ==> r.error == (if |connections| == 0 then ConfigError(NO_CONNECTION) else IoError)
    {
      if |connections| == 0 {
        return Failure(ConfigError(NO_CONNECTION));
      }
      if io.CreateFails? {
        return Failure(IoError);
      }
      client := new Client(cluster);
      r := AddServers(client, connections, io);
      assert connections[..|connections|] == connections;
    }

    /** Shuts the client down and unbinds it. On a closed cache the call
        dereferences the null client; a failing shutdown leaves it bound. */
    method Close(shutdownFails: bool) returns (r: Result<()>)
      requires Valid()
      modifies this
      ensures Valid()
      ensures old(client) == null ==> r == Failure(NullPointer) && client == null
      ensures old(client) != null && shutdownFails ==> r == Failure(IoError) && client == old(client)
      ensures old(client) != null && !shutdownFails ==> r == Success(()) && !IsOpen()
    {
      if client == null {
        return Failure(NullPointer);
      }
      if shutdownFails {
        return Failure(IoError);
      }
      client := null;
      r := Success(());
    }

    /** The guard every data operation starts with. */
    function CheckOpened(): (r: Result<()>)
      reads this
      ensures r.Success? <==> IsOpen()
      ensures r.Failure? ==> r.error == InvalidStateError(NOT_OPENED)
    {
      if client == null then Failure(InvalidStateError(NOT_OPENED)) else Success(())
    }

    /** The stored payload, or None when the key is missing or expired. */
    method Retrieve(key: string, link: Link) returns (r: Result<Option<string>>)
      requires Valid()
      ensures !IsOpen() ==> r == Failure(InvalidStateError(NOT_OPENED))
      ensures IsOpen() && link.Down? ==> r == Failure(StoreFailure(link.fault))
      ensures IsOpen() && link.Up? ==> r == Success(Lookup(cluster.entries, key))
    {
      var guard := CheckOpened();
      if guard.Failure? {
        return Failure(guard.error);
      }
      r := client.Get(key, link);
    }

    /** Writes the encoded value under `key` with the timeout in whole
        seconds, and returns the client's `set` answer. Nothing is written
        when the cache is closed, the value does not serialise, or the
        call fails. */
    method Store<O>(key: string, value: Value<O>, timeout: Int64, fmt: Formatters<O>, link: Link)
      returns (r: Result<bool>)
      requires Valid()
      modifies cluster
      ensures !IsOpen() ==> r == Failure(InvalidStateError(NOT_OPENED))
      ensures IsOpen() && Encode(value, fmt).Failure? ==> r == Failure(SerializationError)
      ensures IsOpen() && Encode(value, fmt).Success? && link.Down? ==> r == Failure(StoreFailure(link.fault))
      ensures r.Failure? ==> cluster.entries == old(cluster.entries)
      ensures r.Success? <==> IsOpen() && Encode(value, fmt).Success? && link.Up?
      ensures r.Success? ==>
                r.value &&
                cluster.entries == old(cluster.entries)[key := Entry(Encode(value, fmt).value, ExpirySeconds(timeout))]
    {
      var guard := CheckOpened();
      if guard.Failure? {
        return Failure(guard.error);
      }
      var exptime := ExpirySeconds(timeout);
      var payload := Encode(value, fmt);
      if payload.Failure? {
        return Failure(payload.error);
      }
      r := client.Set(key, exptime, payload.value, link);
    }

    /** Deletes `key`; an absent key is left absent and is not an error. */
    method Remove(key: string, link: Link) returns (r: Result<()>)
      requires Valid()
      modifies cluster
      ensures !IsOpen() ==> r == Failure(InvalidStateError(NOT_OPENED))
      ensures IsOpen() && link.Down? ==> r == Failure(StoreFailure(link.fault))
      ensures r.Failure? ==> cluster.entries == old(cluster.entries)
      ensures r.Success? <==> IsOpen() && link.Up?
      ensures r.Success? ==> cluster.entries == old(cluster.entries) - {key}
    {
      var guard := CheckOpened();
      if guard.Failure? {
        return Failure(guard.error);
      }
      var deleted := client.Delete(key, link);
      if deleted.Failure? {
        return Failure(deleted.error);
      }
      r := Success(());
    }
  }

  /** A store followed by a retrieve, with no expiry in between, reads back
      the encoded payload, not the original value. */
  method StoreThenRetrieve<O>(c: MemcachedCache, key: string, value: Value<O>, timeout: Int64, fmt: Formatters<O>)
    returns (got: Result<Option<string>>)
    requires c.Valid() && c.IsOpen() && Encode(value, fmt).Success?
    modifies c.cluster
    ensures got == Success(Some(Encode(value, fmt).value))
  {
    var stored := c.Store(key, value, timeout, fmt, Up);
    got := c.Retrieve(key, Up);
  }

  /** After a remove, a retrieve finds nothing, whether or not the key
      was present before. */
  method RemoveThenRetrieve(c: MemcachedCache, key: string) returns (got: Result<Option<string>>)
    requires c.Valid() && c.IsOpen()
    modifies c.cluster
    ensures got == Success(None)
  {
    var removed := c.Remove(key, Up);
    got := c.Retrieve(key, Up);
  }

  /** Once closed, every data operation fails with NOT_OPENED and the
      servers' keys are not touched. */
  method ClosedCacheRejects<O>(c: MemcachedCache, key: string, value: Value<O>, timeout: Int64, fmt: Formatters<O>)
    returns (read: Result<Option<string>>, written: Result<bool>, removed: Result<()>)
    requires c.Valid() && c.IsOpen()
    modifies c, c.cluster
    ensures read.Failure? && written.Failure? && removed.Failure?
    ensures read.error == written.error == removed.error == InvalidStateError(NOT_OPENED)
    ensures c.cluster.entries == old(c.cluster.entries)
  {
    var closed := c.Close(false);
    read := c.Retrieve(key, Up);
    written := c.Store(key, value, timeout, fmt, Up);
    removed := c.Remove(key, Up);
  }
}
