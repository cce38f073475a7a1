/** The memcached client library and the servers behind it, reduced to the
    calls the cache and the lock make. The servers' shared key space is a
    `KeySpace` object: it outlives any one client, and several components may
    reach the same one. Expiry is not clock arithmetic here but an explicit
    step, `KeySpace.Expire`, that the servers may take at any time. */
module Memcached {
  import opened Outcomes
  import opened Connections

  /** One stored item: its payload and the expiration time (in seconds)
      it was written with. */
  datatype Entry = Entry(payload: string, exptime: int)

  type Entries = map<string, Entry>

  /** The outcome of memcached's "add" when the servers answer. */
  datatype AddReply = Stored | NotStored

  /** What `get` yields: the payload, or None (Java's null) for a key that
      is missing or has expired. */
  function Lookup(m: Entries, key: string): Option<string> {
    if key in m then Some(m[key].payload) else None
  }

  /** memcached's atomic "add": it writes only when the key is absent. */
  function AddIfAbsent(m: Entries, key: string, e: Entry): (Entries, AddReply) {
    if key in m then (m, NotStored) else (m[key := e], Stored)
  }

  /** Where an `open` meets an IOException: not at all, when constructing
      the client, or in the `addServer` call for connection number `at`. */
  datatype IoFault = NoIoFault | CreateFails | AddServerFails(at: nat)

  /** How many servers the `addServer` loop registers before it stops. */
  function ServersAdded(io: IoFault, n: nat): (k: nat)
    ensures k <= n
    ensures k < n <==> io.AddServerFails? && io.at < n
    ensures k < n ==> k == io.at
  {
    if io.AddServerFails? && io.at < n then io.at else n
  }

  /** The servers' key space. */
  class KeySpace {
    var entries: Entries

    constructor (initial: Entries)
      ensures entries == initial
    {
      entries := initial;
    }

    /** The servers drop a key whose expiration time has passed. */
    method Expire(key: string)
      modifies this
      ensures entries == old(entries) - {key}
    {
      entries := entries - {key};
    }
  }

  /** A client bound to the servers it has been given; every data call
      reaches the same key space, `store`. */
  class Client {
    const store: KeySpace
    var servers: seq<Server>

    constructor (store: KeySpace)
      ensures this.store == store && servers == []
    {
      this.store := store;
      servers := [];
    }

    /** Registers one server; `fails` stands for the IOException that
        connecting to it may raise. */
    method AddServer(host: string, port: int, fails: bool) returns (r: Result<()>)
      modifies this
      ensures fails ==> r == Failure(IoError) && servers == old(servers)
      ensures !fails ==> r == Success(()) && servers == old(servers) + [Server(host, port)]
    {
      if fails {
        return Failure(IoError);
      }
      servers := servers + [Server(host, port)];
      r := Success(());
    }

    method Get(key: string, link: Link) returns (r: Result<Option<string>>)
      ensures link.Down? ==> r == Failure(StoreFailure(link.fault))
      ensures link.Up? ==> r == Success(Lookup(store.entries, key))
    {
      if link.Down? {
        return Failure(StoreFailure(link.fault));
      }
      r := Success(Lookup(store.entries, key));
    }

    method Set(key: string, exptime: int, value: string, link: Link) returns (r: Result<bool>)
      modifies store
      ensures link.Down? ==> r == Failure(StoreFailure(link.fault)) && store.entries == old(store.entries)
      ensures link.Up? ==> r == Success(true) && store.entries == old(store.entries)[key := Entry(value, exptime)]
    {
      if link.Down? {
        return Failure(StoreFailure(link.fault));
      }
      store.entries := store.entries[key := Entry(value, exptime)];
      r := Success(true);
    }

    method Add(key: string, exptime: int, value: string, link: Link) returns (r: Result<AddReply>)
      modifies store
      ensures link.Down? ==> r == Failure(StoreFailure(link.fault)) && store.entries == old(store.entries)
      ensures link.Up? ==> r.Success? && (store.entries, r.value) == AddIfAbsent(old(store.entries), key, Entry(value, exptime))
    {
      if link.Down? {
        return Failure(StoreFailure(link.fault));
      }
      var (next, reply) := AddIfAbsent(store.entries, key, Entry(value, exptime));
      store.entries := next;
      r := Success(reply);
    }

    method Delete(key: string, link: Link) returns (r: Result<bool>)
      modifies store
      ensures link.Down? ==> r == Failure(StoreFailure(link.fault)) && store.entries == old(store.entries)
      ensures link.Up? ==> r == Success(key in old(store.entries)) && store.entries == old(store.entries) - {key}
    {
      if link.Down? {
        return Failure(StoreFailure(link.fault));
      }
      r := Success(key in store.entries);
      store.entries := store.entries - {key};
    }
  }

  /** The loop of `open` that registers one server per connection, in
      order, stopping at the first IOException. */
  method AddServers(client: Client, connections: seq<Connection>, io: IoFault) returns (r: Result<()>)
    modifies client
    ensures client.servers == old(client.servers) + ServerList(connections[..ServersAdded(io, |connections|)])
    ensures r.Success? <==> ServersAdded(io, |connections|) == |connections|
    ensures r.Failure? ==> r.error == IoError
  {
    var i := 0;
    while i < |connections|
      invariant 0 <= i <= |connections|
      invariant i <= ServersAdded(io, |connections|)
      invariant client.servers == old(client.servers) + ServerList(connections[..i])
    {
      var c := connections[i];
      var added := client.AddServer(c.host, PortOf(c), io == AddServerFails(i));
      if added.Failure? {
        return added;
      }
      ServerListAppend(connections[..i], c);
      assert connections[..i + 1] == connections[..i] + [c];
      i := i + 1;
    }
    assert connections[..i] == connections;
    r := Success(());
  }
}
