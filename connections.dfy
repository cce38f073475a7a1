/** The resolved connection list and the server list a client is given. */
module Connections {
  import opened Outcomes

  /** memcached's conventional port, used when a connection names none. */
  const DEFAULT_PORT: int := 11211

  /** One resolved connection: a host and, when configured as an integer,
      a port. */
  datatype Connection = Connection(host: string, port: Option<int>)

  /** One server registered with a client by `addServer`. */
  datatype Server = Server(host: string, port: int)

  /** The port `getAsIntegerWithDefault("port", 11211)` yields. */
  function PortOf(c: Connection): (port: int)
    ensures c.port.Some? ==> port == c.port.value
    ensures c.port.None? ==> port == DEFAULT_PORT
  {
    match c.port
    case Some(p) => p
    case None => DEFAULT_PORT
  }

  function ServerFor(c: Connection): Server {
    Server(c.host, PortOf(c))
  }

  /** The servers `open` registers for the connections, in order. */
  function ServerList(cs: seq<Connection>): (ss: seq<Server>)
    ensures |ss| == |cs|
  {
    if cs == [] then [] else [ServerFor(cs[0])] + ServerList(cs[1..])
  }

  /** The i-th server has the i-th connection's host and its port, or
      the default port when the connection gives none. */
  lemma {:induction false} ServerListAt(cs: seq<Connection>, i: nat)
    requires i < |cs|
    ensures ServerList(cs)[i].host == cs[i].host
    ensures cs[i].port.Some? ==> ServerList(cs)[i].port == cs[i].port.value
    ensures cs[i].port.None? ==> ServerList(cs)[i].port == DEFAULT_PORT
  {
    if i > 0 {
      ServerListAt(cs[1..], i - 1);
    }
  }

  /** Registering one more connection appends exactly its server. */
  lemma {:induction false} ServerListAppend(cs: seq<Connection>, c: Connection)
    ensures ServerList(cs + [c]) == ServerList(cs) + [ServerFor(c)]
  {
    if cs != [] {
      assert (cs + [c])[1..] == cs[1..] + [c];
      ServerListAppend(cs[1..], c);
    }
  }
}
