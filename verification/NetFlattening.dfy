/** Flattening a config all at once: the reference form of what the builder does
    lazily while it builds. Every inline net gets the name the builder would give it. */
module NetFlattening {
  import opened NetConfig

  function FlatRef(prefix: seq<string>, c: Child): NetRef {
    if c.ref.Inline? then Name(GenName(prefix, c.path)) else c.ref
  }

  function FlatChildren(prefix: seq<string>, cs: seq<Child>): (r: seq<Child>)
    ensures |r| == |cs|
    ensures forall i :: 0 <= i < |cs| ==> r[i] == Child(cs[i].path, FlatRef(prefix, cs[i]))
  {
    if cs == [] then [] else [Child(cs[0].path, FlatRef(prefix, cs[0]))] + FlatChildren(prefix, cs[1..])
  }

  function FlatNet(name: string, net: Net): Net {
    net.(children := FlatChildren(NetPrefix(name), net.children))
  }

  /** Names given to the inline nets below one list of references. */
  ghost function GenNames(prefix: seq<string>, cs: seq<Child>): set<string>
    decreases cs
  {
    if cs == [] then {} else RefGens(prefix, cs[0]) + GenNames(prefix, cs[1..])
  }

  ghost function RefGens(prefix: seq<string>, c: Child): set<string>
    decreases c
  {
    if c.ref.Inline? then
      var g := GenName(prefix, c.path);
      {g} + GenNames(NetPrefix(g), c.ref.net.children)
    else {}
  }

  /** Names mentioned in the references, inline nets included. */
  ghost function Mentioned(cs: seq<Child>): set<string> {
    if cs == [] then {} else MentionedIn(cs[0].ref) + Mentioned(cs[1..])
  }

  ghost function MentionedIn(r: NetRef): set<string> {
    match r
    case Name(n) => {n}
    case Inline(net) => Mentioned(net.children)
    case Garbage => {}
  }

  /** No name is generated twice below one list of references. */
  ghost predicate Distinct(prefix: seq<string>, cs: seq<Child>)
    decreases cs
  {
    cs != [] ==>
      && DistinctRef(prefix, cs[0])
      && RefGens(prefix, cs[0]) !! GenNames(prefix, cs[1..])
      && Distinct(prefix, cs[1..])
  }

  ghost predicate DistinctRef(prefix: seq<string>, c: Child)
    decreases c
  {
    c.ref.Inline? ==>
      var g := GenName(prefix, c.path);
      g !in GenNames(NetPrefix(g), c.ref.net.children) && Distinct(NetPrefix(g), c.ref.net.children)
  }

  ghost function NetGens(nets: Nets, n: string): set<string>
    requires n in nets
  {
    GenNames(NetPrefix(n), nets[n].children)
  }

  ghost function NetsGens(nets: Nets): set<string> {
    set n, g | n in nets && g in NetGens(nets, n) :: g
  }

  ghost function ServerGens(server: Server): set<string> {
    GenNames(ServerPrefix(server.name), server.item.children)
  }

  ghost function ServersGens(servers: seq<Server>): set<string> {
    if servers == [] then {} else ServerGens(servers[0]) + ServersGens(servers[1..])
  }

  ghost function ServersMention(servers: seq<Server>): set<string> {
    if servers == [] then {} else Mentioned(servers[0].item.children) + ServersMention(servers[1..])
  }

  ghost predicate NetsFresh(nets: Nets) {
    && (forall n :: n in nets ==> Distinct(NetPrefix(n), nets[n].children))
    && (forall m, n :: m in nets && n in nets && m != n ==> NetGens(nets, m) !! NetGens(nets, n))
  }

  ghost predicate ServersDistinct(servers: seq<Server>) {
    servers != [] ==>
      && Distinct(ServerPrefix(servers[0].name), servers[0].item.children)
      && ServerGens(servers[0]) !! ServersGens(servers[1..])
      && ServersDistinct(servers[1..])
  }

  ghost function AllGens(nets: Nets, servers: seq<Server>): set<string> {
    NetsGens(nets) + ServersGens(servers)
  }

  /** Generated names are all different, and none of them is a key of the config or is
      mentioned in it. */
  ghost predicate Fresh(nets: Nets, servers: seq<Server>) {
    && NetsFresh(nets) && ServersDistinct(servers) && NetsGens(nets) !! ServersGens(servers)
    && AllGens(nets, servers) !! nets.Keys
    && AllGens(nets, servers) !! ServersMention(servers)
    && (forall n :: n in nets ==> AllGens(nets, servers) !! Mentioned(nets[n].children))
  }

  /** `flat` holds the flattened form of `net` under `name`, and of every inline net below it. */
  ghost predicate Covers(flat: Nets, name: string, net: Net)
    decreases net
  {
    name in flat && flat[name] == FlatNet(name, net) && CoversAll(flat, NetPrefix(name), net.children)
  }

  ghost predicate CoversAll(flat: Nets, prefix: seq<string>, cs: seq<Child>)
    decreases cs
  {
    cs != [] ==> CoversRef(flat, prefix, cs[0]) && CoversAll(flat, prefix, cs[1..])
  }

  ghost predicate CoversRef(flat: Nets, prefix: seq<string>, c: Child)
    decreases c
  {
    c.ref.Inline? ==> Covers(flat, GenName(prefix, c.path), c.ref.net)
  }

  ghost predicate CoversServers(flat: Nets, servers: seq<Server>) {
    servers != [] ==>
      CoversAll(flat, ServerPrefix(servers[0].name), servers[0].item.children) && CoversServers(flat, servers[1..])
  }

  ghost predicate IsFlattening(flat: Nets, nets: Nets, servers: seq<Server>) {
    && (forall n :: n in nets ==> Covers(flat, n, nets[n]))
    && CoversServers(flat, servers)
    && flat.Keys == nets.Keys + AllGens(nets, servers)
  }

  function FlatServer(server: Server): Server {
    server.(item := server.item.(children := FlatChildren(ServerPrefix(server.name), server.item.children)))
  }

  function FlatServers(servers: seq<Server>): (r: seq<Server>)
    ensures |r| == |servers|
    ensures forall i :: 0 <= i < |servers| ==> r[i] == FlatServer(servers[i])
  {
    if servers == [] then [] else [FlatServer(servers[0])] + FlatServers(servers[1..])
  }
}
