/** Building the net graph (src/rabbit_digger.rs, BuildContext and build_entities;
    rd-interface/src/registry.rs, build_dyn and resolve_net).

    `Get` and its companions are the build as functions of the builder's state;
    the class `BuildContext` below is the same build done in place. */
module NetBuilder {
  import opened Outcomes
  import opened NetConfig

  /** A running net. A target is the position of another running net in the
      builder's arena: it stands for the shared `Arc` that the source hands out. */
  datatype Running = Running(name: string, config: Net, targets: seq<nat>)

  datatype State = State(config: Nets, cache: map<string, nat>, arena: seq<Running>)

  /** Entries that can still be taken for building. */
  ghost function Takeable(config: Nets, cache: map<string, nat>): set<string> {
    set n | n in config && n !in cache && config[n] != PLACEHOLDER
  }

  /** The name a reference resolves to, and the config after an inline net has been
      given a name and inserted. */
  function RefName(r: NetRef, prefix: seq<string>, path: seq<string>): string
    requires !r.Garbage?
  {
    if r.Name? then r.name else GenName(prefix, path)
  }

  function Inserted(config: Nets, r: NetRef, name: string): Nets
    requires !r.Garbage?
  {
    if r.Name? then config else config[name := r.net]
  }

  function Get(reg: Registry, s: State, r: NetRef, prefix: seq<string>, path: seq<string>)
    : (res: Fallible<(State, string, nat)>)
    ensures res.Ok? ==> Takeable(res.value.0.config, res.value.0.cache) <= Takeable(s.config, s.cache)
    decreases Takeable(s.config, s.cache), RefSize(r), 0
  {
    if r.Garbage? then Err(Malformed)
    else
      var name := RefName(r, prefix, path);
      var config := Inserted(s.config, r, name);
      if name in s.cache then Ok((s.(config := config), name, s.cache[name]))
      else if name !in config then Err(NotFound(name))
      else
        var entry := config[name];
        var taken := s.(config := config[name := PLACEHOLDER]);
        TakenDecreases(s.config, config, s.cache, name, r);
        match Build(reg, reg, taken, NetPrefix(name), entry)
        case Err(e) => Err(e)
        case Ok((t, built, targets)) =>
          var id := |t.arena|;
          Ok((State(t.config[name := built], t.cache[name := id], t.arena + [Running(name, built, targets)]),
              name, id))
  }

  /** Look the type up in `kinds`, deserialize the options, resolve every
      reference, build. `kinds` is the net registry for a net and the server
      registry for a server. */
  function Build(kinds: Registry, reg: Registry, s: State, prefix: seq<string>, item: Net)
    : (res: Fallible<(State, Net, seq<nat>)>)
    ensures res.Ok? ==> Takeable(res.value.0.config, res.value.0.cache) <= Takeable(s.config, s.cache)
    decreases Takeable(s.config, s.cache), ChildrenSize(item.children), 2
  {
    if item.kind !in kinds then Err(TypeNotLoaded(item.kind))
    else if !kinds[item.kind].parses(item.data) then Err(BadOptions(item.kind))
    else
      match Visit(reg, s, prefix, item.children)
      case Err(e) => Err(e)
      case Ok((t, cs, targets)) =>
        if !kinds[item.kind].builds(item.data) then Err(BuildFailed(item.kind))
        else Ok((t, item.(children := cs), targets))
  }

  /** Resolve the references of one item from left to right. */
  function Visit(reg: Registry, s: State, prefix: seq<string>, cs: seq<Child>)
    : (res: Fallible<(State, seq<Child>, seq<nat>)>)
    ensures res.Ok? ==> Takeable(res.value.0.config, res.value.0.cache) <= Takeable(s.config, s.cache)
    decreases Takeable(s.config, s.cache), ChildrenSize(cs), 1
  {
    if cs == [] then Ok((s, [], []))
    else
      match Get(reg, s, cs[0].ref, prefix, cs[0].path)
      case Err(e) => Err(e)
      case Ok((t, name, id)) =>
        match Visit(reg, t, prefix, cs[1..])
        case Err(e) => Err(e)
        case Ok((u, rest, targets)) => Ok((u, [Child(cs[0].path, Name(name))] + rest, [id] + targets))
  }

  /** All servers in file order. `servers` comes back with every reference resolved;
      `targets[i]` are the running nets handed to server i. */
  function BuildServers(serverReg: Registry, reg: Registry, s: State, servers: seq<Server>)
    : (res: Fallible<(State, seq<Server>, seq<seq<nat>>)>)
    decreases |servers|
  {
    if servers == [] then Ok((s, [], []))
    else
      match Build(serverReg, reg, s, ServerPrefix(servers[0].name), servers[0].item)
      case Err(e) => Err(e)
      case Ok((t, item, ids)) =>
        match BuildServers(serverReg, reg, t, servers[1..])
        case Err(e) => Err(e)
        case Ok((u, rest, targets)) => Ok((u, [Server(servers[0].name, item)] + rest, [ids] + targets))
  }

  function BuildEntities(serverReg: Registry, reg: Registry, nets: Nets, servers: seq<Server>, localOptions: string)
    : Fallible<(State, seq<Server>, seq<seq<nat>>)>
  {
    BuildServers(serverReg, reg, State(WithDefaults(nets, localOptions), map[], []), servers)
  }

  /** The functions' result agrees with what a method returned and left behind.
      After an error the whole build is abandoned, so its leftovers do not matter. */
  ghost predicate Agrees<T, U>(spec: Fallible<(State, T, U)>, res: Fallible<(T, U)>, after: State) {
    match spec
    case Err(e) => res == Err(e)
    case Ok((s, x, y)) => res == Ok((x, y)) && after == s
  }

  class BuildContext {
    const registry: Registry
    var config: Nets
    var netCache: map<string, nat>
    var arena: seq<Running>

    constructor (registry: Registry, config: Nets)
      ensures this.registry == registry && Now() == State(config, map[], [])
    {
      this.registry, this.config, this.netCache, this.arena := registry, config, map[], [];
    }

    ghost function Now(): State
      reads this
    {
      State(config, netCache, arena)
    }

    method GetNet(r: NetRef, path: seq<string>, prefix: seq<string>) returns (res: Fallible<(string, nat)>)
      modifies this
      ensures Agrees(Get(registry, old(Now()), r, prefix, path), res, Now())
      decreases Takeable(config, netCache), RefSize(r), 0
    {
      var name;
      match r {
        case Garbage => return Err(Malformed);
        case Name(n) => name := n;
        case Inline(net) =>
          name := GenName(prefix, path);
          config := config[name := net];
      }
      if name in netCache {
        return Ok((name, netCache[name]));
      }
      if name !in config {
        return Err(NotFound(name));
      }
      var entry := config[name];
      TakenDecreases(old(config), config, netCache, name, r);
      config := config[name := PLACEHOLDER];
      ghost var spec := Build(registry, registry, Now(), NetPrefix(name), entry);
      assert spec.Err? ==> Get(registry, old(Now()), r, prefix, path) == Err(spec.error);
      var built := BuildItem(registry, NetPrefix(name), entry);
      if built.Err? {
        return Err(built.error);
      }
      config := config[name := built.value.0];
      arena := arena + [Running(name, built.value.0, built.value.1)];
      netCache := netCache[name := |arena| - 1];
      return Ok((name, |arena| - 1));
    }

    method BuildItem(kinds: Registry, prefix: seq<string>, item: Net) returns (res: Fallible<(Net, seq<nat>)>)
      modifies this
      ensures Agrees(Build(kinds, registry, old(Now()), prefix, item), res, Now())
      decreases Takeable(config, netCache), ChildrenSize(item.children), 2
    {
      if item.kind !in kinds {
        return Err(TypeNotLoaded(item.kind));
      }
      if !kinds[item.kind].parses(item.data) {
        return Err(BadOptions(item.kind));
      }
      var visited := ResolveNet(prefix, item.children);
      if visited.Err? {
        return Err(visited.error);
      }
      if !kinds[item.kind].builds(item.data) {
        return Err(BuildFailed(item.kind));
      }
      return Ok((item.(children := visited.value.0), visited.value.1));
    }

    /** The visitor: each reference is replaced by the name it resolved to. */
    method ResolveNet(prefix: seq<string>, children: seq<Child>) returns (res: Fallible<(seq<Child>, seq<nat>)>)
      modifies this
      ensures Agrees(Visit(registry, old(Now()), prefix, children), res, Now())
      decreases Takeable(config, netCache), ChildrenSize(children), 1
    {
      ghost var whole := Visit(registry, Now(), prefix, children);
      ghost var before := Takeable(config, netCache);
      var cs: seq<Child>, ids: seq<nat> := [], [];
      assert children[0..] == children;
      ResumedNothing(whole);
      for i := 0 to |children|
        invariant |cs| == i
        invariant whole == Resumed(cs, ids, Visit(registry, Now(), prefix, children[i..]))
        invariant Takeable(config, netCache) <= before
      {
        var c := children[i];
        SizeAt(children, i);
        assert Takeable(config, netCache) == before || Takeable(config, netCache) < before;
        assert children[i..][0] == c && children[i..][1..] == children[i + 1..];
        var got := GetNet(c.ref, c.path, prefix);
        if got.Err? {
          return Err(got.error);
        }
        ghost var rest := Visit(registry, Now(), prefix, children[i + 1..]);
        ResumedStep(cs, ids, Child(c.path, Name(got.value.0)), got.value.1, rest);
        cs, ids := cs + [Child(c.path, Name(got.value.0))], ids + [got.value.1];
      }
      assert children[|children|..] == [];
      assert cs + [] == cs && ids + [] == ids;
      return Ok((cs, ids));
    }

    method BuildServerEntries(serverReg: Registry, servers: seq<Server>)
      returns (res: Fallible<(seq<Server>, seq<seq<nat>>)>)
      modifies this
      ensures Agrees(BuildServers(serverReg, registry, old(Now()), servers), res, Now())
    {
      ghost var whole := BuildServers(serverReg, registry, Now(), servers);
      var done: seq<Server>, ids: seq<seq<nat>> := [], [];
      assert servers[0..] == servers;
      ResumedNothing(whole);
      for i := 0 to |servers|
        invariant whole == Resumed(done, ids, BuildServers(serverReg, registry, Now(), servers[i..]))
      {
        var server := servers[i];
        assert servers[i..][0] == server && servers[i..][1..] == servers[i + 1..];
        var built := BuildItem(serverReg, ServerPrefix(server.name), server.item);
        if built.Err? {
          return Err(built.error);
        }
        ghost var rest := BuildServers(serverReg, registry, Now(), servers[i + 1..]);
        ResumedStep(done, ids, Server(server.name, built.value.0), built.value.1, rest);
        done, ids := done + [Server(server.name, built.value.0)], ids + [built.value.1];
      }
      assert servers[|servers|..] == [];
      assert done + [] == done && ids + [] == ids;
      return Ok((done, ids));
    }
  }

  /** What a left-to-right pass returns once the elements already done are put back
      in front of the result for the remaining ones. */
  ghost function Resumed<T, U>(done: seq<T>, ids: seq<U>, rest: Fallible<(State, seq<T>, seq<U>)>)
    : Fallible<(State, seq<T>, seq<U>)>
  {
    match rest
    case Err(e) => Err(e)
    case Ok((s, xs, ys)) => Ok((s, done + xs, ids + ys))
  }

  lemma ResumedNothing<T, U>(rest: Fallible<(State, seq<T>, seq<U>)>)
    ensures Resumed([], [], rest) == rest
  {
    if rest.Ok? {
      assert [] + rest.value.1 == rest.value.1 && [] + rest.value.2 == rest.value.2;
    }
  }

  lemma ResumedStep<T, U>(done: seq<T>, ids: seq<U>, x: T, y: U, rest: Fallible<(State, seq<T>, seq<U>)>)
    ensures Resumed(done, ids, Resumed([x], [y], rest)) == Resumed(done + [x], ids + [y], rest)
  {
    if rest.Ok? {
      assert done + ([x] + rest.value.1) == done + [x] + rest.value.1;
      assert ids + ([y] + rest.value.2) == ids + [y] + rest.value.2;
    }
  }

  /** Taking an entry uses up a pending one, or leaves the pending ones alone and
      goes on with a smaller net. */
  lemma TakenDecreases(original: Nets, config: Nets, cache: map<string, nat>, name: string, r: NetRef)
    requires !r.Garbage? && name !in cache && name in config
    requires config == Inserted(original, r, name)
    ensures var before, after := Takeable(original, cache), Takeable(config[name := PLACEHOLDER], cache);
            after < before || (after == before && ChildrenSize(config[name].children) < RefSize(r))
  {
    var before, after := Takeable(original, cache), Takeable(config[name := PLACEHOLDER], cache);
    assert after <= before && name !in after;
    if r.Name? && config[name] != PLACEHOLDER {
      assert name in before;
    }
  }

  lemma {:induction false} SizeAt(cs: seq<Child>, i: nat)
    requires i < |cs|
    ensures RefSize(cs[i].ref) <= ChildrenSize(cs)
  {
    if i > 0 {
      assert cs[1..][i - 1] == cs[i];
      SizeAt(cs[1..], i - 1);
    }
  }

  /** build_entities: all servers, then the nets they needed. */
  method BuildInPlace(serverReg: Registry, reg: Registry, nets: Nets, servers: seq<Server>, localOptions: string)
    returns (res: Fallible<(State, seq<Server>, seq<seq<nat>>)>)
    ensures res == BuildEntities(serverReg, reg, nets, servers, localOptions)
  {
    var context := new BuildContext(reg, WithDefaults(nets, localOptions));
    var built := context.BuildServerEntries(serverReg, servers);
    if built.Err? {
      return Err(built.error);
    }
    return Ok((State(context.config, context.netCache, context.arena), built.value.0, built.value.1));
  }
}
