/** What a config means, and that building keeps it: the unfolding of every name and
    every server reference is the same before and after, and a second build of the
    result changes nothing. */
module NetMeaning {
  import opened Outcomes
  import opened NetConfig
  import opened NetBuilder
  import opened NetGraph
  import opened NetFlattening
  import opened NetBuilderProof

  /** A net with all its references replaced by what they stand for, cut at a depth.
      Cyclic configs have unfoldings too: one for every depth. */
  datatype Tree = Missing | Garbled | Cut | Node(kind: string, data: string, kids: seq<(seq<string>, Tree)>)

  function Unfold(nets: Nets, r: NetRef, depth: nat): Tree
    decreases depth, 1, 0
  {
    match r
    case Garbage => Garbled
    case Inline(net) => UnfoldNet(nets, net, depth)
    case Name(n) => if n in nets then UnfoldNet(nets, nets[n], depth) else Missing
  }

  function UnfoldNet(nets: Nets, net: Net, depth: nat): Tree
    decreases depth, 0, 0
  {
    if depth == 0 then Cut else Node(net.kind, net.data, UnfoldAll(nets, net.children, depth - 1))
  }

  function UnfoldAll(nets: Nets, cs: seq<Child>, depth: nat): seq<(seq<string>, Tree)>
    decreases depth, 2, |cs|
  {
    if cs == [] then [] else [(cs[0].path, Unfold(nets, cs[0].ref, depth))] + UnfoldAll(nets, cs[1..], depth)
  }

  // ------------------------------------------------------------ flattening

  /** Every entry of `nets` is covered by `flat`, and what it mentions it also defines
      if `flat` does. */
  ghost predicate Represents(flat: Nets, nets: Nets) {
    forall n :: n in nets ==> Covers(flat, n, nets[n]) && Closed(flat, nets, Mentioned(nets[n].children))
  }

  ghost predicate Closed(flat: Nets, nets: Nets, names: set<string>) {
    forall m :: m in names && m in flat ==> m in nets
  }

  lemma {:induction false} UnfoldNetSame(flat: Nets, nets: Nets, name: string, net: Net, depth: nat)
    requires Represents(flat, nets) && Covers(flat, name, net) && Closed(flat, nets, Mentioned(net.children))
    ensures UnfoldNet(flat, flat[name], depth) == UnfoldNet(nets, net, depth)
    decreases depth, 0, 0
  {
    if depth > 0 {
      UnfoldAllSame(flat, nets, NetPrefix(name), net.children, depth - 1);
    }
  }

  lemma {:induction false} UnfoldAllSame(flat: Nets, nets: Nets, prefix: seq<string>, cs: seq<Child>, depth: nat)
    requires Represents(flat, nets) && CoversAll(flat, prefix, cs) && Closed(flat, nets, Mentioned(cs))
    ensures UnfoldAll(flat, FlatChildren(prefix, cs), depth) == UnfoldAll(nets, cs, depth)
    decreases depth, 2, |cs|
  {
    if cs != [] {
      UnfoldRefSame(flat, nets, prefix, cs[0], depth);
      UnfoldAllSame(flat, nets, prefix, cs[1..], depth);
      assert FlatChildren(prefix, cs)[1..] == FlatChildren(prefix, cs[1..]);
    }
  }

  lemma {:induction false} UnfoldRefSame(flat: Nets, nets: Nets, prefix: seq<string>, c: Child, depth: nat)
    requires Represents(flat, nets) && CoversRef(flat, prefix, c) && Closed(flat, nets, MentionedIn(c.ref))
    ensures Unfold(flat, FlatRef(prefix, c), depth) == Unfold(nets, c.ref, depth)
    decreases depth, 1, 0
  {
    match c.ref
    case Garbage =>
    case Inline(net) => UnfoldNetSame(flat, nets, GenName(prefix, c.path), net, depth);
    case Name(n) =>
      if n in nets {
        UnfoldNetSame(flat, nets, n, nets[n], depth);
      }
  }

  /** Flattening all at once keeps the meaning of every reference. */
  lemma StartRepresents(nets: Nets, servers: seq<Server>, flat: Nets, reg: Registry)
    requires Start(nets, servers, flat, reg)
    ensures Represents(flat, nets)
  {
    StartOk(nets, servers, flat, reg);
  }

  // ------------------------------------------------------------ the built config

  ghost predicate IsFlat(cs: seq<Child>) {
    forall k :: 0 <= k < |cs| ==> cs[k].ref.Name?
  }

  /** A flat list of references has nothing to generate. */
  lemma {:induction false} FlatHasNoGens(flat: Nets, prefix: seq<string>, cs: seq<Child>)
    requires IsFlat(cs)
    ensures GenNames(prefix, cs) == {} && Distinct(prefix, cs) && FlatChildren(prefix, cs) == cs
    ensures CoversAll(flat, prefix, cs)
  {
    if cs != [] {
      assert cs[0].ref.Name?;
      FlatHasNoGens(flat, prefix, cs[1..]);
    }
  }

  lemma {:induction false} FlatMentions(cs: seq<Child>, m: string)
    requires IsFlat(cs) && m in Mentioned(cs)
    ensures exists k :: 0 <= k < |cs| && cs[k].ref == Name(m)
  {
    assert cs[0].ref.Name?;
    if m in Mentioned(cs[1..]) {
      FlatMentions(cs[1..], m);
      var k :| 0 <= k < |cs[1..]| && cs[1..][k].ref == Name(m);
      assert cs[k + 1].ref == Name(m);
    } else {
      assert cs[0].ref == Name(m);
    }
  }

  /** What holds of a finished build: see NetBuilderProof. */
  ghost predicate Complete(env: Env, t: State) {
    EnvOk(env) && Inv(env, t, {}, {})
  }

  lemma CachedIsFlat(env: Env, t: State, n: string)
    requires CacheOk(env, t) && n in t.cache
    ensures IsFlat(env.flat[n].children) && t.config[n] == env.flat[n]
    ensures forall m :: m in Mentioned(env.flat[n].children) ==> m in t.cache
  {
    assert EntryOk(env.flat, t.cache, t.arena, t.cache[n]);
    var cs := env.flat[n].children;
    forall m | m in Mentioned(cs)
      ensures m in t.cache
    {
      FlatMentions(cs, m);
      var k :| 0 <= k < |cs| && cs[k].ref == Name(m);
      assert Edge(env.flat, n, m);
      CacheRanks(env, t, n, m);
    }
  }

  lemma CompleteEntry(env: Env, t: State, n: string)
    requires Complete(env, t) && n in t.config
    ensures Covers(env.flat, n, t.config[n]) && Closed(env.flat, t.config, Mentioned(t.config[n].children))
    ensures Distinct(NetPrefix(n), t.config[n].children)
    ensures n in t.cache ==> NetGens(t.config, n) == {}
    ensures n !in t.cache ==> n in env.original && t.config[n] == env.original[n] && NetGens(t.config, n) !! t.config.Keys
  {
    if n in t.cache {
      CachedIsFlat(env, t, n);
      FlatHasNoGens(env.flat, NetPrefix(n), env.flat[n].children);
    } else {
      assert Untouched(t, {}, n);
    }
  }

  lemma CompleteRepresents(env: Env, t: State)
    requires Complete(env, t)
    ensures Represents(env.flat, t.config)
  {
    forall n | n in t.config
      ensures Covers(env.flat, n, t.config[n]) && Closed(env.flat, t.config, Mentioned(t.config[n].children))
    {
      CompleteEntry(env, t, n);
    }
  }

  /** Building keeps the meaning of every net of the config, at every depth. */
  lemma BuildKeepsNets(nets: Nets, servers: seq<Server>, flat: Nets, reg: Registry, serverReg: Registry,
                       n: string, depth: nat)
    requires Start(nets, servers, flat, reg) && n in nets
    ensures var res := BuildServers(serverReg, reg, State(nets, map[], []), servers);
            res.Ok? ==> Unfold(res.value.0.config, Name(n), depth) == Unfold(nets, Name(n), depth)
  {
    var env, s := Env(nets, flat, reg), State(nets, map[], []);
    var res := BuildServers(serverReg, reg, s, servers);
    if res.Ok? {
      StartOk(nets, servers, flat, reg);
      ServersCorrect(env, serverReg, s, servers);
      var t := res.value.0;
      CompleteRepresents(env, t);
      StartRepresents(nets, servers, flat, reg);
      UnfoldNetSame(flat, nets, n, nets[n], depth);
      UnfoldNetSame(flat, t.config, n, t.config[n], depth);
    }
  }

  lemma {:induction false} AllAt(flat: Nets, prefix: seq<string>, cs: seq<Child>, k: nat)
    requires CoversAll(flat, prefix, cs) && k < |cs|
    ensures CoversRef(flat, prefix, cs[k]) && MentionedIn(cs[k].ref) <= Mentioned(cs)
  {
    if k > 0 { AllAt(flat, prefix, cs[1..], k - 1); }
  }

  lemma {:induction false} ServersAt(flat: Nets, servers: seq<Server>, i: nat)
    requires CoversServers(flat, servers) && i < |servers|
    ensures CoversAll(flat, ServerPrefix(servers[i].name), servers[i].item.children)
    ensures Mentioned(servers[i].item.children) <= ServersMention(servers)
  {
    if i > 0 { ServersAt(flat, servers[1..], i - 1); }
  }

  lemma ServerRefSame(nets: Nets, servers: seq<Server>, flat: Nets, reg: Registry, i: nat, k: nat, depth: nat)
    requires Start(nets, servers, flat, reg) && i < |servers| && k < |servers[i].item.children|
    ensures Unfold(flat, FlatServers(servers)[i].item.children[k].ref, depth)
              == Unfold(nets, servers[i].item.children[k].ref, depth)
  {
    var prefix, cs := ServerPrefix(servers[i].name), servers[i].item.children;
    StartRepresents(nets, servers, flat, reg);
    ServersAt(flat, servers, i);
    AllAt(flat, prefix, cs, k);
    assert Closed(flat, nets, MentionedIn(cs[k].ref));
    UnfoldRefSame(flat, nets, prefix, cs[k], depth);
  }

  /** And of every reference of every server, which now is a plain name. */
  lemma BuildKeepsServers(nets: Nets, servers: seq<Server>, flat: Nets, reg: Registry, serverReg: Registry,
                          i: nat, k: nat, depth: nat)
    requires Start(nets, servers, flat, reg) && i < |servers| && k < |servers[i].item.children|
    ensures var res := BuildServers(serverReg, reg, State(nets, map[], []), servers);
            res.Ok? ==>
              && res.value.1 == FlatServers(servers)
              && res.value.1[i].item.children[k].ref.Name?
              && Unfold(res.value.0.config, res.value.1[i].item.children[k].ref, depth)
                 == Unfold(nets, servers[i].item.children[k].ref, depth)
  {
    var env, s := Env(nets, flat, reg), State(nets, map[], []);
    var res := BuildServers(serverReg, reg, s, servers);
    if res.Ok? {
      StartOk(nets, servers, flat, reg);
      ServersCorrect(env, serverReg, s, servers);
      var (t, flats, targets) := res.value;
      assert TargetsOk(t, flats[i].item.children, targets[i]);
      var n := flats[i].item.children[k].ref.name;
      CompleteRepresents(env, t);
      UnfoldNetSame(flat, t.config, n, t.config[n], depth);
      ServerRefSame(nets, servers, flat, reg, i, k, depth);
    }
  }

  // ------------------------------------------------------------ what runs

  /** What a running net means: its options, and what the running nets it holds mean. */
  function RunTree(arena: seq<Running>, id: nat, depth: nat): Tree
    decreases depth, 0, 0
  {
    if id >= |arena| then Missing
    else if depth == 0 then Cut
    else Node(arena[id].config.kind, arena[id].config.data,
              RunTrees(arena, arena[id].config.children, arena[id].targets, depth - 1))
  }

  function RunTrees(arena: seq<Running>, cs: seq<Child>, targets: seq<nat>, depth: nat): seq<(seq<string>, Tree)>
    decreases depth, 1, |cs|
  {
    if cs == [] || targets == [] then []
    else [(cs[0].path, RunTree(arena, targets[0], depth))] + RunTrees(arena, cs[1..], targets[1..], depth)
  }

  /** A running net means what its flat entry means. */
  lemma {:induction false} RunningMeans(env: Env, t: State, n: string, depth: nat)
    requires CacheOk(env, t) && n in t.cache
    ensures RunTree(t.arena, t.cache[n], depth) == UnfoldNet(env.flat, env.flat[n], depth)
    decreases depth, 0, 0
  {
    var a := t.arena[t.cache[n]];
    assert EntryOk(env.flat, t.cache, t.arena, t.cache[n]);
    if depth > 0 {
      forall k | 0 <= k < |a.targets|
        ensures a.config.children[k].ref.name in t.cache && a.targets[k] == t.cache[a.config.children[k].ref.name]
      {
        assert EntryOk(env.flat, t.cache, t.arena, a.targets[k]);
      }
      RunningAllMean(env, t, a.config.children, a.targets, depth - 1);
    }
  }

  lemma {:induction false} RunningAllMean(env: Env, t: State, cs: seq<Child>, targets: seq<nat>, depth: nat)
    requires CacheOk(env, t) && TargetsOk(t, cs, targets)
    ensures RunTrees(t.arena, cs, targets, depth) == UnfoldAll(env.flat, cs, depth)
    decreases depth, 1, |cs|
  {
    if cs != [] {
      RunningMeans(env, t, cs[0].ref.name, depth);
      RunningAllMean(env, t, cs[1..], targets[1..], depth);
    }
  }

  /** The running net handed to a server for a reference means what the reference meant
      in the config, at every depth. */
  lemma BuildRunsMeaning(nets: Nets, servers: seq<Server>, flat: Nets, reg: Registry, serverReg: Registry,
                         i: nat, k: nat, depth: nat)
    requires Start(nets, servers, flat, reg) && i < |servers| && k < |servers[i].item.children|
    ensures var res := BuildServers(serverReg, reg, State(nets, map[], []), servers);
            res.Ok? ==>
              && i < |res.value.2| && k < |res.value.2[i]|
              && RunTree(res.value.0.arena, res.value.2[i][k], depth) == Unfold(nets, servers[i].item.children[k].ref, depth)
  {
    var env, s := Env(nets, flat, reg), State(nets, map[], []);
    var res := BuildServers(serverReg, reg, s, servers);
    if res.Ok? {
      StartOk(nets, servers, flat, reg);
      ServersCorrect(env, serverReg, s, servers);
      var (t, flats, targets) := res.value;
      assert TargetsOk(t, flats[i].item.children, targets[i]);
      RunningMeans(env, t, flats[i].item.children[k].ref.name, depth);
      ServerRefSame(nets, servers, flat, reg, i, k, depth);
    }
  }

  // ------------------------------------------------------------ building twice

  ghost predicate FlatIn(known: set<string>, cs: seq<Child>) {
    forall k :: 0 <= k < |cs| ==> cs[k].ref.Name? && cs[k].ref.name in known
  }

  lemma {:induction false} FlatServersHaveNoGens(flat: Nets, known: set<string>, servers: seq<Server>)
    requires forall i :: 0 <= i < |servers| ==> FlatIn(known, servers[i].item.children)
    ensures CoversServers(flat, servers) && ServersDistinct(servers) && ServersGens(servers) == {}
    ensures ServersMention(servers) <= known && FlatServers(servers) == servers
  {
    if servers != [] {
      var cs := servers[0].item.children;
      assert FlatIn(known, cs);
      FlatHasNoGens(flat, ServerPrefix(servers[0].name), cs);
      forall m | m in Mentioned(cs)
        ensures m in known
      {
        FlatMentions(cs, m);
      }
      FlatServersHaveNoGens(flat, known, servers[1..]);
    }
  }

  lemma RebuildApart(env: Env, t: State, m: string, n: string)
    requires Complete(env, t) && m in t.config && n in t.config && m != n
    ensures NetGens(t.config, m) !! NetGens(t.config, n)
  {
    CompleteEntry(env, t, m);
    CompleteEntry(env, t, n);
    if m !in t.cache && n !in t.cache {
      assert NetGens(env.original, m) !! NetGens(env.original, n);
    }
  }

  lemma RebuildEntry(env: Env, t: State, n: string)
    requires Complete(env, t) && n in t.config
    ensures Covers(env.flat, n, t.config[n]) && NamesOk(Env(t.config, env.flat, env.reg), t.config[n].children)
    ensures Distinct(NetPrefix(n), t.config[n].children) && NetGens(t.config, n) !! t.config.Keys
  {
    CompleteEntry(env, t, n);
  }

  lemma RebuildEnv(env: Env, t: State)
    requires Complete(env, t)
    ensures EnvOk(Env(t.config, env.flat, env.reg))
    ensures forall n :: n in t.config ==> NetGens(t.config, n) !! t.config.Keys
  {
    var again := Env(t.config, env.flat, env.reg);
    forall n | n in t.config
      ensures Covers(env.flat, n, t.config[n]) && NamesOk(again, t.config[n].children)
      ensures Distinct(NetPrefix(n), t.config[n].children) && NetGens(t.config, n) !! t.config.Keys
    {
      RebuildEntry(env, t, n);
    }
    forall m, n | m in t.config && n in t.config && m != n
      ensures NetGens(t.config, m) !! NetGens(t.config, n)
    {
      RebuildApart(env, t, m, n);
    }
  }

  /** The result of a build is itself a config that can be built. */
  lemma RebuildStarts(env: Env, t: State, flats: seq<Server>, targets: seq<seq<nat>>)
    requires Complete(env, t) && ServersTargetsOk(t, flats, targets)
    ensures var again := Env(t.config, env.flat, env.reg);
            && EnvOk(again)
            && Inv(again, State(t.config, map[], []), {}, {})
            && ServersReady(again, State(t.config, map[], []), flats)
            && FlatServers(flats) == flats
  {
    RebuildEnv(env, t);
    forall i | 0 <= i < |flats|
      ensures FlatIn(t.config.Keys, flats[i].item.children)
    {
      assert TargetsOk(t, flats[i].item.children, targets[i]);
    }
    FlatServersHaveNoGens(env.flat, t.config.Keys, flats);
  }

  /** Building the built config again succeeds and changes neither nets nor servers. */
  lemma RebuildChangesNothing(nets: Nets, servers: seq<Server>, flat: Nets, reg: Registry, serverReg: Registry)
    requires Start(nets, servers, flat, reg)
    ensures var res := BuildServers(serverReg, reg, State(nets, map[], []), servers);
            res.Ok? ==>
              var again := BuildServers(serverReg, reg, State(res.value.0.config, map[], []), res.value.1);
              again.Ok? && again.value.0.config == res.value.0.config && again.value.1 == res.value.1
  {
    var env, s := Env(nets, flat, reg), State(nets, map[], []);
    var res := BuildServers(serverReg, reg, s, servers);
    if res.Ok? {
      StartOk(nets, servers, flat, reg);
      ServersCorrect(env, serverReg, s, servers);
      var (t, flats, targets) := res.value;
      BuiltIsSound(env, serverReg, s, t, servers, flats, targets);
      RebuildStarts(env, t, flats, targets);
      var env2, s2 := Env(t.config, flat, reg), State(t.config, map[], []);
      ServersCorrect(env2, serverReg, s2, flats);
      var again := BuildServers(serverReg, reg, s2, flats);
      if again.Err? {
        FailedIsUnsound(env2, serverReg, flats, again.error);
        SoundAgain(flat, reg, serverReg, servers);
        assert false;
      } else {
        SameConfig(env, env2, s, s2, t, again.value.0, flats, targets, again.value.2);
      }
    }
  }

  lemma SoundAgain(flat: Nets, reg: Registry, serverReg: Registry, servers: seq<Server>)
    requires Sound(flat, reg, serverReg, servers) && FlatServers(FlatServers(servers)) == FlatServers(servers)
    ensures Sound(flat, reg, serverReg, FlatServers(servers))
  {
    var flats := FlatServers(servers);
    forall i | 0 <= i < |flats|
      ensures ItemOk(serverReg, flats[i].item)
    {
      assert ItemOk(serverReg, servers[i].item);
    }
  }

  lemma SameConfig(env: Env, env2: Env, s: State, s2: State, t: State, u: State, flats: seq<Server>,
                   targets: seq<seq<nat>>, targets2: seq<seq<nat>>)
    requires env2 == Env(t.config, env.flat, env.reg) && s.cache == s2.cache == map[]
    requires CacheOk(env, t) && CacheOk(env2, u) && ConfigOk(env2, u, {})
    requires ServersTargetsOk(t, flats, targets) && NewFromServers(env, s, t, flats)
    requires ServersTargetsOk(u, flats, targets2) && NewFromServers(env2, s2, u, flats)
    ensures u.config == t.config
  {
    FinalConfig(env2, u);
    forall n | n in u.cache
      ensures n in t.config && u.config[n] == t.config[n]
    {
      CachedIsReachable(env2, s2, u, flats, targets2, n);
      CachedIsReachable(env, s, t, flats, targets, n);
      CachedIsFlat(env, t, n);
      CachedIsFlat(env2, u, n);
    }
    SameEntries(t.config, u.config, u.cache.Keys);
  }

  lemma SameEntries(a: Nets, b: Nets, built: set<string>)
    requires b.Keys == a.Keys + built
    requires forall n :: n in built ==> n in a && b[n] == a[n]
    requires forall n :: n in b && n !in built ==> n in a && b[n] == a[n]
    ensures a == b
  {
    assert b.Keys == a.Keys;
  }
}
