/** Entries that no server reaches do not matter: the build neither reads nor changes
    them, so its results need fresh names only for the entries that are reached. */
module NetUnreached {
  import opened Outcomes
  import opened NetConfig
  import opened NetBuilder
  import opened NetFlattening
  import opened NetBuilderProof
  import opened NetMeaning

  // ------------------------------------------------------------ a frame for the build

  /** Neither mentioned nor generated below these references. */
  ghost predicate Avoids(names: set<string>, prefix: seq<string>, cs: seq<Child>) {
    Mentioned(cs) !! names && GenNames(prefix, cs) !! names
  }

  ghost predicate AvoidsRef(names: set<string>, prefix: seq<string>, c: Child) {
    MentionedIn(c.ref) !! names && RefGens(prefix, c) !! names
  }

  /** The builder's state knows nothing of these names. */
  ghost predicate Ignores(s: State, names: set<string>) {
    && names !! s.config.Keys && names !! s.cache.Keys
    && forall n :: n in s.config ==> Avoids(names, NetPrefix(n), s.config[n].children)
  }

  function With(s: State, more: Nets): State { s.(config := s.config + more) }

  /** The same result with `more` added to the config. */
  ghost predicate GetAgrees(more: Nets, small: Fallible<(State, string, nat)>, large: Fallible<(State, string, nat)>) {
    match small
    case Err(e) => large == Err(e)
    case Ok((t, name, id)) => large == Ok((With(t, more), name, id)) && Ignores(t, more.Keys) && name !in more
  }

  ghost predicate ListAgrees<T>(more: Nets, small: Fallible<(State, T, seq<nat>)>, large: Fallible<(State, T, seq<nat>)>) {
    match small
    case Err(e) => large == Err(e)
    case Ok((t, x, ids)) => large == Ok((With(t, more), x, ids)) && Ignores(t, more.Keys)
  }

  ghost predicate NamesAvoid(names: set<string>, cs: seq<Child>) {
    IsFlat(cs) && Mentioned(cs) !! names
  }

  lemma FlatAvoids(names: set<string>, prefix: seq<string>, cs: seq<Child>)
    requires NamesAvoid(names, cs)
    ensures Avoids(names, prefix, cs)
  {
    FlatHasNoGens(map[], prefix, cs);
  }

  lemma PutIgnores(s: State, names: set<string>, name: string, net: Net)
    requires Ignores(s, names) && name !in names && Avoids(names, NetPrefix(name), net.children)
    ensures Ignores(s.(config := s.config[name := net]), names)
  {
  }

  /** What becomes of a reference once its entry has been built. */
  ghost function AfterBuild(name: string, built: Fallible<(State, Net, seq<nat>)>): Fallible<(State, string, nat)> {
    match built
    case Err(e) => Err(e)
    case Ok((t, item, ids)) =>
      Ok((State(t.config[name := item], t.cache[name := |t.arena|], t.arena + [Running(name, item, ids)]), name, |t.arena|))
  }

  lemma GetBuilds(reg: Registry, s: State, r: NetRef, prefix: seq<string>, path: seq<string>, name: string, config: Nets)
    requires !r.Garbage? && name == RefName(r, prefix, path) && config == Inserted(s.config, r, name)
    requires name !in s.cache && name in config
    ensures Get(reg, s, r, prefix, path)
            == AfterBuild(name, Build(reg, reg, s.(config := config[name := PLACEHOLDER]), NetPrefix(name), config[name]))
  {
  }

  lemma {:induction false} GetWith(reg: Registry, s: State, more: Nets, c: Child, prefix: seq<string>)
    requires Ignores(s, more.Keys) && AvoidsRef(more.Keys, prefix, c)
    ensures GetAgrees(more, Get(reg, s, c.ref, prefix, c.path), Get(reg, With(s, more), c.ref, prefix, c.path))
    decreases Takeable(s.config, s.cache), RefSize(c.ref), 0
  {
    if !c.ref.Garbage? {
      var name := RefName(c.ref, prefix, c.path);
      var config := Inserted(s.config, c.ref, name);
      NameAvoids(more.Keys, prefix, c);
      InsertIgnores(s, more.Keys, prefix, c);
      InsertedWith(s.config, more, c.ref, name);
      if name !in s.cache && name in config {
        TakenDecreases(s.config, config, s.cache, name, c.ref);
        var taken := s.(config := config[name := PLACEHOLDER]);
        PutIgnores(s.(config := config), more.Keys, name, PLACEHOLDER);
        BuildWith(reg, reg, taken, more, NetPrefix(name), config[name]);
        GetBuilds(reg, s, c.ref, prefix, c.path, name, config);
        GetBuilds(reg, With(s, more), c.ref, prefix, c.path, name, config + more);
        assert With(taken, more) == With(s, more).(config := (config + more)[name := PLACEHOLDER]);
        PutBackWith(more, name, Build(reg, reg, taken, NetPrefix(name), config[name]),
                    Build(reg, reg, With(taken, more), NetPrefix(name), config[name]));
      }
    }
  }

  lemma InsertedWith(config: Nets, more: Nets, r: NetRef, name: string)
    requires !r.Garbage? && name !in more
    ensures Inserted(config + more, r, name) == Inserted(config, r, name) + more
    ensures Inserted(config, r, name)[name := PLACEHOLDER] + more == (Inserted(config, r, name) + more)[name := PLACEHOLDER]
  {
  }

  lemma NameAvoids(names: set<string>, prefix: seq<string>, c: Child)
    requires AvoidsRef(names, prefix, c) && !c.ref.Garbage?
    ensures RefName(c.ref, prefix, c.path) !in names
  {
    if c.ref.Inline? {
      assert GenName(prefix, c.path) in RefGens(prefix, c);
    }
  }

  lemma InsertIgnores(s: State, names: set<string>, prefix: seq<string>, c: Child)
    requires Ignores(s, names) && AvoidsRef(names, prefix, c) && !c.ref.Garbage?
    ensures Ignores(s.(config := Inserted(s.config, c.ref, RefName(c.ref, prefix, c.path))), names)
  {
    NameAvoids(names, prefix, c);
    if c.ref.Inline? {
      PutIgnores(s, names, GenName(prefix, c.path), c.ref.net);
    }
  }

  lemma PutBackWith(more: Nets, name: string, small: Fallible<(State, Net, seq<nat>)>, large: Fallible<(State, Net, seq<nat>)>)
    requires name !in more && ListAgrees(more, small, large)
    requires small.Ok? ==> NamesAvoid(more.Keys, small.value.1.children)
    ensures GetAgrees(more, AfterBuild(name, small), AfterBuild(name, large))
  {
    if small.Ok? {
      var (t, item, ids) := small.value;
      FlatAvoids(more.Keys, NetPrefix(name), item.children);
      PutIgnores(t, more.Keys, name, item);
      assert (t.config + more)[name := item] == t.config[name := item] + more;
    }
  }

  lemma {:induction false} BuildWith(kinds: Registry, reg: Registry, s: State, more: Nets, prefix: seq<string>, item: Net)
    requires Ignores(s, more.Keys) && Avoids(more.Keys, prefix, item.children)
    ensures ListAgrees(more, Build(kinds, reg, s, prefix, item), Build(kinds, reg, With(s, more), prefix, item))
    ensures var built := Build(kinds, reg, s, prefix, item);
            built.Ok? ==> NamesAvoid(more.Keys, built.value.1.children)
    decreases Takeable(s.config, s.cache), ChildrenSize(item.children), 2
  {
    VisitWith(reg, s, more, prefix, item.children);
    BuildAfterVisit(kinds, reg, s, prefix, item);
    BuildAfterVisit(kinds, reg, With(s, more), prefix, item);
    AfterVisitWith(kinds, more, item, Visit(reg, s, prefix, item.children), Visit(reg, With(s, more), prefix, item.children));
  }

  lemma AfterVisitWith(kinds: Registry, more: Nets, item: Net,
                       small: Fallible<(State, seq<Child>, seq<nat>)>, large: Fallible<(State, seq<Child>, seq<nat>)>)
    requires ListAgrees(more, small, large) && (small.Ok? ==> NamesAvoid(more.Keys, small.value.1))
    ensures ListAgrees(more, AfterVisit(kinds, item, small), AfterVisit(kinds, item, large))
    ensures var built := AfterVisit(kinds, item, small);
            built.Ok? ==> NamesAvoid(more.Keys, built.value.1.children)
  {
  }

  lemma {:induction false} VisitWith(reg: Registry, s: State, more: Nets, prefix: seq<string>, cs: seq<Child>)
    requires Ignores(s, more.Keys) && Avoids(more.Keys, prefix, cs)
    ensures ListAgrees(more, Visit(reg, s, prefix, cs), Visit(reg, With(s, more), prefix, cs))
    ensures var visited := Visit(reg, s, prefix, cs);
            visited.Ok? ==> NamesAvoid(more.Keys, visited.value.1)
    decreases Takeable(s.config, s.cache), ChildrenSize(cs), 1
  {
    if cs != [] {
      GetWith(reg, s, more, cs[0], prefix);
      var got := Get(reg, s, cs[0].ref, prefix, cs[0].path);
      if got.Ok? {
        var (t, name, id) := got.value;
        Shrinks(Takeable(s.config, s.cache), Takeable(t.config, t.cache));
        VisitWith(reg, t, more, prefix, cs[1..]);
        var visited := Visit(reg, t, prefix, cs[1..]);
        if visited.Ok? {
          NamesAvoidNext(more.Keys, cs[0].path, name, visited.value.1);
        }
      }
    }
  }

  lemma NamesAvoidNext(names: set<string>, path: seq<string>, name: string, rest: seq<Child>)
    requires NamesAvoid(names, rest) && name !in names
    ensures NamesAvoid(names, [Child(path, Name(name))] + rest)
  {
    var cs := [Child(path, Name(name))] + rest;
    assert cs[1..] == rest;
  }

  ghost predicate ServersAvoid(names: set<string>, servers: seq<Server>) {
    ServersMention(servers) !! names && ServersGens(servers) !! names
  }

  /** Adding entries that nothing leads to changes nothing but that they are there. */
  lemma {:induction false} ServersWith(serverReg: Registry, reg: Registry, s: State, more: Nets, servers: seq<Server>)
    requires Ignores(s, more.Keys) && ServersAvoid(more.Keys, servers)
    ensures match BuildServers(serverReg, reg, s, servers)
            case Err(e) => BuildServers(serverReg, reg, With(s, more), servers) == Err(e)
            case Ok((t, flats, ids)) =>
              && BuildServers(serverReg, reg, With(s, more), servers) == Ok((With(t, more), flats, ids))
              && Ignores(t, more.Keys) && ServersAvoid(more.Keys, flats)
    decreases |servers|
  {
    if servers != [] {
      var prefix := ServerPrefix(servers[0].name);
      BuildWith(serverReg, reg, s, more, prefix, servers[0].item);
      var built := Build(serverReg, reg, s, prefix, servers[0].item);
      if built.Ok? {
        ServersWith(serverReg, reg, built.value.0, more, servers[1..]);
        var rest := BuildServers(serverReg, reg, built.value.0, servers[1..]);
        if rest.Ok? {
          FlatAvoids(more.Keys, prefix, built.value.1.children);
          ServersAvoidNext(more.Keys, Server(servers[0].name, built.value.1), rest.value.1);
        }
      }
    }
  }

  lemma ServersAvoidNext(names: set<string>, server: Server, rest: seq<Server>)
    requires Avoids(names, ServerPrefix(server.name), server.item.children) && ServersAvoid(names, rest)
    ensures ServersAvoid(names, [server] + rest)
  {
    assert ([server] + rest)[1..] == rest;
  }

  // ------------------------------------------------------------ what servers reach

  ghost predicate Mentions(nets: Nets, a: string, b: string) {
    a in nets && b in Mentioned(nets[a].children)
  }

  /** From a name that a server mentions, each name mentioned by the entry before it. */
  ghost predicate Trail(nets: Nets, servers: seq<Server>, p: seq<string>) {
    && |p| > 0 && p[0] in ServersMention(servers)
    && forall i :: 0 <= i < |p| - 1 ==> Mentions(nets, p[i], p[i + 1])
  }

  ghost predicate TrailTo(nets: Nets, servers: seq<Server>, p: seq<string>, n: string) {
    Trail(nets, servers, p) && p[|p| - 1] == n
  }

  ghost predicate Reached(nets: Nets, servers: seq<Server>, n: string) {
    exists p :: TrailTo(nets, servers, p, n)
  }

  ghost function ReachedPart(nets: Nets, servers: seq<Server>): Nets {
    map n | n in nets && Reached(nets, servers, n) :: nets[n]
  }

  ghost function OtherPart(nets: Nets, servers: seq<Server>): Nets {
    map n | n in nets && !Reached(nets, servers, n) :: nets[n]
  }

  /** Generated names are fresh as far as servers reach. */
  ghost predicate FreshWhereReached(nets: Nets, servers: seq<Server>) {
    var part := ReachedPart(nets, servers);
    Fresh(part, servers) && AllGens(part, servers) !! nets.Keys
  }

  lemma ReachedNext(nets: Nets, servers: seq<Server>, a: string, b: string)
    requires Reached(nets, servers, a) && Mentions(nets, a, b)
    ensures Reached(nets, servers, b)
  {
    var p :| TrailTo(nets, servers, p, a);
    assert TrailTo(nets, servers, p + [b], b);
  }

  lemma MentionedIsReached(nets: Nets, servers: seq<Server>, n: string)
    requires n in ServersMention(servers)
    ensures Reached(nets, servers, n)
  {
    assert TrailTo(nets, servers, [n], n);
  }

  /** What is not reached is unknown to the build of what is. */
  lemma OthersAreIgnored(nets: Nets, servers: seq<Server>)
    requires FreshWhereReached(nets, servers)
    ensures var part, rest := ReachedPart(nets, servers), OtherPart(nets, servers);
            && Ignores(State(part, map[], []), rest.Keys) && ServersAvoid(rest.Keys, servers)
            && With(State(part, map[], []), rest) == State(nets, map[], [])
  {
    var part, rest := ReachedPart(nets, servers), OtherPart(nets, servers);
    forall n | n in part
      ensures Avoids(rest.Keys, NetPrefix(n), part[n].children)
    {
      forall m | m in Mentioned(part[n].children)
        ensures m !in rest
      {
        ReachedNext(nets, servers, n, m);
      }
      assert NetGens(part, n) <= NetsGens(part);
    }
    forall m | m in ServersMention(servers)
      ensures m !in rest
    {
      MentionedIsReached(nets, servers, m);
    }
    assert part + rest == nets;
  }

  /** Fresh everywhere is fresh where it matters. */
  lemma FreshIsFreshWhereReached(nets: Nets, servers: seq<Server>)
    requires Fresh(nets, servers)
    ensures FreshWhereReached(nets, servers)
  {
    var part := ReachedPart(nets, servers);
    forall n | n in part
      ensures NetGens(part, n) == NetGens(nets, n) && NetGens(nets, n) <= NetsGens(nets)
    {
    }
    assert NetsGens(part) <= NetsGens(nets);
  }

  ghost predicate StartWhereReached(nets: Nets, servers: seq<Server>, flat: Nets, reg: Registry) {
    CIRCULAR !in reg && FreshWhereReached(nets, servers) && IsFlattening(flat, ReachedPart(nets, servers), servers)
  }

  /** Building the whole config is building the reached part, with the rest left alone. */
  lemma BuildIsPartBuild(nets: Nets, servers: seq<Server>, flat: Nets, reg: Registry, serverReg: Registry)
    requires StartWhereReached(nets, servers, flat, reg)
    ensures Start(ReachedPart(nets, servers), servers, flat, reg)
    ensures var rest := OtherPart(nets, servers);
            match BuildServers(serverReg, reg, State(ReachedPart(nets, servers), map[], []), servers)
            case Err(e) => BuildServers(serverReg, reg, State(nets, map[], []), servers) == Err(e)
            case Ok((t, flats, ids)) =>
              && BuildServers(serverReg, reg, State(nets, map[], []), servers) == Ok((With(t, rest), flats, ids))
              && Ignores(t, rest.Keys) && ServersAvoid(rest.Keys, flats)
  {
    OthersAreIgnored(nets, servers);
    ServersWith(serverReg, reg, State(ReachedPart(nets, servers), map[], []), OtherPart(nets, servers), servers);
  }

  /** The build succeeds exactly when what servers reach is sound; it then leaves the
      running nets and the config that `BuiltExactly` describes. */
  lemma ReachedBuildIsExact(nets: Nets, servers: seq<Server>, flat: Nets, reg: Registry, serverReg: Registry)
    requires StartWhereReached(nets, servers, flat, reg)
    ensures var res := BuildServers(serverReg, reg, State(nets, map[], []), servers);
            && (res.Ok? <==> Sound(flat, reg, serverReg, servers))
            && (res.Ok? ==>
                  && res.value.1 == FlatServers(servers)
                  && BuiltExactly(nets, flat, res.value.1, res.value.0)
                  && ServersTargetsOk(res.value.0, res.value.1, res.value.2))
  {
    var part, rest := ReachedPart(nets, servers), OtherPart(nets, servers);
    BuildIsPartBuild(nets, servers, flat, reg, serverReg);
    BuildSucceedsExactly(part, servers, flat, reg, serverReg);
    if Sound(flat, reg, serverReg, servers) {
      BuildResult(part, servers, flat, reg, serverReg);
      OthersAreIgnored(nets, servers);
      var (t, flats, ids) := BuildServers(serverReg, reg, State(part, map[], []), servers).value;
      PartsAreApart(nets, servers);
      WithRest(nets, part, rest, flat, flats, t);
      TargetsWith(t, rest, flats, ids);
    }
  }

  lemma PartsAreApart(nets: Nets, servers: seq<Server>)
    ensures ReachedPart(nets, servers).Keys !! OtherPart(nets, servers).Keys
    ensures ReachedPart(nets, servers) + OtherPart(nets, servers) == nets
  {
  }

  lemma TargetsWith(t: State, rest: Nets, flats: seq<Server>, ids: seq<seq<nat>>)
    requires ServersTargetsOk(t, flats, ids)
    ensures ServersTargetsOk(With(t, rest), flats, ids)
  {
    forall i | 0 <= i < |flats|
      ensures TargetsOk(With(t, rest), flats[i].item.children, ids[i])
    {
      assert TargetsOk(t, flats[i].item.children, ids[i]);
    }
  }

  lemma WithRest(nets: Nets, part: Nets, rest: Nets, flat: Nets, flats: seq<Server>, t: State)
    requires nets == part + rest && part.Keys !! rest.Keys && rest.Keys !! t.config.Keys && rest.Keys !! t.cache.Keys
    requires BuiltExactly(part, flat, flats, t)
    ensures BuiltExactly(nets, flat, flats, With(t, rest))
  {
    var u := With(t, rest);
    assert u.config.Keys == nets.Keys + u.cache.Keys;
  }

  // ------------------------------------------------------------ meaning

  ghost predicate NetsAvoid(nets: Nets, names: set<string>) {
    forall n :: n in nets ==> Mentioned(nets[n].children) !! names
  }

  /** Entries that are never mentioned have no part in what a reference means. */
  lemma {:induction false} UnfoldWith(nets: Nets, more: Nets, r: NetRef, depth: nat)
    requires NetsAvoid(nets, more.Keys) && nets.Keys !! more.Keys && MentionedIn(r) !! more.Keys
    ensures Unfold(nets + more, r, depth) == Unfold(nets, r, depth)
    decreases depth, 1, 0
  {
    match r
    case Garbage =>
    case Inline(net) => UnfoldNetWith(nets, more, net, depth);
    case Name(n) =>
      assert n !in more;
      if n in nets {
        UnfoldNetWith(nets, more, nets[n], depth);
      }
  }

  lemma {:induction false} UnfoldNetWith(nets: Nets, more: Nets, net: Net, depth: nat)
    requires NetsAvoid(nets, more.Keys) && nets.Keys !! more.Keys && Mentioned(net.children) !! more.Keys
    ensures UnfoldNet(nets + more, net, depth) == UnfoldNet(nets, net, depth)
    decreases depth, 0, 0
  {
    if depth > 0 {
      UnfoldAllWith(nets, more, net.children, depth - 1);
    }
  }

  lemma {:induction false} UnfoldAllWith(nets: Nets, more: Nets, cs: seq<Child>, depth: nat)
    requires NetsAvoid(nets, more.Keys) && nets.Keys !! more.Keys && Mentioned(cs) !! more.Keys
    ensures UnfoldAll(nets + more, cs, depth) == UnfoldAll(nets, cs, depth)
    decreases depth, 2, |cs|
  {
    if cs != [] {
      UnfoldWith(nets, more, cs[0].ref, depth);
      UnfoldAllWith(nets, more, cs[1..], depth);
    }
  }

  lemma {:induction false} ServerMentions(servers: seq<Server>, i: nat, k: nat)
    requires i < |servers| && k < |servers[i].item.children|
    ensures MentionedIn(servers[i].item.children[k].ref) <= ServersMention(servers)
  {
    if i > 0 {
      ServerMentions(servers[1..], i - 1, k);
    } else {
      ChildMentions(servers[0].item.children, k);
    }
  }

  lemma {:induction false} ChildMentions(cs: seq<Child>, k: nat)
    requires k < |cs|
    ensures MentionedIn(cs[k].ref) <= Mentioned(cs)
  {
    if k > 0 { ChildMentions(cs[1..], k - 1); }
  }

  /** A server reference becomes a plain name that means, recorded and running, what the
      reference meant in the whole config. */
  lemma ReachedBuildKeepsMeaning(nets: Nets, servers: seq<Server>, flat: Nets, reg: Registry, serverReg: Registry,
                                 i: nat, k: nat, depth: nat)
    requires StartWhereReached(nets, servers, flat, reg) && i < |servers| && k < |servers[i].item.children|
    ensures var res := BuildServers(serverReg, reg, State(nets, map[], []), servers);
            res.Ok? ==>
              var meant := Unfold(nets, servers[i].item.children[k].ref, depth);
              && res.value.1 == FlatServers(servers) && i < |res.value.2| && k < |res.value.2[i]|
              && Unfold(res.value.0.config, res.value.1[i].item.children[k].ref, depth) == meant
              && RunTree(res.value.0.arena, res.value.2[i][k], depth) == meant
  {
    var part, rest := ReachedPart(nets, servers), OtherPart(nets, servers);
    BuildIsPartBuild(nets, servers, flat, reg, serverReg);
    var res := BuildServers(serverReg, reg, State(part, map[], []), servers);
    if res.Ok? {
      BuildKeepsServers(part, servers, flat, reg, serverReg, i, k, depth);
      BuildRunsMeaning(part, servers, flat, reg, serverReg, i, k, depth);
      OthersAreIgnored(nets, servers);
      ServerMentions(servers, i, k);
      UnfoldWith(part, rest, servers[i].item.children[k].ref, depth);
      ServerMentions(res.value.1, i, k);
      UnfoldWith(res.value.0.config, rest, res.value.1[i].item.children[k].ref, depth);
    }
  }

  /** Building the result again changes nothing. */
  lemma ReachedRebuildChangesNothing(nets: Nets, servers: seq<Server>, flat: Nets, reg: Registry, serverReg: Registry)
    requires StartWhereReached(nets, servers, flat, reg)
    ensures var res := BuildServers(serverReg, reg, State(nets, map[], []), servers);
            res.Ok? ==>
              var again := BuildServers(serverReg, reg, State(res.value.0.config, map[], []), res.value.1);
              again.Ok? && again.value.0.config == res.value.0.config && again.value.1 == res.value.1
  {
    var part, rest := ReachedPart(nets, servers), OtherPart(nets, servers);
    BuildIsPartBuild(nets, servers, flat, reg, serverReg);
    var res := BuildServers(serverReg, reg, State(part, map[], []), servers);
    if res.Ok? {
      RebuildChangesNothing(part, servers, flat, reg, serverReg);
      ServersWith(serverReg, reg, State(res.value.0.config, map[], []), rest, res.value.1);
    }
  }

  // ------------------------------------------------------------ the default nets

  /** A server that refers to a default net the user has not defined gets a running net of
      that type, with the default options and no references. */
  lemma DefaultNetRuns(serverReg: Registry, reg: Registry, nets: Nets, servers: seq<Server>, localOptions: string, flat: Nets,
                       i: nat, k: nat, n: string)
    requires StartWhereReached(WithDefaults(nets, localOptions), servers, flat, reg)
    requires i < |servers| && k < |servers[i].item.children| && servers[i].item.children[k].ref == Name(n)
    requires IsDefault(n) && n !in nets
    ensures var res := BuildEntities(serverReg, reg, nets, servers, localOptions);
            res.Ok? ==>
              && i < |res.value.2| && k < |res.value.2[i]| && res.value.2[i][k] < |res.value.0.arena|
              && var a := res.value.0.arena[res.value.2[i][k]];
              && a.name == n && a.config.kind == n && a.targets == []
              && a.config.data == if n == "local" then localOptions else "null"
  {
    var all := WithDefaults(nets, localOptions);
    var res := BuildServers(serverReg, reg, State(all, map[], []), servers);
    if res.Ok? {
      ReachedBuildIsExact(all, servers, flat, reg, serverReg);
      ReachedBuildKeepsMeaning(all, servers, flat, reg, serverReg, i, k, 1);
      var (t, flats, targets) := res.value;
      assert Unfold(all, Name(n), 1) == Node(n, all[n].data, UnfoldAll(all, [], 0));
      LeafRuns(t, flats, targets, flat, i, k, n);
    }
  }

  lemma LeafRuns(t: State, flats: seq<Server>, targets: seq<seq<nat>>, flat: Nets, i: nat, k: nat, n: string)
    requires ServersTargetsOk(t, flats, targets) && i < |flats| && k < |flats[i].item.children|
    requires flats[i].item.children[k].ref == Name(n)
    requires forall x :: x in t.cache ==> t.cache[x] < |t.arena| && t.arena[t.cache[x]].name == x
    requires forall j :: 0 <= j < |t.arena| ==> EntryOk(flat, t.cache, t.arena, j)
    ensures k < |targets[i]| && targets[i][k] < |t.arena| && t.arena[targets[i][k]].name == n
    ensures RunTree(t.arena, targets[i][k], 1).Node?
    ensures RunTree(t.arena, targets[i][k], 1).kids == [] ==> t.arena[targets[i][k]].targets == []
  {
    assert TargetsOk(t, flats[i].item.children, targets[i]);
    var a := t.arena[targets[i][k]];
    assert EntryOk(flat, t.cache, t.arena, targets[i][k]);
    if a.targets != [] {
      assert a.config.children != [];
      assert |RunTrees(t.arena, a.config.children, a.targets, 0)| > 0;
    }
  }
}
