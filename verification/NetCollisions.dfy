/** What happens when generated names collide (src/rabbit_digger.rs, get_net inserts over
    whatever is there): exactly when it does no harm, and configs in which it does. */
module NetCollisions {
  import opened Outcomes
  import opened NetConfig
  import opened NetBuilder
  import opened NetFlattening
  import opened NetBuilderProof
  import opened NetMeaning
  import opened NetFreshness
  import opened RunningNets

  // ------------------------------------------------------------ replacing an entry

  /** The two nets mean the same: they unfold alike at every depth. */
  ghost predicate Alike(nets: Nets, a: Net, b: Net) {
    forall depth: nat :: UnfoldNet(nets, a, depth) == UnfoldNet(nets, b, depth)
  }

  /** Replacing an entry by a net that means the same changes the meaning of nothing. */
  lemma {:induction false} ReplacedUnfolds(nets: Nets, g: string, b: Net, r: NetRef, depth: nat)
    requires g in nets && Alike(nets, nets[g], b)
    ensures Unfold(nets[g := b], r, depth) == Unfold(nets, r, depth)
    decreases depth, 1, 0
  {
    match r
    case Garbage =>
    case Inline(net) => ReplacedNetUnfolds(nets, g, b, net, depth);
    case Name(n) =>
      if n == g {
        ReplacedNetUnfolds(nets, g, b, b, depth);
        assert UnfoldNet(nets, nets[g], depth) == UnfoldNet(nets, b, depth);
      } else if n in nets {
        ReplacedNetUnfolds(nets, g, b, nets[n], depth);
      }
  }

  lemma {:induction false} ReplacedNetUnfolds(nets: Nets, g: string, b: Net, net: Net, depth: nat)
    requires g in nets && Alike(nets, nets[g], b)
    ensures UnfoldNet(nets[g := b], net, depth) == UnfoldNet(nets, net, depth)
    decreases depth, 0, 0
  {
    if depth > 0 {
      ReplacedAllUnfold(nets, g, b, net.children, depth - 1);
    }
  }

  lemma {:induction false} ReplacedAllUnfold(nets: Nets, g: string, b: Net, cs: seq<Child>, depth: nat)
    requires g in nets && Alike(nets, nets[g], b)
    ensures UnfoldAll(nets[g := b], cs, depth) == UnfoldAll(nets, cs, depth)
    decreases depth, 2, |cs|
  {
    if cs != [] {
      ReplacedUnfolds(nets, g, b, cs[0].ref, depth);
      ReplacedAllUnfold(nets, g, b, cs[1..], depth);
    }
  }

  // ------------------------------------------------------------ one net in two configs

  /** A net that mentions only what both configs define means the same in both, if both
      have the same flattening. */
  lemma {:induction false} MeantSame(flat: Nets, v: Nets, w: Nets, net: Net, depth: nat)
    requires Represents(flat, v) && Represents(flat, w) && w.Keys <= v.Keys && v.Keys <= flat.Keys
    requires Closed(flat, w, Mentioned(net.children))
    ensures UnfoldNet(v, net, depth) == UnfoldNet(w, net, depth)
    decreases depth, 0, 0
  {
    if depth > 0 {
      MeantAllSame(flat, v, w, net.children, depth - 1);
    }
  }

  lemma {:induction false} MeantAllSame(flat: Nets, v: Nets, w: Nets, cs: seq<Child>, depth: nat)
    requires Represents(flat, v) && Represents(flat, w) && w.Keys <= v.Keys && v.Keys <= flat.Keys
    requires Closed(flat, w, Mentioned(cs))
    ensures UnfoldAll(v, cs, depth) == UnfoldAll(w, cs, depth)
    decreases depth, 2, |cs|
  {
    if cs != [] {
      assert MentionedIn(cs[0].ref) <= Mentioned(cs) && Mentioned(cs[1..]) <= Mentioned(cs);
      MeantAllSame(flat, v, w, cs[1..], depth);
      match cs[0].ref
      case Garbage =>
      case Inline(net) => MeantSame(flat, v, w, net, depth);
      case Name(n) =>
        assert n in Mentioned(cs);
        if n in w {
          UnfoldNetSame(flat, v, n, v[n], depth);
          UnfoldNetSame(flat, w, n, w[n], depth);
        }
    }
  }

  // ------------------------------------------------------------ two nets at one path

  /** Whatever inline net comes second under a generated name, in whatever state: it is
      recorded over the first but never built, and the reference gets the first net. */
  lemma SecondSharesFirst(reg: Registry, s: State, prefix: seq<string>, path: seq<string>, a: Net, b: Net)
    requires Get(reg, s, Inline(a), prefix, path).Ok?
    ensures var (t, g, id) := Get(reg, s, Inline(a), prefix, path).value;
            && g == GenName(prefix, path) && g in t.cache && t.cache[g] == id
            && Get(reg, t, Inline(b), prefix, path) == Ok((t.(config := t.config[g := b]), g, id))
  {
  }

  /** References come back as flat references, in any state. */
  lemma {:induction false} VisitFlattens(reg: Registry, s: State, prefix: seq<string>, cs: seq<Child>)
    requires Visit(reg, s, prefix, cs).Ok?
    ensures Visit(reg, s, prefix, cs).value.1 == FlatChildren(prefix, cs)
    decreases |cs|
  {
    if cs != [] {
      var got := Get(reg, s, cs[0].ref, prefix, cs[0].path);
      VisitFlattens(reg, got.value.0, prefix, cs[1..]);
    }
  }

  lemma FirstIsFlat(reg: Registry, s: State, prefix: seq<string>, path: seq<string>, a: Net)
    requires Get(reg, s, Inline(a), prefix, path).Ok? && GenName(prefix, path) !in s.cache
    ensures var (t, g, id) := Get(reg, s, Inline(a), prefix, path).value;
            && id < |t.arena| && t.arena[id].name == g && t.arena[id].config == FlatNet(g, a)
            && g in t.config && t.config[g] == FlatNet(g, a)
  {
    var g := GenName(prefix, path);
    var taken := s.(config := s.config[g := a][g := PLACEHOLDER]);
    assert s.config[g := a][g] == a;
    VisitFlattens(reg, taken, NetPrefix(g), a.children);
  }

  function LiveOf(s: State): Live { Live(s.config, s.cache, s.arena) }

  /** The record keeps describing what runs exactly when the second net is the flat form
      of the first: it must have no inline net of its own. */
  lemma SecondIsRecordedIff(reg: Registry, s: State, prefix: seq<string>, path: seq<string>, a: Net, b: Net)
    requires Get(reg, s, Inline(a), prefix, path).Ok? && GenName(prefix, path) !in s.cache
    requires Consistent(LiveOf(Get(reg, s, Inline(a), prefix, path).value.0))
    ensures var (t, g, _) := Get(reg, s, Inline(a), prefix, path).value;
            Consistent(LiveOf(Get(reg, t, Inline(b), prefix, path).value.0)) <==> b == FlatNet(g, a)
  {
    var (t, g, id) := Get(reg, s, Inline(a), prefix, path).value;
    SecondSharesFirst(reg, s, prefix, path, a, b);
    FirstIsFlat(reg, s, prefix, path, a);
    var u := t.(config := t.config[g := b]);
    if b == FlatNet(g, a) {
      assert t.config[g := b] == t.config;
    } else {
      assert !Describes(u.cache, u.config[g], u.arena[u.cache[g]]);
    }
  }

  lemma EnvRepresents(env: Env)
    requires EnvOk(env)
    ensures Represents(env.flat, env.original)
  {
    forall n | n in env.original
      ensures Covers(env.flat, n, env.original[n]) && Closed(env.flat, env.original, Mentioned(env.original[n].children))
    {
    }
  }

  /** Running net `id` means what `net` means in `nets`. */
  ghost predicate RunsAs(arena: seq<Running>, id: nat, nets: Nets, net: Net) {
    forall depth: nat :: RunTree(arena, id, depth) == UnfoldNet(nets, net, depth)
  }

  /** The reference `r` in one config means what `net` means in another. */
  ghost predicate MeansAs(config: Nets, r: NetRef, nets: Nets, net: Net) {
    forall depth: nat :: Unfold(config, r, depth) == UnfoldNet(nets, net, depth)
  }

  lemma RunsAsBothIff(arena: seq<Running>, id: nat, nets: Nets, a: Net, b: Net)
    requires RunsAs(arena, id, nets, a)
    ensures RunsAs(arena, id, nets, b) <==> Alike(nets, a, b)
  {
    forall depth: nat
      ensures RunTree(arena, id, depth) == UnfoldNet(nets, b, depth) <==>
              UnfoldNet(nets, a, depth) == UnfoldNet(nets, b, depth)
    {
      assert RunTree(arena, id, depth) == UnfoldNet(nets, a, depth);
    }
    if Alike(nets, a, b) {
      forall depth: nat ensures RunTree(arena, id, depth) == UnfoldNet(nets, b, depth) {
        assert UnfoldNet(nets, a, depth) == UnfoldNet(nets, b, depth);
      }
    }
    if RunsAs(arena, id, nets, b) {
      forall depth: nat ensures UnfoldNet(nets, a, depth) == UnfoldNet(nets, b, depth) {
        assert RunTree(arena, id, depth) == UnfoldNet(nets, b, depth);
      }
    }
  }

  lemma MeansAsBoth(config: Nets, r: NetRef, nets: Nets, a: Net, b: Net)
    requires MeansAs(config, r, nets, a) && MeansAs(config, r, nets, b)
    ensures Alike(nets, a, b)
  {
    forall depth: nat ensures UnfoldNet(nets, a, depth) == UnfoldNet(nets, b, depth) {
      assert Unfold(config, r, depth) == UnfoldNet(nets, a, depth) && Unfold(config, r, depth) == UnfoldNet(nets, b, depth);
    }
  }

  /** What the two references run into means what the first net meant; so the second
      reference is served right exactly when the two nets mean the same. In any state of
      a build, also below nets that are being built. */
  lemma SecondRunsRightIff(env: Env, s: State, stack: set<string>, reserved: set<string>, prefix: seq<string>,
                           path: seq<string>, a: Net, b: Net)
    requires EnvOk(env) && Inv(env, s, stack, reserved)
    requires ReadyRef(env, s, stack, reserved, prefix, Child(path, Inline(a)))
    requires Get(env.reg, s, Inline(a), prefix, path).Ok?
    ensures var t := Get(env.reg, s, Inline(a), prefix, path).value.0;
            var second := Get(env.reg, t, Inline(b), prefix, path);
            && second.Ok?
            && RunsAs(second.value.0.arena, second.value.2, env.original, a)
            && (RunsAs(second.value.0.arena, second.value.2, env.original, b) <==> Alike(env.original, a, b))
  {
    var (t, g, id) := Get(env.reg, s, Inline(a), prefix, path).value;
    SecondSharesFirst(env.reg, s, prefix, path, a, b);
    GetCorrect(env, s, stack, reserved, prefix, Child(path, Inline(a)));
    FirstRuns(env, t, g, a);
    RunsAsBothIff(t.arena, id, env.original, a, b);
  }

  lemma FirstRuns(env: Env, t: State, g: string, a: Net)
    requires EnvOk(env) && CacheOk(env, t) && g in t.cache
    requires Covers(env.flat, g, a) && Closed(env.flat, env.original, Mentioned(a.children))
    ensures RunsAs(t.arena, t.cache[g], env.original, a)
  {
    EnvRepresents(env);
    forall depth: nat
      ensures RunTree(t.arena, t.cache[g], depth) == UnfoldNet(env.original, a, depth)
    {
      RunningMeans(env, t, g, depth);
      UnfoldNetSame(env.flat, env.original, g, a, depth);
    }
  }

  lemma AfterFirst(env: Env, s: State, reserved: set<string>, prefix: seq<string>, path: seq<string>, a: Net)
    requires EnvOk(env) && Inv(env, s, {}, reserved)
    requires ReadyRef(env, s, {}, reserved, prefix, Child(path, Inline(a)))
    requires Get(env.reg, s, Inline(a), prefix, path).Ok?
    ensures var (t, g, _) := Get(env.reg, s, Inline(a), prefix, path).value;
            && Complete(env, t) && g in t.cache
            && Covers(env.flat, g, a) && Closed(env.flat, env.original, Mentioned(a.children))
  {
    GetCorrect(env, s, {}, reserved, prefix, Child(path, Inline(a)));
    NothingReserved(env, Get(env.reg, s, Inline(a), prefix, path).value.0, reserved);
  }

  lemma NothingReserved(env: Env, t: State, reserved: set<string>)
    requires Inv(env, t, {}, reserved)
    ensures Inv(env, t, {}, {})
  {
  }

  /** The recorded config keeps the meaning of both references exactly when the two nets
      mean the same. In any state in which no net is being built. */
  lemma SecondIsMeantIff(env: Env, s: State, reserved: set<string>, prefix: seq<string>, path: seq<string>, a: Net, b: Net)
    requires EnvOk(env) && Inv(env, s, {}, reserved) && NamesOk(env, b.children)
    requires ReadyRef(env, s, {}, reserved, prefix, Child(path, Inline(a)))
    requires Get(env.reg, s, Inline(a), prefix, path).Ok?
    ensures var t := Get(env.reg, s, Inline(a), prefix, path).value.0;
            var second := Get(env.reg, t, Inline(b), prefix, path);
            && second.Ok?
            && (MeansAs(second.value.0.config, Name(second.value.1), env.original, a)
                && MeansAs(second.value.0.config, Name(second.value.1), env.original, b)
                <==> Alike(env.original, a, b))
  {
    var (t, g, id) := Get(env.reg, s, Inline(a), prefix, path).value;
    SecondSharesFirst(env.reg, s, prefix, path, a, b);
    AfterFirst(env, s, reserved, prefix, path, a);
    ReplacedMeansIff(env, t, g, a, b);
  }

  lemma ReplacedMeansIff(env: Env, t: State, g: string, a: Net, b: Net)
    requires EnvOk(env) && Complete(env, t) && g in t.cache && NamesOk(env, b.children)
    requires Covers(env.flat, g, a) && Closed(env.flat, env.original, Mentioned(a.children))
    ensures var u := t.config[g := b];
            MeansAs(u, Name(g), env.original, a) && MeansAs(u, Name(g), env.original, b) <==> Alike(env.original, a, b)
  {
    var u := t.config[g := b];
    if Alike(env.original, a, b) {
      CompleteSame(env, t, g, a, b);
      forall depth: nat
        ensures Unfold(u, Name(g), depth) == UnfoldNet(env.original, a, depth)
        ensures Unfold(u, Name(g), depth) == UnfoldNet(env.original, b, depth)
      {
        ReplacedUnfolds(t.config, g, b, Name(g), depth);
        assert UnfoldNet(t.config, t.config[g], depth) == UnfoldNet(env.original, a, depth);
        assert UnfoldNet(env.original, a, depth) == UnfoldNet(env.original, b, depth);
      }
    }
    if MeansAs(u, Name(g), env.original, a) && MeansAs(u, Name(g), env.original, b) {
      MeansAsBoth(u, Name(g), env.original, a, b);
    }
  }

  lemma CompleteSame(env: Env, t: State, g: string, a: Net, b: Net)
    requires EnvOk(env) && Complete(env, t) && g in t.cache && NamesOk(env, b.children)
    requires Covers(env.flat, g, a) && Closed(env.flat, env.original, Mentioned(a.children))
    requires Alike(env.original, a, b)
    ensures Alike(t.config, t.config[g], b)
    ensures forall depth: nat :: UnfoldNet(t.config, t.config[g], depth) == UnfoldNet(env.original, a, depth)
  {
    EnvRepresents(env);
    CompleteRepresents(env, t);
    forall depth: nat
      ensures UnfoldNet(t.config, t.config[g], depth) == UnfoldNet(env.original, a, depth)
      ensures UnfoldNet(t.config, b, depth) == UnfoldNet(env.original, b, depth)
    {
      UnfoldNetSame(env.flat, t.config, g, t.config[g], depth);
      UnfoldNetSame(env.flat, env.original, g, a, depth);
      MeantSame(env.flat, t.config, env.original, b, depth);
    }
    SameInBoth(t.config, env.original, t.config[g], a, b);
  }

  lemma SameInBoth(v: Nets, w: Nets, entry: Net, a: Net, b: Net)
    requires Alike(w, a, b)
    requires forall depth: nat :: UnfoldNet(v, entry, depth) == UnfoldNet(w, a, depth)
    requires forall depth: nat :: UnfoldNet(v, b, depth) == UnfoldNet(w, b, depth)
    ensures Alike(v, entry, b)
  {
    forall depth: nat ensures UnfoldNet(v, entry, depth) == UnfoldNet(v, b, depth) {
      assert UnfoldNet(w, a, depth) == UnfoldNet(w, b, depth);
      assert UnfoldNet(v, entry, depth) == UnfoldNet(w, a, depth);
      assert UnfoldNet(v, b, depth) == UnfoldNet(w, b, depth);
    }
  }

  // ------------------------------------------------------------ a whole build

  lemma VisitOne(reg: Registry, s: State, prefix: seq<string>, c: Child)
    ensures Visit(reg, s, prefix, [c])
            == match Get(reg, s, c.ref, prefix, c.path)
               case Err(e) => Err(e)
               case Ok((t, name, id)) => Ok((t, [Child(c.path, Name(name))], [id]))
  {
    assert [c][1..] == [];
    var got := Get(reg, s, c.ref, prefix, c.path);
    if got.Ok? {
      var (t, name, id) := got.value;
      assert Visit(reg, t, prefix, []) == Ok((t, [], []));
      assert [Child(c.path, Name(name))] + [] == [Child(c.path, Name(name))] && [id] + [] == [id];
    }
  }

  lemma VisitTwo(reg: Registry, s: State, prefix: seq<string>, c: Child, d: Child)
    ensures Visit(reg, s, prefix, [c, d])
            == match Get(reg, s, c.ref, prefix, c.path)
               case Err(e) => Err(e)
               case Ok((t, name, id)) =>
                 match Get(reg, t, d.ref, prefix, d.path)
                 case Err(e) => Err(e)
                 case Ok((u, name', id')) =>
                   Ok((u, [Child(c.path, Name(name)), Child(d.path, Name(name'))], [id, id']))
  {
    assert [c, d][1..] == [d];
    var got := Get(reg, s, c.ref, prefix, c.path);
    if got.Ok? {
      var (t, name, id) := got.value;
      VisitOne(reg, t, prefix, d);
      var next := Get(reg, t, d.ref, prefix, d.path);
      if next.Ok? {
        var (u, name', id') := next.value;
        assert [Child(c.path, Name(name))] + [Child(d.path, Name(name'))] == [Child(c.path, Name(name)), Child(d.path, Name(name'))];
        assert [id] + [id'] == [id, id'];
      }
    }
  }

  lemma BuildOneServer(serverReg: Registry, reg: Registry, s: State, server: Server)
    ensures BuildServers(serverReg, reg, s, [server])
            == match Build(serverReg, reg, s, ServerPrefix(server.name), server.item)
               case Err(e) => Err(e)
               case Ok((t, item, ids)) => Ok((t, [Server(server.name, item)], [ids]))
  {
    assert [server][1..] == [];
    var built := Build(serverReg, reg, s, ServerPrefix(server.name), server.item);
    if built.Ok? {
      var (t, item, ids) := built.value;
      assert BuildServers(serverReg, reg, t, []) == Ok((t, [], []));
      assert [Server(server.name, item)] + [] == [Server(server.name, item)] && [ids] + [] == [ids];
    }
  }

  function AtOnePath(name: string, kind: string, data: string, path: seq<string>, nets: seq<Net>): Server {
    Server(name, Net(kind, data, seq(|nets|, i requires 0 <= i < |nets| => Child(path, Inline(nets[i])))))
  }

  /** Both references got the net built for the first, `a`. They are served right, and
      recorded with their meaning, exactly when the two nets mean the same; and the record
      describes what runs exactly when the second, `b`, is the flat form of the first. */
  ghost predicate BothGetFirst(all: Nets, g: string, a: Net, b: Net, u: State, targets: seq<seq<nat>>) {
    && g in u.cache && targets == [[u.cache[g], u.cache[g]]]
    && RunsAs(u.arena, u.cache[g], all, a)
    && (RunsAs(u.arena, u.cache[g], all, b) <==> Alike(all, a, b))
    && (MeansAs(u.config, Name(g), all, a) && MeansAs(u.config, Name(g), all, b) <==> Alike(all, a, b))
    && (Consistent(LiveOf(u)) <==> b == FlatNet(g, a))
  }

  lemma SecondIsShared(env: Env, s: State, prefix: seq<string>, path: seq<string>, a: Net, b: Net)
    requires EnvOk(env) && Inv(env, s, {}, {}) && s.cache == map[] && NamesOk(env, b.children)
    requires ReadyRef(env, s, {}, {}, prefix, Child(path, Inline(a))) && Get(env.reg, s, Inline(a), prefix, path).Ok?
    requires Consistent(LiveOf(Get(env.reg, s, Inline(a), prefix, path).value.0))
    ensures var (t, g, id) := Get(env.reg, s, Inline(a), prefix, path).value;
            BothGetFirst(env.original, g, a, b, t.(config := t.config[g := b]), [[id, id]])
  {
    SecondSharesFirst(env.reg, s, prefix, path, a, b);
    SecondRunsRightIff(env, s, {}, {}, prefix, path, a, b);
    SecondIsMeantIff(env, s, {}, prefix, path, a, b);
    SecondIsRecordedIff(env.reg, s, prefix, path, a, b);
  }

  lemma TwoAtOnePathIn(serverReg: Registry, reg: Registry, all: Nets, flat: Nets,
                       name: string, kind: string, data: string, path: seq<string>, a: Net, b: Net)
    requires Start(all, [AtOnePath(name, kind, data, path, [a])], flat, reg)
    requires forall n :: n in Mentioned(b.children) && n in flat ==> n in all
    ensures var one := BuildServers(serverReg, reg, State(all, map[], []), [AtOnePath(name, kind, data, path, [a])]);
            var res := BuildServers(serverReg, reg, State(all, map[], []), [AtOnePath(name, kind, data, path, [a, b])]);
            && (res.Ok? <==> one.Ok?)
            && (res.Ok? ==> BothGetFirst(all, GenName(ServerPrefix(name), path), a, b, res.value.0, res.value.2))
  {
    var first := AtOnePath(name, kind, data, path, [a]);
    var env, s, prefix := Env(all, flat, reg), State(all, map[], []), ServerPrefix(name);
    BuildAtOnePath(serverReg, reg, s, name, kind, data, path, a, b);
    if BuildServers(serverReg, reg, s, [first]).Ok? {
      FirstIsReady(all, flat, reg, first, Child(path, Inline(a)));
      StartIsConsistent(all, [first], flat, reg, serverReg);
      SecondIsShared(env, s, prefix, path, a, b);
    }
  }

  /** A server with two inline nets at one path, as in a list that pushes no index
      (rd-interface/src/config/single_or_vec.rs), builds exactly when it would with just
      the first. */
  lemma TwoAtOnePath(serverReg: Registry, reg: Registry, nets: Nets, localOptions: string, flat: Nets,
                     name: string, kind: string, data: string, path: seq<string>, a: Net, b: Net)
    requires Start(WithDefaults(nets, localOptions), [AtOnePath(name, kind, data, path, [a])], flat, reg)
    requires forall n :: n in Mentioned(b.children) && n in flat ==> n in WithDefaults(nets, localOptions)
    ensures var one := BuildEntities(serverReg, reg, nets, [AtOnePath(name, kind, data, path, [a])], localOptions);
            var res := BuildEntities(serverReg, reg, nets, [AtOnePath(name, kind, data, path, [a, b])], localOptions);
            && (res.Ok? <==> one.Ok?)
            && (res.Ok? ==> BothGetFirst(WithDefaults(nets, localOptions), GenName(ServerPrefix(name), path), a, b,
                                         res.value.0, res.value.2))
  {
    TwoAtOnePathIn(serverReg, reg, WithDefaults(nets, localOptions), flat, name, kind, data, path, a, b);
  }

  lemma BuildAtOnePath(serverReg: Registry, reg: Registry, s: State, name: string, kind: string, data: string,
                       path: seq<string>, a: Net, b: Net)
    ensures var one := BuildServers(serverReg, reg, s, [AtOnePath(name, kind, data, path, [a])]);
            var res := BuildServers(serverReg, reg, s, [AtOnePath(name, kind, data, path, [a, b])]);
            && (res.Ok? <==> one.Ok?)
            && (one.Ok? ==>
                  var first := Get(reg, s, Inline(a), ServerPrefix(name), path);
                  && first.Ok? && one.value.0 == first.value.0
                  && first.value.1 == GenName(ServerPrefix(name), path)
                  && first.value.1 in first.value.0.cache && first.value.0.cache[first.value.1] == first.value.2
                  && Get(reg, first.value.0, Inline(b), ServerPrefix(name), path)
                     == Ok((res.value.0, first.value.1, first.value.2))
                  && res.value.0 == first.value.0.(config := first.value.0.config[first.value.1 := b])
                  && res.value.2 == [[first.value.2, first.value.2]])
  {
    var first, both := AtOnePath(name, kind, data, path, [a]), AtOnePath(name, kind, data, path, [a, b]);
    var prefix, c, d := ServerPrefix(name), Child(path, Inline(a)), Child(path, Inline(b));
    assert first.item.children == [c] && both.item.children == [c, d];
    BuildOneServer(serverReg, reg, s, first);
    BuildOneServer(serverReg, reg, s, both);
    VisitOne(reg, s, prefix, c);
    VisitTwo(reg, s, prefix, c, d);
    if Get(reg, s, Inline(a), prefix, path).Ok? {
      SecondSharesFirst(reg, s, prefix, path, a, b);
    }
  }

  lemma FirstIsReady(nets: Nets, flat: Nets, reg: Registry, server: Server, c: Child)
    requires Start(nets, [server], flat, reg) && server.item.children == [c]
    ensures var env, s := Env(nets, flat, reg), State(nets, map[], []);
            EnvOk(env) && Inv(env, s, {}, {}) && ReadyRef(env, s, {}, {}, ServerPrefix(server.name), c)
  {
    var env, s, prefix := Env(nets, flat, reg), State(nets, map[], []), ServerPrefix(server.name);
    StartOk(nets, [server], flat, reg);
    HeadServerReady(env, s, [server]);
    HeadReady(env, s, {}, ServersGens([server][1..]), prefix, [c]);
    assert [server][1..] == [] && [c][1..] == [];
    assert ServersGens([]) + GenNames(prefix, []) == {};
  }

  lemma DifferentAreNotAlike(nets: Nets, a: Net, b: Net)
    requires a.kind != b.kind || a.data != b.data
    ensures !Alike(nets, a, b)
  {
    assert UnfoldNet(nets, a, 1) != UnfoldNet(nets, b, 1);
  }

  /** So with nets of two types at one path the second reference goes wrong. */
  lemma TwoTypesGoWrong(serverReg: Registry, reg: Registry, nets: Nets, localOptions: string, flat: Nets,
                        name: string, kind: string, data: string, path: seq<string>, a: Net, b: Net)
    requires Start(WithDefaults(nets, localOptions), [AtOnePath(name, kind, data, path, [a])], flat, reg)
    requires forall n :: n in Mentioned(b.children) && n in flat ==> n in WithDefaults(nets, localOptions)
    requires a.kind != b.kind
    ensures var res := BuildEntities(serverReg, reg, nets, [AtOnePath(name, kind, data, path, [a, b])], localOptions);
            var g := GenName(ServerPrefix(name), path);
            res.Ok? ==> g in res.value.0.cache && !RunsAs(res.value.0.arena, res.value.0.cache[g], WithDefaults(nets, localOptions), b)
  {
    TwoAtOnePath(serverReg, reg, nets, localOptions, flat, name, kind, data, path, a, b);
    DifferentAreNotAlike(WithDefaults(nets, localOptions), a, b);
  }

  /** The same net twice, with an inline net in it: what runs is right, but the record
      keeps the inline net while the running net refers to a name. */
  lemma SameTwiceIsNotRecorded(serverReg: Registry, reg: Registry, nets: Nets, localOptions: string, flat: Nets,
                               name: string, kind: string, data: string, path: seq<string>, a: Net, k: nat)
    requires Start(WithDefaults(nets, localOptions), [AtOnePath(name, kind, data, path, [a])], flat, reg)
    requires forall n :: n in Mentioned(a.children) && n in flat ==> n in WithDefaults(nets, localOptions)
    requires k < |a.children| && a.children[k].ref.Inline?
    ensures var res := BuildEntities(serverReg, reg, nets, [AtOnePath(name, kind, data, path, [a, a])], localOptions);
            var g := GenName(ServerPrefix(name), path);
            res.Ok? ==> g in res.value.0.config && res.value.0.config[g] == a && !Consistent(LiveOf(res.value.0))
  {
    var g := GenName(ServerPrefix(name), path);
    TwoAtOnePath(serverReg, reg, nets, localOptions, flat, name, kind, data, path, a, a);
    BuildAtOnePath(serverReg, reg, State(WithDefaults(nets, localOptions), map[], []), name, kind, data, path, a, a);
    assert FlatNet(g, a).children[k].ref.Name?;
  }

  // ------------------------------------------------------------ names that collide

  /** A reference to a net that runs already. */
  lemma GetCached(reg: Registry, s: State, r: NetRef, prefix: seq<string>, path: seq<string>, name: string)
    requires !r.Garbage? && name == RefName(r, prefix, path) && name in s.cache
    ensures Get(reg, s, r, prefix, path) == Ok((s.(config := Inserted(s.config, r, name)), name, s.cache[name]))
  {
  }

  /** A reference to a net without references. */
  lemma GetLeaf(reg: Registry, s: State, prefix: seq<string>, path: seq<string>, leaf: Net, name: string)
    requires leaf.children == [] && KindOk(reg, leaf) && name == GenName(prefix, path) && name !in s.cache
    ensures Get(reg, s, Inline(leaf), prefix, path)
            == Ok((State(s.config[name := leaf], s.cache[name := |s.arena|], s.arena + [Running(name, leaf, [])]), name, |s.arena|))
  {
    var config := s.config[name := leaf];
    var taken := s.(config := config[name := PLACEHOLDER]);
    assert Visit(reg, taken, NetPrefix(name), []) == Ok((taken, [], []));
    assert leaf.(children := []) == leaf && config[name] == leaf;
    assert Build(reg, reg, taken, NetPrefix(name), leaf) == Ok((taken, leaf, []));
    assert config[name := PLACEHOLDER][name := leaf] == config;
  }

  /** A reference to a net with one reference, once that has been resolved. */
  lemma GetParent(reg: Registry, s: State, r: NetRef, prefix: seq<string>, path: seq<string>, name: string, net: Net, c: Child,
                  t: State, to: string, id: nat)
    requires !r.Garbage? && name == RefName(r, prefix, path) && name !in s.cache
    requires name in Inserted(s.config, r, name) && Inserted(s.config, r, name)[name] == net
    requires net.children == [c] && KindOk(reg, net)
    requires Get(reg, s.(config := Inserted(s.config, r, name)[name := PLACEHOLDER]), c.ref, NetPrefix(name), c.path)
             == Ok((t, to, id))
    ensures var built := net.(children := [Child(c.path, Name(to))]);
            Get(reg, s, r, prefix, path)
            == Ok((State(t.config[name := built], t.cache[name := |t.arena|], t.arena + [Running(name, built, [id])]),
                   name, |t.arena|))
  {
    VisitOne(reg, s.(config := Inserted(s.config, r, name)[name := PLACEHOLDER]), NetPrefix(name), c);
  }

  /** An inline net with an inline net without references in it. */
  lemma GetNested(reg: Registry, s: State, prefix: seq<string>, path: seq<string>, x: string, xy: string,
                  net: Net, c: Child, l: Net)
    requires x == GenName(prefix, path) && xy == GenName(NetPrefix(x), c.path) && x != xy && x !in s.cache && xy !in s.cache
    requires net.children == [c] && c.ref == Inline(l) && KindOk(reg, net) && l.children == [] && KindOk(reg, l)
    ensures var n, built := |s.arena|, net.(children := [Child(c.path, Name(xy))]);
            Get(reg, s, Inline(net), prefix, path)
            == Ok((State(s.config[x := built][xy := l], s.cache[xy := n][x := n + 1],
                         s.arena + [Running(xy, l, []), Running(x, built, [n])]), x, n + 1))
  {
    var n, built := |s.arena|, net.(children := [Child(c.path, Name(xy))]);
    var config := s.config[x := net][x := PLACEHOLDER];
    var taken := s.(config := config);
    GetLeaf(reg, taken, NetPrefix(x), c.path, l, xy);
    var t := State(config[xy := l], s.cache[xy := n], s.arena + [Running(xy, l, [])]);
    GetParent(reg, s, Inline(net), prefix, path, x, net, c, t, xy, n);
    PutTwice(s.config, x, xy, net, l, built);
    AppendTwo(s.arena, Running(xy, l, []), Running(x, built, [n]));
  }

  lemma PutTwice(config: Nets, x: string, xy: string, net: Net, l: Net, built: Net)
    requires x != xy
    ensures config[x := net][x := PLACEHOLDER][xy := l][x := built] == config[x := built][xy := l]
  {
  }

  lemma AppendTwo<T>(a: seq<T>, x: T, y: T)
    ensures a + [x] + [y] == a + [x, y]
  {
  }

  /** A named net with an inline net in an inline net. */
  lemma GetOuter(reg: Registry, s: State, prefix: seq<string>, path: seq<string>, name: string, c: Child,
                 x: string, inner: Net, d: Child, xy: string, l: Net)
    requires name in s.config && name !in s.cache && s.config[name].children == [c] && KindOk(reg, s.config[name])
    requires c.ref == Inline(inner) && x == GenName(NetPrefix(name), c.path) && inner.children == [d] && KindOk(reg, inner)
    requires d.ref == Inline(l) && xy == GenName(NetPrefix(x), d.path) && l.children == [] && KindOk(reg, l)
    requires x != xy && x != name && xy != name && x !in s.cache && xy !in s.cache
    ensures var res, n := Get(reg, s, Name(name), prefix, path), |s.arena|;
            && res.Ok? && res.value.1 == name && res.value.2 == n + 2
            && var t := res.value.0;
            && t.cache == s.cache[xy := n][x := n + 1][name := n + 2]
            && |t.arena| == n + 3 && t.arena[n] == Running(xy, l, [])
            && t.arena[n + 1].name == x && t.arena[n + 1].targets == [n]
            && forall k :: k in s.config && k != name && k != x && k != xy ==> k in t.config && t.config[k] == s.config[k]
  {
    var taken := s.(config := s.config[name := PLACEHOLDER]);
    GetNested(reg, taken, NetPrefix(name), c.path, x, xy, inner, d, l);
    var t := Get(reg, taken, Inline(inner), NetPrefix(name), c.path).value.0;
    GetParent(reg, s, Name(name), prefix, path, name, s.config[name], c, t, x, |s.arena| + 1);
  }

  /** A net whose one inline net gets a name that runs already. */
  lemma GetSharing(reg: Registry, s: State, prefix: seq<string>, path: seq<string>, name: string, c: Child, m: Net, xy: string)
    requires name in s.config && name !in s.cache && s.config[name].children == [c] && KindOk(reg, s.config[name])
    requires c.ref == Inline(m) && xy == GenName(NetPrefix(name), c.path) && xy in s.cache && xy != name
    ensures var res := Get(reg, s, Name(name), prefix, path);
            && res.Ok? && res.value.1 == name && res.value.2 == |s.arena|
            && var u := res.value.0;
            && |u.arena| == |s.arena| + 1 && s.arena <= u.arena
            && u.arena[|s.arena|].name == name && u.arena[|s.arena|].targets == [s.cache[xy]]
            && xy in u.config && u.config[xy] == m
  {
    var taken := s.(config := s.config[name := PLACEHOLDER]);
    GetCached(reg, taken, Inline(m), NetPrefix(name), c.path, xy);
    var t := taken.(config := taken.config[xy := m]);
    GetParent(reg, s, Name(name), prefix, path, name, s.config[name], c, t, xy, s.cache[xy]);
  }

  /** A server with two references. */
  lemma BuildPair(serverReg: Registry, reg: Registry, s: State, name: string, kind: string, c: Child, d: Child)
    requires KindOk(serverReg, Net(kind, "", []))
    requires Get(reg, s, c.ref, ServerPrefix(name), c.path).Ok?
    requires Get(reg, Get(reg, s, c.ref, ServerPrefix(name), c.path).value.0, d.ref, ServerPrefix(name), d.path).Ok?
    ensures var first := Get(reg, s, c.ref, ServerPrefix(name), c.path).value;
            var second := Get(reg, first.0, d.ref, ServerPrefix(name), d.path).value;
            var res := BuildServers(serverReg, reg, s, [Server(name, Net(kind, "", [c, d]))]);
            res.Ok? && res.value.0 == second.0 && res.value.2 == [[first.2, second.2]]
  {
    VisitTwo(reg, s, ServerPrefix(name), c, d);
    BuildOneServer(serverReg, reg, s, Server(name, Net(kind, "", [c, d])));
  }

  /** A server that refers to two nets, of which the second has an inline net with the name
      of one nested twice in the first. */
  lemma PairShares(serverReg: Registry, reg: Registry, s: State, server: string, serverKind: string,
                   p: seq<string>, a: string, c: Child, x: string, inner: Net, d: Child, xy: string, l: Net,
                   q: seq<string>, b: string, e: Child, m: Net)
    requires KindOk(serverReg, Net(serverKind, "", [])) && s.cache == map[] && s.arena == []
    requires a in s.config && s.config[a].children == [c] && KindOk(reg, s.config[a])
    requires c.ref == Inline(inner) && x == GenName(NetPrefix(a), c.path) && inner.children == [d] && KindOk(reg, inner)
    requires d.ref == Inline(l) && xy == GenName(NetPrefix(x), d.path) && l.children == [] && KindOk(reg, l)
    requires b in s.config && s.config[b].children == [e] && KindOk(reg, s.config[b])
    requires e.ref == Inline(m) && xy == GenName(NetPrefix(b), e.path)
    requires x != xy && a != x && a != xy && b != x && b != xy && a != b
    ensures var res := BuildServers(serverReg, reg, s, [Server(server, Net(serverKind, "", [Child(p, Name(a)), Child(q, Name(b))]))]);
            && res.Ok? && res.value.2 == [[2, 3]]
            && var u := res.value.0;
            && |u.arena| == 4 && u.arena[0] == Running(xy, l, [])
            && u.arena[1].name == x && u.arena[1].targets == [0]
            && u.arena[3].name == b && u.arena[3].targets == [0]
            && xy in u.config && u.config[xy] == m
  {
    var prefix := ServerPrefix(server);
    GetOuter(reg, s, prefix, p, a, c, x, inner, d, xy, l);
    GetSharing(reg, Get(reg, s, Name(a), prefix, p).value.0, prefix, q, b, e, m, xy);
    BuildPair(serverReg, reg, s, server, serverKind, Child(p, Name(a)), Child(q, Name(b)));
  }

  /** A net called "net", and one called "a" with a net in a net. */
  function NetCalledNet(kind: string, l: Net, m: Net): Nets {
    map["a" := Net(kind, "", [Child(["x"], Inline(Net(kind, "", [Child(["y"], Inline(l))])))]),
        "net" := Net(kind, "", [Child(["a", "x", "y"], Inline(m))])]
  }

  function BothNets(kind: string): seq<Server> {
    [Server("s", Net(kind, "", [Child(["p"], Name("a")), Child(["q"], Name("net"))]))]
  }

  lemma NetNames()
    ensures GenName(NetPrefix("a"), ["x"]) == "net/a/x"
    ensures GenName(NetPrefix("net/a/x"), ["y"]) == "net/net/a/x/y"
    ensures GenName(NetPrefix("net"), ["a", "x", "y"]) == "net/net/a/x/y"
  {
    JoinThree("net", "a", "x");
    JoinThree("net", "net/a/x", "y");
    JoinFive("net", "net", "a", "x", "y");
    assert NetPrefix("a") + ["x"] == ["net", "a", "x"];
    assert NetPrefix("net/a/x") + ["y"] == ["net", "net/a/x", "y"];
    assert NetPrefix("net") + ["a", "x", "y"] == ["net", "net", "a", "x", "y"];
    assert "net" + "/" + "a" + "/" + "x" == "net/a/x" && "net" + "/" + "net/a/x" + "/" + "y" == "net/net/a/x/y";
    assert "net" + "/" + "net" + "/" + "a" + "/" + "x" + "/" + "y" == "net/net/a/x/y";
  }

  lemma JoinThree(a: string, b: string, c: string)
    ensures Join([a, b, c], "/") == a + "/" + b + "/" + c
  {
    assert [b, c][1..] == [c] && [a, b, c][1..] == [b, c];
    assert Join([b, c], "/") == b + "/" + Join([c], "/");
    assert Join([a, b, c], "/") == a + "/" + Join([b, c], "/");
    assert a + "/" + (b + "/" + c) == a + "/" + b + "/" + c;
  }

  lemma JoinFive(a: string, b: string, c: string, d: string, e: string)
    ensures Join([a, b, c, d, e], "/") == a + "/" + b + "/" + c + "/" + d + "/" + e
  {
    JoinThree(c, d, e);
    assert [b, c, d, e][1..] == [c, d, e] && [a, b, c, d, e][1..] == [b, c, d, e];
    assert Join([b, c, d, e], "/") == b + "/" + Join([c, d, e], "/");
    assert Join([a, b, c, d, e], "/") == a + "/" + Join([b, c, d, e], "/");
    assert a + "/" + (b + "/" + (c + "/" + d + "/" + e)) == a + "/" + b + "/" + c + "/" + d + "/" + e;
  }

  /** In this config no name has a slash and no path begins another, and yet the nets `l`
      and `m` get one name: "a" is built down to `l`, and "net" is then given the running
      `l` for its `m`. `m` is never built; it need not even be of a type that exists. */
  lemma NetCalledNetShares(serverReg: Registry, reg: Registry, serverKind: string, kind: string, localOptions: string,
                           l: Net, m: Net)
    requires KindOk(serverReg, Net(serverKind, "", [])) && KindOk(reg, Net(kind, "", []))
    requires l.children == [] && m.children == [] && KindOk(reg, l)
    ensures var res := BuildEntities(serverReg, reg, NetCalledNet(kind, l, m), BothNets(serverKind), localOptions);
            && res.Ok? && res.value.2 == [[2, 3]]
            && var u := res.value.0;
            && |u.arena| == 4 && u.arena[0] == Running("net/net/a/x/y", l, [])
            && u.arena[1].name == "net/a/x" && u.arena[1].targets == [0]
            && u.arena[3].name == "net" && u.arena[3].targets == [0]
            && "net/net/a/x/y" in u.config && u.config["net/net/a/x/y"] == m
  {
    NetNames();
    var nets, x, xy := NetCalledNet(kind, l, m), "net/a/x", "net/net/a/x/y";
    var inner := Net(kind, "", [Child(["y"], Inline(l))]);
    var s0 := State(WithDefaults(nets, localOptions), map[], []);
    assert s0.config["a"] == nets["a"] && s0.config["net"] == nets["net"];
    PairShares(serverReg, reg, s0, "s", serverKind, ["p"], "a", nets["a"].children[0], x, inner, inner.children[0], xy, l,
               ["q"], "net", nets["net"].children[0], m);
  }

  /** A net called "server", and a server "s" with a net in a net. */
  function NetCalledServer(kind: string, m: Net): Nets {
    map["server" := Net(kind, "", [Child(["s", "p", "q"], Inline(m))])]
  }

  function NestingServer(serverKind: string, kind: string, l: Net): seq<Server> {
    [Server("s", Net(serverKind, "",
      [Child(["p"], Inline(Net(kind, "", [Child(["q"], Inline(l))]))), Child(["r"], Name("server"))]))]
  }

  lemma ServerNames()
    ensures GenName(ServerPrefix("s"), ["p"]) == "server/s/p"
    ensures GenName(NetPrefix("server/s/p"), ["q"]) == "net/server/s/p/q"
    ensures GenName(NetPrefix("server"), ["s", "p", "q"]) == "net/server/s/p/q"
  {
    JoinThree("server", "s", "p");
    JoinThree("net", "server/s/p", "q");
    JoinFive("net", "server", "s", "p", "q");
    assert ServerPrefix("s") + ["p"] == ["server", "s", "p"];
    assert NetPrefix("server/s/p") + ["q"] == ["net", "server/s/p", "q"];
    assert NetPrefix("server") + ["s", "p", "q"] == ["net", "server", "s", "p", "q"];
    assert "server" + "/" + "s" + "/" + "p" == "server/s/p" && "net" + "/" + "server/s/p" + "/" + "q" == "net/server/s/p/q";
    assert "net" + "/" + "server" + "/" + "s" + "/" + "p" + "/" + "q" == "net/server/s/p/q";
  }

  /** The same with a net called "server": it is given the net `l` of the server's own. */
  lemma NetCalledServerShares(serverReg: Registry, reg: Registry, serverKind: string, kind: string, localOptions: string,
                              l: Net, m: Net)
    requires KindOk(serverReg, Net(serverKind, "", [])) && KindOk(reg, Net(kind, "", []))
    requires l.children == [] && m.children == [] && KindOk(reg, l)
    ensures var res := BuildEntities(serverReg, reg, NetCalledServer(kind, m), NestingServer(serverKind, kind, l), localOptions);
            && res.Ok? && res.value.2 == [[1, 2]]
            && var u := res.value.0;
            && |u.arena| == 3 && u.arena[0] == Running("net/server/s/p/q", l, [])
            && u.arena[1].name == "server/s/p" && u.arena[1].targets == [0]
            && u.arena[2].name == "server" && u.arena[2].targets == [0]
            && "net/server/s/p/q" in u.config && u.config["net/server/s/p/q"] == m
  {
    ServerNames();
    var nets, x, xy := NetCalledServer(kind, m), "server/s/p", "net/server/s/p/q";
    var inner := Net(kind, "", [Child(["q"], Inline(l))]);
    var s0 := State(WithDefaults(nets, localOptions), map[], []);
    assert s0.config["server"] == nets["server"];
    OwnShares(serverReg, reg, s0, "s", serverKind, ["p"], x, inner, inner.children[0], xy, l,
              ["r"], "server", nets["server"].children[0], m);
  }

  /** A server with an inline net in an inline net, and a net that has one of the same name. */
  lemma OwnShares(serverReg: Registry, reg: Registry, s: State, server: string, serverKind: string,
                  p: seq<string>, x: string, inner: Net, d: Child, xy: string, l: Net,
                  q: seq<string>, b: string, e: Child, m: Net)
    requires KindOk(serverReg, Net(serverKind, "", [])) && s.cache == map[] && s.arena == []
    requires x == GenName(ServerPrefix(server), p) && inner.children == [d] && KindOk(reg, inner)
    requires d.ref == Inline(l) && xy == GenName(NetPrefix(x), d.path) && l.children == [] && KindOk(reg, l)
    requires b in s.config && s.config[b].children == [e] && KindOk(reg, s.config[b])
    requires e.ref == Inline(m) && xy == GenName(NetPrefix(b), e.path)
    requires x != xy && b != x && b != xy
    ensures var cs := [Child(p, Inline(inner)), Child(q, Name(b))];
            var res := BuildServers(serverReg, reg, s, [Server(server, Net(serverKind, "", cs))]);
            && res.Ok? && res.value.2 == [[1, 2]]
            && var u := res.value.0;
            && |u.arena| == 3 && u.arena[0] == Running(xy, l, [])
            && u.arena[1].name == x && u.arena[1].targets == [0]
            && u.arena[2].name == b && u.arena[2].targets == [0]
            && xy in u.config && u.config[xy] == m
  {
    var prefix := ServerPrefix(server);
    GetNested(reg, s, prefix, p, x, xy, inner, d, l);
    GetSharing(reg, Get(reg, s, Inline(inner), prefix, p).value.0, prefix, q, b, e, m, xy);
    BuildPair(serverReg, reg, s, server, serverKind, Child(p, Inline(inner)), Child(q, Name(b)));
  }

  // ------------------------------------------------------------ these configs are plain, but not fresh

  /** A reference list with one inline net, which has one inline net itself. */
  lemma NestedGens(prefix: seq<string>, c: Child, d: Child)
    requires c.ref.Inline? && c.ref.net.children == [d] && d.ref.Inline?
    ensures GenName(NetPrefix(GenName(prefix, c.path)), d.path) in GenNames(prefix, [c])
  {
    var inner := NetPrefix(GenName(prefix, c.path));
    assert [c][0] == c && [d][0] == d;
    assert GenName(inner, d.path) in RefGens(inner, d) && RefGens(inner, d) <= GenNames(inner, [d]);
    assert GenNames(inner, [d]) <= RefGens(prefix, c) && RefGens(prefix, c) <= GenNames(prefix, [c]);
  }

  lemma DirectGens(prefix: seq<string>, c: Child)
    requires c.ref.Inline?
    ensures GenName(prefix, c.path) in GenNames(prefix, [c])
  {
    assert [c][0] == c;
    assert GenName(prefix, c.path) in RefGens(prefix, c) && RefGens(prefix, c) <= GenNames(prefix, [c]);
  }

  lemma OnePlain(c: Child)
    requires PlainRef(c)
    ensures PlainRefs([c])
  {
  }

  lemma NetCalledNetIsPlain(serverKind: string, kind: string, l: Net, m: Net)
    requires l.children == [] && m.children == []
    ensures PlainShape(NetCalledNet(kind, l, m), BothNets(serverKind))
  {
    var y := Child(["y"], Inline(l));
    OnePlain(y);
    OnePlain(Child(["x"], Inline(Net(kind, "", [y]))));
    OnePlain(Child(["a", "x", "y"], Inline(m)));
  }

  /** One name from two places is not fresh. */
  lemma SharedIsNotFresh(nets: Nets, servers: seq<Server>, a: string, b: string, x: string)
    requires a in nets && x in NetGens(nets, a)
    requires (b in nets && b != a && x in NetGens(nets, b)) || x in ServersGens(servers)
    ensures !Fresh(nets, servers)
  {
    assert x in NetsGens(nets);
  }

  lemma NetCalledNetIsNotFresh(serverKind: string, kind: string, localOptions: string, l: Net, m: Net)
    requires l.children == [] && m.children == []
    ensures var all := WithDefaults(NetCalledNet(kind, l, m), localOptions);
            PlainShape(all, BothNets(serverKind)) && !Fresh(all, BothNets(serverKind))
  {
    NetNames();
    var nets, servers := NetCalledNet(kind, l, m), BothNets(serverKind);
    var all := WithDefaults(nets, localOptions);
    NetCalledNetIsPlain(serverKind, kind, l, m);
    DefaultsArePlain(nets, servers, localOptions);
    var x := nets["a"].children[0];
    NestedGens(NetPrefix("a"), x, x.ref.net.children[0]);
    DirectGens(NetPrefix("net"), nets["net"].children[0]);
    SharedIsNotFresh(all, servers, "a", "net", "net/net/a/x/y");
  }

  lemma NetCalledServerIsPlain(serverKind: string, kind: string, l: Net, m: Net)
    requires l.children == [] && m.children == []
    ensures PlainShape(NetCalledServer(kind, m), NestingServer(serverKind, kind, l))
  {
    var q := Child(["q"], Inline(l));
    OnePlain(q);
    OnePlain(Child(["s", "p", "q"], Inline(m)));
    assert PlainRef(Child(["p"], Inline(Net(kind, "", [q])))) && PlainRef(Child(["r"], Name("server")));
  }

  lemma NetCalledServerIsNotFresh(serverKind: string, kind: string, localOptions: string, l: Net, m: Net)
    requires l.children == [] && m.children == []
    ensures var all := WithDefaults(NetCalledServer(kind, m), localOptions);
            PlainShape(all, NestingServer(serverKind, kind, l)) && !Fresh(all, NestingServer(serverKind, kind, l))
  {
    ServerNames();
    var nets, servers := NetCalledServer(kind, m), NestingServer(serverKind, kind, l);
    var all := WithDefaults(nets, localOptions);
    NetCalledServerIsPlain(serverKind, kind, l, m);
    DefaultsArePlain(nets, servers, localOptions);
    var cs := servers[0].item.children;
    NestedGens(ServerPrefix("s"), cs[0], cs[0].ref.net.children[0]);
    FirstGens(ServerPrefix("s"), cs);
    DirectGens(NetPrefix("server"), nets["server"].children[0]);
    SharedIsNotFresh(all, servers, "server", "", "net/server/s/p/q");
  }

  lemma FirstGens(prefix: seq<string>, cs: seq<Child>)
    requires cs != []
    ensures GenNames(prefix, [cs[0]]) <= GenNames(prefix, cs)
  {
    assert [cs[0]][1..] == [] && GenNames(prefix, []) == {};
  }
}
