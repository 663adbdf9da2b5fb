/** The lazy, memoising, in-place build agrees with flattening first and asking
    whether the flat graph is sound. */
module NetBuilderProof {
  import opened Outcomes
  import opened NetConfig
  import opened NetBuilder
  import opened NetGraph
  import opened NetFlattening

  /** What stays fixed during one build: the config it started from, its flattening,
      and the net registry. */
  datatype Env = Env(original: Nets, flat: Nets, reg: Registry)

  ghost predicate KindOk(kinds: Registry, item: Net) {
    item.kind in kinds && kinds[item.kind].parses(item.data) && kinds[item.kind].builds(item.data)
  }

  /** `e` says truly why the type of `item` does not accept it. */
  ghost predicate KindFault(kinds: Registry, item: Net, e: Error) {
    match e
    case TypeNotLoaded(kind) => item.kind == kind && kind !in kinds
    case BadOptions(kind) => item.kind == kind && kind in kinds && !kinds[kind].parses(item.data)
    case BuildFailed(kind) => item.kind == kind && kind in kinds && !kinds[kind].builds(item.data)
    case _ => false
  }

  ghost predicate HasGarbage(cs: seq<Child>) {
    exists k :: 0 <= k < |cs| && cs[k].ref.Garbage?
  }

  ghost predicate ItemOk(kinds: Registry, item: Net) {
    && KindOk(kinds, item)
    && forall k :: 0 <= k < |item.children| ==> !item.children[k].ref.Garbage?
  }

  ghost predicate EnvOk(env: Env) {
    && CIRCULAR !in env.reg
    && NetsFresh(env.original)
    && (forall n :: n in env.original ==> Covers(env.flat, n, env.original[n]))
    && (forall n :: n in env.original ==> NamesOk(env, env.original[n].children))
    && env.original.Keys <= env.flat.Keys
  }

  /** A name in a reference is never one that the builder generates. */
  ghost predicate NamesOk(env: Env, cs: seq<Child>) {
    forall n :: n in Mentioned(cs) && n in env.flat ==> n in env.original
  }

  // ------------------------------------------------------------ the invariant

  ghost predicate EntryOk(flat: Nets, cache: map<string, nat>, arena: seq<Running>, i: nat)
    requires i < |arena|
  {
    var a := arena[i];
    && a.name in cache && cache[a.name] == i
    && a.name in flat && a.config == flat[a.name]
    && |a.targets| == |a.config.children|
    && forall k :: 0 <= k < |a.targets| ==>
         && a.config.children[k].ref.Name?
         && a.targets[k] < i
         && arena[a.targets[k]].name == a.config.children[k].ref.name
  }

  /** Every cached name has one running net, built from its flat entry, whose targets
      were built before it and are the nets its references name. */
  ghost predicate CacheOk(env: Env, s: State) {
    && (forall i :: 0 <= i < |s.arena| ==> EntryOk(env.flat, s.cache, s.arena, i))
    && (forall n :: n in s.cache ==>
          && s.cache[n] < |s.arena| && s.arena[s.cache[n]].name == n
          && n in s.config && n in env.flat && s.config[n] == env.flat[n]
          && ItemOk(env.reg, env.flat[n]))
  }

  ghost predicate Untouched(s: State, stack: set<string>, n: string) {
    n in s.config && n !in s.cache && n !in stack
  }

  /** Nets being built hold the placeholder; the others are as they were. */
  ghost predicate ConfigOk(env: Env, s: State, stack: set<string>) {
    && env.original.Keys <= s.config.Keys <= env.flat.Keys
    && (forall n :: n in stack ==> n in s.config && s.config[n] == PLACEHOLDER && n !in s.cache)
    && (forall n :: Untouched(s, stack, n) ==> n in env.original && s.config[n] == env.original[n])
  }

  /** Names still to be generated, for untouched nets and for the references that
      the callers have yet to visit, are not in use. */
  ghost predicate ReserveOk(env: Env, s: State, stack: set<string>, reserved: set<string>) {
    && reserved !! s.config.Keys
    && (forall n :: Untouched(s, stack, n) && n in env.original ==>
          NetGens(env.original, n) !! s.config.Keys && NetGens(env.original, n) !! reserved)
  }

  ghost predicate Inv(env: Env, s: State, stack: set<string>, reserved: set<string>) {
    CacheOk(env, s) && ConfigOk(env, s, stack) && ReserveOk(env, s, stack, reserved)
  }

  ghost predicate Apart(env: Env, s: State, stack: set<string>, reserved: set<string>, gens: set<string>) {
    && gens !! s.config.Keys && gens !! reserved
    && (forall n :: Untouched(s, stack, n) && n in env.original ==> gens !! NetGens(env.original, n))
  }

  ghost predicate Ready(env: Env, s: State, stack: set<string>, reserved: set<string>,
                        prefix: seq<string>, cs: seq<Child>) {
    && CoversAll(env.flat, prefix, cs) && Distinct(prefix, cs) && NamesOk(env, cs)
    && Apart(env, s, stack, reserved, GenNames(prefix, cs))
  }

  ghost predicate ReadyRef(env: Env, s: State, stack: set<string>, reserved: set<string>,
                           prefix: seq<string>, c: Child) {
    && CoversRef(env.flat, prefix, c) && DistinctRef(prefix, c)
    && (forall n :: n in MentionedIn(c.ref) && n in env.flat ==> n in env.original)
    && Apart(env, s, stack, reserved, RefGens(prefix, c))
  }

  // ------------------------------------------------------------ what a call achieves

  ghost predicate Grown(s: State, t: State) {
    && s.arena <= t.arena
    && (forall n :: n in s.cache ==> n in t.cache && t.cache[n] == s.cache[n])
    && s.config.Keys <= t.config.Keys
  }

  /** What `e` complains about can be reached from `n`. */
  ghost predicate Faulty(env: Env, stack: set<string>, n: string, e: Error) {
    exists x :: Reach(env.flat, n, x) && Wrong(env, stack, x, e)
  }

  /** `e` says truly what is wrong with `x`. */
  ghost predicate Wrong(env: Env, stack: set<string>, x: string, e: Error) {
    || (e == NotFound(x) && x !in env.flat)
    || (x in env.flat && KindFault(env.reg, env.flat[x], e))
    || (x in env.flat && HasGarbage(env.flat[x].children) && e == Malformed)
    || ((x in stack || OnCycle(env.flat, x)) && e == TypeNotLoaded(CIRCULAR))
  }

  ghost predicate NewReached(env: Env, s: State, t: State, from: string) {
    forall x :: x in t.cache && x !in s.cache ==> Reach(env.flat, from, x)
  }

  ghost predicate GetGood(env: Env, s: State, stack: set<string>, reserved: set<string>,
                          prefix: seq<string>, c: Child, res: Fallible<(State, string, nat)>) {
    match res
    case Err(e) => FaultyRef(env, stack, FlatRef(prefix, c), e)
    case Ok((t, name, id)) =>
      && Grown(s, t) && Inv(env, t, stack, reserved)
      && FlatRef(prefix, c) == Name(name)
      && name in t.cache && t.cache[name] == id
      && NewReached(env, s, t, name)
  }

  ghost predicate FaultyRef(env: Env, stack: set<string>, r: NetRef, e: Error) {
    (r.Garbage? && e == Malformed) || (r.Name? && Faulty(env, stack, r.name, e))
  }

  ghost predicate NewReachedFrom(env: Env, s: State, t: State, cs: seq<Child>) {
    forall x :: x in t.cache && x !in s.cache ==>
      exists k :: 0 <= k < |cs| && cs[k].ref.Name? && Reach(env.flat, cs[k].ref.name, x)
  }

  ghost predicate TargetsOk(t: State, cs: seq<Child>, ids: seq<nat>) {
    && |ids| == |cs|
    && forall k :: 0 <= k < |cs| ==>
         cs[k].ref.Name? && cs[k].ref.name in t.cache && t.cache[cs[k].ref.name] == ids[k]
  }

  ghost predicate VisitGood(env: Env, s: State, stack: set<string>, reserved: set<string>,
                            prefix: seq<string>, cs: seq<Child>, res: Fallible<(State, seq<Child>, seq<nat>)>) {
    match res
    case Err(e) => FaultyBelow(env, stack, prefix, cs, e)
    case Ok((t, flat, ids)) => Inv(env, t, stack, reserved) && Visited(env, s, t, prefix, cs, flat, ids)
  }

  ghost predicate FaultyBelow(env: Env, stack: set<string>, prefix: seq<string>, cs: seq<Child>, e: Error) {
    exists k :: 0 <= k < |cs| && FaultyRef(env, stack, FlatChildren(prefix, cs)[k].ref, e)
  }

  ghost predicate Visited(env: Env, s: State, t: State, prefix: seq<string>, cs: seq<Child>,
                          flat: seq<Child>, ids: seq<nat>) {
    && Grown(s, t)
    && flat == FlatChildren(prefix, cs)
    && TargetsOk(t, flat, ids)
    && NewReachedFrom(env, s, t, flat)
  }

  // ------------------------------------------------------------ the induction

  lemma {:induction false} VisitCorrect(env: Env, s: State, stack: set<string>, reserved: set<string>,
                                        prefix: seq<string>, cs: seq<Child>)
    requires EnvOk(env) && Inv(env, s, stack, reserved) && Ready(env, s, stack, reserved, prefix, cs)
    ensures VisitGood(env, s, stack, reserved, prefix, cs, Visit(env.reg, s, prefix, cs))
    decreases Takeable(s.config, s.cache), ChildrenSize(cs), 1
  {
    if cs == [] {
    } else {
      var c, rest := cs[0], cs[1..];
      var later := reserved + GenNames(prefix, rest);
      HeadReady(env, s, stack, reserved, prefix, cs);
      GetCorrect(env, s, stack, later, prefix, c);
      var got := Get(env.reg, s, c.ref, prefix, c.path);
      if got.Err? {
        JoinFault(env, stack, prefix, cs, got.error);
      } else {
        var (t, name, id) := got.value;
        TailReady(env, t, stack, reserved, prefix, cs);
        Shrinks(Takeable(s.config, s.cache), Takeable(t.config, t.cache));
        VisitCorrect(env, t, stack, reserved, prefix, rest);
        var visited := Visit(env.reg, t, prefix, rest);
        if visited.Err? {
          JoinFault(env, stack, prefix, cs, visited.error);
        } else {
          var (u, flat, ids) := visited.value;
          JoinVisit(env, s, t, u, prefix, cs, name, id, flat, ids);
        }
      }
    }
  }

  lemma Shrinks(before: set<string>, after: set<string>)
    requires after <= before
    ensures after == before || after < before
  {
  }

  lemma HeadReady(env: Env, s: State, stack: set<string>, reserved: set<string>, prefix: seq<string>, cs: seq<Child>)
    requires cs != [] && ReserveOk(env, s, stack, reserved) && Ready(env, s, stack, reserved, prefix, cs)
    ensures var later := reserved + GenNames(prefix, cs[1..]);
            ReserveOk(env, s, stack, later) && ReadyRef(env, s, stack, later, prefix, cs[0])
  {
  }

  lemma TailReady(env: Env, t: State, stack: set<string>, reserved: set<string>, prefix: seq<string>, cs: seq<Child>)
    requires cs != [] && CoversAll(env.flat, prefix, cs) && Distinct(prefix, cs) && NamesOk(env, cs)
    requires GenNames(prefix, cs) !! reserved
    requires ReserveOk(env, t, stack, reserved + GenNames(prefix, cs[1..]))
    ensures ReserveOk(env, t, stack, reserved) && Ready(env, t, stack, reserved, prefix, cs[1..])
  {
  }

  lemma JoinVisit(env: Env, s: State, t: State, u: State, prefix: seq<string>, cs: seq<Child>,
                  name: string, id: nat, flat: seq<Child>, ids: seq<nat>)
    requires cs != [] && FlatRef(prefix, cs[0]) == Name(name)
    requires Grown(s, t) && name in t.cache && t.cache[name] == id && NewReached(env, s, t, name)
    requires Visited(env, t, u, prefix, cs[1..], flat, ids)
    ensures Visited(env, s, u, prefix, cs, [Child(cs[0].path, Name(name))] + flat, [id] + ids)
  {
    JoinReached(env, s, t, u, name, cs[0].path, flat);
    JoinTargets(t, u, name, id, cs[0].path, flat, ids);
  }

  lemma JoinFault(env: Env, stack: set<string>, prefix: seq<string>, cs: seq<Child>, e: Error)
    requires cs != []
    requires FaultyRef(env, stack, FlatRef(prefix, cs[0]), e) || FaultyBelow(env, stack, prefix, cs[1..], e)
    ensures FaultyBelow(env, stack, prefix, cs, e)
  {
    var flat, rest := FlatChildren(prefix, cs), FlatChildren(prefix, cs[1..]);
    if FaultyRef(env, stack, FlatRef(prefix, cs[0]), e) {
      assert FaultyRef(env, stack, flat[0].ref, e);
    } else {
      var k :| 0 <= k < |rest| && FaultyRef(env, stack, rest[k].ref, e);
      assert flat[k + 1] == rest[k];
    }
  }

  lemma JoinReached(env: Env, s: State, t: State, u: State, name: string, path: seq<string>, flat: seq<Child>)
    requires NewReached(env, s, t, name) && NewReachedFrom(env, t, u, flat)
    ensures NewReachedFrom(env, s, u, [Child(path, Name(name))] + flat)
  {
    var all := [Child(path, Name(name))] + flat;
    forall x | x in u.cache && x !in s.cache
      ensures exists k :: 0 <= k < |all| && all[k].ref.Name? && Reach(env.flat, all[k].ref.name, x)
    {
      if x in t.cache {
        assert Reach(env.flat, all[0].ref.name, x);
      } else {
        var k :| 0 <= k < |flat| && flat[k].ref.Name? && Reach(env.flat, flat[k].ref.name, x);
        assert all[k + 1] == flat[k];
      }
    }
  }

  lemma JoinTargets(t: State, u: State, name: string, id: nat, path: seq<string>, flat: seq<Child>, ids: seq<nat>)
    requires Grown(t, u) && name in t.cache && t.cache[name] == id
    requires TargetsOk(u, flat, ids)
    ensures TargetsOk(u, [Child(path, Name(name))] + flat, [id] + ids)
  {
  }

  lemma {:induction false} GetCorrect(env: Env, s: State, stack: set<string>, reserved: set<string>,
                                      prefix: seq<string>, c: Child)
    requires EnvOk(env) && Inv(env, s, stack, reserved) && ReadyRef(env, s, stack, reserved, prefix, c)
    ensures GetGood(env, s, stack, reserved, prefix, c, Get(env.reg, s, c.ref, prefix, c.path))
    decreases Takeable(s.config, s.cache), RefSize(c.ref), 0
  {
    if !c.ref.Garbage? {
      var name := RefName(c.ref, prefix, c.path);
      var config := Inserted(s.config, c.ref, name);
      ReachSelf(env.flat, name);
      if name in s.cache {
        assert c.ref.Name?;
      } else if name !in config {
        assert name in MentionedIn(c.ref);
        assert Wrong(env, stack, name, NotFound(name));
      } else if name in stack {
        assert config[name] == PLACEHOLDER;
        assert Wrong(env, stack, name, TypeNotLoaded(CIRCULAR));
      } else {
        TakenDecreases(s.config, config, s.cache, name, c.ref);
        TakeEntry(env, s, stack, reserved, prefix, c);
        var taken := s.(config := config[name := PLACEHOLDER]);
        BuildCorrect(env, taken, stack, reserved, name, config[name]);
        PutBack(env, s, stack, reserved, prefix, c,
                Build(env.reg, env.reg, taken, NetPrefix(name), config[name]));
      }
    }
  }

  lemma PutBack(env: Env, s: State, stack: set<string>, reserved: set<string>, prefix: seq<string>, c: Child,
                built: Fallible<(State, Net, seq<nat>)>)
    requires !c.ref.Garbage?
    requires var name := RefName(c.ref, prefix, c.path);
             var config := Inserted(s.config, c.ref, name);
             && name !in s.cache && name !in stack && name in config
             && BuildGood(env, s.(config := config[name := PLACEHOLDER]), stack, reserved, name, built)
    ensures var name := RefName(c.ref, prefix, c.path);
            GetGood(env, s, stack, reserved, prefix, c,
                    if built.Err? then Err(built.error)
                    else Ok((Finished(built.value.0, name, built.value.1, built.value.2), name, |built.value.0.arena|)))
  {
    if built.Ok? {
      var name := RefName(c.ref, prefix, c.path);
      var (t, item, ids) := built.value;
      var config := Inserted(s.config, c.ref, name);
      FinishEntry(env, s.(config := config[name := PLACEHOLDER]), t, stack, reserved, name, ids);
    }
  }

  /** Building one net whose entry was just replaced by the placeholder. */
  lemma {:induction false} BuildCorrect(env: Env, s: State, stack: set<string>, reserved: set<string>,
                                        name: string, entry: Net)
    requires EnvOk(env) && Inv(env, s, stack + {name}, reserved)
    requires Covers(env.flat, name, entry)
    requires Ready(env, s, stack + {name}, reserved, NetPrefix(name), entry.children)
    ensures BuildGood(env, s, stack, reserved, name, Build(env.reg, env.reg, s, NetPrefix(name), entry))
    decreases Takeable(s.config, s.cache), ChildrenSize(entry.children), 2
  {
    VisitCorrect(env, s, stack + {name}, reserved, NetPrefix(name), entry.children);
    var visited := Visit(env.reg, s, NetPrefix(name), entry.children);
    BuildAfterVisit(env.reg, env.reg, s, NetPrefix(name), entry);
    VisitedBuild(env, s, stack, reserved, name, entry, visited);
  }

  /** What becomes of an item once its references have been visited. */
  ghost function AfterVisit(kinds: Registry, item: Net, visited: Fallible<(State, seq<Child>, seq<nat>)>)
    : Fallible<(State, Net, seq<nat>)>
  {
    if item.kind !in kinds then Err(TypeNotLoaded(item.kind))
    else if !kinds[item.kind].parses(item.data) then Err(BadOptions(item.kind))
    else
      match visited
      case Err(e) => Err(e)
      case Ok((t, cs, targets)) =>
        if kinds[item.kind].builds(item.data) then Ok((t, item.(children := cs), targets)) else Err(BuildFailed(item.kind))
  }

  lemma BuildAfterVisit(kinds: Registry, reg: Registry, s: State, prefix: seq<string>, item: Net)
    ensures Build(kinds, reg, s, prefix, item) == AfterVisit(kinds, item, Visit(reg, s, prefix, item.children))
  {
  }

  lemma AfterVisitFault(kinds: Registry, item: Net, visited: Fallible<(State, seq<Child>, seq<nat>)>)
    ensures var built := AfterVisit(kinds, item, visited);
            && (built.Ok? <==> KindOk(kinds, item) && visited.Ok?)
            && (built.Err? ==> KindFault(kinds, item, built.error) || visited == Err(built.error))
  {
  }

  lemma VisitedBuild(env: Env, s: State, stack: set<string>, reserved: set<string>, name: string, entry: Net,
                     visited: Fallible<(State, seq<Child>, seq<nat>)>)
    requires name in env.flat && env.flat[name] == FlatNet(name, entry)
    requires VisitGood(env, s, stack + {name}, reserved, NetPrefix(name), entry.children, visited)
    ensures BuildGood(env, s, stack, reserved, name, AfterVisit(env.reg, entry, visited))
  {
    var built := AfterVisit(env.reg, entry, visited);
    AfterVisitFault(env.reg, entry, visited);
    VisitedItem(env, s, stack, reserved, name, entry, visited);
    if built.Err? && KindFault(env.reg, entry, built.error) {
      OwnFault(env, stack, name, entry, built.error);
    }
  }

  lemma VisitedItem(env: Env, s: State, stack: set<string>, reserved: set<string>, name: string, entry: Net,
                    visited: Fallible<(State, seq<Child>, seq<nat>)>)
    requires name in env.flat && env.flat[name] == FlatNet(name, entry)
    requires VisitGood(env, s, stack + {name}, reserved, NetPrefix(name), entry.children, visited)
    ensures visited.Ok? ==> (ItemOk(env.reg, env.flat[name]) <==> KindOk(env.reg, entry))
    ensures visited.Err? ==> Faulty(env, stack, name, visited.error)
  {
    var flat := FlatChildren(NetPrefix(name), entry.children);
    if visited.Err? {
      var k :| 0 <= k < |entry.children| && FaultyRef(env, stack + {name}, flat[k].ref, visited.error);
      ChildFault(env, stack, name, k, visited.error);
    }
  }

  /** A net is at fault itself if its type does not accept it. */
  lemma OwnFault(env: Env, stack: set<string>, name: string, entry: Net, e: Error)
    requires name in env.flat && env.flat[name] == FlatNet(name, entry) && KindFault(env.reg, entry, e)
    ensures Faulty(env, stack, name, e)
  {
    ReachSelf(env.flat, name);
    assert Wrong(env, stack, name, e);
  }

  ghost predicate BuildGood(env: Env, s: State, stack: set<string>, reserved: set<string>, name: string,
                            res: Fallible<(State, Net, seq<nat>)>) {
    match res
    case Err(e) => Faulty(env, stack, name, e)
    case Ok((t, item, ids)) =>
      && name in env.flat && item == env.flat[name] && ItemOk(env.reg, item)
      && Grown(s, t) && Inv(env, t, stack + {name}, reserved)
      && TargetsOk(t, item.children, ids)
      && NewReachedFrom(env, s, t, item.children)
  }

  lemma ChildFault(env: Env, stack: set<string>, name: string, k: nat, e: Error)
    requires name in env.flat && k < |env.flat[name].children|
    requires FaultyRef(env, stack + {name}, env.flat[name].children[k].ref, e)
    ensures Faulty(env, stack, name, e)
  {
    var r := env.flat[name].children[k].ref;
    if r.Garbage? {
      ReachSelf(env.flat, name);
      assert Wrong(env, stack, name, e);
    } else {
      var x :| Reach(env.flat, r.name, x) && Wrong(env, stack + {name}, x, e);
      assert Edge(env.flat, name, r.name);
      if x == name { assert OnCycle(env.flat, name); }
      ReachFirst(env.flat, name, r.name, x);
      assert Wrong(env, stack, x, e);
    }
  }

  /** Replacing the entry by the placeholder puts the name on the stack. */
  lemma TakeEntry(env: Env, s: State, stack: set<string>, reserved: set<string>, prefix: seq<string>, c: Child)
    requires EnvOk(env) && Inv(env, s, stack, reserved) && ReadyRef(env, s, stack, reserved, prefix, c)
    requires !c.ref.Garbage?
    requires var name := RefName(c.ref, prefix, c.path);
             name !in s.cache && name !in stack && name in Inserted(s.config, c.ref, name)
    ensures var name := RefName(c.ref, prefix, c.path);
            var config := Inserted(s.config, c.ref, name);
            var t := s.(config := config[name := PLACEHOLDER]);
            && Covers(env.flat, name, config[name])
            && Inv(env, t, stack + {name}, reserved)
            && Ready(env, t, stack + {name}, reserved, NetPrefix(name), config[name].children)
  {
    var name := RefName(c.ref, prefix, c.path);
    var config := Inserted(s.config, c.ref, name);
    assert config[name := PLACEHOLDER] == s.config[name := PLACEHOLDER];
    TakeCache(env, s, name);
    if c.ref.Name? {
      TakeNamed(env, s, stack, reserved, name);
    } else {
      TakeInline(env, s, stack, reserved, prefix, c);
    }
  }

  lemma TakeNamed(env: Env, s: State, stack: set<string>, reserved: set<string>, name: string)
    requires EnvOk(env) && ConfigOk(env, s, stack) && ReserveOk(env, s, stack, reserved)
    requires name !in s.cache && name !in stack && name in s.config
    ensures var t := s.(config := s.config[name := PLACEHOLDER]);
            && Covers(env.flat, name, s.config[name])
            && ConfigOk(env, t, stack + {name}) && ReserveOk(env, t, stack + {name}, reserved)
            && Ready(env, t, stack + {name}, reserved, NetPrefix(name), s.config[name].children)
  {
    assert Untouched(s, stack, name);
    TakeConfig(env, s, stack, reserved, name);
    TakeApart(env, s, stack, reserved, name, NetGens(env.original, name));
  }

  lemma TakeInline(env: Env, s: State, stack: set<string>, reserved: set<string>, prefix: seq<string>, c: Child)
    requires ConfigOk(env, s, stack) && ReserveOk(env, s, stack, reserved)
    requires ReadyRef(env, s, stack, reserved, prefix, c) && c.ref.Inline?
    requires var name := GenName(prefix, c.path); name !in s.cache && name !in stack
    ensures var name := GenName(prefix, c.path);
            var t := s.(config := s.config[name := PLACEHOLDER]);
            && Covers(env.flat, name, c.ref.net)
            && ConfigOk(env, t, stack + {name}) && ReserveOk(env, t, stack + {name}, reserved)
            && Ready(env, t, stack + {name}, reserved, NetPrefix(name), c.ref.net.children)
  {
    var name := GenName(prefix, c.path);
    assert name in RefGens(prefix, c) && Covers(env.flat, name, c.ref.net);
    TakeConfig(env, s, stack, reserved, name);
    TakeApart(env, s, stack, reserved, name, GenNames(NetPrefix(name), c.ref.net.children));
  }

  lemma TakeCache(env: Env, s: State, name: string)
    requires CacheOk(env, s) && name !in s.cache
    ensures CacheOk(env, s.(config := s.config[name := PLACEHOLDER]))
  {
    assert forall i :: 0 <= i < |s.arena| ==> EntryOk(env.flat, s.cache, s.arena, i);
  }

  lemma TakeConfig(env: Env, s: State, stack: set<string>, reserved: set<string>, name: string)
    requires ConfigOk(env, s, stack) && ReserveOk(env, s, stack, reserved)
    requires name !in s.cache && name !in stack && name in env.flat && name !in reserved
    requires forall n :: Untouched(s, stack, n) && n in env.original ==> name !in NetGens(env.original, n)
    ensures var t := s.(config := s.config[name := PLACEHOLDER]);
            ConfigOk(env, t, stack + {name}) && ReserveOk(env, t, stack + {name}, reserved)
  {
    var t := s.(config := s.config[name := PLACEHOLDER]);
    assert t.config.Keys == s.config.Keys + {name};
    forall n | Untouched(t, stack + {name}, n)
      ensures Untouched(s, stack, n) && n != name
    {
    }
  }

  lemma TakeApart(env: Env, s: State, stack: set<string>, reserved: set<string>, name: string, gens: set<string>)
    requires gens !! s.config.Keys && gens !! reserved && name !in gens
    requires forall n :: Untouched(s, stack, n) && n != name && n in env.original ==> gens !! NetGens(env.original, n)
    ensures Apart(env, s.(config := s.config[name := PLACEHOLDER]), stack + {name}, reserved, gens)
  {
    var t := s.(config := s.config[name := PLACEHOLDER]);
    assert t.config.Keys == s.config.Keys + {name};
    forall n | Untouched(t, stack + {name}, n)
      ensures Untouched(s, stack, n) && n != name
    {
    }
  }

  /** Putting the finished entry back takes the name off the stack. */
  lemma FinishEntry(env: Env, s: State, t: State, stack: set<string>, reserved: set<string>, name: string, ids: seq<nat>)
    requires name !in s.cache && name !in stack && name in env.flat
    requires BuildGood(env, s, stack, reserved, name, Ok((t, env.flat[name], ids)))
    ensures var u := Finished(t, name, env.flat[name], ids);
            Grown(s, u) && Inv(env, u, stack, reserved) && NewReached(env, s, u, name)
  {
    assert name in stack + {name};
    FinishCache(env, t, name, ids);
    FinishConfig(env, t, stack, reserved, name, ids);
    FinishReached(env, s, t, name, ids);
  }

  lemma FinishConfig(env: Env, t: State, stack: set<string>, reserved: set<string>, name: string, ids: seq<nat>)
    requires name !in stack && name in env.flat
    requires ConfigOk(env, t, stack + {name}) && ReserveOk(env, t, stack + {name}, reserved)
    ensures ConfigOk(env, Finished(t, name, env.flat[name], ids), stack)
    ensures ReserveOk(env, Finished(t, name, env.flat[name], ids), stack, reserved)
  {
    var u := Finished(t, name, env.flat[name], ids);
    assert name in stack + {name};
    assert u.config.Keys == t.config.Keys;
    forall n | Untouched(u, stack, n)
      ensures Untouched(t, stack + {name}, n) && n != name
    {
    }
  }

  lemma FinishReached(env: Env, s: State, t: State, name: string, ids: seq<nat>)
    requires name in env.flat && NewReachedFrom(env, s, t, env.flat[name].children)
    ensures NewReached(env, s, Finished(t, name, env.flat[name], ids), name)
  {
    var item := env.flat[name];
    ReachSelf(env.flat, name);
    forall x | x in t.cache && x !in s.cache
      ensures Reach(env.flat, name, x)
    {
      var k :| 0 <= k < |item.children| && item.children[k].ref.Name? &&
               Reach(env.flat, item.children[k].ref.name, x);
      assert Edge(env.flat, name, item.children[k].ref.name);
      ReachFirst(env.flat, name, item.children[k].ref.name, x);
    }
  }

  ghost function Finished(t: State, name: string, item: Net, ids: seq<nat>): State {
    State(t.config[name := item], t.cache[name := |t.arena|], t.arena + [Running(name, item, ids)])
  }

  lemma FinishCache(env: Env, t: State, name: string, ids: seq<nat>)
    requires CacheOk(env, t) && name !in t.cache && name in env.flat && ItemOk(env.reg, env.flat[name])
    requires TargetsOk(t, env.flat[name].children, ids)
    ensures CacheOk(env, Finished(t, name, env.flat[name], ids))
  {
    var u := Finished(t, name, env.flat[name], ids);
    forall i | 0 <= i < |u.arena|
      ensures EntryOk(env.flat, u.cache, u.arena, i)
    {
      if i < |t.arena| {
        assert EntryOk(env.flat, t.cache, t.arena, i);
      }
    }
  }

  // ------------------------------------------------------------ the servers

  ghost predicate ServerFault(env: Env, serverReg: Registry, server: Server, e: Error) {
    || KindFault(serverReg, server.item, e)
    || FaultyBelow(env, {}, ServerPrefix(server.name), server.item.children, e)
  }

  ghost predicate ServersReady(env: Env, s: State, servers: seq<Server>) {
    && CoversServers(env.flat, servers) && ServersDistinct(servers)
    && (forall n :: n in ServersMention(servers) && n in env.flat ==> n in env.original)
    && Apart(env, s, {}, {}, ServersGens(servers))
  }

  ghost predicate FromServer(flat: Nets, server: Server, x: string) {
    exists k :: 0 <= k < |server.item.children| && server.item.children[k].ref.Name? &&
                Reach(flat, server.item.children[k].ref.name, x)
  }

  /** `x` can be reached from a reference of some server (of a flat server list). */
  ghost predicate FromServers(flat: Nets, servers: seq<Server>, x: string) {
    exists i :: 0 <= i < |servers| && FromServer(flat, servers[i], x)
  }

  ghost predicate ServersTargetsOk(t: State, servers: seq<Server>, targets: seq<seq<nat>>) {
    && |targets| == |servers|
    && forall i :: 0 <= i < |servers| ==> TargetsOk(t, servers[i].item.children, targets[i])
  }

  /** What a successful pass over the servers leaves. */
  ghost predicate Served(env: Env, serverReg: Registry, s: State, t: State, servers: seq<Server>,
                         flat: seq<Server>, targets: seq<seq<nat>>) {
    && Grown(s, t)
    && flat == FlatServers(servers)
    && ServersTargetsOk(t, flat, targets)
    && KindsOk(serverReg, servers)
    && NewFromServers(env, s, t, flat)
  }

  ghost predicate KindsOk(serverReg: Registry, servers: seq<Server>) {
    forall i :: 0 <= i < |servers| ==> KindOk(serverReg, servers[i].item)
  }

  ghost predicate NewFromServers(env: Env, s: State, t: State, flat: seq<Server>) {
    forall x :: x in t.cache && x !in s.cache ==> FromServers(env.flat, flat, x)
  }

  ghost predicate ServerFails(env: Env, serverReg: Registry, servers: seq<Server>, e: Error) {
    exists i :: 0 <= i < |servers| && ServerFault(env, serverReg, servers[i], e)
  }

  ghost predicate ServersGood(env: Env, serverReg: Registry, s: State, servers: seq<Server>,
                              res: Fallible<(State, seq<Server>, seq<seq<nat>>)>) {
    match res
    case Err(e) => ServerFails(env, serverReg, servers, e)
    case Ok((t, flat, targets)) => Inv(env, t, {}, {}) && Served(env, serverReg, s, t, servers, flat, targets)
  }

  lemma {:induction false} ServersCorrect(env: Env, serverReg: Registry, s: State, servers: seq<Server>)
    requires EnvOk(env) && Inv(env, s, {}, {}) && ServersReady(env, s, servers)
    ensures ServersGood(env, serverReg, s, servers, BuildServers(serverReg, env.reg, s, servers))
    decreases |servers|
  {
    if servers != [] {
      var head, rest := servers[0], servers[1..];
      HeadServerReady(env, s, servers);
      VisitCorrect(env, s, {}, ServersGens(rest), ServerPrefix(head.name), head.item.children);
      var visited := Visit(env.reg, s, ServerPrefix(head.name), head.item.children);
      var built := Build(serverReg, env.reg, s, ServerPrefix(head.name), head.item);
      BuildAfterVisit(serverReg, env.reg, s, ServerPrefix(head.name), head.item);
      AfterVisitFault(serverReg, head.item, visited);
      if built.Err? {
        assert ServerFault(env, serverReg, servers[0], built.error);
      } else {
        var (t, flat, ids) := visited.value;
        TailServersReady(env, t, servers);
        ServersCorrect(env, serverReg, t, rest);
        RestServed(env, serverReg, s, t, servers, ids, BuildServers(serverReg, env.reg, t, rest));
      }
    }
  }

  lemma RestServed(env: Env, serverReg: Registry, s: State, t: State, servers: seq<Server>, ids: seq<nat>,
                   served: Fallible<(State, seq<Server>, seq<seq<nat>>)>)
    requires servers != [] && KindOk(serverReg, servers[0].item)
    requires Visited(env, s, t, ServerPrefix(servers[0].name), servers[0].item.children,
                     FlatServer(servers[0]).item.children, ids)
    requires ServersGood(env, serverReg, t, servers[1..], served)
    ensures served.Err? ==> ServersGood(env, serverReg, s, servers, served)
    ensures served.Ok? ==>
      ServersGood(env, serverReg, s, servers,
                  Ok((served.value.0, [FlatServer(servers[0])] + served.value.1, [ids] + served.value.2)))
  {
    if served.Err? {
      LaterServerFails(env, serverReg, servers, served.error);
    } else {
      var (u, flats, targets) := served.value;
      JoinServers(env, serverReg, s, t, u, servers, ids, flats, targets);
    }
  }

  lemma HeadServerReady(env: Env, s: State, servers: seq<Server>)
    requires servers != [] && ReserveOk(env, s, {}, {}) && ServersReady(env, s, servers)
    ensures ReserveOk(env, s, {}, ServersGens(servers[1..]))
    ensures Ready(env, s, {}, ServersGens(servers[1..]), ServerPrefix(servers[0].name), servers[0].item.children)
  {
  }

  lemma TailServersReady(env: Env, t: State, servers: seq<Server>)
    requires servers != [] && ReserveOk(env, t, {}, ServersGens(servers[1..]))
    requires CoversServers(env.flat, servers) && ServersDistinct(servers)
    requires forall n :: n in ServersMention(servers) && n in env.flat ==> n in env.original
    ensures ReserveOk(env, t, {}, {}) && ServersReady(env, t, servers[1..])
  {
  }

  lemma LaterServerFails(env: Env, serverReg: Registry, servers: seq<Server>, e: Error)
    requires servers != [] && ServerFails(env, serverReg, servers[1..], e)
    ensures ServerFails(env, serverReg, servers, e)
  {
    var i :| 0 <= i < |servers[1..]| && ServerFault(env, serverReg, servers[1..][i], e);
    assert servers[i + 1] == servers[1..][i];
  }

  lemma JoinServers(env: Env, serverReg: Registry, s: State, t: State, u: State, servers: seq<Server>,
                    ids: seq<nat>, flats: seq<Server>, targets: seq<seq<nat>>)
    requires servers != [] && KindOk(serverReg, servers[0].item)
    requires var flat := FlatServer(servers[0]).item.children;
             Grown(s, t) && TargetsOk(t, flat, ids) && NewReachedFrom(env, s, t, flat)
    requires Served(env, serverReg, t, u, servers[1..], flats, targets)
    ensures Served(env, serverReg, s, u, servers, [FlatServer(servers[0])] + flats, [ids] + targets)
  {
    JoinServerTargets(t, u, FlatServer(servers[0]), ids, flats, targets);
    JoinServerReached(env, s, t, u, FlatServer(servers[0]), flats);
    JoinKinds(serverReg, servers);
  }

  lemma JoinKinds(serverReg: Registry, servers: seq<Server>)
    requires servers != [] && KindOk(serverReg, servers[0].item) && KindsOk(serverReg, servers[1..])
    ensures KindsOk(serverReg, servers)
  {
    forall i | 0 <= i < |servers|
      ensures KindOk(serverReg, servers[i].item)
    {
      if i > 0 { assert servers[i] == servers[1..][i - 1]; }
    }
  }

  lemma JoinServerTargets(t: State, u: State, head: Server, ids: seq<nat>, flats: seq<Server>, targets: seq<seq<nat>>)
    requires Grown(t, u) && TargetsOk(t, head.item.children, ids) && ServersTargetsOk(u, flats, targets)
    ensures ServersTargetsOk(u, [head] + flats, [ids] + targets)
  {
    assert TargetsOk(u, head.item.children, ids);
  }

  lemma JoinServerReached(env: Env, s: State, t: State, u: State, head: Server, flats: seq<Server>)
    requires NewReachedFrom(env, s, t, head.item.children) && NewFromServers(env, t, u, flats)
    ensures NewFromServers(env, s, u, [head] + flats)
  {
    var all := [head] + flats;
    forall x | x in u.cache && x !in s.cache
      ensures FromServers(env.flat, all, x)
    {
      if x in t.cache {
        assert FromServer(env.flat, all[0], x);
      } else {
        var i :| 0 <= i < |flats| && FromServer(env.flat, flats[i], x);
        assert all[i + 1] == flats[i];
      }
    }
  }

  // ------------------------------------------------------------ the main theorems

  /** The flat graph is sound: every server can be built, and every net reachable from
      a server is defined, can be built, and lies on no cycle. */
  ghost predicate Sound(flat: Nets, reg: Registry, serverReg: Registry, servers: seq<Server>) {
    && (forall i :: 0 <= i < |servers| ==> ItemOk(serverReg, servers[i].item))
    && (forall x :: FromServers(flat, FlatServers(servers), x) ==>
          x in flat && ItemOk(reg, flat[x]) && !OnCycle(flat, x))
  }

  ghost predicate Start(nets: Nets, servers: seq<Server>, flat: Nets, reg: Registry) {
    CIRCULAR !in reg && Fresh(nets, servers) && IsFlattening(flat, nets, servers)
  }

  lemma StartOk(nets: Nets, servers: seq<Server>, flat: Nets, reg: Registry)
    requires Start(nets, servers, flat, reg)
    ensures EnvOk(Env(nets, flat, reg))
    ensures Inv(Env(nets, flat, reg), State(nets, map[], []), {}, {})
    ensures ServersReady(Env(nets, flat, reg), State(nets, map[], []), servers)
  {
    var env, s := Env(nets, flat, reg), State(nets, map[], []);
    forall n | n in nets
      ensures NetGens(nets, n) <= NetsGens(nets)
    {
    }
    assert forall n :: n in flat && n !in nets ==> n in AllGens(nets, servers);
  }

  /** Building succeeds exactly when the flat graph is sound. */
  lemma BuildSucceedsExactly(nets: Nets, servers: seq<Server>, flat: Nets, reg: Registry, serverReg: Registry)
    requires Start(nets, servers, flat, reg)
    ensures BuildServers(serverReg, reg, State(nets, map[], []), servers).Ok? <==> Sound(flat, reg, serverReg, servers)
  {
    var env, s := Env(nets, flat, reg), State(nets, map[], []);
    StartOk(nets, servers, flat, reg);
    ServersCorrect(env, serverReg, s, servers);
    var res := BuildServers(serverReg, reg, s, servers);
    if res.Ok? {
      BuiltIsSound(env, serverReg, s, res.value.0, servers, res.value.1, res.value.2);
    } else {
      FailedIsUnsound(env, serverReg, servers, res.error);
    }
  }

  /** A server of the list, or a net that can be reached from one, is at fault. */
  ghost predicate Blames(env: Env, serverReg: Registry, servers: seq<Server>, e: Error) {
    || (exists i :: 0 <= i < |servers| && ServerBlamed(serverReg, servers[i], e))
    || (exists x :: FromServers(env.flat, FlatServers(servers), x) && Wrong(env, {}, x, e))
  }

  ghost predicate ServerBlamed(serverReg: Registry, server: Server, e: Error) {
    KindFault(serverReg, server.item, e) || (HasGarbage(server.item.children) && e == Malformed)
  }

  lemma FailureBlames(env: Env, serverReg: Registry, servers: seq<Server>, e: Error)
    requires ServerFails(env, serverReg, servers, e)
    ensures Blames(env, serverReg, servers, e)
  {
    var i :| 0 <= i < |servers| && ServerFault(env, serverReg, servers[i], e);
    FaultBlames(env, serverReg, servers[i], e);
    if !ServerBlamed(serverReg, servers[i], e) {
      var x :| FromServer(env.flat, FlatServer(servers[i]), x) && Wrong(env, {}, x, e);
      assert FlatServers(servers)[i] == FlatServer(servers[i]);
      assert FromServers(env.flat, FlatServers(servers), x);
    }
  }

  lemma FaultBlames(env: Env, serverReg: Registry, server: Server, e: Error)
    requires ServerFault(env, serverReg, server, e)
    ensures || ServerBlamed(serverReg, server, e)
            || exists x :: FromServer(env.flat, FlatServer(server), x) && Wrong(env, {}, x, e)
  {
    if !KindFault(serverReg, server.item, e) {
      var cs, flat := server.item.children, FlatServer(server).item.children;
      var k :| 0 <= k < |cs| && FaultyRef(env, {}, flat[k].ref, e);
      if flat[k].ref.Garbage? {
        assert cs[k].ref.Garbage?;
      } else {
        var x :| Reach(env.flat, flat[k].ref.name, x) && Wrong(env, {}, x, e);
        assert FromServer(env.flat, FlatServer(server), x);
      }
    }
  }

  /** When a build fails its error is true: it names a type that is not there or refuses
      its options, a name that is not defined, a reference that is none, or a cycle, and
      that is so of a server or of a net that servers reach. */
  lemma ErrorIsTrue(nets: Nets, servers: seq<Server>, flat: Nets, reg: Registry, serverReg: Registry)
    requires Start(nets, servers, flat, reg)
    ensures var res := BuildServers(serverReg, reg, State(nets, map[], []), servers);
            res.Err? ==> Blames(Env(nets, flat, reg), serverReg, servers, res.error)
  {
    var env, s := Env(nets, flat, reg), State(nets, map[], []);
    var res := BuildServers(serverReg, reg, s, servers);
    if res.Err? {
      StartOk(nets, servers, flat, reg);
      ServersCorrect(env, serverReg, s, servers);
      FailureBlames(env, serverReg, servers, res.error);
    }
  }

  lemma WrongIsUnsound(env: Env, x: string, e: Error)
    requires Wrong(env, {}, x, e)
    ensures x !in env.flat || !ItemOk(env.reg, env.flat[x]) || OnCycle(env.flat, x)
  {
  }

  lemma BlamedIsUnsound(serverReg: Registry, server: Server, e: Error)
    requires ServerBlamed(serverReg, server, e)
    ensures !ItemOk(serverReg, server.item)
  {
  }

  lemma FailedIsUnsound(env: Env, serverReg: Registry, servers: seq<Server>, e: Error)
    requires ServerFails(env, serverReg, servers, e)
    ensures !Sound(env.flat, env.reg, serverReg, servers)
  {
    FailureBlames(env, serverReg, servers, e);
    if i :| 0 <= i < |servers| && ServerBlamed(serverReg, servers[i], e) {
      BlamedIsUnsound(serverReg, servers[i], e);
    } else {
      var x :| FromServers(env.flat, FlatServers(servers), x) && Wrong(env, {}, x, e);
      WrongIsUnsound(env, x, e);
    }
  }

  /** In a finished state every edge out of a cached net leads to a cached net built
      before it. */
  lemma CacheRanks(env: Env, t: State, x: string, y: string)
    requires CacheOk(env, t) && x in t.cache && Edge(env.flat, x, y)
    ensures y in t.cache && t.cache[y] < t.cache[x]
  {
    var i := t.cache[x];
    assert EntryOk(env.flat, t.cache, t.arena, i);
    var k :| 0 <= k < |env.flat[x].children| && env.flat[x].children[k].ref == Name(y);
    var j := t.arena[i].targets[k];
    assert EntryOk(env.flat, t.cache, t.arena, j);
  }

  /** A cached net is exactly one that can be reached from a server. */
  lemma CachedIsReachable(env: Env, s: State, t: State, flats: seq<Server>, targets: seq<seq<nat>>, x: string)
    requires CacheOk(env, t) && s.cache == map[]
    requires ServersTargetsOk(t, flats, targets) && NewFromServers(env, s, t, flats)
    ensures x in t.cache <==> FromServers(env.flat, flats, x)
  {
    if FromServers(env.flat, flats, x) {
      forall x, y | x in t.cache.Keys && Edge(env.flat, x, y)
        ensures y in t.cache.Keys
      {
        CacheRanks(env, t, x, y);
      }
      var i :| 0 <= i < |flats| && FromServer(env.flat, flats[i], x);
      var cs := flats[i].item.children;
      var k :| 0 <= k < |cs| && cs[k].ref.Name? && Reach(env.flat, cs[k].ref.name, x);
      assert TargetsOk(t, cs, targets[i]);
      ReachStaysIn(env.flat, t.cache.Keys, cs[k].ref.name, x);
    }
  }

  lemma CachedIsAcyclic(env: Env, t: State, x: string)
    requires CacheOk(env, t) && x in t.cache
    ensures !OnCycle(env.flat, x)
  {
    forall x, y | x in t.cache && Edge(env.flat, x, y)
      ensures y in t.cache && t.cache[y] < t.cache[x]
    {
      CacheRanks(env, t, x, y);
    }
    RankedHasNoCycle(env.flat, t.cache, x);
  }

  lemma ServedItemOk(serverReg: Registry, t: State, servers: seq<Server>, targets: seq<seq<nat>>, i: nat)
    requires i < |servers| && KindsOk(serverReg, servers) && ServersTargetsOk(t, FlatServers(servers), targets)
    ensures ItemOk(serverReg, servers[i].item)
  {
    var flat := FlatServers(servers)[i].item.children;
    assert TargetsOk(t, flat, targets[i]);
    forall k | 0 <= k < |servers[i].item.children|
      ensures !servers[i].item.children[k].ref.Garbage?
    {
      assert flat[k].ref.Name?;
    }
  }

  lemma BuiltIsSound(env: Env, serverReg: Registry, s: State, t: State, servers: seq<Server>,
                     flats: seq<Server>, targets: seq<seq<nat>>)
    requires CacheOk(env, t) && s.cache == map[]
    requires Served(env, serverReg, s, t, servers, flats, targets)
    ensures Sound(env.flat, env.reg, serverReg, servers)
  {
    forall x | FromServers(env.flat, flats, x)
      ensures x in env.flat && ItemOk(env.reg, env.flat[x]) && !OnCycle(env.flat, x)
    {
      CachedIsReachable(env, s, t, flats, targets, x);
      CachedIsAcyclic(env, t, x);
    }
    forall i | 0 <= i < |servers|
      ensures ItemOk(serverReg, servers[i].item)
    {
      ServedItemOk(serverReg, t, servers, targets, i);
    }
  }

  /** What a successful build leaves: the running nets are exactly the reachable names,
      each built once, from its flat entry, with the running nets its references name;
      the config holds the flat entries of those names and the rest as it was. */
  ghost predicate BuiltExactly(nets: Nets, flat: Nets, flats: seq<Server>, t: State) {
    && (forall x :: x in t.cache <==> FromServers(flat, flats, x))
    && (forall i, j :: 0 <= i < j < |t.arena| ==> t.arena[i].name != t.arena[j].name)
    && (forall i :: 0 <= i < |t.arena| ==> EntryOk(flat, t.cache, t.arena, i))
    && (forall x :: x in t.cache ==> t.cache[x] < |t.arena| && t.arena[t.cache[x]].name == x)
    && t.config.Keys == nets.Keys + t.cache.Keys
    && (forall n :: n in t.cache ==> n in flat && t.config[n] == flat[n])
    && (forall n :: n in nets && n !in t.cache ==> t.config[n] == nets[n])
  }

  lemma BuildResult(nets: Nets, servers: seq<Server>, flat: Nets, reg: Registry, serverReg: Registry)
    requires Start(nets, servers, flat, reg)
    requires Sound(flat, reg, serverReg, servers)
    ensures var res := BuildServers(serverReg, reg, State(nets, map[], []), servers);
            && res.Ok?
            && res.value.1 == FlatServers(servers)
            && BuiltExactly(nets, flat, res.value.1, res.value.0)
            && ServersTargetsOk(res.value.0, res.value.1, res.value.2)
  {
    var env, s := Env(nets, flat, reg), State(nets, map[], []);
    BuildSucceedsExactly(nets, servers, flat, reg, serverReg);
    StartOk(nets, servers, flat, reg);
    ServersCorrect(env, serverReg, s, servers);
    var (t, flats, targets) := BuildServers(serverReg, reg, s, servers).value;
    forall x ensures x in t.cache <==> FromServers(flat, flats, x) {
      CachedIsReachable(env, s, t, flats, targets, x);
    }
    FinalConfig(env, t);
  }

  lemma FinalConfig(env: Env, t: State)
    requires CacheOk(env, t) && ConfigOk(env, t, {})
    ensures t.config.Keys == env.original.Keys + t.cache.Keys
    ensures forall n :: n in t.config && n !in t.cache ==> n in env.original && t.config[n] == env.original[n]
    ensures forall i, j :: 0 <= i < j < |t.arena| ==> t.arena[i].name != t.arena[j].name
  {
    forall n | n in t.config && n !in t.cache
      ensures n in env.original && t.config[n] == env.original[n]
    {
      assert Untouched(t, {}, n);
    }
    forall i, j | 0 <= i < j < |t.arena|
      ensures t.arena[i].name != t.arena[j].name
    {
      assert EntryOk(env.flat, t.cache, t.arena, i) && EntryOk(env.flat, t.cache, t.arena, j);
    }
  }

  /** A successful build leaves no placeholder that was not in the config before. */
  lemma NoPlaceholderLeft(nets: Nets, servers: seq<Server>, flat: Nets, reg: Registry, serverReg: Registry, n: string)
    requires Start(nets, servers, flat, reg)
    ensures var res := BuildServers(serverReg, reg, State(nets, map[], []), servers);
            res.Ok? && n in res.value.0.config && res.value.0.config[n] == PLACEHOLDER ==>
              n in nets && nets[n] == PLACEHOLDER && n !in res.value.0.cache
  {
    var res := BuildServers(serverReg, reg, State(nets, map[], []), servers);
    if res.Ok? {
      BuildSucceedsExactly(nets, servers, flat, reg, serverReg);
      BuildResult(nets, servers, flat, reg, serverReg);
      if n in res.value.0.cache {
        assert FromServers(flat, res.value.1, n);
      }
    }
  }
}
