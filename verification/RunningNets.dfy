/** Replacing a net while running (src/rabbit_digger.rs, start and update_net;
    src/rabbit_digger/running.rs, RunningNet). */
module RunningNets {
  import opened Outcomes
  import opened NetConfig
  import opened NetBuilder
  import opened NetFlattening
  import opened NetBuilderProof

  /** The recorded config and the running nets. A running net is known by its position
      in `arena`, which is what other running nets and servers hold on to. */
  datatype Live = Live(config: Nets, nets: map<string, nat>, arena: seq<Running>)

  /** `a` is what the entry `item` describes: same options, and each reference is a
      name that leads to the running net of that name. */
  ghost predicate Describes(nets: map<string, nat>, item: Net, a: Running) {
    && a.config == item
    && |a.targets| == |item.children|
    && forall k :: 0 <= k < |item.children| ==>
         item.children[k].ref.Name? && item.children[k].ref.name in nets
         && a.targets[k] == nets[item.children[k].ref.name]
  }

  ghost predicate Consistent(l: Live) {
    forall n :: n in l.nets ==>
      && l.nets[n] < |l.arena| && l.arena[l.nets[n]].name == n
      && n in l.config && Describes(l.nets, l.config[n], l.arena[l.nets[n]])
  }

  /** While running, references resolve only to names that run already. */
  function ResolveRunning(nets: map<string, nat>, cs: seq<Child>): Fallible<seq<nat>> {
    if cs == [] then Ok([])
    else if cs[0].ref.Garbage? || cs[0].ref.Inline? then Err(Malformed)
    else if cs[0].ref.name !in nets then Err(NotFound(cs[0].ref.name))
    else
      match ResolveRunning(nets, cs[1..])
      case Err(e) => Err(e)
      case Ok(rest) => Ok([nets[cs[0].ref.name]] + rest)
  }

  function BuildRunning(reg: Registry, nets: map<string, nat>, item: Net): Fallible<seq<nat>> {
    if item.kind !in reg then Err(TypeNotLoaded(item.kind))
    else if !reg[item.kind].parses(item.data) then Err(BadOptions(item.kind))
    else
      match ResolveRunning(nets, item.children)
      case Err(e) => Err(e)
      case Ok(targets) => if reg[item.kind].builds(item.data) then Ok(targets) else Err(BuildFailed(item.kind))
  }

  /** The state after one call; a failed call, or one about a net that is not both
      recorded and running, leaves it alone. */
  function Updated(reg: Registry, l: Live, name: string, update: Net -> Net): Live {
    if name in l.config && name in l.nets && l.nets[name] < |l.arena| then
      var item := update(l.config[name]);
      match BuildRunning(reg, l.nets, item)
      case Err(_) => l
      case Ok(targets) =>
        l.(config := l.config[name := item], arena := l.arena[l.nets[name] := Running(name, item, targets)])
    else l
  }

  lemma {:induction false} ResolvedIsDescribed(nets: map<string, nat>, cs: seq<Child>)
    ensures ResolveRunning(nets, cs).Ok? <==>
              forall k :: 0 <= k < |cs| ==> cs[k].ref.Name? && cs[k].ref.name in nets
    ensures var r := ResolveRunning(nets, cs);
            r.Ok? ==> (
              && |r.value| == |cs|
              && forall k :: 0 <= k < |cs| ==>
                   cs[k].ref.Name? && cs[k].ref.name in nets && r.value[k] == nets[cs[k].ref.name])
  {
    if cs != [] {
      ResolvedIsDescribed(nets, cs[1..]);
      var r := ResolveRunning(nets, cs[1..]);
      if r.Ok? {
        forall k | 0 <= k < |cs|
          ensures k > 0 ==> cs[k] == cs[1..][k - 1]
        {
        }
      } else {
        var k :| 0 <= k < |cs[1..]| && !(cs[1..][k].ref.Name? && cs[1..][k].ref.name in nets);
        assert cs[k + 1] == cs[1..][k];
      }
    }
  }

  ghost predicate RefFault(nets: map<string, nat>, cs: seq<Child>, e: Error) {
    exists k :: 0 <= k < |cs| &&
      ((!cs[k].ref.Name? && e == Malformed) || (cs[k].ref.Name? && cs[k].ref.name !in nets && e == NotFound(cs[k].ref.name)))
  }

  lemma {:induction false} ResolveErrorIsTrue(nets: map<string, nat>, cs: seq<Child>)
    ensures var r := ResolveRunning(nets, cs);
            r.Err? ==> RefFault(nets, cs, r.error)
  {
    if cs != [] {
      ResolveErrorIsTrue(nets, cs[1..]);
      var r := ResolveRunning(nets, cs);
      if r.Err? && cs[0].ref.Name? && cs[0].ref.name in nets {
        var k :| 0 <= k < |cs[1..]| &&
          ((!cs[1..][k].ref.Name? && r.error == Malformed) ||
           (cs[1..][k].ref.Name? && cs[1..][k].ref.name !in nets && r.error == NotFound(cs[1..][k].ref.name)));
        assert cs[k + 1] == cs[1..][k];
      }
    }
  }

  /** An update that fails says truly why. */
  lemma UpdateErrorIsTrue(reg: Registry, nets: map<string, nat>, item: Net)
    ensures var r := BuildRunning(reg, nets, item);
            r.Err? ==> KindFault(reg, item, r.error) || RefFault(nets, item.children, r.error)
  {
    ResolveErrorIsTrue(nets, item.children);
  }

  /** The entry could run: its type is loaded and accepts it, and all its references
      are names of running nets. */
  ghost predicate CanRun(reg: Registry, nets: map<string, nat>, item: Net) {
    KindOk(reg, item) && forall k :: 0 <= k < |item.children| ==>
      item.children[k].ref.Name? && item.children[k].ref.name in nets
  }

  lemma UpdateKeepsConsistent(reg: Registry, l: Live, name: string, update: Net -> Net)
    requires Consistent(l)
    ensures var l' := Updated(reg, l, name, update);
            && Consistent(l') && l'.nets == l.nets && |l'.arena| == |l.arena| && l'.config.Keys == l.config.Keys
            && (forall n :: n in l.config && n != name ==> l'.config[n] == l.config[n])
            && (forall n :: n in l.nets && n != name ==> l'.arena[l.nets[n]] == l.arena[l.nets[n]])
            && (name in l.nets ==>
                  l'.config[name] == if CanRun(reg, l.nets, update(l.config[name])) then update(l.config[name])
                                     else l.config[name])
            && (name !in l.nets ==> l' == l)
  {
    if name in l.nets {
      var item := update(l.config[name]);
      ResolvedIsDescribed(l.nets, item.children);
      var l' := Updated(reg, l, name, update);
      forall n | n in l'.nets
        ensures l'.nets[n] < |l'.arena| && l'.arena[l'.nets[n]].name == n
        ensures n in l'.config && Describes(l'.nets, l'.config[n], l'.arena[l'.nets[n]])
      {
        assert Describes(l.nets, l.config[n], l.arena[l.nets[n]]);
        if n != name { assert l.nets[n] != l.nets[name]; }
      }
    }
  }

  /** Whoever holds `target` for the reference `r` runs into the net that the entry of that
      name describes now. */
  ghost predicate SeesCurrent(l: Live, r: NetRef, target: nat) {
    && r.Name? && r.name in l.nets && target == l.nets[r.name]
    && target < |l.arena| && l.arena[target].name == r.name
    && r.name in l.config && Describes(l.nets, l.config[r.name], l.arena[target])
  }

  /** What a successful start records. */
  lemma StartIsConsistent(nets: Nets, servers: seq<Server>, flat: Nets, reg: Registry, serverReg: Registry)
    requires Start(nets, servers, flat, reg)
    ensures var res := BuildServers(serverReg, reg, State(nets, map[], []), servers);
            res.Ok? ==> Consistent(Live(res.value.0.config, res.value.0.cache, res.value.0.arena))
  {
    var res := BuildServers(serverReg, reg, State(nets, map[], []), servers);
    if res.Ok? {
      BuildSucceedsExactly(nets, servers, flat, reg, serverReg);
      BuildResult(nets, servers, flat, reg, serverReg);
      var t := res.value.0;
      forall n | n in t.cache
        ensures Describes(t.cache, t.config[n], t.arena[t.cache[n]])
      {
        var i := t.cache[n];
        var a := t.arena[i];
        assert EntryOk(flat, t.cache, t.arena, i);
        forall k | 0 <= k < |a.config.children|
          ensures a.config.children[k].ref.name in t.cache && a.targets[k] == t.cache[a.config.children[k].ref.name]
        {
          assert EntryOk(flat, t.cache, t.arena, a.targets[k]);
        }
      }
    }
  }

  // ------------------------------------------------------------ whole runs

  datatype Call = Call(name: string, update: Net -> Net)

  function Run(reg: Registry, l: Live, calls: seq<Call>): Live
    decreases |calls|
  {
    if calls == [] then l else Run(reg, Updated(reg, l, calls[0].name, calls[0].update), calls[1..])
  }

  ghost predicate Called(calls: seq<Call>, n: string) {
    exists i :: 0 <= i < |calls| && calls[i].name == n
  }

  /** After any number of updates every running net is the one its recorded entry
      describes, the set of running nets and their identities are those of the start,
      and whatever no call named is untouched. */
  lemma {:induction false} RunKeepsConsistent(reg: Registry, l: Live, calls: seq<Call>)
    requires Consistent(l)
    ensures var l' := Run(reg, l, calls);
            && Consistent(l') && l'.nets == l.nets && l'.config.Keys == l.config.Keys
            && (forall n :: n in l.config && !Called(calls, n) ==> l'.config[n] == l.config[n])
            && (forall n :: n in l.nets && !Called(calls, n) ==> l'.arena[l.nets[n]] == l.arena[l.nets[n]])
    decreases |calls|
  {
    if calls != [] {
      UpdateKeepsConsistent(reg, l, calls[0].name, calls[0].update);
      var next := Updated(reg, l, calls[0].name, calls[0].update);
      RunKeepsConsistent(reg, next, calls[1..]);
      forall n | Called(calls[1..], n)
        ensures Called(calls, n)
      {
        var i :| 0 <= i < |calls[1..]| && calls[1..][i].name == n;
        assert calls[i + 1].name == n;
      }
    }
  }

  /** One start, then any updates. */
  lemma StartedRunIsConsistent(nets: Nets, servers: seq<Server>, flat: Nets, reg: Registry, serverReg: Registry,
                               calls: seq<Call>)
    requires Start(nets, servers, flat, reg)
    requires BuildServers(serverReg, reg, State(nets, map[], []), servers).Ok?
    ensures var s := BuildServers(serverReg, reg, State(nets, map[], []), servers).value.0;
            var l := Run(reg, Live(s.config, s.cache, s.arena), calls);
            && Consistent(l) && l.nets == s.cache
            && forall n :: n in s.config && !Called(calls, n) ==> n in l.config && l.config[n] == s.config[n]
  {
    StartIsConsistent(nets, servers, flat, reg, serverReg);
    var s := BuildServers(serverReg, reg, State(nets, map[], []), servers).value.0;
    RunKeepsConsistent(reg, Live(s.config, s.cache, s.arena), calls);
  }

  /** After one start and any updates, the references handed out at the start, to servers,
      and those held by running nets lead to what their names describe now. */
  lemma ReferencesSeeCurrentNet(nets: Nets, servers: seq<Server>, flat: Nets, reg: Registry, serverReg: Registry,
                                calls: seq<Call>)
    requires Start(nets, servers, flat, reg)
    requires BuildServers(serverReg, reg, State(nets, map[], []), servers).Ok?
    ensures var (s, flats, targets) := BuildServers(serverReg, reg, State(nets, map[], []), servers).value;
            var l := Run(reg, Live(s.config, s.cache, s.arena), calls);
            && ServersSee(l, flats, targets)
            && (forall n :: n in l.nets ==> NetSees(l, n))
  {
    var (s, flats, targets) := BuildServers(serverReg, reg, State(nets, map[], []), servers).value;
    var l := Run(reg, Live(s.config, s.cache, s.arena), calls);
    StartedRunIsConsistent(nets, servers, flat, reg, serverReg, calls);
    BuildSucceedsExactly(nets, servers, flat, reg, serverReg);
    BuildResult(nets, servers, flat, reg, serverReg);
    ServersSeeCurrent(l, s, flats, targets);
    forall n | n in l.nets
      ensures NetSees(l, n)
    {
      NetSeesCurrent(l, n);
    }
  }

  ghost predicate ServersSee(l: Live, servers: seq<Server>, targets: seq<seq<nat>>) {
    && |targets| == |servers|
    && forall i :: 0 <= i < |servers| ==> ListSees(l, servers[i].item.children, targets[i])
  }

  ghost predicate ListSees(l: Live, cs: seq<Child>, targets: seq<nat>) {
    && |targets| == |cs|
    && forall k :: 0 <= k < |cs| ==> SeesCurrent(l, cs[k].ref, targets[k])
  }

  ghost predicate NetSees(l: Live, n: string) {
    && n in l.nets && n in l.config && l.nets[n] < |l.arena|
    && ListSees(l, l.config[n].children, l.arena[l.nets[n]].targets)
  }

  lemma NetSeesCurrent(l: Live, n: string)
    requires Consistent(l) && n in l.nets
    ensures NetSees(l, n)
  {
    var cs, targets := l.config[n].children, l.arena[l.nets[n]].targets;
    assert Describes(l.nets, l.config[n], l.arena[l.nets[n]]);
    forall k | 0 <= k < |cs|
      ensures SeesCurrent(l, cs[k].ref, targets[k])
    {
      assert cs[k].ref.name in l.nets;
    }
  }

  lemma ServersSeeCurrent(l: Live, s: State, flats: seq<Server>, targets: seq<seq<nat>>)
    requires Consistent(l) && l.nets == s.cache && ServersTargetsOk(s, flats, targets)
    ensures ServersSee(l, flats, targets)
  {
    forall i | 0 <= i < |flats|
      ensures ListSees(l, flats[i].item.children, targets[i])
    {
      assert TargetsOk(s, flats[i].item.children, targets[i]);
    }
  }

  // ------------------------------------------------------------ in place

  function ServerNames(servers: seq<Server>): set<string> {
    set i | 0 <= i < |servers| :: servers[i].name
  }

  lemma StartedOneMore(servers: seq<Server>, server: Server)
    ensures ServerNames(servers + [server]) == ServerNames(servers) + {server.name}
  {
    var all := servers + [server];
    assert all[|servers|] == server && forall i :: 0 <= i < |servers| ==> all[i] == servers[i];
    forall x | x in ServerNames(servers) ensures x in ServerNames(all) {
      var i :| 0 <= i < |servers| && servers[i].name == x;
      assert all[i].name == x;
    }
  }

  class RabbitDigger {
    const registry: Registry
    const serverRegistry: Registry
    var live: Option<Live>          // None: waiting for a config
    var serving: set<string>        // servers whose worker runs

    constructor (registry: Registry, serverRegistry: Registry)
      ensures live == None && serving == {} && this.registry == registry && this.serverRegistry == serverRegistry
    {
      this.registry, this.serverRegistry, live, serving := registry, serverRegistry, None, {};
    }

    /** Stopping a server's worker cannot fail. */
    method StopAll()
      modifies this`live, this`serving
      ensures live == None && serving == {}
    {
      while serving != {}
        decreases serving
      {
        var name :| name in serving;
        serving := serving - {name};
      }
      live := None;
    }

    /** Builds first: a config that does not build leaves the running one alone. Then the
        old servers are stopped and the new ones started. */
    method StartConfig(nets: Nets, servers: seq<Server>, localOptions: string) returns (res: Fallible<()>)
      modifies this
      ensures var built := BuildEntities(serverRegistry, registry, nets, servers, localOptions);
              match built
              case Err(e) => res == Err(e) && live == old(live) && serving == old(serving)
              case Ok((s, _, _)) =>
                res == Ok(()) && live == Some(Live(s.config, s.cache, s.arena)) && serving == ServerNames(servers)
    {
      var built := BuildInPlace(serverRegistry, registry, nets, servers, localOptions);
      if built.Err? {
        return Err(built.error);
      }
      StopAll();
      for i := 0 to |servers|
        invariant serving == ServerNames(servers[..i]) && live == None
      {
        assert servers[..i + 1] == servers[..i] + [servers[i]];
        StartedOneMore(servers[..i], servers[i]);
        serving := serving + {servers[i].name};
      }
      assert servers[..|servers|] == servers;
      var s := built.value.0;
      live := Some(Live(s.config, s.cache, s.arena));
      return Ok(());
    }

    method UpdateNet(name: string, update: Net -> Net) returns (res: Fallible<()>)
      requires live.Some? ==> Consistent(live.value)
      modifies this
      ensures old(live).None? ==> live.None? && res == Err(NotRunning)
      ensures old(live).Some? ==>
                && live == Some(Updated(registry, old(live).value, name, update)) && Consistent(live.value)
                && (res.Err? <==> name in old(live).value.nets &&
                                  !CanRun(registry, old(live).value.nets, update(old(live).value.config[name])))
      ensures (res.Err? ==> live == old(live)) && serving == old(serving)
    {
      if live.None? {
        return Err(NotRunning);
      }
      var l := live.value;
      UpdateKeepsConsistent(registry, l, name, update);
      if name in l.config && name in l.nets {
        var item := update(l.config[name]);
        ResolvedIsDescribed(l.nets, item.children);
        var built := BuildRunningNet(registry, l.nets, item);
        if built.Err? {
          return Err(built.error);
        }
        live := Some(l.(config := l.config[name := item],
                        arena := l.arena[l.nets[name] := Running(name, item, built.value)]));
      }
      return Ok(());
    }
  }

  method BuildRunningNet(reg: Registry, nets: map<string, nat>, item: Net) returns (res: Fallible<seq<nat>>)
    ensures res == BuildRunning(reg, nets, item)
  {
    if item.kind !in reg {
      return Err(TypeNotLoaded(item.kind));
    }
    if !reg[item.kind].parses(item.data) {
      return Err(BadOptions(item.kind));
    }
    var targets: seq<nat> := [];
    var cs := item.children;
    ghost var whole := ResolveRunning(nets, cs);
    assert cs[0..] == cs && (whole.Ok? ==> targets + whole.value == whole.value);
    for i := 0 to |cs|
      invariant whole == match ResolveRunning(nets, cs[i..]) case Err(e) => Err(e) case Ok(rest) => Ok(targets + rest)
    {
      var r := cs[i].ref;
      assert cs[i..][0] == cs[i] && cs[i..][1..] == cs[i + 1..];
      if !r.Name? {
        return Err(Malformed);
      }
      if r.name !in nets {
        return Err(NotFound(r.name));
      }
      ghost var rest := ResolveRunning(nets, cs[i + 1..]);
      assert rest.Ok? ==> targets + ([nets[r.name]] + rest.value) == targets + [nets[r.name]] + rest.value;
      targets := targets + [nets[r.name]];
    }
    assert cs[|cs|..] == [] && targets + [] == targets;
    return if reg[item.kind].builds(item.data) then Ok(targets) else Err(BuildFailed(item.kind));
  }
}
