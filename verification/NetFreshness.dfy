/** When generated names are fresh: a flattening exists whenever they are, and conditions
    on the config alone that make them so. */
module NetFreshness {
  import opened Outcomes
  import opened NetConfig
  import opened NetBuilder
  import opened NetFlattening
  import opened NetBuilderProof
  import opened NetMeaning

  // ------------------------------------------------------------ flattenings exist

  ghost function Entries(prefix: seq<string>, cs: seq<Child>): (r: Nets)
    ensures r.Keys == GenNames(prefix, cs)
    decreases cs
  {
    if cs == [] then map[] else RefEntries(prefix, cs[0]) + Entries(prefix, cs[1..])
  }

  ghost function RefEntries(prefix: seq<string>, c: Child): (r: Nets)
    ensures r.Keys == RefGens(prefix, c)
    decreases c
  {
    if c.ref.Inline? then
      var g := GenName(prefix, c.path);
      map[g := FlatNet(g, c.ref.net)] + Entries(NetPrefix(g), c.ref.net.children)
    else map[]
  }

  ghost predicate Extends(flat: Nets, part: Nets) {
    forall n :: n in part ==> n in flat && flat[n] == part[n]
  }

  lemma {:induction false} EntriesCover(flat: Nets, prefix: seq<string>, cs: seq<Child>)
    requires Distinct(prefix, cs) && Extends(flat, Entries(prefix, cs))
    ensures CoversAll(flat, prefix, cs)
    decreases cs
  {
    if cs != [] {
      assert forall n :: n in RefEntries(prefix, cs[0]) ==> n !in Entries(prefix, cs[1..]);
      assert Extends(flat, RefEntries(prefix, cs[0]));
      RefEntriesCover(flat, prefix, cs[0]);
      EntriesCover(flat, prefix, cs[1..]);
    }
  }

  lemma {:induction false} RefEntriesCover(flat: Nets, prefix: seq<string>, c: Child)
    requires DistinctRef(prefix, c) && Extends(flat, RefEntries(prefix, c))
    ensures CoversRef(flat, prefix, c)
    decreases c
  {
    if c.ref.Inline? {
      var g := GenName(prefix, c.path);
      assert g in RefEntries(prefix, c);
      EntriesCover(flat, NetPrefix(g), c.ref.net.children);
    }
  }

  ghost function ServerEntries(servers: seq<Server>): (r: Nets)
    ensures r.Keys == ServersGens(servers)
  {
    if servers == [] then map[]
    else Entries(ServerPrefix(servers[0].name), servers[0].item.children) + ServerEntries(servers[1..])
  }

  lemma {:induction false} ServerEntriesCover(flat: Nets, servers: seq<Server>)
    requires ServersDistinct(servers) && Extends(flat, ServerEntries(servers))
    ensures CoversServers(flat, servers)
  {
    if servers != [] {
      var prefix, cs := ServerPrefix(servers[0].name), servers[0].item.children;
      assert forall n :: n in Entries(prefix, cs) ==> n !in ServerEntries(servers[1..]);
      assert Extends(flat, Entries(prefix, cs));
      EntriesCover(flat, prefix, cs);
      ServerEntriesCover(flat, servers[1..]);
    }
  }

  /** The entry of one name of the flattened net section. */
  ghost function FlatEntry(nets: Nets, x: string): Net
    requires x in nets.Keys + NetsGens(nets)
  {
    if x in nets then FlatNet(x, nets[x])
    else
      var n :| n in nets && x in NetGens(nets, n);
      Entries(NetPrefix(n), nets[n].children)[x]
  }

  ghost function Flattened(nets: Nets, servers: seq<Server>): Nets {
    (map x | x in nets.Keys + NetsGens(nets) :: FlatEntry(nets, x)) + ServerEntries(servers)
  }

  lemma FlatteningExists(nets: Nets, servers: seq<Server>)
    requires Fresh(nets, servers)
    ensures IsFlattening(Flattened(nets, servers), nets, servers)
  {
    var flat := Flattened(nets, servers);
    forall n | n in nets
      ensures Covers(flat, n, nets[n])
    {
      var own := Entries(NetPrefix(n), nets[n].children);
      forall x | x in own
        ensures x in flat && flat[x] == own[x]
      {
        assert x in NetGens(nets, n) && x in NetsGens(nets);
      }
      EntriesCover(flat, NetPrefix(n), nets[n].children);
    }
    ServerEntriesCover(flat, servers);
  }

  // ------------------------------------------------------------ a condition on the config

  predicate PlainName(name: string) { '/' !in name }

  predicate Plain(parts: seq<string>) {
    forall i :: 0 <= i < |parts| ==> PlainName(parts[i])
  }

  /** No inline net sits at or below the path of another one. */
  predicate PrefixFree(cs: seq<Child>) {
    forall i, j :: 0 <= i < |cs| && 0 <= j < |cs| && i != j && cs[i].ref.Inline? && cs[j].ref.Inline? ==>
      !(cs[i].path <= cs[j].path)
  }

  predicate PlainRefs(cs: seq<Child>)
    decreases cs
  {
    PrefixFree(cs) && forall i :: 0 <= i < |cs| ==> PlainRef(cs[i])
  }

  predicate PlainRef(c: Child)
    decreases c
  {
    && Plain(c.path)
    && (c.ref.Name? ==> PlainName(c.ref.name))
    && (c.ref.Inline? ==> PlainRefs(c.ref.net.children))
  }

  predicate PlainServers(servers: seq<Server>) {
    && (forall i :: 0 <= i < |servers| ==> PlainName(servers[i].name) && PlainRefs(servers[i].item.children))
    && (forall i, j :: 0 <= i < j < |servers| ==> servers[i].name != servers[j].name)
  }

  /** Names and path components have no slash, and within one entry no reference path is
      a prefix of another. */
  ghost predicate PlainShape(nets: Nets, servers: seq<Server>) {
    && (forall n :: n in nets ==> PlainName(n) && PlainRefs(nets[n].children))
    && PlainServers(servers)
  }

  /** And no net is called "net" or "server". */
  ghost predicate PlainConfig(nets: Nets, servers: seq<Server>) {
    PlainShape(nets, servers) && "net" !in nets && "server" !in nets
  }

  function Slashed(parts: seq<string>): string { Join(parts, DELIMITER) }

  lemma {:induction false} JoinNested(a: seq<string>, b: seq<string>, c: seq<string>)
    requires |b| > 0
    ensures Slashed(a + [Slashed(b)] + c) == Slashed(a + b + c)
    decreases |a|, |b|
  {
    if a != [] {
      JoinNested(a[1..], b, c);
      assert (a + [Slashed(b)] + c)[1..] == a[1..] + [Slashed(b)] + c;
      assert (a + b + c)[1..] == a[1..] + b + c;
    } else if |b| > 1 {
      JoinNested([], b[1..], c);
      assert [] + [Slashed(b[1..])] + c == [Slashed(b[1..])] + c;
      assert [] + b[1..] + c == b[1..] + c;
      assert [] + b + c == b + c && (b + c)[1..] == b[1..] + c;
      assert [] + [Slashed(b)] + c == [Slashed(b)] + c;
      assert ([Slashed(b)] + c)[1..] == c && ([Slashed(b[1..])] + c)[1..] == c;
    } else {
      assert [] + [Slashed(b)] + c == [] + b + c;
    }
  }

  lemma {:induction false} JoinInjective(a: seq<string>, b: seq<string>)
    requires Plain(a) && Plain(b) && |a| > 0 && |b| > 0 && Slashed(a) == Slashed(b)
    ensures a == b
  {
    var s := Slashed(a);
    assert PlainName(a[0]) && PlainName(b[0]);
    if |a| > 1 {
      assert s[|a[0]|] == '/' && a[0] == s[..|a[0]|];
    }
    if |b| > 1 {
      assert s[|b[0]|] == '/' && b[0] == s[..|b[0]|];
    }
    if |a| > 1 && |b| > 1 {
      assert |a[0]| == |b[0]|;
      assert Slashed(a[1..]) == s[|a[0]| + 1..] && Slashed(b[1..]) == s[|b[0]| + 1..];
      JoinInjective(a[1..], b[1..]);
      assert a == [a[0]] + a[1..] && b == [b[0]] + b[1..];
    }
  }

  function Levels(j: nat): (r: seq<string>)
    ensures |r| == j && forall i :: 0 <= i < j ==> r[i] == "net"
  {
    seq(j, i => "net")
  }

  /** `x` is a generated name for something at or below `root`, at nesting `m` or more. */
  ghost predicate Named(x: string, m: nat, root: seq<string>) {
    exists j: nat, rest :: NamedBy(x, m, root, j, rest)
  }

  ghost predicate NamedBy(x: string, m: nat, root: seq<string>, j: nat, rest: seq<string>) {
    j >= m && Plain(rest) && x == Slashed(Levels(j) + root + rest)
  }

  ghost predicate Rooted(root: seq<string>) {
    |root| > 0 && Plain(root) && root[0] != "net"
  }

  lemma LevelsUnique(i: nat, u: seq<string>, j: nat, v: seq<string>)
    requires Levels(i) + u == Levels(j) + v && |u| > 0 && |v| > 0 && u[0] != "net" && v[0] != "net"
    ensures i == j && u == v
  {
    var w := Levels(i) + u;
    assert w[i] == u[0] && w[j] == v[0];
    assert u == w[i..] && v == w[j..];
  }

  /** One name has one nesting and its roots are on one path. */
  lemma SameName(x: string, m1: nat, r1: seq<string>, j1: nat, t1: seq<string>,
                 m2: nat, r2: seq<string>, j2: nat, t2: seq<string>)
    requires Rooted(r1) && Rooted(r2) && NamedBy(x, m1, r1, j1, t1) && NamedBy(x, m2, r2, j2, t2)
    ensures j1 == j2 && r1 + t1 == r2 + t2
  {
    var a, b := Levels(j1) + r1 + t1, Levels(j2) + r2 + t2;
    JoinInjective(a, b);
    assert a == Levels(j1) + (r1 + t1) && b == Levels(j2) + (r2 + t2);
    LevelsUnique(j1, r1 + t1, j2, r2 + t2);
  }

  lemma NamedComparable(x: string, m1: nat, r1: seq<string>, m2: nat, r2: seq<string>)
    requires Rooted(r1) && Rooted(r2) && Named(x, m1, r1) && Named(x, m2, r2)
    ensures r1 <= r2 || r2 <= r1
  {
    var j1: nat, t1 :| NamedBy(x, m1, r1, j1, t1);
    var j2: nat, t2 :| NamedBy(x, m2, r2, j2, t2);
    SameName(x, m1, r1, j1, t1, m2, r2, j2, t2);
    var w := r1 + t1;
    assert r1 == w[..|r1|] && r2 == w[..|r2|];
  }

  ghost predicate Stands(prefix: seq<string>, m: nat, root: seq<string>) {
    forall path :: GenName(prefix, path) == Slashed(Levels(m) + root + path)
  }

  lemma NestedStands(prefix: seq<string>, m: nat, root: seq<string>, path: seq<string>)
    requires Stands(prefix, m, root) && |root| > 0
    ensures Stands(NetPrefix(GenName(prefix, path)), m + 1, root + path)
  {
    var g, inner := GenName(prefix, path), Levels(m) + root + path;
    forall q ensures GenName(NetPrefix(g), q) == Slashed(Levels(m + 1) + (root + path) + q) {
      JoinNested(["net"], inner, q);
      assert NetPrefix(g) + q == ["net"] + [Slashed(inner)] + q;
      assert Levels(m + 1) + (root + path) + q == ["net"] + inner + q;
    }
  }

  lemma {:induction false} GensNamed(prefix: seq<string>, m: nat, root: seq<string>, cs: seq<Child>, x: string)
    requires Stands(prefix, m, root) && Rooted(root) && x in GenNames(prefix, cs)
    requires forall i :: 0 <= i < |cs| ==> PlainRef(cs[i])
    ensures exists k :: 0 <= k < |cs| && cs[k].ref.Inline? && Named(x, m, root + cs[k].path)
    decreases cs
  {
    if x in RefGens(prefix, cs[0]) {
      assert PlainRef(cs[0]);
      RefNamed(prefix, m, root, cs[0], x);
    } else {
      GensNamed(prefix, m, root, cs[1..], x);
      var k :| 0 <= k < |cs[1..]| && cs[1..][k].ref.Inline? && Named(x, m, root + cs[1..][k].path);
      assert cs[k + 1] == cs[1..][k];
    }
  }

  lemma {:induction false} RefNamed(prefix: seq<string>, m: nat, root: seq<string>, c: Child, x: string)
    requires Stands(prefix, m, root) && Rooted(root) && PlainRef(c) && x in RefGens(prefix, c)
    ensures Named(x, m, root + c.path)
    decreases c
  {
    var g := GenName(prefix, c.path);
    if x == g {
      assert Levels(m) + (root + c.path) + [] == Levels(m) + root + c.path;
      assert NamedBy(x, m, root + c.path, m, []);
    } else {
      var cs := c.ref.net.children;
      NestedStands(prefix, m, root, c.path);
      GensNamed(NetPrefix(g), m + 1, root + c.path, cs, x);
      var k :| 0 <= k < |cs| && cs[k].ref.Inline? && Named(x, m + 1, root + c.path + cs[k].path);
      assert PlainRef(cs[k]);
      NamedAbove(x, m, m + 1, root + c.path, cs[k].path);
    }
  }

  /** What is named after something below a root is named after the root. */
  lemma NamedAbove(x: string, m: nat, n: nat, root: seq<string>, path: seq<string>)
    requires m <= n && Plain(path) && Named(x, n, root + path)
    ensures Named(x, m, root)
  {
    var j: nat, rest :| NamedBy(x, n, root + path, j, rest);
    assert Levels(j) + (root + path) + rest == Levels(j) + root + (path + rest);
    assert NamedBy(x, m, root, j, path + rest);
  }

  lemma {:induction false} PlainIsDistinct(prefix: seq<string>, m: nat, root: seq<string>, cs: seq<Child>)
    requires Stands(prefix, m, root) && Rooted(root) && PlainRefs(cs)
    ensures Distinct(prefix, cs)
    decreases cs
  {
    if cs != [] {
      var c, rest := cs[0], cs[1..];
      assert PlainRef(c);
      assert forall i :: 0 <= i < |rest| ==> rest[i] == cs[i + 1];
      PlainIsDistinct(prefix, m, root, rest);
      PlainRefIsDistinct(prefix, m, root, c);
      forall x | x in RefGens(prefix, c) && x in GenNames(prefix, rest)
        ensures false
      {
        RefNamed(prefix, m, root, c, x);
        GensNamed(prefix, m, root, rest, x);
        var k :| 0 <= k < |rest| && rest[k].ref.Inline? && Named(x, m, root + rest[k].path);
        assert PlainRef(rest[k]);
        NamedComparable(x, m, root + c.path, m, root + rest[k].path);
        Comparable(root, c.path, rest[k].path);
      }
    }
  }

  lemma Comparable(root: seq<string>, p: seq<string>, q: seq<string>)
    requires root + p <= root + q || root + q <= root + p
    ensures p <= q || q <= p
  {
    assert (root + p)[|root|..] == p && (root + q)[|root|..] == q;
  }

  lemma {:induction false} PlainRefIsDistinct(prefix: seq<string>, m: nat, root: seq<string>, c: Child)
    requires Stands(prefix, m, root) && Rooted(root) && PlainRef(c)
    ensures DistinctRef(prefix, c)
    decreases c
  {
    if c.ref.Inline? {
      var g, cs := GenName(prefix, c.path), c.ref.net.children;
      NestedStands(prefix, m, root, c.path);
      PlainIsDistinct(NetPrefix(g), m + 1, root + c.path, cs);
      if g in GenNames(NetPrefix(g), cs) {
        GensNamed(NetPrefix(g), m + 1, root + c.path, cs, g);
        var k :| 0 <= k < |cs| && cs[k].ref.Inline? && Named(g, m + 1, root + c.path + cs[k].path);
        assert PlainRef(cs[k]);
        var j: nat, rest :| NamedBy(g, m + 1, root + c.path + cs[k].path, j, rest);
        assert Levels(m) + (root + c.path) + [] == Levels(m) + root + c.path;
        assert NamedBy(g, m, root + c.path, m, []);
        SameName(g, m, root + c.path, m, [], m + 1, root + c.path + cs[k].path, j, rest);
        assert false;
      }
    }
  }

  lemma NetStands(n: string)
    ensures Stands(NetPrefix(n), 1, [n])
  {
    forall path ensures GenName(NetPrefix(n), path) == Slashed(Levels(1) + [n] + path) {
      assert NetPrefix(n) + path == Levels(1) + [n] + path;
    }
  }

  lemma ServerStands(name: string)
    ensures Stands(ServerPrefix(name), 0, ["server", name])
  {
    forall path ensures GenName(ServerPrefix(name), path) == Slashed(Levels(0) + ["server", name] + path) {
      assert ServerPrefix(name) + path == Levels(0) + ["server", name] + path;
    }
  }

  /** Every name generated below a list of references is named after its root. */
  lemma GenIsBelow(prefix: seq<string>, m: nat, root: seq<string>, cs: seq<Child>, x: string)
    requires Stands(prefix, m, root) && Rooted(root) && PlainRefs(cs) && x in GenNames(prefix, cs)
    ensures Named(x, m, root)
  {
    GensNamed(prefix, m, root, cs, x);
    var k :| 0 <= k < |cs| && cs[k].ref.Inline? && Named(x, m, root + cs[k].path);
    assert PlainRef(cs[k]);
    NamedAbove(x, m, m, root, cs[k].path);
  }

  /** A generated name has a slash, so it is no plain name. */
  lemma {:induction false} GensHaveSlash(prefix: seq<string>, cs: seq<Child>, x: string)
    requires |prefix| > 1 && x in GenNames(prefix, cs)
    ensures !PlainName(x)
    decreases cs
  {
    if x in RefGens(prefix, cs[0]) {
      RefGensHaveSlash(prefix, cs[0], x);
    } else {
      GensHaveSlash(prefix, cs[1..], x);
    }
  }

  lemma {:induction false} RefGensHaveSlash(prefix: seq<string>, c: Child, x: string)
    requires |prefix| > 1 && x in RefGens(prefix, c)
    ensures !PlainName(x)
    decreases c
  {
    var g, parts := GenName(prefix, c.path), prefix + c.path;
    if x == g {
      assert |parts| > 1 && x[|parts[0]|] == '/';
    } else {
      GensHaveSlash(NetPrefix(g), c.ref.net.children, x);
    }
  }

  lemma NetGenIsBelow(nets: Nets, servers: seq<Server>, n: string, x: string)
    requires PlainShape(nets, servers) && n in nets && n != "net" && x in NetGens(nets, n)
    ensures Rooted([n]) && Named(x, 1, [n])
  {
    NetStands(n);
    GenIsBelow(NetPrefix(n), 1, [n], nets[n].children, x);
  }

  lemma {:induction false} ServersGenIsBelow(servers: seq<Server>, x: string) returns (i: nat)
    requires PlainServers(servers) && x in ServersGens(servers)
    ensures i < |servers| && Rooted(["server", servers[i].name])
    ensures Named(x, 0, ["server", servers[i].name])
  {
    var name := servers[0].name;
    if x in ServerGens(servers[0]) {
      i := 0;
      ServerStands(name);
      GenIsBelow(ServerPrefix(name), 0, ["server", name], servers[0].item.children, x);
    } else {
      var k := ServersGenIsBelow(servers[1..], x);
      i := k + 1;
    }
  }

  lemma {:induction false} PlainServersAreDistinct(servers: seq<Server>)
    requires PlainServers(servers)
    ensures ServersDistinct(servers)
  {
    if servers != [] {
      var name := servers[0].name;
      ServerStands(name);
      PlainIsDistinct(ServerPrefix(name), 0, ["server", name], servers[0].item.children);
      PlainServersAreDistinct(servers[1..]);
      forall x | x in ServerGens(servers[0]) && x in ServersGens(servers[1..])
        ensures false
      {
        GenIsBelow(ServerPrefix(name), 0, ["server", name], servers[0].item.children, x);
        var i := ServersGenIsBelow(servers[1..], x);
        var r, r' := ["server", name], ["server", servers[1..][i].name];
        assert r[1] != r'[1];
        NamedComparable(x, 0, r, 0, r');
      }
    }
  }

  lemma {:induction false} PlainMentions(cs: seq<Child>, x: string)
    requires (forall i :: 0 <= i < |cs| ==> PlainRef(cs[i])) && x in Mentioned(cs)
    ensures PlainName(x)
    decreases cs
  {
    assert PlainRef(cs[0]);
    if x in Mentioned(cs[1..]) {
      PlainMentions(cs[1..], x);
    } else if cs[0].ref.Inline? {
      assert PlainRefs(cs[0].ref.net.children);
      PlainMentions(cs[0].ref.net.children, x);
    }
  }

  lemma {:induction false} PlainServersMention(servers: seq<Server>, x: string)
    requires PlainServers(servers) && x in ServersMention(servers)
    ensures PlainName(x)
  {
    if x in Mentioned(servers[0].item.children) {
      PlainMentions(servers[0].item.children, x);
    } else {
      PlainServersMention(servers[1..], x);
    }
  }

  lemma {:induction false} ServersGensHaveSlash(servers: seq<Server>, x: string)
    requires x in ServersGens(servers)
    ensures !PlainName(x)
  {
    if x in ServerGens(servers[0]) {
      GensHaveSlash(ServerPrefix(servers[0].name), servers[0].item.children, x);
    } else {
      ServersGensHaveSlash(servers[1..], x);
    }
  }

  /** The names generated below a net called "net" are all different and differ from all
      others, and those below one called "server" differ from those below servers. */
  ghost predicate SpecialApart(nets: Nets, servers: seq<Server>) {
    && ("net" in nets ==>
          && Distinct(NetPrefix("net"), nets["net"].children)
          && (forall n :: n in nets && n != "net" ==> NetGens(nets, "net") !! NetGens(nets, n))
          && NetGens(nets, "net") !! ServersGens(servers))
    && ("server" in nets ==> NetGens(nets, "server") !! ServersGens(servers))
  }

  /** If no name has a slash and no path begins another, generated names can only collide
      below a net called "net" or "server". */
  lemma FreshIffSpecialApart(nets: Nets, servers: seq<Server>)
    requires PlainShape(nets, servers)
    ensures Fresh(nets, servers) <==> SpecialApart(nets, servers)
  {
    if SpecialApart(nets, servers) {
      PlainServersAreDistinct(servers);
      PlainNetsAreFresh(nets, servers);
      GensAreNotPlain(nets, servers);
      forall x | x in ServersMention(servers) ensures PlainName(x) {
        PlainServersMention(servers, x);
      }
      forall n, x | n in nets && x in Mentioned(nets[n].children) ensures PlainName(x) {
        PlainMentions(nets[n].children, x);
      }
    }
    if Fresh(nets, servers) {
      forall n, x | n in nets && x in NetGens(nets, n) ensures x in NetsGens(nets) {
      }
    }
  }

  /** In a plain config no generated name collides with anything. */
  lemma PlainIsFresh(nets: Nets, servers: seq<Server>)
    requires PlainConfig(nets, servers)
    ensures Fresh(nets, servers)
  {
    FreshIffSpecialApart(nets, servers);
  }

  lemma GensAreNotPlain(nets: Nets, servers: seq<Server>)
    ensures forall x :: x in AllGens(nets, servers) ==> !PlainName(x)
  {
    forall x | x in AllGens(nets, servers)
      ensures !PlainName(x)
    {
      if x in ServersGens(servers) {
        ServersGensHaveSlash(servers, x);
      } else {
        var n :| n in nets && x in NetGens(nets, n);
        GensHaveSlash(NetPrefix(n), nets[n].children, x);
      }
    }
  }

  lemma PlainNetsAreFresh(nets: Nets, servers: seq<Server>)
    requires PlainShape(nets, servers) && SpecialApart(nets, servers)
    ensures NetsFresh(nets) && NetsGens(nets) !! ServersGens(servers)
  {
    forall n | n in nets
      ensures Distinct(NetPrefix(n), nets[n].children)
    {
      if n != "net" {
        NetStands(n);
        PlainIsDistinct(NetPrefix(n), 1, [n], nets[n].children);
      }
    }
    forall m, n, x | m in nets && n in nets && m != n && x in NetGens(nets, m) && x in NetGens(nets, n)
      ensures false
    {
      if m != "net" && n != "net" {
        NetGenIsBelow(nets, servers, m, x);
        NetGenIsBelow(nets, servers, n, x);
        NamedComparable(x, 1, [m], 1, [n]);
      }
    }
    forall x | x in NetsGens(nets) && x in ServersGens(servers)
      ensures false
    {
      var n :| n in nets && x in NetGens(nets, n);
      NetsApartFromServers(nets, servers, n, x);
    }
  }

  lemma NetsApartFromServers(nets: Nets, servers: seq<Server>, n: string, x: string)
    requires PlainShape(nets, servers) && SpecialApart(nets, servers) && n in nets && x in NetGens(nets, n)
    ensures x !in ServersGens(servers)
  {
    if x in ServersGens(servers) && n != "net" && n != "server" {
      NetGenIsBelow(nets, servers, n, x);
      var i := ServersGenIsBelow(servers, x);
      var r := ["server", servers[i].name];
      assert [n][0] != r[0];
      NamedComparable(x, 1, [n], 0, r);
    }
  }

  lemma DefaultsArePlain(nets: Nets, servers: seq<Server>, localOptions: string)
    requires PlainShape(nets, servers)
    ensures PlainShape(WithDefaults(nets, localOptions), servers)
    ensures PlainConfig(nets, servers) ==> PlainConfig(WithDefaults(nets, localOptions), servers)
  {
    var all := WithDefaults(nets, localOptions);
    DefaultNamesArePlain();
    forall n | n in all
      ensures PlainName(n) && PlainRefs(all[n].children)
    {
      if n !in nets { assert IsDefault(n); }
    }
  }

  lemma DefaultNamesArePlain()
    ensures forall n :: IsDefault(n) ==> PlainName(n) && n != "net" && n != "server"
  {
  }

  /** For a plain config the whole build succeeds exactly when its flattening is sound. */
  lemma PlainBuildIsExact(serverReg: Registry, reg: Registry, nets: Nets, servers: seq<Server>, localOptions: string)
    requires CIRCULAR !in reg && PlainConfig(nets, servers)
    ensures var all := WithDefaults(nets, localOptions);
            BuildEntities(serverReg, reg, nets, servers, localOptions).Ok?
            <==> Sound(Flattened(all, servers), reg, serverReg, servers)
  {
    var all := WithDefaults(nets, localOptions);
    DefaultsArePlain(nets, servers, localOptions);
    PlainIsFresh(all, servers);
    FlatteningExists(all, servers);
    BuildSucceedsExactly(all, servers, Flattened(all, servers), reg, serverReg);
  }
}
