/** Choosing a net by rules (rd-std/src/rule/rule_net.rs, config.rs, domain.rs,
    ipcidr.rs, matcher.rs). Text is UTF-8 bytes. */
module Rules {
  import opened Outcomes
  import opened Addresses

  type Text = seq<Byte>

  // ------------------------------------------------------------ matching

  predicate EndsWith(s: Text, t: Text) { |t| <= |s| && s[|s| - |t|..] == t }

  predicate Contains(s: Text, t: Text) {
    exists i :: 0 <= i <= |s| && t <= s[i..]
  }

  datatype DomainMethod = Keyword | Suffix | Match

  const PLUS: Byte := '+' as int as Byte
  const DOT: Byte := '.' as int as Byte

  /** One pattern of a domain rule. `+.x` under Match stands for x and everything below it. */
  predicate TestOne(m: DomainMethod, d: Text, domain: Text) {
    match m
    case Keyword => Contains(domain, d)
    case Suffix => EndsWith(domain, d)
    case Match =>
      if [PLUS, DOT] <= d then EndsWith(domain, d[1..]) || domain == d[2..] else domain == d
  }

  predicate Test(m: DomainMethod, ds: seq<Text>, domain: Text) {
    exists i :: 0 <= i < |ds| && TestOne(m, ds[i], domain)
  }

  /** Foreign lookups, each a fixed function: does a CIDR block hold an address, the
      country test, and reading an IP address from text. */
  datatype Env = Env(
    holds: (Text, Ip) -> bool,
    country: (Text, Ip) -> bool,
    parseIp: Text -> Option<Ip>)

  /** The key of the cache. */
  datatype MatchContext = MatchContext(
    address: Address,
    srcIp: Option<Ip>,
    destSocket: Option<SocketAddr>,
    destDomain: Option<(Text, Port)>)

  function Normalized(env: Env, a: Address): Address {
    match a
    case Socket(_) => a
    case Domain(host, port) =>
      match env.parseIp(host)
      case Some(ip) => Socket(SocketAddr(ip, port))
      case None => a
  }

  function GetDomain(ctx: MatchContext): Option<Text> {
    match ctx.address
    case Domain(d, _) => Some(d)
    case Socket(_) => match ctx.destDomain { case Some((d, _)) => Some(d) case None => None }
  }

  function GetSocketAddr(env: Env, ctx: MatchContext): Option<SocketAddr> {
    match Normalized(env, ctx.address)
    case Socket(a) => Some(a)
    case Domain(_, _) => ctx.destSocket
  }

  datatype Matcher =
    | DomainMatcher(how: DomainMethod, domains: seq<Text>)
    | IpCidr(cidrs: seq<Text>)
    | SrcIpCidr(cidrs: seq<Text>)
    | GeoIp(country: Text)
    | AnyMatcher

  predicate AnyHolds(env: Env, cidrs: seq<Text>, ip: Ip) {
    exists i :: 0 <= i < |cidrs| && env.holds(cidrs[i], ip)
  }

  predicate MatchRule(env: Env, m: Matcher, ctx: MatchContext) {
    match m
    case DomainMatcher(how, ds) => GetDomain(ctx).Some? && Test(how, ds, GetDomain(ctx).value)
    case IpCidr(cidrs) => GetSocketAddr(env, ctx).Some? && AnyHolds(env, cidrs, GetSocketAddr(env, ctx).value.ip)
    case SrcIpCidr(cidrs) => ctx.srcIp.Some? && AnyHolds(env, cidrs, ctx.srcIp.value)
    case GeoIp(country) => GetSocketAddr(env, ctx).Some? && env.country(country, GetSocketAddr(env, ctx).value.ip)
    case AnyMatcher => true
  }

  // ------------------------------------------------------------ what a matcher looks at

  /** The host name a context asks for: that of its address, or the one noted before it was
      resolved. */
  ghost predicate AsksFor(ctx: MatchContext, domain: Text) {
    || (ctx.address.Domain? && ctx.address.host == domain)
    || (ctx.address.Socket? && ctx.destDomain.Some? && ctx.destDomain.value.0 == domain)
  }

  /** The IP address it goes to: that of its address, be it written as a host name, or the
      one noted. */
  ghost predicate GoesTo(env: Env, ctx: MatchContext, ip: Ip) {
    match ctx.address
    case Socket(a) => a.ip == ip
    case Domain(host, _) =>
      || env.parseIp(host) == Some(ip)
      || (env.parseIp(host) == None && ctx.destSocket.Some? && ctx.destSocket.value.ip == ip)
  }

  /** What a pattern asks of a domain, said by splitting the domain. */
  ghost predicate PatternMeans(m: DomainMethod, d: Text, domain: Text) {
    match m
    case Keyword => exists p, q :: domain == p + d + q
    case Suffix => exists p :: domain == p + d
    case Match =>
      || (!([PLUS, DOT] <= d) && domain == d)
      || (exists x :: d == [PLUS, DOT] + x && (domain == x || exists p :: domain == p + [DOT] + x))
  }

  /** What a matcher is for. */
  ghost predicate MatcherMeans(env: Env, m: Matcher, ctx: MatchContext) {
    match m
    case DomainMatcher(how, ds) => exists d, domain :: d in ds && AsksFor(ctx, domain) && PatternMeans(how, d, domain)
    case IpCidr(cidrs) => exists c, ip :: c in cidrs && GoesTo(env, ctx, ip) && env.holds(c, ip)
    case SrcIpCidr(cidrs) => exists c :: c in cidrs && ctx.srcIp.Some? && env.holds(c, ctx.srcIp.value)
    case GeoIp(country) => exists ip :: GoesTo(env, ctx, ip) && env.country(country, ip)
    case AnyMatcher => true
  }

  lemma EndsWithIsSplit(s: Text, t: Text)
    ensures EndsWith(s, t) <==> exists p :: s == p + t
  {
    if EndsWith(s, t) {
      assert s == s[..|s| - |t|] + t;
    }
    forall p | s == p + t ensures EndsWith(s, t) {
      assert s[|s| - |t|..] == t;
    }
  }

  lemma ContainsIsSplit(s: Text, t: Text)
    ensures Contains(s, t) <==> exists p, q :: s == p + t + q
  {
    if Contains(s, t) {
      var i :| 0 <= i <= |s| && t <= s[i..];
      var q := s[i..][|t|..];
      assert s[i..] == t + q && s == s[..i] + s[i..];
      assert s == s[..i] + t + q;
    }
    forall p, q | s == p + t + q ensures Contains(s, t) {
      assert s[|p|..] == t + q;
    }
  }

  lemma PlusIsSplit(d: Text, domain: Text)
    requires [PLUS, DOT] <= d
    ensures EndsWith(domain, d[1..]) || domain == d[2..] <==> PatternMeans(Match, d, domain)
  {
    var x := d[2..];
    assert d == [PLUS, DOT] + x && d[1..] == [DOT] + x;
    EndsWithIsSplit(domain, [DOT] + x);
    forall y | d == [PLUS, DOT] + y ensures y == x {
      assert y == ([PLUS, DOT] + y)[2..];
    }
    forall p ensures p + ([DOT] + x) == p + [DOT] + x {
    }
    if EndsWith(domain, d[1..]) {
      var p :| domain == p + ([DOT] + x);
      assert domain == p + [DOT] + x;
    }
    if PatternMeans(Match, d, domain) && domain != x {
      var p :| domain == p + [DOT] + x;
      assert domain == p + ([DOT] + x);
    }
  }

  lemma TestOneMeans(m: DomainMethod, d: Text, domain: Text)
    ensures TestOne(m, d, domain) <==> PatternMeans(m, d, domain)
  {
    match m
    case Keyword => ContainsIsSplit(domain, d);
    case Suffix => EndsWithIsSplit(domain, d);
    case Match =>
      if [PLUS, DOT] <= d {
        PlusIsSplit(d, domain);
      } else {
        forall x ensures d != [PLUS, DOT] + x {
          assert [PLUS, DOT] <= [PLUS, DOT] + x;
        }
      }
  }

  lemma TestMeans(m: DomainMethod, ds: seq<Text>, domain: Text)
    ensures Test(m, ds, domain) <==> exists d :: d in ds && PatternMeans(m, d, domain)
  {
    forall d ensures TestOne(m, d, domain) <==> PatternMeans(m, d, domain) {
      TestOneMeans(m, d, domain);
    }
    if Test(m, ds, domain) {
      var i :| 0 <= i < |ds| && TestOne(m, ds[i], domain);
      assert ds[i] in ds && PatternMeans(m, ds[i], domain);
    }
    forall d | d in ds && PatternMeans(m, d, domain) ensures Test(m, ds, domain) {
      var i :| 0 <= i < |ds| && ds[i] == d;
      assert TestOne(m, ds[i], domain);
    }
  }

  lemma GetDomainIsAskedFor(ctx: MatchContext)
    ensures forall domain :: AsksFor(ctx, domain) <==> GetDomain(ctx) == Some(domain)
  {
  }

  lemma GetSocketAddrIsGoneTo(env: Env, ctx: MatchContext)
    ensures forall ip :: GoesTo(env, ctx, ip) <==> GetSocketAddr(env, ctx).Some? && GetSocketAddr(env, ctx).value.ip == ip
  {
  }

  lemma AnyHoldsMeans(env: Env, cidrs: seq<Text>, ip: Ip)
    ensures AnyHolds(env, cidrs, ip) <==> exists c :: c in cidrs && env.holds(c, ip)
  {
    if AnyHolds(env, cidrs, ip) {
      var i :| 0 <= i < |cidrs| && env.holds(cidrs[i], ip);
      assert cidrs[i] in cidrs;
    }
  }

  /** Every matcher matches exactly what it is for. */
  lemma MatchRuleMeans(env: Env, m: Matcher, ctx: MatchContext)
    ensures MatchRule(env, m, ctx) <==> MatcherMeans(env, m, ctx)
  {
    match m
    case DomainMatcher(how, ds) =>
      GetDomainIsAskedFor(ctx);
      if GetDomain(ctx).Some? { TestMeans(how, ds, GetDomain(ctx).value); }
    case IpCidr(cidrs) =>
      GetSocketAddrIsGoneTo(env, ctx);
      if GetSocketAddr(env, ctx).Some? { AnyHoldsMeans(env, cidrs, GetSocketAddr(env, ctx).value.ip); }
    case SrcIpCidr(cidrs) => if ctx.srcIp.Some? { AnyHoldsMeans(env, cidrs, ctx.srcIp.value); }
    case GeoIp(_) => GetSocketAddrIsGoneTo(env, ctx);
    case AnyMatcher =>
  }

  /** Only a source matcher looks at the source, and it looks at nothing else. */
  lemma OnlySrcLooksAtSource(env: Env, m: Matcher, ctx: MatchContext, other: MatchContext)
    ensures !m.SrcIpCidr? && other == ctx.(srcIp := other.srcIp) ==> MatchRule(env, m, ctx) == MatchRule(env, m, other)
    ensures m.SrcIpCidr? && other.srcIp == ctx.srcIp ==> MatchRule(env, m, ctx) == MatchRule(env, m, other)
  {
  }

  // ------------------------------------------------------------ first match

  datatype RuleItem = RuleItem(target: Text, matcher: Matcher)

  /** The rule that decides: the first that matches. */
  ghost predicate Decides(env: Env, rules: seq<RuleItem>, ctx: MatchContext, i: nat) {
    && i < |rules| && MatchRule(env, rules[i].matcher, ctx)
    && forall j :: 0 <= j < i ==> !MatchRule(env, rules[j].matcher, ctx)
  }

  /** The same in terms of what the matchers are for. */
  ghost predicate FirstMeant(env: Env, rules: seq<RuleItem>, ctx: MatchContext, i: nat) {
    && i < |rules| && MatcherMeans(env, rules[i].matcher, ctx)
    && forall j :: 0 <= j < i ==> !MatcherMeans(env, rules[j].matcher, ctx)
  }

  /** The uncached scan, from rule `from` on. */
  function Scan(env: Env, rules: seq<RuleItem>, ctx: MatchContext, from: nat): Option<nat>
    requires from <= |rules|
    decreases |rules| - from
  {
    if from == |rules| then None
    else if MatchRule(env, rules[from].matcher, ctx) then Some(from)
    else Scan(env, rules, ctx, from + 1)
  }

  lemma {:induction false} ScanDecides(env: Env, rules: seq<RuleItem>, ctx: MatchContext, from: nat)
    requires from <= |rules| && forall j :: 0 <= j < from ==> !MatchRule(env, rules[j].matcher, ctx)
    ensures match Scan(env, rules, ctx, from)
            case Some(i) => Decides(env, rules, ctx, i)
            case None => forall j :: 0 <= j < |rules| ==> !MatchRule(env, rules[j].matcher, ctx)
    decreases |rules| - from
  {
    if from < |rules| && !MatchRule(env, rules[from].matcher, ctx) {
      ScanDecides(env, rules, ctx, from + 1);
    }
  }

  // ------------------------------------------------------------ the cache

  ghost predicate CacheOk(env: Env, rules: seq<RuleItem>, cache: map<MatchContext, nat>) {
    forall ctx :: ctx in cache ==> Decides(env, rules, ctx, cache[ctx])
  }

  class Rule {
    const env: Env
    const rules: seq<RuleItem>
    var cache: map<MatchContext, nat>

    constructor (env: Env, rules: seq<RuleItem>)
      ensures Valid() && this.env == env && this.rules == rules && cache == map[]
    {
      this.env, this.rules, cache := env, rules, map[];
    }

    ghost predicate Valid()
      reads this
    {
      CacheOk(env, rules, cache)
    }

    /** Anything may be evicted at any time. */
    method Evict(keys: set<MatchContext>)
      requires Valid()
      modifies this
      ensures Valid() && cache == old(cache) - keys
    {
      cache := cache - keys;
    }

    method GetRule(ctx: MatchContext) returns (r: Option<nat>)
      requires Valid()
      modifies this
      ensures Valid() && r == Scan(env, rules, ctx, 0)
      ensures r.Some? ==> Decides(env, rules, ctx, r.value) && FirstMeant(env, rules, ctx, r.value)
      ensures r.None? ==> forall j :: 0 <= j < |rules| ==> !MatcherMeans(env, rules[j].matcher, ctx)
      ensures cache.Keys <= old(cache.Keys) + {ctx}
    {
      ScanDecides(env, rules, ctx, 0);
      forall j | 0 <= j < |rules|
        ensures MatchRule(env, rules[j].matcher, ctx) <==> MatcherMeans(env, rules[j].matcher, ctx)
      {
        MatchRuleMeans(env, rules[j].matcher, ctx);
      }
      if ctx in cache {
        return Some(cache[ctx]);
      }
      for i := 0 to |rules|
        invariant forall j :: 0 <= j < i ==> !MatchRule(env, rules[j].matcher, ctx)
        invariant cache == old(cache)
      {
        if MatchRule(env, rules[i].matcher, ctx) {
          cache := cache[ctx := i];
          return Some(i);
        }
      }
      return None;
    }
  }

  /** Many lookups at once: each looks in the cache, then scans rule by rule and inserts
      what it found; entries vanish in between. */
  datatype Lookup = Fresh(key: MatchContext) | Scanning(key: MatchContext, next: nat) | Answered(key: MatchContext, answer: Option<nat>)
  datatype World = World(cache: map<MatchContext, nat>, lookups: seq<Lookup>)
  datatype Action = Arrive(key: MatchContext) | Turn(lookup: nat) | Vanish(key: MatchContext)

  function Act(env: Env, rules: seq<RuleItem>, w: World, a: Action): World {
    match a
    case Arrive(key) => w.(lookups := w.lookups + [Fresh(key)])
    case Vanish(key) => w.(cache := w.cache - {key})
    case Turn(t) =>
      if t >= |w.lookups| then w
      else
        match w.lookups[t]
        case Answered(_, _) => w
        case Fresh(key) =>
          if key in w.cache then w.(lookups := w.lookups[t := Answered(key, Some(w.cache[key]))])
          else w.(lookups := w.lookups[t := Scanning(key, 0)])
        case Scanning(key, i) =>
          if i >= |rules| then w.(lookups := w.lookups[t := Answered(key, None)])
          else if MatchRule(env, rules[i].matcher, key) then
            World(w.cache[key := i], w.lookups[t := Answered(key, Some(i))])
          else w.(lookups := w.lookups[t := Scanning(key, i + 1)])
  }

  ghost predicate LookupOk(env: Env, rules: seq<RuleItem>, t: Lookup) {
    match t
    case Fresh(_) => true
    case Scanning(key, i) => i <= |rules| && forall j :: 0 <= j < i ==> !MatchRule(env, rules[j].matcher, key)
    case Answered(key, answer) => answer == Scan(env, rules, key, 0)
  }

  ghost predicate WorldOk(env: Env, rules: seq<RuleItem>, w: World) {
    CacheOk(env, rules, w.cache) && forall t :: 0 <= t < |w.lookups| ==> LookupOk(env, rules, w.lookups[t])
  }

  lemma DecidesIsScan(env: Env, rules: seq<RuleItem>, ctx: MatchContext, i: nat)
    requires Decides(env, rules, ctx, i)
    ensures Scan(env, rules, ctx, 0) == Some(i)
  {
    ScanDecides(env, rules, ctx, 0);
  }

  lemma ActKeepsOk(env: Env, rules: seq<RuleItem>, w: World, a: Action)
    requires WorldOk(env, rules, w)
    ensures WorldOk(env, rules, Act(env, rules, w, a))
  {
    if a.Turn? && a.lookup < |w.lookups| {
      var t := w.lookups[a.lookup];
      assert LookupOk(env, rules, t);
      ScanDecides(env, rules, t.key, 0);
      if t.Fresh? && t.key in w.cache {
        DecidesIsScan(env, rules, t.key, w.cache[t.key]);
      } else if t.Scanning? && t.next < |rules| && MatchRule(env, rules[t.next].matcher, t.key) {
        DecidesIsScan(env, rules, t.key, t.next);
      }
    }
  }

  function History(env: Env, rules: seq<RuleItem>, actions: seq<Action>): World {
    if actions == [] then World(map[], [])
    else Act(env, rules, History(env, rules, actions[..|actions| - 1]), actions[|actions| - 1])
  }

  /** For any history of interleaved lookups and evictions, every answer is the one of
      the plain scan, and every cached index is the first matching rule for its key. */
  lemma {:induction false} CacheIsTransparent(env: Env, rules: seq<RuleItem>, actions: seq<Action>)
    ensures WorldOk(env, rules, History(env, rules, actions))
  {
    if actions != [] {
      CacheIsTransparent(env, rules, actions[..|actions| - 1]);
      ActKeepsOk(env, rules, History(env, rules, actions[..|actions| - 1]), actions[|actions| - 1]);
    }
  }

  // ------------------------------------------------------------ merging

  /** What `merge` makes of the first matcher, and whether it says it merged. */
  function Merged(a: Matcher, b: Matcher): (Matcher, bool) {
    match (a, b)
    case (DomainMatcher(how, ds), DomainMatcher(_, es)) => (DomainMatcher(how, ds + es), true)
    case (IpCidr(cs), IpCidr(ds)) => (IpCidr(cs + ds), true)
    case (SrcIpCidr(cs), SrcIpCidr(ds)) => (SrcIpCidr(cs + ds), true)
    case (AnyMatcher, AnyMatcher) => (a, true)
    case _ => (a, false)
  }

  /** Merging happens exactly for two matchers of one kind that is not a country; then the
      entries of both are there, the first one's first, and otherwise nothing changes. */
  lemma MergedIff(a: Matcher, b: Matcher)
    ensures Merged(a, b).1 <==>
              || (a.DomainMatcher? && b.DomainMatcher?) || (a.IpCidr? && b.IpCidr?)
              || (a.SrcIpCidr? && b.SrcIpCidr?) || (a.AnyMatcher? && b.AnyMatcher?)
    ensures !Merged(a, b).1 ==> Merged(a, b).0 == a
    ensures a.DomainMatcher? && b.DomainMatcher? ==> Merged(a, b).0 == DomainMatcher(a.how, a.domains + b.domains)
    ensures a.IpCidr? && b.IpCidr? ==> Merged(a, b).0 == IpCidr(a.cidrs + b.cidrs)
    ensures a.SrcIpCidr? && b.SrcIpCidr? ==> Merged(a, b).0 == SrcIpCidr(a.cidrs + b.cidrs)
  {
  }

  class RuleCell {
    var item: RuleItem

    /** On false nothing has changed. */
    method Merge(other: RuleItem) returns (ok: bool)
      modifies this
      ensures ok <==> old(item).target == other.target && Merged(old(item).matcher, other.matcher).1
      ensures item == if ok then old(item).(matcher := Merged(old(item).matcher, other.matcher).0) else old(item)
    {
      ok := false;
      if item.target == other.target {
        var (m, merged) := Merged(item.matcher, other.matcher);
        ok := merged;
        item := item.(matcher := m);
      }
    }
  }

  /** Domain rules are merged without looking at their methods. */
  predicate SameMethod(a: Matcher, b: Matcher) {
    a.DomainMatcher? && b.DomainMatcher? ==> a.how == b.how
  }

  lemma TestAppend(m: DomainMethod, ds: seq<Text>, es: seq<Text>, domain: Text)
    ensures Test(m, ds + es, domain) <==> Test(m, ds, domain) || Test(m, es, domain)
  {
    var all := ds + es;
    forall i | 0 <= i < |ds| ensures all[i] == ds[i] {}
    forall i | 0 <= i < |es| ensures all[|ds| + i] == es[i] {}
    if Test(m, es, domain) {
      var i :| 0 <= i < |es| && TestOne(m, es[i], domain);
      assert TestOne(m, all[|ds| + i], domain);
    }
    if Test(m, ds, domain) {
      var i :| 0 <= i < |ds| && TestOne(m, ds[i], domain);
      assert TestOne(m, all[i], domain);
    }
  }

  lemma HoldsAppend(env: Env, cs: seq<Text>, ds: seq<Text>, ip: Ip)
    ensures AnyHolds(env, cs + ds, ip) <==> AnyHolds(env, cs, ip) || AnyHolds(env, ds, ip)
  {
    var all := cs + ds;
    if AnyHolds(env, ds, ip) {
      var i :| 0 <= i < |ds| && env.holds(ds[i], ip);
      assert all[|cs| + i] == ds[i];
    }
    if AnyHolds(env, cs, ip) {
      var i :| 0 <= i < |cs| && env.holds(cs[i], ip);
      assert all[i] == cs[i];
    }
  }

  lemma MergedIsEither(env: Env, a: Matcher, b: Matcher, ctx: MatchContext)
    requires Merged(a, b).1 && SameMethod(a, b)
    ensures MatchRule(env, Merged(a, b).0, ctx) <==> MatchRule(env, a, ctx) || MatchRule(env, b, ctx)
  {
    match a
    case DomainMatcher(how, ds) => if GetDomain(ctx).Some? { TestAppend(how, ds, b.domains, GetDomain(ctx).value); }
    case IpCidr(cs) =>
      if GetSocketAddr(env, ctx).Some? { HoldsAppend(env, cs, b.cidrs, GetSocketAddr(env, ctx).value.ip); }
    case SrcIpCidr(cs) => if ctx.srcIp.Some? { HoldsAppend(env, cs, b.cidrs, ctx.srcIp.value); }
    case _ =>
  }

  /** The target of the first rule that matches. */
  function Chosen(env: Env, rules: seq<RuleItem>, ctx: MatchContext): (r: Option<Text>)
    ensures r.Some? ==> exists i: nat :: Decides(env, rules, ctx, i) && r.value == rules[i].target
    ensures r.None? ==> forall j :: 0 <= j < |rules| ==> !MatchRule(env, rules[j].matcher, ctx)
  {
    ScanDecides(env, rules, ctx, 0);
    match Scan(env, rules, ctx, 0)
    case None => None
    case Some(i) => assert Decides(env, rules, ctx, i) by { ScanDecides(env, rules, ctx, 0); } Some(rules[i].target)
  }

  /** Rules k and k+1 merged into one. */
  function MergedAt(rules: seq<RuleItem>, k: nat): seq<RuleItem>
    requires k + 1 < |rules|
  {
    rules[..k] + [rules[k].(matcher := Merged(rules[k].matcher, rules[k + 1].matcher).0)] + rules[k + 2..]
  }

  /** Merging two adjacent rules of one target leaves the choice unchanged. */
  lemma MergeKeepsChoice(env: Env, rules: seq<RuleItem>, k: nat, ctx: MatchContext)
    requires k + 1 < |rules| && rules[k].target == rules[k + 1].target
    requires Merged(rules[k].matcher, rules[k + 1].matcher).1 && SameMethod(rules[k].matcher, rules[k + 1].matcher)
    ensures Chosen(env, MergedAt(rules, k), ctx) == Chosen(env, rules, ctx)
  {
    var merged := MergedAt(rules, k);
    MergedIsEither(env, rules[k].matcher, rules[k + 1].matcher, ctx);
    ScanDecides(env, rules, ctx, 0);
    ScanDecides(env, merged, ctx, 0);
    assert forall j :: 0 <= j < k ==> merged[j] == rules[j];
    assert forall j :: k + 2 <= j < |rules| ==> rules[j] == merged[j - 1];
    match Scan(env, rules, ctx, 0)
    case Some(i) =>
      var at := if i <= k then i else i - 1;
      forall j | 0 <= j < at
        ensures !MatchRule(env, merged[j].matcher, ctx)
      {
        if j > k { assert merged[j] == rules[j + 1]; }
      }
      if i > k + 1 { assert merged[at] == rules[i]; }
      assert Decides(env, merged, ctx, at);
      DecidesIsScan(env, merged, ctx, at);
    case None =>
      forall j | 0 <= j < |merged|
        ensures !MatchRule(env, merged[j].matcher, ctx)
      {
        if j > k { assert merged[j] == rules[j + 1]; }
      }
  }

  /** Rules k and k+1 are domain rules of one target, with these methods. */
  predicate DomainPair(rules: seq<RuleItem>, k: nat, m: DomainMethod, n: DomainMethod) {
    && k + 1 < |rules| && rules[k].target == rules[k + 1].target
    && rules[k].matcher.DomainMatcher? && rules[k].matcher.how == m
    && rules[k + 1].matcher.DomainMatcher? && rules[k + 1].matcher.how == n
  }

  /** Merging such rules never changes what is chosen. */
  ghost predicate MergeIsSafe(m: DomainMethod, n: DomainMethod) {
    forall env: Env, rules: seq<RuleItem>, k: nat, ctx: MatchContext :: DomainPair(rules, k, m, n) ==>
      Chosen(env, MergedAt(rules, k), ctx) == Chosen(env, rules, ctx)
  }

  /** `merge` may be applied to domain rules exactly when they share one method. */
  lemma MergeSafeIffSameMethod(m: DomainMethod, n: DomainMethod)
    ensures MergeIsSafe(m, n) <==> m == n
  {
    if m == n {
      forall env: Env, rules: seq<RuleItem>, k: nat, ctx: MatchContext | DomainPair(rules, k, m, n)
        ensures Chosen(env, MergedAt(rules, k), ctx) == Chosen(env, rules, ctx)
      {
        MergeKeepsChoice(env, rules, k, ctx);
      }
    } else {
      var env := Env((_, _) => false, (_, _) => false, _ => None);
      MergeGoesWrong(env, m, n, []);
    }
  }

  /** Two rules and a context that tell two methods apart, whatever the lookups. */
  function WrongRules(m: DomainMethod, n: DomainMethod, target: Text): seq<RuleItem>
    requires m != n
  {
    [RuleItem(target, DomainMatcher(m, [UNRELATED])), RuleItem(target, DomainMatcher(n, [Witness(m, n).0]))]
  }

  function WrongContext(m: DomainMethod, n: DomainMethod): MatchContext
    requires m != n
  {
    MatchContext(Domain(Witness(m, n).1, 0), None, None, None)
  }

  /** With different methods the merged rule matches where neither did, or no longer
      matches where the second did. */
  lemma MergeGoesWrong(env: Env, m: DomainMethod, n: DomainMethod, target: Text)
    requires m != n
    ensures DomainPair(WrongRules(m, n, target), 0, m, n)
    ensures Chosen(env, MergedAt(WrongRules(m, n, target), 0), WrongContext(m, n))
            != Chosen(env, WrongRules(m, n, target), WrongContext(m, n))
  {
    var rules, ctx := WrongRules(m, n, target), WrongContext(m, n);
    var d, domain := Witness(m, n).0, Witness(m, n).1;
    var merged := MergedAt(rules, 0);
    UnrelatedNeverMatches(m, domain);
    TestAppend(m, [UNRELATED], [d], domain);
    OnePattern(m, UNRELATED, domain);
    OnePattern(m, d, domain);
    OnePattern(n, d, domain);
    assert merged == [RuleItem(target, DomainMatcher(m, [UNRELATED] + [d]))];
    ScanDecides(env, rules, ctx, 0);
    ScanDecides(env, merged, ctx, 0);
    assert MatchRule(env, merged[0].matcher, ctx) == TestOne(m, d, domain);
    assert !MatchRule(env, rules[0].matcher, ctx) && MatchRule(env, rules[1].matcher, ctx) == TestOne(n, d, domain);
  }

  lemma OnePattern(m: DomainMethod, d: Text, domain: Text)
    ensures Test(m, [d], domain) <==> TestOne(m, d, domain)
  {
    assert [d][0] == d;
  }

  /** Longer than any domain that Witness gives. */
  const UNRELATED: Text := [A, A, A]

  lemma UnrelatedNeverMatches(m: DomainMethod, domain: Text)
    requires |domain| < |UNRELATED|
    ensures !TestOne(m, UNRELATED, domain)
  {
    assert UNRELATED[0] == A && [PLUS, DOT][0] == PLUS;
    assert !([PLUS, DOT] <= UNRELATED);
    forall i | 0 <= i <= |domain| ensures !(UNRELATED <= domain[i..]) {
      assert |domain[i..]| < |UNRELATED|;
    }
  }

  const A: Byte := 97

  /** A pattern and a domain that two methods judge differently. */
  function Witness(m: DomainMethod, n: DomainMethod): (w: (Text, Text))
    requires m != n
    ensures TestOne(m, w.0, w.1) != TestOne(n, w.0, w.1) && |w.1| == 2
  {
    if m == Match || n == Match then
      var w := ([A], [A, A]);
      assert w.0 <= w.1[0..] && w.1[1..] == w.0 && w.1 != w.0;
      w
    else
      var w := ([A], [A, DOT]);
      assert w.0 <= w.1[0..] && w.1[1..] == [DOT];
      w
  }
}
