/** Walking a typed configuration to find its net references, with the path of each
    (rd-interface/src/config.rs, single_or_vec.rs; rd-derive/src/lib.rs). */
module ConfigVisitor {
  import opened NetConfig
  import opened NetFreshness

  /** A configuration value: a reference, a container that pushes a key around each
      element (struct fields, map entries, indexed lists), a container that pushes
      nothing (SingleOrVec), or a value without references. */
  datatype Value = Ref(r: NetRef) | Keyed(entries: seq<Entry>) | Unkeyed(items: seq<Value>) | Scalar
  datatype Entry = Entry(key: string, value: Value)

  // ------------------------------------------------------------ what is visited

  function Refs(v: Value, path: seq<string>): seq<Child>
    decreases v
  {
    match v
    case Ref(r) => [Child(path, r)]
    case Keyed(entries) => EntryRefs(entries, path)
    case Unkeyed(items) => ItemRefs(items, path)
    case Scalar => []
  }

  function EntryRefs(entries: seq<Entry>, path: seq<string>): seq<Child>
    decreases entries
  {
    if entries == [] then []
    else Refs(entries[0].value, path + [entries[0].key]) + EntryRefs(entries[1..], path)
  }

  function ItemRefs(items: seq<Value>, path: seq<string>): seq<Child>
    decreases items
  {
    if items == [] then [] else Refs(items[0], path) + ItemRefs(items[1..], path)
  }

  /** What a visitor sees that stops at the first reference it refuses. */
  function Until(cs: seq<Child>, accept: Child -> bool): (seq<Child>, bool) {
    if cs == [] then ([], true)
    else if !accept(cs[0]) then ([cs[0]], false)
    else
      var (rest, ok) := Until(cs[1..], accept);
      ([cs[0]] + rest, ok)
  }

  /** That is: everything up to and including the first reference refused. */
  lemma {:induction false} UntilStops(cs: seq<Child>, accept: Child -> bool)
    ensures StopsAt(cs, accept, Until(cs, accept).0, Until(cs, accept).1)
  {
    if cs != [] && accept(cs[0]) {
      UntilStops(cs[1..], accept);
      var (rest, ok) := Until(cs[1..], accept);
      assert [cs[0]] + rest <= cs;
      forall i | 0 <= i < |rest| + (if ok then 1 else 0)
        ensures accept(([cs[0]] + rest)[i])
      {
      }
    }
  }

  ghost predicate StopsAt(cs: seq<Child>, accept: Child -> bool, seen: seq<Child>, ok: bool) {
    && seen <= cs
    && (ok ==> seen == cs && forall i :: 0 <= i < |seen| ==> accept(seen[i]))
    && (!ok ==> seen != [] && !accept(seen[|seen| - 1]) && forall i :: 0 <= i < |seen| - 1 ==> accept(seen[i]))
  }

  lemma {:induction false} UntilAppend(a: seq<Child>, b: seq<Child>, accept: Child -> bool)
    ensures var (seen, ok) := Until(a, accept);
            Until(a + b, accept) == if ok then (seen + Until(b, accept).0, Until(b, accept).1) else (seen, false)
    ensures Until(a, accept).1 ==> Until(a, accept).0 == a
  {
    if a == [] {
      assert a + b == b && [] + Until(b, accept).0 == Until(b, accept).0;
    } else {
      assert (a + b)[1..] == a[1..] + b;
      UntilAppend(a[1..], b, accept);
      var (seen, _) := Until(a[1..], accept);
      assert [a[0]] + (seen + Until(b, accept).0) == [a[0]] + seen + Until(b, accept).0;
      assert (a + b)[0] == a[0] && a == [a[0]] + a[1..];
    }
  }

  // ------------------------------------------------------------ the walk in place

  class VisitorContext {
    var path: seq<string>

    constructor ()
      ensures path == []
    {
      path := [];
    }

    method Push(field: string)
      modifies this
      ensures path == old(path) + [field]
    {
      path := path + [field];
    }

    method Pop()
      modifies this
      ensures path == if old(path) == [] then [] else old(path)[..|old(path)| - 1]
    {
      if path != [] {
        path := path[..|path| - 1];
      }
    }

    /** Visits in order; a refusal ends the walk at once, without popping. */
    method Visit(v: Value, accept: Child -> bool) returns (seen: seq<Child>, ok: bool)
      modifies this
      ensures (seen, ok) == Until(Refs(v, old(path)), accept)
      ensures ok ==> path == old(path) && seen == Refs(v, path)
      ensures StopsAt(Refs(v, old(path)), accept, seen, ok)
      decreases v
    {
      UntilStops(Refs(v, path), accept);
      match v
      case Scalar =>
        return [], true;
      case Ref(r) =>
        assert [Child(path, r)][1..] == [] && [Child(path, r)] + [] == [Child(path, r)];
        assert Until([], accept) == ([], true);
        return [Child(path, r)], accept(Child(path, r));
      case Keyed(entries) =>
        seen, ok := VisitEntries(entries, accept);
      case Unkeyed(items) =>
        seen, ok := VisitItems(items, accept);
    }

    method VisitEntries(entries: seq<Entry>, accept: Child -> bool) returns (seen: seq<Child>, ok: bool)
      modifies this
      ensures (seen, ok) == Until(EntryRefs(entries, old(path)), accept)
      ensures ok ==> path == old(path) && seen == EntryRefs(entries, path)
      decreases entries
    {
      if entries == [] {
        return [], true;
      }
      ghost var here := path;
      Push(entries[0].key);
      seen, ok := Visit(entries[0].value, accept);
      UntilAppend(Refs(entries[0].value, here + [entries[0].key]), EntryRefs(entries[1..], here), accept);
      if ok {
        Pop();
        assert path == here;
        var rest;
        rest, ok := VisitEntries(entries[1..], accept);
        seen := seen + rest;
      }
    }

    method VisitItems(items: seq<Value>, accept: Child -> bool) returns (seen: seq<Child>, ok: bool)
      modifies this
      ensures (seen, ok) == Until(ItemRefs(items, old(path)), accept)
      ensures ok ==> path == old(path) && seen == ItemRefs(items, path)
      decreases items
    {
      if items == [] {
        return [], true;
      }
      ghost var here := path;
      seen, ok := Visit(items[0], accept);
      UntilAppend(Refs(items[0], here), ItemRefs(items[1..], here), accept);
      if ok {
        var rest;
        rest, ok := VisitItems(items[1..], accept);
        seen := seen + rest;
      }
    }
  }

  // ------------------------------------------------------------ every reference is visited

  /** Following the indices `at` into containers, with the keys pushed on the way, leads
      from `v` to the reference `c`. */
  ghost predicate Sits(v: Value, path: seq<string>, at: seq<nat>, c: Child)
    decreases |at|
  {
    match v
    case Ref(r) => at == [] && c == Child(path, r)
    case Keyed(entries) =>
      && at != [] && at[0] < |entries|
      && Sits(entries[at[0]].value, path + [entries[at[0]].key], at[1..], c)
    case Unkeyed(items) => at != [] && at[0] < |items| && Sits(items[at[0]], path, at[1..], c)
    case Scalar => false
  }

  /** Earlier in the order of the file. */
  ghost predicate Earlier(a: seq<nat>, b: seq<nat>)
    decreases |a|
  {
    a != [] && b != [] && (a[0] < b[0] || (a[0] == b[0] && Earlier(a[1..], b[1..])))
  }

  ghost predicate InFileOrder(places: seq<seq<nat>>) {
    forall i, j :: 0 <= i < j < |places| ==> Earlier(places[i], places[j])
  }

  /** `cs` are all references of `v`, in file order, sitting at `places`. */
  ghost predicate AllOf(v: Value, path: seq<string>, cs: seq<Child>, places: seq<seq<nat>>) {
    && |places| == |cs| && InFileOrder(places)
    && (forall i :: 0 <= i < |cs| ==> Sits(v, path, places[i], cs[i]))
    && (forall at, c :: Sits(v, path, at, c) ==> Listed(places, cs, at, c))
  }

  ghost predicate Listed(places: seq<seq<nat>>, cs: seq<Child>, at: seq<nat>, c: Child) {
    exists i :: 0 <= i < |places| && i < |cs| && places[i] == at && cs[i] == c
  }

  /** The same for the elements of a container from the `from`-th on; `inside` says what
      each of them holds. */
  ghost predicate AllFrom(inside: (nat, seq<nat>, Child) -> bool, size: nat, from: nat, cs: seq<Child>, places: seq<seq<nat>>) {
    && |places| == |cs| && InFileOrder(places)
    && (forall i :: 0 <= i < |cs| ==>
          places[i] != [] && from <= places[i][0] < size && inside(places[i][0], places[i][1..], cs[i]))
    && (forall n: nat, at, c :: from <= n < size && inside(n, at, c) ==> Listed(places, cs, [n] + at, c))
  }

  ghost function Under(n: nat, places: seq<seq<nat>>): (r: seq<seq<nat>>)
    ensures |r| == |places| && forall i :: 0 <= i < |r| ==> r[i] == [n] + places[i]
  {
    seq(|places|, i requires 0 <= i < |places| => [n] + places[i])
  }

  lemma UnderInOrder(n: nat, places: seq<seq<nat>>)
    requires InFileOrder(places)
    ensures InFileOrder(Under(n, places))
  {
    forall i, j | 0 <= i < j < |places|
      ensures Earlier([n] + places[i], [n] + places[j])
    {
      assert ([n] + places[i])[1..] == places[i] && ([n] + places[j])[1..] == places[j];
    }
  }

  lemma OrderJoins(n: nat, a: seq<seq<nat>>, b: seq<seq<nat>>)
    requires InFileOrder(a) && InFileOrder(b)
    requires (forall i :: 0 <= i < |a| ==> a[i] != [] && a[i][0] == n)
    requires (forall i :: 0 <= i < |b| ==> b[i] != [] && n < b[i][0])
    ensures InFileOrder(a + b)
  {
    var c := a + b;
    forall i, j | 0 <= i < j < |c|
      ensures Earlier(c[i], c[j])
    {
    }
  }

  lemma ListedLeft(a: seq<seq<nat>>, cs: seq<Child>, b: seq<seq<nat>>, ds: seq<Child>, at: seq<nat>, c: Child)
    requires |a| == |cs| && |b| == |ds| && (Listed(a, cs, at, c) || Listed(b, ds, at, c))
    ensures Listed(a + b, cs + ds, at, c)
  {
    if Listed(a, cs, at, c) {
      var i :| 0 <= i < |a| && i < |cs| && a[i] == at && cs[i] == c;
      assert (a + b)[i] == at && (cs + ds)[i] == c;
    } else {
      var i :| 0 <= i < |b| && i < |ds| && b[i] == at && ds[i] == c;
      assert (a + b)[|a| + i] == at && (cs + ds)[|cs| + i] == c;
    }
  }

  /** One more element in front. */
  lemma AllFromNext(inside: (nat, seq<nat>, Child) -> bool, size: nat, from: nat,
                    cs: seq<Child>, places: seq<seq<nat>>, ds: seq<Child>, more: seq<seq<nat>>)
    requires from < size && |places| == |cs| && InFileOrder(places)
    requires forall i :: 0 <= i < |cs| ==> inside(from, places[i], cs[i])
    requires forall at, c :: inside(from, at, c) ==> Listed(places, cs, at, c)
    requires AllFrom(inside, size, from + 1, ds, more)
    ensures AllFrom(inside, size, from, cs + ds, Under(from, places) + more)
  {
    var here := Under(from, places);
    UnderInOrder(from, places);
    OrderJoins(from, here, more);
    var all, refs := here + more, cs + ds;
    forall i | 0 <= i < |refs|
      ensures all[i] != [] && from <= all[i][0] < size && inside(all[i][0], all[i][1..], refs[i])
    {
      if i < |cs| { assert ([from] + places[i])[1..] == places[i]; }
    }
    forall n: nat, at, c | from <= n < size && inside(n, at, c)
      ensures Listed(all, refs, [n] + at, c)
    {
      if n == from {
        var i :| 0 <= i < |places| && i < |cs| && places[i] == at && cs[i] == c;
        assert here[i] == [n] + at;
        assert Listed(here, cs, [n] + at, c);
      }
      ListedLeft(here, cs, more, ds, [n] + at, c);
    }
  }

  ghost function InEntries(entries: seq<Entry>, path: seq<string>): (nat, seq<nat>, Child) -> bool {
    (n: nat, at, c) => n < |entries| && Sits(entries[n].value, path + [entries[n].key], at, c)
  }

  ghost function InItems(items: seq<Value>, path: seq<string>): (nat, seq<nat>, Child) -> bool {
    (n: nat, at, c) => n < |items| && Sits(items[n], path, at, c)
  }

  /** The visitor meets every reference of a configuration exactly once, in file order, with
      the keys on the way to it as its path, and nothing else. */
  lemma {:induction false} VisitsEveryReference(v: Value, path: seq<string>) returns (places: seq<seq<nat>>)
    ensures AllOf(v, path, Refs(v, path), places)
    decreases v, 0
  {
    match v
    case Ref(r) =>
      places := [[]];
      assert Refs(v, path)[0] == Child(path, r);
    case Scalar => places := [];
    case Keyed(entries) =>
      assert entries[0..] == entries;
      places := EntriesVisited(entries, path, 0);
      var inside, cs := InEntries(entries, path), Refs(v, path);
      forall at, c | Sits(v, path, at, c) ensures Listed(places, cs, at, c) {
        assert inside(at[0], at[1..], c) && [at[0]] + at[1..] == at;
      }
    case Unkeyed(items) =>
      assert items[0..] == items;
      places := ItemsVisited(items, path, 0);
      var inside, cs := InItems(items, path), Refs(v, path);
      forall at, c | Sits(v, path, at, c) ensures Listed(places, cs, at, c) {
        assert inside(at[0], at[1..], c) && [at[0]] + at[1..] == at;
      }
  }

  lemma {:induction false} EntriesVisited(entries: seq<Entry>, path: seq<string>, from: nat) returns (places: seq<seq<nat>>)
    requires from <= |entries|
    ensures AllFrom(InEntries(entries, path), |entries|, from, EntryRefs(entries[from..], path), places)
    decreases entries, 0, |entries| - from
  {
    if from == |entries| {
      places := [];
    } else {
      var e := entries[from];
      var here := VisitsEveryReference(e.value, path + [e.key]);
      var more := EntriesVisited(entries, path, from + 1);
      places := Under(from, here) + more;
      assert entries[from..][0] == e && entries[from..][1..] == entries[from + 1..];
      AllFromNext(InEntries(entries, path), |entries|, from, Refs(e.value, path + [e.key]), here,
                  EntryRefs(entries[from + 1..], path), more);
    }
  }

  lemma {:induction false} ItemsVisited(items: seq<Value>, path: seq<string>, from: nat) returns (places: seq<seq<nat>>)
    requires from <= |items|
    ensures AllFrom(InItems(items, path), |items|, from, ItemRefs(items[from..], path), places)
    decreases items, 0, |items| - from
  {
    if from == |items| {
      places := [];
    } else {
      var here := VisitsEveryReference(items[from], path);
      var more := ItemsVisited(items, path, from + 1);
      places := Under(from, here) + more;
      assert items[from..][0] == items[from] && items[from..][1..] == items[from + 1..];
      AllFromNext(InItems(items, path), |items|, from, Refs(items[from], path), here,
                  ItemRefs(items[from + 1..], path), more);
    }
  }

  // ------------------------------------------------------------ paths tell references apart

  /** Keys in one container differ, and no unkeyed container has two elements. */
  predicate Indexed(v: Value) {
    match v
    case Keyed(entries) =>
      && (forall i, j :: 0 <= i < j < |entries| ==> entries[i].key != entries[j].key)
      && (forall i :: 0 <= i < |entries| ==> Indexed(entries[i].value))
    case Unkeyed(items) => |items| <= 1 && forall i :: 0 <= i < |items| ==> Indexed(items[i])
    case _ => true
  }

  ghost predicate Below(path: seq<string>, cs: seq<Child>) {
    forall i :: 0 <= i < |cs| ==> path <= cs[i].path
  }

  ghost predicate Unnested(cs: seq<Child>) {
    forall i, j :: 0 <= i < |cs| && 0 <= j < |cs| && i != j ==> !(cs[i].path <= cs[j].path)
  }

  lemma {:induction false} RefsBelow(v: Value, path: seq<string>)
    ensures Below(path, Refs(v, path))
    decreases v
  {
    match v
    case Keyed(entries) => EntriesBelow(entries, path);
    case Unkeyed(items) => ItemsBelow(items, path);
    case _ =>
  }

  lemma {:induction false} EntriesBelow(entries: seq<Entry>, path: seq<string>)
    ensures Below(path, EntryRefs(entries, path))
    ensures forall i :: 0 <= i < |EntryRefs(entries, path)| ==>
              exists k :: 0 <= k < |entries| && path + [entries[k].key] <= EntryRefs(entries, path)[i].path
    decreases entries
  {
    if entries != [] {
      var first, rest := Refs(entries[0].value, path + [entries[0].key]), EntryRefs(entries[1..], path);
      RefsBelow(entries[0].value, path + [entries[0].key]);
      EntriesBelow(entries[1..], path);
      var all: seq<Child> := first + rest;
      forall i | 0 <= i < |all|
        ensures exists k :: 0 <= k < |entries| && path + [entries[k].key] <= all[i].path
        ensures path <= all[i].path
      {
        if i >= |first| {
          var k :| 0 <= k < |entries[1..]| && path + [entries[1..][k].key] <= rest[i - |first|].path;
          assert entries[k + 1] == entries[1..][k];
        } else {
          assert path + [entries[0].key] <= first[i].path;
        }
      }
    }
  }

  lemma {:induction false} ItemsBelow(items: seq<Value>, path: seq<string>)
    ensures Below(path, ItemRefs(items, path))
    decreases items
  {
    if items != [] {
      RefsBelow(items[0], path);
      ItemsBelow(items[1..], path);
    }
  }

  /** In an indexed configuration no reference sits at or below the path of another. */
  lemma {:induction false} IndexedIsUnnested(v: Value, path: seq<string>)
    requires Indexed(v)
    ensures Unnested(Refs(v, path))
    decreases v
  {
    match v
    case Keyed(entries) => EntriesUnnested(entries, path);
    case Unkeyed(items) =>
      if items != [] {
        assert items[1..] == [] && ItemRefs([], path) == [];
        assert ItemRefs(items, path) == Refs(items[0], path);
        IndexedIsUnnested(items[0], path);
      }
    case _ =>
  }

  lemma {:induction false} EntriesUnnested(entries: seq<Entry>, path: seq<string>)
    requires Indexed(Keyed(entries))
    ensures Unnested(EntryRefs(entries, path))
    decreases entries
  {
    if entries != [] {
      var here := path + [entries[0].key];
      var first, rest := Refs(entries[0].value, here), EntryRefs(entries[1..], path);
      IndexedIsUnnested(entries[0].value, here);
      EntriesUnnested(entries[1..], path);
      RefsBelow(entries[0].value, here);
      EntriesBelow(entries[1..], path);
      forall i, j | 0 <= i < |first| && 0 <= j < |rest|
        ensures !(first[i].path <= rest[j].path) && !(rest[j].path <= first[i].path)
      {
        var k :| 0 <= k < |entries[1..]| && path + [entries[1..][k].key] <= rest[j].path;
        assert entries[1..][k] == entries[k + 1];
        Differ(path, entries[0].key, entries[k + 1].key, first[i].path, rest[j].path);
      }
      BothUnnested(first, rest);
    }
  }

  lemma Differ(path: seq<string>, k: string, l: string, p: seq<string>, q: seq<string>)
    requires k != l && path + [k] <= p && path + [l] <= q
    ensures !(p <= q) && !(q <= p)
  {
    assert p[|path|] == k && q[|path|] == l;
  }

  lemma BothUnnested(a: seq<Child>, b: seq<Child>)
    requires Unnested(a) && Unnested(b)
    requires forall i, j :: 0 <= i < |a| && 0 <= j < |b| ==> !(a[i].path <= b[j].path) && !(b[j].path <= a[i].path)
    ensures Unnested(a + b)
  {
    var c := a + b;
    forall i, j | 0 <= i < |c| && 0 <= j < |c| && i != j
      ensures !(c[i].path <= c[j].path)
    {
    }
  }

  /** So the references of an indexed configuration meet what fresh names ask of paths. */
  lemma IndexedIsPrefixFree(v: Value)
    requires Indexed(v)
    ensures PrefixFree(Refs(v, []))
  {
    IndexedIsUnnested(v, []);
  }

  /** Two elements of an unkeyed list are visited at one path. */
  lemma UnkeyedSharesPath(r: NetRef, s: NetRef, path: seq<string>)
    ensures Refs(Unkeyed([Ref(r), Ref(s)]), path) == [Child(path, r), Child(path, s)]
    ensures r.Inline? && s.Inline? ==> !PrefixFree(Refs(Unkeyed([Ref(r), Ref(s)]), path))
  {
    var items := [Ref(r), Ref(s)];
    assert items[1..] == [Ref(s)] && items[1..][1..] == [];
    assert ItemRefs([], path) == [] && ItemRefs(items[1..], path) == [Child(path, s)] + ItemRefs([], path);
    assert ItemRefs(items, path) == [Child(path, r)] + ItemRefs(items[1..], path);
    var cs := Refs(Unkeyed(items), path);
    assert cs[0].path <= cs[1].path;
  }

  // ------------------------------------------------------------ indexed lists

  function Digit(d: nat): char
    requires d < 10
  {
    ('0' as int + d) as char
  }

  /** The key pushed for element n of a list. */
  function Decimal(n: nat): string {
    if n < 10 then [Digit(n)] else Decimal(n / 10) + [Digit(n % 10)]
  }

  function Number(s: string): int {
    if s == "" then 0 else Number(s[..|s| - 1]) * 10 + (s[|s| - 1] as int - '0' as int)
  }

  lemma {:induction false} DecimalReads(n: nat)
    ensures Number(Decimal(n)) == n && '/' !in Decimal(n)
  {
    if n < 10 {
      assert Decimal(n)[..0] == "";
    } else {
      DecimalReads(n / 10);
      assert Decimal(n)[..|Decimal(n)| - 1] == Decimal(n / 10);
    }
  }

  function ListValue(items: seq<Value>): Value {
    Keyed(seq(|items|, i requires 0 <= i < |items| => Entry(Decimal(i), items[i])))
  }

  /** Enumerating a list gives every element its own key. */
  lemma ListIsIndexed(items: seq<Value>)
    requires forall i :: 0 <= i < |items| ==> Indexed(items[i])
    ensures Indexed(ListValue(items))
  {
    forall i, j | 0 <= i < j < |items|
      ensures Decimal(i) != Decimal(j)
    {
      DecimalReads(i);
      DecimalReads(j);
    }
  }
}
