/** Dependency ordering (src/util.rs, topological_sort). */
module TopologicalSort {
  import opened Outcomes
  import opened Repeats

  datatype RootType<K> = All | Key(keys: seq<K>)
  datatype Node<K> = Item(key: K) | Root

  // ------------------------------------------------------------ relations and cycles

  ghost predicate Walk<T>(edges: set<(T, T)>, p: seq<T>) {
    |p| > 0 && forall i :: 0 <= i < |p| - 1 ==> (p[i], p[i + 1]) in edges
  }

  ghost predicate Cycle<T>(edges: set<(T, T)>, p: seq<T>) {
    Walk(edges, p) && |p| > 1 && p[0] == p[|p| - 1]
  }

  ghost predicate HasCycle<T(!new)>(edges: set<(T, T)>) {
    exists p :: Cycle(edges, p)
  }

  ghost predicate Preceded<T>(edges: set<(T, T)>, within: set<T>, b: T) {
    exists a :: a in within && (a, b) in edges
  }

  /** Walking backwards inside a set in which everything has a predecessor. */
  lemma {:induction false} BackWalk<T>(edges: set<(T, T)>, stuck: set<T>, n: nat) returns (p: seq<T>)
    requires stuck != {}
    requires forall b {:trigger Preceded(edges, stuck, b)} :: b in stuck ==> Preceded(edges, stuck, b)
    ensures Walk(edges, p) && |p| == n + 1 && forall i :: 0 <= i < |p| ==> p[i] in stuck
  {
    if n == 0 {
      var b :| b in stuck;
      p := [b];
    } else {
      var q := BackWalk(edges, stuck, n - 1);
      assert Preceded(edges, stuck, q[0]);
      var a :| a in stuck && (a, q[0]) in edges;
      p := [a] + q;
    }
  }

  /** A non-empty set in which everything has a predecessor holds a cycle. */
  lemma StuckHasCycle<T(!new)>(edges: set<(T, T)>, stuck: set<T>)
    requires stuck != {}
    requires forall b {:trigger Preceded(edges, stuck, b)} :: b in stuck ==> Preceded(edges, stuck, b)
    ensures HasCycle(edges)
  {
    var p := BackWalk(edges, stuck, |stuck|);
    if NoRepeats(p) {
      NoRepeatsFits(p, stuck);
      assert false;
    }
    var i, j :| 0 <= i < j < |p| && p[i] == p[j];
    assert Cycle(edges, p[i..j + 1]);
  }

  /** Dependencies come first. */
  ghost predicate DepsFirst<T>(edges: set<(T, T)>, list: seq<T>) {
    forall i, j :: 0 <= i < |list| && 0 <= j < |list| && (list[i], list[j]) in edges ==> j < i
  }

  lemma {:induction false} WalkDescends<T>(edges: set<(T, T)>, list: seq<T>, p: seq<T>, i: nat) returns (j: nat)
    requires NoRepeats(list) && DepsFirst(edges, list) && Walk(edges, p)
    requires forall k :: 0 <= k < |p| ==> p[k] in list
    requires i < |list| && list[i] == p[0]
    ensures j <= i && list[j] == p[|p| - 1] && (|p| > 1 ==> j < i)
  {
    if |p| == 1 {
      j := i;
    } else {
      var k :| 0 <= k < |list| && list[k] == p[1];
      j := WalkDescends(edges, list, p[1..], k);
    }
  }

  lemma OrderedHasNoCycle<T(!new)>(edges: set<(T, T)>, list: seq<T>)
    requires NoRepeats(list) && DepsFirst(edges, list)
    requires forall e :: e in edges ==> e.0 in list && e.1 in list
    ensures !HasCycle(edges)
  {
    forall p | Cycle(edges, p)
      ensures false
    {
      forall k | 0 <= k < |p|
        ensures p[k] in list
      {
        if k < |p| - 1 { assert (p[k], p[k + 1]) in edges; } else { assert (p[k - 1], p[k]) in edges; }
      }
      var i :| 0 <= i < |list| && list[i] == p[0];
      var j := WalkDescends(edges, list, p, i);
    }
  }

  // ------------------------------------------------------------ the library's graph

  ghost predicate Entered<T(!new)>(edges: set<(T, T)>, b: T) {
    exists e :: e in edges && e.1 == b
  }

  /** The foreign TopologicalSort container, by its contract: `Pop` takes out some node
      that nothing left in it precedes. */
  class Graph<T(==, !new)> {
    var nodes: set<T>
    var edges: set<(T, T)>

    constructor ()
      ensures nodes == {} && edges == {}
    {
      nodes, edges := {}, {};
    }

    method AddDependency(prec: T, succ: T)
      modifies this
      ensures nodes == old(nodes) + {prec, succ} && edges == old(edges) + {(prec, succ)}
    {
      nodes, edges := nodes + {prec, succ}, edges + {(prec, succ)};
    }

    method Pop() returns (r: Option<T>)
      modifies this
      ensures r.None? ==> nodes == old(nodes) && edges == old(edges)
      ensures r.None? ==> forall b {:trigger Entered(edges, b)} :: b in nodes ==> Entered(edges, b)
      ensures r.Some? ==>
                && r.value in old(nodes) && (forall a :: (a, r.value) !in old(edges))
                && nodes == old(nodes) - {r.value} && edges == set e | e in old(edges) && e.0 != r.value
    {
      var left := nodes;
      while left != {}
        invariant left <= nodes
        invariant forall b {:trigger Entered(edges, b)} :: b in nodes && b !in left ==> Entered(edges, b)
        invariant nodes == old(nodes) && edges == old(edges)
        decreases left
      {
        var n :| n in left;
        if e :| e in edges && e.1 == n {
          assert Entered(edges, n);
          left := left - {n};
        } else {
          assert forall a :: (a, n) in edges ==> (a, n).1 == n;
          nodes, edges := nodes - {n}, set e | e in edges && e.0 != n;
          return Some(n);
        }
      }
      r := None;
    }
  }

  // ------------------------------------------------------------ the sort

  /** All dependencies, whether or not the dependency is itself in the map. */
  ghost function Deps<K(!new), V, E>(entries: map<K, V>, deps: (K, V) -> Result<seq<K>, E>): set<(K, K)> {
    set k, d | k in entries && deps(k, entries[k]).Ok? && d in deps(k, entries[k]).value :: (k, d)
  }

  ghost predicate IsRoot<K, V>(root: RootType<K>, entries: map<K, V>, k: K) {
    match root
    case All => k in entries
    case Key(keys) => k in keys
  }

  /** Entries the sort knows about: roots, entries with dependencies, dependencies. */
  ghost predicate Known<K(!new), V>(root: RootType<K>, entries: map<K, V>, edges: set<(K, K)>, k: K) {
    IsRoot(root, entries, k) || exists e :: e in edges && (e.0 == k || e.1 == k)
  }

  ghost predicate Sorted<K(!new), V>(root: RootType<K>, entries: map<K, V>, edges: set<(K, K)>, out: seq<(K, V)>) {
    && (forall i, j :: 0 <= i < j < |out| ==> out[i].0 != out[j].0)
    && (forall i :: 0 <= i < |out| ==> out[i].0 in entries && out[i].1 == entries[out[i].0])
    && (forall i, j :: 0 <= i < |out| && 0 <= j < |out| && (out[i].0, out[j].0) in edges ==> j < i)
    && (forall k :: k in entries ==> ((exists i :: 0 <= i < |out| && out[i].0 == k) <==> Known(root, entries, edges, k)))
  }

  /** An edge of the container: a dependency, or the synthetic root before a root key. */
  ghost predicate GraphEdge<K, V>(root: RootType<K>, entries: map<K, V>, edges: set<(K, K)>, e: (Node<K>, Node<K>)) {
    match e
    case (Item(a), Item(b)) => (a, b) in edges
    case (Root, Item(k)) => IsRoot(root, entries, k)
    case (_, Root) => false
  }

  ghost predicate Holds<K(!new), V>(g: Graph<Node<K>>, root: RootType<K>, entries: map<K, V>, edges: set<(K, K)>)
    reads g
  {
    && (forall e :: e in g.edges <==> GraphEdge(root, entries, edges, e))
    && (forall n :: n in g.nodes <==> exists e :: e in g.edges && (e.0 == n || e.1 == n))
  }

  method AddEntry<K(==, !new), V>(g: Graph<Node<K>>, root: RootType<K>, k: K, v: V, found: seq<K>,
                                  ghost done: map<K, V>, ghost edges: set<(K, K)>)
    requires root.Key? ==> root.keys == []
    requires Holds(g, root, done, edges)
    modifies g
    ensures Holds(g, root, done[k := v], edges + set d | d in found :: (k, d))
  {
    ghost var now := edges;
    for i := 0 to |found|
      invariant now == edges + set d | d in found[..i] :: (k, d)
      invariant Holds(g, root, done, now)
    {
      g.AddDependency(Item(k), Item(found[i]));
      assert found[..i + 1] == found[..i] + [found[i]];
      now := now + {(k, found[i])};
    }
    assert found[..|found|] == found;
    if root.All? {
      g.AddDependency(Node.Root, Item(k));
    }
  }

  method Collect<K(==, !new), V, E>(root: RootType<K>, entries: map<K, V>, deps: (K, V) -> Result<seq<K>, E>)
    returns (g: Graph<Node<K>>, err: Option<E>)
    ensures fresh(g)
    ensures err.Some? ==> exists k :: k in entries && deps(k, entries[k]) == Err(err.value)
    ensures err.None? ==> (forall k :: k in entries ==> deps(k, entries[k]).Ok?)
    ensures err.None? ==> Holds(g, root, entries, Deps(entries, deps))
  {
    g := new Graph();
    err := None;
    var left := entries.Keys;
    var rootless := if root.All? then All else Key([]);
    ghost var done: map<K, V> := map[];
    while left != {}
      invariant left <= entries.Keys && done.Keys == entries.Keys - left
      invariant forall k :: k in done ==> done[k] == entries[k] && deps(k, entries[k]).Ok?
      invariant Holds(g, rootless, done, Deps(done, deps))
      decreases left
    {
      var k :| k in left;
      var found := deps(k, entries[k]);
      if found.Err? {
        return g, Some(found.error);
      }
      AddEntry(g, rootless, k, entries[k], found.value, done, Deps(done, deps));
      DepsGrow(done, deps, k, entries[k]);
      done, left := done[k := entries[k]], left - {k};
    }
    assert done == entries;
    if root.Key? {
      for i := 0 to |root.keys|
        invariant Holds(g, Key(root.keys[..i]), entries, Deps(entries, deps))
      {
        assert root.keys[..i + 1] == root.keys[..i] + [root.keys[i]];
        g.AddDependency(Node.Root, Item(root.keys[i]));
      }
      assert root.keys[..|root.keys|] == root.keys;
    }
  }

  lemma DepsGrow<K(!new), V, E>(done: map<K, V>, deps: (K, V) -> Result<seq<K>, E>, k: K, v: V)
    requires k !in done && deps(k, v).Ok?
    ensures Deps(done[k := v], deps) == Deps(done, deps) + set d | d in deps(k, v).value :: (k, d)
  {
    var left, right := Deps(done[k := v], deps), Deps(done, deps) + set d | d in deps(k, v).value :: (k, d);
    forall e | e in right
      ensures e in left
    {
      if e.0 in done { assert done[k := v][e.0] == done[e.0]; }
    }
  }

  ghost predicate PopInv<K(!new)>(all: set<Node<K>>, every: set<(Node<K>, Node<K>)>, g: Graph<Node<K>>, list: seq<K>)
    reads g
  {
    && g.nodes <= all
    && g.edges == (set e | e in every && e.0 in g.nodes)
    && (forall k :: k in list <==> Item(k) in all && Item(k) !in g.nodes)
    && (forall e :: e in every && e.1.Item? && e.1.key in list ==> e.0 !in g.nodes)
    && NoRepeats(list)
  }

  /** Popping until nothing can be popped, pushing each key in front of the list. */
  method PopAll<K(==, !new), V>(g: Graph<Node<K>>, ghost root: RootType<K>, ghost entries: map<K, V>,
                                ghost edges: set<(K, K)>)
    returns (list: seq<K>)
    requires Holds(g, root, entries, edges)
    modifies g
    ensures NoRepeats(list) && DepsFirst(edges, list)
    ensures g.nodes != {} ==> HasCycle(edges)
    ensures g.nodes == {} ==> forall k :: k in list <==> Known(root, entries, edges, k)
  {
    ghost var all, every := g.nodes, g.edges;
    assert forall e :: e in every ==> e.0 in all && e.1 in all;
    list := [];
    while true
      invariant PopInv(all, every, g, list)
      invariant DepsFirst(edges, list)
      decreases g.nodes
    {
      ghost var before := g.nodes;
      var r := g.Pop();
      if r.None? {
        break;
      }
      match r.value
      case Root =>
      case Item(k) =>
        PushedFirst(all, every, before, edges, list, k);
        list := [k] + list;
    }
    if g.nodes != {} {
      LeftIsStuck(g.edges, g.nodes, root, entries, edges);
    }
    forall k ensures Item(k) in all <==> Known(root, entries, edges, k) {
      KnownIsNode(all, every, root, entries, edges, k);
    }
  }

  lemma PushedFirst<K(!new)>(all: set<Node<K>>, every: set<(Node<K>, Node<K>)>, left: set<Node<K>>,
                             edges: set<(K, K)>, list: seq<K>, k: K)
    requires Item(k) in left && k !in list && NoRepeats(list) && DepsFirst(edges, list)
    requires forall a, b :: (a, b) in edges ==> (Item(a), Item(b)) in every
    requires forall e :: e in every && e.1.Item? && e.1.key in list ==> e.0 !in left
    requires forall e :: e in every && e.1 == Item(k) ==> e.0 !in left
    ensures NoRepeats([k] + list) && DepsFirst(edges, [k] + list)
  {
    var longer := [k] + list;
    forall i, j | 0 <= i < |longer| && 0 <= j < |longer| && (longer[i], longer[j]) in edges
      ensures j < i
    {
      assert (Item(longer[i]), Item(longer[j])) in every;
      if i == 0 {
        assert false;
      }
    }
  }

  lemma LeftIsStuck<K(!new), V>(inside: set<(Node<K>, Node<K>)>, left: set<Node<K>>, root: RootType<K>,
                                entries: map<K, V>, edges: set<(K, K)>)
    requires left != {} && forall e :: e in inside ==> e.0 in left && GraphEdge(root, entries, edges, e)
    requires forall b {:trigger Entered(inside, b)} :: b in left ==> Entered(inside, b)
    ensures HasCycle(edges)
  {
    var stuck := set n | n in left && n.Item? :: n.key;
    forall n | n in left
      ensures n.Item? && n.key in stuck && Preceded(edges, stuck, n.key)
    {
      assert Entered(inside, n);
      var e :| e in inside && e.1 == n;
      assert Entered(inside, e.0);
      var e' :| e' in inside && e'.1 == e.0;
      assert e.0.key in stuck;
    }
    var n :| n in left;
    assert n.key in stuck;
    StuckHasCycle(edges, stuck);
  }

  lemma KnownIsNode<K(!new), V>(all: set<Node<K>>, every: set<(Node<K>, Node<K>)>, root: RootType<K>,
                                entries: map<K, V>, edges: set<(K, K)>, k: K)
    requires forall e :: e in every <==> GraphEdge(root, entries, edges, e)
    requires forall n :: n in all <==> exists e :: e in every && (e.0 == n || e.1 == n)
    ensures Item(k) in all <==> Known(root, entries, edges, k)
  {
    if Item(k) in all {
      var e :| e in every && (e.0 == Item(k) || e.1 == Item(k));
      if e.0.Item? && e.1.Item? { assert (e.0.key, e.1.key) in edges; }
    }
    if IsRoot(root, entries, k) {
      assert (Node.Root, Item(k)) in every;
    } else if Known(root, entries, edges, k) {
      var e :| e in edges && (e.0 == k || e.1 == k);
      assert (Item(e.0), Item(e.1)) in every;
    }
  }

  method Sort<K(==, !new), V, E>(root: RootType<K>, entries: map<K, V>, deps: (K, V) -> Result<seq<K>, E>)
    returns (res: Result<Option<seq<(K, V)>>, E>)
    ensures res.Err? <==> exists k :: k in entries && deps(k, entries[k]).Err?
    ensures res.Err? ==> exists k :: k in entries && deps(k, entries[k]) == Err(res.error)
    ensures res.Ok? ==> (res.value.None? <==> HasCycle(Deps(entries, deps)))
    ensures res.Ok? && res.value.Some? ==> Sorted(root, entries, Deps(entries, deps), res.value.value)
  {
    var g, err := Collect(root, entries, deps);
    if err.Some? {
      return Err(err.value);
    }
    ghost var edges := Deps(entries, deps);
    var list := PopAll(g, root, entries, edges);
    if g.nodes != {} {
      return Ok(None);
    }
    forall e | e in edges
      ensures e.0 in list && e.1 in list
    {
      assert Known(root, entries, edges, e.0) && Known(root, entries, edges, e.1);
    }
    OrderedHasNoCycle(edges, list);
    var out := Select(list, entries, root, edges);
    return Ok(Some(out));
  }

  /** `out` is what the first `n` keys of the list select; `at` says where from. */
  ghost predicate Selected<K(!new), V>(list: seq<K>, entries: map<K, V>, n: nat, out: seq<(K, V)>, at: seq<nat>)
    requires n <= |list|
  {
    && |at| == |out|
    && (forall j :: 0 <= j < |out| ==> at[j] < n && out[j].0 == list[at[j]])
    && (forall j :: 0 <= j < |out| ==> out[j].0 in entries && out[j].1 == entries[out[j].0])
    && (forall j, k :: 0 <= j < k < |out| ==> at[j] < at[k])
    && (forall k :: 0 <= k < n && list[k] in entries ==> exists j :: 0 <= j < |out| && at[j] == k)
  }

  lemma SelectOne<K(!new), V>(list: seq<K>, entries: map<K, V>, n: nat, out: seq<(K, V)>, at: seq<nat>)
    requires n < |list| && Selected(list, entries, n, out, at)
    ensures list[n] !in entries ==> Selected(list, entries, n + 1, out, at)
    ensures list[n] in entries ==> Selected(list, entries, n + 1, out + [(list[n], entries[list[n]])], at + [n])
  {
    if list[n] in entries {
      var longer := at + [n];
      assert longer[|at|] == n;
      forall k | 0 <= k < n && list[k] in entries
        ensures exists j :: 0 <= j < |longer| && longer[j] == k
      {
        var j :| 0 <= j < |out| && at[j] == k;
        assert longer[j] == k;
      }
    }
  }

  lemma SelectedIsSorted<K(!new), V>(list: seq<K>, entries: map<K, V>, out: seq<(K, V)>, at: seq<nat>,
                                     root: RootType<K>, edges: set<(K, K)>)
    requires NoRepeats(list) && DepsFirst(edges, list)
    requires forall k :: k in list <==> Known(root, entries, edges, k)
    requires Selected(list, entries, |list|, out, at)
    ensures Sorted(root, entries, edges, out)
  {
    forall i, j | 0 <= i < |out| && 0 <= j < |out| && (out[i].0, out[j].0) in edges
      ensures j < i
    {
      assert (list[at[i]], list[at[j]]) in edges;
    }
    forall k | k in entries
      ensures (exists i :: 0 <= i < |out| && out[i].0 == k) <==> Known(root, entries, edges, k)
    {
      if k in list {
        var m :| 0 <= m < |list| && list[m] == k;
        var j :| 0 <= j < |out| && at[j] == m;
        assert out[j].0 == k;
      }
    }
  }

  /** Taking each listed key out of the map; keys that are no entries are dropped. */
  method Select<K(==, !new), V>(list: seq<K>, entries: map<K, V>, ghost root: RootType<K>, ghost edges: set<(K, K)>)
    returns (out: seq<(K, V)>)
    requires NoRepeats(list) && DepsFirst(edges, list)
    requires forall k :: k in list <==> Known(root, entries, edges, k)
    ensures Sorted(root, entries, edges, out)
  {
    out := [];
    var left := entries;
    ghost var at: seq<nat> := [];
    for i := 0 to |list|
      invariant Selected(list, entries, i, out, at)
      invariant forall j :: i <= j < |list| && list[j] in entries ==> list[j] in left
      invariant forall k :: k in left ==> k in entries && left[k] == entries[k]
    {
      var k := list[i];
      SelectOne(list, entries, i, out, at);
      if k in left {
        out, at := out + [(k, left[k])], at + [i];
      }
      left := left - {k};
    }
    SelectedIsSorted(list, entries, out, at, root, edges);
  }

  // ------------------------------------------------------------ what callers rely on

  /** With `All` the result is a permutation of the map. */
  lemma AllIsPermutation<K(!new), V>(entries: map<K, V>, edges: set<(K, K)>, out: seq<(K, V)>)
    requires Sorted(All, entries, edges, out)
    ensures multiset(out) == multiset(entries.Items)
  {
    assert NoRepeats(out);
    NoRepeatsIsSet(out);
    forall x | x in entries.Items
      ensures x in out
    {
      assert Known(All, entries, edges, x.0);
    }
    assert (set x | x in out) == entries.Items;
  }

  /** With `Key` every entry that can be reached from a root is there. */
  lemma ReachableIsSorted<K(!new), V>(keys: seq<K>, entries: map<K, V>, edges: set<(K, K)>, out: seq<(K, V)>, p: seq<K>)
    requires Sorted(Key(keys), entries, edges, out)
    requires Walk(edges, p) && p[0] in keys && p[|p| - 1] in entries
    ensures exists i :: 0 <= i < |out| && out[i].0 == p[|p| - 1]
  {
    if |p| > 1 {
      assert (p[|p| - 2], p[|p| - 1]) in edges;
    }
    assert Known(Key(keys), entries, edges, p[|p| - 1]);
  }
}
