/** Walks in the reference graph of a flat config. */
module NetGraph {
  import opened NetConfig

  ghost predicate Edge(flat: Nets, a: string, b: string) {
    a in flat && exists k :: 0 <= k < |flat[a].children| && flat[a].children[k].ref == Name(b)
  }

  ghost predicate Walk(flat: Nets, p: seq<string>) {
    |p| > 0 && forall i :: 0 <= i < |p| - 1 ==> Edge(flat, p[i], p[i + 1])
  }

  ghost predicate WalkBetween(flat: Nets, p: seq<string>, a: string, b: string) {
    Walk(flat, p) && p[0] == a && p[|p| - 1] == b
  }

  /** `b` can be reached from `a` by following references, in any number of steps. */
  ghost predicate Reach(flat: Nets, a: string, b: string) {
    exists p :: WalkBetween(flat, p, a, b)
  }

  ghost predicate OnCycle(flat: Nets, a: string) {
    exists b :: Edge(flat, a, b) && Reach(flat, b, a)
  }

  lemma ReachSelf(flat: Nets, a: string)
    ensures Reach(flat, a, a)
  {
    assert WalkBetween(flat, [a], a, a);
  }

  lemma ReachFirst(flat: Nets, a: string, b: string, c: string)
    requires Edge(flat, a, b) && Reach(flat, b, c)
    ensures Reach(flat, a, c)
  {
    var p :| WalkBetween(flat, p, b, c);
    assert WalkBetween(flat, [a] + p, a, c);
  }

  /** A set that holds the start and every successor of its members holds whatever
      can be reached. */
  lemma ReachStaysIn(flat: Nets, inside: set<string>, a: string, b: string)
    requires a in inside
    requires forall x, y :: x in inside && Edge(flat, x, y) ==> y in inside
    requires Reach(flat, a, b)
    ensures b in inside
  {
    var p :| WalkBetween(flat, p, a, b);
    WalkStaysIn(flat, inside, p);
  }

  lemma {:induction false} WalkStaysIn(flat: Nets, inside: set<string>, p: seq<string>)
    requires Walk(flat, p) && p[0] in inside
    requires forall x, y :: x in inside && Edge(flat, x, y) ==> y in inside
    ensures p[|p| - 1] in inside
  {
    if |p| > 1 {
      assert Edge(flat, p[0], p[1]);
      WalkStaysIn(flat, inside, p[1..]);
    }
  }

  /** If every edge leads to a smaller rank, nothing reachable has a larger rank. */
  lemma {:induction false} WalkDescends(flat: Nets, rank: map<string, nat>, p: seq<string>)
    requires Walk(flat, p) && p[0] in rank
    requires forall x, y :: x in rank && Edge(flat, x, y) ==> y in rank && rank[y] < rank[x]
    ensures p[|p| - 1] in rank && rank[p[|p| - 1]] <= rank[p[0]]
  {
    if |p| > 1 {
      assert Edge(flat, p[0], p[1]);
      WalkDescends(flat, rank, p[1..]);
    }
  }

  lemma RankedHasNoCycle(flat: Nets, rank: map<string, nat>, a: string)
    requires a in rank
    requires forall x, y :: x in rank && Edge(flat, x, y) ==> y in rank && rank[y] < rank[x]
    ensures !OnCycle(flat, a)
  {
    if OnCycle(flat, a) {
      var b :| Edge(flat, a, b) && Reach(flat, b, a);
      var p :| WalkBetween(flat, p, b, a);
      WalkDescends(flat, rank, p);
      assert false;
    }
  }
}
