/**
 The order in which the interpreter's pointer visits a graph, and the listing
 the debugger makes of it.
 */
module Walks {
  import opened Addressing

  /** Left-to-right positions the pointer stops at: leaves and empty containers. */
  function Stops<T>(t: Tree<T>, p: Path): seq<Path>
    decreases t, 0
  {
    if IsFull(t) then StopsFrom(t.kids, p, 0) else [p]
  }

  function StopsFrom<T>(kids: seq<Tree<T>>, p: Path, i: nat): seq<Path>
    requires i <= |kids|
    decreases kids, |kids| - i
  {
    if i == |kids| then [] else Stops(kids[i], p + [i]) + StopsFrom(kids, p, i + 1)
  }

  /** No container anywhere below is empty. */
  ghost predicate NoEmpty<T>(t: Tree<T>) {
    t.Box? ==> t.kids != [] && forall k | k in t.kids :: NoEmpty(k)
  }

  /** `stops` is what iterating "advance, then descend" produces, ending with `out`. */
  ghost predicate Chained<T>(g: Tree<T>, stops: seq<Path>, out: Path) {
    && stops != []
    && (forall i | 0 <= i < |stops| :: Locate(g, stops[i]).Hit? && !IsFull(Locate(g, stops[i]).tree))
    && (forall i | 0 <= i < |stops| - 1 ::
          Next(g, stops[i]) != [] && Descend(g, Next(g, stops[i])) == stops[i + 1])
    && Next(g, stops[|stops| - 1]) == out
  }

  lemma ChainedAppend<T>(g: Tree<T>, a: seq<Path>, out: Path, b: seq<Path>, out': Path)
    requires Chained(g, a, out) && Chained(g, b, out')
    requires out != [] && Descend(g, out) == b[0]
    ensures Chained(g, a + b, out')
  {
    var c := a + b;
    forall i | 0 <= i < |c| - 1
      ensures Next(g, c[i]) != [] && Descend(g, Next(g, c[i])) == c[i + 1]
    {
      if i >= |a| {
        assert c[i] == b[i - |a|] && c[i + 1] == b[i - |a| + 1];
      }
    }
  }

  /** Main order result, for any subtree of any graph. */
  lemma {:induction false} StopsChained<T>(g: Tree<T>, p: Path)
    requires Locate(g, p).Hit?
    ensures var t := Locate(g, p).tree;
            Chained(g, Stops(t, p), Next(g, p)) && Stops(t, p)[0] == Descend(g, p)
    decreases Locate(g, p).tree, 0
  {
    var t := Locate(g, p).tree;
    if IsFull(t) {
      StopsFromChained(g, p, 0);
      EnterHits(g, p);
    } else {
      assert p + [] == p;
    }
  }

  lemma {:induction false} StopsFromChained<T>(g: Tree<T>, p: Path, i: nat)
    requires Locate(g, p).Hit? && Locate(g, p).tree.Box?
    requires i < |Locate(g, p).tree.kids|
    ensures var kids := Locate(g, p).tree.kids;
            && Chained(g, StopsFrom(kids, p, i), Next(g, p))
            && StopsFrom(kids, p, i)[0] == Descend(g, p + [i])
    decreases Locate(g, p).tree.kids, |Locate(g, p).tree.kids| - i
  {
    var kids := Locate(g, p).tree.kids;
    LocateChild(g, p, i);
    StopsChained(g, p + [i]);
    NextInBox(g, p, i);
    var here := Stops(kids[i], p + [i]);
    if i + 1 < |kids| {
      LocateChild(g, p, i + 1);
      EnterHits(g, p + [i + 1]);
      StopsFromChained(g, p, i + 1);
      ChainedAppend(g, here, Next(g, p + [i]), StopsFrom(kids, p, i + 1), Next(g, p));
    } else {
      assert here + StopsFrom(kids, p, i + 1) == here;
    }
  }

  /** Strict left-to-right order on addresses neither of which is a prefix of the other. */
  predicate Before(p: Path, q: Path) {
    p != [] && q != [] && (p[0] < q[0] || (p[0] == q[0] && Before(p[1..], q[1..])))
  }

  lemma {:induction false} BeforePrefix(base: Path, p: Path, q: Path)
    requires Before(p, q)
    ensures Before(base + p, base + q)
    decreases |base|
  {
    if base == [] {
      assert base + p == p && base + q == q;
    } else {
      BeforePrefix(base[1..], p, q);
      assert (base + p)[1..] == base[1..] + p && (base + q)[1..] == base[1..] + q;
    }
  }

  lemma {:induction false} BeforeIrreflexive(p: Path)
    ensures !Before(p, p)
    decreases |p|
  {
    if p != [] {
      BeforeIrreflexive(p[1..]);
    }
  }

  ghost predicate InOrder(ps: seq<Path>) {
    forall i, j | 0 <= i < j < |ps| :: Before(ps[i], ps[j])
  }

  /** Every stop of a subtree extends the subtree's address by a path that stops there, and vice versa. */
  lemma {:induction false} StopsExact<T>(t: Tree<T>, base: Path, p: Path)
    ensures p in Stops(t, base) <==>
            base <= p && Locate(t, p[|base|..]).Hit? && !IsFull(Locate(t, p[|base|..]).tree)
    decreases t, 0
  {
    if IsFull(t) {
      StopsFromExact(t.kids, base, 0, p);
    } else if base <= p {
      assert p[|base|..] == [] <==> p == base;
    }
  }

  lemma {:induction false} StopsFromExact<T>(kids: seq<Tree<T>>, base: Path, i: nat, p: Path)
    requires i <= |kids|
    ensures p in StopsFrom(kids, base, i) <==>
            && base <= p && |base| < |p| && i <= p[|base|] < |kids|
            && Locate(kids[p[|base|]], p[|base| + 1..]).Hit?
            && !IsFull(Locate(kids[p[|base|]], p[|base| + 1..]).tree)
    decreases kids, |kids| - i
  {
    if i < |kids| {
      StopsExact(kids[i], base + [i], p);
      StopsFromExact(kids, base, i + 1, p);
      assert base + [i] <= p <==> base <= p && |base| < |p| && p[|base|] == i;
    }
  }

  lemma {:induction false} StopsOrdered<T>(t: Tree<T>, base: Path)
    ensures InOrder(Stops(t, base))
    decreases t, 0
  {
    if IsFull(t) {
      StopsFromOrdered(t.kids, base, 0);
    }
  }

  lemma {:induction false} StopsFromOrdered<T>(kids: seq<Tree<T>>, base: Path, i: nat)
    requires i <= |kids|
    ensures InOrder(StopsFrom(kids, base, i))
    decreases kids, |kids| - i
  {
    if i < |kids| {
      StopsOrdered(kids[i], base + [i]);
      StopsFromOrdered(kids, base, i + 1);
      var a, b := Stops(kids[i], base + [i]), StopsFrom(kids, base, i + 1);
      forall x, y | x in a && y in b
        ensures Before(x, y)
      {
        StopsExact(kids[i], base + [i], x);
        StopsFromExact(kids, base, i + 1, y);
        assert x == base + x[|base|..] && y == base + y[|base|..];
        BeforePrefix(base, x[|base|..], y[|base|..]);
      }
    }
  }

  /** The pointer visits every leaf of a graph with no empty container, once, left to right, then stops. */
  lemma WalkOrder<T>(g: Tree<T>)
    requires g.Box? && NoEmpty(g)
    ensures var stops := Stops(g, []);
            && Chained(g, stops, [])
            && stops[0] == Descend(g, [0])
            && InOrder(stops)
            && (forall p :: p in stops <==> Locate(g, p).Hit? && Locate(g, p).tree.Leaf?)
  {
    StopsChained(g, []);
    StopsOrdered(g, []);
    EnterHits(g, []);
    forall p
      ensures p in Stops(g, []) <==> Locate(g, p).Hit? && Locate(g, p).tree.Leaf?
    {
      StopsExact(g, [], p);
      assert p[0..] == p;
      if Locate(g, p).Hit? {
        NoEmptyBelow(g, p);
      }
    }
  }

  lemma {:induction false} NoEmptyBelow<T>(g: Tree<T>, p: Path)
    requires NoEmpty(g) && Locate(g, p).Hit?
    ensures NoEmpty(Locate(g, p).tree)
    decreases |p|
  {
    if p != [] {
      NoEmptyBelow(g.kids[p[0]], p[1..]);
    }
  }

  lemma {:induction false} SomeEmptyBelow<T>(g: Tree<T>) returns (p: Path)
    requires !NoEmpty(g)
    ensures Locate(g, p) == Hit(Box([]))
    decreases g
  {
    if g.kids == [] {
      p := [];
    } else {
      var i :| 0 <= i < |g.kids| && !NoEmpty(g.kids[i]);
      var q := SomeEmptyBelow(g.kids[i]);
      p := [i] + q;
      assert p[1..] == q;
    }
  }

  /** Leaves only, in the same order, with their nodes: the listing the debugger prints. */
  function Listing<T>(t: Tree<T>, p: Path): seq<(Path, T)>
    decreases t, 0
  {
    match t
    case Leaf(n) => [(p, n)]
    case Box(kids) => ListingFrom(kids, p, 0)
  }

  function ListingFrom<T>(kids: seq<Tree<T>>, p: Path, i: nat): seq<(Path, T)>
    requires i <= |kids|
    decreases kids, |kids| - i
  {
    if i == |kids| then [] else Listing(kids[i], p + [i]) + ListingFrom(kids, p, i + 1)
  }

  function Addresses<T>(listing: seq<(Path, T)>): seq<Path> {
    seq(|listing|, i requires 0 <= i < |listing| => listing[i].0)
  }

  /** The listing's addresses are exactly the pointer's stops when no container is empty. */
  lemma {:induction false} ListingIsWalk<T>(t: Tree<T>, p: Path)
    requires NoEmpty(t)
    ensures Addresses(Listing(t, p)) == Stops(t, p)
    decreases t, 0
  {
    if t.Box? {
      ListingFromIsWalk(t.kids, p, 0);
    }
  }

  lemma {:induction false} ListingFromIsWalk<T>(kids: seq<Tree<T>>, p: Path, i: nat)
    requires i <= |kids| && forall k | k in kids :: NoEmpty(k)
    ensures Addresses(ListingFrom(kids, p, i)) == StopsFrom(kids, p, i)
    decreases kids, |kids| - i
  {
    if i < |kids| {
      ListingIsWalk(kids[i], p + [i]);
      ListingFromIsWalk(kids, p, i + 1);
      assert Addresses(ListingFrom(kids, p, i))
          == Addresses(Listing(kids[i], p + [i])) + Addresses(ListingFrom(kids, p, i + 1));
    }
  }

  /** Every listed address leads to the node listed with it. */
  lemma {:induction false} ListingFaithful<T>(t: Tree<T>, base: Path, k: nat)
    requires k < |Listing(t, base)|
    ensures var (p, n) := Listing(t, base)[k];
            base <= p && Locate(t, p[|base|..]) == Hit(Leaf(n))
    decreases t, 0
  {
    if t.Box? {
      ListingFromFaithful(t.kids, base, 0, k);
    }
  }

  lemma {:induction false} ListingFromFaithful<T>(kids: seq<Tree<T>>, base: Path, i: nat, k: nat)
    requires i <= |kids| && k < |ListingFrom(kids, base, i)|
    ensures var (p, n) := ListingFrom(kids, base, i)[k];
            base <= p && Locate(Box(kids), p[|base|..]) == Hit(Leaf(n))
    decreases kids, |kids| - i
  {
    var here := Listing(kids[i], base + [i]);
    if k < |here| {
      ListingFaithful(kids[i], base + [i], k);
      var (p, n) := here[k];
      assert p[|base|..][1..] == p[|base + [i]|..];
    } else {
      ListingFromFaithful(kids, base, i + 1, k - |here|);
    }
  }
}
