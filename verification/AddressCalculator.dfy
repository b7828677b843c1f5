/**
 The mutable pointer vector and the calculator that walks it over a rendered
 graph, each method proved against the functions of `Addressing`.
 */
module AddressCalculators {
  import opened Options
  import opened Addressing
  import opened Walks

  /** The first coordinate that would become negative cuts the sum off. */
  function FarSum(p: seq<int>, q: seq<int>): (r: Path)
    ensures |r| <= if |p| < |q| then |q| else |p|
    decreases |p| + |q|
  {
    if p == [] && q == [] then []
    else
      var a := if p == [] then 0 else p[0];
      var b := if q == [] then 0 else q[0];
      if a + b < 0 then []
      else [a + b] + FarSum(if p == [] then [] else p[1..], if q == [] then [] else q[1..])
  }

  /** A coordinate, zero behind the end of the vector. */
  function Coordinate(p: seq<int>, i: nat): int {
    if i < |p| then p[i] else 0
  }

  /** Coordinate by coordinate, up to the first sum that is negative or the end of the longer vector. */
  lemma {:induction false} FarSumExact(p: seq<int>, q: seq<int>)
    ensures var r := FarSum(p, q);
            && (forall i | 0 <= i < |r| :: r[i] == Coordinate(p, i) + Coordinate(q, i))
            && (|r| < |p| || |r| < |q| ==> Coordinate(p, |r|) + Coordinate(q, |r|) < 0)
    decreases |p| + |q|
  {
    if p != [] || q != [] {
      var pt, qt := if p == [] then [] else p[1..], if q == [] then [] else q[1..];
      FarSumExact(pt, qt);
      forall i: nat
        ensures Coordinate(p, i + 1) == Coordinate(pt, i) && Coordinate(q, i + 1) == Coordinate(qt, i)
      {
      }
      var r := FarSum(p, q);
      if r != [] {
        assert r[1..] == FarSum(pt, qt);
        forall i | 0 <= i < |r|
          ensures r[i] == Coordinate(p, i) + Coordinate(q, i)
        {
          if i > 0 {
            assert r[i] == r[1..][i - 1];
            assert Coordinate(p, i - 1 + 1) == Coordinate(pt, i - 1);
            assert Coordinate(q, i - 1 + 1) == Coordinate(qt, i - 1);
          }
        }
        assert Coordinate(p, |r| - 1 + 1) == Coordinate(pt, |r| - 1);
        assert Coordinate(q, |r| - 1 + 1) == Coordinate(qt, |r| - 1);
      }
    }
  }

  function Zeros(n: nat): seq<int> {
    seq(n, _ => 0)
  }

  class PointerVector {
    var base: Path

    constructor (base: Path)
      ensures this.base == if base == [] then [0] else base
    {
      this.base := if base == [] then [0] else base;
    }

    method Offset(offset: int)
      requires base != [] && Last(base) + offset >= 0
      modifies this
      ensures base == Parent(old(base)) + [Last(old(base)) + offset]
    {
      base := base[|base| - 1 := Last(base) + offset];
    }

    method NearTo(index: nat)
      requires base != []
      modifies this
      ensures base == Parent(old(base)) + [index]
    {
      base := base[|base| - 1 := index];
    }

    method FarTo(addr: Path)
      modifies this
      ensures base == addr
    {
      base := addr;
    }

    method Pop()
      requires base != []
      modifies this
      ensures base == Parent(old(base))
    {
      base := base[..|base| - 1];
    }

    method Append(index: nat)
      modifies this
      ensures base == old(base) + [index]
    {
      base := base + [index];
    }

    /** Element-wise sum with zero padding, stopping at the first negative coordinate. */
    method OffsetFar(offset: seq<int>)
      modifies this
      ensures base == FarSum(old(base), offset)
    {
      var diff := |base| - |offset|;
      FarSumPadded(base, offset, if diff < 0 then -diff else 0, if diff > 0 then diff else 0);
      if diff < 0 {
        assert offset + Zeros(0) == offset;
        Accumulate(base + Zeros(-diff), offset);
      } else {
        assert base + Zeros(0) == base;
        Accumulate(base, offset + Zeros(diff));
      }
    }

    method Accumulate(ptr: seq<int>, offset: seq<int>)
      requires |ptr| == |offset|
      modifies this
      ensures base == FarSum(ptr, offset)
    {
      hide FarSum;
      base := [];
      FarSumStep(ptr, offset, |ptr|);
      assert ptr[0..] == ptr && offset[0..] == offset;
      for k := 0 to |ptr|
        invariant FarSum(ptr, offset) == base + FarSum(ptr[k..], offset[k..])
      {
        FarSumStep(ptr, offset, k);
        var v := ptr[k] + offset[k];
        if v < 0 {
          return;
        }
        base := base + [v];
      }
    }
  }

  lemma FarSumStep(p: seq<int>, q: seq<int>, k: nat)
    requires k <= |p| == |q|
    ensures FarSum(p[k..], q[k..])
         == if k == |p| || p[k] + q[k] < 0 then [] else [p[k] + q[k]] + FarSum(p[k + 1..], q[k + 1..])
  {
    if k < |p| {
      assert p[k..][1..] == p[k + 1..] && q[k..][1..] == q[k + 1..];
    }
  }

  /** Padding either operand with zeros up to the longer length leaves the far sum as it is. */
  lemma {:induction false} FarSumPadded(p: seq<int>, q: seq<int>, a: nat, b: nat)
    requires |p| + a == |q| + b && (a == 0 || b == 0)
    ensures FarSum(p + Zeros(a), q + Zeros(b)) == FarSum(p, q)
    decreases |p| + |q|
  {
    var p', q' := p + Zeros(a), q + Zeros(b);
    if p' != [] {
      var pt, qt := if p == [] then [] else p[1..], if q == [] then [] else q[1..];
      var a', b' := if p == [] then a - 1 else a, if q == [] then b - 1 else b;
      assert p'[1..] == pt + Zeros(a') && q'[1..] == qt + Zeros(b');
      FarSumPadded(pt, qt, a', b');
    }
  }

  /** The offset `jump_offset_top` builds always lands on one top-level coordinate. */
  lemma OffsetTop(p: Path, k: int)
    requires p != []
    ensures var off: seq<int> := [k, -((if |p| > 1 then p[1] as int else 0) + 1)];
            FarSum(p, off) == if p[0] + k < 0 then [] else [p[0] + k]
  {
    var off: seq<int> := [k, -((if |p| > 1 then p[1] as int else 0) + 1)];
    assert off[1..] == [off[1]];
    assert FarSum(p[1..], off[1..]) == [];
  }

  class AddressCalculator<T> {
    const graph: Tree<T>

    constructor (graph: Tree<T>)
      ensures this.graph == graph
    {
      this.graph := graph;
    }

    method FindAddrSafe(addr: Path) returns (r: Option<Tree<T>>)
      ensures r == match Locate(graph, addr) case Hit(t) => Some(t) case _ => None
    {
      var current := graph;
      for k := 0 to |addr|
        invariant Locate(graph, addr) == Locate(current, addr[k..])
      {
        if current.Leaf? || addr[k] >= |current.kids| {
          return None;
        }
        assert addr[k..][1..] == addr[k + 1..];
        current := current.kids[addr[k]];
      }
      return Some(current);
    }

    /** `None` stands for `NullPointerException`, raised for an empty container too because it is falsy. */
    method FindAddr(addr: Path) returns (r: Option<Tree<T>>)
      ensures r.Some? <==> Locate(graph, addr).Hit? && Locate(graph, addr).tree != Box([])
      ensures r.Some? ==> Locate(graph, addr) == Hit(r.value)
    {
      r := FindAddrSafe(addr);
      if r.Some? && r.value.Box? && r.value.kids == [] {
        r := None;
      }
    }

    /** The container walk `advance` repeats: `Through` where a leaf is in the way, `Missing` on a bad index. */
    method WalkTo(path: Path) returns (r: Lookup<T>)
      ensures r == Locate(graph, path)
    {
      var current := graph;
      for k := 0 to |path|
        invariant Locate(graph, path) == Locate(current, path[k..])
      {
        if current.Leaf? {
          return Through;
        }
        if path[k] >= |current.kids| {
          return Missing;
        }
        assert path[k..][1..] == path[k + 1..];
        current := current.kids[path[k]];
      }
      return Hit(current);
    }

    method Advance(pointer: PointerVector) returns (r: Advanced)
      modifies pointer
      ensures r == AdvanceResult(graph, old(pointer.base))
      ensures pointer.base == AdvancePointer(graph, old(pointer.base))
    {
      if pointer.base == [] {
        return Ended;
      }
      ghost var p := pointer.base;
      assert p == Parent(p) + [Last(p)];
      var found := WalkTo(pointer.base[..|pointer.base| - 1]);
      if !found.Hit? {
        LocateBlocked(graph, Parent(p), [Last(p)]);
        return if found.Through? then Ended else Raised;
      }
      LocateAppend(graph, Parent(p), [Last(p)]);
      var container := found.tree;
      if container.Leaf? {
        return Ended;
      }
      LocateChild(graph, Parent(p), Last(p));
      var endIdx := Last(pointer.base);
      if endIdx >= |container.kids| {
        return Raised;
      }
      if IsFull(container.kids[endIdx]) {
        pointer.Append(0);
        return Moved;
      }
      var nextIdx := endIdx + 1;
      if nextIdx < |container.kids| {
        pointer.NearTo(nextIdx);
        if IsFull(container.kids[nextIdx]) {
          pointer.Append(0);
        }
        return Moved;
      }
      while pointer.base != []
        invariant pointer.base != [] && Locate(graph, pointer.base).Hit?
        invariant Next(graph, pointer.base) == Next(graph, p)
        invariant Next(graph, Parent(pointer.base)) == Next(graph, p)
        decreases |pointer.base|
      {
        HitParent(graph, pointer.base);
        pointer.Pop();
        if pointer.base == [] {
          return Ended;
        }
        HitParent(graph, pointer.base);
        var above := WalkTo(pointer.base[..|pointer.base| - 1]);
        var idx := Last(pointer.base);
        if idx + 1 < |above.tree.kids| {
          pointer.NearTo(idx + 1);
          if IsFull(above.tree.kids[idx + 1]) {
            pointer.Append(0);
          }
          return Moved;
        }
      }
      return Ended;
    }

    /** The descent `_call` starts with; false stands for the exception an empty container raises. */
    method Land(pointer: PointerVector) returns (ok: bool)
      requires Locate(graph, pointer.base).Hit?
      modifies pointer
      ensures pointer.base == Descend(graph, old(pointer.base)) && Locate(graph, pointer.base).Hit?
      ensures ok <==> Locate(graph, pointer.base).tree.Leaf?
      ensures !ok ==> Locate(graph, pointer.base).tree == Box([])
    {
      var target := FindAddr(pointer.base);
      while target.Some? && target.value.Box?
        invariant Locate(graph, pointer.base).Hit?
        invariant Descend(graph, pointer.base) == Descend(graph, old(pointer.base))
        invariant target.Some? ==> Locate(graph, pointer.base) == Hit(target.value) && target.value != Box([])
        invariant target.None? ==> Locate(graph, pointer.base) == Hit(Box([]))
        decreases target.Some?, if target.Some? then target.value else Box([])
      {
        LocateChild(graph, pointer.base, 0);
        EnterHits(graph, pointer.base);
        pointer.Append(0);
        target := FindAddr(pointer.base);
      }
      assert pointer.base + [] == pointer.base;
      ok := target.Some?;
    }

    /**
     The pointer walk of a whole run, nodes left out: land on a node, record
     it, advance. `ok` is false when a lookup raises.
     */
    method Traverse() returns (visited: seq<Path>, ok: bool)
      requires IsFull(graph)
      ensures ok <==> NoEmpty(graph)
      ensures visited <= Stops(graph, [])
      ensures ok ==> visited == Stops(graph, [])
      ensures !ok ==> |visited| < |Stops(graph, [])| && Locate(graph, Stops(graph, [])[|visited|]) == Hit(Box([]))
    {
      ghost var stops := Stops(graph, []);
      StopAt(graph, 0);
      var pointer := new PointerVector([0]);
      visited := [];
      while true
        invariant fresh(pointer)
        invariant |visited| < |stops| && visited <= stops
        invariant Locate(graph, pointer.base).Hit? && Descend(graph, pointer.base) == stops[|visited|]
        invariant AllLeaves(graph, visited)
        decreases |stops| - |visited|
      {
        ok := Land(pointer);
        StopAt(graph, |visited|);
        if !ok {
          EmptyStop(graph, |visited|);
          return;
        }
        visited := visited + [pointer.base];
        NextHits(graph, pointer.base);
        var r := Advance(pointer);
        if r != Moved {
          AllLeavesNoEmpty(graph, visited);
          return;
        }
      }
    }
  }

  /** One step of the pointer along the stops of a whole graph. */
  lemma StopAt<T>(g: Tree<T>, i: nat)
    requires IsFull(g) && (i == 0 || i < |Stops(g, [])|)
    ensures |Stops(g, [])| > 0 && Locate(g, [0]).Hit? && Stops(g, [])[0] == Descend(g, [0])
    ensures var p := Stops(g, [])[i];
            && p != [] && Locate(g, p).Hit? && !IsFull(Locate(g, p).tree)
            && (i + 1 < |Stops(g, [])| ==> Next(g, p) != [] && Descend(g, Next(g, p)) == Stops(g, [])[i + 1])
            && (i + 1 == |Stops(g, [])| ==> Next(g, p) == [])
  {
    StopsChained(g, []);
    EnterHits(g, []);
    LocateChild(g, [], 0);
  }

  ghost predicate AllLeaves<T>(g: Tree<T>, ps: seq<Path>) {
    forall p | p in ps :: Locate(g, p).Hit? && Locate(g, p).tree.Leaf?
  }

  /** If the pointer only ever stops at leaves, the graph has no empty container. */
  lemma AllLeavesNoEmpty<T>(g: Tree<T>, ps: seq<Path>)
    requires ps == Stops(g, []) && AllLeaves(g, ps)
    ensures NoEmpty(g)
  {
    if !NoEmpty(g) {
      var p := SomeEmptyStop(g);
      assert false;
    }
  }

  lemma SomeEmptyStop<T>(g: Tree<T>) returns (p: Path)
    requires !NoEmpty(g)
    ensures p in Stops(g, []) && Locate(g, p) == Hit(Box([]))
  {
    p := SomeEmptyBelow(g);
    StopsExact(g, [], p);
    assert p[0..] == p;
  }

  lemma EmptyStop<T>(g: Tree<T>, i: nat)
    requires i < |Stops(g, [])| && Locate(g, Stops(g, [])[i]) == Hit(Box([]))
    ensures !NoEmpty(g)
  {
    if NoEmpty(g) {
      NoEmptyBelow(g, Stops(g, [])[i]);
    }
  }

  /** The debugger's recursive listing. */
  method WalkGraph<T>(graph: Tree<T>, prefix: Path) returns (result: seq<(Path, T)>)
    requires graph.Box?
    ensures result == Listing(graph, prefix)
    decreases graph
  {
    result := [];
    for idx := 0 to |graph.kids|
      invariant result + ListingFrom(graph.kids, prefix, idx) == Listing(graph, prefix)
    {
      var item := graph.kids[idx];
      var addr := prefix + [idx];
      if item.Leaf? {
        result := result + [(addr, item.node)];
      } else {
        var inner := WalkGraph(item, addr);
        result := result + inner;
      }
    }
  }
}
