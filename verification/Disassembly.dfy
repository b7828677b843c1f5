/**
 The debugger's flattening of a graph: one block per container, each with the
 entries of its direct children, then the leaves in execution order.
 */
module Disassembly {
  import opened Addressing
  import opened Walks

  datatype Entry<T> = LeafEntry(addr: Path, node: T) | Ref(addr: Path, child: nat)

  datatype Block<T> = Block(addr: Path, entries: seq<Entry<T>>)

  /** Block `index` and the blocks it refers to describe the container `t` at `addr`. */
  ghost predicate Describes<T>(blocks: seq<Block<T>>, index: nat, t: Tree<T>, addr: Path)
    decreases t, 0
  {
    && t.Box? && index < |blocks|
    && blocks[index].addr == addr && |blocks[index].entries| == |t.kids|
    && forall k | 0 <= k < |t.kids| :: DescribesEntry(blocks, index, blocks[index].entries[k], t.kids[k], addr + [k])
  }

  ghost predicate DescribesEntry<T>(blocks: seq<Block<T>>, index: nat, e: Entry<T>, kid: Tree<T>, addr: Path)
    decreases kid, 1
  {
    match kid
    case Leaf(n) => e == LeafEntry(addr, n)
    case Box(_) => e.Ref? && e.addr == addr && index < e.child && Describes(blocks, e.child, kid, addr)
  }

  /** Only the blocks from `index` on matter. */
  lemma {:induction false} DescribesLater<T>(blocks: seq<Block<T>>, blocks': seq<Block<T>>, index: nat,
      t: Tree<T>, addr: Path)
    requires Describes(blocks, index, t, addr)
    requires |blocks| <= |blocks'| && forall j | index <= j < |blocks| :: blocks'[j] == blocks[j]
    ensures Describes(blocks', index, t, addr)
    decreases t
  {
    forall k | 0 <= k < |t.kids|
      ensures DescribesEntry(blocks', index, blocks'[index].entries[k], t.kids[k], addr + [k])
    {
      assert DescribesEntry(blocks, index, blocks[index].entries[k], t.kids[k], addr + [k]);
      if t.kids[k].Box? {
        DescribesLater(blocks, blocks', blocks[index].entries[k].child, t.kids[k], addr + [k]);
      }
    }
  }

  // ----- which containers there are -----

  /** The containers of a subtree at `addr`, each before those inside it, left to right. */
  function Containers<T>(t: Tree<T>, addr: Path): seq<Path>
    decreases t, 0
  {
    if t.Leaf? then [] else [addr] + ContainersFrom(t.kids, addr, 0)
  }

  function ContainersFrom<T>(kids: seq<Tree<T>>, addr: Path, i: nat): seq<Path>
    requires i <= |kids|
    decreases kids, |kids| - i
  {
    if i == |kids| then [] else Containers(kids[i], addr + [i]) + ContainersFrom(kids, addr, i + 1)
  }

  /** In pre-order: the one contains the other, or stands left of it. */
  ghost predicate Earlier(p: Path, q: Path) {
    p < q || Before(p, q)
  }

  ghost predicate PreOrder(ps: seq<Path>) {
    forall i, j | 0 <= i < j < |ps| :: Earlier(ps[i], ps[j])
  }

  /** They are the addresses that lead to a container, each once. */
  lemma {:induction false} ContainersExact<T>(t: Tree<T>, addr: Path, p: Path)
    ensures p in Containers(t, addr) <==> addr <= p && Locate(t, p[|addr|..]).Hit? && Locate(t, p[|addr|..]).tree.Box?
    decreases t, 0
  {
    if t.Leaf? {
    } else if p == addr {
      assert p[|addr|..] == [];
    } else {
      ContainersFromExact(t.kids, addr, 0, p);
    }
  }

  lemma {:induction false} ContainersFromExact<T>(kids: seq<Tree<T>>, addr: Path, i: nat, p: Path)
    requires i <= |kids|
    ensures p in ContainersFrom(kids, addr, i) <==>
            && addr < p && i <= p[|addr|] < |kids|
            && Locate(kids[p[|addr|]], p[|addr| + 1..]).Hit? && Locate(kids[p[|addr|]], p[|addr| + 1..]).tree.Box?
    decreases kids, |kids| - i
  {
    if i < |kids| {
      ContainersExact(kids[i], addr + [i], p);
      ContainersFromExact(kids, addr, i + 1, p);
      if addr < p && p[|addr|] == i {
        assert addr + [i] <= p;
      }
    }
  }

  lemma {:induction false} ContainersOrdered<T>(t: Tree<T>, addr: Path)
    ensures PreOrder(Containers(t, addr))
    decreases t, 0
  {
    if t.Box? {
      ContainersFromOrdered(t.kids, addr, 0);
      forall q | q in ContainersFrom(t.kids, addr, 0)
        ensures addr < q
      {
        ContainersFromExact(t.kids, addr, 0, q);
      }
      var rest := ContainersFrom(t.kids, addr, 0);
      forall i, j | 0 <= i < j < |[addr] + rest|
        ensures Earlier(([addr] + rest)[i], ([addr] + rest)[j])
      {
        assert rest[j - 1] in rest;
      }
    }
  }

  lemma {:induction false} ContainersFromOrdered<T>(kids: seq<Tree<T>>, addr: Path, i: nat)
    requires i <= |kids|
    ensures PreOrder(ContainersFrom(kids, addr, i))
    decreases kids, |kids| - i
  {
    if i < |kids| {
      ContainersOrdered(kids[i], addr + [i]);
      ContainersFromOrdered(kids, addr, i + 1);
      var a, b := Containers(kids[i], addr + [i]), ContainersFrom(kids, addr, i + 1);
      forall x, y | x in a && y in b
        ensures Earlier(x, y)
      {
        ContainersExact(kids[i], addr + [i], x);
        ContainersFromExact(kids, addr, i + 1, y);
        assert x == addr + x[|addr|..] && y == addr + y[|addr|..];
        BeforePrefix(addr, x[|addr|..], y[|addr|..]);
      }
    }
  }

  function AddressesOf<T>(blocks: seq<Block<T>>): (r: seq<Path>)
    ensures |r| == |blocks|
  {
    seq(|blocks|, i requires 0 <= i < |blocks| => blocks[i].addr)
  }

  lemma AddressesAppend<T>(a: seq<Block<T>>, b: seq<Block<T>>)
    ensures AddressesOf(a + b) == AddressesOf(a) + AddressesOf(b)
  {
  }

  /** `build`: a block for the container first, then its children's blocks, then the references to them. */
  method Build<T>(container: Tree<T>, addr: Path, before: seq<Block<T>>) returns (blocks: seq<Block<T>>)
    requires container.Box?
    ensures before <= blocks && Describes(blocks, |before|, container, addr)
    ensures AddressesOf(blocks) == AddressesOf(before) + Containers(container, addr)
    decreases container
  {
    var index := |before|;
    var items := container.kids;
    blocks := before + [Block(addr, [])];
    var entries: seq<Entry<T>> := [];
    for k := 0 to |items|
      invariant before + [Block(addr, [])] <= blocks && |entries| == k
      invariant forall j | 0 <= j < k :: DescribesEntry(blocks, index, entries[j], items[j], addr + [j])
      invariant AddressesOf(blocks) + ContainersFrom(items, addr, k)
             == AddressesOf(before) + Containers(container, addr)
    {
      var item := items[k];
      if item.Leaf? {
        entries := entries + [LeafEntry(addr + [k], item.node)];
      } else {
        var earlier := blocks;
        blocks := Build(item, addr + [k], earlier);
        entries := entries + [Ref(addr + [k], |earlier|)];
        forall j | 0 <= j < k
          ensures DescribesEntry(blocks, index, entries[j], items[j], addr + [j])
        {
          EntryLater(earlier, blocks, index, entries[j], items[j], addr + [j]);
        }
      }
    }
    var described := blocks[index := Block(addr, entries)];
    forall j | 0 <= j < |items|
      ensures DescribesEntry(described, index, entries[j], items[j], addr + [j])
    {
      EntryLater(blocks, described, index, entries[j], items[j], addr + [j]);
    }
    blocks := described;
  }

  lemma EntryLater<T>(blocks: seq<Block<T>>, blocks': seq<Block<T>>, index: nat, e: Entry<T>, kid: Tree<T>, addr: Path)
    requires DescribesEntry(blocks, index, e, kid, addr)
    requires |blocks| <= |blocks'| && forall j | index < j < |blocks| :: blocks'[j] == blocks[j]
    ensures DescribesEntry(blocks', index, e, kid, addr)
  {
    if kid.Box? {
      DescribesLater(blocks, blocks', e.child, kid, addr);
    }
  }

  /** A leaf as `_walk` reports it: its address, and the block of the container that holds it. */
  ghost predicate Owned<T>(blocks: seq<Block<T>>, leaf: (Path, nat), addr: Path) {
    leaf.0 == addr && addr != [] && leaf.1 < |blocks| && blocks[leaf.1].addr == Parent(addr)
  }

  /** `order`: the leaves below a block. */
  method Order<T>(blocks: seq<Block<T>>, index: nat, ghost t: Tree<T>, ghost addr: Path)
    returns (leaves: seq<(Path, nat)>)
    requires Describes(blocks, index, t, addr)
    ensures |leaves| == |Listing(t, addr)|
    ensures forall i | 0 <= i < |leaves| :: Owned(blocks, leaves[i], Listing(t, addr)[i].0)
    decreases t
  {
    leaves := [];
    ghost var all := Listing(t, addr);
    ghost var done: seq<(Path, T)> := [];
    for k := 0 to |blocks[index].entries|
      invariant done + ListingFrom(t.kids, addr, k) == all
      invariant |leaves| == |done|
      invariant forall i | 0 <= i < |leaves| :: Owned(blocks, leaves[i], done[i].0)
    {
      var e := blocks[index].entries[k];
      assert DescribesEntry(blocks, index, e, t.kids[k], addr + [k]);
      assert Parent(addr + [k]) == addr;
      ghost var here := Listing(t.kids[k], addr + [k]);
      if e.LeafEntry? {
        leaves := leaves + [(e.addr, index)];
      } else {
        var inner := Order(blocks, e.child, t.kids[k], addr + [k]);
        leaves := leaves + inner;
      }
      assert (done + here) + ListingFrom(t.kids, addr, k + 1) == all;
      done := done + here;
    }
  }

  /**
   `_walk`: the leaves come in the order in which the interpreter's pointer
   visits them, each listed under the block of the container that holds it.
   */
  method Walk<T>(graph: Tree<T>) returns (blocks: seq<Block<T>>, leaves: seq<(Path, nat)>)
    requires graph.Box? && NoEmpty(graph)
    ensures Describes(blocks, 0, graph, []) && AddressesOf(blocks) == Containers(graph, [])
    ensures |leaves| == |Stops(graph, [])|
    ensures forall i | 0 <= i < |leaves| :: Owned(blocks, leaves[i], Stops(graph, [])[i])
  {
    blocks := Build(graph, [], []);
    leaves := Order(blocks, 0, graph, []);
    ListingIsWalk(graph, []);
    assert forall i | 0 <= i < |leaves| :: Addresses(Listing(graph, []))[i] == Listing(graph, [])[i].0;
  }
}
