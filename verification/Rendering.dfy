/**
 Rendering a source composition: the graph, the alias table and the
 post-compile hooks, read off the listing of the graph.
 */
module Rendering {
  import opened Options
  import opened Addressing
  import opened Walks
  import opened Keyed

  type Name = nat
  type SlotId = nat

  /** A node, its alias if it has one, and whether it has a post-compile hook. */
  datatype Node = Node(id: nat, alias: Option<Name>, hook: bool)

  /**
   A source element. A self-compiling instruction stands here as the
   composition it extracts to; `Dll` is a dynamically linked composition.
   */
  datatype Part = Single(node: Node) | Compose(kids: seq<Part>) | Dll(slot: SlotId, payload: seq<Part>)

  function Layout(k: Part): Tree<Node>
    decreases k, 0
  {
    match k
    case Single(n) => Leaf(n)
    case Compose(kids) => Box(LayoutAll(kids))
    case Dll(_, payload) => Box(LayoutAll(payload))
  }

  function LayoutAll(kids: seq<Part>): (r: seq<Tree<Node>>)
    ensures |r| == |kids|
    decreases kids, 1
  {
    seq(|kids|, i requires 0 <= i < |kids| => Layout(kids[i]))
  }

  type Listed = seq<(Path, Node)>

  // ----- the nodes of a source, without its layout -----

  /** The parts an element is made of; a slot holds its payload. */
  function Inner(k: Part): seq<Part> {
    match k
    case Single(_) => []
    case Compose(kids) => kids
    case Dll(_, payload) => payload
  }

  /** The nodes written in an element at `p`, left to right, each with the child positions leading to it. */
  function Written(k: Part, p: Path): Listed
    decreases k, 0
  {
    match k
    case Single(n) => [(p, n)]
    case Compose(kids) => WrittenFrom(kids, p, 0)
    case Dll(_, payload) => WrittenFrom(payload, p, 0)
  }

  function WrittenFrom(kids: seq<Part>, p: Path, i: nat): Listed
    requires i <= |kids|
    decreases kids, |kids| - i
  {
    if i == |kids| then [] else Written(kids[i], p + [i]) + WrittenFrom(kids, p, i + 1)
  }

  /** The element that child positions `q` lead to. */
  function PartAt(k: Part, q: Path): Option<Part>
    decreases |q|
  {
    if q == [] then Some(k)
    else if q[0] < |Inner(k)| then PartAt(Inner(k)[q[0]], q[1..])
    else None
  }

  /** The graph lists exactly the nodes of the source, in order, unchanged, each where it is written. */
  lemma {:induction false} LayoutLists(k: Part, p: Path)
    ensures Listing(Layout(k), p) == Written(k, p)
    decreases k, 0
  {
    match k
    case Single(_) =>
    case Compose(kids) => LayoutListsFrom(kids, p, 0);
    case Dll(_, payload) => LayoutListsFrom(payload, p, 0);
  }

  lemma {:induction false} LayoutListsFrom(kids: seq<Part>, p: Path, i: nat)
    requires i <= |kids|
    ensures ListingFrom(LayoutAll(kids), p, i) == WrittenFrom(kids, p, i)
    decreases kids, |kids| - i
  {
    if i < |kids| {
      LayoutLists(kids[i], p + [i]);
      LayoutListsFrom(kids, p, i + 1);
    }
  }

  /** And it has the source's shape: a node for a node, a container with as many children for anything else. */
  lemma {:induction false} LayoutShape(k: Part, q: Path)
    ensures match PartAt(k, q)
            case None => !Locate(Layout(k), q).Hit?
            case Some(Single(n)) => Locate(Layout(k), q) == Hit(Leaf(n))
            case Some(x) =>
              && Locate(Layout(k), q).Hit? && Locate(Layout(k), q).tree.Box?
              && |Locate(Layout(k), q).tree.kids| == |Inner(x)|
    decreases |q|
  {
    if q != [] && q[0] < |Inner(k)| {
      assert Layout(k) == Box(LayoutAll(Inner(k)));
      LayoutShape(Inner(k)[q[0]], q[1..]);
    }
  }

  /** A listing has a node at an address exactly if the source has it there. */
  lemma {:induction false} WrittenExact(k: Part, p: Path, a: Path, n: Node)
    ensures (a, n) in Written(k, p) <==> p <= a && PartAt(k, a[|p|..]) == Some(Single(n))
    decreases k, 0
  {
    if p <= a {
      assert a == p + a[|p|..] && (a != p ==> a[|p|..][1..] == a[|p| + 1..]);
    }
    match k
    case Single(_) =>
    case Compose(kids) => WrittenFromExact(kids, p, 0, a, n);
    case Dll(_, payload) => WrittenFromExact(payload, p, 0, a, n);
  }

  lemma {:induction false} WrittenFromExact(kids: seq<Part>, p: Path, i: nat, a: Path, n: Node)
    requires i <= |kids|
    ensures (a, n) in WrittenFrom(kids, p, i) <==>
            p < a && i <= a[|p|] < |kids| && PartAt(kids[a[|p|]], a[|p| + 1..]) == Some(Single(n))
    decreases kids, |kids| - i
  {
    if i < |kids| {
      WrittenExact(kids[i], p + [i], a, n);
      WrittenFromExact(kids, p, i + 1, a, n);
      if p < a && a[|p|] == i {
        assert p + [i] <= a;
      }
    }
  }

  /** The aliases of a listing, in order, with the addresses they stand for. */
  function AliasesIn(l: Listed): seq<(Name, Path)> {
    if l == [] then []
    else (if l[0].1.alias.Some? then [(l[0].1.alias.value, l[0].0)] else []) + AliasesIn(l[1..])
  }

  /** The nodes of a listing whose hooks have to run, in order. */
  function HooksIn(l: Listed): seq<Path> {
    if l == [] then [] else (if l[0].1.hook then [l[0].0] else []) + HooksIn(l[1..])
  }

  lemma {:induction false} AliasesAppend(a: Listed, b: Listed)
    ensures AliasesIn(a + b) == AliasesIn(a) + AliasesIn(b)
    decreases |a|
  {
    if a == [] {
      assert a + b == b;
    } else {
      var rest := a[1..];
      assert (a + b)[1..] == rest + b;
      AliasesAppend(rest, b);
      var head := if a[0].1.alias.Some? then [(a[0].1.alias.value, a[0].0)] else [];
      assert head + (AliasesIn(rest) + AliasesIn(b)) == (head + AliasesIn(rest)) + AliasesIn(b);
    }
  }

  lemma {:induction false} HooksAppend(a: Listed, b: Listed)
    ensures HooksIn(a + b) == HooksIn(a) + HooksIn(b)
    decreases |a|
  {
    if a == [] {
      assert a + b == b;
    } else {
      var rest := a[1..];
      assert (a + b)[1..] == rest + b;
      HooksAppend(rest, b);
      var head := if a[0].1.hook then [a[0].0] else [];
      assert head + (HooksIn(rest) + HooksIn(b)) == (head + HooksIn(rest)) + HooksIn(b);
    }
  }

  type Table = map<Name, Path>

  // ----- what the table and the hooks are -----

  lemma {:induction false} AliasListed(l: Listed, a: Name, p: Path)
    ensures (a, p) in AliasesIn(l) <==> exists i :: 0 <= i < |l| && l[i].0 == p && l[i].1.alias == Some(a)
    decreases |l|
  {
    if l != [] {
      AliasListed(l[1..], a, p);
      if i :| 0 <= i < |l[1..]| && l[1..][i].0 == p && l[1..][i].1.alias == Some(a) {
        assert l[i + 1] == l[1..][i];
      }
      if i :| 0 <= i < |l| && l[i].0 == p && l[i].1.alias == Some(a) {
        if i > 0 {
          assert l[1..][i - 1] == l[i];
        }
      }
    }
  }

  lemma {:induction false} HookListed(l: Listed, p: Path)
    ensures p in HooksIn(l) <==> exists i :: 0 <= i < |l| && l[i].0 == p && l[i].1.hook
    decreases |l|
  {
    if l != [] {
      HookListed(l[1..], p);
      if i :| 0 <= i < |l[1..]| && l[1..][i].0 == p && l[1..][i].1.hook {
        assert l[i + 1] == l[1..][i];
      }
      if i :| 0 <= i < |l| && l[i].0 == p && l[i].1.hook {
        if i > 0 {
          assert l[1..][i - 1] == l[i];
        }
      }
    }
  }

  /** The listing has every leaf. */
  lemma {:induction false} ListingComplete<T>(t: Tree<T>, base: Path, q: Path)
    requires Locate(t, q).Hit? && Locate(t, q).tree.Leaf?
    ensures (base + q, Locate(t, q).tree.node) in Listing(t, base)
    decreases t, 0
  {
    if t.Leaf? {
      assert base + q == base;
    } else {
      ListingFromComplete(t.kids, base, 0, q);
    }
  }

  lemma {:induction false} ListingFromComplete<T>(kids: seq<Tree<T>>, base: Path, i: nat, q: Path)
    requires q != [] && i <= q[0] < |kids|
    requires Locate(kids[q[0]], q[1..]).Hit? && Locate(kids[q[0]], q[1..]).tree.Leaf?
    ensures (base + q, Locate(kids[q[0]], q[1..]).tree.node) in ListingFrom(kids, base, i)
    decreases kids, |kids| - i
  {
    if q[0] == i {
      ListingComplete(kids[i], base + [i], q[1..]);
      assert (base + [i]) + q[1..] == base + q;
    } else {
      ListingFromComplete(kids, base, i + 1, q);
    }
  }

  /** The listing goes left to right. */
  lemma {:induction false} ListingOrdered<T>(t: Tree<T>, base: Path)
    ensures InOrder(Addresses(Listing(t, base)))
    decreases t, 0
  {
    if t.Box? {
      ListingFromOrdered(t.kids, base, 0);
    }
  }

  lemma {:induction false} ListingFromOrdered<T>(kids: seq<Tree<T>>, base: Path, i: nat)
    requires i <= |kids|
    ensures InOrder(Addresses(ListingFrom(kids, base, i)))
    decreases kids, |kids| - i
  {
    if i < |kids| {
      ListingOrdered(kids[i], base + [i]);
      ListingFromOrdered(kids, base, i + 1);
      var a, b := Listing(kids[i], base + [i]), ListingFrom(kids, base, i + 1);
      forall x, y | 0 <= x < |a| && 0 <= y < |b|
        ensures Before(a[x].0, b[y].0)
      {
        ListingFaithful(kids[i], base + [i], x);
        ListingUnder(kids, base, i + 1, y);
        assert a[x].0 == base + a[x].0[|base|..] && b[y].0 == base + b[y].0[|base|..];
        BeforePrefix(base, a[x].0[|base|..], b[y].0[|base|..]);
      }
      assert Addresses(ListingFrom(kids, base, i)) == Addresses(a) + Addresses(b);
    }
  }

  lemma {:induction false} ListingUnder<T>(kids: seq<Tree<T>>, base: Path, i: nat, y: nat)
    requires i <= |kids| && y < |ListingFrom(kids, base, i)|
    ensures var p := ListingFrom(kids, base, i)[y].0;
            base <= p && |base| < |p| && p[|base|] >= i
    decreases |kids| - i
  {
    var here := Listing(kids[i], base + [i]);
    if y < |here| {
      ListingFaithful(kids[i], base + [i], y);
    } else {
      ListingUnder(kids, base, i + 1, y - |here|);
    }
  }

  /** The table of a rendered graph: an alias stands for an address exactly if the node there carries it. */
  lemma TableExact(g: Tree<Node>, a: Name, p: Path)
    requires Fresh(map[], AliasesIn(Listing(g, [])))
    ensures var t := Register(map[], AliasesIn(Listing(g, [])));
            a in t && t[a] == p <==>
            Locate(g, p).Hit? && Locate(g, p).tree.Leaf? && Locate(g, p).tree.node.alias == Some(a)
  {
    var l := Listing(g, []);
    RegisterExact(map[], AliasesIn(l), a, p);
    AliasListed(l, a, p);
    if i :| 0 <= i < |l| && l[i].0 == p && l[i].1.alias == Some(a) {
      ListingFaithful(g, [], i);
      assert p[0..] == p;
    }
    if Locate(g, p).Hit? && Locate(g, p).tree.Leaf? {
      ListingComplete(g, [], p);
      assert [] + p == p;
    }
  }

  /** The hooks of a rendered graph: those of the nodes that have one, each once, in graph order. */
  lemma HooksExact(g: Tree<Node>)
    ensures InOrder(HooksIn(Listing(g, [])))
    ensures forall p :: p in HooksIn(Listing(g, [])) <==>
              Locate(g, p).Hit? && Locate(g, p).tree.Leaf? && Locate(g, p).tree.node.hook
  {
    var l := Listing(g, []);
    ListingOrdered(g, []);
    HooksOrdered(l);
    forall p
      ensures p in HooksIn(l) <==> Locate(g, p).Hit? && Locate(g, p).tree.Leaf? && Locate(g, p).tree.node.hook
    {
      HookListed(l, p);
      if i :| 0 <= i < |l| && l[i].0 == p && l[i].1.hook {
        ListingFaithful(g, [], i);
        assert p[0..] == p;
      }
      if Locate(g, p).Hit? && Locate(g, p).tree.Leaf? {
        ListingComplete(g, [], p);
        assert [] + p == p;
      }
    }
  }

  lemma {:induction false} HooksOrdered(l: Listed)
    requires InOrder(Addresses(l))
    ensures InOrder(HooksIn(l))
    decreases |l|
  {
    if l != [] {
      var rest := l[1..];
      assert forall i | 0 <= i < |rest| :: Addresses(rest)[i] == Addresses(l)[i + 1];
      HooksOrdered(rest);
      forall p | p in HooksIn(rest)
        ensures Before(l[0].0, p)
      {
        HookListed(rest, p);
        var i :| 0 <= i < |rest| && rest[i].0 == p && rest[i].1.hook;
        assert Addresses(l)[0] == l[0].0 && Addresses(l)[i + 1] == p;
      }
    }
  }
}
