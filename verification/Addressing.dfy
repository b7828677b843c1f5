/**
 The rendered graph as a tree, addresses into it, and the steps the
 interpreter's pointer makes on it.

 A rendered composition is a `Box` of children; every other node is a `Leaf`.
 An address is the sequence of child indices from the root.
 */
module Addressing {

  type Path = seq<nat>

  datatype Tree<T> = Leaf(node: T) | Box(kids: seq<Tree<T>>)

  /** Where an address leads: to a subtree, through a leaf, or out of range. */
  datatype Lookup<T> = Hit(tree: Tree<T>) | Through | Missing

  function Locate<T>(g: Tree<T>, p: Path): Lookup<T>
    decreases |p|
  {
    if p == [] then Hit(g)
    else if g.Leaf? then Through
    else if p[0] >= |g.kids| then Missing
    else Locate(g.kids[p[0]], p[1..])
  }

  function Parent(p: Path): Path
    requires p != []
  {
    p[..|p| - 1]
  }

  function Last(p: Path): nat
    requires p != []
  {
    p[|p| - 1]
  }

  predicate IsFull<T>(t: Tree<T>) {
    t.Box? && t.kids != []
  }

  /** The address the code writes on reaching `t` at `p`: one level into a non-empty container. */
  function Enter<T>(t: Tree<T>, p: Path): Path {
    if IsFull(t) then p + [0] else p
  }

  /** The address reached once the whole subtree at `p` is exhausted; `[]` at the end of the workflow. */
  function Next<T>(g: Tree<T>, p: Path): Path
    decreases |p|
  {
    if p == [] then []
    else
      match Locate(g, Parent(p))
      case Hit(Box(kids)) =>
        if Last(p) + 1 < |kids|
        then Enter(kids[Last(p) + 1], Parent(p) + [Last(p) + 1])
        else Next(g, Parent(p))
      case _ => []
  }

  /** The relative address of the first position of `t` that is not a non-empty container. */
  function FirstStop<T>(t: Tree<T>): Path {
    if IsFull(t) then [0] + FirstStop(t.kids[0]) else []
  }

  /** The descent `_call` performs before it executes the node at `p`. */
  function Descend<T>(g: Tree<T>, p: Path): Path {
    match Locate(g, p)
    case Hit(t) => p + FirstStop(t)
    case _ => p
  }

  /** What one `advance` answers: whether a position follows, or that an index was out of range. */
  datatype Advanced = Moved | Ended | Raised

  function AdvanceResult<T>(g: Tree<T>, p: Path): Advanced {
    if p == [] then Ended
    else
      match Locate(g, p)
      case Missing => Raised
      case Through => Ended
      case Hit(t) => if IsFull(t) || Next(g, p) != [] then Moved else Ended
  }

  function AdvancePointer<T>(g: Tree<T>, p: Path): Path {
    if p == [] then p
    else
      match Locate(g, p)
      case Hit(t) => if IsFull(t) then p + [0] else Next(g, p)
      case _ => p
  }

  // ----- addresses that lead nowhere -----

  /** A lookup is stopped by a leaf exactly if one stands at a proper prefix of the address. */
  lemma {:induction false} ThroughExact<T>(g: Tree<T>, p: Path)
    ensures Locate(g, p).Through? <==>
              exists k :: 0 <= k < |p| && Locate(g, p[..k]).Hit? && Locate(g, p[..k]).tree.Leaf?
    decreases |p|
  {
    if p != [] {
      if g.Leaf? {
        assert Locate(g, p[..0]) == Hit(g);
      } else if p[0] < |g.kids| {
        var kid := g.kids[p[0]];
        ThroughExact(kid, p[1..]);
        forall k | 0 < k <= |p|
          ensures Locate(g, p[..k]) == Locate(kid, p[1..][..k - 1])
        {
          assert p[..k][1..] == p[1..][..k - 1];
        }
        if k :| 0 <= k < |p[1..]| && Locate(kid, p[1..][..k]).Hit? && Locate(kid, p[1..][..k]).tree.Leaf? {
          assert Locate(g, p[..k + 1]).tree.Leaf?;
        }
      } else {
        forall k | 0 < k <= |p|
          ensures Locate(g, p[..k]) == Missing
        {
          assert p[..k][0] == p[0];
        }
      }
    }
  }

  /** Advancing from there moves nothing: behind a leaf the walk has ended, behind a missing child an index is bad. */
  lemma AdvanceLost<T>(g: Tree<T>, p: Path)
    requires !Locate(g, p).Hit?
    ensures AdvancePointer(g, p) == p
    ensures AdvanceResult(g, p)
         == if exists k :: 0 <= k < |p| && Locate(g, p[..k]).Hit? && Locate(g, p[..k]).tree.Leaf? then Ended else Raised
  {
    ThroughExact(g, p);
  }

  // ----- lookups along a path -----

  lemma {:induction false} LocateAppend<T>(g: Tree<T>, p: Path, q: Path)
    requires Locate(g, p).Hit?
    ensures Locate(g, p + q) == Locate(Locate(g, p).tree, q)
    decreases |p|
  {
    if p == [] {
      assert p + q == q;
    } else {
      assert (p + q)[1..] == p[1..] + q;
      LocateAppend(g.kids[p[0]], p[1..], q);
    }
  }

  lemma {:induction false} LocateBlocked<T>(g: Tree<T>, p: Path, q: Path)
    requires !Locate(g, p).Hit?
    ensures Locate(g, p + q) == Locate(g, p)
    decreases |p|
  {
    assert p != [];
    assert (p + q)[1..] == p[1..] + q;
    if g.Box? && p[0] < |g.kids| {
      LocateBlocked(g.kids[p[0]], p[1..], q);
    }
  }

  lemma LocateChild<T>(g: Tree<T>, q: Path, i: nat)
    requires Locate(g, q).Hit? && Locate(g, q).tree.Box?
    ensures Locate(g, q + [i]) ==
            if i < |Locate(g, q).tree.kids| then Hit(Locate(g, q).tree.kids[i]) else Missing
  {
    LocateAppend(g, q, [i]);
    var t := Locate(g, q).tree;
    if i < |t.kids| {
      assert Locate(t.kids[i], [i][1..]) == Hit(t.kids[i]);
    }
  }

  /** A valid non-empty address has a container above it that holds it. */
  lemma HitParent<T>(g: Tree<T>, p: Path)
    requires p != [] && Locate(g, p).Hit?
    ensures Locate(g, Parent(p)).Hit?
    ensures Locate(g, Parent(p)).tree.Box?
    ensures Last(p) < |Locate(g, Parent(p)).tree.kids|
    ensures Locate(g, p) == Hit(Locate(g, Parent(p)).tree.kids[Last(p)])
  {
    assert p == Parent(p) + [Last(p)];
    if !Locate(g, Parent(p)).Hit? {
      LocateBlocked(g, Parent(p), [Last(p)]);
    }
    LocateAppend(g, Parent(p), [Last(p)]);
    LocateChild(g, Parent(p), Last(p));
  }

  lemma NextInBox<T>(g: Tree<T>, q: Path, i: nat)
    requires Locate(g, q).Hit? && Locate(g, q).tree.Box?
    ensures var kids := Locate(g, q).tree.kids;
            Next(g, q + [i]) == if i + 1 < |kids| then Enter(kids[i + 1], q + [i + 1]) else Next(g, q)
  {
    assert Parent(q + [i]) == q;
  }

  /** `Next` is a valid address again, so the descent that follows it is meaningful. */
  lemma {:induction false} NextHits<T>(g: Tree<T>, p: Path)
    requires Locate(g, p).Hit?
    ensures Locate(g, Next(g, p)).Hit?
    ensures p == [] ==> Next(g, p) == []
    decreases |p|
  {
    if p != [] {
      HitParent(g, p);
      var q, i := Parent(p), Last(p);
      var kids := Locate(g, q).tree.kids;
      if i + 1 < |kids| {
        LocateChild(g, q, i + 1);
        EnterHits(g, q + [i + 1]);
      } else {
        NextHits(g, q);
      }
    }
  }

  lemma EnterHits<T>(g: Tree<T>, p: Path)
    requires Locate(g, p).Hit?
    ensures Locate(g, Enter(Locate(g, p).tree, p)).Hit?
    ensures Descend(g, Enter(Locate(g, p).tree, p)) == Descend(g, p)
  {
    var t := Locate(g, p).tree;
    if IsFull(t) {
      LocateChild(g, p, 0);
      DescendStep(g, p, t);
    }
  }

  lemma DescendStep<T>(g: Tree<T>, p: Path, t: Tree<T>)
    requires IsFull(t) && Locate(g, p) == Hit(t) && Locate(g, p + [0]) == Hit(t.kids[0])
    ensures Descend(g, p + [0]) == Descend(g, p)
  {
    var rest := FirstStop(t.kids[0]);
    assert FirstStop(t) == [0] + rest;
    assert (p + [0]) + rest == p + ([0] + rest);
  }

  lemma {:induction false} FirstStopIsStop<T>(t: Tree<T>)
    ensures Locate(t, FirstStop(t)).Hit?
    ensures !IsFull(Locate(t, FirstStop(t)).tree)
  {
    if IsFull(t) {
      FirstStopIsStop(t.kids[0]);
      assert FirstStop(t)[1..] == FirstStop(t.kids[0]);
    }
  }

  /** Descending ends on a leaf or an empty container, and doing it twice changes nothing. */
  lemma DescendStops<T>(g: Tree<T>, p: Path)
    requires Locate(g, p).Hit?
    ensures Locate(g, Descend(g, p)).Hit?
    ensures !IsFull(Locate(g, Descend(g, p)).tree)
    ensures Descend(g, Descend(g, p)) == Descend(g, p)
  {
    var t := Locate(g, p).tree;
    FirstStopIsStop(t);
    LocateAppend(g, p, FirstStop(t));
    assert Descend(g, p) + [] == Descend(g, p);
  }
}
