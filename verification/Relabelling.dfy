/**
 Changing what the nodes of a graph are, but not where they are: every lookup,
 descent and step of the pointer stays the same.
 */
module Relabelling {
  import opened Addressing

  function Relabel<T, U>(f: T -> U, t: Tree<T>): Tree<U>
    decreases t
  {
    match t
    case Leaf(n) => Leaf(f(n))
    case Box(kids) => Box(seq(|kids|, i requires 0 <= i < |kids| => Relabel(f, kids[i])))
  }

  function RelabelLookup<T, U>(f: T -> U, r: Lookup<T>): Lookup<U> {
    match r
    case Hit(t) => Hit(Relabel(f, t))
    case Through => Through
    case Missing => Missing
  }

  lemma {:induction false} RelabelLocate<T, U>(f: T -> U, g: Tree<T>, p: Path)
    ensures Locate(Relabel(f, g), p) == RelabelLookup(f, Locate(g, p))
    decreases |p|
  {
    if p != [] && g.Box? && p[0] < |g.kids| {
      RelabelLocate(f, g.kids[p[0]], p[1..]);
    }
  }

  lemma {:induction false} RelabelFirstStop<T, U>(f: T -> U, t: Tree<T>)
    ensures FirstStop(Relabel(f, t)) == FirstStop(t)
  {
    if IsFull(t) {
      RelabelFirstStop(f, t.kids[0]);
    }
  }

  lemma RelabelDescend<T, U>(f: T -> U, g: Tree<T>, p: Path)
    ensures Descend(Relabel(f, g), p) == Descend(g, p)
  {
    RelabelLocate(f, g, p);
    if Locate(g, p).Hit? {
      RelabelFirstStop(f, Locate(g, p).tree);
    }
  }

  lemma {:induction false} RelabelNext<T, U>(f: T -> U, g: Tree<T>, p: Path)
    ensures Next(Relabel(f, g), p) == Next(g, p)
    decreases |p|
  {
    if p != [] {
      RelabelLocate(f, g, Parent(p));
      RelabelNext(f, g, Parent(p));
      if Locate(g, Parent(p)).Hit? && Locate(g, Parent(p)).tree.Box? {
        var kids := Locate(g, Parent(p)).tree.kids;
        assert forall k | 0 <= k < |kids| :: IsFull(Relabel(f, kids[k])) == IsFull(kids[k]);
      }
    }
  }

  /** The pointer's walk depends only on the shape of the graph. */
  lemma RelabelAdvance<T, U>(f: T -> U, g: Tree<T>, p: Path)
    ensures AdvanceResult(Relabel(f, g), p) == AdvanceResult(g, p)
    ensures AdvancePointer(Relabel(f, g), p) == AdvancePointer(g, p)
  {
    RelabelLocate(f, g, p);
    RelabelNext(f, g, p);
  }
}
