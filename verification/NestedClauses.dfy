/**
 An exception on its way through enclosing Tries.
 */
module NestedClauses {
  import opened Options
  import opened Addressing
  import opened Machine
  import opened Native
  import opened ClauseRuns

  // ----- an exception on its way out -----

  /** A Try around a user node, possibly with further Tries between them. */
  predicate Nest(s: Src)
    decreases s
  {
    s.Attempt? && (s.body.Work? || Nest(s.body)) && (s.fin.Some? ==> s.fin.value.Work?)
  }

  /** The node the innermost Try is around. */
  function Core(s: Src): Id
    requires Nest(s)
    decreases s
  {
    if s.body.Work? then s.body.id else Core(s.body)
  }

  function Levels(s: Src): nat
    requires Nest(s)
    decreases s
  {
    if s.body.Work? then 1 else Levels(s.body) + 1
  }

  /** The nodes of the FINALLYs, from the inside out. */
  function Finals(s: Src): seq<Id>
    requires Nest(s)
    decreases s
  {
    (if s.body.Work? then [] else Finals(s.body)) + (if s.fin.Some? then [s.fin.value.id] else [])
  }

  /** No CATCH on the way takes `e`. */
  predicate Unclaimed(cfg: Config, s: Src, e: Exn)
    requires Nest(s)
    decreases s
  {
    (s.body.Work? || Unclaimed(cfg, s.body, e)) && Second(cfg, s, Some(e)).None?
  }

  /** From trace `tr` on, the nodes return when executed one after the other. */
  ghost predicate Completes(cfg: Config, tr: seq<Id>, ids: seq<Id>) {
    forall i | 0 < i <= |ids| :: cfg.oracle(tr + ids[..i]).Ret?
  }

  /**
   An exception no CATCH takes passes every enclosing Try: on its way each
   FINALLY runs once, innermost first, and nothing else does.
   */
  lemma {:induction false} Propagates(cfg: Config, nest: nat, s: Src, at: Level, tr: seq<Id>, e: Exn)
    requires Nest(s) && at.depth + Levels(s) <= cfg.ovf && Levels(s) <= nest
    requires cfg.oracle(tr + [Core(s)]) == Throw(e) && Unclaimed(cfg, s, e)
    requires Completes(cfg, tr + [Core(s)], Finals(s))
    ensures CallHead(cfg, nest, s, at, tr) == Called(Some(e), None, tr + [Core(s)] + Finals(s))
    decreases s
  {
    var tr1 := tr + [Core(s)];
    var inner := if s.body.Work? then [] else Finals(s.body);
    assert tr1 + [] == tr1;
    if !s.body.Work? {
      forall i | 0 < i <= |inner|
        ensures cfg.oracle(tr1 + inner[..i]).Ret?
      {
        assert Finals(s)[..i] == inner[..i];
      }
      hide CallHead, Second;
      Propagates(cfg, nest - 1, s.body, Deeper(at), tr, e);
    }
    CoreSlot(cfg, nest, s, at, tr, e, tr1 + inner);
    FinalStep(cfg, nest, s, at, tr, e, tr1, inner);
  }

  /** The tried part of a nest comes back raising, with no jump pending. */
  lemma CoreSlot(cfg: Config, nest: nat, s: Src, at: Level, tr: seq<Id>, e: Exn, tr2: seq<Id>)
    requires Nest(s) && at.depth < cfg.ovf && nest > 0 && (s.body.Work? || s.body.Attempt?)
    requires if s.body.Work? then cfg.oracle(tr + [s.body.id]) == Throw(e) && tr2 == tr + [s.body.id]
             else CallHead(cfg, nest - 1, s.body, Deeper(at), tr) == Called(Some(e), None, tr2)
    ensures PartIn(s, 1) == Some(s.body) && CallSlot(cfg, nest, s, 1, None, at, tr) == Called(Some(e), None, tr2)
  {
    hide CallHead;
  }

  /** FINALLY on the way of the exception. */
  lemma FinalStep(cfg: Config, nest: nat, s: Src, at: Level, tr: seq<Id>, e: Exn, tr1: seq<Id>, inner: seq<Id>)
    requires Nest(s) && at.depth < cfg.ovf && nest > 0 && Second(cfg, s, Some(e)).None?
    requires CallSlot(cfg, nest, s, 1, None, at, tr) == Called(Some(e), None, tr1 + inner)
    requires Finals(s) == inner + (if s.fin.Some? then [s.fin.value.id] else []) && Completes(cfg, tr1, Finals(s))
    ensures CallHead(cfg, nest, s, at, tr) == Called(Some(e), None, tr1 + Finals(s))
  {
    TryHeadMeans(cfg, nest, s, at, tr);
    hide CallHead, Second, Slots;
    if s.fin.Some? {
      var f := s.fin.value.id;
      assert Finals(s)[..|Finals(s)|] == Finals(s);
      assert tr1 + inner + [f] == tr1 + Finals(s);
      assert PartIn(s, FinSlot(s)) == s.fin;
      assert CallSlot(cfg, nest, s, FinSlot(s), None, at, tr1 + inner) == Called(None, None, tr1 + Finals(s));
    } else {
      assert Finals(s) == inner;
    }
  }

  /** The first enclosing Try that takes the exception runs its handler, after the FINALLYs inside. */
  lemma CaughtOutside(cfg: Config, nest: nat, s: Src, at: Level, tr: seq<Id>, e: Exn, j: nat)
    requires s.Attempt? && Nest(s.body) && at.depth + 1 + Levels(s.body) <= cfg.ovf && Levels(s.body) < nest
    requires cfg.oracle(tr + [Core(s.body)]) == Throw(e) && Unclaimed(cfg, s.body, e)
    requires Completes(cfg, tr + [Core(s.body)], Finals(s.body))
    requires Second(cfg, s, Some(e)) == Some(j) && PartIn(s, j).value.Work?
    ensures var tr1 := tr + [Core(s.body)] + Finals(s.body);
            var h := Observe(cfg, PartIn(s, j).value.id, tr1);
            CallHead(cfg, nest, s, at, tr) == Finished(cfg, nest, s, Called(Failure(h.out), None, h.trace), at)
  {
    Propagates(cfg, nest - 1, s.body, Deeper(at), tr, e);
    var tr1 := tr + [Core(s.body)] + Finals(s.body);
    assert PartIn(s, 1) == Some(s.body);
    assert CallSlot(cfg, nest, s, 1, None, at, tr) == Called(Some(e), None, tr1);
    TryHeadMeans(cfg, nest, s, at, tr);
    var h := Observe(cfg, PartIn(s, j).value.id, tr1);
    assert CallSlot(cfg, nest, s, j, None, at, tr1) == Called(Failure(h.out), None, h.trace);
  }

  /** Met by flow, the whole nest ends the run with the exception. */
  lemma NestRaises(cfg: Config, s: Src, at: Level, fuel: nat, tr: seq<Id>, e: Exn)
    requires Nest(s) && at.depth + Levels(s) <= cfg.ovf && Levels(s) <= cfg.nest
    requires cfg.oracle(tr + [Core(s)]) == Throw(e) && Unclaimed(cfg, s, e)
    requires Completes(cfg, tr + [Core(s)], Finals(s))
    ensures Actual(cfg, s, at, fuel, tr) == Result(Err(e), tr + [Core(s)] + Finals(s))
  {
    Propagates(cfg, cfg.nest, s, at, tr, e);
  }
}
