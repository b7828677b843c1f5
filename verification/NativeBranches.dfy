/**
 NATIVE_IF with straight branches, loop control included: exactly when the
 rendered instruction does what its author wrote.
 */
module NativeBranches {
  import opened Options
  import opened Addressing
  import opened Machine
  import opened Native
  import opened StructuredCode

  // ----- bodies -----

  predicate IsControl(s: Src) {
    s.Break? || s.Continue?
  }

  /** A user node, or a sequence of user nodes and loop-control nodes. */
  predicate Straight(s: Src) {
    s.Work? || (s.Block? && s.items != [] && forall x | x in s.items :: x.Work? || IsControl(x))
  }

  /** The body ends in loop control instead of running through. */
  predicate LeavesLoop(s: Src) {
    s.Block? && exists x | x in s.items :: IsControl(x)
  }

  ghost predicate StraightIf(s: Src) {
    && s.If? && s.arms != []
    && (forall k | 0 <= k < |s.arms| :: Straight(s.arms[k].body))
    && (s.els.Some? ==> Straight(s.els.value))
  }

  /** The user nodes before the first loop-control node. */
  function Ahead(ss: seq<Src>): seq<Id> {
    if ss == [] || !ss[0].Work? then [] else [ss[0].id] + Ahead(ss[1..])
  }

  /** How a straight sequence ends in scope `sc` when no node raises. */
  function EndOf(ss: seq<Src>, sc: Scope): Out {
    if ss == [] then Normal
    else if ss[0].Work? then EndOf(ss[1..], sc)
    else if sc.NoLoop? then Err(NotConfigured)
    else if ss[0].Break? then Broke else Continued
  }

  ghost predicate NeverRaises(cfg: Config) {
    forall h :: cfg.oracle(h).Ret?
  }

  lemma {:induction false} SeqRuns(p: Program, cfg: Config, std: bool, ss: seq<Src>, sc: Scope, at: Level, fuel: nat,
      tr: seq<Id>)
    requires NeverRaises(cfg) && forall x | x in ss :: x.Work? || IsControl(x)
    ensures EvalSeq(p, cfg, std, ss, sc, at, fuel, tr) == Result(EndOf(ss, sc), tr + Ahead(ss))
    decreases |ss|
  {
    if ss == [] {
      assert tr + [] == tr;
    } else {
      assert ss[0].Work? || IsControl(ss[0]);
      var r := EvalItem(p, cfg, std, ss[0], sc, at, fuel, tr);
      assert r == Eval(p, cfg, std, ss[0], sc, at, fuel, tr);
      if ss[0].Work? {
        var id := ss[0].id;
        assert cfg.oracle(tr + [id]).Ret?;
        SeqRuns(p, cfg, std, ss[1..], sc, at, fuel, tr + [id]);
        assert tr + [id] + Ahead(ss[1..]) == tr + ([id] + Ahead(ss[1..]));
      } else {
        assert tr + [] == tr;
      }
    }
  }

  /** A body's nodes and how it ends, when no node raises. */
  lemma BodyRuns(p: Program, cfg: Config, std: bool, s: Src, sc: Scope, at: Level, fuel: nat, tr: seq<Id>)
    requires NeverRaises(cfg) && Straight(s)
    ensures var r := EvalBubble(p, cfg, std, s, sc, at, fuel, tr);
            var ss := if s.Block? then s.items else [s];
            r == Result(EndOf(ss, sc), tr + Ahead(ss))
  {
    if s.Block? {
      SeqRuns(p, cfg, std, s.items, sc, at, fuel, tr);
    } else {
      assert cfg.oracle(tr + [s.id]).Ret?;
      assert [s][1..] == [];
    }
  }

  lemma {:induction false} ControlEnds(ss: seq<Src>, sc: Scope)
    requires forall x | x in ss :: x.Work? || IsControl(x)
    ensures EndOf(ss, sc) == Normal <==> forall x | x in ss :: x.Work?
    ensures EndOf(ss, NoLoop) == Normal || EndOf(ss, NoLoop) == Err(NotConfigured)
    ensures sc.InLoop? ==> EndOf(ss, sc) == Normal || EndOf(ss, sc) == Broke || EndOf(ss, sc) == Continued
    decreases |ss|
  {
    if ss != [] {
      ControlEnds(ss[1..], sc);
    }
  }

  /** Whatever the nodes do: with the loop's scope known, a body means the same to author and machine. */
  lemma {:induction false} SeqSame(p: Program, cfg: Config, ss: seq<Src>, sc: Scope, at: Level, fuel: nat, tr: seq<Id>)
    requires forall x | x in ss :: x.Work? || IsControl(x)
    ensures EvalSeq(p, cfg, false, ss, sc, at, fuel, tr) == EvalSeq(p, cfg, true, ss, sc, at, fuel, tr)
    ensures (exists x | x in ss :: IsControl(x)) ==> !EvalSeq(p, cfg, true, ss, sc, at, fuel, tr).out.Normal?
    decreases |ss|
  {
    if ss != [] {
      assert ss[0].Work? || IsControl(ss[0]);
      forall std
        ensures EvalItem(p, cfg, std, ss[0], sc, at, fuel, tr) == Eval(p, cfg, std, ss[0], sc, at, fuel, tr)
        ensures Eval(p, cfg, std, ss[0], sc, at, fuel, tr) == Eval(p, cfg, true, ss[0], sc, at, fuel, tr)
      {
      }
      SeqSame(p, cfg, ss[1..], sc, at, fuel, EvalItem(p, cfg, true, ss[0], sc, at, fuel, tr).trace);
    }
  }

  lemma BodySame(p: Program, cfg: Config, s: Src, sc: Scope, at: Level, fuel: nat, tr: seq<Id>)
    requires Straight(s)
    ensures EvalBubble(p, cfg, false, s, sc, at, fuel, tr) == EvalBubble(p, cfg, true, s, sc, at, fuel, tr)
    ensures LeavesLoop(s) ==> !EvalBubble(p, cfg, true, s, sc, at, fuel, tr).out.Normal?
  {
    if s.Block? {
      SeqSame(p, cfg, s.items, sc, at, fuel, tr);
    }
  }

  // ----- the condition -----

  /** A branch of several nodes that runs through has no branch after it. */
  ghost predicate NoFallThrough(s: Src)
    requires s.If?
  {
    forall k | 0 <= k < |s.arms| ::
      Single(s.arms[k].body) || LeavesLoop(s.arms[k].body) || (k + 1 == |s.arms| && s.els.None?)
  }

  /** In a loop, the scanner has seen every loop-control node of the branches. */
  ghost predicate ControlSeen(s: Src)
    requires s.If?
  {
    s.extracted || !FreeControl(s)
  }

  lemma {:induction false} BranchesSame(p: Program, cfg: Config, s: Src, k: nat, sc: Scope, at: Level, fuel: nat,
      tr: seq<Id>)
    requires StraightIf(s) && NoFallThrough(s) && k <= |s.arms|
    ensures EvalIf(p, cfg, false, s, k, sc, at, fuel, tr) == EvalIf(p, cfg, true, s, k, sc, at, fuel, tr)
    decreases |s.arms| - k
  {
    if k == |s.arms| {
      if s.els.Some? {
        BodySame(p, cfg, s.els.value, sc, at, fuel, tr);
      }
    } else {
      var test := Evaluate(cfg, at, s.arms[k].cond, tr);
      BodySame(p, cfg, s.arms[k].body, sc, at, fuel, test.1);
      var r := EvalBubble(p, cfg, true, s.arms[k].body, sc, at, fuel, test.1);
      BranchesSame(p, cfg, s, k + 1, sc, at, fuel, test.1);
      BranchesSame(p, cfg, s, k + 1, sc, at, fuel, r.trace);
    }
  }

  lemma ItemSame(p: Program, cfg: Config, s: Src, sc: Scope, at: Level, fuel: nat, tr: seq<Id>)
    requires StraightIf(s) && NoFallThrough(s) && (sc.InLoop? ==> ControlSeen(s))
    ensures EvalItem(p, cfg, false, s, sc, at, fuel, tr) == EvalItem(p, cfg, true, s, sc, at, fuel, tr)
  {
    BranchesSame(p, cfg, s, 0, Seen(s, sc), at, fuel, tr);
    if sc.InLoop? && !s.extracted {
      ScopeIrrelevantIf(p, cfg, s, 0, NoLoop, sc, at, fuel, tr);
    }
  }

  // ----- where it fails -----

  /** All conditions before branch `k` refused, its own granted. */
  lemma {:induction false} Selected(p: Program, cfg: Config, std: bool, s: Src, j: nat, k: nat, sc: Scope, at: Level,
      fuel: nat, tr: seq<Id>)
    returns (tr': seq<Id>)
    requires s.If? && j <= k <= |s.arms| && |tr| == j && at.depth < cfg.ovf
    requires forall h :: cfg.oracle(h) == Ret(|h| == k + 1)
    ensures |tr'| == k && tr' == tr + Conds(s, j, k)
    ensures EvalIf(p, cfg, std, s, j, sc, at, fuel, tr) == EvalIf(p, cfg, std, s, k, sc, at, fuel, tr')
    decreases k - j
  {
    tr' := tr;
    if j < k {
      tr' := Selected(p, cfg, std, s, j + 1, k, sc, at, fuel, tr + [s.arms[j].cond]);
    }
  }

  function Conds(s: Src, j: nat, k: nat): seq<Id>
    requires s.If? && j <= k <= |s.arms|
    decreases k - j
  {
    if j == k then [] else [s.arms[j].cond] + Conds(s, j + 1, k)
  }

  /** The body of branch `k`, or of the ELSE after the last. */
  function BodyAt(s: Src, k: nat): Src
    requires s.If? && k <= |s.arms| && (k == |s.arms| ==> s.els.Some?)
  {
    if k < |s.arms| then s.arms[k].body else s.els.value
  }

  /**
   Loop control in a NATIVE_IF that the scanner has not seen: where the author
   reads the end of the round, or of the loop, the machine stops on a node that
   was never configured. The nodes executed before are the same.
   */
  lemma HiddenControl(p: Program, cfg: Config, s: Src, k: nat, sc: Scope, at: Level, fuel: nat)
    requires StraightIf(s) && !s.extracted && sc.InLoop? && at.depth < cfg.ovf
    requires k <= |s.arms| && (k == |s.arms| ==> s.els.Some?) && LeavesLoop(BodyAt(s, k))
    requires forall h :: cfg.oracle(h) == Ret(|h| == k + 1)
    ensures var body := BodyAt(s, k);
            var tr := Conds(s, 0, k) + (if k < |s.arms| then [s.arms[k].cond] else []) + Ahead(body.items);
            && EvalItem(p, cfg, false, s, sc, at, fuel, []) == Result(Err(NotConfigured), tr)
            && EvalItem(p, cfg, true, s, sc, at, fuel, []) == Result(EndOf(body.items, sc), tr)
            && (EndOf(body.items, sc).Broke? || EndOf(body.items, sc).Continued?)
  {
    var body := BodyAt(s, k);
    var tr0 := Conds(s, 0, k);
    var tr1 := tr0 + (if k < |s.arms| then [s.arms[k].cond] else []);
    assert [] + tr0 == tr0 && tr0 + [] == tr0;
    ControlEnds(body.items, sc);
    ControlEnds(body.items, NoLoop);
    forall std
      ensures var sc' := if std then sc else NoLoop;
              EvalItem(p, cfg, std, s, sc, at, fuel, []) == Result(EndOf(body.items, sc'), tr1 + Ahead(body.items))
    {
      var sc' := if std then sc else NoLoop;
      var tr' := Selected(p, cfg, std, s, 0, k, sc', at, fuel, []);
      BodyRuns(p, cfg, std, body, sc', at, fuel, tr1);
    }
  }

  /** What follows a branch executes a further node, or does not run through. */
  lemma {:induction false} Later(p: Program, cfg: Config, s: Src, k: nat, sc: Scope, at: Level, fuel: nat, tr: seq<Id>)
    requires NeverRaises(cfg) && StraightIf(s) && at.depth < cfg.ovf && k <= |s.arms|
    ensures var r := EvalIf(p, cfg, false, s, k, sc, at, fuel, tr);
            && |r.trace| >= |tr|
            && (k < |s.arms| || s.els.Some? ==> !r.out.Normal? || |r.trace| > |tr|)
    decreases |s.arms| - k
  {
    if k == |s.arms| {
      if s.els.Some? {
        BodyRuns(p, cfg, false, s.els.value, sc, at, fuel, tr);
        BodyGrows(s.els.value, sc);
      }
    } else {
      var test := Evaluate(cfg, at, s.arms[k].cond, tr);
      assert cfg.oracle(tr + [s.arms[k].cond]).Ret?;
      BodyRuns(p, cfg, false, s.arms[k].body, sc, at, fuel, test.1);
      Later(p, cfg, s, k + 1, sc, at, fuel, test.1);
      Later(p, cfg, s, k + 1, sc, at, fuel, EvalBubble(p, cfg, false, s.arms[k].body, sc, at, fuel, test.1).trace);
    }
  }

  lemma BodyGrows(s: Src, sc: Scope)
    requires Straight(s)
    ensures var ss := if s.Block? then s.items else [s];
            EndOf(ss, sc) != Normal || |Ahead(ss)| > 0
  {
  }

  lemma FallsThroughTo(p: Program, cfg: Config, s: Src, k: nat, sc: Scope, at: Level, fuel: nat)
    requires StraightIf(s) && at.depth < cfg.ovf && k < |s.arms|
    requires s.arms[k].body.Block? && !LeavesLoop(s.arms[k].body) && (k + 1 < |s.arms| || s.els.Some?)
    requires forall h :: cfg.oracle(h) == Ret(|h| == k + 1)
    ensures EvalItem(p, cfg, false, s, sc, at, fuel, []) != EvalItem(p, cfg, true, s, sc, at, fuel, [])
  {
    var body := s.arms[k].body;
    var sc' := Seen(s, sc);
    var tr := Selected(p, cfg, true, s, 0, k, sc, at, fuel, []);
    var tr' := Selected(p, cfg, false, s, 0, k, sc', at, fuel, []);
    var tr1 := tr + [s.arms[k].cond];
    ControlEnds(body.items, sc);
    ControlEnds(body.items, sc');
    BodyRuns(p, cfg, true, body, sc, at, fuel, tr1);
    BodyRuns(p, cfg, false, body, sc', at, fuel, tr1);
    Later(p, cfg, s, k + 1, sc', at, fuel, tr1 + Ahead(body.items));
  }

  lemma ControlSomewhere(s: Src) returns (k: nat)
    requires StraightIf(s) && FreeControl(s)
    ensures k <= |s.arms| && (k == |s.arms| ==> s.els.Some?) && LeavesLoop(BodyAt(s, k))
  {
    if i :| 0 <= i < |s.arms| && FreeControl(s.arms[i].body) {
      k := i;
    } else {
      k := |s.arms|;
    }
    var x :| x in BodyAt(s, k).items && FreeControl(x);
    assert Straight(BodyAt(s, k));
  }

  /**
   A NATIVE_IF of straight bodies, loop control included, does what its author
   wrote, whatever its nodes answer, if and only if no branch of several nodes
   that runs through has a branch after it and, inside a loop, either the
   scanner saw the branches or there is no loop control in them.
   */
  lemma BranchExact(p: Program, cfg: Config, s: Src, sc: Scope, at: Level, fuel: nat)
    requires StraightIf(s) && at.depth < cfg.ovf
    ensures (forall o: Oracle, tr ::
               EvalItem(p, cfg.(oracle := o), false, s, sc, at, fuel, tr)
               == EvalItem(p, cfg.(oracle := o), true, s, sc, at, fuel, tr))
       <==> NoFallThrough(s) && (sc.InLoop? ==> ControlSeen(s))
  {
    hide EvalItem;
    if NoFallThrough(s) && (sc.InLoop? ==> ControlSeen(s)) {
      forall o: Oracle, tr
        ensures EvalItem(p, cfg.(oracle := o), false, s, sc, at, fuel, tr)
             == EvalItem(p, cfg.(oracle := o), true, s, sc, at, fuel, tr)
      {
        ItemSame(p, cfg.(oracle := o), s, sc, at, fuel, tr);
      }
    } else {
      var k: nat;
      if NoFallThrough(s) {
        k := ControlSomewhere(s);
      } else {
        k :| && 0 <= k < |s.arms| && !Single(s.arms[k].body) && !LeavesLoop(s.arms[k].body)
             && !(k + 1 == |s.arms| && s.els.None?);
      }
      var o: Oracle := h => Ret(|h| == k + 1);
      if NoFallThrough(s) {
        HiddenControl(p, cfg.(oracle := o), s, k, sc, at, fuel);
      } else {
        FallsThroughTo(p, cfg.(oracle := o), s, k, sc, at, fuel);
      }
      assert EvalItem(p, cfg.(oracle := o), false, s, sc, at, fuel, [])
          != EvalItem(p, cfg.(oracle := o), true, s, sc, at, fuel, []);
    }
  }
}
