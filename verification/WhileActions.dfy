/**
 A clause as the action of a WHILE: where a BREAK raised in it ends the loop,
 where it is a panic, and where it is lost.
 */
module WhileActions {
  import opened Options
  import opened Addressing
  import opened Machine
  import opened Native
  import opened ClauseRuns
  import opened StructuredCode
  import opened TrySlots

  /**
   One round whose condition holds. A BREAK raised while the head of the action
   is being called ends the loop if no jump is pending, and is swallowed if one
   is; raised where flow goes on behind the head, it is a panic.
   */
  lemma BreakInAction(cfg: Config, s: Src, at: Level, fuel: nat, tr: seq<Id>)
    requires s.Repeat? && cfg.nest > 0 && Evaluate(cfg, at, s.cond, tr).0 == Ret(true)
    ensures var r := CallPart(cfg, cfg.nest, s.body, at, Evaluate(cfg, at, s.cond, tr).1);
            var next := if fuel == 0 then Result(Timeout, r.trace) else Actual(cfg, s, at, fuel - 1, r.trace);
            if r.exn.Some? && r.exn.value != BreakLoop then
              Actual(cfg, s, at, fuel, tr) == Result(Err(r.exn.value), r.trace)
            else if r.land.None? then
              Actual(cfg, s, at, fuel, tr) == if r.exn.Some? then Result(Normal, r.trace) else next
            else
              IsClause(s.body) ==>
                var rest := ActualFrom(cfg, s.body, r.land.value, at, fuel, r.trace);
                Actual(cfg, s, at, fuel, tr)
                == if !rest.out.Normal? then rest
                   else if fuel == 0 then Result(Timeout, rest.trace)
                   else Actual(cfg, s, at, fuel - 1, rest.trace)
  {
    var tr1 := Evaluate(cfg, at, s.cond, tr).1;
    var r := CallPart(cfg, cfg.nest, s.body, at, tr1);
    RepeatSlots(cfg, s, at, fuel, r.trace);
    hide CallPart, ActualOn;
    if r.land.Some? {
      var pos := [2] + r.land.value;
      assert pos[1..] == r.land.value && |pos| > 1 && PartIn(s, 2) == Some(s.body);
      if IsClause(s.body) {
        RepeatSlots(cfg, s, at, fuel, ActualFrom(cfg, s.body, r.land.value, at, fuel, r.trace).trace);
      }
    }
  }

  /** A Try that is the action and has a clause as FINALLY: a BREAK of the tried node is lost, and the loop goes on. */
  lemma SwallowedBreak(cfg: Config, c: Id, x: Id, d: Id, y: Id, at: Level, fuel: nat, tr: seq<Id>)
    requires at.depth + 2 < cfg.ovf && cfg.nest > 2
    requires cfg.oracle(tr + [c]) == Ret(true) && cfg.oracle(tr + [c] + [x]) == Throw(BreakLoop)
    requires cfg.oracle(tr + [c] + [x] + [d]) == Ret(false)
    ensures var s := Repeat(c, Attempt(Work(x), [], None, Some(Choose([Arm(d, Work(y))], None))));
            var tr1 := tr + [c] + [x] + [d];
            && Actual(cfg, s, at, fuel, tr)
               == (if fuel == 0 then Result(Timeout, tr1) else Actual(cfg, s, at, fuel - 1, tr1))
            && Ideal(cfg, s, at, fuel, tr) == Result(Normal, tr1)
  {
    var inner := Choose([Arm(d, Work(y))], None);
    var a := Attempt(Work(x), [], None, Some(inner));
    var s := Repeat(c, a);
    var tr1 := tr + [c] + [x];
    var tr2 := tr1 + [d];
    assert PartIn(a, 1) == Some(Work(x)) && PartIn(a, 2) == Some(inner) && PartIn(inner, 2) == Some(Work(y));
    assert Second(cfg, a, Some(BreakLoop)).None?;
    assert Exit(inner) == 3 && Exit(a) == 3;
    var deep := Deeper(Deeper(at));
    assert CallPart(cfg, cfg.nest - 1, inner, Deeper(at), tr1) == Called(None, Some([3]), tr2);
    assert CallSlot(cfg, cfg.nest - 1, a, 1, None, Deeper(at), tr + [c]) == Called(Some(BreakLoop), None, tr1);
    assert [2] + [3] == [2, 3];
    TryHeadMeans(cfg, cfg.nest - 1, a, Deeper(at), tr + [c]);
    assert CallSlot(cfg, cfg.nest - 1, a, 2, None, Deeper(at), tr1) == Called(None, Some([2, 3]), tr2);
    assert CallPart(cfg, cfg.nest, a, at, tr + [c]) == Called(Some(BreakLoop), Some([2, 3]), tr2);
    BreakInAction(cfg, s, at, fuel, tr);
    ExitFlow(cfg, inner, at, fuel, tr2);
    ExitFlow(cfg, a, at, fuel, tr2);
    assert [2, 3][1..] == [3];
    assert ActualFrom(cfg, a, [2, 3], at, fuel, tr2) == Result(Normal, tr2);
    assert EvalChoose(cfg, [], None, deep, tr2) == Result(Normal, tr2);
    assert inner.arms[1..] == [];
    assert IdealCall(cfg, inner, Deeper(at), fuel, tr1) == Result(Normal, tr2);
    assert Ideal(cfg, a, Deeper(at), fuel, tr + [c]) == Result(Err(BreakLoop), tr2);
  }

  // ----- actions that keep the meaning -----

  /**
   A WHILE whose action is a clause of user nodes means what its author reads,
   whatever its nodes answer, if and only if the action is a Try, or an IF with
   one branch and no ELSE.
   */
  lemma ActionExact(cfg: Config, s: Src, at: Level)
    requires s.Repeat? && SoundClause(s) && IsClause(s.body) && UserParts(s.body)
    requires at.depth + 1 < cfg.ovf && cfg.nest > 1
    ensures (forall o: Oracle, fuel, tr ::
               Actual(cfg.(oracle := o), s, at, fuel, tr) == Ideal(cfg.(oracle := o), s, at, fuel, tr))
       <==> Whole(s.body)
  {
    assert PartIn(s, 2) == Some(s.body) && SoundPart(s.body);
    hide Actual, Ideal;
    if Whole(s.body) {
      WholeStructured(s, cfg.nest);
      forall o: Oracle, fuel, tr
        ensures Actual(cfg.(oracle := o), s, at, fuel, tr) == Ideal(cfg.(oracle := o), s, at, fuel, tr)
      {
        StructuredActual(cfg.(oracle := o), s, at, fuel, tr);
      }
    } else if s.body.Choose? {
      var o: Oracle := h => if |h| == 1 then Ret(true) else if |h| == 2 then Ret(false) else Throw(BreakLoop);
      ChooseBreaks(cfg.(oracle := o), s, at);
      assert Actual(cfg.(oracle := o), s, at, 0, []) != Ideal(cfg.(oracle := o), s, at, 0, []);
    } else {
      var o: Oracle := h => if |h| == 4 then Throw(BreakLoop) else Ret(true);
      RepeatBreaks(cfg.(oracle := o), s, at);
      assert Actual(cfg.(oracle := o), s, at, 1, []) != Ideal(cfg.(oracle := o), s, at, 1, []);
    }
  }

  lemma WholeStructured(s: Src, n: nat)
    requires s.Repeat? && SoundClause(s) && IsClause(s.body) && SoundClause(s.body) && UserParts(s.body)
    requires Whole(s.body) && n > 1
    ensures StructuredClause(s) && FitsHead(s, n)
  {
    var a := s.body;
    UserTidy(a);
    assert FitsHead(a, n - 1);
  }

  /** An IF of several chunks: a BREAK raised in the second is a panic where the author reads the end of the loop. */
  lemma ChooseBreaks(cfg: Config, s: Src, at: Level)
    requires s.Repeat? && s.body.Choose? && SoundClause(s.body) && UserParts(s.body) && !Whole(s.body)
    requires at.depth + 1 < cfg.ovf && cfg.nest > 1
    requires forall h :: cfg.oracle(h)
               == if |h| == 1 then Ret(true) else if |h| == 2 then Ret(false) else Throw(BreakLoop)
    ensures Actual(cfg, s, at, 0, []).out == Err(BreakLoop) && Ideal(cfg, s, at, 0, []).out == Normal
  {
    var a := s.body;
    var tr1 := [] + [s.cond];
    var tr2 := tr1 + [a.arms[0].cond];
    var rest := a.arms[1..];
    assert CallPart(cfg, cfg.nest, a, at, tr1) == Called(None, Some([3]), tr2);
    BreakInAction(cfg, s, at, 0, []);
    assert PartIn(a, 3).None? && CondIn(a, 3).None? && Exit(a) > 3;
    assert ActualFrom(cfg, a, [3], at, 0, tr2) == ActualOn(cfg, a, 3, at, 0, tr2)
        == EvalChoose(cfg, if |a.arms| == 1 then [] else rest, a.els, at, tr2) by {
      assert a.arms[|a.arms|..] == [];
    }
    if |a.arms| == 1 {
      assert rest == [] && PartIn(a, 4) == a.els;
    }
    forall at': Level | at'.depth < cfg.ovf
      ensures EvalChoose(cfg, rest, a.els, at', tr2).out == Err(BreakLoop)
    {
    }
    assert Ideal(cfg, a, Deeper(at), 0, tr1) == EvalChoose(cfg, rest, a.els, Deeper(at), tr2);
  }

  /** A WHILE inside: a BREAK its condition raises in the second round panics; in the first it ends the outer loop. */
  lemma RepeatBreaks(cfg: Config, s: Src, at: Level)
    requires s.Repeat? && s.body.Repeat? && UserParts(s.body) && at.depth + 1 < cfg.ovf && cfg.nest > 1
    requires forall h :: cfg.oracle(h) == if |h| == 4 then Throw(BreakLoop) else Ret(true)
    ensures Actual(cfg, s, at, 1, []).out == Err(BreakLoop) && Ideal(cfg, s, at, 1, []).out == Normal
  {
    var a := s.body;
    assert PartIn(a, 2) == Some(a.body) && a.body.Work?;
    var tr1 := [] + [s.cond];
    var tr2 := tr1 + [a.cond] + [a.body.id];
    var tr3 := tr2 + [a.cond];
    assert CallPart(cfg, cfg.nest - 1, a.body, Deeper(at), tr1 + [a.cond]) == Called(None, None, tr2);
    assert CallPart(cfg, cfg.nest, a, at, tr1) == Called(None, Some([3]), tr2);
    BreakInAction(cfg, s, at, 1, []);
    RepeatSlots(cfg, a, at, 1, tr2);
    assert CallHead(cfg, cfg.nest, a, at, tr2) == Called(Some(BreakLoop), None, tr3);
    assert Ideal(cfg, a, Deeper(at), 0, tr2) == Result(Err(BreakLoop), tr3);
    assert Ideal(cfg, a, Deeper(at), 1, tr1) == Result(Err(BreakLoop), tr3);
  }
}
