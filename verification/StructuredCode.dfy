/**
 When the rendered meaning is the structured one: rules an author can check on
 the source.
 */
module StructuredCode {
  import opened Options
  import opened Addressing
  import opened Machine
  import opened Native

  // ----- clauses inside clauses -----

  /** Called, the element never raises with a jump pending: no FINALLY inside is a clause. */
  predicate Clean(s: Src)
    decreases s
  {
    match s
    case Repeat(_, body) => Clean(body)
    case Attempt(body, catches, thn, fin) =>
      && Clean(body)
      && (forall k | 0 <= k < |catches| :: Clean(catches[k].handler))
      && (thn.Some? ==> Clean(thn.value))
      && (fin.Some? ==> !IsClause(fin.value))
    case _ => true
  }

  /** The head does all the element's work: a node, an IF with one branch, a Try with no other clause but a last one. */
  predicate Tidy(s: Src)
    decreases s, 1
  {
    match s
    case Choose(arms, els) => |arms| == 1 && els.None?
    case Repeat(_, _) => false
    case Attempt(_, _, _, _) => TidyTry(s)
    case _ => true
  }

  /** Only the last part before the closing NOP is a clause, if any. */
  predicate TidyTry(s: Src)
    requires s.Attempt?
    decreases s, 0
  {
    forall j | 0 <= j < Exit(s) && PartIn(s, j).Some? && IsClause(PartIn(s, j).value) ::
      1 < j == Exit(s) - 1 && Tidy(PartIn(s, j).value)
  }

  /** Python lets the element be called with `n` levels of nesting left. */
  predicate Fits(s: Src, n: nat)
    decreases s, 1
  {
    n > 0 && (IsClause(s) ==> FitsHead(s, n - 1))
  }

  predicate FitsHead(s: Src, n: nat)
    requires IsClause(s)
    decreases s, 0
  {
    n > 0 && forall j | 0 <= j < Exit(s) && PartIn(s, j).Some? :: Fits(PartIn(s, j).value, n)
  }

  /** The action of a WHILE must not raise with a jump pending, or a BREAK would be lost. */
  predicate StructuredClause(s: Src)
    requires IsClause(s)
  {
    match s
    case Choose(_, _) => true
    case Repeat(_, body) => Tidy(body) && Clean(body)
    case Attempt(_, _, _, _) => TidyTry(s)
  }

  /** Flow that goes on here meets closing NOPs only. */
  predicate Idle(s: Src, pos: Path)
    requires IsClause(s)
    decreases s
  {
    if |pos| == 1 then pos[0] == Exit(s)
    else |pos| > 1 && pos[0] + 1 == Exit(s) && PartIn(s, pos[0]).Some? && IsClause(PartIn(s, pos[0]).value)
         && Idle(PartIn(s, pos[0]).value, pos[1..])
  }

  lemma {:induction false} IdleFlow(cfg: Config, s: Src, pos: Path, at: Level, fuel: nat, tr: seq<Id>)
    requires IsClause(s) && Idle(s, pos)
    ensures ActualFrom(cfg, s, pos, at, fuel, tr) == Result(Normal, tr)
    decreases s
  {
    if |pos| > 1 {
      IdleFlow(cfg, PartIn(s, pos[0]).value, pos[1..], at, fuel, tr);
      assert ActualOn(cfg, s, Exit(s), at, fuel, tr) == Result(Normal, tr);
    }
  }

  /** A call has come back with what the structured call of the same part means. */
  ghost predicate Agrees(s: Src, r: Called, i: Result) {
    && (i.out.Normal? || i.out.Err?)
    && r.exn == Failure(i.out) && r.trace == i.trace
    && (r.land.Some? ==> IsClause(s) && Idle(s, r.land.value))
    && (Clean(s) && r.exn.Some? ==> r.land.None?)
  }

  lemma {:induction false} TidyPart(cfg: Config, nest: nat, s: Src, at: Level, fuel: nat, tr: seq<Id>)
    requires SoundPart(s) && Tidy(s) && Fits(s, nest)
    ensures Agrees(s, CallPart(cfg, nest, s, at, tr), IdealCall(cfg, s, at, fuel, tr))
    decreases s, 1
  {
    hide CallHead, Ideal, Idle, Clean;
    if IsClause(s) && at.depth < cfg.ovf {
      TidyHead(cfg, nest - 1, s, Deeper(at), fuel, tr);
    }
  }

  lemma {:induction false} TidyHead(cfg: Config, nest: nat, s: Src, at: Level, fuel: nat, tr: seq<Id>)
    requires IsClause(s) && SoundClause(s) && Tidy(s) && FitsHead(s, nest)
    ensures Agrees(s, CallHead(cfg, nest, s, at, tr), Ideal(cfg, s, at, fuel, tr))
    decreases s, 0
  {
    if s.Choose? {
      TidyBranch(cfg, nest, s, at, tr);
    } else {
      TidyTryHead(cfg, nest, s, at, fuel, tr);
    }
  }

  /** An IF with one branch and no ELSE: its head is the whole clause. */
  lemma TidyBranch(cfg: Config, nest: nat, s: Src, at: Level, tr: seq<Id>)
    requires s.Choose? && SoundClause(s) && |s.arms| == 1 && s.els.None? && nest > 0
    ensures Agrees(s, CallHead(cfg, nest, s, at, tr), EvalChoose(cfg, s.arms, s.els, at, tr))
  {
    var Arm(c, body) := s.arms[0];
    assert PartIn(s, 2) == Some(body) && Callable(body);
    assert s.arms[1..] == [] && Exit(s) == 3;
    var test := Evaluate(cfg, at, c, tr);
    assert CallCond(cfg, nest, at, c, tr) == test;
    assert EvalChoose(cfg, s.arms[1..], s.els, at, test.1) == Result(Normal, test.1);
    var r := EvalCalled(cfg, body, at, test.1);
    assert CallPart(cfg, nest, body, at, test.1) == Called(Failure(r.out), None, r.trace);
  }

  /** Calling a slot of a tidy Try while no jump is pending. */
  lemma {:induction false} TidySlot(cfg: Config, nest: nat, s: Src, j: nat, at: Level, fuel: nat, tr: seq<Id>)
    requires s.Attempt? && SoundClause(s) && TidyTry(s) && FitsHead(s, nest) && PartIn(s, j).Some?
    ensures var r := CallSlot(cfg, nest, s, j, None, at, tr);
            var i := IdealCall(cfg, PartIn(s, j).value, at, fuel, tr);
            && (i.out.Normal? || i.out.Err?) && r.exn == Failure(i.out) && r.trace == i.trace
            && (r.land.Some? ==> 1 < j == Exit(s) - 1 && Idle(s, r.land.value))
            && (Clean(PartIn(s, j).value) && r.exn.Some? ==> r.land.None?)
    decreases s, 0, 0
  {
    hide CallPart, IdealCall, Clean, Fits;
    var x := PartIn(s, j).value;
    TidyPart(cfg, nest, x, at, fuel, tr);
    var r := CallPart(cfg, nest, x, at, tr);
    if r.land.Some? {
      var pos := [j] + r.land.value;
      assert pos[1..] == r.land.value;
    }
  }

  lemma {:induction false} TidyTryHead(cfg: Config, nest: nat, s: Src, at: Level, fuel: nat, tr: seq<Id>)
    requires s.Attempt? && SoundClause(s) && TidyTry(s) && FitsHead(s, nest)
    ensures Agrees(s, CallHead(cfg, nest, s, at, tr), Ideal(cfg, s, at, fuel, tr))
    decreases s, 0, 1
  {
    hide CallSlot, IdealCall, Second, Fits, SoundClause, TidyTry, FitsHead, CallPart;
    assert PartIn(s, 1) == Some(s.body) && Idle(s, [Exit(s)]);
    TidySlot(cfg, nest, s, 1, at, fuel, tr);
    var r := CallSlot(cfg, nest, s, 1, None, at, tr);
    var next := Second(cfg, s, r.exn);
    var r2 := r;
    if next.Some? {
      TidySlot(cfg, nest, s, next.value, at, fuel, r.trace);
      r2 := CallSlot(cfg, nest, s, next.value, None, at, r.trace);
    }
    if s.fin.Some? {
      assert PartIn(s, FinSlot(s)) == s.fin;
      TidySlot(cfg, nest, s, FinSlot(s), at, fuel, r2.trace);
    }
    if Clean(s) {
      CleanParts(s);
    }
  }

  lemma CleanParts(s: Src)
    requires s.Attempt? && Clean(s)
    ensures forall j | 0 <= j < Exit(s) && PartIn(s, j).Some? :: Clean(PartIn(s, j).value)
    ensures s.fin.Some? ==> !IsClause(s.fin.value)
  {
  }

  /** For such clauses the machine does what their author reads. */
  lemma {:induction false} StructuredActual(cfg: Config, s: Src, at: Level, fuel: nat, tr: seq<Id>)
    requires IsClause(s) && SoundClause(s) && StructuredClause(s) && FitsHead(s, cfg.nest)
    ensures Actual(cfg, s, at, fuel, tr) == Ideal(cfg, s, at, fuel, tr)
    decreases fuel
  {
    if s.Attempt? {
      TidyTryHead(cfg, cfg.nest, s, at, fuel, tr);
      hide CallHead, Ideal, ActualFrom;
      var r := CallHead(cfg, cfg.nest, s, at, tr);
      if r.exn.None? {
        IdleFlow(cfg, s, r.land.value, at, fuel, r.trace);
      }
    } else if s.Repeat? {
      StructuredRepeat(cfg, s, at, fuel, tr);
    }
  }

  /** Where the check-up and the exit of a WHILE lead. */
  lemma RepeatSlots(cfg: Config, s: Src, at: Level, fuel: nat, tr: seq<Id>)
    requires s.Repeat?
    ensures ActualFrom(cfg, s, [4], at, fuel, tr) == ActualOn(cfg, s, 4, at, fuel, tr) == Result(Normal, tr)
    ensures ActualFrom(cfg, s, [3], at, fuel, tr) == ActualOn(cfg, s, 3, at, fuel, tr)
         == if fuel == 0 then Result(Timeout, tr) else Actual(cfg, s, at, fuel - 1, tr)
  {
    hide Actual;
  }

  lemma {:induction false} StructuredRepeat(cfg: Config, s: Src, at: Level, fuel: nat, tr: seq<Id>)
    requires s.Repeat? && SoundClause(s) && StructuredClause(s) && FitsHead(s, cfg.nest)
    ensures Actual(cfg, s, at, fuel, tr) == Ideal(cfg, s, at, fuel, tr)
    decreases fuel
  {
    var Repeat(c, body) := s;
    assert PartIn(s, 2) == Some(body);
    var test := Evaluate(cfg, at, c, tr);
    var r := CallPart(cfg, cfg.nest, body, at, test.1);
    TidyPart(cfg, cfg.nest, body, at, fuel, test.1);
    hide CallPart, IdealCall, Clean, ActualOn;
    RepeatSlots(cfg, s, at, fuel, test.1);
    RepeatSlots(cfg, s, at, fuel, r.trace);
    if test.0 == Ret(true) && (r.exn.None? || r.exn.value == BreakLoop) {
      if r.exn.None? && r.land.Some? {
        var pos := [2] + r.land.value;
        assert pos[1..] == r.land.value;
        IdleFlow(cfg, body, r.land.value, at, fuel, r.trace);
      }
      if r.exn.None? && fuel > 0 {
        StructuredRepeat(cfg, s, at, fuel - 1, r.trace);
      }
    }
  }

  // ----- programs -----

  predicate FreeControl(s: Src)
    decreases s
  {
    match s
    case Break => true
    case Continue => true
    case Block(items) => exists x | x in items :: FreeControl(x)
    case If(arms, els, _) =>
      || (exists k | 0 <= k < |arms| :: FreeControl(arms[k].body))
      || (els.Some? && FreeControl(els.value))
    case _ => false
  }

  /**
   What an author has to respect: a branch of several nodes has no branch
   after it; a clause inside a clause is its last part and does all its work
   when called; inside a loop, a NATIVE_IF that is not extracted early holds no
   loop control of that loop; no empty composition where one is addressed.
   `nest` is how deep Python lets calls nest.
   */
  predicate Structured(s: Src, inLoop: bool, nest: nat)
    decreases s, 0
  {
    match s
    case Block(items) => forall x | x in items :: StructuredItem(x, inLoop, nest)
    case While(_, body) => Structured(body, true, nest)
    case DoWhile(body, _) => Structured(body, true, nest)
    case If(arms, els, _) =>
      && (forall k | 0 <= k < |arms| ::
            && Structured(arms[k].body, inLoop, nest) && arms[k].body != Block([])
            && (Single(arms[k].body) || (k + 1 == |arms| && els.None?)))
      && (els.Some? ==> Structured(els.value, inLoop, nest) && els.value != Block([]))
    case Choose(_, _) => true
    case Repeat(_, _) => SoundClause(s) && StructuredClause(s) && FitsHead(s, nest)
    case Attempt(_, _, _, _) => SoundClause(s) && StructuredClause(s) && FitsHead(s, nest)
    case _ => true
  }

  predicate StructuredItem(s: Src, inLoop: bool, nest: nat)
    decreases s, 1
  {
    && s != Block([])
    && if inLoop && s.If? && !s.extracted then Structured(s, false, nest) && !FreeControl(s)
       else Structured(s, inLoop, nest)
  }

  predicate StructuredProgram(p: Program, nest: nat) {
    && (forall s | s in p.main :: StructuredItem(s, false, nest))
    && (forall f | f in p.fns :: StructuredItem(p.fns[f], false, nest))
    && (forall h | h in p.handlers :: StructuredItem(p.handlers[h], false, nest))
  }

  lemma {:induction false} ScopeIrrelevant(p: Program, cfg: Config, s: Src, sc: Scope, sc': Scope, at: Level,
      fuel: nat, tr: seq<Id>)
    requires !FreeControl(s)
    ensures Eval(p, cfg, true, s, sc, at, fuel, tr) == Eval(p, cfg, true, s, sc', at, fuel, tr)
    decreases fuel, s, 1, 0
  {
    match s
    case Block(items) => ScopeIrrelevantSeq(p, cfg, items, sc, sc', at, fuel, tr);
    case While(c, body) =>
      if fuel > 0 {
        var test := Evaluate(cfg, at, c, tr);
        var r := Eval(p, cfg, true, body, WHILE_SCOPE, Deeper(at), fuel - 1, test.1);
        ScopeIrrelevant(p, cfg, s, sc, sc', at, fuel - 1, r.trace);
      }
    case DoWhile(body, c) =>
      if fuel > 0 {
        var r := Eval(p, cfg, true, body, DO_SCOPE, Deeper(at), fuel - 1, tr);
        var test := Evaluate(cfg, at, c, r.trace);
        ScopeIrrelevant(p, cfg, s, sc, sc', at, fuel - 1, test.1);
      }
    case If(_, _, _) => ScopeIrrelevantIf(p, cfg, s, 0, sc, sc', at, fuel, tr);
    case _ =>
  }

  lemma {:induction false} ScopeIrrelevantSeq(p: Program, cfg: Config, ss: seq<Src>, sc: Scope, sc': Scope,
      at: Level, fuel: nat, tr: seq<Id>)
    requires forall x | x in ss :: !FreeControl(x)
    ensures EvalSeq(p, cfg, true, ss, sc, at, fuel, tr) == EvalSeq(p, cfg, true, ss, sc', at, fuel, tr)
    decreases fuel, ss, 0, 0
  {
    if ss != [] {
      ScopeIrrelevant(p, cfg, ss[0], sc, sc', at, fuel, tr);
      ScopeIrrelevantSeq(p, cfg, ss[1..], sc, sc', at, fuel, EvalItem(p, cfg, true, ss[0], sc, at, fuel, tr).trace);
    }
  }

  lemma {:induction false} ScopeIrrelevantIf(p: Program, cfg: Config, s: Src, k: nat, sc: Scope, sc': Scope,
      at: Level, fuel: nat, tr: seq<Id>)
    requires s.If? && k <= |s.arms| && !FreeControl(s)
    ensures EvalIf(p, cfg, true, s, k, sc, at, fuel, tr) == EvalIf(p, cfg, true, s, k, sc', at, fuel, tr)
    decreases fuel, s, 0, |s.arms| - k
  {
    if k == |s.arms| {
      if s.els.Some? {
        ScopeIrrelevant(p, cfg, s.els.value, sc, sc', at, fuel, tr);
      }
    } else {
      var test := Evaluate(cfg, at, s.arms[k].cond, tr);
      ScopeIrrelevant(p, cfg, s.arms[k].body, sc, sc', at, fuel, test.1);
      ScopeIrrelevantIf(p, cfg, s, k + 1, sc, sc', at, fuel, test.1);
    }
  }

  lemma {:induction false} StructuredEval(p: Program, cfg: Config, s: Src, sc: Scope, at: Level, fuel: nat, tr: seq<Id>)
    requires StructuredProgram(p, cfg.nest) && Structured(s, sc.InLoop?, cfg.nest)
    ensures Eval(p, cfg, false, s, sc, at, fuel, tr) == Eval(p, cfg, true, s, sc, at, fuel, tr)
    decreases fuel, s, 1, 0
  {
    match s
    case CallFn(f) =>
      if fuel > 0 && f in p.fns {
        StructuredEvalItem(p, cfg, p.fns[f], NoLoop, Deeper(at), fuel - 1, tr);
      }
    case IntTo(h, b) =>
      if fuel > 0 && h in p.handlers {
        StructuredEvalItem(p, cfg, p.handlers[h], NoLoop, at.(ctxDepth := at.ctxDepth + 1, iff := b), fuel - 1, tr);
      }
    case Block(items) => StructuredEvalSeq(p, cfg, items, sc, at, fuel, tr);
    case While(_, _) => StructuredLoop(p, cfg, s, sc, at, fuel, tr);
    case DoWhile(_, _) => StructuredLoop(p, cfg, s, sc, at, fuel, tr);
    case If(_, _, _) => StructuredEvalIf(p, cfg, s, 0, sc, at, fuel, tr);
    case Repeat(_, _) => StructuredActual(cfg, s, at, fuel, tr);
    case Attempt(_, _, _, _) => StructuredActual(cfg, s, at, fuel, tr);
    case _ =>
  }

  lemma {:induction false} StructuredLoop(p: Program, cfg: Config, s: Src, sc: Scope, at: Level, fuel: nat, tr: seq<Id>)
    requires StructuredProgram(p, cfg.nest) && Structured(s, sc.InLoop?, cfg.nest) && (s.While? || s.DoWhile?)
    ensures Eval(p, cfg, false, s, sc, at, fuel, tr) == Eval(p, cfg, true, s, sc, at, fuel, tr)
    decreases fuel, s, 0, 0
  {
    hide EvalItem, EvalSeq, EvalIf, EvalClause, StructuredProgram;
    if fuel > 0 && s.While? {
      var test := Evaluate(cfg, at, s.cond, tr);
      StructuredEval(p, cfg, s.body, WHILE_SCOPE, Deeper(at), fuel - 1, test.1);
      var r := Eval(p, cfg, true, s.body, WHILE_SCOPE, Deeper(at), fuel - 1, test.1);
      StructuredEval(p, cfg, s, sc, at, fuel - 1, r.trace);
    } else if fuel > 0 {
      StructuredEval(p, cfg, s.body, DO_SCOPE, Deeper(at), fuel - 1, tr);
      var r := Eval(p, cfg, true, s.body, DO_SCOPE, Deeper(at), fuel - 1, tr);
      var test := Evaluate(cfg, at, s.cond, r.trace);
      StructuredEval(p, cfg, s, sc, at, fuel - 1, test.1);
    }
  }

  lemma {:induction false} StructuredEvalItem(p: Program, cfg: Config, s: Src, sc: Scope, at: Level, fuel: nat,
      tr: seq<Id>)
    requires StructuredProgram(p, cfg.nest) && StructuredItem(s, sc.InLoop?, cfg.nest)
    ensures EvalItem(p, cfg, false, s, sc, at, fuel, tr) == EvalItem(p, cfg, true, s, sc, at, fuel, tr)
    decreases fuel, s, 2, 0
  {
    StructuredEval(p, cfg, s, Seen(s, sc), at, fuel, tr);
    if Seen(s, sc) != sc {
      ScopeIrrelevant(p, cfg, s, NoLoop, sc, at, fuel, tr);
    }
  }

  lemma {:induction false} StructuredEvalSeq(p: Program, cfg: Config, ss: seq<Src>, sc: Scope, at: Level,
      fuel: nat, tr: seq<Id>)
    requires StructuredProgram(p, cfg.nest) && forall x | x in ss :: StructuredItem(x, sc.InLoop?, cfg.nest)
    ensures EvalSeq(p, cfg, false, ss, sc, at, fuel, tr) == EvalSeq(p, cfg, true, ss, sc, at, fuel, tr)
    decreases fuel, ss, 0, 0
  {
    if ss != [] {
      StructuredEvalItem(p, cfg, ss[0], sc, at, fuel, tr);
      StructuredEvalSeq(p, cfg, ss[1..], sc, at, fuel, EvalItem(p, cfg, true, ss[0], sc, at, fuel, tr).trace);
    }
  }

  lemma {:induction false} StructuredEvalIf(p: Program, cfg: Config, s: Src, k: nat, sc: Scope, at: Level,
      fuel: nat, tr: seq<Id>)
    requires s.If? && k <= |s.arms| && StructuredProgram(p, cfg.nest) && Structured(s, sc.InLoop?, cfg.nest)
    ensures EvalIf(p, cfg, false, s, k, sc, at, fuel, tr) == EvalIf(p, cfg, true, s, k, sc, at, fuel, tr)
    decreases fuel, s, 0, |s.arms| - k
  {
    if k == |s.arms| {
      if s.els.Some? {
        StructuredEval(p, cfg, s.els.value, sc, at, fuel, tr);
      }
    } else {
      var test := Evaluate(cfg, at, s.arms[k].cond, tr);
      StructuredEval(p, cfg, s.arms[k].body, sc, at, fuel, test.1);
      StructuredEvalIf(p, cfg, s, k + 1, sc, at, fuel, test.1);
    }
  }

  /** For programs that respect those rules the rendered graph means what structured code means. */
  lemma StructuredCorrect(p: Program, cfg: Config, fuel: nat)
    requires StructuredProgram(p, cfg.nest)
    ensures Meaning(p, cfg, false, fuel) == Meaning(p, cfg, true, fuel)
  {
    StructuredEvalSeq(p, cfg, p.main, NoLoop, Level(0, 0, false), fuel, []);
  }
}
