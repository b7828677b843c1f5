/**
 Rendered native control flow does what the source means: one lemma per kind
 of element says that the machine, started on the element's subtree, reaches
 the state the meaning predicts.
 */
module NativeRuns {
  import opened Options
  import opened Addressing
  import opened Machine
  import opened Native
  import opened Turns
  import opened RunStates
  import opened ClauseRuns

  /** A CONTINUE or BREAK_LOOP inside the loop whose frame is on top of the stack. */
  lemma ControlTurn(cfg: Config, st: State, path: Path, target: nat)
    requires path != [] && Locate(cfg.graph, path) == Hit(Leaf(Control(Some(target))))
    requires Active(st) && st.stack != []
    ensures RunTurns(cfg, At(cfg, st, path), 1)
         == At(cfg, st.(stack := Front(st.stack)), Slice(Top(st.stack)) + [target])
  {
    var q := Slice(Top(st.stack)) + [target];
    var st' := Marked(st.(ptr := path, stack := Front(st.stack))).(ptr := q);
    JumpTurn(cfg, st, path, Control(Some(target)), st', q);
  }

  // ----- single turns of the native instructions -----

  /** A condition head: what it evaluates, and where each answer goes. */
  lemma WhileTurn(cfg: Config, st: State, q: Path, c: Id, at: Level)
    requires Locate(cfg.graph, q + [0]) == Hit(Leaf(WhileHead(1, 2, 0, 3)))
    requires Locate(cfg.graph, q + [1]) == Hit(Leaf(Act(c)))
    requires Active(st) && cfg.nest >= 1 && at.depth == |st.stack|
    ensures var (test, tr1) := Evaluate(cfg, at, c, st.trace);
            var fin := RunTurns(cfg, At(cfg, st, q + [0]), 1);
            match test
            case Throw(e) => Stopped(fin, e, tr1)
            case Ret(b) => fin == if b then At(cfg, st.(trace := tr1, stack := st.stack + [q + [0]]), q + [2, 0])
                                  else At(cfg, st.(trace := tr1), q + [3])
  {
    var head := WhileHead(1, 2, 0, 3);
    var here := st.(ptr := q + [0]);
    assert Slice(q + [0]) == q && Parent(q + [0]) == q && OffsetCopy(q + [0], 1) == q + [1];
    CallLeaf(cfg, cfg.nest, q + [1], Act(c), here);
    var (test, tr1) := Evaluate(cfg, at, c, st.trace);
    if test.Throw? {
      RaiseTurn(cfg, st, q + [0], head, test.exn);
    } else if test.value {
      var st1 := st.(trace := tr1, stack := st.stack + [q + [0]]);
      JumpTurn(cfg, st, q + [0], head, Marked(st1).(ptr := q + [2, 0]), q + [2, 0]);
    } else {
      JumpTurn(cfg, st, q + [0], head, Marked(st.(trace := tr1)).(ptr := q + [3]), q + [3]);
    }
  }

  lemma EnterTurn(cfg: Config, st: State, q: Path, i: nat, body: nat, push: bool)
    requires Locate(cfg.graph, q + [i]) == Hit(Leaf(EnterBody(body, push))) && Active(st)
    ensures var fin := RunTurns(cfg, At(cfg, st, q + [i]), 1);
            if push && |st.stack| >= cfg.ovf then Stopped(fin, StackOverflow, st.trace)
            else fin == At(cfg, if push then st.(stack := st.stack + [q + [0]]) else st, q + [body, 0])
  {
    assert Slice(q + [i]) == q;
    var enter := EnterBody(body, push);
    if push && |st.stack| >= cfg.ovf {
      RaiseTurn(cfg, st, q + [i], enter, StackOverflow);
    } else {
      var st1 := if push then st.(stack := st.stack + [q + [0]]) else st;
      JumpTurn(cfg, st, q + [i], enter, Marked(st1).(ptr := q + [body, 0]), q + [body, 0]);
    }
  }

  lemma CheckTurn(cfg: Config, st: State, q: Path, c: Id, at: Level)
    requires Locate(cfg.graph, q + [2]) == Hit(Leaf(DoCheck(1, 0, 4)))
    requires Locate(cfg.graph, q + [3]) == Hit(Leaf(Act(c)))
    requires Active(st) && cfg.nest >= 1 && at.depth == |st.stack|
    ensures var (test, tr1) := Evaluate(cfg, at, c, st.trace);
            var fin := RunTurns(cfg, At(cfg, st, q + [2]), 1);
            match test
            case Throw(e) => Stopped(fin, e, tr1)
            case Ret(b) => fin == At(cfg, st.(trace := tr1), q + [if b then 0 else 4])
  {
    var check := DoCheck(1, 0, 4);
    assert Parent(q + [2]) == q && OffsetCopy(q + [2], 1) == q + [3];
    CallLeaf(cfg, cfg.nest, q + [3], Act(c), st.(ptr := q + [2]));
    var (test, tr1) := Evaluate(cfg, at, c, st.trace);
    if test.Throw? {
      RaiseTurn(cfg, st, q + [2], check, test.exn);
    } else {
      var target := q + [if test.value then 0 else 4];
      JumpTurn(cfg, st, q + [2], check, Marked(st.(trace := tr1)).(ptr := target), target);
    }
  }

  /** A branch head that does not call its body. */
  lemma BranchTurn(cfg: Config, st: State, q: Path, b: nat, head: Instr, c: Id, at: Level)
    requires head.IfHead? && head.condOff == 1 && head.doPos == b + 2
    requires Locate(cfg.graph, q + [b]) == Hit(Leaf(head))
    requires Locate(cfg.graph, q + [b + 1]) == Hit(Leaf(Act(c)))
    requires Active(st) && cfg.nest >= 1 && at.depth == |st.stack|
    ensures var (test, tr1) := Evaluate(cfg, at, c, st.trace);
            var fin := RunTurns(cfg, At(cfg, st, q + [b]), 1);
            match test
            case Throw(e) => Stopped(fin, e, tr1)
            case Ret(true) => !head.single ==> fin == At(cfg, st.(trace := tr1), q + [b + 2, 0])
            case Ret(false) => fin == At(cfg, st.(trace := tr1), q + [head.falsePos])
  {
    assert Slice(q + [b]) == q && Parent(q + [b]) == q && OffsetCopy(q + [b], 1) == q + [b + 1];
    CallLeaf(cfg, cfg.nest, q + [b + 1], Act(c), st.(ptr := q + [b]));
    var (test, tr1) := Evaluate(cfg, at, c, st.trace);
    if test.Throw? {
      RaiseTurn(cfg, st, q + [b], head, test.exn);
    } else if !test.value {
      JumpTurn(cfg, st, q + [b], head, Marked(st.(trace := tr1)).(ptr := q + [head.falsePos]), q + [head.falsePos]);
    } else if !head.single {
      JumpTurn(cfg, st, q + [b], head, Marked(st.(trace := tr1)).(ptr := q + [b + 2, 0]), q + [b + 2, 0]);
    }
  }

  /** A branch head whose condition holds and whose body is one node, called in the same turn. */
  lemma BranchCallTurn(cfg: Config, st: State, q: Path, b: nat, head: Instr, c: Id, node: Instr, at: Level)
    requires head.IfHead? && head.condOff == 1 && head.doOff == 2 && head.single
    requires Locate(cfg.graph, q + [b]) == Hit(Leaf(head))
    requires Locate(cfg.graph, q + [b + 1]) == Hit(Leaf(Act(c)))
    requires Locate(cfg.graph, q + [b + 2]) == Hit(Leaf(node)) && (node.Act? || node.Nop? || node.Suspend?)
    requires Active(st) && cfg.nest >= 1 && at.depth == |st.stack|
    requires Evaluate(cfg, at, c, st.trace).0 == Ret(true)
    ensures var tr1 := st.trace + [c];
            var tr2 := if node.Act? then tr1 + [node.id] else tr1;
            var out := if node.Act? then cfg.oracle(tr2) else if node.Nop? then OK else Throw(Suspended);
            var fin := RunTurns(cfg, At(cfg, st, q + [b]), 1);
            match out
            case Throw(e) => Stopped(fin, e, tr2)
            case Ret(_) => fin == At(cfg, st.(trace := tr2), q + [head.retPos])
  {
    assert Parent(q + [b]) == q && OffsetCopy(q + [b], 1) == q + [b + 1] && OffsetCopy(q + [b], 2) == q + [b + 2];
    var tr1 := st.trace + [c];
    var tr2 := if node.Act? then tr1 + [node.id] else tr1;
    var out := if node.Act? then cfg.oracle(tr2) else if node.Nop? then OK else Throw(Suspended);
    CallLeaf(cfg, cfg.nest, q + [b + 1], Act(c), st.(ptr := q + [b]));
    CallLeaf(cfg, cfg.nest, q + [b + 2], node, st.(ptr := q + [b], trace := tr1));
    if out.Throw? {
      RaiseTurn(cfg, st, q + [b], head, out.exn);
    } else {
      JumpTurn(cfg, st, q + [b], head, Marked(st.(trace := tr2)).(ptr := q + [head.retPos]), q + [head.retPos]);
    }
  }

  lemma CallTurn(cfg: Config, st: State, path: Path, f: Name)
    requires path != [] && Locate(cfg.graph, path) == Hit(Leaf(Call(f))) && Active(st)
    requires f in cfg.aliases && cfg.aliases[f] != [] && Locate(cfg.graph, cfg.aliases[f]).Hit?
    ensures var fin := RunTurns(cfg, At(cfg, st, path), 1);
            if |st.stack| >= cfg.ovf then Stopped(fin, StackOverflow, st.trace)
            else fin == At(cfg, st.(stack := st.stack + [path]), cfg.aliases[f])
  {
    if |st.stack| >= cfg.ovf {
      RaiseTurn(cfg, st, path, Call(f), StackOverflow);
    } else {
      var st1 := st.(stack := st.stack + [path]);
      JumpTurn(cfg, st, path, Call(f), Marked(st1).(ptr := cfg.aliases[f]), cfg.aliases[f]);
    }
  }

  /** RET rebases to the frame and then advances past it. */
  lemma ReturnTurn(cfg: Config, st: State, path: Path)
    requires path != [] && Locate(cfg.graph, path) == Hit(Leaf(Return)) && Active(st)
    requires st.stack != [] && Top(st.stack) != []
    requires Locate(cfg.graph, Top(st.stack)).Hit? && Locate(cfg.graph, Top(st.stack)).tree.Leaf?
    ensures RunTurns(cfg, At(cfg, st, path), 1)
         == At(cfg, st.(stack := Front(st.stack)), Next(cfg.graph, Top(st.stack)))
  {
    hide RunTurns, Turn, Next, Descend;
    LeafTurn(cfg, st, path, Return);
    AdvanceFromLeaf(cfg, st.(stack := Front(st.stack), ptr := Top(st.stack)), Top(st.stack));
  }

  /** INT in the flow: what it saves is its own address, or the return address it was given. */
  lemma InterruptTurn(cfg: Config, st: State, path: Path, f: Name, retTo: Option<Path>, b: bool)
    requires path != [] && Locate(cfg.graph, path) == Hit(Leaf(Interrupt(f, retTo, b))) && Active(st)
    requires f in cfg.aliases && cfg.aliases[f] != [] && Locate(cfg.graph, cfg.aliases[f]).Hit?
    ensures var fin := RunTurns(cfg, At(cfg, st, path), 1);
            var saved := Context(if retTo.Some? then retTo.value else path, st.flags);
            if st.flags.iff then Stopped(fin, NestedInterrupt, st.trace)
            else if |st.ctxs| >= cfg.ctxOvf then Stopped(fin, StackOverflow, st.trace)
            else fin == At(cfg, st.(ctxs := st.ctxs + [saved], flags := st.flags.(iff := b)), cfg.aliases[f])
  {
    var i := Interrupt(f, retTo, b);
    if st.flags.iff {
      RaiseTurn(cfg, st, path, i, NestedInterrupt);
    } else if |st.ctxs| >= cfg.ctxOvf {
      RaiseTurn(cfg, st, path, i, StackOverflow);
    } else {
      var saved := Context(if retTo.Some? then retTo.value else path, st.flags);
      var st1 := st.(ctxs := st.ctxs + [saved], flags := st.flags.(iff := b));
      JumpTurn(cfg, st, path, i, Marked(st1).(ptr := cfg.aliases[f]), cfg.aliases[f]);
    }
  }

  /** IRET restores pointer and flags from the saved context and then advances past the saved address. */
  lemma IntReturnTurn(cfg: Config, st: State, path: Path)
    requires path != [] && Locate(cfg.graph, path) == Hit(Leaf(IntReturn)) && Active(st)
    requires st.ctxs != [] && Top(st.ctxs).ptr != [] && !Top(st.ctxs).flags.hlt && !Top(st.ctxs).flags.jmp
    requires Locate(cfg.graph, Top(st.ctxs).ptr).Hit? && Locate(cfg.graph, Top(st.ctxs).ptr).tree.Leaf?
    ensures RunTurns(cfg, At(cfg, st, path), 1)
         == At(cfg, st.(ctxs := Front(st.ctxs), flags := Top(st.ctxs).flags), Next(cfg.graph, Top(st.ctxs).ptr))
  {
    hide RunTurns, Turn, Next, Descend;
    LeafTurn(cfg, st, path, IntReturn);
    var back := Top(st.ctxs);
    AdvanceFromLeaf(cfg, st.(ctxs := Front(st.ctxs), flags := back.flags, ptr := back.ptr), back.ptr);
  }

  // ----- elements -----

  lemma {:induction false} RunItem(p: Program, cfg: Config, s: Src, sc: Scope, path: Path, st: State,
      at: Level, fuel: nat)
    returns (k: nat)
    requires Linked(p, cfg) && SoundProgram(p) && Sound(p, s)
    requires path != [] && Locate(cfg.graph, path) == Hit(Item(s, sc))
    requires Ready(st, sc, at)
    ensures Lands(cfg, EvalItem(p, cfg, false, s, sc, at, fuel, st.trace), st, sc, Next(cfg.graph, path),
                  RunTurns(cfg, At(cfg, st, path), k), k, fuel)
    decreases fuel, s, 3, 0
  {
    ItemShape(s, sc);
    ItemMeans(p, cfg, s, sc, at, fuel, st.trace);
    assert Ready(st, Seen(s, sc), at);
    hide *;
    if Single(s) {
      k := RunSingle(p, cfg, s, sc, path, st, at, fuel);
    } else if s == Block([]) {
      RunNothing(cfg, path, st, sc, fuel);
      k := 1;
    } else {
      var kids := Parts(s, Seen(s, sc));
      EnterKids(cfg, path, kids, st);
      k := RunSlot(p, cfg, s, Seen(s, sc), path, kids, st, at, fuel);
      InScope(cfg, Eval(p, cfg, false, s, Seen(s, sc), at, fuel, st.trace), s, sc, st, Next(cfg.graph, path),
              RunTurns(cfg, At(cfg, st, path), k), k, fuel);
    }
  }

  lemma ItemShape(s: Src, sc: Scope)
    ensures Single(s) ==> Item(s, sc) == Leaf(NodeOf(s, sc)) && Seen(s, sc) == sc
    ensures !Single(s) ==> Item(s, sc) == Box(Parts(s, Seen(s, sc))) && Slot(s, Seen(s, sc)) == Parts(s, Seen(s, sc))
    ensures !Single(s) && s != Block([]) ==> Parts(s, Seen(s, sc)) != []
    ensures s == Block([]) ==> Parts(s, Seen(s, sc)) == []
  {
    if !Single(s) && s != Block([]) {
      PartsNonEmpty(s, Seen(s, sc));
    }
  }

  lemma ItemMeans(p: Program, cfg: Config, s: Src, sc: Scope, at: Level, fuel: nat, tr: seq<Id>)
    ensures EvalItem(p, cfg, false, s, sc, at, fuel, tr)
         == if s == Block([]) then Result(Err(NullPointer), tr)
            else Eval(p, cfg, false, s, Seen(s, sc), at, fuel, tr)
    ensures !Single(Block([]))
  {
    hide Eval;
  }

  /** An empty composition in the flow: there is nothing to execute at its address. */
  lemma RunNothing(cfg: Config, path: Path, st: State, sc: Scope, fuel: nat)
    requires path != [] && Locate(cfg.graph, path) == Hit(Box([])) && Active(st)
    ensures Lands(cfg, Result(Err(NullPointer), st.trace), st, sc, Next(cfg.graph, path),
                  RunTurns(cfg, At(cfg, st, path), 1), 1, fuel)
  {
    hide Next;
    assert path + [] == path;
    assert RunTurns(cfg, Turn(cfg, At(cfg, st, path)), 0) == Turn(cfg, At(cfg, st, path));
  }

  lemma EnterKids(cfg: Config, path: Path, kids: seq<Tree<Instr>>, st: State)
    requires path != [] && Locate(cfg.graph, path) == Hit(Box(kids)) && kids != []
    ensures At(cfg, st, path) == At(cfg, st, After(cfg.graph, path, 0))
    ensures After(cfg.graph, path, |kids|) == Next(cfg.graph, path)
  {
    EnterHits(cfg.graph, path);
  }

  /** A result out of sight of the loop's scanner counts in the loop as it stands. */
  lemma InScope(cfg: Config, r: Result, s: Src, sc: Scope, st: State, next: Path, fin: State, k: nat, fuel: nat)
    requires Lands(cfg, r, st, Seen(s, sc), next, fin, k, fuel)
    ensures Lands(cfg, r, st, sc, next, fin, k, fuel)
  {
  }

  lemma PartsNonEmpty(s: Src, sc: Scope)
    requires !Single(s) && s != Block([])
    ensures Parts(s, sc) != []
  {
    hide LoopBody, ArmParts, Nested, SlotTree;
  }

  /** The children a body slot starts with, `kids` being all children of the container at `q`. */
  lemma {:induction false} RunSlot(p: Program, cfg: Config, s: Src, sc: Scope, q: Path, kids: seq<Tree<Instr>>,
                                   st: State, at: Level, fuel: nat)
    returns (k: nat)
    requires Linked(p, cfg) && SoundProgram(p) && Sound(p, s)
    requires Locate(cfg.graph, q) == Hit(Box(kids)) && Slot(s, sc) <= kids
    requires Ready(st, sc, at)
    ensures Lands(cfg, Eval(p, cfg, false, s, sc, at, fuel, st.trace), st, sc,
                  After(cfg.graph, q, |Slot(s, sc)|),
                  RunTurns(cfg, At(cfg, st, After(cfg.graph, q, 0)), k), k, fuel)
    decreases fuel, s, 2, 0
  {
    hide *;
    SlotShape(cfg.graph, s, sc, q, kids);
    if s.Block? {
      BlockMeans(p, cfg, s, sc, kids, at, fuel, st.trace);
      k := RunSeq(p, cfg, s.items, sc, q, kids, 0, st, at, fuel);
    } else if s.If? {
      IfMeans(p, cfg, s, sc, kids, at, fuel, st.trace);
      k := RunIf(p, cfg, s, 0, sc, q, kids, st, at, fuel);
    } else if Single(s) {
      k := RunSingle(p, cfg, s, sc, q + [0], st, at, fuel);
      OneSlot(cfg, Eval(p, cfg, false, s, sc, at, fuel, st.trace), st, sc, q,
              RunTurns(cfg, At(cfg, st, q + [0]), k), k, fuel);
    } else if s.While? {
      k := RunWhile(p, cfg, s, sc, q, kids, st, at, fuel);
    } else if s.DoWhile? {
      k := RunDo(p, cfg, s, sc, q, kids, st, at, fuel);
    } else {
      k := RunClause(p, cfg, s, sc, q, kids, st, at, fuel);
    }
  }

  lemma BlockMeans(p: Program, cfg: Config, s: Src, sc: Scope, kids: seq<Tree<Instr>>, at: Level, fuel: nat,
      tr: seq<Id>)
    requires s.Block? && Parts(s, sc) <= kids && Sound(p, s)
    ensures |Slot(s, sc)| == |s.items| <= |kids|
    ensures forall i | 0 <= i < |s.items| :: kids[0 + i] == Item(s.items[i], sc)
    ensures forall x | x in s.items :: Sound(p, x)
    ensures Eval(p, cfg, false, s, sc, at, fuel, tr) == EvalSeq(p, cfg, false, s.items, sc, at, fuel, tr)
  {
    hide Item, EvalSeq, Nested;
    forall i | 0 <= i < |s.items|
      ensures kids[0 + i] == Item(s.items[i], sc)
    {
      assert kids[i] == Parts(s, sc)[i];
    }
  }

  lemma IfMeans(p: Program, cfg: Config, s: Src, sc: Scope, kids: seq<Tree<Instr>>, at: Level, fuel: nat, tr: seq<Id>)
    requires s.If? && Parts(s, sc) <= kids
    ensures |Slot(s, sc)| == MergePos(s) + 1
    ensures Eval(p, cfg, false, s, sc, at, fuel, tr) == EvalIf(p, cfg, false, s, 0, sc, at, fuel, tr)
    ensures 3 * 0 == 0
  {
    IfKids(s, sc, kids);
    hide Parts, EvalIf;
  }

  /** A single node takes one slot. */
  lemma OneSlot(cfg: Config, r: Result, st: State, sc: Scope, q: Path, fin: State, k: nat, fuel: nat)
    requires Locate(cfg.graph, q).Hit? && Locate(cfg.graph, q).tree.Box? && Locate(cfg.graph, q).tree.kids != []
    requires Lands(cfg, r, st, sc, Next(cfg.graph, q + [0]), fin, k, fuel)
    ensures Lands(cfg, r, st, sc, After(cfg.graph, q, 1), fin, k, fuel)
  {
    hide After, Next, Locate;
    NextIsAfter(cfg, st.(trace := r.trace), q, 0);
  }

  /** How many slots the native loops take, and where flow enters a slot. */
  lemma SlotShape(g: Tree<Instr>, s: Src, sc: Scope, q: Path, kids: seq<Tree<Instr>>)
    requires Locate(g, q) == Hit(Box(kids)) && Slot(s, sc) <= kids
    ensures Single(s) ==> |Slot(s, sc)| == 1 && Locate(g, q + [0]) == Hit(Leaf(NodeOf(s, sc)))
    ensures !Single(s) ==> Slot(s, sc) == Parts(s, sc)
    ensures s.Block? || s.If? || s.While? || s.DoWhile? ==> !Single(s)
    ensures s.While? ==> |Parts(s, sc)| == 4
    ensures s.DoWhile? ==> |Parts(s, sc)| == 5
    ensures Slot(s, sc) != [] ==> After(g, q, 0) == q + [0]
    ensures s != Block([]) ==> Slot(s, sc) != []
    ensures Single(s) || s.Block? || s.If? || s.While? || s.DoWhile? || IsClause(s) || s.Archive? || s.Fn? || s.InterFn?
  {
    hide Items, LoopBody, ArmParts, ElseParts, Nested, SlotTree;
    if Single(s) {
      Child(g, q, kids, 0);
      assert kids[0] == Slot(s, sc)[0];
    } else if s != Block([]) {
      PartsNonEmpty(s, sc);
    }
  }

  /** The clauses that execute their parts by subroutine calls, archived segments and routines. */
  lemma RunClause(p: Program, cfg: Config, s: Src, sc: Scope, q: Path, kids: seq<Tree<Instr>>, st: State,
      at: Level, fuel: nat)
    returns (k: nat)
    requires Linked(p, cfg) && Sound(p, s) && (IsClause(s) || s.Archive? || s.Fn? || s.InterFn?)
    requires Locate(cfg.graph, q) == Hit(Box(kids)) && Parts(s, sc) <= kids
    requires Ready(st, sc, at)
    ensures Lands(cfg, Eval(p, cfg, false, s, sc, at, fuel, st.trace), st, sc,
                  After(cfg.graph, q, |Parts(s, sc)|), RunTurns(cfg, At(cfg, st, q + [0]), k), k, fuel)
  {
    hide RunTurns, Turn, Descend, Next, After, Slots, SoundClause, Actual, Nested, RoutineAt;
    if IsClause(s) {
      k := RunActual(cfg, s, q, kids, sc, st, at, fuel);
    } else if s.Archive? {
      assert kids[0] == Parts(s, sc)[0] && kids[2] == Parts(s, sc)[2];
      ArchiveTurn(cfg, st, q, kids);
      k := 2;
    } else {
      SkipRoutine(cfg, st, q, s.name, s.body, sc, if s.Fn? then Return else IntReturn, kids);
      k := 1;
    }
  }

  lemma {:induction false} RunSeq(p: Program, cfg: Config, ss: seq<Src>, sc: Scope, q: Path, kids: seq<Tree<Instr>>,
                                  j: nat, st: State, at: Level, fuel: nat)
    returns (k: nat)
    requires Linked(p, cfg) && SoundProgram(p) && forall s | s in ss :: Sound(p, s)
    requires Locate(cfg.graph, q) == Hit(Box(kids)) && j + |ss| <= |kids|
    requires forall i | 0 <= i < |ss| :: kids[j + i] == Item(ss[i], sc)
    requires Ready(st, sc, at)
    ensures Lands(cfg, EvalSeq(p, cfg, false, ss, sc, at, fuel, st.trace), st, sc, After(cfg.graph, q, j + |ss|),
                  RunTurns(cfg, At(cfg, st, After(cfg.graph, q, j)), k), k, fuel)
    decreases fuel, ss, 0, 0
  {
    hide Turn, Next, Locate, Descend, Item;
    if ss == [] {
      k := 0;
    } else {
      assert kids[j + 0] == Item(ss[0], sc);
      Child(cfg.graph, q, kids, j);
      var r := EvalItem(p, cfg, false, ss[0], sc, at, fuel, st.trace);
      var k1 := RunItem(p, cfg, ss[0], sc, q + [j], st, at, fuel);
      if r.out.Normal? {
        var st1 := st.(trace := r.trace);
        NextIsAfter(cfg, st1, q, j);
        forall i | 0 <= i < |ss[1..]|
          ensures kids[j + 1 + i] == Item(ss[1..][i], sc)
        {
          assert kids[j + (i + 1)] == Item(ss[i + 1], sc);
        }
        var k2 := RunSeq(p, cfg, ss[1..], sc, q, kids, j + 1, st1, at, fuel);
        TurnsPlus(cfg, At(cfg, st, q + [j]), k1, k2);
        k := k1 + k2;
      } else {
        k := k1;
      }
    }
  }

  lemma {:induction false} RunSingle(p: Program, cfg: Config, s: Src, sc: Scope, path: Path, st: State,
      at: Level, fuel: nat)
    returns (k: nat)
    requires Linked(p, cfg) && SoundProgram(p) && Sound(p, s) && Single(s)
    requires path != [] && Locate(cfg.graph, path) == Hit(Leaf(NodeOf(s, sc)))
    requires Ready(st, sc, at)
    ensures Lands(cfg, Eval(p, cfg, false, s, sc, at, fuel, st.trace), st, sc, Next(cfg.graph, path),
                  RunTurns(cfg, At(cfg, st, path), k), k, fuel)
    decreases fuel, s, 1, 0
  {
    k := 1;
    if s.Break? || s.Continue? {
      if sc.NoLoop? {
        RaiseTurn(cfg, st, path, Control(None), NotConfigured);
      } else {
        ControlTurn(cfg, st, path, if s.Break? then sc.exit else sc.head);
      }
    } else if s.CallFn? {
      k := RunCall(p, cfg, s.name, sc, path, st, at, fuel);
    } else if s.IntTo? {
      k := RunInt(p, cfg, s.name, s.ifState, sc, path, st, at, fuel);
    } else {
      RunNode(cfg, s, path, sc, st, at, fuel);
    }
  }

  // ----- routines -----

  /** The escape node rebases to the last of the routine's four slots, so that advancing leaves the routine. */
  lemma EscapeTurn(cfg: Config, st: State, q: Path, kids: seq<Tree<Instr>>)
    requires Locate(cfg.graph, q) == Hit(Box(kids)) && |kids| >= 4
    requires kids[0] == Leaf(Escape) && kids[3].Leaf? && Active(st)
    ensures RunTurns(cfg, At(cfg, st, q + [0]), 1) == At(cfg, st, After(cfg.graph, q, 4))
  {
    hide *;
    Child(cfg.graph, q, kids, 0);
    Child(cfg.graph, q, kids, 3);
    EscapeExec(cfg, st, q);
    LeafTurn(cfg, st, q + [0], Escape);
    AdvanceFromLeaf(cfg, st.(ptr := q + [3]), q + [3]);
    NextIsAfter(cfg, st, q, 3);
  }

  lemma EscapeExec(cfg: Config, st: State, q: Path)
    requires Active(st)
    ensures Exec(cfg, cfg.nest, Escape, st.(ptr := q + [0])) == (OK, st.(ptr := q + [3]))
    ensures Settled(cfg, OK, st.(ptr := q + [3])) == Advance(cfg, st.(ptr := q + [3]))
    ensures st.status.Running? && !st.flags.hlt
    ensures forall next :: At(cfg, st.(ptr := q + [3]), next) == At(cfg, st, next)
  {
    assert OffsetCopy(q + [0], 3) == q + [3];
  }

  /** Sequential flow never enters a routine's body, wherever the routine stands. */
  lemma SkipRoutine(cfg: Config, st: State, q: Path, name: Name, body: Src, sc: Scope, ret: Instr,
      kids: seq<Tree<Instr>>)
    requires Locate(cfg.graph, q) == Hit(Box(kids)) && RoutineParts(name, body, sc, ret) <= kids && Active(st)
    ensures RunTurns(cfg, At(cfg, st, q + [0]), 1) == At(cfg, st, After(cfg.graph, q, 4))
  {
    hide RunTurns, Turn, Nested, After;
    var parts := RoutineParts(name, body, sc, ret);
    assert kids[0] == parts[0] && kids[3] == parts[3];
    EscapeTurn(cfg, st, q, kids);
  }

  lemma NestedItem(s: Src)
    ensures Nested(s, NoLoop) == Item(s, NoLoop)
  {
  }

  /** From the entry of a routine to its body, and from the body to the closing instruction. */
  lemma RoutineSteps(cfg: Config, st: State, name: Name, body: Src, ret: Instr)
    requires RoutineAt(cfg, name, body, ret) && Active(st)
    ensures name in cfg.aliases && cfg.aliases[name] != []
    ensures var a := cfg.aliases[name];
            var q := Parent(a);
            && Locate(cfg.graph, a) == Hit(Leaf(Entry(name)))
            && Locate(cfg.graph, q + [2]) == Hit(Item(body, NoLoop))
            && Locate(cfg.graph, q + [3]) == Hit(Leaf(ret))
            && RunTurns(cfg, At(cfg, st, a), 1) == At(cfg, st, q + [2])
            && Next(cfg.graph, q + [2]) == q + [3]
  {
    hide RunTurns, Turn, Parts;
    var a := cfg.aliases[name];
    var q := Parent(a);
    var kids := Locate(cfg.graph, q).tree.kids;
    var parts := RoutineParts(name, body, NoLoop, ret);
    assert a == q + [1];
    NestedItem(body);
    assert kids[1] == parts[1] && kids[2] == parts[2] && kids[3] == parts[3];
    Child(cfg.graph, q, kids, 1);
    Child(cfg.graph, q, kids, 2);
    Child(cfg.graph, q, kids, 3);
    PlainTurn(cfg, st, a, Entry(name), st.(ptr := a));
    NextIsAfter(cfg, st, q, 1);
    NextInBox(cfg.graph, q, 2);
  }

  /** Two turns lead into a routine's body, and one out of it if it completes. */
  lemma RoutineLands(cfg: Config, r: Result, st: State, st1: State, sc: Scope, body: Path, last: Path, next: Path,
      start: State, k2: nat, fuel: nat)
    returns (k: nat)
    requires fuel > 0 && RunTurns(cfg, start, 2) == At(cfg, st1, body)
    requires Lands(cfg, r, st1, NoLoop, last, RunTurns(cfg, At(cfg, st1, body), k2), k2, fuel - 1)
    requires r.out.Normal? ==>
               RunTurns(cfg, At(cfg, st1.(trace := r.trace), last), 1) == At(cfg, st.(trace := r.trace), next)
    ensures Lands(cfg, r, st, sc, next, RunTurns(cfg, start, k), k, fuel)
  {
    hide RunTurns, At;
    TurnsPlus(cfg, start, 2, k2);
    k := 2 + k2;
    if r.out.Normal? {
      TurnsPlus(cfg, start, k, 1);
      k := k + 1;
    }
  }

  /** CALL and the NOP of the entry. */
  lemma CallEnters(cfg: Config, st: State, path: Path, f: Name, body: Src)
    requires RoutineAt(cfg, f, body, Return) && Active(st)
    requires path != [] && Locate(cfg.graph, path) == Hit(Leaf(Call(f)))
    ensures f in cfg.aliases && cfg.aliases[f] != []
    ensures |st.stack| >= cfg.ovf ==> Stopped(RunTurns(cfg, At(cfg, st, path), 1), StackOverflow, st.trace)
    ensures |st.stack| < cfg.ovf ==>
              RunTurns(cfg, At(cfg, st, path), 2)
              == At(cfg, st.(stack := st.stack + [path]), Parent(cfg.aliases[f]) + [2])
  {
    hide RunTurns, Turn, At, RoutineAt, Locate, Item;
    var st1 := st.(stack := st.stack + [path]);
    RoutineSteps(cfg, st1, f, body, Return);
    CallTurn(cfg, st, path, f);
    TurnsPlus(cfg, At(cfg, st, path), 1, 1);
  }

  /** RET, with the CALL's frame on top of the stack. */
  lemma CallLeaves(cfg: Config, st: State, path: Path, f: Name, body: Src)
    requires RoutineAt(cfg, f, body, Return) && Active(st)
    requires path != [] && Locate(cfg.graph, path) == Hit(Leaf(Call(f)))
    ensures RunTurns(cfg, At(cfg, st.(stack := st.stack + [path]), Parent(cfg.aliases[f]) + [3]), 1)
         == At(cfg, st, Next(cfg.graph, path))
  {
    hide RunTurns, Turn, At, RoutineAt, Item, Next;
    var st1 := st.(stack := st.stack + [path]);
    RoutineSteps(cfg, st1, f, body, Return);
    assert Front(st1.stack) == st.stack && Top(st1.stack) == path;
    ReturnTurn(cfg, st1, Parent(cfg.aliases[f]) + [3]);
  }

  /** CALL of an FN block: through the body and back to the leaf after the CALL. */
  lemma {:induction false} RunCall(p: Program, cfg: Config, f: Name, sc: Scope, path: Path, st: State,
      at: Level, fuel: nat)
    returns (k: nat)
    requires Linked(p, cfg) && SoundProgram(p) && f in p.fns
    requires path != [] && Locate(cfg.graph, path) == Hit(Leaf(Call(f)))
    requires Ready(st, sc, at)
    ensures Lands(cfg, Eval(p, cfg, false, CallFn(f), sc, at, fuel, st.trace), st, sc, Next(cfg.graph, path),
                  RunTurns(cfg, At(cfg, st, path), k), k, fuel)
    decreases fuel, CallFn(f), 0, 0
  {
    hide *;
    var body := p.fns[f];
    var st1 := st.(stack := st.stack + [path]);
    var start, next := At(cfg, st, path), Next(cfg.graph, path);
    var r := if fuel > 0 then EvalItem(p, cfg, false, body, NoLoop, Deeper(at), fuel - 1, st.trace)
             else Result(Timeout, st.trace);
    CallMeans(p, cfg, f, sc, at, fuel, st.trace);
    RoutineReady(p, cfg, f, body, Return, st, sc, at, path);
    CallEnters(cfg, st, path, f, body);
    if at.depth >= cfg.ovf {
      StopLands(cfg, Result(Err(StackOverflow), st.trace), st, sc, next, RunTurns(cfg, start, 1), 1, fuel);
      k := 1;
    } else if fuel == 0 {
      NotYet(cfg, st, sc, at, path, next);
      k := 0;
    } else {
      var q := Parent(cfg.aliases[f]);
      RoutineSteps(cfg, st1, f, body, Return);
      var k2 := RunItem(p, cfg, body, NoLoop, q + [2], st1, Deeper(at), fuel - 1);
      StaysActive(st, r.trace);
      CallLeaves(cfg, st.(trace := r.trace), path, f, body);
      k := RoutineLands(cfg, r, st, st1, sc, q + [2], q + [3], next, start, k2, fuel);
    }
  }

  lemma CallMeans(p: Program, cfg: Config, f: Name, sc: Scope, at: Level, fuel: nat, tr: seq<Id>)
    requires f in p.fns
    ensures Eval(p, cfg, false, CallFn(f), sc, at, fuel, tr)
         == if at.depth >= cfg.ovf then Result(Err(StackOverflow), tr)
            else if fuel == 0 then Result(Timeout, tr)
            else EvalItem(p, cfg, false, p.fns[f], NoLoop, Deeper(at), fuel - 1, tr)
  {
    hide EvalItem;
  }

  lemma IntMeans(p: Program, cfg: Config, h: Name, b: bool, sc: Scope, at: Level, fuel: nat, tr: seq<Id>)
    requires h in p.handlers
    ensures Eval(p, cfg, false, IntTo(h, b), sc, at, fuel, tr)
         == if at.iff then Result(Err(NestedInterrupt), tr)
            else if at.ctxDepth >= cfg.ctxOvf then Result(Err(StackOverflow), tr)
            else if fuel == 0 then Result(Timeout, tr)
            else
              var at1 := at.(ctxDepth := at.ctxDepth + 1, iff := b);
              EvalItem(p, cfg, false, p.handlers[h], NoLoop, at1, fuel - 1, tr)
  {
    hide EvalItem;
  }

  /** What entering a routine asks, and what it changes. */
  lemma RoutineReady(p: Program, cfg: Config, name: Name, body: Src, ret: Instr, st: State, sc: Scope, at: Level,
      path: Path)
    requires Linked(p, cfg) && SoundProgram(p) && Ready(st, sc, at)
    requires (name in p.fns && p.fns[name] == body && ret == Return)
          || (name in p.handlers && p.handlers[name] == body && ret == IntReturn)
    ensures RoutineAt(cfg, name, body, ret) && Sound(p, body) && Active(st)
    ensures |st.stack| == at.depth && |st.ctxs| == at.ctxDepth && st.flags.iff == at.iff
    ensures Ready(st.(stack := st.stack + [path]), NoLoop, Deeper(at))
    ensures Active(st.(stack := st.stack + [path]))
    ensures forall b :: var st1 := st.(ctxs := st.ctxs + [Context(path, st.flags)], flags := st.flags.(iff := b));
              Active(st1) && Ready(st1, NoLoop, at.(ctxDepth := at.ctxDepth + 1, iff := b))
  {
    hide *;
    RoutineFound(p, cfg, name, body, ret);
    EntryReady(st, sc, at, path);
  }

  lemma RoutineFound(p: Program, cfg: Config, name: Name, body: Src, ret: Instr)
    requires Linked(p, cfg) && SoundProgram(p)
    requires (name in p.fns && p.fns[name] == body && ret == Return)
          || (name in p.handlers && p.handlers[name] == body && ret == IntReturn)
    ensures RoutineAt(cfg, name, body, ret) && Sound(p, body)
  {
    hide RoutineAt, Sound;
  }

  lemma EntryReady(st: State, sc: Scope, at: Level, path: Path)
    requires Ready(st, sc, at)
    ensures Active(st) && |st.stack| == at.depth && |st.ctxs| == at.ctxDepth && st.flags.iff == at.iff
    ensures Ready(st.(stack := st.stack + [path]), NoLoop, Deeper(at))
    ensures Active(st.(stack := st.stack + [path]))
    ensures forall b :: var st1 := st.(ctxs := st.ctxs + [Context(path, st.flags)], flags := st.flags.(iff := b));
              Active(st1) && Ready(st1, NoLoop, at.(ctxDepth := at.ctxDepth + 1, iff := b))
  {
  }

  lemma StaysActive(st: State, tr: seq<Id>)
    requires Active(st)
    ensures Active(st.(trace := tr))
  {
  }

  lemma NotYet(cfg: Config, st: State, sc: Scope, at: Level, path: Path, next: Path)
    requires Ready(st, sc, at) && path != []
    ensures Lands(cfg, Result(Timeout, st.trace), st, sc, next, RunTurns(cfg, At(cfg, st, path), 0), 0, 0)
  {
  }

  /** INT and the NOP of the entry. */
  lemma IntEnters(cfg: Config, st: State, path: Path, h: Name, b: bool, body: Src)
    requires RoutineAt(cfg, h, body, IntReturn) && Active(st)
    requires path != [] && Locate(cfg.graph, path) == Hit(Leaf(Interrupt(h, None, b)))
    ensures h in cfg.aliases && cfg.aliases[h] != []
    ensures var fin := RunTurns(cfg, At(cfg, st, path), 1);
            && (st.flags.iff ==> Stopped(fin, NestedInterrupt, st.trace))
            && (!st.flags.iff && |st.ctxs| >= cfg.ctxOvf ==> Stopped(fin, StackOverflow, st.trace))
    ensures !st.flags.iff && |st.ctxs| < cfg.ctxOvf ==>
              RunTurns(cfg, At(cfg, st, path), 2)
              == At(cfg, st.(ctxs := st.ctxs + [Context(path, st.flags)], flags := st.flags.(iff := b)),
                    Parent(cfg.aliases[h]) + [2])
  {
    hide RunTurns, Turn, At, RoutineAt, Locate, Item;
    var st1 := st.(ctxs := st.ctxs + [Context(path, st.flags)], flags := st.flags.(iff := b));
    RoutineSteps(cfg, st1, h, body, IntReturn);
    InterruptTurn(cfg, st, path, h, None, b);
    TurnsPlus(cfg, At(cfg, st, path), 1, 1);
  }

  /** IRET, with the context of an INT on top that saved the address of a leaf. */
  lemma IntLeaves(cfg: Config, st: State, path: Path, h: Name, b: bool, body: Src)
    requires RoutineAt(cfg, h, body, IntReturn) && Active(st)
    requires path != [] && Locate(cfg.graph, path).Hit? && Locate(cfg.graph, path).tree.Leaf?
    ensures var st1 := st.(ctxs := st.ctxs + [Context(path, st.flags)], flags := st.flags.(iff := b));
            RunTurns(cfg, At(cfg, st1, Parent(cfg.aliases[h]) + [3]), 1) == At(cfg, st, Next(cfg.graph, path))
  {
    hide RunTurns, Turn, At, RoutineAt, Item, Next;
    var st1 := st.(ctxs := st.ctxs + [Context(path, st.flags)], flags := st.flags.(iff := b));
    RoutineSteps(cfg, st1, h, body, IntReturn);
    assert Front(st1.ctxs) == st.ctxs && Top(st1.ctxs) == Context(path, st.flags);
    IntReturnTurn(cfg, st1, Parent(cfg.aliases[h]) + [3]);
  }

  /** INT to a handler: IRET restores the flags saved by INT and resumes at the leaf after it. */
  lemma {:induction false} RunInt(p: Program, cfg: Config, h: Name, b: bool, sc: Scope, path: Path, st: State,
      at: Level, fuel: nat)
    returns (k: nat)
    requires Linked(p, cfg) && SoundProgram(p) && h in p.handlers
    requires path != [] && Locate(cfg.graph, path) == Hit(Leaf(Interrupt(h, None, b)))
    requires Ready(st, sc, at)
    ensures Lands(cfg, Eval(p, cfg, false, IntTo(h, b), sc, at, fuel, st.trace), st, sc, Next(cfg.graph, path),
                  RunTurns(cfg, At(cfg, st, path), k), k, fuel)
    decreases fuel, IntTo(h, b), 0, 0
  {
    hide *;
    var body := p.handlers[h];
    var at1 := at.(ctxDepth := at.ctxDepth + 1, iff := b);
    var st1 := st.(ctxs := st.ctxs + [Context(path, st.flags)], flags := st.flags.(iff := b));
    var start, next := At(cfg, st, path), Next(cfg.graph, path);
    var r := if fuel > 0 then EvalItem(p, cfg, false, body, NoLoop, at1, fuel - 1, st.trace)
             else Result(Timeout, st.trace);
    IntMeans(p, cfg, h, b, sc, at, fuel, st.trace);
    RoutineReady(p, cfg, h, body, IntReturn, st, sc, at, path);
    IntEnters(cfg, st, path, h, b, body);
    if at.iff || at.ctxDepth >= cfg.ctxOvf {
      var e := if at.iff then NestedInterrupt else StackOverflow;
      StopLands(cfg, Result(Err(e), st.trace), st, sc, next, RunTurns(cfg, start, 1), 1, fuel);
      k := 1;
    } else if fuel == 0 {
      NotYet(cfg, st, sc, at, path, next);
      k := 0;
    } else {
      var q := Parent(cfg.aliases[h]);
      RoutineSteps(cfg, st1, h, body, IntReturn);
      var k2 := RunItem(p, cfg, body, NoLoop, q + [2], st1, at1, fuel - 1);
      StaysActive(st, r.trace);
      IntLeaves(cfg, st.(trace := r.trace), path, h, b, body);
      k := RoutineLands(cfg, r, st, st1, sc, q + [2], q + [3], next, start, k2, fuel);
    }
  }

  // ----- loops -----

  /** The part common to both loops: a body slot entered with the loop's frame on the stack. */
  lemma {:induction false} RunBody(p: Program, cfg: Config, body: Src, sc: Scope, q: Path, slot: nat,
      st: State, at: Level, fuel: nat)
    returns (k: nat)
    requires Linked(p, cfg) && SoundProgram(p) && Sound(p, body) && sc.InLoop?
    requires Locate(cfg.graph, q + [slot]) == Hit(Box(LoopBody(body, sc)))
    requires Ready(st, sc, Deeper(at)) && Top(st.stack) == q + [0]
    ensures var r := Eval(p, cfg, false, body, sc, Deeper(at), fuel, st.trace);
            var fin := RunTurns(cfg, At(cfg, st, q + [slot, 0]), k);
            var out := st.(trace := r.trace, stack := Front(st.stack));
            match r.out
            case Broke => fin == At(cfg, out, q + [sc.exit])
            case Err(e) => fin.status == StopOf(e) && fin.trace == r.trace
            case Timeout => fin.status == Running && fin.trace == r.trace && k >= fuel
            case _ => fin == At(cfg, out, q + [sc.head])
    decreases fuel, body, 4, 0
  {
    hide *;
    var kids := LoopBody(body, sc);
    var n := |Slot(body, sc)|;
    var r := Eval(p, cfg, false, body, sc, Deeper(at), fuel, st.trace);
    var end := (q + [slot]) + [n];
    BodyEnds(cfg.graph, body, sc, q, slot);
    BodyFrame(cfg, st, Deeper(at), sc, r.trace);
    k := RunSlot(p, cfg, body, sc, q + [slot], kids, st, Deeper(at), fuel);
    var start := At(cfg, st, q + [slot, 0]);
    if r.out.Normal? {
      ControlTurn(cfg, st.(trace := r.trace), end, sc.head);
      TurnsPlus(cfg, start, k, 1);
      BodyLoops(cfg, r, st, sc, q, end, start, k, fuel);
      k := k + 1;
    } else {
      BodyLeft(cfg, r, st, sc, q, end, RunTurns(cfg, start, k), k, fuel);
    }
  }

  /** A loop body ends with the node that jumps back to the loop's head. */
  lemma BodyEnds(g: Tree<Instr>, body: Src, sc: Scope, q: Path, slot: nat)
    requires sc.InLoop? && Locate(g, q + [slot]) == Hit(Box(LoopBody(body, sc)))
    ensures var n := |Slot(body, sc)|;
            && Slot(body, sc) <= LoopBody(body, sc)
            && After(g, q + [slot], 0) == q + [slot, 0]
            && After(g, q + [slot], n) == (q + [slot]) + [n] != []
            && Locate(g, (q + [slot]) + [n]) == Hit(Leaf(Control(Some(sc.head))))
  {
    hide Slot;
    assert q + [slot, 0] == (q + [slot]) + [0];
    Child(g, q + [slot], LoopBody(body, sc), |Slot(body, sc)|);
  }

  lemma BodyFrame(cfg: Config, st: State, at: Level, sc: Scope, tr: seq<Id>)
    requires sc.InLoop? && Ready(st, sc, at)
    ensures st.stack != [] && st.(trace := tr).stack == st.stack && Active(st.(trace := tr))
  {
  }

  lemma BodyLoops(cfg: Config, r: Result, st: State, sc: Scope, q: Path, end: Path, start: State, k: nat, fuel: nat)
    requires sc.InLoop? && st.stack != [] && Top(st.stack) == q + [0] && r.out.Normal?
    requires Lands(cfg, r, st, sc, end, RunTurns(cfg, start, k), k, fuel)
    requires RunTurns(cfg, At(cfg, st.(trace := r.trace), end), 1)
          == At(cfg, st.(trace := r.trace, stack := Front(st.stack)), Slice(Top(st.stack)) + [sc.head])
    requires RunTurns(cfg, start, k + 1) == RunTurns(cfg, RunTurns(cfg, start, k), 1)
    ensures RunTurns(cfg, start, k + 1) == At(cfg, st.(trace := r.trace, stack := Front(st.stack)), q + [sc.head])
  {
    hide RunTurns, At;
    assert Slice(q + [0]) == q;
  }

  lemma BodyLeft(cfg: Config, r: Result, st: State, sc: Scope, q: Path, end: Path, fin: State, k: nat, fuel: nat)
    requires sc.InLoop? && st.stack != [] && Top(st.stack) == q + [0] && !r.out.Normal?
    requires Lands(cfg, r, st, sc, end, fin, k, fuel)
    ensures var out := st.(trace := r.trace, stack := Front(st.stack));
            match r.out
            case Broke => fin == At(cfg, out, q + [sc.exit])
            case Continued => fin == At(cfg, out, q + [sc.head])
            case Err(e) => fin.status == StopOf(e) && fin.trace == r.trace
            case Timeout => fin.status == Running && fin.trace == r.trace && k >= fuel
            case Normal => true
  {
    hide RunTurns, At;
    assert Slice(q + [0]) == q;
  }

  lemma {:induction false} RunWhile(p: Program, cfg: Config, s: Src, sc: Scope, q: Path, kids: seq<Tree<Instr>>,
                                    st: State, at: Level, fuel: nat)
    returns (k: nat)
    requires Linked(p, cfg) && SoundProgram(p) && Sound(p, s) && s.While?
    requires Locate(cfg.graph, q) == Hit(Box(kids)) && Parts(s, sc) <= kids
    requires Ready(st, sc, at)
    ensures Lands(cfg, Eval(p, cfg, false, s, sc, at, fuel, st.trace), st, sc, After(cfg.graph, q, 4),
                  RunTurns(cfg, At(cfg, st, q + [0]), k), k, fuel)
    decreases fuel, s, 1, 0
  {
    hide *;
    var start, next := At(cfg, st, q + [0]), After(cfg.graph, q, 4);
    var (test, tr1) := Evaluate(cfg, at, s.cond, st.trace);
    WhileKids(s, sc, q, kids, cfg.graph);
    WhileMeans(p, cfg, s, sc, at, fuel, st);
    LinkedNest(p, cfg);
    WhileTurn(cfg, st, q, s.cond, at);
    k := 1;
    if test == Ret(true) && fuel > 0 {
      var k1 := RunRound(p, cfg, s, sc, q, kids, st, at, fuel);
      TurnsPlus(cfg, start, 1, k1);
      k := 1 + k1;
    } else if test == Ret(true) {
      OutOfFuel(cfg, st, sc, s.cond, q, next, RunTurns(cfg, start, 1));
    } else if test == Ret(false) {
      Closing(cfg, Result(Normal, tr1), st, sc, q, 3, start, 1, fuel);
      k := 2;
    } else {
      StopLands(cfg, Result(Err(test.exn), tr1), st, sc, next, RunTurns(cfg, start, 1), 1, fuel);
    }
  }

  lemma WhileMeans(p: Program, cfg: Config, s: Src, sc: Scope, at: Level, fuel: nat, st: State)
    requires s.While? && Sound(p, s) && Ready(st, sc, at)
    ensures WHILE_SCOPE == InLoop(0, 3)
    ensures Active(st) && |st.stack| == at.depth && Sound(p, s.body)
    ensures Evaluate(cfg, at, s.cond, st.trace).0.Ret? ==>
              Evaluate(cfg, at, s.cond, st.trace).1 == st.trace + [s.cond]
    ensures Eval(p, cfg, false, s, sc, at, fuel, st.trace)
         == match Evaluate(cfg, at, s.cond, st.trace)
            case (Throw(e), tr1) => Result(Err(e), tr1)
            case (Ret(false), tr1) => Result(Normal, tr1)
            case (Ret(true), tr1) =>
              if fuel == 0 then Result(Timeout, tr1)
              else
                var r := Eval(p, cfg, false, s.body, WHILE_SCOPE, Deeper(at), fuel - 1, tr1);
                if r.out.Broke? then Result(Normal, r.trace)
                else if r.out.Normal? || r.out.Continued? then Eval(p, cfg, false, s, sc, at, fuel - 1, r.trace)
                else r
  {
    hide EvalSeq, EvalIf, EvalItem, EvalClause, EvalNode;
  }

  /** Out of fuel with the loop's frame on the stack. */
  lemma OutOfFuel(cfg: Config, st: State, sc: Scope, c: Id, q: Path, next: Path, fin: State)
    requires Active(st) && fin == At(cfg, st.(trace := st.trace + [c], stack := st.stack + [q + [0]]), q + [2, 0])
    ensures Lands(cfg, Result(Timeout, st.trace + [c]), st, sc, next, fin, 1, 0)
  {
  }

  /** One round of a loop whose condition holds, and the rounds after it. */
  lemma {:induction false} RunRound(p: Program, cfg: Config, s: Src, sc: Scope, q: Path, kids: seq<Tree<Instr>>,
                                    st: State, at: Level, fuel: nat)
    returns (k: nat)
    requires Linked(p, cfg) && SoundProgram(p) && Sound(p, s) && s.While? && fuel > 0
    requires Locate(cfg.graph, q) == Hit(Box(kids)) && Parts(s, sc) <= kids
    requires Ready(st, sc, at) && Evaluate(cfg, at, s.cond, st.trace).0 == Ret(true)
    ensures var st1 := st.(trace := st.trace + [s.cond], stack := st.stack + [q + [0]]);
            Lands(cfg, Eval(p, cfg, false, s, sc, at, fuel, st.trace), st, sc, After(cfg.graph, q, 4),
                  RunTurns(cfg, At(cfg, st1, q + [2, 0]), k), k + 1, fuel)
    decreases fuel, s, 0, 0
  {
    hide *;
    var tr1 := st.trace + [s.cond];
    var st0 := st.(trace := tr1);
    var st1 := st.(trace := tr1, stack := st.stack + [q + [0]]);
    var start, next := At(cfg, st1, q + [2, 0]), After(cfg.graph, q, 4);
    WhileKids(s, sc, q, kids, cfg.graph);
    WhileMeans(p, cfg, s, sc, at, fuel, st);
    ReadyLater(st, sc, at, tr1);
    LoopFrame(st0, sc, at, q, WHILE_SCOPE);
    var r := Eval(p, cfg, false, s.body, WHILE_SCOPE, Deeper(at), fuel - 1, tr1);
    k := RunBody(p, cfg, s.body, WHILE_SCOPE, q, 2, st1, at, fuel - 1);
    var st2 := st.(trace := r.trace);
    ReadyLater(st, sc, at, r.trace);
    if r.out.Broke? {
      Closing(cfg, Result(Normal, r.trace), st, sc, q, 3, start, k, fuel);
      LandsLater(cfg, Result(Normal, r.trace), st, sc, next, RunTurns(cfg, start, k + 1), k + 1, k + 2, fuel);
      k := k + 1;
    } else if r.out.Normal? || r.out.Continued? {
      var k2 := RunWhile(p, cfg, s, sc, q, kids, st2, at, fuel - 1);
      var r2 := Eval(p, cfg, false, s, sc, at, fuel - 1, r.trace);
      Onward(cfg, r.trace, r2, st, sc, q + [0], next, start, k, k2, fuel);
      k := k + k2;
    } else {
      Abandoned(cfg, r, st, sc, next, RunTurns(cfg, start, k), k + 1, fuel);
    }
  }

  lemma WhileKids(s: Src, sc: Scope, q: Path, kids: seq<Tree<Instr>>, g: Tree<Instr>)
    requires s.While? && Parts(s, sc) <= kids && Locate(g, q) == Hit(Box(kids))
    ensures |kids| >= 4 && kids[3] == Leaf(Nop)
    ensures Locate(g, q + [0]) == Hit(Leaf(WhileHead(1, 2, 0, 3)))
    ensures Locate(g, q + [1]) == Hit(Leaf(Act(s.cond)))
    ensures Locate(g, q + [2]) == Hit(Box(LoopBody(s.body, WHILE_SCOPE)))
  {
    var parts := Parts(s, sc);
    assert kids[0] == parts[0] && kids[1] == parts[1] && kids[2] == parts[2] && kids[3] == parts[3];
    Child(g, q, kids, 0);
    Child(g, q, kids, 1);
    Child(g, q, kids, 2);
  }

  lemma DoKids(s: Src, sc: Scope, q: Path, kids: seq<Tree<Instr>>, g: Tree<Instr>)
    requires s.DoWhile? && Parts(s, sc) <= kids && Locate(g, q) == Hit(Box(kids))
    ensures |kids| >= 5 && kids[4] == Leaf(Nop)
    ensures Locate(g, q + [0]) == Hit(Leaf(EnterBody(1, true)))
    ensures Locate(g, q + [1]) == Hit(Box(LoopBody(s.body, DO_SCOPE)))
    ensures Locate(g, q + [2]) == Hit(Leaf(DoCheck(1, 0, 4)))
    ensures Locate(g, q + [3]) == Hit(Leaf(Act(s.cond)))
  {
    var parts := Parts(s, sc);
    assert kids[0] == parts[0] && kids[1] == parts[1] && kids[2] == parts[2];
    assert kids[3] == parts[3] && kids[4] == parts[4];
    Child(g, q, kids, 0);
    Child(g, q, kids, 1);
    Child(g, q, kids, 2);
    Child(g, q, kids, 3);
  }

  lemma {:induction false} RunDo(p: Program, cfg: Config, s: Src, sc: Scope, q: Path, kids: seq<Tree<Instr>>,
                                 st: State, at: Level, fuel: nat)
    returns (k: nat)
    requires Linked(p, cfg) && SoundProgram(p) && Sound(p, s) && s.DoWhile?
    requires Locate(cfg.graph, q) == Hit(Box(kids)) && Parts(s, sc) <= kids
    requires Ready(st, sc, at)
    ensures Lands(cfg, Eval(p, cfg, false, s, sc, at, fuel, st.trace), st, sc, After(cfg.graph, q, 5),
                  RunTurns(cfg, At(cfg, st, q + [0]), k), k, fuel)
    decreases fuel, s, 1, 0
  {
    hide *;
    var start, next := At(cfg, st, q + [0]), After(cfg.graph, q, 5);
    DoKids(s, sc, q, kids, cfg.graph);
    DoMeans(p, cfg, s, sc, at, fuel, st);
    EnterTurn(cfg, st, q, 0, 1, true);
    if at.depth >= cfg.ovf {
      StopLands(cfg, Result(Err(StackOverflow), st.trace), st, sc, next, RunTurns(cfg, start, 1), 1, fuel);
      k := 1;
    } else if fuel == 0 {
      NotYet(cfg, st, sc, at, q + [0], next);
      k := 0;
    } else {
      var st1 := st.(stack := st.stack + [q + [0]]);
      LoopFrame(st, sc, at, q, DO_SCOPE);
      var r := Eval(p, cfg, false, s.body, DO_SCOPE, Deeper(at), fuel - 1, st.trace);
      var k1 := RunBody(p, cfg, s.body, DO_SCOPE, q, 1, st1, at, fuel - 1);
      TurnsPlus(cfg, start, 1, k1);
      var st2 := st.(trace := r.trace);
      ReadyLater(st, sc, at, r.trace);
      if r.out.Broke? {
        Closing(cfg, Result(Normal, r.trace), st, sc, q, 4, start, 1 + k1, fuel);
        k := k1 + 2;
      } else if r.out.Normal? || r.out.Continued? {
        var k2 := RunDoCheck(p, cfg, s, sc, q, kids, st2, at, fuel);
        var r2 := DoRest(p, cfg, s, sc, at, fuel, r.trace);
        Resume(cfg, r.trace, r2, st, sc, q + [2], next, start, 1 + k1, k2, fuel);
        k := 1 + k1 + k2;
      } else {
        Abandoned(cfg, r, st, sc, next, RunTurns(cfg, start, 1 + k1), 1 + k1, fuel);
        k := 1 + k1;
      }
    }
  }

  /** What follows an iteration of a DO loop: its condition, and the iterations that start. */
  function DoRest(p: Program, cfg: Config, s: Src, sc: Scope, at: Level, fuel: nat, tr: seq<Id>): Result
    requires s.DoWhile? && fuel > 0
  {
    var test := Evaluate(cfg, at, s.cond, tr);
    if test.0.Throw? then Result(Err(test.0.exn), test.1)
    else if test.0.value then Eval(p, cfg, false, s, sc, at, fuel - 1, test.1)
    else Result(Normal, test.1)
  }

  lemma DoMeans(p: Program, cfg: Config, s: Src, sc: Scope, at: Level, fuel: nat, st: State)
    requires s.DoWhile? && Sound(p, s) && Ready(st, sc, at)
    ensures DO_SCOPE == InLoop(2, 4)
    ensures Active(st) && |st.stack| == at.depth && Sound(p, s.body)
    ensures Eval(p, cfg, false, s, sc, at, fuel, st.trace)
         == if at.depth >= cfg.ovf then Result(Err(StackOverflow), st.trace)
            else if fuel == 0 then Result(Timeout, st.trace)
            else
              var r := Eval(p, cfg, false, s.body, DO_SCOPE, Deeper(at), fuel - 1, st.trace);
              if r.out.Broke? then Result(Normal, r.trace)
              else if r.out.Normal? || r.out.Continued? then DoRest(p, cfg, s, sc, at, fuel, r.trace)
              else r
  {
    hide EvalSeq, EvalIf, EvalItem, EvalClause, EvalNode;
  }

  /** A loop's frame on the stack. */
  lemma LoopFrame(st: State, sc: Scope, at: Level, q: Path, loop: Scope)
    requires Ready(st, sc, at) && loop.InLoop?
    ensures var st1 := st.(stack := st.stack + [q + [0]]);
            && Ready(st1, loop, Deeper(at)) && Top(st1.stack) == q + [0] && Front(st1.stack) == st.stack
            && forall tr :: st1.(trace := tr, stack := st.stack) == st.(trace := tr)
  {
  }

  /** The condition of a DO loop after an iteration, and the iterations it starts. */
  lemma {:induction false} RunDoCheck(p: Program, cfg: Config, s: Src, sc: Scope, q: Path, kids: seq<Tree<Instr>>,
                                      st: State, at: Level, fuel: nat)
    returns (k: nat)
    requires Linked(p, cfg) && SoundProgram(p) && Sound(p, s) && s.DoWhile? && fuel > 0
    requires Locate(cfg.graph, q) == Hit(Box(kids)) && Parts(s, sc) <= kids
    requires Ready(st, sc, at) && at.depth < cfg.ovf
    ensures Lands(cfg, DoRest(p, cfg, s, sc, at, fuel, st.trace), st, sc, After(cfg.graph, q, 5),
                  RunTurns(cfg, At(cfg, st, q + [2]), k), k, fuel)
    decreases fuel, s, 0, 0
  {
    hide *;
    var start, next := At(cfg, st, q + [2]), After(cfg.graph, q, 5);
    var (test, tr1) := Evaluate(cfg, at, s.cond, st.trace);
    DoKids(s, sc, q, kids, cfg.graph);
    DoMeans(p, cfg, s, sc, at, fuel, st);
    RestMeans(p, cfg, s, sc, at, fuel, st.trace);
    LinkedNest(p, cfg);
    CheckTurn(cfg, st, q, s.cond, at);
    k := 1;
    if test == Ret(true) {
      ReadyLater(st, sc, at, tr1);
      var k1 := RunDo(p, cfg, s, sc, q, kids, st.(trace := tr1), at, fuel - 1);
      var r := Eval(p, cfg, false, s, sc, at, fuel - 1, tr1);
      Onward(cfg, tr1, r, st, sc, q + [0], next, start, 1, k1, fuel);
      k := 1 + k1;
    } else if test == Ret(false) {
      Closing(cfg, Result(Normal, tr1), st, sc, q, 4, start, 1, fuel);
      k := 2;
    } else {
      StopLands(cfg, Result(Err(test.exn), tr1), st, sc, next, RunTurns(cfg, start, 1), 1, fuel);
    }
  }

  lemma RestMeans(p: Program, cfg: Config, s: Src, sc: Scope, at: Level, fuel: nat, tr: seq<Id>)
    requires s.DoWhile? && fuel > 0
    ensures DoRest(p, cfg, s, sc, at, fuel, tr)
         == match Evaluate(cfg, at, s.cond, tr)
            case (Throw(e), tr1) => Result(Err(e), tr1)
            case (Ret(b), tr1) => if b then Eval(p, cfg, false, s, sc, at, fuel - 1, tr1) else Result(Normal, tr1)
  {
    hide Eval, Evaluate;
  }

  lemma LinkedNest(p: Program, cfg: Config)
    requires Linked(p, cfg)
    ensures cfg.nest >= 1
  {
    hide RoutineAt;
  }

  // ----- branches -----

  /** Where the pieces of an extracted NATIVE_IF are. */
  lemma IfKids(s: Src, sc: Scope, kids: seq<Tree<Instr>>)
    requires s.If? && Parts(s, sc) <= kids
    ensures |kids| > MergePos(s) > 3 * |s.arms| && kids[MergePos(s)] == Leaf(Nop)
    ensures |Parts(s, sc)| == MergePos(s) + 1
    ensures kids[3 * |s.arms|..MergePos(s)] == ElseParts(s, sc)
    ensures forall k | 0 <= k < |s.arms| ::
              && kids[3 * k] == Leaf(HeadOf(s, k))
              && kids[3 * k + 1] == Leaf(Act(s.arms[k].cond))
              && kids[3 * k + 2] == Nested(s.arms[k].body, sc)
  {
    var a, e := ArmParts(s, 0, sc), ElseParts(s, sc);
    assert kids[..MergePos(s) + 1] == a + e + [Leaf(Nop)];
    assert kids[3 * |s.arms|..MergePos(s)] == e;
    forall k | 0 <= k < |s.arms|
      ensures && kids[3 * k] == Leaf(HeadOf(s, k))
              && kids[3 * k + 1] == Leaf(Act(s.arms[k].cond))
              && kids[3 * k + 2] == Nested(s.arms[k].body, sc)
    {
      ArmAt(s, 0, sc, k);
    }
  }

  lemma {:induction false} ArmAt(s: Src, j: nat, sc: Scope, k: nat)
    requires s.If? && j <= k < |s.arms|
    ensures var a := ArmParts(s, j, sc);
            var body := s.arms[k].body;
            && a[3 * (k - j)] == Leaf(HeadOf(s, k))
            && a[3 * (k - j) + 1] == Leaf(Act(s.arms[k].cond))
            && a[3 * (k - j) + 2] == Nested(body, sc)
    decreases k - j
  {
    if j < k {
      ArmAt(s, j + 1, sc, k);
    }
  }

  /** The body of a branch or of an ELSE inside its own container, entered by a jump to its first child. */
  lemma {:induction false} RunBubble(p: Program, cfg: Config, body: Src, sc: Scope, path: Path, st: State,
      at: Level, fuel: nat)
    returns (k: nat)
    requires Linked(p, cfg) && SoundProgram(p) && Sound(p, body) && !Single(body)
    requires path != [] && Locate(cfg.graph, path) == Hit(Box(Parts(body, sc)))
    requires Ready(st, sc, at)
    ensures Lands(cfg, EvalBubble(p, cfg, false, body, sc, at, fuel, st.trace), st, sc, Next(cfg.graph, path),
                  RunTurns(cfg, At(cfg, st, path + [0]), k), k, fuel)
    decreases fuel, body, 3, 0
  {
    if body == Block([]) {
      LocateChild(cfg.graph, path, 0);
      k := 1;
      assert RunTurns(cfg, Turn(cfg, At(cfg, st, path + [0])), 0) == Turn(cfg, At(cfg, st, path + [0]));
    } else {
      PartsNonEmpty(body, sc);
      k := RunSlot(p, cfg, body, sc, path, Parts(body, sc), st, at, fuel);
    }
  }

  lemma {:induction false} RunElse(p: Program, cfg: Config, s: Src, sc: Scope, q: Path, kids: seq<Tree<Instr>>,
                                   st: State, at: Level, fuel: nat)
    returns (k: nat)
    requires Linked(p, cfg) && SoundProgram(p) && Sound(p, s) && s.If?
    requires Locate(cfg.graph, q) == Hit(Box(kids)) && MergePos(s) < |kids| && kids[MergePos(s)] == Leaf(Nop)
    requires kids[3 * |s.arms|..MergePos(s)] == ElseParts(s, sc)
    requires Ready(st, sc, at)
    ensures Lands(cfg, EvalIf(p, cfg, false, s, |s.arms|, sc, at, fuel, st.trace), st, sc,
                  After(cfg.graph, q, MergePos(s) + 1),
                  RunTurns(cfg, At(cfg, st, q + [3 * |s.arms|]), k), k, fuel)
    decreases fuel, s, 0, 0
  {
    hide *;
    var e := 3 * |s.arms|;
    var start, next := At(cfg, st, q + [e]), After(cfg.graph, q, MergePos(s) + 1);
    ElseShape(cfg, s, sc, q, kids, st, at);
    ElseMeans(p, cfg, s, sc, at, fuel, st.trace);
    if s.els.None? {
      CloseTurn(cfg, st, q, e);
      Closing(cfg, Result(Normal, st.trace), st, sc, q, MergePos(s), start, 1, fuel);
      k := 2;
    } else {
      var body := s.els.value;
      var r := EvalBubble(p, cfg, false, body, sc, at, fuel, st.trace);
      var mid := q + [MergePos(s)];
      if Single(body) {
        k := RunSingle(p, cfg, body, sc, q + [e], st, at, fuel);
        NextIsAfter(cfg, st.(trace := r.trace), q, e);
      } else {
        EnterTurn(cfg, st, q, e, e + 1, false);
        var k1 := RunBubble(p, cfg, body, sc, q + [e + 1], st, at, fuel);
        Resume(cfg, st.trace, r, st, sc, q + [e + 1, 0], Next(cfg.graph, q + [e + 1]), start, 1, k1, fuel);
        k := 1 + k1;
        NextIsAfter(cfg, st.(trace := r.trace), q, e + 1);
      }
      var last := if Single(body) then e else e + 1;
      if r.out.Normal? {
        CameOut(cfg, r, st, sc, Next(cfg.graph, q + [last]), mid, start, k, fuel);
        Closing(cfg, r, st, sc, q, MergePos(s), start, k, fuel);
        k := k + 1;
      } else {
        Elsewhere(cfg, r, st, sc, Next(cfg.graph, q + [last]), next, RunTurns(cfg, start, k), k, fuel);
      }
    }
  }

  lemma CameOut(cfg: Config, r: Result, st: State, sc: Scope, next: Path, mid: Path, start: State, k: nat, fuel: nat)
    requires r.out.Normal? && Lands(cfg, r, st, sc, next, RunTurns(cfg, start, k), k, fuel)
    requires At(cfg, st.(trace := r.trace), next) == At(cfg, st.(trace := r.trace), mid)
    ensures RunTurns(cfg, start, k) == At(cfg, st.(trace := r.trace), mid)
  {
  }

  lemma ElseMeans(p: Program, cfg: Config, s: Src, sc: Scope, at: Level, fuel: nat, tr: seq<Id>)
    requires s.If? && Sound(p, s)
    ensures s.els.None? ==> EvalIf(p, cfg, false, s, |s.arms|, sc, at, fuel, tr) == Result(Normal, tr)
    ensures s.els.Some? ==>
              && Sound(p, s.els.value)
              && EvalIf(p, cfg, false, s, |s.arms|, sc, at, fuel, tr)
                 == EvalBubble(p, cfg, false, s.els.value, sc, at, fuel, tr)
              && (Single(s.els.value) ==>
                    EvalBubble(p, cfg, false, s.els.value, sc, at, fuel, tr)
                    == Eval(p, cfg, false, s.els.value, sc, at, fuel, tr))
  {
    hide Eval;
  }

  /** What stands in the slots of an ELSE, and where it ends. */
  lemma ElseShape(cfg: Config, s: Src, sc: Scope, q: Path, kids: seq<Tree<Instr>>, st: State, at: Level)
    requires s.If? && Locate(cfg.graph, q) == Hit(Box(kids)) && Ready(st, sc, at)
    requires MergePos(s) < |kids| && kids[MergePos(s)] == Leaf(Nop)
    requires kids[3 * |s.arms|..MergePos(s)] == ElseParts(s, sc)
    ensures var e := 3 * |s.arms|;
            && Active(st) && e < MergePos(s) == e + ElseWidth(s.els)
            && After(cfg.graph, q, MergePos(s)) == q + [MergePos(s)]
            && (s.els.None? ==> MergePos(s) == e + 1 && kids[e] == Leaf(Nop))
            && (s.els.Some? && Single(s.els.value) ==>
                  && MergePos(s) == e + 1 && q + [e] != []
                  && Locate(cfg.graph, q + [e]) == Hit(Leaf(NodeOf(s.els.value, sc))))
            && (s.els.Some? && !Single(s.els.value) ==>
                  && MergePos(s) == e + 2 && q + [e + 1] != []
                  && Locate(cfg.graph, q + [e]) == Hit(Leaf(EnterBody(e + 1, false)))
                  && Locate(cfg.graph, q + [e + 1]) == Hit(Box(Parts(s.els.value, sc)))
                  && (q + [e + 1]) + [0] == q + [e + 1, 0])
  {
    hide Parts, Next;
    var e := 3 * |s.arms|;
    var parts := ElseParts(s, sc);
    assert kids[e] == parts[0];
    Child(cfg.graph, q, kids, e);
    if s.els.Some? && !Single(s.els.value) {
      assert kids[e + 1] == parts[1];
      Child(cfg.graph, q, kids, e + 1);
    }
  }

  lemma {:induction false} RunIf(p: Program, cfg: Config, s: Src, j: nat, sc: Scope, q: Path, kids: seq<Tree<Instr>>,
                                 st: State, at: Level, fuel: nat)
    returns (k: nat)
    requires Linked(p, cfg) && SoundProgram(p) && Sound(p, s) && s.If? && j <= |s.arms|
    requires Locate(cfg.graph, q) == Hit(Box(kids)) && Parts(s, sc) <= kids
    requires Ready(st, sc, at)
    ensures Lands(cfg, EvalIf(p, cfg, false, s, j, sc, at, fuel, st.trace), st, sc,
                  After(cfg.graph, q, MergePos(s) + 1),
                  RunTurns(cfg, At(cfg, st, q + [3 * j]), k), k, fuel)
    decreases fuel, s, 1, 2 * (|s.arms| - j)
  {
    hide *;
    IfKids(s, sc, kids);
    IfStep(p, cfg, s, j, sc, at, fuel, st);
    if j == |s.arms| {
      k := RunElse(p, cfg, s, sc, q, kids, st, at, fuel);
    } else {
      var b := 3 * j;
      var start, next := At(cfg, st, q + [b]), After(cfg.graph, q, MergePos(s) + 1);
      var Arm(c, body) := s.arms[j];
      Child(cfg.graph, q, kids, b);
      Child(cfg.graph, q, kids, b + 1);
      LinkedNest(p, cfg);
      BranchTurn(cfg, st, q, b, HeadOf(s, j), c, at);
      k := 1;
      var (test, tr1) := Evaluate(cfg, at, c, st.trace);
      var st1 := st.(trace := tr1);
      ReadyLater(st, sc, at, tr1);
      if test == Ret(false) {
        var k1 := RunRefused(p, cfg, s, j, sc, q, kids, st1, at, fuel);
        Resume(cfg, tr1, EvalIf(p, cfg, false, s, j + 1, sc, at, fuel, tr1), st, sc, q + [HeadOf(s, j).falsePos], next,
               start, 1, k1, fuel);
        k := 1 + k1;
      } else if test == Ret(true) && Single(body) {
        k := RunCalledArm(p, cfg, s, j, sc, q, kids, st, at, fuel);
      } else if test == Ret(true) {
        var k1 := RunTaken(p, cfg, s, j, sc, q, kids, st1, at, fuel);
        Resume(cfg, tr1, EvalIf(p, cfg, false, s, j, sc, at, fuel, st.trace), st, sc, q + [b + 2, 0], next,
               start, 1, k1, fuel);
        k := 1 + k1;
      } else {
        StopLands(cfg, Result(Err(test.exn), tr1), st, sc, next, RunTurns(cfg, start, 1), 1, fuel);
      }
    }
  }

  /** The head of a branch, and what each answer of its condition means. */
  lemma IfStep(p: Program, cfg: Config, s: Src, j: nat, sc: Scope, at: Level, fuel: nat, st: State)
    requires s.If? && j <= |s.arms| && Ready(st, sc, at)
    ensures Active(st) && |st.stack| == at.depth
    ensures j < |s.arms| ==>
              var head := HeadOf(s, j);
              && head.IfHead? && head.condOff == 1 && head.doOff == 2 && head.doPos == 3 * j + 2
              && head.retPos == MergePos(s) && head.single == Single(s.arms[j].body)
    ensures j < |s.arms| ==>
              var test := Evaluate(cfg, at, s.arms[j].cond, st.trace);
              var r := EvalBubble(p, cfg, false, s.arms[j].body, sc, at, fuel, test.1);
              EvalIf(p, cfg, false, s, j, sc, at, fuel, st.trace)
              == if test.0.Throw? then Result(Err(test.0.exn), test.1)
                 else if !test.0.value then EvalIf(p, cfg, false, s, j + 1, sc, at, fuel, test.1)
                 else if r.out.Normal? && !Single(s.arms[j].body) then
                   EvalIf(p, cfg, false, s, j + 1, sc, at, fuel, r.trace)
                 else r
  {
    hide EvalBubble;
  }

  /** A branch whose condition failed: on to the next branch, the ELSE, or straight to the merge point. */
  lemma {:induction false} RunRefused(p: Program, cfg: Config, s: Src, j: nat, sc: Scope, q: Path,
      kids: seq<Tree<Instr>>,
                                      st: State, at: Level, fuel: nat)
    returns (k: nat)
    requires Linked(p, cfg) && SoundProgram(p) && Sound(p, s) && s.If? && j < |s.arms|
    requires Locate(cfg.graph, q) == Hit(Box(kids)) && Parts(s, sc) <= kids
    requires Ready(st, sc, at)
    ensures Lands(cfg, EvalIf(p, cfg, false, s, j + 1, sc, at, fuel, st.trace), st, sc,
                  After(cfg.graph, q, MergePos(s) + 1),
                  RunTurns(cfg, At(cfg, st, q + [HeadOf(s, j).falsePos]), k), k, fuel)
    decreases fuel, s, 1, 2 * (|s.arms| - j) - 1
  {
    hide Turn, RunTurns, Next, Descend, Item, Parts, ElseParts, ArmParts, Slot;
    if HeadOf(s, j).falsePos == 3 * (j + 1) {
      k := RunIf(p, cfg, s, j + 1, sc, q, kids, st, at, fuel);
    } else {
      IfKids(s, sc, kids);
      CloseTurn(cfg, st, q, MergePos(s));
      k := 1;
    }
  }

  /** A taken branch in its own container; when it completes, flow runs on into the next branch. */
  lemma {:induction false} RunTaken(p: Program, cfg: Config, s: Src, j: nat, sc: Scope, q: Path, kids: seq<Tree<Instr>>,
                                    st: State, at: Level, fuel: nat)
    returns (k: nat)
    requires Linked(p, cfg) && SoundProgram(p) && Sound(p, s) && s.If? && j < |s.arms| && !Single(s.arms[j].body)
    requires Locate(cfg.graph, q) == Hit(Box(kids)) && Parts(s, sc) <= kids
    requires Ready(st, sc, at)
    ensures var r := EvalBubble(p, cfg, false, s.arms[j].body, sc, at, fuel, st.trace);
            var r' := if r.out.Normal? then EvalIf(p, cfg, false, s, j + 1, sc, at, fuel, r.trace) else r;
            Lands(cfg, r', st, sc, After(cfg.graph, q, MergePos(s) + 1),
                  RunTurns(cfg, At(cfg, st, q + [3 * j + 2, 0]), k), k, fuel)
    decreases fuel, s, 1, 2 * (|s.arms| - j) - 1
  {
    hide Turn, RunTurns, Next, Descend, Item, Parts, ElseParts, ArmParts, Slot, HeadOf, EvalIf, Eval, EvalBubble,
         SoundProgram;
    IfKids(s, sc, kids);
    var b := 3 * j;
    var body := s.arms[j].body;
    Child(cfg.graph, q, kids, b + 2);
    assert (q + [b + 2]) + [0] == q + [b + 2, 0];
    var r := EvalBubble(p, cfg, false, body, sc, at, fuel, st.trace);
    k := RunBubble(p, cfg, body, sc, q + [b + 2], st, at, fuel);
    if r.out.Normal? {
      var st1 := st.(trace := r.trace);
      NextIsAfter(cfg, st1, q, b + 2);
      var k2 := RunIf(p, cfg, s, j + 1, sc, q, kids, st1, at, fuel);
      TurnsPlus(cfg, At(cfg, st, q + [b + 2, 0]), k, k2);
      k := k + k2;
    }
  }

  /** A taken branch that is a single node: called, then on to the merge point. */
  lemma RunCalledArm(p: Program, cfg: Config, s: Src, j: nat, sc: Scope, q: Path, kids: seq<Tree<Instr>>,
                     st: State, at: Level, fuel: nat)
    returns (k: nat)
    requires Linked(p, cfg) && Sound(p, s) && s.If? && j < |s.arms| && Single(s.arms[j].body)
    requires Locate(cfg.graph, q) == Hit(Box(kids)) && Parts(s, sc) <= kids
    requires Ready(st, sc, at)
    requires Evaluate(cfg, at, s.arms[j].cond, st.trace).0 == Ret(true)
    ensures Lands(cfg, EvalIf(p, cfg, false, s, j, sc, at, fuel, st.trace), st, sc,
                  After(cfg.graph, q, MergePos(s) + 1),
                  RunTurns(cfg, At(cfg, st, q + [3 * j]), k), k, fuel)
  {
    hide *;
    var b := 3 * j;
    var Arm(c, body) := s.arms[j];
    var start, next := At(cfg, st, q + [b]), After(cfg.graph, q, MergePos(s) + 1);
    IfKids(s, sc, kids);
    Child(cfg.graph, q, kids, b);
    Child(cfg.graph, q, kids, b + 1);
    Child(cfg.graph, q, kids, b + 2);
    IfStep(p, cfg, s, j, sc, at, fuel, st);
    ArmNode(p, cfg, s, j, sc, at, fuel, st.trace);
    LinkedNest(p, cfg);
    BranchCallTurn(cfg, st, q, b, HeadOf(s, j), c, NodeOf(body, sc), at);
    k := 1;
    var r := EvalNode(cfg, body, st.trace + [c]);
    if r.out.Normal? {
      Closing(cfg, r, st, sc, q, MergePos(s), start, 1, fuel);
      k := 2;
    } else {
      StopLands(cfg, r, st, sc, next, RunTurns(cfg, start, 1), 1, fuel);
    }
  }

  /** The single node of a branch, called as soon as the condition holds. */
  lemma ArmNode(p: Program, cfg: Config, s: Src, j: nat, sc: Scope, at: Level, fuel: nat, tr: seq<Id>)
    requires s.If? && j < |s.arms| && Single(s.arms[j].body) && Sound(p, s)
    requires Evaluate(cfg, at, s.arms[j].cond, tr).0 == Ret(true)
    ensures var Arm(c, body) := s.arms[j];
            var node := NodeOf(body, sc);
            var tr2 := if node.Act? then tr + [c] + [node.id] else tr + [c];
            var r := EvalNode(cfg, body, tr + [c]);
            && (node.Act? || node.Nop? || node.Suspend?)
            && EvalIf(p, cfg, false, s, j, sc, at, fuel, tr) == r
            && r.trace == tr2 && (r.out.Normal? || r.out.Err?)
            && match (if node.Act? then cfg.oracle(tr2) else if node.Nop? then OK else Throw(Suspended))
               case Ret(_) => r.out.Normal?
               case Throw(e) => r.out == Err(e)
    ensures Nested(s.arms[j].body, sc) == Leaf(NodeOf(s.arms[j].body, sc))
  {
    hide EvalSeq, EvalItem, EvalClause, Parts;
    var body := s.arms[j].body;
    assert Callable(body);
    var tr1 := tr + [s.arms[j].cond];
    assert EvalBubble(p, cfg, false, body, sc, at, fuel, tr1) == EvalNode(cfg, body, tr1);
  }
}
