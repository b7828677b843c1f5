/**
 Nodes that jump or touch a stack when there is nothing to pop, nothing to
 jump to, or a jump pending already: what they raise and what they leave.
 */
module Refusals {
  import opened Options
  import opened Addressing
  import opened Machine
  import opened Turns
  import opened RunStates

  // ----- in the flow -----

  /** The nodes that pop, and nothing to pop: the run ends there. */
  lemma NothingToPop(cfg: Config, st: State, p: Path, i: Instr)
    requires p != [] && Locate(cfg.graph, p) == Hit(Leaf(i)) && Active(st)
    requires (i.Control? && i.target.Some? && st.stack == []) || (i.Return? && st.stack == [])
          || (i.IntReturn? && st.ctxs == [])
    ensures Stopped(RunTurns(cfg, At(cfg, st, p), 1), StackUnderflow, st.trace)
  {
    RaiseTurn(cfg, st, p, i, StackUnderflow);
  }

  /** The nodes that go to an alias, and no such alias or nothing at its address. */
  lemma NowhereToGo(cfg: Config, st: State, p: Path, i: Instr, name: Name)
    requires p != [] && Locate(cfg.graph, p) == Hit(Leaf(i)) && Active(st)
    requires i == JumpTo(name) || i == Call(name) || i == Invoke(name) || (i.Interrupt? && i.entry == name)
    requires name !in cfg.aliases || (i == JumpTo(name) && !Locate(cfg.graph, cfg.aliases[name]).Hit?)
    ensures Stopped(RunTurns(cfg, At(cfg, st, p), 1), NullPointer, st.trace)
  {
    RaiseTurn(cfg, st, p, i, NullPointer);
  }

  /** RET to an address that leads nowhere: the run is over if a leaf is in the way, and panics otherwise. */
  lemma LostReturn(cfg: Config, st: State, p: Path)
    requires p != [] && Locate(cfg.graph, p) == Hit(Leaf(Return)) && Active(st)
    requires st.stack != [] && Top(st.stack) != [] && !Locate(cfg.graph, Top(st.stack)).Hit?
    ensures RunTurns(cfg, At(cfg, st, p), 1).status
         == if Locate(cfg.graph, Top(st.stack)).Through? then Done else Panicked(NullPointer)
  {
    LeafTurn(cfg, st, p, Return);
    hide Turn, RunTurns, CallSub;
  }

  /** An INT with nobody to return to, its call's frame being gone, raises. */
  lemma NobodyToReturnTo(cfg: Config, nest: nat, h: Name, b: bool, st: State)
    requires h in cfg.aliases && st.outer && st.stack == [] && !st.flags.iff
    ensures Exec(cfg, nest, Interrupt(h, None, b), st) == (Throw(BadIndex), st)
  {
  }

  /** A relative jump from an empty pointer raises, with JMP set. */
  lemma EmptyPointer(cfg: Config, nest: nat, i: Instr, st: State)
    requires st.ptr == [] && !st.flags.jmp && (i.JumpNear? || i.JumpOffset?)
    ensures Exec(cfg, nest, i, st) == (Throw(BadIndex), Marked(st))
  {
  }

  // ----- inside a subroutine call -----

  /**
   A called JMP with nothing at its target raises with JMP set: the caller's
   pointer is not put back, and its own jumps no longer count.
   */
  lemma FailedJump(cfg: Config, nest: nat, p: Path, name: Name, st: State)
    requires Locate(cfg.graph, p) == Hit(Leaf(JumpTo(name))) && name in cfg.aliases
    requires !Locate(cfg.graph, cfg.aliases[name]).Hit?
    requires nest >= 1 && !st.flags.jmp && |st.stack| < cfg.ovf
    ensures CallSub(cfg, nest, p, st) == (Throw(NullPointer), Marked(st).(ptr := p, outer := false))
  {
    LeafCall(cfg, nest, p, JumpTo(name), st);
    hide CallSub, Locate;
  }

  /** A called CONTINUE or BREAK_LOOP with no loop frame below the call's: the call has nothing left to pop. */
  lemma FramelessControl(cfg: Config, nest: nat, p: Path, target: nat, st: State)
    requires Locate(cfg.graph, p) == Hit(Leaf(Control(Some(target)))) && st.stack == []
    requires nest >= 1 && !st.flags.jmp && cfg.ovf > 0
    ensures CallSub(cfg, nest, p, st)
         == (Throw(StackUnderflow), Marked(st).(ptr := Slice(st.ptr) + [target], outer := false))
  {
    LeafCall(cfg, nest, p, Control(Some(target)), st);
    hide CallSub, Locate;
  }

  /** A node of this kind called while a jump is pending jumps no more, but its pushes and pops are made. */
  function AfterLate(cfg: Config, i: Instr, p: Path, st: State): Step {
    var here := st.(ptr := p, outer := false);
    match i
    case Control(_) =>
      if st.stack == [] then (Throw(StackUnderflow), here) else (OK, here.(stack := Front(st.stack)))
    case Call(_) =>
      if |st.stack| + 2 > cfg.ovf then (Throw(StackOverflow), here) else (OK, here.(stack := st.stack + [st.ptr]))
    case Interrupt(_, retTo, b) =>
      if st.flags.iff then (Throw(NestedInterrupt), here)
      else if |st.ctxs| >= cfg.ctxOvf then (Throw(StackOverflow), here)
      else
        var back := if retTo.Some? then retTo.value else st.ptr;
        (OK, here.(ctxs := st.ctxs + [Context(back, st.flags)], flags := st.flags.(iff := b)))
    case _ => (OK, here)
  }

  lemma LateNode(cfg: Config, nest: nat, p: Path, i: Instr, st: State)
    requires Locate(cfg.graph, p) == Hit(Leaf(i)) && nest >= 1 && |st.stack| < cfg.ovf
    requires st.flags.jmp && !st.flags.hlt
    requires (i.Control? && i.target.Some?) || ((i.Call? || i.Interrupt? || i.JumpTo?) && i.entry in cfg.aliases)
    ensures CallSub(cfg, nest, p, st) == AfterLate(cfg, i, p, st)
  {
    LeafCall(cfg, nest, p, i, st);
    hide CallSub, Locate;
    var inner := st.(stack := st.stack + [st.ptr], ptr := p, outer := true);
    assert Front(inner.stack + [p]) == inner.stack;
  }

  lemma LateUser(cfg: Config, nest: nat, p: Path, id: Id, st: State)
    requires Locate(cfg.graph, p) == Hit(Leaf(Act(id))) && nest >= 1 && |st.stack| < cfg.ovf
    requires st.flags.jmp && !st.outer
    ensures CallSub(cfg, nest, p, st) == (cfg.oracle(st.trace + [id]), st.(trace := st.trace + [id], ptr := p))
  {
    LeafCall(cfg, nest, p, Act(id), st);
    hide CallSub, Locate;
  }

  /**
   A Try around such a JMP, with a CATCH that takes the error: the handler runs,
   the worker's own jump past the handlers does not count any more, and the
   machine rests on the handler, which flow executes a second time.
   */
  lemma HandlerAgain(cfg: Config, st: State, q: Path, name: Name, cls: ExnClass, h: Id)
    requires var head := TryHead(1, [(cls, 2)], None, None, 3); Locate(cfg.graph, q + [0]) == Hit(Leaf(head))
    requires Locate(cfg.graph, q + [1]) == Hit(Leaf(JumpTo(name))) && Locate(cfg.graph, q + [2]) == Hit(Leaf(Act(h)))
    requires name in cfg.aliases && !Locate(cfg.graph, cfg.aliases[name]).Hit?
    requires cfg.instance(NullPointer, cls) && !cfg.ignored(NullPointer)
    requires Active(st) && cfg.nest >= 1 && |st.stack| < cfg.ovf && cfg.oracle(st.trace + [h]).Ret?
    ensures RunTurns(cfg, At(cfg, st, q + [0]), 1) == At(cfg, st.(trace := st.trace + [h]), q + [2])
  {
    var head := TryHead(1, [(cls, 2)], None, None, 3);
    var here := st.(ptr := q + [0]);
    var failed := Marked(here).(ptr := q + [1]);
    assert NearCopy(q + [0], 1) == q + [1] && NearCopy(q + [1], 2) == q + [2];
    assert FirstCatch(cfg, NullPointer, [(cls, 2)]) == Some(2);
    FailedJump(cfg, cfg.nest, q + [1], name, here);
    LateUser(cfg, cfg.nest, q + [2], h, failed);
    hide CallSub, RunTurns, Turn, Locate, Descend, NearCopy, FirstCatch;
    JumpTurn(cfg, st, q + [0], head, failed.(trace := st.trace + [h], ptr := q + [2]), q + [2]);
  }
}
