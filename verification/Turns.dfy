/**
 The main loop in a form that always rests on a node: after each turn the
 pointer is taken down to the node that runs next. The two forms agree.
 */
module Turns {
  import opened Options
  import opened Addressing
  import opened Machine

  /** Resting at `p`: on the first node below it, or at the end of the run. */
  function At(cfg: Config, st: State, p: Path): State {
    if p == [] then st.(ptr := [], status := Done) else st.(ptr := Descend(cfg.graph, p))
  }

  function Land(cfg: Config, st: State): State {
    if st.status.Running? && !st.flags.hlt then st.(ptr := Descend(cfg.graph, st.ptr)) else st
  }

  function Turn(cfg: Config, st: State): State {
    Land(cfg, Cycle(cfg, st))
  }

  function RunTurns(cfg: Config, st: State, n: nat): State
    decreases n
  {
    if n == 0 then st else RunTurns(cfg, Turn(cfg, st), n - 1)
  }

  lemma {:induction false} TurnsPlus(cfg: Config, st: State, a: nat, b: nat)
    ensures RunTurns(cfg, st, a + b) == RunTurns(cfg, RunTurns(cfg, st, a), b)
    decreases a
  {
    if a > 0 {
      TurnsPlus(cfg, Turn(cfg, st), a - 1, b);
    }
  }

  lemma DescendTwice<T>(g: Tree<T>, p: Path)
    ensures Descend(g, Descend(g, p)) == Descend(g, p)
  {
    if Locate(g, p).Hit? {
      DescendStops(g, p);
    }
  }

  lemma LeafDescends(g: Tree<Instr>, p: Path)
    requires Locate(g, p).Hit? && Locate(g, p).tree.Leaf?
    ensures Descend(g, p) == p
  {
    assert p + [] == p;
  }

  /** A turn does not depend on whether the pointer was taken down beforehand. */
  lemma CycleLand(cfg: Config, st: State)
    requires cfg.graph.Box?
    ensures Cycle(cfg, Land(cfg, st)) == Cycle(cfg, st)
  {
    var g := cfg.graph;
    if st.status.Running? && !st.flags.hlt {
      DescendTwice(g, st.ptr);
      if st.ptr == [] {
        assert Locate(g, []) == Hit(g);
        if IsFull(g) {
          LocateChild(g, [], 0);
          assert [] + [0] == [0];
          EnterHits(g, []);
          assert Descend(g, []) == Descend(g, [0]);
          assert FirstStop(g) != [];
        }
      } else {
        assert Descend(g, st.ptr) != [];
      }
    }
  }

  /** The main loop and its resting form make the same runs. */
  lemma {:induction false} RunIsTurns(cfg: Config, st: State, n: nat)
    requires cfg.graph.Box?
    ensures Land(cfg, Run(cfg, st, n)) == RunTurns(cfg, Land(cfg, st), n)
    decreases n
  {
    if n > 0 {
      CycleLand(cfg, st);
      RunIsTurns(cfg, Cycle(cfg, st), n - 1);
    }
  }

  ghost predicate Active(st: State) {
    st.status.Running? && !st.flags.hlt && !st.flags.jmp && !st.outer
  }

  /** Advancing from a leaf rests at the address that follows it. */
  lemma AdvanceFromLeaf(cfg: Config, st: State, p: Path)
    requires p != [] && Locate(cfg.graph, p).Hit? && Locate(cfg.graph, p).tree.Leaf?
    requires st.status.Running? && !st.flags.hlt && st.ptr == p
    ensures Land(cfg, Advance(cfg, st)) == At(cfg, st, Next(cfg.graph, p))
  {
  }

  /** Executing the leaf at `p`. */
  lemma LeafTurn(cfg: Config, st: State, p: Path, i: Instr)
    requires p != [] && Locate(cfg.graph, p) == Hit(Leaf(i))
    requires st.status.Running? && !st.flags.hlt
    ensures var (out, st') := Exec(cfg, cfg.nest, i, st.(ptr := p));
            Turn(cfg, At(cfg, st, p)) == Land(cfg, Settled(cfg, out, st'))
    ensures RunTurns(cfg, At(cfg, st, p), 1) == Turn(cfg, At(cfg, st, p))
  {
    assert p + [] == p;
    assert Descend(cfg.graph, p) == p;
    assert RunTurns(cfg, Turn(cfg, At(cfg, st, p)), 0) == Turn(cfg, At(cfg, st, p));
  }

  /** A turn on a leaf the pointer addresses directly. */
  lemma LeafCycle(cfg: Config, st: State, p: Path, i: Instr)
    requires p != [] && Locate(cfg.graph, p) == Hit(Leaf(i)) && st.ptr == p
    requires st.status.Running? && !st.flags.hlt
    ensures var (out, st') := Exec(cfg, cfg.nest, i, st); Cycle(cfg, st) == Settled(cfg, out, st')
  {
    hide Exec;
    assert p + [] == p;
    assert Descend(cfg.graph, p) == p;
    assert st.(ptr := p) == st;
  }

  /** A leaf that neither raises nor jumps: the pointer moves on. */
  lemma PlainTurn(cfg: Config, st: State, p: Path, i: Instr, st': State)
    requires p != [] && Locate(cfg.graph, p) == Hit(Leaf(i))
    requires Active(st) && Active(st') && st'.ptr == p
    requires Exec(cfg, cfg.nest, i, st.(ptr := p)).0.Ret? && Exec(cfg, cfg.nest, i, st.(ptr := p)).1 == st'
    ensures RunTurns(cfg, At(cfg, st, p), 1) == At(cfg, st', Next(cfg.graph, p))
  {
    LeafTurn(cfg, st, p, i);
    AdvanceFromLeaf(cfg, st', p);
  }

  /** A leaf that jumps to `q`. */
  lemma JumpTurn(cfg: Config, st: State, p: Path, i: Instr, st': State, q: Path)
    requires p != [] && Locate(cfg.graph, p) == Hit(Leaf(i))
    requires Active(st) && q != []
    requires st'.status.Running? && !st'.flags.hlt && st'.flags.jmp && st'.ptr == q
    requires Exec(cfg, cfg.nest, i, st.(ptr := p)).0.Ret? && Exec(cfg, cfg.nest, i, st.(ptr := p)).1 == st'
    ensures RunTurns(cfg, At(cfg, st, p), 1) == At(cfg, st'.(flags := st'.flags.(jmp := false)), q)
  {
    LeafTurn(cfg, st, p, i);
  }

  /** A leaf that raises stops the run. */
  lemma RaiseTurn(cfg: Config, st: State, p: Path, i: Instr, e: Exn)
    requires p != [] && Locate(cfg.graph, p) == Hit(Leaf(i))
    requires Active(st) && Exec(cfg, cfg.nest, i, st.(ptr := p)).0 == Throw(e)
    ensures var fin := RunTurns(cfg, At(cfg, st, p), 1);
            fin.status == StopOf(e) && fin.trace == Exec(cfg, cfg.nest, i, st.(ptr := p)).1.trace
  {
    LeafTurn(cfg, st, p, i);
  }

  /** How a run ends when a node raises `e`. */
  function StopOf(e: Exn): Status {
    match e
    case Suspended => Halted
    case ResetNotice => Done
    case _ => Panicked(e)
  }

  /** Calling a user node, a NOP or a SUSPEND as a subroutine leaves the machine as it was, trace apart. */
  lemma CallLeaf(cfg: Config, nest: nat, p: Path, i: Instr, st: State)
    requires Locate(cfg.graph, p) == Hit(Leaf(i)) && (i.Act? || i.Nop? || i.Suspend?)
    requires nest >= 1 && Active(st)
    ensures CallSub(cfg, nest, p, st) ==
            if |st.stack| >= cfg.ovf then (Throw(StackOverflow), st)
            else match i
              case Act(id) => (cfg.oracle(st.trace + [id]), st.(trace := st.trace + [id]))
              case Nop => (OK, st)
              case _ => (Throw(Suspended), st)
  {
    assert p + [] == p;
    if |st.stack| < cfg.ovf {
      var st2 := st.(stack := st.stack + [st.ptr], ptr := p, outer := true);
      assert Descend(cfg.graph, p) == p;
      assert ExecNode(cfg, nest - 1, st2) == Exec(cfg, nest - 1, i, st2);
      assert Front(st2.stack) == st.stack && Top(st2.stack) == st.ptr;
    }
  }

  /** Calling a JMP moves the pointer for good; the return stack is as it was. */
  lemma CalledJump(cfg: Config, nest: nat, p: Path, name: Name, st: State)
    requires Locate(cfg.graph, p) == Hit(Leaf(JumpTo(name))) && name in cfg.aliases
    requires Locate(cfg.graph, cfg.aliases[name]).Hit?
    requires nest >= 1 && !st.flags.jmp && |st.stack| < cfg.ovf
    ensures CallSub(cfg, nest, p, st) == (OK, Marked(st).(ptr := cfg.aliases[name], outer := false))
  {
    var inner := st.(stack := st.stack + [st.ptr], ptr := p, outer := true);
    assert p + [] == p;
    assert Descend(cfg.graph, p) == p && inner.(ptr := p) == inner;
    var jumped := Marked(inner).(ptr := cfg.aliases[name]);
    assert ExecNode(cfg, nest - 1, inner) == (OK, jumped);
    assert Front(jumped.stack) == st.stack;
  }

  /**
   Calling a CALL: it pushes its own address, which the end of the subroutine
   call pops again, so that the caller's address stays behind as return address.
   */
  lemma CalledCall(cfg: Config, nest: nat, p: Path, f: Name, st: State)
    requires Locate(cfg.graph, p) == Hit(Leaf(Call(f))) && f in cfg.aliases
    requires Locate(cfg.graph, cfg.aliases[f]).Hit?
    requires nest >= 1 && !st.flags.jmp && |st.stack| + 2 <= cfg.ovf
    ensures CallSub(cfg, nest, p, st)
         == (OK, Marked(st).(stack := st.stack + [st.ptr], ptr := cfg.aliases[f], outer := false))
  {
    var inner := st.(stack := st.stack + [st.ptr], ptr := p, outer := true);
    assert p + [] == p;
    assert Descend(cfg.graph, p) == p && inner.(ptr := p) == inner;
    hide Descend, Locate;
    var called := Marked(inner.(stack := inner.stack + [p])).(ptr := cfg.aliases[f]);
    assert ExecNode(cfg, nest - 1, inner) == Exec(cfg, nest - 1, Call(f), inner) == (OK, called);
    assert Front(called.stack) == inner.stack;
  }

  /**
   Calling an INT: the context it saves has the return address it was given,
   or the caller's address, never its own; the handler is entered with the
   return stack as it was. Refused, it leaves the caller where it stands.
   */
  lemma CalledInterrupt(cfg: Config, nest: nat, p: Path, h: Name, retTo: Option<Path>, b: bool, st: State)
    requires Locate(cfg.graph, p) == Hit(Leaf(Interrupt(h, retTo, b))) && h in cfg.aliases
    requires Locate(cfg.graph, cfg.aliases[h]).Hit?
    requires nest >= 1 && !st.flags.jmp && |st.stack| < cfg.ovf
    ensures var awake := st.(outer := false, flags := st.flags.(hlt := false));
            var saved := Context(if retTo.Some? then retTo.value else st.ptr, awake.flags);
            CallSub(cfg, nest, p, st)
            == if st.flags.iff then (Throw(NestedInterrupt), awake)
               else if |st.ctxs| >= cfg.ctxOvf then (Throw(StackOverflow), awake)
               else (OK, st.(ctxs := st.ctxs + [saved], flags := Flags(b, false, true), ptr := cfg.aliases[h],
                             outer := false))
  {
    var inner := st.(stack := st.stack + [st.ptr], ptr := p, outer := true);
    assert p + [] == p;
    assert Descend(cfg.graph, p) == p && inner.(ptr := p) == inner;
    hide Descend, Locate;
    assert ExecNode(cfg, nest - 1, inner) == Exec(cfg, nest - 1, Interrupt(h, retTo, b), inner);
    assert Front(inner.stack) == st.stack && Top(inner.stack) == st.ptr;
  }

  /** JMP in the flow: the machine rests on the first node below the target, everything else as it was. */
  lemma JumpToTurn(cfg: Config, st: State, p: Path, name: Name)
    requires p != [] && Locate(cfg.graph, p) == Hit(Leaf(JumpTo(name))) && Active(st)
    requires name in cfg.aliases && cfg.aliases[name] != []
    ensures var target := cfg.aliases[name];
            var fin := RunTurns(cfg, At(cfg, st, p), 1);
            if Locate(cfg.graph, target).Hit? then fin == At(cfg, st, target)
            else fin.status == Panicked(NullPointer) && fin.trace == st.trace
  {
    var target := cfg.aliases[name];
    if Locate(cfg.graph, target).Hit? {
      JumpTurn(cfg, st, p, JumpTo(name), Marked(st).(ptr := target), target);
    } else {
      RaiseTurn(cfg, st, p, JumpTo(name), NullPointer);
    }
  }

  /** An InterruptNotice ends the run with pointer, stacks and flags discarded, whatever they were. */
  lemma ResetTurn(cfg: Config, st: State, p: Path)
    requires p != [] && Locate(cfg.graph, p) == Hit(Leaf(Reset)) && Active(st)
    ensures RunTurns(cfg, At(cfg, st, p), 1) == State([], [], [], NO_FLAGS, false, st.trace, Done)
  {
    LeafTurn(cfg, st, p, Reset);
  }
}
