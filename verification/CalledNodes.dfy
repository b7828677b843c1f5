/**
 Nodes that jump or touch the return stack, as the single node of a branch:
 what the subroutine call that executes them makes of it.
 */
module CalledNodes {
  import opened Options
  import opened Addressing
  import opened Machine
  import opened Turns
  import opened RunStates

  // ----- loop control as the single node of a branch -----

  /**
   A CONTINUE or BREAK_LOOP that is the single node of a branch is executed by
   a subroutine call: it pops the call's frame instead of the loop's, the call
   then pops the loop's, and flow lands in the branch's own container.
   */
  lemma CalledControl(cfg: Config, st: State, q: Path, b: nat, head: Instr, c: Id, target: nat)
    requires head.IfHead? && head.condOff == 1 && head.doOff == 2 && head.single
    requires Locate(cfg.graph, q + [b]) == Hit(Leaf(head))
    requires Locate(cfg.graph, q + [b + 1]) == Hit(Leaf(Act(c)))
    requires Locate(cfg.graph, q + [b + 2]) == Hit(Leaf(Control(Some(target))))
    requires Active(st) && cfg.nest >= 1 && st.stack != [] && |st.stack| < cfg.ovf
    requires cfg.oracle(st.trace + [c]) == Ret(true)
    ensures RunTurns(cfg, At(cfg, st, q + [b]), 1)
         == At(cfg, st.(trace := st.trace + [c], stack := Front(st.stack)), q + [target])
  {
    hide RunTurns, Turn, Next, CallSub;
    assert Slice(q + [b]) == q && OffsetCopy(q + [b], 1) == q + [b + 1] && OffsetCopy(q + [b], 2) == q + [b + 2];
    CallLeaf(cfg, cfg.nest, q + [b + 1], Act(c), st.(ptr := q + [b]));
    var st1 := st.(ptr := q + [b], trace := st.trace + [c]);
    ControlCall(cfg, st1, q, b, target);
    var st2 := Marked(st1.(stack := Front(st.stack))).(ptr := q + [target]);
    JumpTurn(cfg, st, q + [b], head, st2, q + [target]);
  }

  /** The call itself: the node takes the call's frame, the return takes the loop's. */
  lemma ControlCall(cfg: Config, st: State, q: Path, b: nat, target: nat)
    requires Locate(cfg.graph, q + [b + 2]) == Hit(Leaf(Control(Some(target)))) && st.ptr == q + [b]
    requires Active(st) && cfg.nest >= 1 && st.stack != [] && |st.stack| < cfg.ovf
    ensures CallSub(cfg, cfg.nest, q + [b + 2], st)
         == (OK, Marked(st.(stack := Front(st.stack))).(ptr := q + [target]))
  {
    LeafCall(cfg, cfg.nest, q + [b + 2], Control(Some(target)), st);
    hide CallSub, Locate;
    assert Slice(q + [b]) == q;
  }

  // ----- jumps and calls as the branch of an IF -----

  /** The chunk of an IF or ELIF in slot `b` of the container at `q`. */
  ghost predicate ChunkAt(cfg: Config, q: Path, b: nat, c: Id, body: Instr, thenPos: nat) {
    && Locate(cfg.graph, q + [b]) == Hit(Leaf(CondJump(1, 2, 3, thenPos)))
    && Locate(cfg.graph, q + [b + 1]) == Hit(Leaf(Act(c)))
    && Locate(cfg.graph, q + [b + 2]) == Hit(Leaf(body))
  }

  /** IF(c, JMP(name)): a conditional jump that leaves both stacks as they were. */
  lemma ConditionalJump(cfg: Config, st: State, q: Path, b: nat, c: Id, name: Name, thenPos: nat)
    requires ChunkAt(cfg, q, b, c, JumpTo(name), thenPos)
    requires name in cfg.aliases && cfg.aliases[name] != [] && Locate(cfg.graph, cfg.aliases[name]).Hit?
    requires Active(st) && cfg.nest >= 1 && |st.stack| < cfg.ovf
    ensures var tr := st.trace + [c];
            var fin := RunTurns(cfg, At(cfg, st, q + [b]), 1);
            match cfg.oracle(tr)
            case Ret(true) => fin == At(cfg, st.(trace := tr), cfg.aliases[name])
            case Ret(false) => fin == At(cfg, st.(trace := tr), q + [b + 3])
            case Throw(e) => Stopped(fin, e, tr)
  {
    hide RunTurns, Turn, Next, CallSub, Locate, Descend;
    var head := CondJump(1, 2, 3, thenPos);
    var here, tr := st.(ptr := q + [b]), st.trace + [c];
    assert Parent(q + [b]) == q && OffsetCopy(q + [b], 1) == q + [b + 1] && OffsetCopy(q + [b], 2) == q + [b + 2];
    CallLeaf(cfg, cfg.nest, q + [b + 1], Act(c), here);
    match cfg.oracle(tr)
    case Throw(e) => RaiseTurn(cfg, st, q + [b], head, e);
    case Ret(true) =>
      var target := cfg.aliases[name];
      CalledJump(cfg, cfg.nest, q + [b + 2], name, here.(trace := tr));
      JumpTurn(cfg, st, q + [b], head, Marked(here.(trace := tr)).(ptr := target), target);
    case Ret(false) =>
      assert OffsetCopy(q + [b], 3) == q + [b + 3];
      JumpTurn(cfg, st, q + [b], head, Marked(here.(trace := tr)).(ptr := q + [b + 3]), q + [b + 3]);
  }

  /**
   IF(c, CALL(f)): the routine is entered with the IF's own address to return
   to, so when it returns flow goes on with the condition, as a node of the flow.
   */
  lemma ConditionalCall(cfg: Config, st: State, q: Path, b: nat, c: Id, f: Name, thenPos: nat)
    requires ChunkAt(cfg, q, b, c, Call(f), thenPos)
    requires f in cfg.aliases && cfg.aliases[f] != [] && Locate(cfg.graph, cfg.aliases[f]).Hit?
    requires Active(st) && cfg.nest >= 1 && |st.stack| + 2 <= cfg.ovf && cfg.oracle(st.trace + [c]) == Ret(true)
    ensures RunTurns(cfg, At(cfg, st, q + [b]), 1)
         == At(cfg, st.(trace := st.trace + [c], stack := st.stack + [q + [b]]), cfg.aliases[f])
    ensures At(cfg, st, Next(cfg.graph, q + [b])) == At(cfg, st, q + [b + 1])
  {
    var head := CondJump(1, 2, 3, thenPos);
    var here, tr := st.(ptr := q + [b]), st.trace + [c];
    assert Parent(q + [b]) == q;
    HitParent(cfg.graph, q + [b + 1]);
    assert Parent(q + [b + 1]) == q;
    NextIsAfter(cfg, st, q, b);
    hide RunTurns, Turn, Next, CallSub, Locate, Descend;
    assert OffsetCopy(q + [b], 1) == q + [b + 1] && OffsetCopy(q + [b], 2) == q + [b + 2];
    CallLeaf(cfg, cfg.nest, q + [b + 1], Act(c), here);
    CalledCall(cfg, cfg.nest, q + [b + 2], f, here.(trace := tr));
    var entered := Marked(here).(trace := tr, stack := st.stack + [q + [b]], ptr := cfg.aliases[f]);
    JumpTurn(cfg, st, q + [b], head, entered, cfg.aliases[f]);
  }

  /**
   IF(c, INT(h)): the handler is entered with the IF's own address saved, so
   when IRET restores the context flow goes on with the condition, too.
   */
  lemma ConditionalInterrupt(cfg: Config, st: State, q: Path, b: nat, c: Id, h: Name, iff: bool, thenPos: nat)
    requires ChunkAt(cfg, q, b, c, Interrupt(h, None, iff), thenPos)
    requires h in cfg.aliases && cfg.aliases[h] != [] && Locate(cfg.graph, cfg.aliases[h]).Hit?
    requires Active(st) && cfg.nest >= 1 && |st.stack| < cfg.ovf && cfg.oracle(st.trace + [c]) == Ret(true)
    ensures var tr := st.trace + [c];
            var saved := Context(q + [b], st.flags);
            var fin := RunTurns(cfg, At(cfg, st, q + [b]), 1);
            if st.flags.iff then Stopped(fin, NestedInterrupt, tr)
            else if |st.ctxs| >= cfg.ctxOvf then Stopped(fin, StackOverflow, tr)
            else fin == At(cfg, st.(trace := tr, ctxs := st.ctxs + [saved], flags := st.flags.(iff := iff)),
                           cfg.aliases[h])
    ensures At(cfg, st, Next(cfg.graph, q + [b])) == At(cfg, st, q + [b + 1])
  {
    var head := CondJump(1, 2, 3, thenPos);
    var here, tr := st.(ptr := q + [b]), st.trace + [c];
    assert Parent(q + [b]) == q;
    HitParent(cfg.graph, q + [b + 1]);
    assert Parent(q + [b + 1]) == q;
    NextIsAfter(cfg, st, q, b);
    hide RunTurns, Turn, Next, CallSub, Locate, Descend;
    assert OffsetCopy(q + [b], 1) == q + [b + 1] && OffsetCopy(q + [b], 2) == q + [b + 2];
    CallLeaf(cfg, cfg.nest, q + [b + 1], Act(c), here);
    CalledInterrupt(cfg, cfg.nest, q + [b + 2], h, None, iff, here.(trace := tr));
    if st.flags.iff {
      RaiseTurn(cfg, st, q + [b], head, NestedInterrupt);
    } else if |st.ctxs| >= cfg.ctxOvf {
      RaiseTurn(cfg, st, q + [b], head, StackOverflow);
    } else {
      var saved := Context(q + [b], st.flags);
      var entered := here.(trace := tr, ctxs := st.ctxs + [saved], flags := Flags(iff, false, true),
                           ptr := cfg.aliases[h]);
      JumpTurn(cfg, st, q + [b], head, entered, cfg.aliases[h]);
    }
  }
}
