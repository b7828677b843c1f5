/**
 The subroutine calls a node makes, as a tree, and what a tree of calls leaves
 behind: the return stack always, the pointer unless a node jumped.
 */
module Subcalls {
  import opened Options
  import opened Addressing
  import opened Machine
  import opened Turns
  import opened Discipline

  // ----- the subroutine calls a node makes -----

  /** A call: the address called, and the machine at that moment. */
  type Request = (Path, State)

  /** The second call of a TRY worker: the handler, or THEN. */
  function TrySecond(cfg: Config, i: Instr, d: Outcome, st: State): Option<Path>
    requires i.TryHead?
  {
    if d.Throw? then
      var handler := if cfg.ignored(d.exn) then None else FirstCatch(cfg, d.exn, i.catches);
      if handler.None? then None else Some(NearCopy(st.ptr, handler.value))
    else if i.thnPos.Some? then Some(NearCopy(st.ptr, i.thnPos.value))
    else None
  }

  /** Every subroutine call node `i` makes when executed in `st`, in order. */
  function Calls(cfg: Config, nest: nat, i: Instr, st: State): seq<Request> {
    match i
    case WhileHead(condOff, _, _, _) => [(OffsetCopy(st.ptr, condOff), st)]
    case DoCheck(condOff, _, _) => [(OffsetCopy(st.ptr, condOff), st)]
    case IfHead(condOff, doOff, _, _, _, single) =>
      var (c, st1) := CallSub(cfg, nest, OffsetCopy(st.ptr, condOff), st);
      [(OffsetCopy(st.ptr, condOff), st)]
      + if c.Ret? && c.value && single then [(OffsetCopy(st1.ptr, doOff), st1)] else []
    case CondJump(condOff, doOff, _, _) =>
      var (c, st1) := CallSub(cfg, nest, OffsetCopy(st.ptr, condOff), st);
      [(OffsetCopy(st.ptr, condOff), st)] + if c.Ret? && c.value then [(OffsetCopy(st1.ptr, doOff), st1)] else []
    case ElseDo(doOff, _) => [(OffsetCopy(st.ptr, doOff), st)]
    case LoopHead(condOff, doOff, _, _) =>
      var (c, st1) := CallSub(cfg, nest, OffsetCopy(st.ptr, condOff), st);
      [(OffsetCopy(st.ptr, condOff), st)] + if c.Ret? && c.value then [(OffsetCopy(st1.ptr, doOff), st1)] else []
    case TryHead(doPos, _, finPos, _, _) =>
      var (d, st1) := CallSub(cfg, nest, NearCopy(st.ptr, doPos), st);
      var second := TrySecond(cfg, i, d, st1);
      var st2 := if second.None? then st1 else CallSub(cfg, nest, second.value, st1).1;
      [(NearCopy(st.ptr, doPos), st)]
      + (if second.None? then [] else [(second.value, st1)])
      + (if finPos.None? then [] else [(NearCopy(st2.ptr, finPos.value), st2)])
    case Invoke(entry) => if entry !in cfg.aliases then [] else [(cfg.aliases[entry], st)]
    case _ => []
  }

  /** The handler found for an exception is one of those listed. */
  lemma {:induction false} CatchListed(cfg: Config, e: Exn, catches: seq<(ExnClass, nat)>) returns (k: nat)
    requires FirstCatch(cfg, e, catches).Some?
    ensures k < |catches| && FirstCatch(cfg, e, catches).value == catches[k].1
    decreases |catches|
  {
    if cfg.instance(e, catches[0].0) {
      k := 0;
    } else {
      k := CatchListed(cfg, e, catches[1..]);
      k := k + 1;
    }
  }

  /** The machine as a called node finds it. */
  function Entered(cfg: Config, addr: Path, st: State): State {
    st.(stack := st.stack + [st.ptr], outer := true, ptr := Descend(cfg.graph, addr))
  }

  // ----- trees of calls -----

  /** A node that neither moves the return stack nor restores a status register. */
  predicate Neutral(i: Instr) {
    !i.WhileHead? && !(i.EnterBody? && i.push) && !i.Control? && !i.Call? && !i.Return? && !i.IntReturn?
  }

  /** Every node executed by the call of `addr`, and by the calls nested in it, is neutral. */
  ghost predicate NeutralCall(cfg: Config, nest: nat, addr: Path, st: State)
    decreases nest, 0
  {
    |st.stack| < cfg.ovf && nest > 0 ==>
      match Locate(cfg.graph, Descend(cfg.graph, addr))
      case Hit(Leaf(i)) => Neutral(i) && NeutralNode(cfg, nest - 1, i, Entered(cfg, addr, st))
      case _ => true
  }

  ghost predicate NeutralNode(cfg: Config, nest: nat, i: Instr, st: State)
    decreases nest, 1
  {
    forall c | c in Calls(cfg, nest, i, st) :: NeutralCall(cfg, nest, c.0, c.1)
  }

  /** What a call leaves: the stack it found; the pointer too, unless a jump is pending. */
  ghost predicate Balanced(st: State, st': State) {
    && st'.stack == st.stack
    && (st.flags.jmp ==> st'.flags.jmp)
    && (!st'.flags.jmp ==> st'.ptr == st.ptr)
  }

  ghost predicate CallsBalance(cfg: Config, nest: nat, i: Instr, st: State) {
    forall c | c in Calls(cfg, nest, i, st) :: Balanced(c.1, CallSub(cfg, nest, c.0, c.1).1)
  }

  /** A neutral node whose calls are balanced keeps the stack, and never takes JMP back. */
  lemma ExecBalances(cfg: Config, nest: nat, i: Instr, st: State)
    requires Neutral(i) && CallsBalance(cfg, nest, i, st)
    ensures Exec(cfg, nest, i, st).1.stack == st.stack
    ensures st.flags.jmp ==> Exec(cfg, nest, i, st).1.flags.jmp
  {
    hide CallSub, FirstCatch, Locate, Descend, Slice, OffsetCopy, NearCopy;
    var calls := Calls(cfg, nest, i, st);
    assert calls != [] ==> calls[0] in calls && calls[|calls| - 1] in calls;
    if i.TryHead? {
      TryBalances(cfg, nest, i, st);
    }
  }

  lemma TryBalances(cfg: Config, nest: nat, i: Instr, st: State)
    requires i.TryHead? && CallsBalance(cfg, nest, i, st)
    ensures Exec(cfg, nest, i, st).1.stack == st.stack
    ensures st.flags.jmp ==> Exec(cfg, nest, i, st).1.flags.jmp
  {
    hide CallSub, FirstCatch, Locate, Descend, Slice, OffsetCopy, NearCopy;
    var calls := Calls(cfg, nest, i, st);
    var (d, st1) := CallSub(cfg, nest, NearCopy(st.ptr, i.doPos), st);
    var second := TrySecond(cfg, i, d, st1);
    assert calls[0] in calls && calls[|calls| - 1] in calls;
    assert second.Some? ==> calls[1] in calls;
  }

  /**
   On normal and exceptional exit alike a tree of neutral calls leaves the
   return stack as it was, and the pointer as it was unless one of them jumped.
   */
  lemma {:induction false} CallBalances(cfg: Config, nest: nat, addr: Path, st: State)
    requires NeutralCall(cfg, nest, addr, st)
    ensures Balanced(st, CallSub(cfg, nest, addr, st).1)
    decreases nest, 0
  {
    hide Exec, Calls;
    if |st.stack| < cfg.ovf {
      var st2 := st.(stack := st.stack + [st.ptr], ptr := addr, outer := true);
      assert Front(st2.stack) == st.stack && Top(st2.stack) == st.ptr;
      if nest > 0 {
        match Locate(cfg.graph, Descend(cfg.graph, addr))
        case Hit(Leaf(i)) =>
          var entered := Entered(cfg, addr, st);
          assert ExecNode(cfg, nest - 1, st2) == Exec(cfg, nest - 1, i, entered);
          forall c | c in Calls(cfg, nest - 1, i, entered)
            ensures Balanced(c.1, CallSub(cfg, nest - 1, c.0, c.1).1)
          {
            CallBalances(cfg, nest - 1, c.0, c.1);
          }
          ExecBalances(cfg, nest - 1, i, entered);
        case _ =>
      }
    }
  }

  // ----- INVOKE -----

  /**
   INVOKE calls whatever node stands behind an alias: a tree of neutral calls
   leaves both pointer and return stack as they were, so that flow goes on after
   the INVOKE, unless it jumps; then the jump stands. An exception passes through.
   */
  lemma InvokeTurn(cfg: Config, st: State, p: Path, name: Name)
    requires p != [] && Locate(cfg.graph, p) == Hit(Leaf(Invoke(name))) && Active(st) && Disciplined(false, st)
    requires name in cfg.aliases && NeutralCall(cfg, cfg.nest, cfg.aliases[name], st.(ptr := p))
    ensures var (out, st') := CallSub(cfg, cfg.nest, cfg.aliases[name], st.(ptr := p));
            var fin := RunTurns(cfg, At(cfg, st, p), 1);
            && st'.stack == st.stack
            && match out
               case Throw(e) => fin.status == StopOf(e) && fin.trace == st'.trace
               case Ret(_) =>
                 if st'.flags.jmp then
                   st'.ptr != [] ==> fin == At(cfg, st'.(flags := st'.flags.(jmp := false)), st'.ptr)
                 else st'.ptr == p && fin == At(cfg, st', Next(cfg.graph, p))
  {
    hide RunTurns, Turn, CallSub, NeutralCall, Locate, Next, Descend;
    var here := st.(ptr := p);
    var a := cfg.aliases[name];
    var (out, st') := CallSub(cfg, cfg.nest, a, here);
    CallBalances(cfg, cfg.nest, a, here);
    CallKeeps(cfg, false, cfg.nest);
    CallOuter(cfg, cfg.nest, a, here);
    assert Exec(cfg, cfg.nest, Invoke(name), here) == (out, st');
    match out
    case Throw(e) => RaiseTurn(cfg, st, p, Invoke(name), e);
    case Ret(_) =>
      if !st'.flags.jmp {
        PlainTurn(cfg, st, p, Invoke(name), st');
      } else if st'.ptr != [] {
        JumpTurn(cfg, st, p, Invoke(name), st', st'.ptr);
      }
  }

  /** A subroutine call leaves no sign of itself behind, nor of the call it is made from. */
  lemma CallOuter(cfg: Config, nest: nat, addr: Path, st: State)
    requires !st.outer || |st.stack| < cfg.ovf
    ensures !CallSub(cfg, nest, addr, st).1.outer
  {
    hide ExecNode;
  }
}
