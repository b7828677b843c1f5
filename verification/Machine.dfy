/**
 The interpreter as a function on states: what each instruction does, what a
 subroutine call does around it, and what one turn of the main loop does.

 A user node is an oracle: given the nodes executed so far, its own included,
 the oracle says what it returns or raises.
 */
module Machine {
  import opened Options
  import opened Addressing

  type Id = nat
  type Name = nat
  type ExnClass = nat

  datatype Exn =
    | UserError(code: nat)
    | BreakLoop
    | Suspended       // InterruptKeepContext
    | ResetNotice     // InterruptNotice
    | StackOverflow
    | StackUnderflow
    | BadIndex
    | NotConfigured
    | NestedInterrupt
    | NullPointer
    | RecursionLimit

  datatype Outcome = Ret(value: bool) | Throw(exn: Exn)

  type Oracle = seq<Id> -> Outcome

  datatype Instr =
    | Act(id: Id)
    | Nop
    | Entry(name: Name)                 // ALIAS(NOP, name)
    | Suspend
    | Reset
    | WhileHead(condOff: nat, bodyPos: nat, selfPos: nat, exitPos: nat)
    | DoCheck(condOff: nat, loopPos: nat, exitPos: nat)
    | EnterBody(bodyPos: nat, push: bool)
    | Control(target: Option<nat>)      // CONTINUE or BREAK_LOOP; None while not configured
    | IfHead(condOff: nat, doOff: nat, doPos: nat, retPos: nat, falsePos: nat, single: bool)
    | JumpNear(index: nat)              // SubprogramJumpNode, CheckUpNode
    | JumpOffset(offset: nat)           // ARCHIVED_SEGMENT's leading node
    | JumpTo(entry: Name)               // JMP
    | CondJump(condOff: nat, doOff: nat, falseOff: nat, thenPos: nat)
    | ElseDo(doOff: nat, thenOff: nat)
    | LoopHead(condOff: nat, doOff: nat, checkPos: nat, elsePos: nat)   // WhileNode, not squashed
    | TryHead(doPos: nat, catches: seq<(ExnClass, nat)>, finPos: Option<nat>, thnPos: Option<nat>, escapePos: nat)
    | Escape                            // _fn_escape
    | Call(entry: Name)
    | Return                            // RET
    | Interrupt(entry: Name, retTo: Option<Path>, ifState: bool)
    | IntReturn                         // IRET
    | Invoke(entry: Name)

  datatype Flags = Flags(iff: bool, hlt: bool, jmp: bool)

  const NO_FLAGS := Flags(false, false, false)

  /** A saved interpreter context; the snapshot's HLT bit is always clear. */
  datatype Context = Context(ptr: Path, flags: Flags)

  datatype Status = Running | Done | Halted | Panicked(exn: Exn)

  datatype State = State(
    ptr: Path,
    stack: seq<Path>,
    ctxs: seq<Context>,
    flags: Flags,
    outer: bool,
    trace: seq<Id>,
    status: Status
  )

  /**
   A rendered workflow with everything that does not change while it runs:
   the symbol table, the two stack limits, how deep Python lets calls nest,
   the behaviour of user nodes, which exception is an instance of which class,
   and which exceptions pass every CATCH.
   */
  datatype Config = Config(
    graph: Tree<Instr>,
    aliases: map<Name, Path>,
    oracle: Oracle,
    ovf: nat,
    ctxOvf: nat,
    nest: nat,
    instance: (Exn, ExnClass) -> bool,
    ignored: Exn -> bool
  )

  type Step = (Outcome, State)

  const OK := Ret(false)

  // ----- pointer and flag primitives -----

  function Marked(st: State): State {
    st.(flags := st.flags.(jmp := true, hlt := false))
  }

  function Rebased(st: State, p: Path): State {
    st.(ptr := p, flags := st.flags.(hlt := false))
  }

  /** A marked jump to an address computed by the caller; a second jump in a cycle does nothing. */
  function JumpFar(st: State, p: Path): State {
    if st.flags.jmp then st else Marked(st).(ptr := p)
  }

  function JumpNearBy(st: State, index: nat): Step {
    if st.flags.jmp then (OK, st)
    else if st.ptr == [] then (Throw(BadIndex), Marked(st))
    else (OK, Marked(st).(ptr := Parent(st.ptr) + [index]))
  }

  function JumpOffsetBy(st: State, offset: nat): Step {
    if st.flags.jmp then (OK, st)
    else if st.ptr == [] then (Throw(BadIndex), Marked(st))
    else (OK, Marked(st).(ptr := OffsetCopy(st.ptr, offset)))
  }

  function JumpToAddress(cfg: Config, st: State, p: Path): Step {
    if st.flags.jmp then (OK, st)
    else if !Locate(cfg.graph, p).Hit? then (Throw(NullPointer), Marked(st))
    else (OK, Marked(st).(ptr := p))
  }

  /** Copying an empty vector yields `[0]`. */
  function OffsetCopy(p: Path, offset: nat): Path {
    if p == [] then [offset] else Parent(p) + [Last(p) + offset]
  }

  function NearCopy(p: Path, index: nat): Path {
    Slice(p) + [index]
  }

  /** The slot of the first CATCH whose class the exception is an instance of. */
  function FirstCatch(cfg: Config, e: Exn, catches: seq<(ExnClass, nat)>): Option<nat>
    decreases |catches|
  {
    if catches == [] then None
    else if cfg.instance(e, catches[0].0) then Some(catches[0].1)
    else FirstCatch(cfg, e, catches[1..])
  }

  /** The CATCH listed at `k` takes the exception, and none listed before it does. */
  ghost predicate Takes(cfg: Config, e: Exn, catches: seq<(ExnClass, nat)>, k: nat) {
    && k < |catches| && cfg.instance(e, catches[k].0)
    && forall i | 0 <= i < k :: !cfg.instance(e, catches[i].0)
  }

  lemma {:induction false} FirstCatchExact(cfg: Config, e: Exn, catches: seq<(ExnClass, nat)>)
    ensures match FirstCatch(cfg, e, catches)
            case None => forall i | 0 <= i < |catches| :: !cfg.instance(e, catches[i].0)
            case Some(slot) => exists k: nat :: Takes(cfg, e, catches, k) && catches[k].1 == slot
    decreases |catches|
  {
    if catches != [] {
      FirstCatchExact(cfg, e, catches[1..]);
      assert forall i | 0 < i < |catches| :: catches[i] == catches[1..][i - 1];
      if cfg.instance(e, catches[0].0) {
        assert Takes(cfg, e, catches, 0);
      } else if FirstCatch(cfg, e, catches).Some? {
        var k: nat :| Takes(cfg, e, catches[1..], k) && catches[1..][k].1 == FirstCatch(cfg, e, catches).value;
        assert Takes(cfg, e, catches, k + 1);
      }
    }
  }

  function Slice(p: Path): Path {
    if p == [] then [] else Parent(p)
  }

  function Top<T>(s: seq<T>): T
    requires s != []
  {
    s[|s| - 1]
  }

  function Front<T>(s: seq<T>): seq<T>
    requires s != []
  {
    s[..|s| - 1]
  }

  function Push(cfg: Config, st: State, p: Path): Step {
    if |st.stack| >= cfg.ovf then (Throw(StackOverflow), st)
    else (OK, st.(stack := st.stack + [p]))
  }

  // ----- execution -----

  /** Call the node at `addr` as a subroutine: push, execute, pop, and go back unless a jump happened. */
  function CallSub(cfg: Config, nest: nat, addr: Path, st: State): Step
    decreases nest, 0
  {
    var (pushed, st1) := Push(cfg, st, st.ptr);
    if pushed.Throw? then (pushed, st1)
    else
      var st2 := st1.(ptr := addr, outer := true);
      var (out, st3) := if nest == 0 then (Throw(RecursionLimit), st2) else ExecNode(cfg, nest - 1, st2);
      Finally(out, st3.(outer := false))
  }

  /** The `finally` part of a subroutine call. */
  function Finally(out: Outcome, st: State): Step {
    if st.stack == [] then (Throw(StackUnderflow), st)
    else
      var popped := st.(stack := Front(st.stack));
      (out, if popped.flags.jmp then popped else Rebased(popped, Top(st.stack)))
  }

  /** Look the pointer up, descend to a node and execute it. */
  function ExecNode(cfg: Config, nest: nat, st: State): Step
    decreases nest, 2
  {
    var st' := st.(ptr := Descend(cfg.graph, st.ptr));
    match Locate(cfg.graph, st'.ptr)
    case Hit(Leaf(i)) => Exec(cfg, nest, i, st')
    case _ => (Throw(NullPointer), st')
  }

  function Exec(cfg: Config, nest: nat, i: Instr, st: State): Step
    decreases nest, 1
  {
    match i
    case Act(id) =>
      var st' := st.(trace := st.trace + [id]);
      (cfg.oracle(st'.trace), st')
    case Nop => (OK, st)
    case Entry(_) => (OK, st)
    case Suspend => (Throw(Suspended), st)
    case Reset => (Throw(ResetNotice), st)
    case WhileHead(condOff, bodyPos, selfPos, exitPos) =>
      var (c, st1) := CallSub(cfg, nest, OffsetCopy(st.ptr, condOff), st);
      if c.Throw? then (c, st1)
      else if c.value then
        var parent := Slice(st1.ptr);
        var (pushed, st2) := Push(cfg, st1, parent + [selfPos]);
        if pushed.Throw? then (pushed, st2) else (OK, JumpFar(st2, parent + [bodyPos, 0]))
      else JumpNearBy(st1, exitPos)
    case DoCheck(condOff, loopPos, exitPos) =>
      var (c, st1) := CallSub(cfg, nest, OffsetCopy(st.ptr, condOff), st);
      if c.Throw? then (c, st1) else JumpNearBy(st1, if c.value then loopPos else exitPos)
    case EnterBody(bodyPos, push) =>
      var parent := Slice(st.ptr);
      var (pushed, st1) := if push then Push(cfg, st, parent + [0]) else (OK, st);
      if pushed.Throw? then (pushed, st1) else (OK, JumpFar(st1, parent + [bodyPos, 0]))
    case Control(target) =>
      if target.None? then (Throw(NotConfigured), st)
      else if st.stack == [] then (Throw(StackUnderflow), st)
      else (OK, JumpFar(st.(stack := Front(st.stack)), Slice(Top(st.stack)) + [target.value]))
    case IfHead(condOff, doOff, doPos, retPos, falsePos, single) =>
      var (c, st1) := CallSub(cfg, nest, OffsetCopy(st.ptr, condOff), st);
      if c.Throw? then (c, st1)
      else if !c.value then JumpNearBy(st1, falsePos)
      else if single then
        var (d, st2) := CallSub(cfg, nest, OffsetCopy(st1.ptr, doOff), st1);
        if d.Throw? then (d, st2) else JumpNearBy(st2, retPos)
      else (OK, JumpFar(st1, Slice(st1.ptr) + [doPos, 0]))
    case JumpNear(index) => JumpNearBy(st, index)
    case JumpOffset(offset) => JumpOffsetBy(st, offset)
    case JumpTo(entry) =>
      if entry !in cfg.aliases then (Throw(NullPointer), st) else JumpToAddress(cfg, st, cfg.aliases[entry])
    case CondJump(condOff, doOff, falseOff, thenPos) =>
      var (c, st1) := CallSub(cfg, nest, OffsetCopy(st.ptr, condOff), st);
      if c.Throw? then (c, st1)
      else if c.value then
        var (d, st2) := CallSub(cfg, nest, OffsetCopy(st1.ptr, doOff), st1);
        if d.Throw? then (d, st2) else JumpNearBy(st2, thenPos)
      else JumpOffsetBy(st1, falseOff)
    case ElseDo(doOff, thenOff) =>
      var (d, st1) := CallSub(cfg, nest, OffsetCopy(st.ptr, doOff), st);
      if d.Throw? then (d, st1) else JumpOffsetBy(st1, thenOff)
    case LoopHead(condOff, doOff, checkPos, elsePos) =>
      var (c, st1) := CallSub(cfg, nest, OffsetCopy(st.ptr, condOff), st);
      if c.Throw? then (c, st1)
      else if !c.value then JumpNearBy(st1, elsePos)
      else
        var (d, st2) := CallSub(cfg, nest, OffsetCopy(st1.ptr, doOff), st1);
        if d == Throw(BreakLoop) then JumpNearBy(st2, elsePos)
        else if d.Throw? then (d, st2)
        else JumpNearBy(st2, checkPos)
    case TryHead(doPos, catches, finPos, thnPos, escapePos) =>
      var (d, st1) := CallSub(cfg, nest, NearCopy(st.ptr, doPos), st);
      var (out, st2) :=
        if d.Throw? then
          var handler := if cfg.ignored(d.exn) then None else FirstCatch(cfg, d.exn, catches);
          if handler.None? then (d, st1) else CallSub(cfg, nest, NearCopy(st1.ptr, handler.value), st1)
        else if thnPos.Some? then CallSub(cfg, nest, NearCopy(st1.ptr, thnPos.value), st1)
        else (d, st1);
      var (fin, st3) := if finPos.Some? then CallSub(cfg, nest, NearCopy(st2.ptr, finPos.value), st2) else (OK, st2);
      if fin.Throw? then (fin, st3)
      else if out.Throw? then (out, st3)
      else JumpNearBy(st3, escapePos)
    case Escape => (OK, Rebased(st, OffsetCopy(st.ptr, 3)))
    case Call(entry) =>
      if entry !in cfg.aliases then (Throw(NullPointer), st)
      else
        var (pushed, st1) := Push(cfg, st, st.ptr);
        if pushed.Throw? then (pushed, st1) else JumpToAddress(cfg, st1, cfg.aliases[entry])
    case Return =>
      if st.stack == [] then (Throw(StackUnderflow), st)
      else (OK, Rebased(st.(stack := Front(st.stack)), Top(st.stack)))
    case Interrupt(entry, retTo, ifState) =>
      if entry !in cfg.aliases then (Throw(NullPointer), st)
      else if st.flags.iff then (Throw(NestedInterrupt), st)
      else if retTo.None? && st.outer && st.stack == [] then (Throw(BadIndex), st)
      else
        var back := if retTo.Some? then retTo.value else if st.outer then Top(st.stack) else st.ptr;
        if |st.ctxs| >= cfg.ctxOvf then (Throw(StackOverflow), st)
        else
          var saved := Context(back, st.flags.(hlt := false));
          JumpToAddress(cfg, st.(ctxs := st.ctxs + [saved], flags := st.flags.(iff := ifState)), cfg.aliases[entry])
    case IntReturn =>
      if st.ctxs == [] then (Throw(StackUnderflow), st)
      else (OK, st.(ctxs := Front(st.ctxs), ptr := Top(st.ctxs).ptr, flags := Top(st.ctxs).flags))
    case Invoke(entry) =>
      if entry !in cfg.aliases then (Throw(NullPointer), st) else CallSub(cfg, nest, cfg.aliases[entry], st)
  }

  // ----- the main loop -----

  function Advance(cfg: Config, st: State): State {
    var p := AdvancePointer(cfg.graph, st.ptr);
    match AdvanceResult(cfg.graph, st.ptr)
    case Moved => st.(ptr := p)
    case Ended => st.(ptr := p, status := Done)
    case Raised => st.(status := Panicked(NullPointer))
  }

  /** `reset`: pointer, stacks and flags are discarded; the nodes executed so far stay executed. */
  function Cleared(st: State): State {
    State([], [], [], NO_FLAGS, false, st.trace, Done)
  }

  /** How the main loop ends a cycle whose node produced `out`. */
  function Settled(cfg: Config, out: Outcome, st: State): State {
    match out
    case Throw(Suspended) => st.(flags := st.flags.(hlt := true), status := Halted)
    case Throw(ResetNotice) => Cleared(st)
    case Throw(e) => st.(status := Panicked(e))
    case Ret(_) =>
      if st.flags.jmp then st.(flags := st.flags.(jmp := false)) else Advance(cfg, st)
  }

  /** One turn of the main loop. */
  function Cycle(cfg: Config, st: State): State {
    if !st.status.Running? then st
    else if st.ptr == [] && !IsFull(cfg.graph) then st.(status := Done)
    else
      var st1 := if st.ptr == [] then st.(ptr := [0]) else st;
      if st1.flags.hlt then Advance(cfg, st1.(flags := st1.flags.(hlt := false)))
      else
        var (out, st2) := ExecNode(cfg, cfg.nest, st1);
        Settled(cfg, out, st2)
  }

  function Run(cfg: Config, st: State, n: nat): State
    decreases n
  {
    if n == 0 then st else Run(cfg, Cycle(cfg, st), n - 1)
  }

  /** Entering `run` again: whatever stopped the last run, the loop is entered afresh. */
  function Boot(st: State): State {
    st.(status := Running)
  }

  const INITIAL := State([0], [], [], NO_FLAGS, false, [], Running)

  lemma {:induction false} RunPlus(cfg: Config, st: State, a: nat, b: nat)
    ensures Run(cfg, st, a + b) == Run(cfg, Run(cfg, st, a), b)
    decreases a
  {
    if a > 0 {
      RunPlus(cfg, Cycle(cfg, st), a - 1, b);
    }
  }

  lemma {:induction false} RunStopped(cfg: Config, st: State, n: nat)
    requires !st.status.Running?
    ensures Run(cfg, st, n) == st
    decreases n
  {
    if n > 0 {
      RunStopped(cfg, st, n - 1);
    }
  }

  /** One turn of a session: a run that has halted is entered again. */
  function SessionStep(cfg: Config, st: State): State {
    Cycle(cfg, if st.status.Halted? then Boot(st) else st)
  }

  /** Run, resume, run and so on, for `n` turns in all. */
  function Session(cfg: Config, st: State, n: nat): State
    decreases n
  {
    if n == 0 then st else Session(cfg, SessionStep(cfg, st), n - 1)
  }

  lemma {:induction false} SessionPlus(cfg: Config, st: State, a: nat, b: nat)
    ensures Session(cfg, st, a + b) == Session(cfg, Session(cfg, st, a), b)
    decreases a
  {
    if a > 0 {
      SessionPlus(cfg, SessionStep(cfg, st), a - 1, b);
    }
  }

  lemma {:induction false} SessionStopped(cfg: Config, st: State, n: nat)
    requires st.status.Done? || st.status.Panicked?
    ensures Session(cfg, st, n) == st
    decreases n
  {
    if n > 0 {
      SessionStopped(cfg, st, n - 1);
    }
  }
}
