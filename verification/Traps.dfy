/**
 Calling into a halted workflow from outside: a subroutine call on a CALL node,
 after which the workflow is run again.
 */
module Traps {
  import opened Options
  import opened Addressing
  import opened Machine
  import opened Native
  import opened Turns
  import opened RunStates
  import opened NativeRuns

  /** Halted on a leaf by SUSPEND: HLT is set, no jump is pending. */
  ghost predicate Parked(cfg: Config, st: State) {
    && st.status.Halted? && st.flags.hlt && !st.flags.jmp && !st.outer
    && st.ptr != [] && Locate(cfg.graph, st.ptr).Hit? && Locate(cfg.graph, st.ptr).tree.Leaf?
  }

  /** The machine as if it had been resumed past the node it is parked on. */
  function Resumed(st: State): State {
    st.(status := Running, flags := st.flags.(hlt := false))
  }

  /** A routine entered with `back` on top of the stack. */
  function InRoutine(st: State, back: Path): State {
    Resumed(st).(stack := st.stack + [back])
  }

  /**
   The trap itself: CALL pushes its own address, the subroutine call pops that
   one, and the parked pointer is left as the return address. JMP stays set.
   */
  lemma TrapEnters(p: Program, cfg: Config, f: Name, addr: Path, st: State)
    requires Linked(p, cfg) && f in p.fns && Parked(cfg, st)
    requires Locate(cfg.graph, addr) == Hit(Leaf(Call(f)))
    requires |st.stack| + 2 <= cfg.ovf
    ensures f in cfg.aliases
    ensures var (out, st') := CallSub(cfg, cfg.nest, addr, st);
            && out == OK
            && Boot(st') == InRoutine(st, st.ptr).(ptr := cfg.aliases[f], flags := Resumed(st).flags.(jmp := true))
  {
    assert RoutineAt(cfg, f, p.fns[f], Return);
    hide Item, Parts, Next, RunTurns, CallSub, Descend, RoutineAt;
    RoutineSteps(cfg, Resumed(st), f, p.fns[f], Return);
    CalledCall(cfg, cfg.nest, addr, f, st);
  }

  /** The leftover JMP makes the entry NOP run twice, and nothing else. */
  lemma EntryTwice(cfg: Config, f: Name, body: Src, ret: Instr, st: State)
    requires RoutineAt(cfg, f, body, ret) && Active(st)
    ensures f in cfg.aliases && cfg.aliases[f] != []
    ensures RunTurns(cfg, At(cfg, st.(flags := st.flags.(jmp := true)), cfg.aliases[f]), 2)
         == At(cfg, st, Parent(cfg.aliases[f]) + [2])
  {
    hide Item, Parts, Descend, RoutineAt;
    RoutineSteps(cfg, st, f, body, ret);
    var a := cfg.aliases[f];
    var marked := st.(flags := st.flags.(jmp := true));
    LeafTurn(cfg, marked, a, Entry(f));
    assert RunTurns(cfg, At(cfg, marked, a), 1) == At(cfg, st, a);
    TurnsPlus(cfg, At(cfg, marked, a), 1, 1);
  }

  /**
   A trap runs the routine's body once, as if it had been called from the
   parked node, then flow goes on after that node with the stack as it was.
   */
  lemma TrapRuns(p: Program, cfg: Config, f: Name, addr: Path, st: State, fuel: nat) returns (k: nat)
    requires Linked(p, cfg) && SoundProgram(p) && f in p.fns && Parked(cfg, st) && cfg.graph.Box?
    requires Locate(cfg.graph, addr) == Hit(Leaf(Call(f)))
    requires |st.stack| + 2 <= cfg.ovf
    ensures CallSub(cfg, cfg.nest, addr, st).0 == OK
    ensures var at := Level(|st.stack| + 1, |st.ctxs|, st.flags.iff);
            var r := EvalItem(p, cfg, false, p.fns[f], NoLoop, at, fuel, st.trace);
            var fin := Run(cfg, Boot(CallSub(cfg, cfg.nest, addr, st).1), k);
            match r.out
            case Normal => Land(cfg, fin) == At(cfg, Resumed(st).(trace := r.trace), Next(cfg.graph, st.ptr))
            case Err(e) => Stopped(fin, e, r.trace)
            case Timeout => fin.status.Running? && fin.trace == r.trace && k >= fuel
            case _ => false
  {
    hide *;
    var at := Level(|st.stack| + 1, |st.ctxs|, st.flags.iff);
    var st1 := InRoutine(st, st.ptr);
    var booted := Boot(CallSub(cfg, cfg.nest, addr, st).1);
    var next := Next(cfg.graph, st.ptr);
    TrapReady(p, cfg, f, st);
    TrapStarts(p, cfg, f, addr, st);
    var q := Parent(cfg.aliases[f]);
    RoutineSteps(cfg, st1, f, p.fns[f], Return);
    var start := Land(cfg, booted);
    var r := EvalItem(p, cfg, false, p.fns[f], NoLoop, at, fuel, st.trace);
    var k2 := RunItem(p, cfg, p.fns[f], NoLoop, q + [2], st1, at, fuel);
    TrapLeaves(p, cfg, f, st, r.trace);
    k := RoutineLands(cfg, r, Resumed(st), st1, NoLoop, q + [2], q + [3], next, start, k2, fuel + 1);
    RunIsTurns(cfg, booted, k);
    TrapEnds(cfg, r, Resumed(st), next, Run(cfg, booted, k), k, fuel + 1);
  }

  /** Inside the routine the machine is as after a CALL from the parked node. */
  lemma TrapReady(p: Program, cfg: Config, f: Name, st: State)
    requires Linked(p, cfg) && SoundProgram(p) && f in p.fns && Parked(cfg, st)
    ensures RoutineAt(cfg, f, p.fns[f], Return) && Sound(p, p.fns[f])
    ensures var st1 := InRoutine(st, st.ptr);
            && Active(st1) && Ready(st1, NoLoop, Level(|st.stack| + 1, |st.ctxs|, st.flags.iff))
            && st1.trace == st.trace
  {
    hide RoutineAt, Sound;
  }

  lemma TrapStarts(p: Program, cfg: Config, f: Name, addr: Path, st: State)
    requires Linked(p, cfg) && f in p.fns && Parked(cfg, st)
    requires Locate(cfg.graph, addr) == Hit(Leaf(Call(f)))
    requires |st.stack| + 2 <= cfg.ovf
    ensures f in cfg.aliases && cfg.aliases[f] != []
    ensures CallSub(cfg, cfg.nest, addr, st).0 == OK
    ensures RunTurns(cfg, Land(cfg, Boot(CallSub(cfg, cfg.nest, addr, st).1)), 2)
         == At(cfg, InRoutine(st, st.ptr), Parent(cfg.aliases[f]) + [2])
  {
    assert RoutineAt(cfg, f, p.fns[f], Return);
    hide RunTurns, Turn, CallSub, Descend, Locate, RoutineAt, Item;
    TrapEnters(p, cfg, f, addr, st);
    EntryTwice(cfg, f, p.fns[f], Return, InRoutine(st, st.ptr));
  }

  /** RET at the end of the routine goes on after the node the workflow was parked on. */
  lemma TrapLeaves(p: Program, cfg: Config, f: Name, st: State, tr: seq<Id>)
    requires Linked(p, cfg) && f in p.fns && Parked(cfg, st) && f in cfg.aliases && cfg.aliases[f] != []
    ensures RunTurns(cfg, At(cfg, InRoutine(st, st.ptr).(trace := tr), Parent(cfg.aliases[f]) + [3]), 1)
         == At(cfg, Resumed(st).(trace := tr), Next(cfg.graph, st.ptr))
  {
    assert RoutineAt(cfg, f, p.fns[f], Return);
    hide RunTurns, Turn, At, RoutineAt, Item, Next;
    var st2 := InRoutine(st, st.ptr).(trace := tr);
    RoutineSteps(cfg, st2, f, p.fns[f], Return);
    assert Front(st2.stack) == st.stack && Top(st2.stack) == st.ptr;
    ReturnTurn(cfg, st2, Parent(cfg.aliases[f]) + [3]);
  }

  lemma TrapEnds(cfg: Config, r: Result, st: State, next: Path, fin: State, k: nat, fuel: nat)
    requires fuel > 0 && Lands(cfg, r, st, NoLoop, next, Land(cfg, fin), k, fuel)
    ensures match r.out
            case Normal => Land(cfg, fin) == At(cfg, st.(trace := r.trace), next)
            case Err(e) => Stopped(fin, e, r.trace)
            case Timeout => fin.status.Running? && fin.trace == r.trace && k >= fuel - 1
            case _ => false
  {
  }

  // ----- the same with INT -----

  /** Inside a handler entered by an INT that saved the parked address. */
  function InHandler(st: State, b: bool): State {
    var back := Resumed(st);
    back.(ctxs := st.ctxs + [Context(st.ptr, back.flags)], flags := back.flags.(iff := b))
  }

  /** The parked pointer is saved, not the INT's own address; the return stack is as it was and JMP stays set. */
  lemma InterruptEnters(p: Program, cfg: Config, h: Name, b: bool, addr: Path, st: State)
    requires Linked(p, cfg) && h in p.handlers && Parked(cfg, st)
    requires Locate(cfg.graph, addr) == Hit(Leaf(Interrupt(h, None, b)))
    requires |st.stack| < cfg.ovf && |st.ctxs| < cfg.ctxOvf && !st.flags.iff
    ensures h in cfg.aliases && cfg.aliases[h] != []
    ensures CallSub(cfg, cfg.nest, addr, st).0 == OK
    ensures RunTurns(cfg, Land(cfg, Boot(CallSub(cfg, cfg.nest, addr, st).1)), 2)
         == At(cfg, InHandler(st, b), Parent(cfg.aliases[h]) + [2])
  {
    assert RoutineAt(cfg, h, p.handlers[h], IntReturn);
    hide Item, Parts, Next, RunTurns, CallSub, Descend, RoutineAt;
    RoutineSteps(cfg, Resumed(st), h, p.handlers[h], IntReturn);
    CalledInterrupt(cfg, cfg.nest, addr, h, None, b, st);
    EntryTwice(cfg, h, p.handlers[h], IntReturn, InHandler(st, b));
  }

  /**
   A trap through INT runs the handler's body once, then flow goes on after
   the parked node with both stacks and IF as they were.
   */
  lemma InterruptRuns(p: Program, cfg: Config, h: Name, b: bool, addr: Path, st: State, fuel: nat) returns (k: nat)
    requires Linked(p, cfg) && SoundProgram(p) && h in p.handlers && Parked(cfg, st) && cfg.graph.Box?
    requires Locate(cfg.graph, addr) == Hit(Leaf(Interrupt(h, None, b)))
    requires |st.stack| < cfg.ovf && |st.ctxs| < cfg.ctxOvf && !st.flags.iff
    ensures CallSub(cfg, cfg.nest, addr, st).0 == OK
    ensures var at := Level(|st.stack|, |st.ctxs| + 1, b);
            var r := EvalItem(p, cfg, false, p.handlers[h], NoLoop, at, fuel, st.trace);
            var fin := Run(cfg, Boot(CallSub(cfg, cfg.nest, addr, st).1), k);
            match r.out
            case Normal => Land(cfg, fin) == At(cfg, Resumed(st).(trace := r.trace), Next(cfg.graph, st.ptr))
            case Err(e) => Stopped(fin, e, r.trace)
            case Timeout => fin.status.Running? && fin.trace == r.trace && k >= fuel
            case _ => false
  {
    ParkedReady(cfg, st, b);
    hide *;
    var body, st1 := p.handlers[h], InHandler(st, b);
    var at := Level(|st.stack|, |st.ctxs|, st.flags.iff);
    var at1 := Level(|st.stack|, |st.ctxs| + 1, b);
    var booted := Boot(CallSub(cfg, cfg.nest, addr, st).1);
    var next := Next(cfg.graph, st.ptr);
    RoutineReady(p, cfg, h, body, IntReturn, Resumed(st), NoLoop, at, st.ptr);
    InterruptEnters(p, cfg, h, b, addr, st);
    var q := Parent(cfg.aliases[h]);
    RoutineSteps(cfg, st1, h, body, IntReturn);
    var r := EvalItem(p, cfg, false, body, NoLoop, at1, fuel, st.trace);
    var k2 := RunItem(p, cfg, body, NoLoop, q + [2], st1, at1, fuel);
    HandlerLeaves(cfg, st, b, h, body, r.trace);
    k := RoutineLands(cfg, r, Resumed(st), st1, NoLoop, q + [2], q + [3], next, Land(cfg, booted), k2, fuel + 1);
    RunIsTurns(cfg, booted, k);
    TrapEnds(cfg, r, Resumed(st), next, Run(cfg, booted, k), k, fuel + 1);
  }

  lemma ParkedReady(cfg: Config, st: State, b: bool)
    requires Parked(cfg, st)
    ensures Ready(Resumed(st), NoLoop, Level(|st.stack|, |st.ctxs|, st.flags.iff))
    ensures Ready(InHandler(st, b), NoLoop, Level(|st.stack|, |st.ctxs| + 1, b)) && Active(InHandler(st, b))
    ensures InHandler(st, b).trace == st.trace && st.ptr != []
  {
  }

  lemma HandlerLeaves(cfg: Config, st: State, b: bool, h: Name, body: Src, tr: seq<Id>)
    requires RoutineAt(cfg, h, body, IntReturn) && Parked(cfg, st)
    ensures RunTurns(cfg, At(cfg, InHandler(st, b).(trace := tr), Parent(cfg.aliases[h]) + [3]), 1)
         == At(cfg, Resumed(st).(trace := tr), Next(cfg.graph, st.ptr))
  {
    hide RunTurns, Turn, At, RoutineAt, Item, Next, Locate;
    IntLeaves(cfg, Resumed(st).(trace := tr), st.ptr, h, b, body);
  }

  // ----- why the workflow has to be parked on a leaf -----

  lemma {:induction false} NextLeaves<T>(g: Tree<T>, p: Path)
    requires p != []
    ensures !(p <= Next(g, p))
    decreases |p|
  {
    match Locate(g, Parent(p))
    case Hit(Box(kids)) =>
      if Last(p) + 1 < |kids| {
        assert Next(g, p)[|p| - 1] == Last(p) + 1;
      } else if Parent(p) != [] {
        NextLeaves(g, Parent(p));
        assert Parent(p) <= p;
      }
    case _ =>
  }

  /** A return address is left behind if and only if it is not a container: RET into one enters it. */
  lemma ReturnSkips<T>(g: Tree<T>, back: Path)
    requires back != [] && Locate(g, back).Hit?
    ensures AdvancePointer(g, back) == Next(g, back) <==> !IsFull(Locate(g, back).tree)
  {
    NextLeaves(g, back);
  }
}
