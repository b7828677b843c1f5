/**
 The interpreter in the form it is written in: fields that methods update, the
 main loop a loop. Each method is proved to do what `Machine` says.
 */
module Interpreters {
  import opened Options
  import opened Addressing
  import opened Machine
  import Calculators = AddressCalculators
  import SquashedLoop

  class Interpreter {
    const cfg: Config
    const calculator: Calculators.AddressCalculator<Instr>
    const pointer: Calculators.PointerVector
    var retAddrStack: seq<Path>
    var contextStack: seq<Context>
    var flags: Flags
    var outerInterpreting: bool
    var executed: seq<Id>
    var status: Status

    constructor (cfg: Config)
      ensures Valid() && this.cfg == cfg && Now() == INITIAL && fresh(pointer)
    {
      this.cfg := cfg;
      calculator := new Calculators.AddressCalculator(cfg.graph);
      pointer := new Calculators.PointerVector([0]);
      retAddrStack := [];
      contextStack := [];
      flags := NO_FLAGS;
      outerInterpreting := false;
      executed := [];
      status := Running;
    }

    ghost predicate Valid() {
      calculator.graph == cfg.graph
    }

    ghost function Now(): State
      reads this, pointer
    {
      State(pointer.base, retAddrStack, contextStack, flags, outerInterpreting, executed, status)
    }

    // ----- stacks, flags and the pointer -----

    method PushReturn(ptr: Path) returns (out: Outcome)
      modifies this`retAddrStack
      ensures (out, Now()) == Push(cfg, old(Now()), ptr)
    {
      if |retAddrStack| >= cfg.ovf {
        return Throw(StackOverflow);
      }
      retAddrStack := retAddrStack + [ptr];
      out := OK;
    }

    method PopReturn() returns (ptr: Path)
      requires retAddrStack != []
      modifies this`retAddrStack
      ensures ptr == Top(old(retAddrStack)) && retAddrStack == Front(old(retAddrStack))
    {
      ptr := retAddrStack[|retAddrStack| - 1];
      retAddrStack := retAddrStack[..|retAddrStack| - 1];
    }

    /** The `markup` decorator: only the first jump of a cycle goes ahead. */
    method Markup() returns (go: bool)
      modifies this`flags
      ensures go == !old(flags).jmp
      ensures Now() == if go then Marked(old(Now())) else old(Now())
    {
      go := !flags.jmp;
      if go {
        flags := flags.(jmp := true, hlt := false);
      }
    }

    method RebasePtr(ptr: Path)
      modifies this`flags, pointer
      ensures Now() == Rebased(old(Now()), ptr)
    {
      flags := flags.(hlt := false);
      pointer.FarTo(ptr);
    }

    method JumpFarPtr(ptr: Path)
      modifies this`flags, pointer
      ensures Now() == JumpFar(old(Now()), ptr)
    {
      var go := Markup();
      if go {
        pointer.FarTo(ptr);
      }
    }

    method Near(index: nat) returns (out: Outcome)
      modifies this`flags, pointer
      ensures (out, Now()) == JumpNearBy(old(Now()), index)
    {
      out := OK;
      var go := Markup();
      if go {
        if pointer.base == [] {
          return Throw(BadIndex);
        }
        pointer.NearTo(index);
      }
    }

    method Offset(offset: nat) returns (out: Outcome)
      modifies this`flags, pointer
      ensures (out, Now()) == JumpOffsetBy(old(Now()), offset)
    {
      out := OK;
      var go := Markup();
      if go {
        if pointer.base == [] {
          return Throw(BadIndex);
        }
        pointer.Offset(offset);
      }
    }

    method JumpToAddr(addr: Path) returns (out: Outcome)
      requires Valid()
      modifies this`flags, pointer
      ensures (out, Now()) == JumpToAddress(cfg, old(Now()), addr)
    {
      out := OK;
      var go := Markup();
      if go {
        var target := calculator.FindAddrSafe(addr);
        if target.None? {
          return Throw(NullPointer);
        }
        pointer.FarTo(addr);
      }
    }

    // ----- calls and nodes -----

    method CallAt(nest: nat, addr: Path) returns (out: Outcome)
      requires Valid()
      modifies this, pointer
      ensures (out, Now()) == CallSub(cfg, nest, addr, old(Now()))
      decreases nest, 0
    {
      hide Exec, ExecNode;
      out := PushReturn(pointer.base);
      if out.Throw? {
        return;
      }
      pointer.FarTo(addr);
      outerInterpreting := true;
      if nest == 0 {
        out := Throw(RecursionLimit);
      } else {
        out := ExecuteNode(nest - 1);
      }
      outerInterpreting := false;
      if retAddrStack == [] {
        return Throw(StackUnderflow);
      }
      var ptr := PopReturn();
      if !flags.jmp {
        RebasePtr(ptr);
      }
    }

    /** `_call`: look the pointer up, descend through containers, execute the node. */
    method ExecuteNode(nest: nat) returns (out: Outcome)
      requires Valid()
      modifies this, pointer
      ensures (out, Now()) == ExecNode(cfg, nest, old(Now()))
      decreases nest, 3
    {
      hide Exec, CallSub;
      var found := calculator.FindAddrSafe(pointer.base);
      if found.None? {
        return Throw(NullPointer);
      }
      var ok := calculator.Land(pointer);
      if !ok {
        return Throw(NullPointer);
      }
      found := calculator.FindAddrSafe(pointer.base);
      out := Execute(nest, found.value.node);
    }

    /** The body of each kind of node. */
    method Execute(nest: nat, i: Instr) returns (out: Outcome)
      requires Valid()
      modifies this, pointer
      ensures (out, Now()) == Exec(cfg, nest, i, old(Now()))
      decreases nest, 2
    {
      hide CallSub, FirstCatch, Descend, Locate;
      match i
      case Act(id) =>
        executed := executed + [id];
        out := cfg.oracle(executed);
      case Nop => out := OK;
      case Entry(_) => out := OK;
      case Suspend => out := Throw(Suspended);
      case Reset => out := Throw(ResetNotice);
      case EnterBody(bodyPos, push) => out := EnterBubble(bodyPos, push);
      case Control(target) => out := RunControl(target);
      case JumpNear(index) => out := Near(index);
      case JumpOffset(offset) => out := Offset(offset);
      case JumpTo(entry) =>
        if entry in cfg.aliases {
          out := JumpToAddr(cfg.aliases[entry]);
        } else {
          out := Throw(NullPointer);
        }
      case Escape =>
        RebasePtr(OffsetCopy(pointer.base, 3));
        out := OK;
      case Return =>
        out := RunReturn();
      case Call(entry) => out := RunCall(entry);
      case Interrupt(entry, retTo, ifState) => out := RunInterrupt(entry, retTo, ifState);
      case IntReturn => out := RunIntReturn();
      case Invoke(entry) =>
        if entry in cfg.aliases {
          out := CallAt(nest, cfg.aliases[entry]);
        } else {
          out := Throw(NullPointer);
        }
      case WhileHead(condOff, bodyPos, selfPos, exitPos) => out := RunWhileHead(nest, i);
      case DoCheck(_, _, _) => out := RunDoCheck(nest, i);
      case IfHead(_, _, _, _, _, _) => out := RunIfHead(nest, i);
      case CondJump(_, _, _, _) => out := RunCondJump(nest, i);
      case ElseDo(_, _) => out := RunElseDo(nest, i);
      case LoopHead(_, _, _, _) => out := RunLoopHead(nest, i);
      case TryHead(_, _, _, _, _) => out := RunTryHead(nest, i);
    }

    method RunDoCheck(nest: nat, i: Instr) returns (out: Outcome)
      requires Valid() && i.DoCheck?
      modifies this, pointer
      ensures (out, Now()) == Exec(cfg, nest, i, old(Now()))
      decreases nest, 1
    {
      out := CallAt(nest, OffsetCopy(pointer.base, i.condOff));
      if out.Ret? {
        out := Near(if out.value then i.loopPos else i.exitPos);
      }
    }

    method RunElseDo(nest: nat, i: Instr) returns (out: Outcome)
      requires Valid() && i.ElseDo?
      modifies this, pointer
      ensures (out, Now()) == Exec(cfg, nest, i, old(Now()))
      decreases nest, 1
    {
      out := CallAt(nest, OffsetCopy(pointer.base, i.doOff));
      if out.Ret? {
        out := Offset(i.thenOff);
      }
    }

    method RunReturn() returns (out: Outcome)
      modifies this, pointer
      ensures (out, Now()) == Exec(cfg, 0, Return, old(Now()))
    {
      if retAddrStack == [] {
        return Throw(StackUnderflow);
      }
      var ptr := PopReturn();
      RebasePtr(ptr);
      out := OK;
    }

    method EnterBubble(bodyPos: nat, push: bool) returns (out: Outcome)
      modifies this, pointer
      ensures (out, Now()) == Exec(cfg, 0, EnterBody(bodyPos, push), old(Now()))
    {
      var parent := Slice(pointer.base);
      out := OK;
      if push {
        out := PushReturn(parent + [0]);
        if out.Throw? {
          return;
        }
      }
      JumpFarPtr(parent + [bodyPos, 0]);
    }

    /** CONTINUE and BREAK_LOOP. */
    method RunControl(target: Option<nat>) returns (out: Outcome)
      modifies this, pointer
      ensures (out, Now()) == Exec(cfg, 0, Control(target), old(Now()))
    {
      if target.None? {
        return Throw(NotConfigured);
      }
      if retAddrStack == [] {
        return Throw(StackUnderflow);
      }
      var frame := PopReturn();
      JumpFarPtr(Slice(frame) + [target.value]);
      out := OK;
    }

    method RunCall(entry: Name) returns (out: Outcome)
      requires Valid()
      modifies this, pointer
      ensures (out, Now()) == Exec(cfg, 0, Call(entry), old(Now()))
    {
      if entry !in cfg.aliases {
        return Throw(NullPointer);
      }
      out := PushReturn(pointer.base);
      if out.Ret? {
        out := JumpToAddr(cfg.aliases[entry]);
      }
    }

    method RunInterrupt(entry: Name, retTo: Option<Path>, ifState: bool) returns (out: Outcome)
      requires Valid()
      modifies this, pointer
      ensures (out, Now()) == Exec(cfg, 0, Interrupt(entry, retTo, ifState), old(Now()))
    {
      if entry !in cfg.aliases {
        return Throw(NullPointer);
      }
      if flags.iff {
        return Throw(NestedInterrupt);
      }
      var back := pointer.base;
      if retTo.Some? {
        back := retTo.value;
      } else if outerInterpreting {
        if retAddrStack == [] {
          return Throw(BadIndex);
        }
        back := retAddrStack[|retAddrStack| - 1];
      }
      if |contextStack| >= cfg.ctxOvf {
        return Throw(StackOverflow);
      }
      contextStack := contextStack + [Context(back, flags.(hlt := false))];
      flags := flags.(iff := ifState);
      out := JumpToAddr(cfg.aliases[entry]);
    }

    method RunIntReturn() returns (out: Outcome)
      modifies this, pointer
      ensures (out, Now()) == Exec(cfg, 0, IntReturn, old(Now()))
    {
      if contextStack == [] {
        return Throw(StackUnderflow);
      }
      var context := contextStack[|contextStack| - 1];
      contextStack := contextStack[..|contextStack| - 1];
      RebasePtr(context.ptr);
      flags := context.flags;
      out := OK;
    }

    method RunWhileHead(nest: nat, i: Instr) returns (out: Outcome)
      requires Valid() && i.WhileHead?
      modifies this, pointer
      ensures (out, Now()) == Exec(cfg, nest, i, old(Now()))
      decreases nest, 1
    {
      hide CallSub;
      out := CallAt(nest, OffsetCopy(pointer.base, i.condOff));
      if out.Throw? {
        return;
      }
      if out.value {
        var parent := Slice(pointer.base);
        out := PushReturn(parent + [i.selfPos]);
        if out.Ret? {
          JumpFarPtr(parent + [i.bodyPos, 0]);
        }
      } else {
        out := Near(i.exitPos);
      }
    }

    method RunIfHead(nest: nat, i: Instr) returns (out: Outcome)
      requires Valid() && i.IfHead?
      modifies this, pointer
      ensures (out, Now()) == Exec(cfg, nest, i, old(Now()))
      decreases nest, 1
    {
      hide CallSub;
      out := CallAt(nest, OffsetCopy(pointer.base, i.condOff));
      if out.Throw? {
        return;
      }
      if !out.value {
        out := Near(i.falsePos);
      } else if i.single {
        out := CallAt(nest, OffsetCopy(pointer.base, i.doOff));
        if out.Ret? {
          out := Near(i.retPos);
        }
      } else {
        JumpFarPtr(Slice(pointer.base) + [i.doPos, 0]);
        out := OK;
      }
    }

    method RunCondJump(nest: nat, i: Instr) returns (out: Outcome)
      requires Valid() && i.CondJump?
      modifies this, pointer
      ensures (out, Now()) == Exec(cfg, nest, i, old(Now()))
      decreases nest, 1
    {
      hide CallSub;
      out := CallAt(nest, OffsetCopy(pointer.base, i.condOff));
      if out.Throw? {
        return;
      }
      if out.value {
        out := CallAt(nest, OffsetCopy(pointer.base, i.doOff));
        if out.Ret? {
          out := Near(i.thenPos);
        }
      } else {
        out := Offset(i.falseOff);
      }
    }

    /** `_while_worker`, not squashed: one round, then a jump. */
    method RunLoopHead(nest: nat, i: Instr) returns (out: Outcome)
      requires Valid() && i.LoopHead?
      modifies this, pointer
      ensures (out, Now()) == Exec(cfg, nest, i, old(Now()))
      decreases nest, 1
    {
      hide CallSub;
      out := CallAt(nest, OffsetCopy(pointer.base, i.condOff));
      if out.Throw? {
        return;
      }
      if !out.value {
        out := Near(i.elsePos);
        return;
      }
      out := CallAt(nest, OffsetCopy(pointer.base, i.doOff));
      if out == Throw(BreakLoop) {
        out := Near(i.elsePos);
      } else if out.Ret? {
        out := Near(i.checkPos);
      }
    }

    /** `_while_worker`, squashed: the loop inside the node, for at most `rounds` rounds. */
    method RunSquashed(rounds: nat) returns (out: Option<Outcome>)
      requires Valid()
      modifies this, pointer
      ensures match SquashedLoop.Squashed(cfg, old(Now()), rounds)
              case Some((o, st)) => out == Some(o) && Now() == st
              case None => out.None?
    {
      hide CallSub;
      var n := 0;
      while n < rounds
        invariant n <= rounds
        invariant SquashedLoop.Squashed(cfg, old(Now()), rounds) == SquashedLoop.Squashed(cfg, Now(), rounds - n)
      {
        var c := CallAt(cfg.nest, OffsetCopy(pointer.base, 1));
        if c == Throw(BreakLoop) {
          c := Near(4);
          return Some(c);
        }
        if c.Throw? {
          return Some(c);
        }
        if !c.value {
          c := Near(4);
          return Some(c);
        }
        var d := CallAt(cfg.nest, OffsetCopy(pointer.base, 2));
        if d == Throw(BreakLoop) {
          d := Near(4);
          return Some(d);
        }
        if d.Throw? {
          return Some(d);
        }
        if flags.jmp {
          d := Near(4);
          return Some(d);
        }
        n := n + 1;
      }
      out := None;
    }

    /** `TryNode._worker`: try, then a handler or THEN, then FINALLY on every path, then the escape. */
    method RunTryHead(nest: nat, i: Instr) returns (out: Outcome)
      requires Valid() && i.TryHead?
      modifies this, pointer
      ensures (out, Now()) == Exec(cfg, nest, i, old(Now()))
      decreases nest, 1
    {
      hide CallSub;
      out := CallAt(nest, NearCopy(pointer.base, i.doPos));
      if out.Throw? {
        if !cfg.ignored(out.exn) {
          var handler := FindCatch(out.exn, i.catches);
          if handler.Some? {
            out := CallAt(nest, NearCopy(pointer.base, handler.value));
          }
        }
      } else if i.thnPos.Some? {
        out := CallAt(nest, NearCopy(pointer.base, i.thnPos.value));
      }
      if i.finPos.Some? {
        var fin := CallAt(nest, NearCopy(pointer.base, i.finPos.value));
        if fin.Throw? {
          return fin;
        }
      }
      if out.Ret? {
        out := Near(i.escapePos);
      }
    }

    /** The loop over the handlers. */
    method FindCatch(e: Exn, catches: seq<(ExnClass, nat)>) returns (addr: Option<nat>)
      ensures addr == FirstCatch(cfg, e, catches)
      ensures if addr.Some? then exists k: nat :: Takes(cfg, e, catches, k) && catches[k].1 == addr.value
              else forall i | 0 <= i < |catches| :: !cfg.instance(e, catches[i].0)
    {
      FirstCatchExact(cfg, e, catches);
      for k := 0 to |catches|
        invariant FirstCatch(cfg, e, catches) == FirstCatch(cfg, e, catches[k..])
      {
        if cfg.instance(e, catches[k].0) {
          return Some(catches[k].1);
        }
        assert catches[k..][1..] == catches[k + 1..];
      }
      return None;
    }

    // ----- the main loop -----

    method AdvancePointerVector()
      requires Valid()
      modifies this`status, pointer
      ensures Now() == Advance(cfg, old(Now()))
    {
      var r := calculator.Advance(pointer);
      match r
      case Moved =>
      case Ended => status := Done;
      case Raised => status := Panicked(NullPointer);
    }

    method ResetAll()
      modifies this, pointer
      ensures Now() == Cleared(old(Now()))
    {
      pointer.FarTo([]);
      retAddrStack := [];
      flags := NO_FLAGS;
      contextStack := [];
      outerInterpreting := false;
      status := Done;
    }

    /** One round of the loop, with the handlers of the exceptions it can raise. */
    method Round()
      requires Valid() && status.Running?
      modifies this, pointer
      ensures Now() == Cycle(cfg, old(Now()))
    {
      hide Exec, ExecNode;
      if pointer.base == [] {
        if !IsFull(calculator.graph) {
          status := Done;
          return;
        }
        pointer.Append(0);
        assert pointer.base == [0];
      }
      if flags.hlt {
        flags := flags.(hlt := false);
        ghost var here := Now();
        AdvancePointerVector();
        assert Now() == Advance(cfg, here);
        return;
      }
      var out := ExecuteNode(cfg.nest);
      match out
      case Throw(Suspended) =>
        flags := flags.(hlt := true);
        status := Halted;
      case Throw(ResetNotice) => ResetAll();
      case Throw(e) => status := Panicked(e);
      case Ret(_) =>
        if flags.jmp {
          flags := flags.(jmp := false);
        } else {
          AdvancePointerVector();
        }
    }

    /** `run`, for at most `turns` rounds: entered afresh whatever stopped the last run. */
    method RunStepBy(turns: nat)
      requires Valid()
      modifies this, pointer
      ensures Now() == Run(cfg, Boot(old(Now())), turns)
    {
      hide Cycle;
      status := Running;
      ghost var start := Now();
      var n := 0;
      while n < turns && status.Running?
        invariant n <= turns
        invariant Run(cfg, start, turns) == Run(cfg, Now(), turns - n)
      {
        Round();
        n := n + 1;
      }
      if !status.Running? {
        RunStopped(cfg, Now(), turns - n);
      }
    }

    /** Running, and running again whenever the workflow has halted, for `turns` rounds in all. */
    method RunSession(turns: nat)
      requires Valid()
      modifies this, pointer
      ensures Now() == Session(cfg, old(Now()), turns)
    {
      hide Cycle;
      ghost var start := Now();
      var n := 0;
      while n < turns && (status.Running? || status.Halted?)
        invariant n <= turns
        invariant Session(cfg, start, turns) == Session(cfg, Now(), turns - n)
      {
        status := Running;
        Round();
        n := n + 1;
      }
      if n < turns {
        SessionStopped(cfg, Now(), turns - n);
      }
    }
  }
}
