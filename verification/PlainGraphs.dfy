/**
 Graphs in which no call reaches a SUSPEND: a condition on the graph alone, for
 the suspend theorems.
 */
module PlainGraphs {
  import opened Options
  import opened Addressing
  import opened Machine
  import opened Turns
  import opened Discipline
  import opened Subcalls
  import opened Suspends

  // ----- containers without SUSPEND -----

  /** An instruction that calls and jumps inside its own container only. */
  predicate Local(i: Instr) {
    i.Act? || i.Nop? || i.CondJump? || i.ElseDo? || i.LoopHead? || i.TryHead? || i.JumpNear?
  }

  predicate Dry(t: Tree<Instr>)
    decreases t
  {
    match t
    case Leaf(i) => Local(i)
    case Box(kids) => forall k | k in kids :: Dry(k)
  }

  ghost predicate DryAt(cfg: Config, q: Path) {
    Locate(cfg.graph, q).Hit? && Locate(cfg.graph, q).tree.Box? && Dry(Locate(cfg.graph, q).tree)
  }

  /** `p` is an address inside the container at `q`. */
  predicate Inside(q: Path, p: Path) {
    |p| > |q| && q <= p
  }

  lemma InsideMoves(q: Path, p: Path, j: nat)
    requires Inside(q, p)
    ensures Inside(q, NearCopy(p, j)) && Inside(q, OffsetCopy(p, j)) && Inside(q, Parent(p) + [j])
  {
    assert q <= Parent(p);
  }

  lemma {:induction false} DryBelow(t: Tree<Instr>, p: Path)
    requires Dry(t) && Locate(t, p).Hit?
    ensures Dry(Locate(t, p).tree)
    decreases |p|
  {
    if p != [] {
      assert t.kids[p[0]] in t.kids;
      DryBelow(t.kids[p[0]], p[1..]);
    }
  }

  lemma DryInside(cfg: Config, q: Path, p: Path)
    requires DryAt(cfg, q) && Inside(q, p) && Locate(cfg.graph, p).Hit?
    ensures Dry(Locate(cfg.graph, p).tree)
  {
    var rest := p[|q|..];
    assert p == q + rest;
    LocateAppend(cfg.graph, q, rest);
    DryBelow(Locate(cfg.graph, q).tree, rest);
  }

  /** The pointer is inside the container, and the return stack is as it was. */
  predicate Stays(q: Path, st: State, st': State) {
    Inside(q, st'.ptr) && st'.stack == st.stack
  }

  /** A call inside such a container is quiet; it puts the pointer back or leaves it inside. */
  lemma {:induction false} DryCall(cfg: Config, nest: nat, q: Path, addr: Path, st: State)
    requires DryAt(cfg, q) && Inside(q, addr)
    ensures var st' := CallSub(cfg, nest, addr, st).1;
            && Quiet(cfg, nest, addr, st) && st'.stack == st.stack
            && (Inside(q, st'.ptr) || (st'.ptr == st.ptr && (!st.flags.jmp ==> !st'.flags.jmp)))
    decreases nest, 0
  {
    hide Exec, Calls, Dry;
    if |st.stack| < cfg.ovf {
      var st2 := st.(stack := st.stack + [st.ptr], ptr := addr, outer := true);
      assert Top(st2.stack) == st.ptr && Front(st2.stack) == st.stack;
      if nest > 0 {
        var p := Descend(cfg.graph, addr);
        assert Inside(q, p);
        match Locate(cfg.graph, p)
        case Hit(Leaf(i)) =>
          var entered := Entered(cfg, addr, st);
          DryInside(cfg, q, p);
          assert Local(i) by { LeafDry(i); }
          assert ExecNode(cfg, nest - 1, st2) == Exec(cfg, nest - 1, i, entered);
          DryNode(cfg, nest - 1, q, i, entered);
        case _ =>
      }
    }
  }

  /** Calling such a container from outside. */
  lemma DryEnter(cfg: Config, nest: nat, q: Path, st: State)
    requires DryAt(cfg, q) && !st.flags.jmp
    ensures var st' := CallSub(cfg, nest, q, st).1;
            Quiet(cfg, nest, q, st) && (Inside(q, st'.ptr) || (st'.ptr == st.ptr && !st'.flags.jmp))
  {
    hide Exec, Calls, Dry;
    var p := Descend(cfg.graph, q);
    if p == q {
      assert FirstStop(Locate(cfg.graph, q).tree) == [];
      EmptyCall(cfg, nest, q, st);
    } else {
      assert Inside(q, p);
      DescendTwice(cfg.graph, q);
      DescendStops(cfg.graph, q);
      DryCall(cfg, nest, q, p, st);
      SameCall(cfg, nest, q, p, st);
    }
  }

  /** A call does not depend on whether its address was taken down beforehand. */
  lemma SameCall(cfg: Config, nest: nat, q: Path, p: Path, st: State)
    requires Descend(cfg.graph, q) == Descend(cfg.graph, p)
    requires Locate(cfg.graph, Descend(cfg.graph, q)).Hit?
    ensures Quiet(cfg, nest, q, st) == Quiet(cfg, nest, p, st)
    ensures |st.stack| < cfg.ovf && nest > 0 ==> CallSub(cfg, nest, q, st) == CallSub(cfg, nest, p, st)
    ensures !(|st.stack| < cfg.ovf && nest > 0) && !st.flags.jmp ==>
              CallSub(cfg, nest, q, st).1.ptr == st.ptr && !CallSub(cfg, nest, q, st).1.flags.jmp
  {
    hide Exec, Calls, QuietNode;
    var st2 := st.(stack := st.stack + [st.ptr], outer := true);
    assert Top(st2.stack) == st.ptr && Front(st2.stack) == st.stack;
    if |st.stack| < cfg.ovf && nest > 0 {
      assert ExecNode(cfg, nest - 1, st2.(ptr := q)) == ExecNode(cfg, nest - 1, st2.(ptr := p));
    }
  }

  lemma EmptyCall(cfg: Config, nest: nat, q: Path, st: State)
    requires Descend(cfg.graph, q) == q && Locate(cfg.graph, q).Hit? && Locate(cfg.graph, q).tree.Box? && !st.flags.jmp
    ensures var st' := CallSub(cfg, nest, q, st).1;
            Quiet(cfg, nest, q, st) && st'.ptr == st.ptr && !st'.flags.jmp
  {
    hide Exec, Calls;
    var st2 := st.(stack := st.stack + [st.ptr], ptr := q, outer := true);
    assert Top(st2.stack) == st.ptr;
    if |st.stack| < cfg.ovf && nest > 0 {
      assert ExecNode(cfg, nest - 1, st2) == (Throw(NullPointer), st2);
    }
  }

  lemma LeafDry(i: Instr)
    ensures Dry(Leaf(i)) <==> Local(i)
  {
  }

  lemma JumpsInside(q: Path, st: State, j: nat)
    requires Inside(q, st.ptr)
    ensures Stays(q, st, JumpNearBy(st, j).1) && Stays(q, st, JumpOffsetBy(st, j).1)
  {
    InsideMoves(q, st.ptr, j);
  }

  lemma {:induction false} DryNode(cfg: Config, nest: nat, q: Path, i: Instr, st: State)
    requires DryAt(cfg, q) && Inside(q, st.ptr) && Local(i)
    ensures QuietNode(cfg, nest, i, st) && Stays(q, st, Exec(cfg, nest, i, st).1)
    decreases nest, 1, 1
  {
    if i.TryHead? {
      DryTry(cfg, nest, q, i, st);
    } else if i.CondJump? || i.LoopHead? {
      DryTwo(cfg, nest, q, i, st);
    } else if i.ElseDo? {
      hide CallSub, Quiet, OffsetCopy, Inside, DryAt;
      DryOffset(cfg, nest, q, st, i.doOff);
      JumpsInside(q, CallSub(cfg, nest, OffsetCopy(st.ptr, i.doOff), st).1, i.thenOff);
    } else if i.JumpNear? {
      JumpsInside(q, st, i.index);
    }
  }

  lemma {:induction false} DryOffset(cfg: Config, nest: nat, q: Path, st: State, off: nat)
    requires DryAt(cfg, q) && Inside(q, st.ptr)
    ensures var a := OffsetCopy(st.ptr, off);
            Quiet(cfg, nest, a, st) && Stays(q, st, CallSub(cfg, nest, a, st).1)
    decreases nest, 1, 0, 0
  {
    hide CallSub, Quiet, DryAt;
    assert Inside(q, OffsetCopy(st.ptr, off)) by {
      assert q <= Parent(st.ptr);
    }
    DryCall(cfg, nest, q, OffsetCopy(st.ptr, off), st);
  }

  lemma {:induction false} DryNear(cfg: Config, nest: nat, q: Path, st: State, j: nat)
    requires DryAt(cfg, q) && Inside(q, st.ptr)
    ensures var a := NearCopy(st.ptr, j);
            Quiet(cfg, nest, a, st) && Stays(q, st, CallSub(cfg, nest, a, st).1)
    decreases nest, 1, 0, 0
  {
    hide CallSub, Quiet, DryAt;
    InsideMoves(q, st.ptr, j);
    DryCall(cfg, nest, q, NearCopy(st.ptr, j), st);
  }

  /** A condition and, if it holds, a branch or an action. */
  lemma {:induction false} DryTwo(cfg: Config, nest: nat, q: Path, i: Instr, st: State)
    requires DryAt(cfg, q) && Inside(q, st.ptr) && (i.CondJump? || i.LoopHead?)
    ensures QuietNode(cfg, nest, i, st) && Stays(q, st, Exec(cfg, nest, i, st).1)
    decreases nest, 1, 0, 1
  {
    hide CallSub, Quiet, OffsetCopy, Inside, DryAt, JumpNearBy, JumpOffsetBy;
    DryOffset(cfg, nest, q, st, i.condOff);
    var (c, st1) := CallSub(cfg, nest, OffsetCopy(st.ptr, i.condOff), st);
    DryOffset(cfg, nest, q, st1, i.doOff);
    var st2 := CallSub(cfg, nest, OffsetCopy(st1.ptr, i.doOff), st1).1;
    if i.CondJump? {
      JumpsInside(q, st1, i.falseOff);
      JumpsInside(q, st2, i.thenPos);
    } else {
      JumpsInside(q, st1, i.elsePos);
      JumpsInside(q, st2, i.elsePos);
      JumpsInside(q, st2, i.checkPos);
    }
  }

  lemma {:induction false} DryTry(cfg: Config, nest: nat, q: Path, i: Instr, st: State)
    requires DryAt(cfg, q) && Inside(q, st.ptr) && i.TryHead?
    ensures QuietNode(cfg, nest, i, st) && Stays(q, st, Exec(cfg, nest, i, st).1)
    decreases nest, 1, 0, 1
  {
    hide CallSub, Quiet, NearCopy, Inside, DryAt, JumpNearBy, FirstCatch;
    DryNear(cfg, nest, q, st, i.doPos);
    var (d, st1) := CallSub(cfg, nest, NearCopy(st.ptr, i.doPos), st);
    var handler := if d.Ret? then i.thnPos else if cfg.ignored(d.exn) then None else FirstCatch(cfg, d.exn, i.catches);
    var st2 := st1;
    if handler.Some? {
      DryNear(cfg, nest, q, st1, handler.value);
      st2 := CallSub(cfg, nest, NearCopy(st1.ptr, handler.value), st1).1;
    }
    var st3 := st2;
    if i.finPos.Some? {
      DryNear(cfg, nest, q, st2, i.finPos.value);
      st3 := CallSub(cfg, nest, NearCopy(st2.ptr, i.finPos.value), st2).1;
    }
    JumpsInside(q, st3, i.escapePos);
  }

  // ----- calls of user nodes and NOPs -----

  /** The addresses a node at `p` calls if no call moves the pointer. */
  function Operands(cfg: Config, i: Instr, p: Path): seq<Path> {
    match i
    case WhileHead(condOff, _, _, _) => [OffsetCopy(p, condOff)]
    case DoCheck(condOff, _, _) => [OffsetCopy(p, condOff)]
    case IfHead(condOff, doOff, _, _, _, single) =>
      [OffsetCopy(p, condOff)] + if single then [OffsetCopy(p, doOff)] else []
    case CondJump(condOff, doOff, _, _) => [OffsetCopy(p, condOff), OffsetCopy(p, doOff)]
    case ElseDo(doOff, _) => [OffsetCopy(p, doOff)]
    case LoopHead(condOff, doOff, _, _) => [OffsetCopy(p, condOff), OffsetCopy(p, doOff)]
    case TryHead(doPos, catches, finPos, thnPos, _) =>
      [NearCopy(p, doPos)]
      + seq(|catches|, k requires 0 <= k < |catches| => NearCopy(p, catches[k].1))
      + (if thnPos.None? then [] else [NearCopy(p, thnPos.value)])
      + (if finPos.None? then [] else [NearCopy(p, finPos.value)])
    case Invoke(entry) => if entry in cfg.aliases then [cfg.aliases[entry]] else []
    case _ => []
  }

  ghost predicate Harmless(cfg: Config, a: Path) {
    match Locate(cfg.graph, Descend(cfg.graph, a))
    case Hit(Leaf(i)) => i.Act? || i.Nop? || DryAt(cfg, a)
    case _ => true
  }

  /**
   Every node only ever calls user nodes, NOPs, and containers without SUSPEND:
   a condition on the rendered graph alone.
   */
  ghost predicate PlainCalls(cfg: Config) {
    forall p | Locate(cfg.graph, p).Hit? && Locate(cfg.graph, p).tree.Leaf? ::
      forall a | a in Operands(cfg, Locate(cfg.graph, p).tree.node, p) :: Harmless(cfg, a)
  }

  /** The machine stands on the calling node again, or inside a container without SUSPEND. */
  ghost predicate Fine(cfg: Config, p: Path, st: State) {
    (st.ptr == p && !st.flags.jmp) || exists q :: DryAt(cfg, q) && Inside(q, st.ptr)
  }

  /** A call of a user node, of a NOP, or of nothing puts the pointer back and makes no call itself. */
  lemma HarmlessCall(cfg: Config, nest: nat, a: Path, st: State)
    requires Harmless(cfg, a) && !DryAt(cfg, a) && !st.flags.jmp
    ensures Quiet(cfg, nest, a, st)
    ensures CallSub(cfg, nest, a, st).1.ptr == st.ptr && !CallSub(cfg, nest, a, st).1.flags.jmp
  {
    if |st.stack| < cfg.ovf && nest > 0 {
      var st2 := st.(stack := st.stack + [st.ptr], ptr := a, outer := true);
      var st3 := st2.(ptr := Descend(cfg.graph, a));
      assert Top(st3.stack) == st.ptr;
      match Locate(cfg.graph, Descend(cfg.graph, a))
      case Hit(Leaf(i)) => assert ExecNode(cfg, nest - 1, st2) == Exec(cfg, nest - 1, i, st3);
      case _ => assert ExecNode(cfg, nest - 1, st2) == (Throw(NullPointer), st3);
    }
  }

  /** The next call of the node at `p`: of its operand `a`, or of what is found inside the container jumped to. */
  lemma FineCall(cfg: Config, p: Path, a: Path, b: Path, st: State)
    requires Fine(cfg, p, st) && Harmless(cfg, a)
    requires st.ptr == p ==> b == a
    requires forall q :: Inside(q, st.ptr) ==> Inside(q, b)
    ensures Quiet(cfg, cfg.nest, b, st) && Fine(cfg, p, CallSub(cfg, cfg.nest, b, st).1)
  {
    hide Quiet, CallSub, DryAt, Inside;
    if st.ptr == p && !st.flags.jmp {
      if DryAt(cfg, a) {
        DryEnter(cfg, cfg.nest, a, st);
      } else {
        HarmlessCall(cfg, cfg.nest, a, st);
      }
    } else {
      var q :| DryAt(cfg, q) && Inside(q, st.ptr);
      DryCall(cfg, cfg.nest, q, b, st);
    }
  }

  lemma FineNear(cfg: Config, p: Path, j: nat, st: State)
    requires Fine(cfg, p, st) && Harmless(cfg, NearCopy(p, j))
    ensures var a := NearCopy(st.ptr, j);
            Quiet(cfg, cfg.nest, a, st) && Fine(cfg, p, CallSub(cfg, cfg.nest, a, st).1)
  {
    hide Quiet, CallSub, Fine, Harmless;
    forall q | Inside(q, st.ptr)
      ensures Inside(q, NearCopy(st.ptr, j))
    {
      InsideMoves(q, st.ptr, j);
    }
    FineCall(cfg, p, NearCopy(p, j), NearCopy(st.ptr, j), st);
  }

  lemma FineOffset(cfg: Config, p: Path, off: nat, st: State)
    requires Fine(cfg, p, st) && Harmless(cfg, OffsetCopy(p, off))
    ensures var a := OffsetCopy(st.ptr, off);
            Quiet(cfg, cfg.nest, a, st) && Fine(cfg, p, CallSub(cfg, cfg.nest, a, st).1)
  {
    hide Quiet, CallSub, Fine, Harmless;
    forall q | Inside(q, st.ptr)
      ensures Inside(q, OffsetCopy(st.ptr, off))
    {
      assert q <= Parent(st.ptr);
    }
    FineCall(cfg, p, OffsetCopy(p, off), OffsetCopy(st.ptr, off), st);
  }

  /** None of the calls a node makes reaches a SUSPEND. */
  lemma PlainNode(cfg: Config, i: Instr, st: State)
    requires PlainCalls(cfg) && !st.flags.jmp && Locate(cfg.graph, st.ptr) == Hit(Leaf(i))
    ensures QuietNode(cfg, cfg.nest, i, st)
  {
    var p := st.ptr;
    var ops := Operands(cfg, i, p);
    assert forall a | a in ops :: Harmless(cfg, a);
    assert Fine(cfg, p, st);
    hide CallSub, Quiet, Harmless, FirstCatch, NearCopy, OffsetCopy, Locate, TrySecond, PlainCalls, Fine;
    if i.TryHead? {
      PlainTry(cfg, i, st);
    } else if i.Invoke? {
      if i.entry in cfg.aliases {
        assert ops[0] in ops;
        FineInvoke(cfg, cfg.aliases[i.entry], st);
      }
    } else if i.ElseDo? {
      assert ops[0] in ops;
      FineOffset(cfg, p, i.doOff, st);
    } else if ops != [] {
      PlainTwo(cfg, i, st);
    }
  }

  /** A node that calls its condition, and perhaps what depends on it. */
  lemma PlainTwo(cfg: Config, i: Instr, st: State)
    requires i.WhileHead? || i.DoCheck? || i.IfHead? || i.CondJump? || i.LoopHead?
    requires Fine(cfg, st.ptr, st)
    requires forall a | a in Operands(cfg, i, st.ptr) :: Harmless(cfg, a)
    ensures QuietNode(cfg, cfg.nest, i, st)
  {
    hide CallSub, Quiet, Harmless, FirstCatch, NearCopy, OffsetCopy, Locate, TrySecond, PlainCalls, Fine;
    var p := st.ptr;
    var ops := Operands(cfg, i, p);
    assert ops[0] in ops && ops[|ops| - 1] in ops;
    FineOffset(cfg, p, i.condOff, st);
    if |ops| > 1 {
      FineOffset(cfg, p, i.doOff, CallSub(cfg, cfg.nest, OffsetCopy(p, i.condOff), st).1);
    }
  }

  lemma FineInvoke(cfg: Config, a: Path, st: State)
    requires Harmless(cfg, a) && !st.flags.jmp
    ensures Quiet(cfg, cfg.nest, a, st)
  {
    if DryAt(cfg, a) {
      DryEnter(cfg, cfg.nest, a, st);
    } else {
      HarmlessCall(cfg, cfg.nest, a, st);
    }
  }

  lemma PlainTry(cfg: Config, i: Instr, st: State)
    requires i.TryHead? && Fine(cfg, st.ptr, st)
    requires forall a | a in Operands(cfg, i, st.ptr) :: Harmless(cfg, a)
    ensures QuietNode(cfg, cfg.nest, i, st)
  {
    hide CallSub, Quiet, FirstCatch, NearCopy, Operands, Harmless, Fine;
    var p := st.ptr;
    TryListed(cfg, i, p);
    FineNear(cfg, p, i.doPos, st);
    var (d, st1) := CallSub(cfg, cfg.nest, NearCopy(p, i.doPos), st);
    var handler := if d.Ret? then i.thnPos else if cfg.ignored(d.exn) then None else FirstCatch(cfg, d.exn, i.catches);
    var st2 := st1;
    if handler.Some? {
      TrySecondListed(cfg, i, d, p, handler.value);
      FineNear(cfg, p, handler.value, st1);
      st2 := CallSub(cfg, cfg.nest, NearCopy(st1.ptr, handler.value), st1).1;
    }
    if i.finPos.Some? {
      FineNear(cfg, p, i.finPos.value, st2);
    }
  }

  lemma TryListed(cfg: Config, i: Instr, p: Path)
    requires i.TryHead?
    ensures NearCopy(p, i.doPos) in Operands(cfg, i, p)
    ensures i.finPos.Some? ==> NearCopy(p, i.finPos.value) in Operands(cfg, i, p)
  {
    hide NearCopy;
    var ops := Operands(cfg, i, p);
    assert ops[0] == NearCopy(p, i.doPos);
    assert i.finPos.Some? ==> ops[|ops| - 1] == NearCopy(p, i.finPos.value);
  }

  lemma TrySecondListed(cfg: Config, i: Instr, d: Outcome, p: Path, j: nat)
    requires i.TryHead?
    requires Some(j) == if d.Ret? then i.thnPos
                        else if cfg.ignored(d.exn) then None
                        else FirstCatch(cfg, d.exn, i.catches)
    ensures NearCopy(p, j) in Operands(cfg, i, p)
  {
    hide NearCopy, FirstCatch;
    var ops := Operands(cfg, i, p);
    if d.Throw? {
      var k := CatchListed(cfg, d.exn, i.catches);
      assert ops[1 + k] == NearCopy(p, j);
    } else {
      assert ops[1 + |i.catches|] == NearCopy(p, j);
    }
  }

  /** A graph with plain calls is quiet throughout every session. */
  lemma {:induction false} PlainQuiet(cfg: Config, st: State, n: nat)
    requires PlainCalls(cfg) && NeverSuspends(cfg) && cfg.graph.Box? && Flowing(st)
    ensures QuietTurn(cfg, Session(cfg, st, n))
    decreases n
  {
    hide Cycle, QuietNode, PlainCalls;
    var p := Fetched(cfg, st).ptr;
    if Locate(cfg.graph, p).Hit? && Locate(cfg.graph, p).tree.Leaf? {
      PlainNode(cfg, Locate(cfg.graph, p).tree.node, Fetched(cfg, st));
    }
    TurnFlows(cfg, st);
    SessionTwo(cfg, st);
    var j := if OnSuspend(cfg, st) then 2 else 1;
    if OnSuspend(cfg, st) {
      ResumedTurn(cfg, st);
    } else {
      SameTurn(cfg, st);
    }
    var st' := Session(cfg, st, j);
    if n >= j {
      SessionPlus(cfg, st, j, n - j);
      if Flowing(st') {
        PlainQuiet(cfg, st', n - j);
      } else {
        SessionStopped(cfg, st', n - j);
      }
    }
  }

  lemma PlainQuietFrom(cfg: Config)
    requires NeverSuspends(cfg) && PlainCalls(cfg) && cfg.graph.Box?
    ensures QuietFrom(cfg, INITIAL)
  {
    forall k: nat
      ensures QuietTurn(cfg, Session(cfg, INITIAL, k))
    {
      PlainQuiet(cfg, INITIAL, k);
    }
  }

  /** Suspend transparency from a condition on the graph alone. */
  lemma PlainTransparent(cfg: Config, fin: State)
    requires NeverSuspends(cfg) && PlainCalls(cfg) && cfg.graph.Box?
    requires fin.status.Done? || fin.status.Panicked?
    ensures (exists m :: Session(cfg, INITIAL, m) == fin)
       <==> (exists n :: Run(WithoutSuspends(cfg), INITIAL, n) == fin)
  {
    PlainQuietFrom(cfg);
    SuspendTransparent(cfg, fin);
  }
}
