/**
 The clauses that execute their parts by subroutine calls: IF / ELIF / ELSE,
 WHILE, Try, in any nesting, and archived segments.
 */
module ClauseRuns {
  import opened Options
  import opened Addressing
  import opened Machine
  import opened Native
  import opened Turns
  import opened RunStates

  // ----- calls -----

  /** The machine after calls made in `st` from the container at `q` have come to `r`. */
  function Left(st: State, q: Path, r: Called): State {
    if r.land.None? then st.(trace := r.trace) else Marked(st).(trace := r.trace, ptr := q + r.land.value)
  }

  /** A call or a worker has come back with what `r` says; a call clears `outer`. */
  ghost predicate Came(r: Called, q: Path, st: State, out: Outcome, st': State) {
    && (if r.exn.Some? then out == Throw(r.exn.value) else out.Ret?)
    && st' == Left(st, q, r).(outer := st'.outer)
    && (st'.outer ==> st.outer)
  }

  /** Calling a user node, a NOP or a SUSPEND, with or without a jump pending. */
  lemma NodeCall(cfg: Config, nest: nat, p: Path, i: Instr, st: State)
    requires Locate(cfg.graph, p) == Hit(Leaf(i)) && (i.Act? || i.Nop? || i.Suspend?) && !st.flags.hlt
    ensures var (out, st') := CallSub(cfg, nest, p, st);
            var back := st.(outer := false, ptr := if st.flags.jmp then p else st.ptr);
            if |st.stack| >= cfg.ovf then out == Throw(StackOverflow) && st' == st
            else if nest == 0 then out == Throw(RecursionLimit) && st' == back
            else match i
              case Act(id) => out == cfg.oracle(st.trace + [id]) && st' == back.(trace := st.trace + [id])
              case Nop => out == OK && st' == back
              case _ => out == Throw(Suspended) && st' == back
  {
    assert p + [] == p;
    assert Descend(cfg.graph, p) == p;
    hide Locate, Descend;
    if |st.stack| < cfg.ovf {
      var st2 := st.(stack := st.stack + [st.ptr], ptr := p, outer := true);
      assert Front(st2.stack) == st.stack && Top(st2.stack) == st.ptr;
      if nest > 0 {
        assert st2.(ptr := p) == st2;
        assert ExecNode(cfg, nest - 1, st2) == Exec(cfg, nest - 1, i, st2);
      }
    }
  }

  lemma KidAt(g: Tree<Instr>, s: Src, q: Path, kids: seq<Tree<Instr>>, j: nat)
    requires IsClause(s) && Slots(s) <= kids && Locate(g, q) == Hit(Box(kids)) && j <= Exit(s)
    ensures Locate(g, q + [j]) == Hit(SlotTree(s, j))
  {
    Child(g, q, kids, j);
    assert kids[j] == Slots(s)[j];
  }

  /** The machine stands on its head, or on the node a jump inside the container has led to. */
  ghost predicate Stands(st: State, q: Path, land: Option<Path>) {
    && !st.flags.hlt && st.flags.jmp == land.Some?
    && st.ptr == q + if land.Some? then land.value else [0]
  }

  // ----- calls made while a jump is pending -----

  /** The instructions in the slots of IF, WHILE and Try. */
  predicate Tame(i: Instr) {
    i.Act? || i.Nop? || i.Suspend? || i.CondJump? || i.ElseDo? || i.LoopHead? || i.JumpNear? || i.TryHead?
  }

  predicate TameTree(t: Tree<Instr>)
    decreases t
  {
    match t
    case Leaf(i) => Tame(i)
    case Box(kids) => forall k | k in kids :: TameTree(k)
  }

  lemma {:induction false} TameBelow(t: Tree<Instr>, p: Path)
    requires TameTree(t) && Locate(t, p).Hit?
    ensures TameTree(Locate(t, p).tree)
    decreases |p|
  {
    if p != [] {
      assert t.kids[p[0]] in t.kids;
      TameBelow(t.kids[p[0]], p[1..]);
    }
  }

  lemma {:induction false} PartTame(s: Src)
    requires SoundPart(s)
    ensures TameTree(Item(s, NoLoop))
    decreases s, 1
  {
    if IsClause(s) {
      SlotsTame(s);
    }
  }

  lemma {:induction false} SlotsTame(s: Src)
    requires IsClause(s) && SoundClause(s)
    ensures TameTree(Box(Slots(s)))
    decreases s, 0
  {
    forall k | k in Slots(s)
      ensures TameTree(k)
    {
      var j :| 0 <= j <= Exit(s) && Slots(s)[j] == k;
      SlotTame(s, j);
    }
  }

  lemma {:induction false} SlotTame(s: Src, j: nat)
    requires IsClause(s) && SoundClause(s) && j <= Exit(s)
    ensures TameTree(SlotTree(s, j))
    decreases s, 0, 0
  {
    hide CatchTable;
    if j < Exit(s) && PartIn(s, j).Some? {
      PartTame(PartIn(s, j).value);
    }
  }

  /** The machine stands at `here` in the container at `q`, and a jump is pending. */
  ghost predicate Pends(cfg: Config, t: Tree<Instr>, q: Path, here: Path, at: Level, st: State) {
    && Locate(cfg.graph, q) == Hit(t) && TameTree(t) && here != []
    && st.ptr == q + here && st.flags.jmp && !st.flags.hlt && at.depth == |st.stack|
  }

  /** A call has come back with what `r` says, the jump still pending. */
  ghost predicate CameLate(r: Late, q: Path, st: State, out: Outcome, st': State) {
    out == r.out && st' == st.(trace := r.trace, ptr := q + r.land, outer := st'.outer) && (st'.outer ==> st.outer)
  }

  /** The next call starts where the last one left off. */
  lemma LateOn(cfg: Config, t: Tree<Instr>, q: Path, here: Path, at: Level, r: Late, st: State, out: Outcome,
      st': State)
    requires Pends(cfg, t, q, here, at, st) && CameLate(r, q, st, out, st') && r.land != []
    ensures Pends(cfg, t, q, r.land, at, st') && st'.trace == r.trace
    ensures forall r2, out2, st2 :: CameLate(r2, q, st', out2, st2) ==> CameLate(r2, q, st, out2, st2)
  {
    hide Locate, TameTree;
  }

  lemma Within(q: Path, p: Path, j: nat)
    requires p != []
    ensures OffsetCopy(q + p, j) == q + OffsetCopy(p, j) && NearCopy(q + p, j) == q + NearCopy(p, j)
    ensures OffsetCopy(p, j) != [] && NearCopy(p, j) != []
  {
    assert Parent(q + p) == q + Parent(p);
  }

  /** A subroutine call while a jump is pending: the frame goes, the pointer stays where it is. */
  lemma LateFrame(cfg: Config, nest: nat, addr: Path, st: State)
    requires st.flags.jmp && |st.stack| < cfg.ovf && nest > 0
    requires var inner := st.(stack := st.stack + [st.ptr], ptr := addr, outer := true);
             ExecNode(cfg, nest - 1, inner).1.stack == inner.stack && ExecNode(cfg, nest - 1, inner).1.flags.jmp
    ensures var inner := st.(stack := st.stack + [st.ptr], ptr := addr, outer := true);
            var (out, st1) := ExecNode(cfg, nest - 1, inner);
            CallSub(cfg, nest, addr, st) == (out, st1.(stack := st.stack, outer := false))
  {
    hide ExecNode;
    assert Front(st.stack + [st.ptr]) == st.stack;
  }

  lemma LateFull(cfg: Config, nest: nat, addr: Path, st: State)
    requires st.flags.jmp && (|st.stack| >= cfg.ovf || nest == 0)
    ensures CallSub(cfg, nest, addr, st)
         == if |st.stack| >= cfg.ovf then (Throw(StackOverflow), st)
            else (Throw(RecursionLimit), st.(ptr := addr, outer := false))
  {
    hide ExecNode;
    assert Front(st.stack + [st.ptr]) == st.stack;
  }

  /** Looking a node up from the container or from the root. */
  lemma Beneath(cfg: Config, t: Tree<Instr>, q: Path, a: Path)
    requires Locate(cfg.graph, q) == Hit(t)
    ensures Locate(cfg.graph, q + a) == Locate(t, a) && Descend(cfg.graph, q + a) == q + Descend(t, a)
    ensures Locate(cfg.graph, q + Descend(t, a)) == Locate(t, Descend(t, a))
    ensures a != [] ==> Descend(t, a) != []
  {
    LocateAppend(cfg.graph, q, a);
    LocateAppend(cfg.graph, q, Descend(t, a));
    if Locate(t, a).Hit? {
      assert (q + a) + FirstStop(Locate(t, a).tree) == q + (a + FirstStop(Locate(t, a).tree));
    }
  }

  lemma {:induction false} LateComes(cfg: Config, nest: nat, t: Tree<Instr>, q: Path, here: Path, a: Path, at: Level,
      st: State)
    requires Pends(cfg, t, q, here, at, st) && a != []
    ensures var (out, st') := CallSub(cfg, nest, q + a, st);
            CameLate(LateCall(cfg, nest, t, here, a, at, st.trace), q, st, out, st')
    decreases nest, 0, 0
  {
    hide Exec, LateNode, Locate, Descend, TameTree;
    if |st.stack| >= cfg.ovf || nest == 0 {
      LateFull(cfg, nest, q + a, st);
    } else {
      var inner := st.(stack := st.stack + [st.ptr], ptr := q + a, outer := true);
      Beneath(cfg, t, q, a);
      var p := Descend(t, a);
      var found := inner.(ptr := q + p);
      match Locate(t, p)
      case Hit(Leaf(i)) =>
        TameBelow(t, p);
        TameLeaf(i);
        LateNodeComes(cfg, nest - 1, t, q, i, p, Deeper(at), found);
        assert ExecNode(cfg, nest - 1, inner) == Exec(cfg, nest - 1, i, found);
        LateFrame(cfg, nest, q + a, st);
      case _ =>
        assert ExecNode(cfg, nest - 1, inner) == (Throw(NullPointer), found);
        LateFrame(cfg, nest, q + a, st);
    }
  }

  lemma TameLeaf(i: Instr)
    requires TameTree(Leaf(i))
    ensures Tame(i)
  {
  }

  lemma {:induction false} LateNodeComes(cfg: Config, nest: nat, t: Tree<Instr>, q: Path, i: Instr, p: Path, at: Level,
      st: State)
    requires Pends(cfg, t, q, p, at, st) && Tame(i)
    ensures var (out, st') := Exec(cfg, nest, i, st);
            CameLate(LateNode(cfg, nest, t, i, p, at, st.trace), q, st, out, st')
    decreases nest, 1, 0
  {
    if i.CondJump? {
      LateChunk(cfg, nest, t, q, i, p, at, st);
    } else if i.ElseDo? {
      LateElse(cfg, nest, t, q, i, p, at, st);
    } else if i.LoopHead? {
      LateRound(cfg, nest, t, q, i, p, at, st);
    } else if i.TryHead? {
      LateTry(cfg, nest, t, q, i, p, at, st);
    } else {
      hide Locate, TameTree;
    }
  }

  lemma {:induction false} LateElse(cfg: Config, nest: nat, t: Tree<Instr>, q: Path, i: Instr, p: Path, at: Level,
      st: State)
    requires Pends(cfg, t, q, p, at, st) && i.ElseDo?
    ensures var (out, st') := Exec(cfg, nest, i, st);
            CameLate(LateNode(cfg, nest, t, i, p, at, st.trace), q, st, out, st')
    decreases nest, 0, 1
  {
    hide CallSub, LateCall, Locate, TameTree, OffsetCopy, NearCopy;
    Within(q, p, i.doOff);
    LateComes(cfg, nest, t, q, p, OffsetCopy(p, i.doOff), at, st);
  }

  lemma {:induction false} LateChunk(cfg: Config, nest: nat, t: Tree<Instr>, q: Path, i: Instr, p: Path, at: Level,
      st: State)
    requires Pends(cfg, t, q, p, at, st) && i.CondJump?
    ensures var (out, st') := Exec(cfg, nest, i, st);
            CameLate(LateNode(cfg, nest, t, i, p, at, st.trace), q, st, out, st')
    decreases nest, 0, 1
  {
    hide CallSub, LateCall, Locate, TameTree, OffsetCopy, NearCopy, Pends;
    assert st.ptr == q + p && p != [] by {
      Standing(cfg, t, q, p, at, st);
    }
    Within(q, p, i.condOff);
    LateComes(cfg, nest, t, q, p, OffsetCopy(p, i.condOff), at, st);
    var c := LateCall(cfg, nest, t, p, OffsetCopy(p, i.condOff), at, st.trace);
    var (out, st1) := CallSub(cfg, nest, OffsetCopy(st.ptr, i.condOff), st);
    LateOn(cfg, t, q, p, at, c, st, out, st1);
    Standing(cfg, t, q, c.land, at, st1);
    if out == Ret(true) {
      Within(q, c.land, i.doOff);
      LateComes(cfg, nest, t, q, c.land, OffsetCopy(c.land, i.doOff), at, st1);
      var d := LateCall(cfg, nest, t, c.land, OffsetCopy(c.land, i.doOff), at, c.trace);
      var (out2, st2) := CallSub(cfg, nest, OffsetCopy(st1.ptr, i.doOff), st1);
      LateOn(cfg, t, q, c.land, at, d, st1, out2, st2);
      Standing(cfg, t, q, d.land, at, st2);
    }
  }

  lemma Standing(cfg: Config, t: Tree<Instr>, q: Path, here: Path, at: Level, st: State)
    requires Pends(cfg, t, q, here, at, st)
    ensures st.ptr == q + here && here != [] && st.flags.jmp && at.depth == |st.stack|
  {
  }

  lemma {:induction false} LateRound(cfg: Config, nest: nat, t: Tree<Instr>, q: Path, i: Instr, p: Path, at: Level,
      st: State)
    requires Pends(cfg, t, q, p, at, st) && i.LoopHead?
    ensures var (out, st') := Exec(cfg, nest, i, st);
            CameLate(LateNode(cfg, nest, t, i, p, at, st.trace), q, st, out, st')
    decreases nest, 0, 1
  {
    hide CallSub, LateCall, Locate, TameTree, OffsetCopy, NearCopy, Pends;
    Standing(cfg, t, q, p, at, st);
    Within(q, p, i.condOff);
    LateComes(cfg, nest, t, q, p, OffsetCopy(p, i.condOff), at, st);
    var c := LateCall(cfg, nest, t, p, OffsetCopy(p, i.condOff), at, st.trace);
    var (out, st1) := CallSub(cfg, nest, OffsetCopy(st.ptr, i.condOff), st);
    LateOn(cfg, t, q, p, at, c, st, out, st1);
    Standing(cfg, t, q, c.land, at, st1);
    if out == Ret(true) {
      Within(q, c.land, i.doOff);
      LateComes(cfg, nest, t, q, c.land, OffsetCopy(c.land, i.doOff), at, st1);
      var d := LateCall(cfg, nest, t, c.land, OffsetCopy(c.land, i.doOff), at, c.trace);
      var (out2, st2) := CallSub(cfg, nest, OffsetCopy(st1.ptr, i.doOff), st1);
      LateOn(cfg, t, q, c.land, at, d, st1, out2, st2);
      Standing(cfg, t, q, d.land, at, st2);
    }
  }

  lemma {:induction false} LateTry(cfg: Config, nest: nat, t: Tree<Instr>, q: Path, i: Instr, p: Path, at: Level,
      st: State)
    requires Pends(cfg, t, q, p, at, st) && i.TryHead?
    ensures var (out, st') := Exec(cfg, nest, i, st);
            CameLate(LateNode(cfg, nest, t, i, p, at, st.trace), q, st, out, st')
    decreases nest, 0, 1
  {
    TryExec(cfg, nest, i, st);
    hide Exec, CallSub, LateCall, Locate, TameTree, NearCopy, Pends, FirstCatch;
    Standing(cfg, t, q, p, at, st);
    Within(q, p, i.doPos);
    LateComes(cfg, nest, t, q, p, NearCopy(p, i.doPos), at, st);
    var d := LateCall(cfg, nest, t, p, NearCopy(p, i.doPos), at, st.trace);
    var (out1, st1) := CallSub(cfg, nest, NearCopy(st.ptr, i.doPos), st);
    LateOn(cfg, t, q, p, at, d, st, out1, st1);
    Standing(cfg, t, q, d.land, at, st1);
    var next := if d.out.Ret? then i.thnPos
                else if cfg.ignored(d.out.exn) then None
                else FirstCatch(cfg, d.out.exn, i.catches);
    var d2, out2, st2 := d, out1, st1;
    if next.Some? {
      Within(q, d.land, next.value);
      LateComes(cfg, nest, t, q, d.land, NearCopy(d.land, next.value), at, st1);
      d2 := LateCall(cfg, nest, t, d.land, NearCopy(d.land, next.value), at, d.trace);
      var step := CallSub(cfg, nest, NearCopy(st1.ptr, next.value), st1);
      out2, st2 := step.0, step.1;
      LateOn(cfg, t, q, d.land, at, d2, st1, out2, st2);
      Standing(cfg, t, q, d2.land, at, st2);
    }
    if i.finPos.Some? {
      Within(q, d2.land, i.finPos.value);
      LateComes(cfg, nest, t, q, d2.land, NearCopy(d2.land, i.finPos.value), at, st2);
      var f := LateCall(cfg, nest, t, d2.land, NearCopy(d2.land, i.finPos.value), at, d2.trace);
      var (out3, st3) := CallSub(cfg, nest, NearCopy(st2.ptr, i.finPos.value), st2);
      LateOn(cfg, t, q, d2.land, at, f, st2, out3, st3);
      Standing(cfg, t, q, f.land, at, st3);
    }
  }

  lemma CameBelow(r: Called, q: Path, j: nat, st: State, out: Outcome, st': State)
    requires Came(r, q + [j], st, out, st')
    ensures Came(Below(r, j), q, st, out, st')
  {
    if r.land.Some? {
      assert (q + [j]) + r.land.value == q + ([j] + r.land.value);
    }
  }

  /** A call whose node is a clause's head: the frame is popped, the pointer put back unless the head jumped. */
  lemma ClauseCall(cfg: Config, nest: nat, s: Src, path: Path, kids: seq<Tree<Instr>>, st: State, r: Called)
    requires IsClause(s) && SoundClause(s) && Slots(s) <= kids && Locate(cfg.graph, path) == Hit(Box(kids))
    requires !st.flags.jmp && !st.flags.hlt && |st.stack| < cfg.ovf && nest > 0
    requires var inside := st.(stack := st.stack + [st.ptr], ptr := path + [0], outer := true);
             var (out, st') := Exec(cfg, nest - 1, HeadIn(s, 0), inside);
             Came(r, path, inside, out, st')
    ensures var (out, st') := CallSub(cfg, nest, path, st);
            Came(r, path, st, out, st')
  {
    var inner := st.(stack := st.stack + [st.ptr], ptr := path, outer := true);
    var inside := inner.(ptr := path + [0]);
    KidAt(cfg.graph, s, path, kids, 0);
    EnterHits(cfg.graph, path);
    assert (path + [0]) + [] == path + [0];
    assert Descend(cfg.graph, path) == path + [0];
    HeadSlot(s);
    assert Locate(cfg.graph, path + [0]) == Hit(Leaf(HeadIn(s, 0)));
    hide Exec, Slots, Locate, Descend, SlotTree, HeadIn;
    var (out, st') := Exec(cfg, nest - 1, HeadIn(s, 0), inside);
    assert ExecNode(cfg, nest - 1, inner) == (out, st');
    assert st'.stack == inner.stack;
    assert Front(inner.stack) == st.stack && Top(inner.stack) == st.ptr;
  }

  lemma HeadSlot(s: Src)
    requires IsClause(s) && SoundClause(s)
    ensures SlotTree(s, 0) == Leaf(HeadIn(s, 0))
  {
  }

  lemma NodePartCall(cfg: Config, nest: nat, s: Src, path: Path, st: State, at: Level)
    requires Callable(s) && Locate(cfg.graph, path) == Hit(Item(s, NoLoop))
    requires !st.flags.jmp && !st.flags.hlt && at.depth == |st.stack|
    ensures var (out, st') := CallSub(cfg, nest, path, st);
            Came(CallPart(cfg, nest, s, at, st.trace), path, st, out, st')
  {
    hide Locate, CallSub;
    NodeCall(cfg, nest, path, NodeOf(s, NoLoop), st);
  }

  /** Calling a part: a node leaves the machine as it was, a clause leaves a jump pending or raises. */
  lemma {:induction false} PartCall(cfg: Config, nest: nat, s: Src, path: Path, st: State, at: Level)
    requires SoundPart(s) && Locate(cfg.graph, path) == Hit(Item(s, NoLoop))
    requires !st.flags.jmp && !st.flags.hlt && at.depth == |st.stack|
    ensures var (out, st') := CallSub(cfg, nest, path, st);
            Came(CallPart(cfg, nest, s, at, st.trace), path, st, out, st')
    decreases s, 1
  {
    hide *;
    PartKinds(s);
    if Callable(s) {
      NodePartCall(cfg, nest, s, path, st, at);
    } else if |st.stack| < cfg.ovf && nest > 0 {
      var inside := st.(stack := st.stack + [st.ptr], ptr := path + [0], outer := true);
      InsideStands(st, path);
      ClausePart(cfg, nest, s, at, st.trace);
      HeadComes(cfg, nest - 1, s, path, Slots(s), inside, Deeper(at));
      ClauseCall(cfg, nest, s, path, Slots(s), st, CallHead(cfg, nest - 1, s, Deeper(at), st.trace));
    } else {
      NoCall(cfg, nest, s, path, st, at);
    }
  }

  lemma PartKinds(s: Src)
    requires SoundPart(s)
    ensures Callable(s) || IsClause(s)
  {
  }

  lemma ClausePart(cfg: Config, nest: nat, s: Src, at: Level, tr: seq<Id>)
    requires IsClause(s) && SoundPart(s)
    ensures SoundClause(s) && Item(s, NoLoop) == Box(Slots(s)) && Deeper(at).depth == at.depth + 1
    ensures at.depth < cfg.ovf && nest > 0 ==>
              CallPart(cfg, nest, s, at, tr) == CallHead(cfg, nest - 1, s, Deeper(at), tr)
  {
    hide CallHead;
  }

  lemma InsideStands(st: State, path: Path)
    requires !st.flags.jmp && !st.flags.hlt
    ensures Stands(st.(stack := st.stack + [st.ptr], ptr := path + [0], outer := true), path, None)
  {
  }

  /** A call for which there is no room, on the return stack or in Python. */
  lemma NoCall(cfg: Config, nest: nat, s: Src, path: Path, st: State, at: Level)
    requires |st.stack| >= cfg.ovf || nest == 0
    requires IsClause(s) && !st.flags.jmp && !st.flags.hlt && at.depth == |st.stack|
    ensures var (out, st') := CallSub(cfg, nest, path, st);
            Came(CallPart(cfg, nest, s, at, st.trace), path, st, out, st')
  {
    hide Exec, ExecNode, CallHead;
    assert Front(st.stack + [st.ptr]) == st.stack;
  }

  /** Executing the head of a clause that stands at `q`. */
  lemma {:induction false} HeadComes(cfg: Config, nest: nat, s: Src, q: Path, kids: seq<Tree<Instr>>, st: State,
      at: Level)
    requires IsClause(s) && SoundClause(s) && Slots(s) <= kids && Locate(cfg.graph, q) == Hit(Box(kids))
    requires Stands(st, q, None) && at.depth == |st.stack|
    ensures var (out, st') := Exec(cfg, nest, HeadIn(s, 0), st);
            Came(CallHead(cfg, nest, s, at, st.trace), q, st, out, st')
    decreases s, 0, 2
  {
    match s
    case Choose(_, _) => ChunkComes(cfg, nest, s, q, kids, st, at);
    case Repeat(_, _) => RoundComes(cfg, nest, s, q, kids, st, at);
    case Attempt(_, _, _, _) => TryComes(cfg, nest, s, q, kids, st, at);
  }

  lemma CondCall(cfg: Config, nest: nat, q: Path, c: Id, st: State, at: Level)
    requires Locate(cfg.graph, q + [1]) == Hit(Leaf(Act(c))) && Stands(st, q, None) && at.depth == |st.stack|
    ensures var (out, st') := CallSub(cfg, nest, q + [1], st);
            && CallCond(cfg, nest, at, c, st.trace) == (out, st'.trace)
            && st' == st.(trace := st'.trace, outer := st'.outer) && (st'.outer ==> st.outer)
  {
    NodeCall(cfg, nest, q + [1], Act(c), st);
  }

  lemma ChunkExec(cfg: Config, nest: nat, thenPos: nat, st: State)
    ensures var (c, st1) := CallSub(cfg, nest, OffsetCopy(st.ptr, 1), st);
            Exec(cfg, nest, CondJump(1, 2, 3, thenPos), st) ==
            if c.Throw? then (c, st1)
            else if !c.value then JumpOffsetBy(st1, 3)
            else
              var (d, st2) := CallSub(cfg, nest, OffsetCopy(st1.ptr, 2), st1);
              if d.Throw? then (d, st2) else JumpNearBy(st2, thenPos)
  {
    hide CallSub;
  }

  lemma RoundExec(cfg: Config, nest: nat, st: State)
    ensures var (c, st1) := CallSub(cfg, nest, OffsetCopy(st.ptr, 1), st);
            Exec(cfg, nest, LoopHead(1, 2, 3, 4), st) ==
            if c.Throw? then (c, st1)
            else if !c.value then JumpNearBy(st1, 4)
            else
              var (d, st2) := CallSub(cfg, nest, OffsetCopy(st1.ptr, 2), st1);
              if d == Throw(BreakLoop) then JumpNearBy(st2, 4)
              else if d.Throw? then (d, st2)
              else JumpNearBy(st2, 3)
  {
    hide CallSub;
  }

  /** A condition has been called: the machine is as before, trace apart. */
  ghost predicate Tested(q: Path, st: State, st1: State) {
    && Stands(st, q, None)
    && st1 == st.(trace := st1.trace, outer := st1.outer) && (st1.outer ==> st.outer)
  }

  /** What a call has come to, seen from the state before the condition. */
  lemma CameLater(r: Called, q: Path, st: State, st1: State, out: Outcome, st': State)
    requires Came(r, q, st1, out, st') && Tested(q, st, st1)
    ensures Came(r, q, st, out, st')
  {
  }

  lemma CondRaised(q: Path, st: State, st1: State, e: Exn)
    requires Tested(q, st, st1)
    ensures Came(Called(Some(e), None, st1.trace), q, st, Throw(e), st1)
  {
  }

  lemma CondJumped(q: Path, st: State, st1: State, own: nat)
    requires Tested(q, st, st1)
    ensures var (out, st') := JumpNearBy(st1, own);
            Came(Called(None, Some([own]), st1.trace), q, st, out, st')
    ensures JumpOffsetBy(st1, own) == JumpNearBy(st1, own)
  {
    assert Parent(q + [0]) == q && OffsetCopy(q + [0], own) == q + [own];
  }

  /** The jump to its own slot with which a worker ends. */
  lemma CameJumping(r: Called, q: Path, k: nat, own: nat, st: State, st1: State, out: Outcome, st': State)
    requires Came(r, q + [k], st1, out, st') && Tested(q, st, st1)
    ensures var (jumped, st2) := JumpNearBy(st', own);
            Came(JumpedFrom(r, k, own), q, st, jumped, st2)
  {
    assert Parent(q + [0]) == q;
    if r.land.Some? {
      assert (q + [k]) + r.land.value == q + ([k] + r.land.value);
    }
  }

  lemma TestedStands(q: Path, st: State, st1: State)
    requires Tested(q, st, st1)
    ensures Stands(st1, q, None) && |st1.stack| == |st.stack| && st1.ptr == st.ptr == q + [0]
    ensures OffsetCopy(q + [0], 1) == q + [1] && OffsetCopy(q + [0], 2) == q + [2]
    ensures !st1.flags.jmp && !st1.flags.hlt
  {
  }

  /** The first chunk of an IF. */
  lemma {:induction false} ChunkComes(cfg: Config, nest: nat, s: Src, q: Path, kids: seq<Tree<Instr>>, st: State,
      at: Level)
    requires s.Choose? && SoundClause(s) && Slots(s) <= kids && Locate(cfg.graph, q) == Hit(Box(kids))
    requires Stands(st, q, None) && at.depth == |st.stack|
    ensures var (out, st') := Exec(cfg, nest, HeadIn(s, 0), st);
            Came(CallHead(cfg, nest, s, at, st.trace), q, st, out, st')
    decreases s, 0, 1
  {
    KidAt(cfg.graph, s, q, kids, 1);
    KidAt(cfg.graph, s, q, kids, 2);
    var cond, body := s.arms[0].cond, s.arms[0].body;
    assert PartIn(s, 2) == Some(body) && CondIn(s, 1) == Some(cond) && SoundPart(body);
    assert SlotTree(s, 1) == Leaf(Act(cond)) && SlotTree(s, 2) == Item(body, NoLoop);
    assert HeadIn(s, 0) == CondJump(1, 2, 3, Exit(s));
    ChunkExec(cfg, nest, Exit(s), st);
    CondCall(cfg, nest, q, cond, st, at);
    TestedStands(q, st, st);
    var (c, st1) := CallSub(cfg, nest, q + [1], st);
    assert Tested(q, st, st1);
    var r := CallPart(cfg, nest, body, at, st1.trace);
    assert CallHead(cfg, nest, s, at, st.trace)
        == if c.Throw? then Called(Some(c.exn), None, st1.trace)
           else if !c.value then Called(None, Some([3]), st1.trace)
           else if r.exn.None? then JumpedFrom(r, 2, Exit(s)) else Below(r, 2);
    hide *;
    TestedStands(q, st, st1);
    if c == Ret(true) {
      var (d, st2) := CallSub(cfg, nest, q + [2], st1);
      PartCall(cfg, nest, body, q + [2], st1, at);
      PartEnds(r, q, 2, Exit(s), st, st1, d, st2);
    } else if c == Ret(false) {
      CondJumped(q, st, st1, 3);
    } else {
      CondRaised(q, st, st1, c.exn);
    }
  }

  /** What a worker that has called slot `k` comes to, whether the call raised or it goes on to jump to `own`. */
  lemma PartEnds(r: Called, q: Path, k: nat, own: nat, st: State, st1: State, out: Outcome, st': State)
    requires Came(r, q + [k], st1, out, st') && Tested(q, st, st1)
    ensures Came(Below(r, k), q, st, out, st')
    ensures var (jumped, st2) := JumpNearBy(st', own);
            Came(JumpedFrom(r, k, own), q, st, jumped, st2)
    ensures if r.exn.Some? then out == Throw(r.exn.value) else out.Ret?
  {
    assert if r.exn.Some? then out == Throw(r.exn.value) else out.Ret?;
    hide JumpedFrom, Below, Left, JumpNearBy;
    CameBelow(r, q, k, st1, out, st');
    CameLater(Below(r, k), q, st, st1, out, st');
    CameJumping(r, q, k, own, st, st1, out, st');
  }

  /** One round of a WHILE. */
  lemma {:induction false} RoundComes(cfg: Config, nest: nat, s: Src, q: Path, kids: seq<Tree<Instr>>, st: State,
      at: Level)
    requires s.Repeat? && SoundClause(s) && Slots(s) <= kids && Locate(cfg.graph, q) == Hit(Box(kids))
    requires Stands(st, q, None) && at.depth == |st.stack|
    ensures var (out, st') := Exec(cfg, nest, HeadIn(s, 0), st);
            Came(CallHead(cfg, nest, s, at, st.trace), q, st, out, st')
    decreases s, 0, 1
  {
    KidAt(cfg.graph, s, q, kids, 1);
    KidAt(cfg.graph, s, q, kids, 2);
    var cond, body := s.cond, s.body;
    assert PartIn(s, 2) == Some(body) && CondIn(s, 1) == Some(cond) && SoundPart(body);
    assert SlotTree(s, 1) == Leaf(Act(cond)) && SlotTree(s, 2) == Item(body, NoLoop);
    assert HeadIn(s, 0) == LoopHead(1, 2, 3, 4);
    RoundExec(cfg, nest, st);
    CondCall(cfg, nest, q, cond, st, at);
    TestedStands(q, st, st);
    var (c, st1) := CallSub(cfg, nest, q + [1], st);
    assert Tested(q, st, st1);
    var r := CallPart(cfg, nest, body, at, st1.trace);
    assert CallHead(cfg, nest, s, at, st.trace)
        == if c.Throw? then Called(Some(c.exn), None, st1.trace)
           else if !c.value then Called(None, Some([4]), st1.trace)
           else if r.exn == Some(BreakLoop) then JumpedFrom(r, 2, 4)
           else if r.exn.None? then JumpedFrom(r, 2, 3)
           else Below(r, 2);
    hide *;
    TestedStands(q, st, st1);
    if c == Ret(true) {
      var (d, st2) := CallSub(cfg, nest, q + [2], st1);
      PartCall(cfg, nest, body, q + [2], st1, at);
      PartEnds(r, q, 2, if r.exn == Some(BreakLoop) then 4 else 3, st, st1, d, st2);
    } else if c == Ret(false) {
      CondJumped(q, st, st1, 4);
    } else {
      CondRaised(q, st, st1, c.exn);
    }
  }

  lemma {:induction false} SlotComes(cfg: Config, nest: nat, s: Src, q: Path, kids: seq<Tree<Instr>>, j: nat,
      land: Option<Path>, st: State, at: Level)
    requires s.Attempt? && SoundClause(s) && Slots(s) <= kids && Locate(cfg.graph, q) == Hit(Box(kids))
    requires PartIn(s, j).Some? && (land.Some? ==> InPart(s, land.value))
    requires Stands(st, q, land) && at.depth == |st.stack|
    ensures var (out, st') := CallSub(cfg, nest, NearCopy(st.ptr, j), st);
            Came(CallSlot(cfg, nest, s, j, land, at, st.trace), q, st, out, st')
    decreases s, 0, 0, 0
  {
    hide CallSub, CallPart, LateCall, Slots, Item, Came, SlotTree;
    if land.Some? {
      LateSlot(cfg, nest, s, q, kids, j, land.value, st, at);
    } else {
      assert Slice(q + [0]) == q;
      KidAt(cfg.graph, s, q, kids, j);
      PartSlot(s, j);
      var x := PartIn(s, j).value;
      PartCall(cfg, nest, x, q + [j], st, at);
      CameBelow(CallPart(cfg, nest, x, at, st.trace), q, j, st,
                CallSub(cfg, nest, q + [j], st).0, CallSub(cfg, nest, q + [j], st).1);
    }
  }

  lemma PartSlot(s: Src, j: nat)
    requires IsClause(s) && SoundClause(s) && PartIn(s, j).Some?
    ensures SlotTree(s, j) == Item(PartIn(s, j).value, NoLoop) && SoundPart(PartIn(s, j).value)
  {
  }

  /** A slot called while a jump is pending: the node is looked up in the container jumped to. */
  lemma LateSlot(cfg: Config, nest: nat, s: Src, q: Path, kids: seq<Tree<Instr>>, j: nat, land: Path, st: State,
      at: Level)
    requires s.Attempt? && SoundClause(s) && Slots(s) <= kids && Locate(cfg.graph, q) == Hit(Box(kids))
    requires PartIn(s, j).Some? && InPart(s, land) && Stands(st, q, Some(land)) && at.depth == |st.stack|
    ensures var (out, st') := CallSub(cfg, nest, NearCopy(st.ptr, j), st);
            Came(CallSlot(cfg, nest, s, j, Some(land), at, st.trace), q, st, out, st')
  {
    hide CallSub, CallPart, LateCall, Slots, Item, SlotTree, NearCopy, Locate;
    var k, here := land[0], land[1..];
    KidAt(cfg.graph, s, q, kids, k);
    SlotTame(s, k);
    assert q + land == (q + [k]) + here;
    Within(q + [k], here, j);
    LateComes(cfg, nest, SlotTree(s, k), q + [k], here, NearCopy(here, j), at, st);
    var r := LateCall(cfg, nest, SlotTree(s, k), here, NearCopy(here, j), at, st.trace);
    assert (q + [k]) + r.land == q + ([k] + r.land);
  }

  lemma FirstOf(cfg: Config, e: Exn, first: (ExnClass, nat), rest: seq<(ExnClass, nat)>)
    ensures FirstCatch(cfg, e, [first] + rest)
         == if cfg.instance(e, first.0) then Some(first.1) else FirstCatch(cfg, e, rest)
  {
    assert ([first] + rest)[1..] == rest;
  }

  lemma CatchStep(cfg: Config, e: Exn, catches: seq<Catch>, base: nat)
    requires catches != []
    ensures CatchTable(catches, base) == [(catches[0].cls, base)] + CatchTable(catches[1..], base + 1)
    ensures FirstMatch(cfg, e, catches)
         == if cfg.instance(e, catches[0].cls) then Some(0)
            else match FirstMatch(cfg, e, catches[1..]) case None => None case Some(i) => Some(i + 1)
  {
  }

  /** The slot of the first CATCH in the worker's table is that of the first matching handler. */
  lemma {:induction false} CatchLookup(cfg: Config, e: Exn, catches: seq<Catch>, base: nat)
    ensures match FirstMatch(cfg, e, catches)
            case None => FirstCatch(cfg, e, CatchTable(catches, base)) == None
            case Some(i) => FirstCatch(cfg, e, CatchTable(catches, base)) == Some(base + i)
    decreases |catches|
  {
    if catches == [] {
      assert CatchTable(catches, base) == [];
    } else {
      hide FirstMatch, CatchTable, FirstCatch;
      CatchStep(cfg, e, catches, base);
      CatchLookup(cfg, e, catches[1..], base + 1);
      FirstOf(cfg, e, (catches[0].cls, base), CatchTable(catches[1..], base + 1));
    }
  }

  /** Which slot the worker calls second. */
  lemma SecondSlot(cfg: Config, s: Src, e: Option<Exn>)
    requires s.Attempt?
    ensures var head := HeadIn(s, 0);
            Second(cfg, s, e)
            == if e.None? then head.thnPos
               else if cfg.ignored(e.value) then None
               else FirstCatch(cfg, e.value, head.catches)
  {
    if e.Some? {
      CatchLookup(cfg, e.value, s.catches, 2);
    }
  }

  /** The worker of a Try, call by call. */
  lemma TryExec(cfg: Config, nest: nat, head: Instr, st: State)
    requires head.TryHead?
    ensures var (d, st1) := CallSub(cfg, nest, NearCopy(st.ptr, head.doPos), st);
            var next := if d.Ret? then head.thnPos
                        else if cfg.ignored(d.exn) then None
                        else FirstCatch(cfg, d.exn, head.catches);
            var (out, st2) := if next.None? then (d, st1) else CallSub(cfg, nest, NearCopy(st1.ptr, next.value), st1);
            var (fin, st3) := if head.finPos.None? then (OK, st2)
                              else CallSub(cfg, nest, NearCopy(st2.ptr, head.finPos.value), st2);
            Exec(cfg, nest, head, st)
            == if fin.Throw? then (fin, st3) else if out.Throw? then (out, st3) else JumpNearBy(st3, head.escapePos)
  {
    hide CallSub, FirstCatch, NearCopy, JumpNearBy;
    var TryHead(doPos, catches, finPos, thnPos, escapePos) := head;
    var (d, st1) := CallSub(cfg, nest, NearCopy(st.ptr, doPos), st);
    var next := if d.Ret? then thnPos else if cfg.ignored(d.exn) then None else FirstCatch(cfg, d.exn, catches);
    var (out, st2) := if next.None? then (d, st1) else CallSub(cfg, nest, NearCopy(st1.ptr, next.value), st1);
    if d.Throw? {
      assert next == if cfg.ignored(d.exn) then None else FirstCatch(cfg, d.exn, catches);
    } else {
      assert next == thnPos;
    }
  }

  /** Calls made in a row, from what the first ones have come to: what all of them together have come to. */
  lemma CameAfter(r: Called, r2: Called, q: Path, st: State, st1: State, out1: Outcome, out: Outcome, st2: State)
    requires Came(r, q, st, out1, st1) && Came(r2, q, st1, out, st2)
    requires r.land.Some? ==> r2.land.Some?
    ensures Came(r2, q, st, out, st2)
  {
  }

  /** Between two calls the machine stands on its head or on what was jumped to. */
  lemma CameStands(r: Called, q: Path, st: State, out: Outcome, st': State)
    requires Came(r, q, st, out, st') && Stands(st, q, None)
    ensures Stands(st', q, r.land) && |st'.stack| == |st.stack| && st'.trace == r.trace
    ensures if r.exn.Some? then out == Throw(r.exn.value) else out.Ret?
  {
  }

  /** The pending exception stays while FINALLY runs; without one the worker jumps to its own slot. */
  lemma CameEnding(r: Called, f: Called, q: Path, own: nat, st: State, fin: Outcome, st3: State)
    requires f.exn.None? && Came(f, q, st, fin, st3) && Stands(st, q, None)
    ensures var (jumped, st') := JumpNearBy(st3, own);
            Came(f.(land := Some(if f.land.Some? then f.land.value else [own])), q, st, jumped, st')
    ensures r.exn.Some? ==> Came(f.(exn := r.exn), q, st, Throw(r.exn.value), st3)
  {
    assert Parent(q + [0]) == q;
  }

  lemma CameCalm(r: Called, q: Path, st: State, out: Outcome, st': State)
    requires Came(r, q, st, out, st')
    ensures Came(r.(exn := None), q, st, OK, st')
  {
  }

  /** `CallHead` on a Try, and the operands of its worker. */
  lemma TryHeadMeans(cfg: Config, nest: nat, s: Src, at: Level, tr: seq<Id>)
    requires s.Attempt?
    ensures PartIn(s, 1).Some?
    ensures var r := CallSlot(cfg, nest, s, 1, None, at, tr);
            var next := Second(cfg, s, r.exn);
            var r2 := if next.Some? then CallSlot(cfg, nest, s, next.value, r.land, at, r.trace) else r;
            CallHead(cfg, nest, s, at, tr) == Finished(cfg, nest, s, r2, at)
    ensures var head := HeadIn(s, 0);
            && head.TryHead? && head.doPos == 1 && head.escapePos == Exit(s)
            && head.finPos == if s.fin.Some? then Some(FinSlot(s)) else None
  {
    hide CallSlot, Second, Finished, CatchTable;
  }

  /** The worker of a Try: its calls, one after the other, and the jump at the end. */
  lemma {:induction false} TryComes(cfg: Config, nest: nat, s: Src, q: Path, kids: seq<Tree<Instr>>, st: State,
      at: Level)
    requires s.Attempt? && SoundClause(s) && Slots(s) <= kids && Locate(cfg.graph, q) == Hit(Box(kids))
    requires Stands(st, q, None) && at.depth == |st.stack|
    ensures var (out, st') := Exec(cfg, nest, HeadIn(s, 0), st);
            Came(CallHead(cfg, nest, s, at, st.trace), q, st, out, st')
    decreases s, 0, 1
  {
    var head := HeadIn(s, 0);
    TryExec(cfg, nest, head, st);
    var r := CallSlot(cfg, nest, s, 1, None, at, st.trace);
    var next := Second(cfg, s, r.exn);
    var r2 := if next.Some? then CallSlot(cfg, nest, s, next.value, r.land, at, r.trace) else r;
    TryHeadMeans(cfg, nest, s, at, st.trace);
    hide *;
    SlotComes(cfg, nest, s, q, kids, 1, None, st, at);
    var (d, st1) := CallSub(cfg, nest, NearCopy(st.ptr, 1), st);
    CameStands(r, q, st, d, st1);
    SecondSlot(cfg, s, r.exn);
    var out, st2 := d, st1;
    if next.Some? {
      SlotComes(cfg, nest, s, q, kids, next.value, r.land, st1, at);
      var step := CallSub(cfg, nest, NearCopy(st1.ptr, next.value), st1);
      out, st2 := step.0, step.1;
      CameAfter(r, r2, q, st, st1, d, out, st2);
    }
    TryEnds(cfg, nest, s, q, kids, r2, st, out, st2, at);
  }

  lemma {:induction false} TryEnds(cfg: Config, nest: nat, s: Src, q: Path, kids: seq<Tree<Instr>>, r: Called,
      st: State, out: Outcome, st2: State, at: Level)
    requires s.Attempt? && SoundClause(s) && Slots(s) <= kids && Locate(cfg.graph, q) == Hit(Box(kids))
    requires Stands(st, q, None) && at.depth == |st.stack|
    requires Came(r, q, st, out, st2) && (r.land.Some? ==> InPart(s, r.land.value))
    ensures var (fin, st3) := if s.fin.None? then (OK, st2) else CallSub(cfg, nest, NearCopy(st2.ptr, FinSlot(s)), st2);
            var (end, st') :=
              if fin.Throw? then (fin, st3) else if out.Throw? then (out, st3) else JumpNearBy(st3, Exit(s));
            Came(Finished(cfg, nest, s, r, at), q, st, end, st')
    decreases s, 0, 0, 1
  {
    var f := if s.fin.None? then r.(exn := None) else CallSlot(cfg, nest, s, FinSlot(s), r.land, at, r.trace);
    assert s.fin.Some? ==> PartIn(s, FinSlot(s)).Some?;
    assert Finished(cfg, nest, s, r, at)
        == if f.exn.Some? then f
           else if r.exn.Some? then f.(exn := r.exn)
           else f.(land := Some(if f.land.Some? then f.land.value else [Exit(s)]));
    hide *;
    CameStands(r, q, st, out, st2);
    var fin, st3 := OK, st2;
    if s.fin.Some? {
      SlotComes(cfg, nest, s, q, kids, FinSlot(s), r.land, st2, at);
      var step := CallSub(cfg, nest, NearCopy(st2.ptr, FinSlot(s)), st2);
      fin, st3 := step.0, step.1;
      SlotLands(cfg, nest, s, FinSlot(s), r, at);
      CameAfter(r, f, q, st, st2, out, fin, st3);
    } else {
      CameCalm(r, q, st, out, st2);
    }
    CameStands(f, q, st, fin, st3);
    if f.exn.None? {
      CameEnding(r, f, q, Exit(s), st, fin, st3);
    }
  }

  lemma SlotLands(cfg: Config, nest: nat, s: Src, j: nat, r: Called, at: Level)
    requires s.Attempt? && PartIn(s, j).Some? && (r.land.Some? ==> InPart(s, r.land.value))
    ensures var f := CallSlot(cfg, nest, s, j, r.land, at, r.trace);
            r.land.Some? ==> f.land.Some?
  {
  }

  // ----- where a head leads -----

  /** An address inside the clause's container at which flow may go on: a slot of it or of a part, but no first head. */
  predicate Place(s: Src, pos: Path)
    requires IsClause(s)
    decreases s
  {
    && pos != [] && pos[0] <= Exit(s)
    && if |pos| == 1 then pos[0] > 0 || s.Choose?
       else PartIn(s, pos[0]).Some? && IsClause(PartIn(s, pos[0]).value) && Place(PartIn(s, pos[0]).value, pos[1..])
  }

  /** A node that makes no call. */
  predicate Resting(i: Instr) {
    i.Act? || i.Nop? || i.Suspend? || i.JumpNear?
  }

  /** A call made late that returns, or raises BREAK, leaves the pointer on a node that makes no call. */
  ghost predicate Rests(t: Tree<Instr>, r: Late) {
    r.out.Ret? || r.out == Throw(BreakLoop) ==>
      Locate(t, r.land).Hit? && Locate(t, r.land).tree.Leaf? && Resting(Locate(t, r.land).tree.node)
  }

  lemma {:induction false} LateRests(cfg: Config, nest: nat, t: Tree<Instr>, here: Path, a: Path, at: Level,
      tr: seq<Id>)
    requires TameTree(t) && here != [] && a != []
    ensures Rests(t, LateCall(cfg, nest, t, here, a, at, tr))
    decreases nest, 0, 0
  {
    hide LateNode, Locate, Descend, TameTree;
    if at.depth < cfg.ovf && nest > 0 {
      var p := Descend(t, a);
      match Locate(t, p)
      case Hit(Leaf(i)) =>
        TameBelow(t, p);
        TameLeaf(i);
        DescendsOn(t, a);
        LateNodeRests(cfg, nest - 1, t, i, p, Deeper(at), tr);
      case _ =>
    }
  }

  lemma DescendsOn(t: Tree<Instr>, a: Path)
    requires a != []
    ensures Descend(t, a) != []
  {
  }

  lemma {:induction false} LateNodeRests(cfg: Config, nest: nat, t: Tree<Instr>, i: Instr, p: Path, at: Level,
      tr: seq<Id>)
    requires TameTree(t) && Tame(i) && p != [] && Locate(t, p) == Hit(Leaf(i))
    ensures Rests(t, LateNode(cfg, nest, t, i, p, at, tr))
    decreases nest, 1, 0
  {
    hide LateCall, Locate, TameTree, FirstCatch, OffsetCopy, NearCopy;
    Within([], p, 0);
    match i
    case CondJump(condOff, doOff, _, _) =>
      TwoRest(cfg, nest, t, p, condOff, doOff, at, tr);
    case LoopHead(condOff, doOff, _, _) =>
      TwoRest(cfg, nest, t, p, condOff, doOff, at, tr);
    case ElseDo(doOff, _) =>
      Within([], p, doOff);
      LateRests(cfg, nest, t, p, OffsetCopy(p, doOff), at, tr);
    case TryHead(_, _, _, _, _) => TryRests(cfg, nest, t, i, p, at, tr);
    case _ =>
  }

  lemma {:induction false} TwoRest(cfg: Config, nest: nat, t: Tree<Instr>, p: Path, condOff: nat, doOff: nat,
      at: Level, tr: seq<Id>)
    requires TameTree(t) && p != []
    ensures OffsetCopy(p, condOff) != []
    ensures var c := LateCall(cfg, nest, t, p, OffsetCopy(p, condOff), at, tr);
            && Rests(t, c) && OffsetCopy(c.land, doOff) != []
            && Rests(t, LateCall(cfg, nest, t, c.land, OffsetCopy(c.land, doOff), at, c.trace))
    decreases nest, 0, 1
  {
    hide LateCall, Locate, TameTree, OffsetCopy;
    Within([], p, condOff);
    LateRests(cfg, nest, t, p, OffsetCopy(p, condOff), at, tr);
    var c := LateCall(cfg, nest, t, p, OffsetCopy(p, condOff), at, tr);
    Within([], c.land, doOff);
    LateRests(cfg, nest, t, c.land, OffsetCopy(c.land, doOff), at, c.trace);
  }

  lemma {:induction false} TryRests(cfg: Config, nest: nat, t: Tree<Instr>, i: Instr, p: Path, at: Level, tr: seq<Id>)
    requires TameTree(t) && i.TryHead? && p != []
    ensures Rests(t, LateNode(cfg, nest, t, i, p, at, tr))
    decreases nest, 0, 1
  {
    hide LateCall, Locate, TameTree, FirstCatch, NearCopy;
    Within([], p, i.doPos);
    LateRests(cfg, nest, t, p, NearCopy(p, i.doPos), at, tr);
    var d := LateCall(cfg, nest, t, p, NearCopy(p, i.doPos), at, tr);
    var next := if d.out.Ret? then i.thnPos
                else if cfg.ignored(d.out.exn) then None
                else FirstCatch(cfg, d.out.exn, i.catches);
    var d2 := d;
    if next.Some? {
      Within([], d.land, next.value);
      LateRests(cfg, nest, t, d.land, NearCopy(d.land, next.value), at, d.trace);
      d2 := LateCall(cfg, nest, t, d.land, NearCopy(d.land, next.value), at, d.trace);
    }
    if i.finPos.Some? {
      Within([], d2.land, i.finPos.value);
      LateRests(cfg, nest, t, d2.land, NearCopy(d2.land, i.finPos.value), at, d2.trace);
    }
  }

  /** Such a node inside a part is a place. */
  lemma {:induction false} RestingPlace(s: Src, pos: Path, i: Instr)
    requires IsClause(s) && SoundClause(s) && Locate(Box(Slots(s)), pos) == Hit(Leaf(i)) && Resting(i)
    ensures Place(s, pos)
    decreases s
  {
    assert pos != [];
    var j := pos[0];
    assert Slots(s)[j] == SlotTree(s, j);
    if |pos| == 1 {
      assert pos == [j] && pos[1..] == [];
      HeadSlot(s);
    } else {
      assert Locate(SlotTree(s, j), pos[1..]) == Hit(Leaf(i));
      assert SlotTree(s, j).Box?;
      var x := PartIn(s, j).value;
      PartSlot(s, j);
      RestingPlace(x, pos[1..], i);
    }
  }

  /** What a call of a part, or of a slot, comes back with: where flow may go on, if it does. */
  predicate Leads(s: Src, r: Called)
    requires IsClause(s)
  {
    r.land.Some? && (r.exn.None? || r.exn.value == BreakLoop) ==> Place(s, r.land.value)
  }

  lemma {:induction false} PartPlaces(cfg: Config, nest: nat, s: Src, at: Level, tr: seq<Id>)
    requires SoundPart(s)
    ensures var r := CallPart(cfg, nest, s, at, tr);
            r.land.Some? ==> IsClause(s) && Leads(s, r)
    decreases s, 1
  {
    hide CallHead, Place, EvalCalled, SoundClause;
    if IsClause(s) && at.depth < cfg.ovf && nest > 0 {
      HeadPlaces(cfg, nest - 1, s, Deeper(at), tr);
    }
  }

  lemma PlaceBelow(s: Src, k: nat, pos: Path)
    requires IsClause(s) && PartIn(s, k).Some? && IsClause(PartIn(s, k).value) && Place(PartIn(s, k).value, pos)
    ensures Place(s, [k] + pos)
  {
    assert ([k] + pos)[1..] == pos;
  }

  lemma {:induction false} HeadPlaces(cfg: Config, nest: nat, s: Src, at: Level, tr: seq<Id>)
    requires IsClause(s) && SoundClause(s)
    ensures Leads(s, CallHead(cfg, nest, s, at, tr))
    decreases s, 0, 2
  {
    match s
    case Choose(arms, _) =>
      assert PartIn(s, 2) == Some(arms[0].body) && Callable(arms[0].body);
      var tr1 := CallCond(cfg, nest, at, arms[0].cond, tr).1;
      assert CallPart(cfg, nest, arms[0].body, at, tr1).land.None?;
    case Repeat(c, body) =>
      assert PartIn(s, 2) == Some(body);
      var tr1 := CallCond(cfg, nest, at, c, tr).1;
      PartPlaces(cfg, nest, body, at, tr1);
      var r := CallPart(cfg, nest, body, at, tr1);
      if r.land.Some? && Place(body, r.land.value) {
        PlaceBelow(s, 2, r.land.value);
      }
    case Attempt(_, _, _, _) => TryPlaces(cfg, nest, s, at, tr);
  }

  lemma {:induction false} SlotPlaces(cfg: Config, nest: nat, s: Src, j: nat, land: Option<Path>, at: Level,
      tr: seq<Id>)
    requires s.Attempt? && SoundClause(s) && PartIn(s, j).Some? && (land.Some? ==> InPart(s, land.value))
    ensures Leads(s, CallSlot(cfg, nest, s, j, land, at, tr))
    decreases s, 0, 0
  {
    hide CallPart, LateCall, Place, Slots, SlotTree;
    PartSlot(s, j);
    if land.Some? {
      var k, here := land.value[0], land.value[1..];
      SlotTame(s, k);
      LateRests(cfg, nest, SlotTree(s, k), here, NearCopy(here, j), at, tr);
      var r := LateCall(cfg, nest, SlotTree(s, k), here, NearCopy(here, j), at, tr);
      if r.out.Ret? || r.out == Throw(BreakLoop) {
        SlotRests(s, k, r.land, Locate(SlotTree(s, k), r.land).tree.node);
      }
    } else {
      var x := PartIn(s, j).value;
      PartPlaces(cfg, nest, x, at, tr);
      var r := CallPart(cfg, nest, x, at, tr);
      if r.land.Some? && Place(x, r.land.value) {
        PlaceBelow(s, j, r.land.value);
      }
    }
  }

  lemma SlotRests(s: Src, k: nat, pos: Path, i: Instr)
    requires IsClause(s) && SoundClause(s) && k < Exit(s) && pos != []
    requires Locate(SlotTree(s, k), pos) == Hit(Leaf(i)) && Resting(i)
    ensures Place(s, [k] + pos)
  {
    assert Slots(s)[k] == SlotTree(s, k) && ([k] + pos)[1..] == pos;
    RestingPlace(s, [k] + pos, i);
  }

  lemma {:induction false} TryPlaces(cfg: Config, nest: nat, s: Src, at: Level, tr: seq<Id>)
    requires s.Attempt? && SoundClause(s)
    ensures Leads(s, CallHead(cfg, nest, s, at, tr))
    decreases s, 0, 1
  {
    TryHeadMeans(cfg, nest, s, at, tr);
    hide CallHead, CallSlot, Second, Slots;
    SlotPlaces(cfg, nest, s, 1, None, at, tr);
    var r := CallSlot(cfg, nest, s, 1, None, at, tr);
    var next := Second(cfg, s, r.exn);
    var r2 := r;
    if next.Some? {
      SlotPlaces(cfg, nest, s, next.value, r.land, at, r.trace);
      r2 := CallSlot(cfg, nest, s, next.value, r.land, at, r.trace);
    }
    if s.fin.Some? {
      assert PartIn(s, FinSlot(s)) == s.fin;
      SlotPlaces(cfg, nest, s, FinSlot(s), r2.land, at, r2.trace);
    }
  }

  // ----- flow through a clause -----

  /** The head of a clause met by flow: it raises, or the machine rests where its jump leads. */
  lemma HeadTurn(cfg: Config, s: Src, q: Path, kids: seq<Tree<Instr>>, st: State, at: Level)
    requires IsClause(s) && SoundClause(s) && Slots(s) <= kids && Locate(cfg.graph, q) == Hit(Box(kids))
    requires Active(st) && at.depth == |st.stack|
    ensures var r := CallHead(cfg, cfg.nest, s, at, st.trace);
            var fin := RunTurns(cfg, At(cfg, st, q + [0]), 1);
            if r.exn.Some? then Stopped(fin, r.exn.value, r.trace)
            else fin == At(cfg, st.(trace := r.trace), q + r.land.value)
  {
    var here := st.(ptr := q + [0]);
    var head := HeadIn(s, 0);
    KidAt(cfg.graph, s, q, kids, 0);
    HeadSlot(s);
    assert Stands(here, q, None) && st.status.Running? && !st.flags.hlt;
    hide *;
    HeadComes(cfg, cfg.nest, s, q, kids, here, at);
    LeafTurn(cfg, st, q + [0], head);
    var (out, st') := Exec(cfg, cfg.nest, head, here);
    HeadLands(cfg, CallHead(cfg, cfg.nest, s, at, st.trace), q, st, out, st');
  }

  lemma HeadLands(cfg: Config, r: Called, q: Path, st: State, out: Outcome, st': State)
    requires Came(r, q, st.(ptr := q + [0]), out, st') && Active(st)
    requires r.exn.None? ==> r.land.Some? && r.land.value != []
    ensures var fin := Land(cfg, Settled(cfg, out, st'));
            if r.exn.Some? then Stopped(fin, r.exn.value, r.trace)
            else fin == At(cfg, st.(trace := r.trace), q + r.land.value)
  {
    hide Descend;
  }

  /** Calling a node of a clause at the outermost level: the machine is left as it was, trace apart. */
  lemma CallCalled(cfg: Config, p: Path, s: Src, st: State, at: Level)
    requires Locate(cfg.graph, p) == Hit(Item(s, NoLoop)) && Callable(s)
    requires cfg.nest >= 1 && Active(st) && at.depth == |st.stack|
    ensures var r := EvalCalled(cfg, s, at, st.trace);
            var (out, st') := CallSub(cfg, cfg.nest, p, st);
            && st' == st.(trace := r.trace)
            && (r.out.Normal? || r.out.Err?)
            && (r.out.Normal? ==> out.Ret?)
            && (r.out.Err? ==> out == Throw(r.out.exn))
  {
    CallLeaf(cfg, cfg.nest, p, NodeOf(s, NoLoop), st);
  }

  lemma ChunkTurn(cfg: Config, st: State, q: Path, b: nat, thenPos: nat, c: Id, body: Src, at: Level)
    requires Locate(cfg.graph, q + [b]) == Hit(Leaf(CondJump(1, 2, 3, thenPos)))
    requires Locate(cfg.graph, q + [b + 1]) == Hit(Leaf(Act(c)))
    requires Locate(cfg.graph, q + [b + 2]) == Hit(Item(body, NoLoop)) && Callable(body)
    requires Active(st) && cfg.nest >= 1 && at.depth == |st.stack|
    ensures var (test, tr1) := Evaluate(cfg, at, c, st.trace);
            var r := EvalCalled(cfg, body, at, tr1);
            var fin := RunTurns(cfg, At(cfg, st, q + [b]), 1);
            match test
            case Throw(e) => Stopped(fin, e, tr1)
            case Ret(false) => fin == At(cfg, st.(trace := tr1), q + [b + 3])
            case Ret(true) =>
              if r.out.Err? then Stopped(fin, r.out.exn, r.trace)
              else fin == At(cfg, st.(trace := r.trace), q + [thenPos])
  {
    hide RunTurns, Turn, Descend;
    var head := CondJump(1, 2, 3, thenPos);
    assert Parent(q + [b]) == q && OffsetCopy(q + [b], 1) == q + [b + 1];
    assert OffsetCopy(q + [b], 2) == q + [b + 2] && OffsetCopy(q + [b], 3) == q + [b + 3];
    CallLeaf(cfg, cfg.nest, q + [b + 1], Act(c), st.(ptr := q + [b]));
    var (test, tr1) := Evaluate(cfg, at, c, st.trace);
    if test.Throw? {
      RaiseTurn(cfg, st, q + [b], head, test.exn);
    } else if !test.value {
      JumpTurn(cfg, st, q + [b], head, Marked(st.(trace := tr1)).(ptr := q + [b + 3]), q + [b + 3]);
    } else {
      CallCalled(cfg, q + [b + 2], body, st.(ptr := q + [b], trace := tr1), at);
      var r := EvalCalled(cfg, body, at, tr1);
      if r.out.Err? {
        RaiseTurn(cfg, st, q + [b], head, r.out.exn);
      } else {
        JumpTurn(cfg, st, q + [b], head, Marked(st.(trace := r.trace)).(ptr := q + [thenPos]), q + [thenPos]);
      }
    }
  }

  lemma ElseTurn(cfg: Config, st: State, q: Path, e: nat, body: Src, at: Level)
    requires Locate(cfg.graph, q + [e]) == Hit(Leaf(ElseDo(1, 2)))
    requires Locate(cfg.graph, q + [e + 1]) == Hit(Item(body, NoLoop)) && Callable(body)
    requires Active(st) && cfg.nest >= 1 && at.depth == |st.stack|
    ensures var r := EvalCalled(cfg, body, at, st.trace);
            var fin := RunTurns(cfg, At(cfg, st, q + [e]), 1);
            if r.out.Err? then Stopped(fin, r.out.exn, r.trace)
            else fin == At(cfg, st.(trace := r.trace), q + [e + 2])
  {
    hide RunTurns, Turn, Descend;
    var head := ElseDo(1, 2);
    assert OffsetCopy(q + [e], 1) == q + [e + 1] && OffsetCopy(q + [e], 2) == q + [e + 2];
    CallCalled(cfg, q + [e + 1], body, st.(ptr := q + [e]), at);
    var r := EvalCalled(cfg, body, at, st.trace);
    if r.out.Err? {
      RaiseTurn(cfg, st, q + [e], head, r.out.exn);
    } else {
      JumpTurn(cfg, st, q + [e], head, Marked(st.(trace := r.trace)).(ptr := q + [e + 2]), q + [e + 2]);
    }
  }

  /** What is in the slots of the k-th chunk, and of the ELSE after the last. */
  lemma ChooseSlots(s: Src, k: nat)
    requires s.Choose? && SoundClause(s) && k <= |s.arms|
    ensures k < |s.arms| ==>
              && SlotTree(s, 3 * k) == Leaf(CondJump(1, 2, 3, Exit(s)))
              && SlotTree(s, 3 * k + 1) == Leaf(Act(s.arms[k].cond))
              && SlotTree(s, 3 * k + 2) == Item(s.arms[k].body, NoLoop) && Callable(s.arms[k].body)
    ensures k == |s.arms| && s.els.Some? ==>
              && SlotTree(s, 3 * k) == Leaf(ElseDo(1, 2))
              && SlotTree(s, 3 * k + 1) == Item(s.els.value, NoLoop) && Callable(s.els.value)
  {
    var b := 3 * k;
    if k < |s.arms| {
      assert b / 3 == k && (b + 1) / 3 == k && (b + 2) / 3 == k && (b + 2) % 3 == 2 && (b + 1) % 3 == 1;
      assert PartIn(s, b + 2) == Some(s.arms[k].body);
    } else if s.els.Some? {
      assert b / 3 == k && (b + 1) / 3 == k;
      assert PartIn(s, b + 1) == s.els;
    }
  }

  lemma ChunkNumber(s: Src, j: nat)
    requires s.Choose? && j < Exit(s) && PartIn(s, j).None? && CondIn(s, j).None?
    ensures j == 3 * (j / 3) && j / 3 <= |s.arms|
  {
  }

  /** IF, ELIF, ELSE from the k-th chunk on, for any number of branches. */
  lemma {:induction false} RunChoose(cfg: Config, s: Src, i: nat, q: Path, kids: seq<Tree<Instr>>, sc: Scope,
      st: State, at: Level, fuel: nat)
    returns (k: nat)
    requires s.Choose? && SoundClause(s) && i <= |s.arms|
    requires cfg.nest >= 1 && Locate(cfg.graph, q) == Hit(Box(kids)) && Slots(s) <= kids
    requires Ready(st, sc, at)
    ensures Lands(cfg, EvalChoose(cfg, s.arms[i..], s.els, at, st.trace), st, sc, After(cfg.graph, q, Exit(s) + 1),
                  RunTurns(cfg, At(cfg, st, q + [3 * i]), k), k, fuel)
    decreases |s.arms| - i
  {
    hide RunTurns, Turn, Descend, Next, After, Locate, Slots, SoundClause, PartIn, Item, Evaluate, EvalCalled, At,
         SlotTree, Lands;
    var start := At(cfg, st, q + [3 * i]);
    var exit, next := Exit(s), After(cfg.graph, q, Exit(s) + 1);
    k := 1;
    ClosingSlot(s, kids);
    ChooseSlots(s, i);
    TurnsZero(cfg, start);
    if i == |s.arms| && s.els.None? {
      Closing(cfg, Result(Normal, st.trace), st, sc, q, exit, start, 0, fuel);
    } else if i == |s.arms| {
      KidAt(cfg.graph, s, q, kids, 3 * i);
      KidAt(cfg.graph, s, q, kids, 3 * i + 1);
      ElseTurn(cfg, st, q, 3 * i, s.els.value, at);
      var r := EvalCalled(cfg, s.els.value, at, st.trace);
      CalledOut(cfg, s.els.value, at, st.trace);
      k := BranchCloses(cfg, r, st, sc, q, exit, start, fuel);
    } else {
      KidAt(cfg.graph, s, q, kids, 3 * i);
      KidAt(cfg.graph, s, q, kids, 3 * i + 1);
      KidAt(cfg.graph, s, q, kids, 3 * i + 2);
      var Arm(c, body) := s.arms[i];
      assert s.arms[i..][0] == s.arms[i] && s.arms[i..][1..] == s.arms[i + 1..];
      ChunkTurn(cfg, st, q, 3 * i, exit, c, body, at);
      var (test, tr1) := Evaluate(cfg, at, c, st.trace);
      var r := EvalCalled(cfg, body, at, tr1);
      if test == Ret(false) {
        var st1 := st.(trace := tr1);
        ReadyLater(st, sc, at, tr1);
        var k1 := RunChoose(cfg, s, i + 1, q, kids, sc, st1, at, fuel);
        Moved(cfg, tr1, EvalChoose(cfg, s.arms[i + 1..], s.els, at, tr1), st, sc, q + [3 * i + 3], next, start, k1,
              fuel);
        k := 1 + k1;
      } else if test == Ret(true) {
        CalledOut(cfg, body, at, tr1);
        k := BranchCloses(cfg, r, st, sc, q, exit, start, fuel);
      } else {
        StopLands(cfg, Result(Err(test.exn), tr1), st, sc, next, RunTurns(cfg, start, 1), 1, fuel);
      }
    }
  }

  /** One turn has led on to `mid`. */
  lemma Moved(cfg: Config, tr: seq<Id>, r: Result, st: State, sc: Scope, mid: Path, next: Path, start: State,
      k: nat, fuel: nat)
    requires RunTurns(cfg, start, 1) == At(cfg, st.(trace := tr), mid)
    requires Lands(cfg, r, st.(trace := tr), sc, next, RunTurns(cfg, At(cfg, st.(trace := tr), mid), k), k, fuel)
    ensures Lands(cfg, r, st, sc, next, RunTurns(cfg, start, 1 + k), 1 + k, fuel)
  {
    hide RunTurns;
    Chain(cfg, Result(Normal, tr), r, st, sc, mid, next, start, 1, k, fuel);
  }

  /** A called branch has raised, or led to the closing NOP. */
  lemma BranchCloses(cfg: Config, r: Result, st: State, sc: Scope, q: Path, i: nat, start: State, fuel: nat)
    returns (k: nat)
    requires Locate(cfg.graph, q).Hit? && Locate(cfg.graph, q).tree.Box?
    requires i < |Locate(cfg.graph, q).tree.kids| && Locate(cfg.graph, q).tree.kids[i] == Leaf(Nop)
    requires Active(st) && (r.out.Normal? || r.out.Err?)
    requires var fin := RunTurns(cfg, start, 1);
             if r.out.Err? then Stopped(fin, r.out.exn, r.trace) else fin == At(cfg, st.(trace := r.trace), q + [i])
    ensures Lands(cfg, r, st, sc, After(cfg.graph, q, i + 1), RunTurns(cfg, start, k), k, fuel)
  {
    hide RunTurns, At, After, Locate;
    k := 1;
    if r.out.Normal? {
      Closing(cfg, r, st, sc, q, i, start, 1, fuel);
      k := 2;
    }
  }

  lemma CalledOut(cfg: Config, s: Src, at: Level, tr: seq<Id>)
    ensures var r := EvalCalled(cfg, s, at, tr); r.out.Normal? || r.out.Err?
  {
  }

  lemma ClosingSlot(s: Src, kids: seq<Tree<Instr>>)
    requires IsClause(s) && Slots(s) <= kids
    ensures Exit(s) < |kids| && kids[Exit(s)] == Leaf(Nop)
  {
    assert kids[Exit(s)] == Slots(s)[Exit(s)];
  }

  lemma TurnsZero(cfg: Config, st: State)
    ensures RunTurns(cfg, st, 0) == st
  {
  }

  lemma BackTurn(cfg: Config, st: State, q: Path, i: nat, target: nat)
    requires Locate(cfg.graph, q + [i]) == Hit(Leaf(JumpNear(target))) && Active(st)
    ensures RunTurns(cfg, At(cfg, st, q + [i]), 1) == At(cfg, st, q + [target])
  {
    assert Parent(q + [i]) == q;
    JumpTurn(cfg, st, q + [i], JumpNear(target), Marked(st).(ptr := q + [target]), q + [target]);
  }

  /** A user node, a NOP or a SUSPEND in the flow. */
  lemma RunNode(cfg: Config, s: Src, path: Path, sc: Scope, st: State, at: Level, fuel: nat)
    requires Callable(s) && path != [] && Locate(cfg.graph, path) == Hit(Leaf(NodeOf(s, sc))) && Ready(st, sc, at)
    ensures Lands(cfg, EvalNode(cfg, s, st.trace), st, sc, Next(cfg.graph, path),
                  RunTurns(cfg, At(cfg, st, path), 1), 1, fuel)
  {
    hide RunTurns, Turn, Descend, Next, Locate;
    var here := st.(ptr := path);
    match s
    case Work(id) =>
      if cfg.oracle(st.trace + [id]).Ret? {
        PlainTurn(cfg, st, path, Act(id), here.(trace := st.trace + [id]));
      } else {
        RaiseTurn(cfg, st, path, Act(id), cfg.oracle(st.trace + [id]).exn);
      }
    case Skip => PlainTurn(cfg, st, path, Nop, here);
    case Pause => RaiseTurn(cfg, st, path, Instr.Suspend, Suspended);
  }

  // ----- clauses in a graph -----

  /** A clause whose slots are the first children of the container at `q`. */
  ghost predicate Laid(cfg: Config, s: Src, q: Path, kids: seq<Tree<Instr>>) {
    && cfg.nest >= 1 && IsClause(s) && SoundClause(s)
    && Locate(cfg.graph, q) == Hit(Box(kids)) && Slots(s) <= kids
  }

  /** A part in its slot: a node, or a clause in a container of its own. */
  lemma LaidPart(cfg: Config, s: Src, q: Path, kids: seq<Tree<Instr>>, j: nat)
    requires Laid(cfg, s, q, kids) && PartIn(s, j).Some?
    ensures var x := PartIn(s, j).value;
            && Locate(cfg.graph, q + [j]) == Hit(Item(x, NoLoop)) && SoundPart(x)
            && (IsClause(x) ==> Laid(cfg, x, q + [j], Slots(x)))
  {
    KidAt(cfg.graph, s, q, kids, j);
    PartSlot(s, j);
    hide Slots, SlotTree, Item, Locate, SoundClause, SoundPart;
    var x := PartIn(s, j).value;
    if IsClause(x) {
      ClausePart(cfg, 0, x, Level(0, 0, false), []);
    }
  }

  lemma LaidCond(cfg: Config, s: Src, q: Path, kids: seq<Tree<Instr>>, j: nat)
    requires Laid(cfg, s, q, kids) && PartIn(s, j).None? && CondIn(s, j).Some? && j < Exit(s)
    ensures Locate(cfg.graph, q + [j]) == Hit(Leaf(Act(CondIn(s, j).value)))
  {
    KidAt(cfg.graph, s, q, kids, j);
  }

  /** The slot after slot `j`, for the node in it and for flow leaving a container in it. */
  lemma LaidNext(cfg: Config, s: Src, q: Path, kids: seq<Tree<Instr>>, j: nat, st: State)
    requires Laid(cfg, s, q, kids) && j < Exit(s)
    ensures At(cfg, st, Next(cfg.graph, q + [j])) == At(cfg, st, q + [j + 1])
    ensures PartIn(s, j).Some? && IsClause(PartIn(s, j).value) ==>
              var x := PartIn(s, j).value;
              At(cfg, st, After(cfg.graph, q + [j], Exit(x) + 1)) == At(cfg, st, q + [j + 1])
  {
    NextIsAfter(cfg, st, q, j);
    if PartIn(s, j).Some? && IsClause(PartIn(s, j).value) {
      LaidPart(cfg, s, q, kids, j);
    }
  }

  /** A part of a clause that flow runs into. */
  lemma {:induction false} RunPart(cfg: Config, s: Src, path: Path, sc: Scope, st: State, at: Level, fuel: nat)
    returns (k: nat)
    requires SoundPart(s) && (IsClause(s) ==> Laid(cfg, s, path, Slots(s)))
    requires path != [] && Locate(cfg.graph, path) == Hit(Item(s, NoLoop)) && Ready(st, sc, at)
    ensures Lands(cfg, ActualPart(cfg, s, at, fuel, st.trace), st, sc, Next(cfg.graph, path),
                  RunTurns(cfg, At(cfg, st, path), k), k, fuel)
    decreases fuel, s, 4, 0
  {
    hide RunTurns, Turn, Descend, Next, Slots, Actual;
    if Callable(s) {
      RunNode(cfg, s, path, sc, st, at, fuel);
      k := 1;
    } else {
      EnterHits(cfg.graph, path);
      assert At(cfg, st, path) == At(cfg, st, path + [0]);
      k := RunActual(cfg, s, path, Slots(s), sc, st, at, fuel);
    }
  }

  /** A clause met by flow, whatever is nested in it. */
  lemma {:induction false} RunActual(cfg: Config, s: Src, q: Path, kids: seq<Tree<Instr>>, sc: Scope, st: State,
      at: Level, fuel: nat)
    returns (k: nat)
    requires Laid(cfg, s, q, kids) && Ready(st, sc, at)
    ensures Lands(cfg, Actual(cfg, s, at, fuel, st.trace), st, sc, After(cfg.graph, q, Exit(s) + 1),
                  RunTurns(cfg, At(cfg, st, q + [0]), k), k, fuel)
    decreases fuel, s, 3, 0
  {
    hide RunTurns, Turn, Descend, Next, After, Slots, SoundClause, ActualFrom, EvalChoose, CallHead, Locate;
    if s.Choose? {
      assert s.arms[0..] == s.arms;
      k := RunChoose(cfg, s, 0, q, kids, sc, st, at, fuel);
    } else {
      HeadTurn(cfg, s, q, kids, st, at);
      k := 1;
      var r := CallHead(cfg, cfg.nest, s, at, st.trace);
      HeadPlaces(cfg, cfg.nest, s, at, st.trace);
      if r.exn.None? {
        var k1 := RunFrom(cfg, s, r.land.value, q + r.land.value, q, kids, sc, st.(trace := r.trace), at, fuel);
        TurnsPlus(cfg, At(cfg, st, q + [0]), 1, k1);
        k := 1 + k1;
      }
    }
  }

  /** Flow going on at an address inside the clause's container. */
  lemma {:induction false} RunFrom(cfg: Config, s: Src, pos: Path, here: Path, q: Path, kids: seq<Tree<Instr>>,
      sc: Scope, st: State, at: Level, fuel: nat)
    returns (k: nat)
    requires Laid(cfg, s, q, kids) && Place(s, pos) && here == q + pos && Ready(st, sc, at)
    ensures Lands(cfg, ActualFrom(cfg, s, pos, at, fuel, st.trace), st, sc, After(cfg.graph, q, Exit(s) + 1),
                  RunTurns(cfg, At(cfg, st, here), k), k, fuel)
    decreases fuel, s, 2, 0
  {
    hide RunTurns, Turn, Descend, Next, Slots, Locate, SoundClause, After;
    var j := pos[0];
    k := 0;
    if |pos| == 1 {
      assert pos == [j];
      k := RunOn(cfg, s, j, q, kids, sc, st, at, fuel);
    } else {
      assert here == (q + [j]) + pos[1..];
      k := RunWithin(cfg, s, j, pos[1..], here, q, kids, sc, st, at, fuel);
    }
  }

  /** Flow going on inside a part that is a clause, and after it. */
  lemma {:induction false} RunWithin(cfg: Config, s: Src, j: nat, pos: Path, here: Path, q: Path,
      kids: seq<Tree<Instr>>, sc: Scope, st: State, at: Level, fuel: nat)
    returns (k: nat)
    requires Laid(cfg, s, q, kids) && IsClause(s) && PartIn(s, j).Some? && IsClause(PartIn(s, j).value)
    requires Place(PartIn(s, j).value, pos)
    requires here == (q + [j]) + pos && Ready(st, sc, at)
    ensures var r := ActualFrom(cfg, PartIn(s, j).value, pos, at, fuel, st.trace);
            var r2 := if r.out.Normal? then ActualOn(cfg, s, j + 1, at, fuel, r.trace) else r;
            Lands(cfg, r2, st, sc, After(cfg.graph, q, Exit(s) + 1), RunTurns(cfg, At(cfg, st, here), k), k, fuel)
    decreases fuel, s, 1, Exit(s) + 1, 0
  {
    hide *;
    var x := PartIn(s, j).value;
    var r := ActualFrom(cfg, x, pos, at, fuel, st.trace);
    LaidPart(cfg, s, q, kids, j);
    k := RunFrom(cfg, x, pos, here, q + [j], Slots(x), sc, st, at, fuel);
    if r.out.Normal? {
      var st1 := st.(trace := r.trace);
      ReadyLater(st, sc, at, r.trace);
      LaidNext(cfg, s, q, kids, j, st1);
      var k2 := RunOn(cfg, s, j + 1, q, kids, sc, st1, at, fuel);
      Chain(cfg, r, ActualOn(cfg, s, j + 1, at, fuel, r.trace), st, sc, After(cfg.graph, q + [j], Exit(x) + 1),
            After(cfg.graph, q, Exit(s) + 1), At(cfg, st, here), k, k2, fuel);
      k := k + k2;
    } else {
      Elsewhere(cfg, r, st, sc, After(cfg.graph, q + [j], Exit(x) + 1), After(cfg.graph, q, Exit(s) + 1),
                RunTurns(cfg, At(cfg, st, here), k), k, fuel);
    }
  }

  /** Flow going on with slot `j`. */
  lemma {:induction false} RunOn(cfg: Config, s: Src, j: nat, q: Path, kids: seq<Tree<Instr>>, sc: Scope,
      st: State, at: Level, fuel: nat)
    returns (k: nat)
    requires Laid(cfg, s, q, kids) && j <= Exit(s) && (j > 0 || s.Choose?) && Ready(st, sc, at)
    ensures Lands(cfg, ActualOn(cfg, s, j, at, fuel, st.trace), st, sc, After(cfg.graph, q, Exit(s) + 1),
                  RunTurns(cfg, At(cfg, st, q + [j]), k), k, fuel)
    decreases fuel, s, 1, Exit(s) - j, 1
  {
    hide RunTurns, Turn, Descend, Slots, ActualPart, Locate, EvalChoose, Actual, Next;
    var start := At(cfg, st, q + [j]);
    ClosingSlot(s, kids);
    TurnsZero(cfg, start);
    k := 0;
    if j == Exit(s) {
      CloseTurn(cfg, st, q, j);
      k := 1;
    } else if PartIn(s, j).Some? || CondIn(s, j).Some? {
      k := RunThrough(cfg, s, j, q, kids, sc, st, at, fuel);
    } else if s.Choose? {
      ChunkNumber(s, j);
      k := RunChoose(cfg, s, j / 3, q, kids, sc, st, at, fuel);
    } else if s.Repeat? && j == 3 && fuel > 0 {
      KidAt(cfg.graph, s, q, kids, 3);
      BackTurn(cfg, st, q, 3, 0);
      k := RunActual(cfg, s, q, kids, sc, st, at, fuel - 1);
      TurnsPlus(cfg, start, 1, k);
      k := 1 + k;
    }
  }

  /** A part or a condition that flow runs into, and the slots after it. */
  lemma {:induction false} RunThrough(cfg: Config, s: Src, j: nat, q: Path, kids: seq<Tree<Instr>>, sc: Scope,
      st: State, at: Level, fuel: nat)
    returns (k: nat)
    requires Laid(cfg, s, q, kids) && IsClause(s) && j < Exit(s) && Ready(st, sc, at)
    requires PartIn(s, j).Some? || CondIn(s, j).Some?
    ensures var r := if PartIn(s, j).Some? then ActualPart(cfg, PartIn(s, j).value, at, fuel, st.trace)
                     else Observe(cfg, CondIn(s, j).value, st.trace);
            var r2 := if r.out.Normal? then ActualOn(cfg, s, j + 1, at, fuel, r.trace) else r;
            Lands(cfg, r2, st, sc, After(cfg.graph, q, Exit(s) + 1),
                  RunTurns(cfg, At(cfg, st, q + [j]), k), k, fuel)
    decreases fuel, s, 1, Exit(s) - j, 0
  {
    hide *;
    var r;
    if PartIn(s, j).Some? {
      var x := PartIn(s, j).value;
      r := ActualPart(cfg, x, at, fuel, st.trace);
      LaidPart(cfg, s, q, kids, j);
      k := RunPart(cfg, x, q + [j], sc, st, at, fuel);
    } else {
      r := Observe(cfg, CondIn(s, j).value, st.trace);
      k := RunCond(cfg, s, j, q, kids, sc, st, at, fuel);
    }
    if r.out.Normal? {
      var st1 := st.(trace := r.trace);
      ReadyLater(st, sc, at, r.trace);
      LaidNext(cfg, s, q, kids, j, st1);
      var k2 := RunOn(cfg, s, j + 1, q, kids, sc, st1, at, fuel);
      Chain(cfg, r, ActualOn(cfg, s, j + 1, at, fuel, r.trace), st, sc, Next(cfg.graph, q + [j]),
            After(cfg.graph, q, Exit(s) + 1), At(cfg, st, q + [j]), k, k2, fuel);
      k := k + k2;
    } else {
      Elsewhere(cfg, r, st, sc, Next(cfg.graph, q + [j]), After(cfg.graph, q, Exit(s) + 1),
                RunTurns(cfg, At(cfg, st, q + [j]), k), k, fuel);
    }
  }

  lemma RunCond(cfg: Config, s: Src, j: nat, q: Path, kids: seq<Tree<Instr>>, sc: Scope, st: State, at: Level,
      fuel: nat)
    returns (k: nat)
    requires Laid(cfg, s, q, kids) && j < Exit(s) && PartIn(s, j).None? && CondIn(s, j).Some? && Ready(st, sc, at)
    ensures Lands(cfg, Observe(cfg, CondIn(s, j).value, st.trace), st, sc, Next(cfg.graph, q + [j]),
                  RunTurns(cfg, At(cfg, st, q + [j]), k), k, fuel)
  {
    LaidCond(cfg, s, q, kids, j);
    RunNode(cfg, Work(CondIn(s, j).value), q + [j], sc, st, at, fuel);
    k := 1;
  }

  // ----- archived segments -----

  lemma ArchiveTurn(cfg: Config, st: State, q: Path, kids: seq<Tree<Instr>>)
    requires Locate(cfg.graph, q) == Hit(Box(kids)) && |kids| >= 3
    requires kids[0] == Leaf(JumpOffset(2)) && kids[2] == Leaf(Nop) && Active(st)
    ensures RunTurns(cfg, At(cfg, st, q + [0]), 2) == At(cfg, st, After(cfg.graph, q, 3))
  {
    hide Turn, Descend, Next;
    Child(cfg.graph, q, kids, 0);
    assert OffsetCopy(q + [0], 2) == q + [2];
    JumpTurn(cfg, st, q + [0], JumpOffset(2), Marked(st).(ptr := q + [2]), q + [2]);
    CloseTurn(cfg, st, q, 2);
    TurnsPlus(cfg, At(cfg, st, q + [0]), 1, 1);
  }
}
