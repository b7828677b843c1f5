/**
 SUSPEND where a clause calls it instead of flow meeting it: what resuming then
 executes, and exactly which IFs may be suspended in.
 */
module SuspendedBranches {
  import opened Options
  import opened Addressing
  import opened Machine
  import opened Native
  import opened Relabelling
  import opened Turns
  import opened RunStates
  import opened ClauseRuns
  import opened CalledNodes
  import opened Suspends

  ghost predicate LeafAt(cfg: Config, p: Path, i: Instr) {
    Locate(cfg.graph, p) == Hit(Leaf(i))
  }

  /** Replacing SUSPENDs leaves every other leaf as it is. */
  lemma LeafWithout(cfg: Config, p: Path, i: Instr)
    requires LeafAt(cfg, p, i)
    ensures LeafAt(WithoutSuspends(cfg), p, Resumable(i))
  {
    RelabelLocate(Resumable, cfg.graph, p);
  }

  /** From one leaf of a container to the next. */
  lemma NextLeaf(cfg: Config, q: Path, j: nat, i: Instr, st: State)
    requires LeafAt(cfg, q + [j], i) && Locate(cfg.graph, q + [j + 1]).Hit? && Locate(cfg.graph, q + [j + 1]).tree.Leaf?
    requires st.ptr == q + [j]
    ensures Advance(cfg, st) == st.(ptr := q + [j + 1])
  {
    HitParent(cfg.graph, q + [j + 1]);
    assert Parent(q + [j + 1]) == q == Parent(q + [j]);
    NextInBox(cfg.graph, q, j);
  }

  /** Sessions and runs step together while nothing halts. */
  lemma Steps(cfg: Config, st: State)
    ensures Run(cfg, st, 0) == st && Run(cfg, st, 1) == Cycle(cfg, st)
    ensures Session(cfg, st, 0) == st
    ensures Session(cfg, st, 1) == Cycle(cfg, if st.status.Halted? then Boot(st) else st)
  {
    hide Cycle;
    assert Run(cfg, Cycle(cfg, st), 0) == Cycle(cfg, st);
    assert Session(cfg, SessionStep(cfg, st), 0) == SessionStep(cfg, st);
  }

  function HaltedAt(st: State): State {
    st.(flags := st.flags.(hlt := true), status := Halted)
  }

  /** A SUSPEND that flow meets: halted on it, then resumed past it. */
  lemma FlowSuspend(cfg: Config, q: Path, j: nat, st: State)
    requires LeafAt(cfg, q + [j], Suspend) && st.ptr == q + [j] && Active(st)
    requires Locate(cfg.graph, q + [j + 1]).Hit? && Locate(cfg.graph, q + [j + 1]).tree.Leaf?
    ensures Session(cfg, st, 1) == HaltedAt(st)
    ensures Session(cfg, st, 2) == st.(ptr := q + [j + 1])
  {
    hide Exec, Session, Advance;
    LeafCycle(cfg, st, q + [j], Suspend);
    SuspendExec(cfg, st);
    Steps(cfg, st);
    Passed(cfg, q, j, Suspend, st);
    SessionPlus(cfg, st, 1, 1);
  }

  lemma SuspendExec(cfg: Config, st: State)
    ensures Exec(cfg, cfg.nest, Suspend, st) == (Throw(Suspended), st)
  {
  }

  /** Halted on a leaf, a session goes on with the leaf after it. */
  lemma Passed(cfg: Config, q: Path, j: nat, i: Instr, st: State)
    requires LeafAt(cfg, q + [j], i) && st.ptr == q + [j] && Active(st)
    requires Locate(cfg.graph, q + [j + 1]).Hit? && Locate(cfg.graph, q + [j + 1]).tree.Leaf?
    ensures Session(cfg, HaltedAt(st), 1) == st.(ptr := q + [j + 1])
  {
    hide Session, Advance;
    var halted := HaltedAt(st);
    Steps(cfg, halted);
    assert Boot(halted).(flags := Boot(halted).flags.(hlt := false)) == st;
    assert Cycle(cfg, Boot(halted)) == Advance(cfg, st);
    NextLeaf(cfg, q, j, i, st);
  }

  // ----- IF -----

  /** What the head of a chunk does, its branch being a user node, a NOP or a SUSPEND. */
  lemma ChunkCycle(cfg: Config, st: State, q: Path, b: nat, c: Id, node: Instr, thenPos: nat)
    requires ChunkAt(cfg, q, b, c, node, thenPos) && (node.Act? || node.Nop? || node.Suspend?)
    requires st.ptr == q + [b] && Active(st) && cfg.nest >= 1 && |st.stack| < cfg.ovf
    ensures var test := cfg.oracle(st.trace + [c]);
            var st1 := st.(trace := st.trace + [c]);
            var st2 := if node.Act? then st1.(trace := st1.trace + [node.id]) else st1;
            var done := if node.Act? then cfg.oracle(st2.trace) else if node.Nop? then OK else Throw(Suspended);
            Cycle(cfg, st)
            == if test.Throw? then Settled(cfg, test, st1)
               else if !test.value then st1.(ptr := q + [b + 3])
               else if done.Throw? then Settled(cfg, done, st2)
               else st2.(ptr := q + [thenPos])
  {
    hide CallSub, Locate, Descend, Cycle;
    assert OffsetCopy(q + [b], 1) == q + [b + 1] && OffsetCopy(q + [b], 2) == q + [b + 2];
    assert OffsetCopy(q + [b], 3) == q + [b + 3] && Parent(q + [b]) == q;
    var st1 := st.(trace := st.trace + [c]);
    CallLeaf(cfg, cfg.nest, q + [b + 1], Act(c), st);
    CallLeaf(cfg, cfg.nest, q + [b + 2], node, st1);
    LeafCycle(cfg, st, q + [b], CondJump(1, 2, 3, thenPos));
  }

  /** A user node in the flow. */
  lemma FlowNode(cfg: Config, q: Path, j: nat, c: Id, st: State)
    requires LeafAt(cfg, q + [j], Act(c)) && st.ptr == q + [j] && Active(st)
    requires Locate(cfg.graph, q + [j + 1]).Hit? && Locate(cfg.graph, q + [j + 1]).tree.Leaf?
    ensures var st1 := st.(trace := st.trace + [c]);
            Session(cfg, st, 1) == match cfg.oracle(st1.trace)
                                   case Throw(e) => Settled(cfg, Throw(e), st1)
                                   case Ret(_) => st1.(ptr := q + [j + 1])
  {
    hide Advance, Session, Locate;
    LeafCycle(cfg, st, q + [j], Act(c));
    Steps(cfg, st);
    NextLeaf(cfg, q, j, Act(c), st.(trace := st.trace + [c]));
  }

  /**
   IF(c, SUSPEND) with `c` true, in any graph and state: the run without
   SUSPENDs jumps past the branches. The session halts on the IF; resumed, it
   executes the condition a second time, as a node of the flow whose answer
   does not matter, halts again on the SUSPEND, and goes on with the next branch.
   */
  lemma SuspendInBranch(cfg: Config, st: State, q: Path, b: nat, c: Id, thenPos: nat)
    requires ChunkAt(cfg, q, b, c, Suspend, thenPos)
    requires Locate(cfg.graph, q + [b + 3]).Hit? && Locate(cfg.graph, q + [b + 3]).tree.Leaf?
    requires st.ptr == q + [b] && Active(st) && cfg.nest >= 1 && |st.stack| < cfg.ovf
    requires cfg.oracle(st.trace + [c]) == Ret(true)
    ensures var st1 := st.(trace := st.trace + [c]);
            var st2 := st.(trace := st.trace + [c] + [c]);
            && Run(WithoutSuspends(cfg), st, 1) == st1.(ptr := q + [thenPos])
            && Session(cfg, st, 1) == HaltedAt(st1)
            && Session(cfg, st, 2) == st1.(ptr := q + [b + 1])
            && match cfg.oracle(st2.trace)
               case Throw(e) => Session(cfg, st, 3) == Settled(cfg, Throw(e), st2.(ptr := q + [b + 1]))
               case Ret(_) =>
                 && Session(cfg, st, 4) == HaltedAt(st2.(ptr := q + [b + 2]))
                 && Session(cfg, st, 5) == st2.(ptr := q + [b + 3])
  {
    hide Cycle, Session, Run, Locate, Relabel;
    var st1, st2 := st.(trace := st.trace + [c]), st.(trace := st.trace + [c] + [c]);
    ChunkWithout(cfg, q, b, c, Suspend, thenPos);
    ChunkCycle(WithoutSuspends(cfg), st, q, b, c, Nop, thenPos);
    ChunkCycle(cfg, st, q, b, c, Suspend, thenPos);
    Steps(cfg, st);
    Steps(WithoutSuspends(cfg), st);
    Passed(cfg, q, b, CondJump(1, 2, 3, thenPos), st1);
    SessionPlus(cfg, st, 1, 1);
    FlowNode(cfg, q, b + 1, c, st1.(ptr := q + [b + 1]));
    SessionPlus(cfg, st, 2, 1);
    if cfg.oracle(st2.trace).Ret? {
      FlowSuspend(cfg, q, b + 2, st2.(ptr := q + [b + 2]));
      SessionPlus(cfg, st, 3, 1);
      SessionPlus(cfg, st, 3, 2);
    }
  }

  lemma ChunkWithout(cfg: Config, q: Path, b: nat, c: Id, node: Instr, thenPos: nat)
    requires ChunkAt(cfg, q, b, c, node, thenPos)
    ensures ChunkAt(WithoutSuspends(cfg), q, b, c, Resumable(node), thenPos)
  {
    LeafWithout(cfg, q + [b], CondJump(1, 2, 3, thenPos));
    LeafWithout(cfg, q + [b + 1], Act(c));
    LeafWithout(cfg, q + [b + 2], node);
  }

  // ----- ELSE -----

  ghost predicate ElseAt(cfg: Config, q: Path, b: nat, node: Instr) {
    LeafAt(cfg, q + [b], ElseDo(1, 2)) && LeafAt(cfg, q + [b + 1], node) && LeafAt(cfg, q + [b + 2], Nop)
  }

  lemma ElseCycle(cfg: Config, st: State, q: Path, b: nat, node: Instr)
    requires ElseAt(cfg, q, b, node) && (node.Act? || node.Nop? || node.Suspend?)
    requires st.ptr == q + [b] && Active(st) && cfg.nest >= 1 && |st.stack| < cfg.ovf
    ensures var st1 := if node.Act? then st.(trace := st.trace + [node.id]) else st;
            var done := if node.Act? then cfg.oracle(st1.trace) else if node.Nop? then OK else Throw(Suspended);
            Cycle(cfg, st) == if done.Throw? then Settled(cfg, done, st1) else st1.(ptr := q + [b + 2])
  {
    hide CallSub, Locate, Descend, Cycle;
    assert OffsetCopy(q + [b], 1) == q + [b + 1] && OffsetCopy(q + [b], 2) == q + [b + 2];
    CallLeaf(cfg, cfg.nest, q + [b + 1], node, st);
    LeafCycle(cfg, st, q + [b], ElseDo(1, 2));
  }

  /** ELSE(SUSPEND) halts twice, once on the ELSE and once on the SUSPEND, and is as good as ELSE(NOP). */
  lemma SuspendInElse(cfg: Config, st: State, q: Path, b: nat)
    requires ElseAt(cfg, q, b, Suspend)
    requires st.ptr == q + [b] && Active(st) && cfg.nest >= 1 && |st.stack| < cfg.ovf
    ensures Session(cfg, st, 4) == Run(WithoutSuspends(cfg), st, 1) == st.(ptr := q + [b + 2])
  {
    hide Cycle, Session, Run, Locate, Relabel;
    var cfg' := WithoutSuspends(cfg);
    ElseWithout(cfg, q, b, Suspend);
    ElseCycle(cfg', st, q, b, Nop);
    ElseCycle(cfg, st, q, b, Suspend);
    Steps(cfg, st);
    Steps(cfg', st);
    Passed(cfg, q, b, ElseDo(1, 2), st);
    SessionPlus(cfg, st, 1, 1);
    FlowSuspend(cfg, q, b + 1, st.(ptr := q + [b + 1]));
    SessionPlus(cfg, st, 2, 2);
  }

  lemma ElseWithout(cfg: Config, q: Path, b: nat, node: Instr)
    requires ElseAt(cfg, q, b, node)
    ensures ElseAt(WithoutSuspends(cfg), q, b, Resumable(node))
  {
    LeafWithout(cfg, q + [b], ElseDo(1, 2));
    LeafWithout(cfg, q + [b + 1], node);
    LeafWithout(cfg, q + [b + 2], Nop);
  }

  // ----- a workflow of one clause -----

  predicate AtEnd(st: State) {
    st.status.Done? || st.status.Panicked?
  }

  /** Running, resuming and so on ends in a state if and only if one run without SUSPENDs ends in it. */
  ghost predicate Transparent(cfg: Config) {
    forall fin: State | AtEnd(fin) ::
      (exists m :: Session(cfg, INITIAL, m) == fin) <==> (exists n :: Run(WithoutSuspends(cfg), INITIAL, n) == fin)
  }

  /** A workflow of one clause of nodes. */
  ghost predicate OneClause(cfg: Config, s: Src) {
    && IsClause(s) && SoundClause(s) && cfg.graph == Box([Box(Slots(s))])
    && (forall j | 0 <= j < Exit(s) && PartIn(s, j).Some? :: Callable(PartIn(s, j).value))
    && cfg.nest >= 1 && cfg.ovf >= 1
  }

  ghost predicate OneIf(cfg: Config, s: Src) {
    OneClause(cfg, s) && s.Choose?
  }

  /** The machine about to execute slot `j` of the clause. */
  ghost predicate AtSlot(st: State, j: nat) {
    Active(st) && st.ptr == [0, j] && st.stack == []
  }

  lemma SlotLeaf(cfg: Config, s: Src, j: nat)
    requires OneClause(cfg, s) && j <= Exit(s)
    ensures Locate(cfg.graph, [0] + [j]) == Hit(SlotTree(s, j)) && [0] + [j] == [0, j]
  {
    hide SlotTree;
    var kids := Slots(s);
    assert Locate(cfg.graph, [0]) == Hit(Box(kids)) by {
      assert cfg.graph.kids[0] == Box(kids) && [0][1..] == [];
    }
    LocateChild(cfg.graph, [0], j);
  }

  /** Every slot is a single node, and the last one a NOP. */
  lemma SlotsLeaf(cfg: Config, s: Src, j: nat)
    requires OneClause(cfg, s) && j <= Exit(s)
    ensures Locate(cfg.graph, [0] + [j]).Hit? && Locate(cfg.graph, [0] + [j]).tree.Leaf?
    ensures j == Exit(s) ==> LeafAt(cfg, [0] + [j], Nop)
  {
    SlotLeaf(cfg, s, j);
    if j < Exit(s) && PartIn(s, j).Some? {
      assert Callable(PartIn(s, j).value);
    }
  }

  lemma ChunkHere(cfg: Config, s: Src, k: nat)
    requires OneIf(cfg, s) && k < |s.arms|
    ensures Callable(s.arms[k].body)
    ensures ChunkAt(cfg, [0], 3 * k, s.arms[k].cond, NodeOf(s.arms[k].body, NoLoop), Exit(s))
    ensures var node := NodeOf(s.arms[k].body, NoLoop);
            && (node.Act? || node.Nop? || node.Suspend?) && (node.Suspend? <==> s.arms[k].body.Pause?)
  {
    ChooseSlots(s, k);
    SlotLeaf(cfg, s, 3 * k);
    SlotLeaf(cfg, s, 3 * k + 1);
    SlotLeaf(cfg, s, 3 * k + 2);
    hide SlotTree, Slots;
  }

  lemma ElseHere(cfg: Config, s: Src)
    requires OneIf(cfg, s) && s.els.Some?
    ensures Callable(s.els.value)
    ensures ElseAt(cfg, [0], 3 * |s.arms|, NodeOf(s.els.value, NoLoop)) && Exit(s) == 3 * |s.arms| + 2
    ensures var node := NodeOf(s.els.value, NoLoop);
            && (node.Act? || node.Nop? || node.Suspend?) && (node.Suspend? <==> s.els.value.Pause?)
  {
    ChooseSlots(s, |s.arms|);
    SlotLeaf(cfg, s, 3 * |s.arms|);
    SlotLeaf(cfg, s, 3 * |s.arms| + 1);
    SlotLeaf(cfg, s, 3 * |s.arms| + 2);
  }

  /** The closing NOP ends the workflow. */
  lemma ClosingTurn(cfg: Config, s: Src, st: State)
    requires OneClause(cfg, s) && AtSlot(st, Exit(s))
    ensures Session(cfg, st, 1) == Run(WithoutSuspends(cfg), st, 1) == st.(ptr := [], status := Done)
  {
    hide Session, Run, Relabel, Slots, SoundClause;
    var e := Exit(s);
    var cfg' := WithoutSuspends(cfg);
    SlotsLeaf(cfg, s, e);
    LeafWithout(cfg, [0] + [e], Nop);
    LeafCycle(cfg, st, [0] + [e], Nop);
    LeafCycle(cfg', st, [0] + [e], Nop);
    Steps(cfg, st);
    Steps(cfg', st);
    NoneAfter(cfg, s, e);
    RelabelAdvance(Resumable, cfg.graph, [0, e]);
  }

  lemma NoneAfter(cfg: Config, s: Src, e: nat)
    requires OneClause(cfg, s) && e == Exit(s)
    ensures AdvanceResult(cfg.graph, [0, e]) == Ended && AdvancePointer(cfg.graph, [0, e]) == []
  {
    hide SlotTree;
    SlotLeaf(cfg, s, e);
    SlotsLeaf(cfg, s, e);
    assert Locate(cfg.graph, [0]) == Hit(Box(Slots(s))) by {
      assert cfg.graph.kids[0] == Box(Slots(s)) && [0][1..] == [];
    }
    NextInBox(cfg.graph, [0], e);
    assert Parent([0]) == [] && Next(cfg.graph, []) == [];
    assert Next(cfg.graph, [0]) == [];
  }

  /** The session, after `m` turns, and the run without SUSPENDs, after `n`, are in the same state. */
  ghost predicate Meets(cfg: Config, st: State, m: nat, n: nat, st': State) {
    Session(cfg, st, m) == st' == Run(WithoutSuspends(cfg), st, n)
  }

  lemma MeetsPlus(cfg: Config, st: State, m: nat, n: nat, mid: State, m2: nat, n2: nat, st': State)
    requires Meets(cfg, st, m, n, mid) && Meets(cfg, mid, m2, n2, st')
    ensures Meets(cfg, st, m + m2, n + n2, st')
  {
    SessionPlus(cfg, st, m, m2);
    RunPlus(WithoutSuspends(cfg), st, n, n2);
  }

  /** A head without SUSPEND to call makes the same turn in both. */
  lemma ArmMeets(cfg: Config, s: Src, k: nat, st: State) returns (st': State)
    requires OneIf(cfg, s) && NeverSuspends(cfg) && k < |s.arms| && AtSlot(st, 3 * k)
    requires !s.arms[k].body.Pause? || cfg.oracle(st.trace + [s.arms[k].cond]) == Ret(false)
    ensures Meets(cfg, st, 1, 1, st')
    ensures AtEnd(st') || AtSlot(st', 3 * (k + 1)) || AtSlot(st', Exit(s))
    ensures cfg.oracle(st.trace + [s.arms[k].cond]) == Ret(false) ==>
              AtSlot(st', 3 * (k + 1)) && st'.trace == st.trace + [s.arms[k].cond]
  {
    hide Cycle, Session, Run, Relabel, Slots, SoundClause, Exit, OneClause;
    Roomy(cfg, s);
    ChunkHere(cfg, s, k);
    var Arm(c, body) := s.arms[k];
    var node := NodeOf(body, NoLoop);
    var cfg' := WithoutSuspends(cfg);
    assert [0] + [3 * k] == [0, 3 * k] && [0] + [3 * k + 3] == [0, 3 * k + 3] && [0] + [Exit(s)] == [0, Exit(s)];
    ChunkWithout(cfg, [0], 3 * k, c, node, Exit(s));
    ChunkCycle(cfg, st, [0], 3 * k, c, node, Exit(s));
    ChunkCycle(cfg', st, [0], 3 * k, c, Resumable(node), Exit(s));
    Steps(cfg, st);
    Steps(cfg', st);
    st' := Cycle(cfg, st);
    assert cfg.oracle(st.trace + [c]) != Throw(Suspended);
    if node.Act? {
      assert cfg.oracle(st.trace + [c] + [node.id]) != Throw(Suspended);
    }
  }

  lemma Roomy(cfg: Config, s: Src)
    requires OneIf(cfg, s)
    ensures cfg.nest >= 1 && cfg.ovf >= 1 && s.Choose? && SoundClause(s)
  {
    hide Slots, SoundClause;
  }

  lemma ElseMeets(cfg: Config, s: Src, st: State) returns (m: nat, st': State)
    requires OneIf(cfg, s) && NeverSuspends(cfg) && s.els.Some? && AtSlot(st, 3 * |s.arms|)
    ensures Meets(cfg, st, m, 1, st') && (AtEnd(st') || AtSlot(st', Exit(s)))
  {
    hide Cycle, Session, Run, Relabel, Slots, SoundClause, OneClause;
    Roomy(cfg, s);
    ElseHere(cfg, s);
    var b := 3 * |s.arms|;
    var node := NodeOf(s.els.value, NoLoop);
    assert [0] + [b] == [0, b] && [0] + [b + 2] == [0, b + 2];
    if node.Suspend? {
      SuspendInElse(cfg, st, [0], b);
      m, st' := 4, st.(ptr := [0] + [b + 2]);
    } else {
      var cfg' := WithoutSuspends(cfg);
      ElseWithout(cfg, [0], b, node);
      ElseCycle(cfg, st, [0], b, node);
      ElseCycle(cfg', st, [0], b, node);
      Steps(cfg, st);
      Steps(cfg', st);
      m, st' := 1, Cycle(cfg, st);
      if node.Act? {
        assert cfg.oracle(st.trace + [node.id]) != Throw(Suspended);
      }
    }
  }

  // ----- a workflow of one IF -----

  /** From any head to the end, if no branch from there on is a SUSPEND. */
  lemma {:induction false} ArmsMeet(cfg: Config, s: Src, k: nat, st: State) returns (m: nat, n: nat, fin: State)
    requires OneIf(cfg, s) && NeverSuspends(cfg) && k <= |s.arms| && AtSlot(st, 3 * k)
    requires forall i | k <= i < |s.arms| :: !s.arms[i].body.Pause?
    ensures Meets(cfg, st, m, n, fin) && AtEnd(fin)
    decreases |s.arms| - k
  {
    hide Session, Run, Relabel, Slots, SoundClause, OneClause, Meets;
    Roomy(cfg, s);
    var mid := st;
    m, n := 0, 0;
    if k < |s.arms| {
      mid := ArmMeets(cfg, s, k, st);
      m, n := 1, 1;
    } else if s.els.Some? {
      m, mid := ElseMeets(cfg, s, st);
      n := 1;
    } else {
      MeetsNow(cfg, st);
    }
    fin := mid;
    if AtSlot(mid, Exit(s)) {
      fin := mid.(ptr := [], status := Done);
      ClosingTurn(cfg, s, mid);
      MeetsBy(cfg, mid, 1, 1, fin);
      MeetsPlus(cfg, st, m, n, mid, 1, 1, fin);
      m, n := m + 1, n + 1;
    } else if !AtEnd(mid) {
      var m2, n2;
      m2, n2, fin := ArmsMeet(cfg, s, k + 1, mid);
      MeetsPlus(cfg, st, m, n, mid, m2, n2, fin);
      m, n := m + m2, n + n2;
    }
  }

  lemma MeetsNow(cfg: Config, st: State)
    ensures Meets(cfg, st, 0, 0, st)
  {
  }

  lemma MeetsBy(cfg: Config, st: State, m: nat, n: nat, st': State)
    requires Session(cfg, st, m) == Run(WithoutSuspends(cfg), st, n) == st'
    ensures Meets(cfg, st, m, n, st')
  {
  }

  // ----- from the start of the workflow -----

  const START := INITIAL.(ptr := [0, 0])

  lemma FirstSlot(cfg: Config, s: Src)
    requires OneClause(cfg, s)
    ensures Descend(cfg.graph, [0]) == [0, 0]
  {
    hide SlotTree;
    var kids := Slots(s);
    assert Locate(cfg.graph, [0]) == Hit(Box(kids)) by {
      assert cfg.graph.kids[0] == Box(kids) && [0][1..] == [];
    }
    SlotsLeaf(cfg, s, 0);
    LocateChild(cfg.graph, [0], 0);
    assert FirstStop(kids[0]) == [] && FirstStop(Box(kids)) == [0] + [];
    assert [0] + ([0] + []) == [0, 0];
  }

  /** A workflow starts on its first node. */
  lemma FromFirst(cfg: Config, s: Src, m: nat)
    requires OneClause(cfg, s) && m > 0
    ensures Session(cfg, INITIAL, m) == Session(cfg, START, m)
    ensures Run(WithoutSuspends(cfg), INITIAL, m) == Run(WithoutSuspends(cfg), START, m)
    ensures AtSlot(START, 0)
  {
    hide SlotTree;
    var cfg' := WithoutSuspends(cfg);
    SlotsLeaf(cfg, s, 0);
    FirstSlot(cfg, s);
    RelabelDescend(Resumable, cfg.graph, [0]);
    CycleLand(cfg, INITIAL);
    CycleLand(cfg', INITIAL);
  }

  /** What has ended stays ended: a session or a run ends in one state only. */
  lemma EndsOnce(cfg: Config, st: State, m: nat, m': nat)
    requires AtEnd(Session(cfg, st, m)) && AtEnd(Session(cfg, st, m'))
    ensures Session(cfg, st, m) == Session(cfg, st, m')
  {
    if m <= m' {
      SessionPlus(cfg, st, m, m' - m);
      SessionStopped(cfg, Session(cfg, st, m), m' - m);
    } else {
      SessionPlus(cfg, st, m', m - m');
      SessionStopped(cfg, Session(cfg, st, m'), m - m');
    }
  }

  lemma RunEndsOnce(cfg: Config, st: State, n: nat, n': nat)
    requires AtEnd(Run(cfg, st, n)) && AtEnd(Run(cfg, st, n'))
    ensures Run(cfg, st, n) == Run(cfg, st, n')
  {
    if n <= n' {
      RunPlus(cfg, st, n, n' - n);
      RunStopped(cfg, Run(cfg, st, n), n' - n);
    } else {
      RunPlus(cfg, st, n', n - n');
      RunStopped(cfg, Run(cfg, st, n'), n - n');
    }
  }

  lemma NoPauseTransparent(cfg: Config, s: Src)
    requires OneIf(cfg, s) && NeverSuspends(cfg) && forall k | 0 <= k < |s.arms| :: !s.arms[k].body.Pause?
    ensures Transparent(cfg)
  {
    hide Session, Run, Relabel, Slots, SoundClause, OneClause, Meets;
    FromFirst(cfg, s, 1);
    var m, n, fin := ArmsMeet(cfg, s, 0, START);
    EndTogether(cfg, s, m, n, fin);
  }

  /** A session and a run that meet at their end have no other. */
  lemma EndTogether(cfg: Config, s: Src, m: nat, n: nat, fin: State)
    requires OneClause(cfg, s) && Meets(cfg, START, m, n, fin) && AtEnd(fin)
    ensures Transparent(cfg)
  {
    hide Session, Run, Relabel, Slots, SoundClause, OneClause;
    NotYetEnded(cfg, m, n);
    FromFirst(cfg, s, m);
    FromFirst(cfg, s, n);
    forall f: State | AtEnd(f)
      ensures (exists m' :: Session(cfg, INITIAL, m') == f)
         <==> (exists n' :: Run(WithoutSuspends(cfg), INITIAL, n') == f)
    {
      if m' :| Session(cfg, INITIAL, m') == f {
        EndsOnce(cfg, INITIAL, m, m');
        assert Run(WithoutSuspends(cfg), INITIAL, n) == f;
      }
      if n' :| Run(WithoutSuspends(cfg), INITIAL, n') == f {
        RunEndsOnce(WithoutSuspends(cfg), INITIAL, n, n');
        assert Session(cfg, INITIAL, m) == f;
      }
    }
  }

  lemma NotYetEnded(cfg: Config, m: nat, n: nat)
    requires AtEnd(Session(cfg, START, m)) && AtEnd(Run(WithoutSuspends(cfg), START, n))
    ensures m > 0 && n > 0
  {
  }

  // ----- where it fails -----

  /** Conditions before the k-th refused, the k-th granted, and the node executed after it raises. */
  function Telling(k: nat): Oracle {
    h => if |h| == k + 2 then Throw(UserError(0)) else Ret(|h| == k + 1)
  }

  lemma {:induction false} ReachArm(cfg: Config, s: Src, j: nat, k: nat, st: State) returns (n: nat, st': State)
    requires OneIf(cfg, s) && j <= k < |s.arms| && AtSlot(st, 3 * j) && |st.trace| == j && cfg.oracle == Telling(k)
    ensures Meets(cfg, st, n, n, st') && AtSlot(st', 3 * k) && |st'.trace| == k
    decreases k - j
  {
    hide Session, Run, Relabel, Slots, SoundClause, OneClause, Meets;
    Roomy(cfg, s);
    n, st' := 0, st;
    if j == k {
      MeetsNow(cfg, st);
    } else {
      var mid := ArmMeets(cfg, s, j, st);
      n, st' := ReachArm(cfg, s, j + 1, k, mid);
      MeetsPlus(cfg, st, 1, 1, mid, n, n, st');
      n := 1 + n;
    }
  }

  lemma PauseTells(cfg: Config, s: Src, k: nat)
    requires OneIf(cfg, s) && k < |s.arms| && s.arms[k].body.Pause? && cfg.oracle == Telling(k)
    ensures !Transparent(cfg)
  {
    hide Session, Run, Relabel, Slots, SoundClause, OneClause, Cycle, Meets;
    Roomy(cfg, s);
    var cfg' := WithoutSuspends(cfg);
    var c := s.arms[k].cond;
    assert [0] + [3 * k] == [0, 3 * k] && [0] + [Exit(s)] == [0, Exit(s)];
    FromFirst(cfg, s, 1);
    var n, st := ReachArm(cfg, s, 0, k, START);
    MeetsMeans(cfg, START, n, n, st);
    ChunkHere(cfg, s, k);
    ArmEnds(s, k);
    SlotsLeaf(cfg, s, 3 * k + 3);
    SuspendInBranch(cfg, st, [0], 3 * k, c, Exit(s));
    SessionPlus(cfg, START, n, 3);
    var st1 := st.(trace := st.trace + [c], ptr := [0, Exit(s)]);
    ClosingTurn(cfg, s, st1);
    RunPlus(cfg', START, n, 1);
    RunPlus(cfg', START, n + 1, 1);
    FromFirst(cfg, s, n + 2);
    FromFirst(cfg, s, n + 3);
    var fin := st1.(ptr := [], status := Done);
    assert AtEnd(fin) && Run(WithoutSuspends(cfg), INITIAL, n + 2) == fin;
    if Transparent(cfg) {
      var m :| Session(cfg, INITIAL, m) == fin;
      EndsOnce(cfg, INITIAL, m, n + 3);
      assert false;
    }
  }

  lemma MeetsMeans(cfg: Config, st: State, m: nat, n: nat, st': State)
    requires Meets(cfg, st, m, n, st')
    ensures Session(cfg, st, m) == st' == Run(WithoutSuspends(cfg), st, n)
  {
  }

  lemma ArmEnds(s: Src, k: nat)
    requires s.Choose? && k < |s.arms|
    ensures 3 * k + 3 <= Exit(s)
  {
  }

  /**
   A workflow of one IF is transparent to suspension, whatever its nodes answer,
   if and only if no branch with a condition is a SUSPEND. ELSE may be one.
   */
  lemma BranchTransparent(cfg: Config, s: Src)
    requires OneIf(cfg, s)
    ensures (forall o: Oracle | NeverSuspends(cfg.(oracle := o)) :: Transparent(cfg.(oracle := o)))
       <==> (forall k | 0 <= k < |s.arms| :: !s.arms[k].body.Pause?)
  {
    hide Transparent, Slots, SoundClause;
    if forall k | 0 <= k < |s.arms| :: !s.arms[k].body.Pause? {
      forall o: Oracle | NeverSuspends(cfg.(oracle := o))
        ensures Transparent(cfg.(oracle := o))
      {
        NoPauseTransparent(cfg.(oracle := o), s);
      }
    } else {
      var k :| 0 <= k < |s.arms| && s.arms[k].body.Pause?;
      assert NeverSuspends(cfg.(oracle := Telling(k)));
      PauseTells(cfg.(oracle := Telling(k)), s, k);
    }
  }
}
