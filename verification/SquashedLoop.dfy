/**
 WHILE with and without the SQUASHED_LOOP switch: squashed, the whole loop runs
 inside one node; otherwise each round is two turns of the main loop.
 */
module SquashedLoop {
  import opened Options
  import opened Addressing
  import opened Machine
  import opened Turns
  import opened Native
  import ClauseRuns
  import PendingJumps
  import RunStates
  import Subcalls

  /** The slots of an extracted WHILE: head, condition, action, check-up, exit. */
  const HEAD := LoopHead(1, 2, 3, 4)

  /** Condition and action are whatever is called at their slots: a node, or a clause entered at its head. */
  ghost predicate Loop(cfg: Config, q: Path) {
    && Locate(cfg.graph, q + [0]) == Hit(Leaf(HEAD))
    && Locate(cfg.graph, q + [3]) == Hit(Leaf(JumpNear(0)))
  }

  /** The machine about to execute the head. */
  ghost predicate AtHead(st: State, q: Path) {
    st.status.Running? && !st.flags.hlt && !st.flags.jmp && st.ptr == q + [0]
  }

  /** One round of the squashed worker: how it ends the loop, or `None` and the machine for the next round. */
  function Round(cfg: Config, st: State): (Option<Step>, State) {
    var (c, st1) := CallSub(cfg, cfg.nest, OffsetCopy(st.ptr, 1), st);
    if c == Throw(BreakLoop) then (Some(JumpNearBy(st1, 4)), st1)
    else if c.Throw? then (Some((c, st1)), st1)
    else if !c.value then (Some(JumpNearBy(st1, 4)), st1)
    else
      var (d, st2) := CallSub(cfg, cfg.nest, OffsetCopy(st1.ptr, 2), st1);
      if d == Throw(BreakLoop) then (Some(JumpNearBy(st2, 4)), st2)
      else if d.Throw? then (Some((d, st2)), st2)
      else if st2.flags.jmp then (Some(JumpNearBy(st2, 4)), st2)
      else (None, st2)
  }

  /** The squashed worker for up to `n` rounds; `None` if it is still going round. */
  function Squashed(cfg: Config, st: State, n: nat): Option<Step>
    decreases n
  {
    if n == 0 then None
    else
      var (end, st2) := Round(cfg, st);
      if end.Some? then end else Squashed(cfg, st2, n - 1)
  }

  /** Called from the main loop, the node at `a` either jumps or leaves the machine on the caller. */
  ghost predicate Orderly(cfg: Config, a: Path) {
    forall st: State | st.status.Running? && !st.flags.hlt && !st.flags.jmp ::
      var st' := CallSub(cfg, cfg.nest, a, st).1;
      st'.status.Running? && !st'.flags.hlt && (st'.flags.jmp || st'.ptr == st.ptr)
  }

  /** No call takes back a jump that is pending when it starts. */
  ghost predicate JumpsStand(cfg: Config, nest: nat) {
    forall a, st: State | st.flags.jmp :: CallSub(cfg, nest, a, st).1.flags.jmp
  }

  /** No IRET, which alone restores saved flags. */
  ghost predicate NoIntReturn(cfg: Config) {
    forall p: Path :: Locate(cfg.graph, p) != Hit(Leaf(IntReturn))
  }

  lemma ExecStands(cfg: Config, nest: nat, i: Instr, st: State)
    requires JumpsStand(cfg, nest) && !i.IntReturn? && st.flags.jmp
    ensures Exec(cfg, nest, i, st).1.flags.jmp
  {
    hide CallSub, FirstCatch, Locate, Slice, OffsetCopy, NearCopy, Descend;
    if i.TryHead? {
      TryStands(cfg, nest, i, st);
    }
  }

  lemma TryStands(cfg: Config, nest: nat, i: Instr, st: State)
    requires JumpsStand(cfg, nest) && i.TryHead? && st.flags.jmp
    ensures Exec(cfg, nest, i, st).1.flags.jmp
  {
    hide CallSub, FirstCatch, Locate, Slice, OffsetCopy, NearCopy, Descend;
  }

  lemma {:induction false} JumpsStandThere(cfg: Config, nest: nat)
    requires NoIntReturn(cfg)
    ensures JumpsStand(cfg, nest)
    decreases nest
  {
    hide Exec, Descend;
    if nest > 0 {
      JumpsStandThere(cfg, nest - 1);
    }
    forall a, st: State | st.flags.jmp
      ensures CallSub(cfg, nest, a, st).1.flags.jmp
    {
      if |st.stack| < cfg.ovf && nest > 0 {
        var st2 := st.(stack := st.stack + [st.ptr], ptr := Descend(cfg.graph, a), outer := true);
        match Locate(cfg.graph, st2.ptr)
        case Hit(Leaf(i)) => ExecStands(cfg, nest - 1, i, st2);
        case _ =>
      }
    }
  }

  ghost predicate NeverBreaks(cfg: Config, a: Path) {
    forall st: State :: CallSub(cfg, cfg.nest, a, st).0 != Throw(BreakLoop)
  }

  /** A round that goes round: the main loop visits the check-up and is back on the head. */
  lemma RoundTurns(cfg: Config, q: Path, st: State, st2: State)
    requires Locate(cfg.graph, q + [0]) == Hit(Leaf(HEAD)) && Locate(cfg.graph, q + [3]) == Hit(Leaf(JumpNear(0)))
    requires AtHead(st, q) && AtHead(st2, q)
    requires Exec(cfg, cfg.nest, HEAD, st) == JumpNearBy(st2, 3)
    ensures Run(cfg, st, 2) == st2
  {
    hide Exec;
    assert Parent(q + [0]) == q && Parent(q + [3]) == q;
    LeafCycle(cfg, st, q + [0], HEAD);
    var mid := st2.(ptr := q + [3]);
    assert Cycle(cfg, st) == mid;
    LeafCycle(cfg, mid, q + [3], JumpNear(0));
    NearExec(cfg, mid);
    assert Cycle(cfg, mid) == st2;
    assert Run(cfg, st2, 0) == st2 && Run(cfg, mid, 1) == Run(cfg, Cycle(cfg, mid), 0);
  }

  lemma NearExec(cfg: Config, st: State)
    ensures Exec(cfg, cfg.nest, JumpNear(0), st) == JumpNearBy(st, 0)
  {
  }

  /** What the head does, call by call. */
  lemma HeadExec(cfg: Config, st: State)
    ensures var (c, st1) := CallSub(cfg, cfg.nest, OffsetCopy(st.ptr, 1), st);
            Exec(cfg, cfg.nest, HEAD, st) ==
            if c.Throw? then (c, st1)
            else if !c.value then JumpNearBy(st1, 4)
            else
              var (d, st2) := CallSub(cfg, cfg.nest, OffsetCopy(st1.ptr, 2), st1);
              if d == Throw(BreakLoop) then JumpNearBy(st2, 4)
              else if d.Throw? then (d, st2)
              else JumpNearBy(st2, 3)
  {
    hide CallSub;
  }

  /** The condition may jump but not raise BREAK, and no call takes back a pending jump. */
  ghost predicate Comparable(cfg: Config, q: Path) {
    && Loop(cfg, q) && JumpsStand(cfg, cfg.nest)
    && Orderly(cfg, q + [1]) && NeverBreaks(cfg, q + [1])
    && Orderly(cfg, q + [2])
  }

  /** A condition that jumps ends both forms: the jump stands, whatever the action called after it does. */
  lemma JumpingCondition(cfg: Config, q: Path, st: State)
    requires Comparable(cfg, q) && AtHead(st, q) && CallSub(cfg, cfg.nest, q + [1], st).1.flags.jmp
    ensures Round(cfg, st).0 == Some(Exec(cfg, cfg.nest, HEAD, st))
  {
    hide Exec, CallSub, Locate;
    assert OffsetCopy(q + [0], 1) == q + [1];
    HeadExec(cfg, st);
  }

  /** A round that ends the loop is one turn; any other is two, and leads back to the head. */
  lemma OneRound(cfg: Config, q: Path, st: State)
    requires Comparable(cfg, q) && AtHead(st, q)
    ensures var (end, st2) := Round(cfg, st);
            match end
            case Some((out, st')) => Run(cfg, st, 1) == Settled(cfg, out, st')
            case None => AtHead(st2, q) && Run(cfg, st, 2) == st2
  {
    hide Exec, CallSub, Cycle, Locate;
    assert OffsetCopy(q + [0], 1) == q + [1] && OffsetCopy(q + [0], 2) == q + [2];
    HeadExec(cfg, st);
    LeafCycle(cfg, st, q + [0], HEAD);
    assert Run(cfg, Cycle(cfg, st), 0) == Cycle(cfg, st);
    var (end, st2) := Round(cfg, st);
    var (c, st1) := CallSub(cfg, cfg.nest, q + [1], st);
    if st1.flags.jmp {
      JumpingCondition(cfg, q, st);
    } else if end.None? {
      assert AtHead(st1, q);
      assert AtHead(st2, q);
      RoundTurns(cfg, q, st, st2);
    }
  }

  /**
   The two forms agree, round by round. If the squashed worker ends within `n`
   rounds, the main loop reaches exactly the state it leaves; if it does not,
   the main loop is back on the head after each of the `n` rounds.
   */
  lemma {:induction false} SquashEquivalent(cfg: Config, q: Path, st: State, n: nat)
    returns (k: nat)
    requires Comparable(cfg, q) && AtHead(st, q)
    ensures match Squashed(cfg, st, n)
            case Some((out, st')) => Run(cfg, st, k) == Settled(cfg, out, st')
            case None => k == 2 * n && AtHead(Run(cfg, st, k), q)
    decreases n
  {
    hide Cycle, Round, Comparable;
    k := 0;
    if n > 0 {
      OneRound(cfg, q, st);
      var (end, st2) := Round(cfg, st);
      k := 1;
      if end.None? {
        k := SquashEquivalent(cfg, q, st2, n - 1);
        RunPlus(cfg, st, 2, k);
        k := 2 + k;
      }
    }
  }

  /** A condition that raises BREAK tells the two forms apart: squashed it ends the loop, otherwise it is a panic. */
  lemma BreakingCondition(cfg: Config, q: Path, st: State)
    requires Loop(cfg, q) && AtHead(st, q) && Orderly(cfg, q + [1])
    requires CallSub(cfg, cfg.nest, q + [1], st).0 == Throw(BreakLoop)
    ensures Cycle(cfg, st).status == Panicked(BreakLoop)
    ensures Squashed(cfg, st, 1).Some?
    ensures var (out, fin) := Squashed(cfg, st, 1).value;
            var st1 := CallSub(cfg, cfg.nest, q + [1], st).1;
            && Settled(cfg, out, fin).status.Running?
            && Settled(cfg, out, fin).ptr == if st1.flags.jmp then st1.ptr else q + [4]
  {
    hide Exec, CallSub, Locate;
    assert OffsetCopy(q + [0], 1) == q + [1] && Parent(q + [0]) == q;
    HeadExec(cfg, st);
    LeafCycle(cfg, st, q + [0], HEAD);
  }

  /** User nodes meet what the equivalence asks, the condition unless it raises BREAK itself. */
  lemma UserNodes(cfg: Config, a: Path, id: Id)
    requires Locate(cfg.graph, a) == Hit(Leaf(Act(id)))
    ensures Orderly(cfg, a)
    ensures cfg.ovf > 0 && cfg.nest > 0 ==>
              (NeverBreaks(cfg, a) <==> forall h: seq<Id> :: cfg.oracle(h + [id]) != Throw(BreakLoop))
  {
    assert a + [] == a;
    forall st: State
      ensures |st.stack| < cfg.ovf && cfg.nest > 0 ==>
                CallSub(cfg, cfg.nest, a, st).0 == cfg.oracle(st.trace + [id])
      ensures st.status.Running? && !st.flags.hlt && !st.flags.jmp ==>
                var st' := CallSub(cfg, cfg.nest, a, st).1;
                st'.status.Running? && !st'.flags.hlt && !st'.flags.jmp && st'.ptr == st.ptr
      ensures |st.stack| >= cfg.ovf || cfg.nest == 0 ==> CallSub(cfg, cfg.nest, a, st).0 != Throw(BreakLoop)
    {
      UserCall(cfg, a, id, st);
    }
    if cfg.ovf > 0 && cfg.nest > 0 && NeverBreaks(cfg, a) {
      forall h: seq<Id>
        ensures cfg.oracle(h + [id]) != Throw(BreakLoop)
      {
        var st := INITIAL.(trace := h);
        assert CallSub(cfg, cfg.nest, a, st).0 == cfg.oracle(st.trace + [id]);
      }
    }
  }

  lemma UserCall(cfg: Config, a: Path, id: Id, st: State)
    requires Locate(cfg.graph, a) == Hit(Leaf(Act(id)))
    ensures var (out, st') := CallSub(cfg, cfg.nest, a, st);
            && (|st.stack| < cfg.ovf && cfg.nest > 0 ==> out == cfg.oracle(st.trace + [id]))
            && (|st.stack| >= cfg.ovf || cfg.nest == 0 ==> out != Throw(BreakLoop))
            && st'.status == st.status && st'.flags.jmp == st.flags.jmp
            && (!st.flags.hlt ==> !st'.flags.hlt)
            && (!st.flags.jmp ==> st'.ptr == st.ptr)
  {
    assert a + [] == a;
    if |st.stack| < cfg.ovf {
      var st2 := st.(stack := st.stack + [st.ptr], ptr := a, outer := true);
      assert Top(st2.stack) == st.ptr && Front(st2.stack) == st.stack;
      if cfg.nest > 0 {
        assert Descend(cfg.graph, a) == a;
        assert ExecNode(cfg, cfg.nest - 1, st2) == Exec(cfg, cfg.nest - 1, Act(id), st2);
      }
    }
  }

  // ----- clauses as condition or action -----

  /** No call halts the machine or leaves HLT set. */
  ghost predicate CallsAwake(cfg: Config, nest: nat) {
    forall a, st: State | st.status.Running? && !st.flags.hlt ::
      var st' := CallSub(cfg, nest, a, st).1;
      st'.status.Running? && !st'.flags.hlt
  }

  lemma ExecAwake(cfg: Config, nest: nat, i: Instr, st: State)
    requires CallsAwake(cfg, nest) && !i.IntReturn? && st.status.Running? && !st.flags.hlt
    ensures var st' := Exec(cfg, nest, i, st).1; st'.status.Running? && !st'.flags.hlt
  {
    hide CallSub, FirstCatch, Locate, Slice, OffsetCopy, NearCopy, Descend;
    if i.TryHead? {
      TryAwake(cfg, nest, i, st);
    }
  }

  lemma TryAwake(cfg: Config, nest: nat, i: Instr, st: State)
    requires CallsAwake(cfg, nest) && i.TryHead? && st.status.Running? && !st.flags.hlt
    ensures var st' := Exec(cfg, nest, i, st).1; st'.status.Running? && !st'.flags.hlt
  {
    hide CallSub, FirstCatch, Locate, Slice, OffsetCopy, NearCopy, Descend;
  }

  lemma {:induction false} CallsAwakeThere(cfg: Config, nest: nat)
    requires NoIntReturn(cfg)
    ensures CallsAwake(cfg, nest)
    decreases nest
  {
    hide Exec, Descend;
    if nest > 0 {
      CallsAwakeThere(cfg, nest - 1);
    }
    forall a, st: State | st.status.Running? && !st.flags.hlt
      ensures CallSub(cfg, nest, a, st).1.status.Running? && !CallSub(cfg, nest, a, st).1.flags.hlt
    {
      if |st.stack| < cfg.ovf && nest > 0 {
        var st2 := st.(stack := st.stack + [st.ptr], ptr := Descend(cfg.graph, a), outer := true);
        match Locate(cfg.graph, st2.ptr)
        case Hit(Leaf(i)) => ExecAwake(cfg, nest - 1, i, st2);
        case _ =>
      }
    }
  }

  /**
   Whatever stands at `a`, a clause with its parts included, is orderly if its
   call executes neutral nodes only, from wherever it is made.
   */
  lemma NeutralOrderly(cfg: Config, a: Path)
    requires NoIntReturn(cfg) && forall st: State :: Subcalls.NeutralCall(cfg, cfg.nest, a, st)
    ensures Orderly(cfg, a)
  {
    hide CallSub, Subcalls.NeutralCall, NoIntReturn;
    CallsAwakeThere(cfg, cfg.nest);
    forall st: State | st.status.Running? && !st.flags.hlt && !st.flags.jmp
      ensures var st' := CallSub(cfg, cfg.nest, a, st).1;
              st'.status.Running? && !st'.flags.hlt && (st'.flags.jmp || st'.ptr == st.ptr)
    {
      assert Subcalls.NeutralCall(cfg, cfg.nest, a, st);
      Subcalls.CallBalances(cfg, cfg.nest, a, st);
    }
  }

  /** In a graph of neutral nodes every address meets what the equivalence asks of condition and action. */
  lemma NeutralGraph(cfg: Config)
    requires PendingJumps.AllNeutral(cfg)
    ensures JumpsStand(cfg, cfg.nest) && forall a :: Orderly(cfg, a)
  {
    hide CallSub, Subcalls.NeutralCall, Orderly, JumpsStand;
    assert NoIntReturn(cfg);
    JumpsStandThere(cfg, cfg.nest);
    forall a
      ensures Orderly(cfg, a)
    {
      forall st: State
        ensures Subcalls.NeutralCall(cfg, cfg.nest, a, st)
      {
        PendingJumps.AllNeutralCall(cfg, cfg.nest, a, st);
      }
      NeutralOrderly(cfg, a);
    }
  }

  /** Such is the graph of a composition of nodes and of IF, WHILE and Try clauses, nested in any way. */
  lemma ClauseGraph(p: Program, cfg: Config)
    requires cfg.graph == Graph(p) && forall s | s in p.main :: SoundPart(s)
    ensures PendingJumps.AllNeutral(cfg)
  {
    hide Item, SoundPart;
    forall k | k in cfg.graph.kids
      ensures ClauseRuns.TameTree(k)
    {
      var i :| 0 <= i < |p.main| && k == Item(p.main[i], NoLoop);
      ClauseRuns.PartTame(p.main[i]);
    }
    forall a: Path, i: Instr | Locate(cfg.graph, a) == Hit(Leaf(i))
      ensures Subcalls.Neutral(i)
    {
      ClauseRuns.TameBelow(cfg.graph, a);
      ClauseRuns.TameLeaf(i);
    }
  }

  /** There, a WHILE whatever its action is meets the conditions if and only if its condition never raises BREAK. */
  lemma WhileComparable(p: Program, cfg: Config, i: nat)
    requires cfg.graph == Graph(p) && (forall s | s in p.main :: SoundPart(s))
    requires i < |p.main| && p.main[i].Repeat? && cfg.ovf > 0 && cfg.nest > 0
    ensures Comparable(cfg, [i]) <==> forall h: seq<Id> :: cfg.oracle(h + [p.main[i].cond]) != Throw(BreakLoop)
  {
    hide NeverBreaks, Orderly, JumpsStand, PendingJumps.AllNeutral;
    ClauseGraph(p, cfg);
    NeutralGraph(cfg);
    WhileSlots(p, cfg, i);
    UserNodes(cfg, [i] + [1], p.main[i].cond);
  }

  lemma WhileSlots(p: Program, cfg: Config, i: nat)
    requires cfg.graph == Graph(p) && i < |p.main| && p.main[i].Repeat?
    ensures Loop(cfg, [i]) && Locate(cfg.graph, [i] + [1]) == Hit(Leaf(Act(p.main[i].cond)))
  {
    var s := p.main[i];
    RunStates.Child(cfg.graph, [], cfg.graph.kids, i);
    assert [] + [i] == [i] && cfg.graph.kids[i] == Item(s, NoLoop) == Box(Slots(s));
    ClauseRuns.KidAt(cfg.graph, s, [i], Slots(s), 0);
    ClauseRuns.KidAt(cfg.graph, s, [i], Slots(s), 1);
    ClauseRuns.KidAt(cfg.graph, s, [i], Slots(s), 3);
  }
}
