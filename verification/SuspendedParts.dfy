/**
 SUSPEND as the action of a WHILE or as a part of a Try: exactly when a workflow
 of one such clause may be suspended in without its outcome telling.
 */
module SuspendedParts {
  import opened Options
  import opened Addressing
  import opened Machine
  import opened Native
  import opened Relabelling
  import opened Turns
  import opened ClauseRuns
  import opened Suspends
  import opened SuspendedBranches
  import opened ProgramSuspends
  import PlainGraphs
  import TrySlots

  const GROUND := Level(0, 0, false)

  // ----- the head of the clause -----

  /** Calling nodes leaves a jump pending only when the head has made it. */
  lemma NodesLand(cfg: Config, nest: nat, s: Src, at: Level, tr: seq<Id>)
    requires IsClause(s) && SoundClause(s) && !s.Choose?
    requires forall j | 0 <= j < Exit(s) && PartIn(s, j).Some? :: Callable(PartIn(s, j).value)
    ensures var r := CallHead(cfg, nest, s, at, tr);
            && (r.exn.Some? ==> r.land.None?)
            && (r.exn.None? ==> r.land.Some? && |r.land.value| == 1)
  {
    if s.Repeat? {
      assert PartIn(s, 2) == Some(s.body);
    } else {
      assert PartIn(s, 1) == Some(s.body) && (s.fin.Some? ==> PartIn(s, FinSlot(s)) == s.fin);
      TryHeadMeans(cfg, nest, s, at, tr);
      NodeSlots(cfg, nest, s, at);
      hide Second, CallHead, CallSlot, SoundClause;
    }
  }

  lemma NodeSlots(cfg: Config, nest: nat, s: Src, at: Level)
    requires s.Attempt? && forall j | 0 <= j < Exit(s) && PartIn(s, j).Some? :: Callable(PartIn(s, j).value)
    ensures forall j, tr | PartIn(s, j).Some? :: CallSlot(cfg, nest, s, j, None, at, tr).land.None?
  {
  }

  /** The turn of the head, exactly. */
  lemma HeadCycle(cfg: Config, s: Src, st: State)
    requires OneClause(cfg, s) && !s.Choose? && AtSlot(st, 0)
    ensures var r := CallHead(cfg, cfg.nest, s, GROUND, st.trace);
            if r.exn.Some? then Cycle(cfg, st) == Settled(cfg, Throw(r.exn.value), st.(trace := r.trace))
            else r.land.Some? && |r.land.value| == 1
                 && Cycle(cfg, st) == st.(trace := r.trace, ptr := [0] + r.land.value)
  {
    hide Slots, SlotTree, CallHead, Exec, Cycle, SoundClause, HeadIn;
    var kids := Slots(s);
    Container(cfg, s);
    SlotLeaf(cfg, s, 0);
    HeadSlot(s);
    HeadComes(cfg, cfg.nest, s, [0], kids, st, GROUND);
    NodesLand(cfg, cfg.nest, s, GROUND, st.trace);
    LeafCycle(cfg, st, [0] + [0], HeadIn(s, 0));
    var (out, st') := Exec(cfg, cfg.nest, HeadIn(s, 0), st);
    HeadSettles(cfg, CallHead(cfg, cfg.nest, s, GROUND, st.trace), st, out, st');
  }

  lemma Container(cfg: Config, s: Src)
    requires OneClause(cfg, s)
    ensures Locate(cfg.graph, [0]) == Hit(Box(Slots(s)))
  {
    hide Slots;
    assert cfg.graph.kids[0] == Box(Slots(s)) && [0][1..] == [];
  }

  lemma HeadSettles(cfg: Config, r: Called, st: State, out: Outcome, st': State)
    requires Came(r, [0], st, out, st') && Active(st)
    requires if r.exn.Some? then r.land.None? else r.land.Some?
    ensures Settled(cfg, out, st')
         == if r.exn.Some? then Settled(cfg, Throw(r.exn.value), st.(trace := r.trace))
            else st.(trace := r.trace, ptr := [0] + r.land.value)
  {
    hide Advance;
  }

  /** The same workflow without its SUSPENDs. */
  lemma Without(cfg: Config, s: Src)
    requires OneClause(cfg, s)
    ensures OneClause(WithoutSuspends(cfg), Unpause(s))
  {
    hide Slots, SoundClause, Relabel, Item;
    var s' := Unpause(s);
    SoundClauseUnpaused(s);
    ClauseShape(s, 0);
    forall j | 0 <= j < Exit(s') && PartIn(s', j).Some?
      ensures Callable(PartIn(s', j).value)
    {
      ClauseShape(s, j);
    }
    GraphWithout(s);
  }

  lemma GraphWithout(s: Src)
    requires IsClause(s) && IsClause(Unpause(s))
    ensures Relabel(Resumable, Box([Box(Slots(s))])) == Box([Box(Slots(Unpause(s)))])
  {
    ItemUnpaused(s, NoLoop);
    assert Item(s, NoLoop) == Box(Slots(s)) && Item(Unpause(s), NoLoop) == Box(Slots(Unpause(s)));
    hide Slots, Item, Relabel;
    RelabelBox([Box(Slots(s))]);
    assert RelabelAll([Box(Slots(s))]) == [Relabel(Resumable, Box(Slots(s)))];
  }

  /** A session and a run that end differently. */
  lemma Apart(cfg: Config, s: Src, m: nat, n: nat, f: State, f': State)
    requires OneClause(cfg, s) && AtEnd(f) && AtEnd(f') && f != f'
    requires Session(cfg, START, m) == f && Run(WithoutSuspends(cfg), START, n) == f'
    ensures !Transparent(cfg)
  {
    hide Session, Run, Relabel, Slots, SoundClause, OneClause;
    NotYetEnded(cfg, m, n);
    FromFirst(cfg, s, m);
    FromFirst(cfg, s, n);
    if Transparent(cfg) {
      assert Run(WithoutSuspends(cfg), INITIAL, n) == f';
      var m' :| Session(cfg, INITIAL, m') == f';
      EndsOnce(cfg, INITIAL, m, m');
      assert false;
    }
  }

  /** No part is a SUSPEND: no call meets one. */
  lemma DryTransparent(cfg: Config, s: Src)
    requires OneClause(cfg, s) && NeverSuspends(cfg)
    requires forall j | 0 <= j < Exit(s) && PartIn(s, j).Some? :: !PartIn(s, j).value.Pause?
    ensures Transparent(cfg)
  {
    assert DryClause(s) by {
      forall j | 0 <= j < Exit(s) && PartIn(s, j).Some?
        ensures DryPart(PartIn(s, j).value)
      {
        assert Callable(PartIn(s, j).value);
      }
    }
    hide Slots, Session, Run, Relabel, SoundClause, DryClause;
    ClausePlain(s);
    OnePlain(Box(Slots(s)));
    PlainTreeCalls(cfg);
    forall fin: State | AtEnd(fin)
      ensures (exists m :: Session(cfg, INITIAL, m) == fin)
         <==> (exists n :: Run(WithoutSuspends(cfg), INITIAL, n) == fin)
    {
      PlainGraphs.PlainTransparent(cfg, fin);
    }
  }

  lemma OnePlain(t: Tree<Instr>)
    requires PlainTree(t) && t.Box?
    ensures PlainTree(Box([t]))
  {
    hide PlainTree;
    PlainAlone(t);
    UnfoldPlain([t]);
  }

  lemma UnfoldPlain(kids: seq<Tree<Instr>>)
    requires (forall idx | 0 <= idx < |kids| :: PlainAt(kids, idx)) && forall k | k in kids :: PlainTree(k)
    ensures PlainTree(Box(kids))
  {
  }

  lemma PlainAlone(t: Tree<Instr>)
    requires t.Box?
    ensures PlainAt([t], 0)
  {
  }

  // ----- WHILE -----

  /** The check-up leads back to the head. */
  lemma CheckCycle(cfg: Config, s: Src, st: State)
    requires OneClause(cfg, s) && s.Repeat? && AtSlot(st, 3)
    ensures Cycle(cfg, st) == st.(ptr := [0, 0])
  {
    SlotLeaf(cfg, s, 3);
    LeafCycle(cfg, st, [0] + [3], JumpNear(0));
    assert Parent([0] + [3]) == [0];
    assert [0] + [0] == [0, 0];
  }

  /** One granted round, then a refusal. */
  function Twice(h: seq<Id>): Outcome {
    Ret(|h| == 1)
  }

  /** What the head of a WHILE around a SUSPEND, or around a NOP, comes to. */
  lemma RoundOf(cfg: Config, s: Src, tr: seq<Id>)
    requires s.Repeat? && (s.body.Pause? || s.body.Skip?) && cfg.oracle == Twice && cfg.nest >= 1 && cfg.ovf >= 1
    ensures CallHead(cfg, cfg.nest, s, GROUND, tr)
         == if tr != [] then Called(None, Some([4]), tr + [s.cond])
            else if s.body.Pause? then Called(Some(Suspended), None, [s.cond])
            else Called(None, Some([3]), [s.cond])
  {
    assert [] + [s.cond] == [s.cond];
  }

  /** The run without SUSPENDs asks the condition twice. */
  lemma PlainRounds(cfg: Config, s: Src)
    requires OneClause(cfg, s) && s.Repeat? && s.body.Skip? && cfg.oracle == Twice
    ensures Run(cfg, START, 3) == START.(trace := [s.cond] + [s.cond], ptr := [0, 4])
  {
    hide Cycle, Run, Slots, SoundClause, OneClause;
    RoundsOf(cfg, s);
    FirstAt(cfg, s);
    HeadCycle(cfg, s, START);
    var st1 := START.(trace := [s.cond], ptr := [0, 3]);
    assert [0] + [3] == [0, 3] && [0] + [4] == [0, 4];
    CheckCycle(cfg, s, st1);
    HeadCycle(cfg, s, st1.(ptr := [0, 0]));
    Steps(cfg, START);
    Steps(cfg, st1);
    Steps(cfg, st1.(ptr := [0, 0]));
    RunPlus(cfg, START, 1, 1);
    RunPlus(cfg, START, 2, 1);
  }

  lemma FirstAt(cfg: Config, s: Src)
    requires OneClause(cfg, s)
    ensures AtSlot(START, 0) && START.trace == [] && Active(START)
  {
  }

  lemma RoundsOf(cfg: Config, s: Src)
    requires OneClause(cfg, s) && s.Repeat? && (s.body.Pause? || s.body.Skip?) && cfg.oracle == Twice
    ensures CallHead(cfg, cfg.nest, s, GROUND, [])
         == if s.body.Pause? then Called(Some(Suspended), None, [s.cond]) else Called(None, Some([3]), [s.cond])
    ensures forall tr | tr != [] :: CallHead(cfg, cfg.nest, s, GROUND, tr) == Called(None, Some([4]), tr + [s.cond])
  {
    RoundOf(cfg, s, []);
    forall tr: seq<Id> | tr != []
      ensures CallHead(cfg, cfg.nest, s, GROUND, tr) == Called(None, Some([4]), tr + [s.cond])
    {
      RoundOf(cfg, s, tr);
    }
  }

  /** Resumed, the session executes the condition as a node of the flow, and halts once more. */
  lemma PausedRound(cfg: Config, s: Src)
    requires OneClause(cfg, s) && s.Repeat? && s.body.Pause? && cfg.oracle == Twice
    ensures Session(cfg, START, 5) == START.(trace := [s.cond] + [s.cond], ptr := [0, 3])
  {
    hide Cycle, Session, Run, Slots, SoundClause, OneClause;
    RoundsOf(cfg, s);
    FirstAt(cfg, s);
    LoopSlots(cfg, s);
    assert [0] + [1] == [0, 1] && [0] + [2] == [0, 2] && [0] + [3] == [0, 3] && [0] + [0] == [0, 0];
    HeadCycle(cfg, s, START);
    var st1 := START.(trace := [s.cond]);
    Steps(cfg, START);
    Passed(cfg, [0], 0, HeadIn(s, 0), st1);
    SessionPlus(cfg, START, 1, 1);
    FlowNode(cfg, [0], 1, s.cond, st1.(ptr := [0, 1]));
    SessionPlus(cfg, START, 2, 1);
    FlowSuspend(cfg, [0], 2, START.(trace := [s.cond] + [s.cond], ptr := [0, 2]));
    SessionPlus(cfg, START, 3, 2);
  }

  /** Then the head asks a third time. */
  lemma PausedRounds(cfg: Config, s: Src)
    requires OneClause(cfg, s) && s.Repeat? && s.body.Pause? && cfg.oracle == Twice
    ensures Session(cfg, START, 7) == START.(trace := [s.cond] + [s.cond] + [s.cond], ptr := [0, 4])
  {
    hide Cycle, Session, Run, Slots, SoundClause, OneClause;
    RoundsOf(cfg, s);
    PausedRound(cfg, s);
    assert [0] + [4] == [0, 4] && [0] + [0] == [0, 0];
    var st := START.(trace := [s.cond] + [s.cond], ptr := [0, 3]);
    CheckCycle(cfg, s, st);
    Steps(cfg, st);
    SessionPlus(cfg, START, 5, 1);
    HeadCycle(cfg, s, st.(ptr := [0, 0]));
    Steps(cfg, st.(ptr := [0, 0]));
    SessionPlus(cfg, START, 6, 1);
  }

  lemma LoopSlots(cfg: Config, s: Src)
    requires OneClause(cfg, s) && s.Repeat? && s.body.Pause?
    ensures LeafAt(cfg, [0] + [0], HeadIn(s, 0)) && LeafAt(cfg, [0] + [1], Act(s.cond))
    ensures LeafAt(cfg, [0] + [2], Suspend) && LeafAt(cfg, [0] + [3], JumpNear(0))
  {
    SlotLeaf(cfg, s, 0);
    SlotLeaf(cfg, s, 1);
    SlotLeaf(cfg, s, 2);
    SlotLeaf(cfg, s, 3);
  }

  lemma WhileTells(cfg: Config, s: Src)
    requires OneClause(cfg, s) && s.Repeat? && s.body.Pause? && cfg.oracle == Twice
    ensures !Transparent(cfg)
  {
    hide Cycle, Session, Run, Slots, SoundClause, OneClause, Transparent;
    var cfg' := WithoutSuspends(cfg);
    var st, st' := START.(trace := [s.cond] + [s.cond] + [s.cond], ptr := [0, 4]),
                   START.(trace := [s.cond] + [s.cond], ptr := [0, 4]);
    Without(cfg, s);
    PausedRounds(cfg, s);
    PlainRounds(cfg', Unpause(s));
    ClosingTurn(cfg, s, st);
    ClosingTurn(cfg, s, st');
    SessionPlus(cfg, START, 7, 1);
    RunPlus(cfg', START, 3, 1);
    assert |[s.cond] + [s.cond] + [s.cond]| == 3;
    Apart(cfg, s, 8, 4, st.(ptr := [], status := Done), st'.(ptr := [], status := Done));
  }

  /**
   A workflow of one WHILE is transparent to suspension, whatever its nodes
   answer, if and only if its action is not SUSPEND.
   */
  lemma LoopTransparent(cfg: Config, s: Src)
    requires OneClause(cfg, s) && s.Repeat?
    ensures (forall o: Oracle | NeverSuspends(cfg.(oracle := o)) :: Transparent(cfg.(oracle := o))) <==> !s.body.Pause?
  {
    hide Transparent, Slots, SoundClause;
    if s.body.Pause? {
      assert NeverSuspends(cfg.(oracle := Twice));
      WhileTells(cfg.(oracle := Twice), s);
    } else {
      forall o: Oracle | NeverSuspends(cfg.(oracle := o))
        ensures Transparent(cfg.(oracle := o))
      {
        DryTransparent(cfg.(oracle := o), s);
      }
    }
  }

  // ----- Try -----

  /** A Try of user nodes but for a SUSPEND in slot `k`. */
  ghost predicate PausedTry(cfg: Config, s: Src, k: nat) {
    && OneClause(cfg, s) && s.Attempt? && PartIn(s, k) == Some(Pause)
    && forall j | 0 <= j < Exit(s) && PartIn(s, j).Some? && j != k :: PartIn(s, j).value.Work?
  }

  /**
   The one SUSPEND that does not tell: as the tried node, with a CATCH that
   takes the notice it raises, whose handler is the same node as THEN.
   */
  ghost predicate Masked(cfg: Config, s: Src, k: nat)
    requires s.Attempt?
  {
    var i := Second(cfg, s, Some(Suspended));
    k == 1 && i.Some? && s.thn.Some? && PartIn(s, i.value) == s.thn
  }

  /** The worker of a Try of nodes: its calls, one after the other. */
  function Worked(cfg: Config, s: Src, tr: seq<Id>): Result
    requires s.Attempt?
  {
    var r := EvalNode(cfg, s.body, tr);
    var next := Second(cfg, s, Failure(r.out));
    var r2 := if next.None? then r else EvalNode(cfg, PartIn(s, next.value).value, r.trace);
    var f := if s.fin.None? then Result(Normal, r2.trace) else EvalNode(cfg, s.fin.value, r2.trace);
    if f.out.Normal? then Result(r2.out, f.trace) else f
  }

  lemma WorkedHead(cfg: Config, s: Src, tr: seq<Id>)
    requires OneClause(cfg, s) && s.Attempt?
    ensures var w := Worked(cfg, s, tr);
            CallHead(cfg, cfg.nest, s, GROUND, tr)
            == Called(Failure(w.out), if w.out.Err? then None else Some([Exit(s)]), w.trace)
    ensures Worked(cfg, s, tr).out.Normal? || Worked(cfg, s, tr).out.Err?
  {
    assert PartIn(s, 1) == Some(s.body) && (s.fin.Some? ==> PartIn(s, FinSlot(s)) == s.fin);
    TryHeadMeans(cfg, cfg.nest, s, GROUND, tr);
    WorkedSlots(cfg, s);
    hide CallHead, CallSlot, Second, Slots, SoundClause, EvalNode, OneClause;
  }

  lemma WorkedSlots(cfg: Config, s: Src)
    requires OneClause(cfg, s) && s.Attempt?
    ensures forall j, tr | PartIn(s, j).Some? ::
              var r := EvalNode(cfg, PartIn(s, j).value, tr);
              CallSlot(cfg, cfg.nest, s, j, None, GROUND, tr) == Called(Failure(r.out), None, r.trace)
              && (r.out.Normal? || r.out.Err?)
  {
    hide Slots, SoundClause;
  }

  /** The turn of the head. */
  lemma WorkedCycle(cfg: Config, s: Src)
    requires OneClause(cfg, s) && s.Attempt?
    ensures var w := Worked(cfg, s, []);
            Cycle(cfg, START) == match w.out
                                 case Err(e) => Settled(cfg, Throw(e), START.(trace := w.trace))
                                 case _ => START.(trace := w.trace, ptr := [0, Exit(s)])
  {
    hide Cycle, CallHead, Slots, SoundClause, OneClause, Worked;
    FirstAt(cfg, s);
    HeadCycle(cfg, s, START);
    WorkedHead(cfg, s, []);
    assert [0] + [Exit(s)] == [0, Exit(s)];
  }

  /** From a history of `m` nodes on, every node returns. */
  ghost predicate Calm(cfg: Config, m: nat) {
    forall h: seq<Id> | |h| > m :: cfg.oracle(h).Ret?
  }

  /** A session in the flow of a Try, to its end: it executes every user node on its way. */
  lemma {:induction false} FlowToEnd(cfg: Config, s: Src, k: nat, j: nat, st: State) returns (m: nat, fin: State)
    requires PausedTry(cfg, s, k) && AtSlot(st, j) && 0 < j <= Exit(s) && Calm(cfg, |st.trace|)
    ensures Session(cfg, st, m) == fin && AtEnd(fin)
    ensures |fin.trace| == |st.trace| + (Exit(s) - j) - (if j <= k then 1 else 0)
    decreases Exit(s) - j
  {
    hide Session, Slots, SoundClause, OneClause;
    if j == Exit(s) {
      ClosingTurn(cfg, s, st);
      m, fin := 1, st.(ptr := [], status := Done);
    } else {
      var mid;
      m, mid := FlowSlot(cfg, s, k, j, st);
      var m2;
      m2, fin := FlowToEnd(cfg, s, k, j + 1, mid);
      SessionPlus(cfg, st, m, m2);
      m := m + m2;
    }
  }

  lemma FlowSlot(cfg: Config, s: Src, k: nat, j: nat, st: State) returns (m: nat, mid: State)
    requires PausedTry(cfg, s, k) && AtSlot(st, j) && 0 < j < Exit(s) && Calm(cfg, |st.trace|)
    ensures Session(cfg, st, m) == mid && AtSlot(mid, j + 1)
    ensures |mid.trace| == |st.trace| + if j == k then 0 else 1
  {
    hide Session, Slots, SoundClause, SlotTree;
    assert [0] + [j] == [0, j] && [0] + [j + 1] == [0, j + 1];
    TryLeaf(cfg, s, k, j);
    SlotsLeaf(cfg, s, j + 1);
    if j == k {
      FlowSuspend(cfg, [0], j, st);
      m, mid := 2, st.(ptr := [0, j + 1]);
    } else {
      var id := PartIn(s, j).value.id;
      FlowNode(cfg, [0], j, id, st);
      assert cfg.oracle(st.trace + [id]).Ret?;
      m, mid := 1, st.(trace := st.trace + [id], ptr := [0, j + 1]);
    }
  }

  lemma TryLeaf(cfg: Config, s: Src, k: nat, j: nat)
    requires PausedTry(cfg, s, k) && 0 < j < Exit(s)
    ensures PartIn(s, j).Some?
    ensures if j == k then LeafAt(cfg, [0] + [j], Suspend)
            else PartIn(s, j).value.Work? && LeafAt(cfg, [0] + [j], Act(PartIn(s, j).value.id))
  {
    TrySlots.TrySlotFull(s, j);
    SlotLeaf(cfg, s, j);
    hide Slots, SoundClause;
  }

  /** A head that raises the notice: the session goes on with the tried node, in the flow. */
  lemma Resumes(cfg: Config, s: Src, k: nat) returns (m: nat, fin: State)
    requires PausedTry(cfg, s, k) && Worked(cfg, s, []).out == Err(Suspended) && Calm(cfg, |Worked(cfg, s, []).trace|)
    ensures Session(cfg, START, m) == fin && AtEnd(fin)
    ensures |fin.trace| == |Worked(cfg, s, []).trace| + (Exit(s) - 2)
  {
    hide Cycle, Session, Slots, SoundClause, SlotTree, Worked, OneClause;
    var st := START.(trace := Worked(cfg, s, []).trace);
    WorkedCycle(cfg, s);
    Steps(cfg, START);
    HeadLeaf(cfg, s);
    Passed(cfg, [0], 0, HeadIn(s, 0), st);
    SessionPlus(cfg, START, 1, 1);
    var m2;
    m2, fin := FlowToEnd(cfg, s, k, 1, st.(ptr := [0, 1]));
    SessionPlus(cfg, START, 2, m2);
    m := 2 + m2;
  }

  lemma HeadLeaf(cfg: Config, s: Src)
    requires OneClause(cfg, s)
    ensures LeafAt(cfg, [0] + [0], HeadIn(s, 0)) && [0] + [0] == [0, 0] && [0] + [1] == [0, 1]
    ensures Locate(cfg.graph, [0] + [1]).Hit? && Locate(cfg.graph, [0] + [1]).tree.Leaf?
    ensures AtSlot(START, 0)
  {
    SlotLeaf(cfg, s, 0);
    HeadSlot(s);
    SlotsLeaf(cfg, s, 1);
    hide Slots, SlotTree, SoundClause;
  }

  /** A head that completes is followed by the closing NOP only. */
  lemma Completes(cfg: Config, s: Src)
    requires OneClause(cfg, s) && s.Attempt? && Worked(cfg, s, []).out.Normal?
    ensures Session(cfg, START, 2) == Run(cfg, START, 2)
         == START.(trace := Worked(cfg, s, []).trace, ptr := [], status := Done)
  {
    hide Cycle, Session, Run, Slots, SoundClause, Worked, OneClause, Relabel;
    WorkedCycle(cfg, s);
    Steps(cfg, START);
    var st := START.(trace := Worked(cfg, s, []).trace, ptr := [0, Exit(s)]);
    ClosingCycle(cfg, s, st);
    Steps(cfg, st);
    SessionPlus(cfg, START, 1, 1);
    RunPlus(cfg, START, 1, 1);
  }

  lemma ClosingCycle(cfg: Config, s: Src, st: State)
    requires OneClause(cfg, s) && AtSlot(st, Exit(s))
    ensures Cycle(cfg, st) == st.(ptr := [], status := Done)
  {
    hide Cycle, Slots, SoundClause, OneClause;
    ClosingTurn(cfg, s, st);
    Steps(cfg, st);
  }

  /** CATCHes take the same exceptions. */
  lemma {:induction false} MatchUnpaused(cfg: Config, e: Exn, catches: seq<Catch>)
    ensures FirstMatch(WithoutSuspends(cfg), e, UnpauseCatches(catches)) == FirstMatch(cfg, e, catches)
    decreases |catches|
  {
    if catches != [] {
      MatchUnpaused(cfg, e, catches[1..]);
      assert UnpauseCatches(catches)[1..] == UnpauseCatches(catches[1..]);
    }
  }

  lemma SecondUnpaused(cfg: Config, s: Src, e: Option<Exn>)
    requires s.Attempt?
    ensures Unpause(s).Attempt? && Second(WithoutSuspends(cfg), Unpause(s), e) == Second(cfg, s, e)
    ensures Second(cfg, s, e).Some? ==>
              PartIn(Unpause(s), Second(cfg, s, e).value) == Some(Unpause(PartIn(s, Second(cfg, s, e).value).value))
  {
    if e.Some? {
      MatchUnpaused(cfg, e.value, s.catches);
    }
    if Second(cfg, s, e).Some? {
      ClauseShape(s, Second(cfg, s, e).value);
    }
  }

  /** The run of the same Try without its SUSPEND. */
  function Plainly(cfg: Config, s: Src): Result
    requires s.Attempt?
  {
    Worked(WithoutSuspends(cfg), Unpause(s), [])
  }

  lemma UnpausedParts(s: Src, k: nat)
    requires s.Attempt? && SoundClause(s) && PartIn(s, k) == Some(Pause)
    requires forall j | 0 <= j < Exit(s) && PartIn(s, j).Some? && j != k :: PartIn(s, j).value.Work?
    ensures Unpause(s).body == (if k == 1 then Skip else s.body)
    ensures Unpause(s).thn == (if s.thn.Some? && k == ThnSlot(s) then Some(Skip) else s.thn)
    ensures Unpause(s).fin == (if s.fin.Some? && k == FinSlot(s) then Some(Skip) else s.fin)
    ensures (k == 1 <==> s.body.Pause?) && (k != 1 ==> s.body.Work?)
    ensures s.thn.Some? ==> PartIn(s, ThnSlot(s)) == s.thn && (k != ThnSlot(s) ==> s.thn.value.Work?)
    ensures s.fin.Some? ==> PartIn(s, FinSlot(s)) == s.fin && (k != FinSlot(s) ==> s.fin.value.Work?)
    ensures k < Exit(s) && Exit(s) >= 3
  {
    assert PartIn(s, 1) == Some(s.body);
    assert s.thn.Some? ==> PartIn(s, ThnSlot(s)) == s.thn;
    assert s.fin.Some? ==> PartIn(s, FinSlot(s)) == s.fin;
    UnpausedOption(s.thn);
    UnpausedOption(s.fin);
  }

  lemma UnpausedOption(x: Option<Src>)
    ensures x == Some(Pause) ==> UnpauseOption(x) == Some(Skip)
    ensures x.Some? && x.value.Work? ==> UnpauseOption(x) == x
  {
  }

  /** As the tried node. */
  lemma BodyTells(cfg: Config, s: Src)
    requires PausedTry(cfg, s, 1) && Calm(cfg, 0) && !Masked(cfg, s, 1)
    ensures var w := Worked(cfg, s, []);
            && Plainly(cfg, s).out.Normal?
            && (if w.out.Normal? then w.trace != Plainly(cfg, s).trace
                else w.out == Err(Suspended) && |w.trace| + (Exit(s) - 2) > |Plainly(cfg, s).trace|)
  {
    UnpausedParts(s, 1);
    var next := Second(cfg, s, Some(Suspended));
    hide Slots, SoundClause, OneClause, Relabel;
    assert Second(WithoutSuspends(cfg), Unpause(s), None) == if s.thn.Some? then Some(ThnSlot(s)) else None by {
      SecondUnpaused(cfg, s, None);
    }
    assert s.thn.Some? ==> PartIn(Unpause(s), ThnSlot(s)) == s.thn by {
      SecondUnpaused(cfg, s, None);
    }
    assert s.catches != [] || s.fin.Some? by {
      BodyAlone(cfg, s);
    }
    CalmNodes(cfg, s);
    if next.Some? {
      var h := PartIn(s, next.value).value;
      assert h.Work?;
      var w, w' := Worked(cfg, s, []).trace, Plainly(cfg, s).trace;
      assert w == [h.id] + if s.fin.Some? then [s.fin.value.id] else [];
      if s.thn.Some? {
        assert w' == [s.thn.value.id] + if s.fin.Some? then [s.fin.value.id] else [];
        assert w[0] == h.id && w'[0] == s.thn.value.id;
      } else {
        assert w' == if s.fin.Some? then [s.fin.value.id] else [];
      }
    }
  }

  lemma BodyAlone(cfg: Config, s: Src)
    requires OneClause(cfg, s) && s.Attempt?
    ensures s.catches != [] || s.fin.Some?
  {
    hide Slots;
  }

  /** Under a calm oracle a user node adds itself to the trace and returns. */
  lemma CalmNodes(cfg: Config, s: Src)
    requires Calm(cfg, 0)
    ensures forall x: Src, tr | x.Work? :: EvalNode(cfg, x, tr) == Result(Normal, tr + [x.id])
    ensures forall x: Src, tr | x.Work? :: EvalNode(WithoutSuspends(cfg), x, tr) == Result(Normal, tr + [x.id])
  {
    forall x: Src, tr: seq<Id> | x.Work?
      ensures cfg.oracle(tr + [x.id]).Ret?
    {
    }
  }

  /** As FINALLY. */
  lemma FinallyTells(cfg: Config, s: Src, k: nat)
    requires PausedTry(cfg, s, k) && s.fin.Some? && k == FinSlot(s) && Calm(cfg, 0)
    ensures var w := Worked(cfg, s, []);
            && Plainly(cfg, s).out.Normal? && w.out == Err(Suspended) && |w.trace| > 0
            && |w.trace| + (Exit(s) - 2) > |Plainly(cfg, s).trace|
  {
    UnpausedParts(s, k);
    hide Slots, SoundClause, OneClause, Relabel;
    SecondUnpaused(cfg, s, None);
    CalmNodes(cfg, s);
  }

  /** The tried node comes to what slot `k` is called for. */
  ghost predicate Summons(cfg: Config, s: Src, k: nat)
    requires s.Attempt? && s.body.Work?
  {
    Second(cfg, s, Failure(EvalNode(cfg, s.body, []).out)) == Some(k)
  }

  /** As a handler or THEN. */
  lemma SecondTells(cfg: Config, s: Src, k: nat)
    requires PausedTry(cfg, s, k) && 1 < k < FinSlot(s) && Calm(cfg, 1)
    requires s.body.Work? && Summons(cfg, s, k)
    ensures var w := Worked(cfg, s, []);
            && Plainly(cfg, s).out.Normal? && w.out == Err(Suspended) && |w.trace| > 0
            && |w.trace| + (Exit(s) - 2) > |Plainly(cfg, s).trace|
  {
    UnpausedParts(s, k);
    hide Slots, SoundClause, OneClause, Relabel, Second;
    var e := Failure(EvalNode(cfg, s.body, []).out);
    SecondUnpaused(cfg, s, e);
    assert EvalNode(WithoutSuspends(cfg), s.body, []) == EvalNode(cfg, s.body, []);
    var tr := [] + [s.body.id];
    if s.fin.Some? {
      assert cfg.oracle(tr + [s.fin.value.id]).Ret?;
    }
  }

  /** In each of these cases the session and the run without the SUSPEND end differently. */
  lemma TryTells(cfg: Config, s: Src, k: nat)
    requires PausedTry(cfg, s, k) && Plainly(cfg, s).out.Normal?
    requires var w := Worked(cfg, s, []);
             if w.out.Normal? then w.trace != Plainly(cfg, s).trace
             else w.out == Err(Suspended) && |w.trace| + (Exit(s) - 2) > |Plainly(cfg, s).trace| && Calm(cfg, |w.trace|)
    ensures !Transparent(cfg)
  {
    hide Session, Run, Slots, SoundClause, OneClause, Worked, Transparent, Relabel;
    var cfg', w := WithoutSuspends(cfg), Worked(cfg, s, []);
    Without(cfg, s);
    assert Unpause(s).Attempt?;
    Completes(cfg', Unpause(s));
    var f' := START.(trace := Plainly(cfg, s).trace, ptr := [], status := Done);
    if w.out.Normal? {
      Completes(cfg, s);
      Apart(cfg, s, 2, 2, START.(trace := w.trace, ptr := [], status := Done), f');
    } else {
      var m, f := Resumes(cfg, s, k);
      Apart(cfg, s, m, 2, f, f');
    }
  }

  /** The masked SUSPEND: the handler does what THEN would have done. */
  lemma MaskedTransparent(cfg: Config, s: Src)
    requires PausedTry(cfg, s, 1) && Masked(cfg, s, 1) && NeverSuspends(cfg)
    ensures Transparent(cfg)
  {
    MaskedSame(cfg, s);
    hide Session, Run, Slots, SoundClause, OneClause, Worked, Transparent, Relabel, Cycle;
    var cfg', w := WithoutSuspends(cfg), Worked(cfg, s, []);
    Without(cfg, s);
    assert Unpause(s).Attempt?;
    if w.out.Normal? {
      Completes(cfg, s);
      Completes(cfg', Unpause(s));
      MeetsBy(cfg, START, 2, 2, START.(trace := w.trace, ptr := [], status := Done));
      EndTogether(cfg, s, 2, 2, START.(trace := w.trace, ptr := [], status := Done));
    } else {
      WorkedCycle(cfg, s);
      WorkedCycle(cfg', Unpause(s));
      Steps(cfg, START);
      Steps(cfg', START);
      MeetsBy(cfg, START, 1, 1, Cycle(cfg, START));
      EndTogether(cfg, s, 1, 1, Cycle(cfg, START));
    }
  }

  lemma MaskedSame(cfg: Config, s: Src)
    requires PausedTry(cfg, s, 1) && Masked(cfg, s, 1) && NeverSuspends(cfg)
    ensures Worked(cfg, s, []) == Plainly(cfg, s)
    ensures var out := Worked(cfg, s, []).out; out.Normal? || (out.Err? && out.exn != Suspended)
  {
    UnpausedParts(s, 1);
    hide Slots, SoundClause, OneClause, Relabel;
    SecondUnpaused(cfg, s, None);
    SecondUnpaused(cfg, s, Some(Suspended));
    var h := s.thn.value;
    assert h.Work? && EvalNode(cfg, h, []) == EvalNode(WithoutSuspends(cfg), h, []);
    assert cfg.oracle([] + [h.id]) != Throw(Suspended);
    if s.fin.Some? {
      assert cfg.oracle([] + [h.id] + [s.fin.value.id]) != Throw(Suspended);
    }
  }

  /** Some failure of the tried node, other than the notice itself, has a handler called. */
  ghost predicate Reached(cfg: Config, s: Src, k: nat)
    requires s.Attempt?
  {
    2 <= k < ThnSlot(s) ==> exists e: Exn :: e != Suspended && Second(cfg, s, Some(e)) == Some(k)
  }

  /**
   A workflow of one Try of user nodes, one of which may be a SUSPEND instead,
   is transparent to suspension, whatever its nodes answer, if and only if it
   is not, or it is masked.
   */
  lemma TryTransparent(cfg: Config, s: Src, k: nat)
    requires OneClause(cfg, s) && s.Attempt? && PartIn(s, k).Some? && Reached(cfg, s, k)
    requires PartIn(s, k).value.Work? || PartIn(s, k).value.Pause?
    requires forall j | 0 <= j < Exit(s) && PartIn(s, j).Some? && j != k :: PartIn(s, j).value.Work?
    ensures (forall o: Oracle | NeverSuspends(cfg.(oracle := o)) :: Transparent(cfg.(oracle := o)))
       <==> (PartIn(s, k).value.Work? || Masked(cfg, s, k))
  {
    hide Transparent, Slots, SoundClause;
    if PartIn(s, k).value.Work? {
      forall o: Oracle | NeverSuspends(cfg.(oracle := o))
        ensures Transparent(cfg.(oracle := o))
      {
        DryTransparent(cfg.(oracle := o), s);
      }
    } else if Masked(cfg, s, k) {
      forall o: Oracle | NeverSuspends(cfg.(oracle := o))
        ensures Transparent(cfg.(oracle := o))
      {
        TrySlots.SecondOracle(cfg, o, s, Some(Suspended));
        MaskedTransparent(cfg.(oracle := o), s);
      }
    } else {
      var o := TellingTry(cfg, s, k);
      assert NeverSuspends(cfg.(oracle := o));
    }
  }

  lemma TellingTry(cfg: Config, s: Src, k: nat) returns (o: Oracle)
    requires PausedTry(cfg, s, k) && !Masked(cfg, s, k) && Reached(cfg, s, k)
    ensures NeverSuspends(cfg.(oracle := o)) && !Transparent(cfg.(oracle := o))
  {
    hide Transparent, Slots, SoundClause, Worked;
    assert PartIn(s, 1) == Some(s.body);
    o := h => Ret(true);
    if k == 1 {
      TrySlots.SecondOracle(cfg, o, s, Some(Suspended));
      BodyTells(cfg.(oracle := o), s);
    } else if s.fin.Some? && k == FinSlot(s) {
      FinallyTells(cfg.(oracle := o), s, k);
    } else {
      if k < ThnSlot(s) {
        var e: Exn :| e != Suspended && Second(cfg, s, Some(e)) == Some(k);
        o := h => if |h| == 1 then Throw(e) else Ret(true);
        TrySlots.SecondOracle(cfg, o, s, Some(e));
        assert |[] + [s.body.id]| == 1;
      } else {
        TrySlots.SecondOracle(cfg, o, s, None);
      }
      SecondTells(cfg.(oracle := o), s, k);
    }
    TryTells(cfg.(oracle := o), s, k);
  }
}
