/**
 A clause in a slot of a Try: what happens to the calls its worker makes after
 the clause has jumped, and in which slots a clause means what its author reads.
 */
module TrySlots {
  import opened Options
  import opened Addressing
  import opened Machine
  import opened Native
  import opened ClauseRuns
  import opened StructuredCode

  /** Every part is a user node. */
  predicate UserParts(s: Src)
    requires IsClause(s)
  {
    forall j | 0 <= j < Exit(s) && PartIn(s, j).Some? :: PartIn(s, j).value.Work?
  }

  /** A Try whose parts are user nodes, but for a clause of user nodes in slot `k`. */
  predicate ClauseInTry(s: Src, k: nat) {
    && s.Attempt? && SoundClause(s) && PartIn(s, k).Some?
    && IsClause(PartIn(s, k).value) && UserParts(PartIn(s, k).value)
    && forall j | 0 <= j < Exit(s) && PartIn(s, j).Some? && j != k :: PartIn(s, j).value.Work?
  }

  /** The clauses of user nodes all of whose work is done while they are called. */
  predicate Whole(x: Src) {
    x.Attempt? || (x.Choose? && |x.arms| == 1 && x.els.None?)
  }

  /** Some outcome of the tried node has slot `k` called: no handler is shadowed by the CATCHes before it. */
  ghost predicate Reachable(cfg: Config, s: Src, k: nat)
    requires s.Attempt?
  {
    2 <= k < ThnSlot(s) ==> exists e :: Second(cfg, s, Some(e)) == Some(k)
  }

  /**
   Not the last slot, but the one before FINALLY, whose number is also that of
   the NOP closing the clause: the call of FINALLY, made after the jump, finds
   that NOP and does no harm.
   */
  predicate Coincides(s: Src, k: nat)
    requires ClauseInTry(s, k)
  {
    s.fin.Some? && 1 < k == FinSlot(s) - 1 && Exit(PartIn(s, k).value) == FinSlot(s)
  }

  lemma UserTidy(x: Src)
    requires IsClause(x) && SoundClause(x) && Whole(x) && UserParts(x)
    ensures Tidy(x) && Clean(x) && forall n | n > 0 :: FitsHead(x, n)
  {
    if x.Attempt? {
      assert PartIn(x, 1) == Some(x.body);
      forall i | 0 <= i < |x.catches|
        ensures x.catches[i].handler.Work?
      {
        assert PartIn(x, i + 2) == Some(x.catches[i].handler);
      }
      if x.thn.Some? {
        assert PartIn(x, ThnSlot(x)) == x.thn;
      }
      if x.fin.Some? {
        assert PartIn(x, FinSlot(x)) == x.fin;
      }
    }
  }

  /** Calling a user node in a slot, no jump pending. */
  lemma UserSlot(cfg: Config, nest: nat, s: Src, j: nat, at: Level, fuel: nat, tr: seq<Id>)
    requires s.Attempt? && PartIn(s, j).Some? && PartIn(s, j).value.Work? && nest > 0
    ensures var i := IdealCall(cfg, PartIn(s, j).value, at, fuel, tr);
            && CallSlot(cfg, nest, s, j, None, at, tr) == Called(Failure(i.out), None, i.trace)
            && i == EvalCalled(cfg, PartIn(s, j).value, at, tr) && (i.out.Normal? || i.out.Err?)
  {
  }

  /** Calling a whole clause: raising, no jump is pending; completing, its closing NOP has been jumped to. */
  lemma WholeSlot(cfg: Config, nest: nat, s: Src, k: nat, at: Level, fuel: nat, tr: seq<Id>)
    requires ClauseInTry(s, k) && Whole(PartIn(s, k).value) && nest > 1
    ensures var x := PartIn(s, k).value;
            var i := IdealCall(cfg, x, at, fuel, tr);
            && CallSlot(cfg, nest, s, k, None, at, tr)
               == Called(Failure(i.out), if i.out.Normal? then Some([k, Exit(x)]) else None, i.trace)
            && (i.out.Normal? || i.out.Err?) && (i.out.Normal? ==> at.depth < cfg.ovf)
  {
    var x := PartIn(s, k).value;
    assert SoundPart(x);
    UserTidy(x);
    TidyPart(cfg, nest, x, at, fuel, tr);
    WholeLands(cfg, nest, x, at, tr);
    hide CallPart, IdealCall;
    var r := CallPart(cfg, nest, x, at, tr);
    if r.land.Some? {
      assert [k] + [Exit(x)] == [k, Exit(x)];
    }
  }

  lemma WholeLands(cfg: Config, nest: nat, x: Src, at: Level, tr: seq<Id>)
    requires IsClause(x) && SoundClause(x) && Whole(x) && UserParts(x) && nest > 1
    ensures var r := CallPart(cfg, nest, x, at, tr);
            && (r.land.Some? ==> r.land.value == [Exit(x)])
            && (r.exn.None? ==> r.land.Some? && at.depth < cfg.ovf)
  {
    UserTidy(x);
    TidyPart(cfg, nest, x, at, 0, tr);
    hide Tidy, Clean, IdealCall, CallHead;
    var r := CallPart(cfg, nest, x, at, tr);
    if r.land.Some? {
      var pos := r.land.value;
      assert |pos| == 1;
      assert pos == [pos[0]];
    }
  }

  // ----- calls made after the clause has jumped -----

  /** The container such a call looks its node up in. */
  lemma LateSlotAt(cfg: Config, nest: nat, s: Src, k: nat, m: nat, j: nat, at: Level, tr: seq<Id>)
    requires ClauseInTry(s, k) && PartIn(s, j).Some?
    ensures var r := LateCall(cfg, nest, Box(Slots(PartIn(s, k).value)), [m], [j], at, tr);
            CallSlot(cfg, nest, s, j, Some([k, m]), at, tr)
            == Called(if r.out.Throw? then Some(r.out.exn) else None, Some([k] + r.land), r.trace)
  {
    hide LateCall, Slots;
    assert [k, m][1..] == [m] && NearCopy([m], j) == [j];
    assert SlotTree(s, k) == Item(PartIn(s, k).value, NoLoop) == Box(Slots(PartIn(s, k).value));
  }

  /** Which node is in the slot, if any. */
  lemma SlotFound(x: Src, j: nat)
    requires IsClause(x)
    ensures Locate(Box(Slots(x)), [j]) == if j <= Exit(x) then Hit(SlotTree(x, j)) else Missing
    ensures j <= Exit(x) && SlotTree(x, j).Leaf? ==> Descend(Box(Slots(x)), [j]) == [j]
    ensures j > Exit(x) ==> Descend(Box(Slots(x)), [j]) == [j]
  {
    assert [j][1..] == [];
    if j <= Exit(x) {
      assert Slots(x)[j] == SlotTree(x, j);
      assert Locate(SlotTree(x, j), []) == Hit(SlotTree(x, j));
    }
    assert [j] + [] == [j];
  }

  /** A leaf called late from the clause's container. */
  lemma LateLeaf(cfg: Config, nest: nat, x: Src, here: Path, j: nat, at: Level, tr: seq<Id>)
    requires IsClause(x) && j <= Exit(x) && SlotTree(x, j).Leaf? && here != []
    ensures LateCall(cfg, nest, Box(Slots(x)), here, [j], at, tr)
         == if at.depth >= cfg.ovf then Late(Throw(StackOverflow), here, tr)
            else if nest == 0 then Late(Throw(RecursionLimit), [j], tr)
            else LateNode(cfg, nest - 1, Box(Slots(x)), SlotTree(x, j).node, [j], Deeper(at), tr)
  {
    SlotFound(x, j);
    hide Slots, LateNode, Descend, Locate, SlotTree;
  }

  /** Behind the clause's slots there is nothing, and its closing NOP does nothing. */
  lemma LateBeside(cfg: Config, nest: nat, s: Src, k: nat, m: nat, j: nat, at: Level, tr: seq<Id>)
    requires ClauseInTry(s, k) && at.depth < cfg.ovf && nest > 0 && PartIn(s, j).Some?
    requires j >= Exit(PartIn(s, k).value)
    ensures CallSlot(cfg, nest, s, j, Some([k, m]), at, tr)
         == Called(if j == Exit(PartIn(s, k).value) then None else Some(NullPointer), Some([k, j]), tr)
  {
    var x := PartIn(s, k).value;
    LateSlotAt(cfg, nest, s, k, m, j, at, tr);
    SlotFound(x, j);
    hide Slots, CallSlot;
    assert [k] + [j] == [k, j];
  }

  /** From a history of `m` nodes on, every node returns. */
  ghost predicate CalmFrom(cfg: Config, m: nat) {
    forall h: seq<Id> | |h| > m :: cfg.oracle(h).Ret?
  }

  /** A call of slot `j` has raised, or executed something; a WHILE's check-up node alone does nothing then. */
  predicate Grown(x: Src, j: nat, tr: seq<Id>, r: Late)
    requires IsClause(x)
  {
    r.out.Ret? ==>
      && |r.land| == 1 && 0 < r.land[0] <= Exit(x)
      && if x.Repeat? && j == 3 then r.land == [3] && r.trace == tr else |r.trace| > |tr|
  }

  lemma {:induction false} LateGrows(cfg: Config, nest: nat, x: Src, here: Path, j: nat, at: Level, tr: seq<Id>)
    requires IsClause(x) && SoundClause(x) && UserParts(x) && here != [] && 0 < j < Exit(x) && CalmFrom(cfg, |tr|)
    ensures Grown(x, j, tr, LateCall(cfg, nest, Box(Slots(x)), here, [j], at, tr))
    decreases Exit(x) - j, 1
  {
    hide Slots, LateCall, LateNode, SlotTree, SoundClause, UserParts, CalmFrom;
    SlotLeaf(x, j);
    LateLeaf(cfg, nest, x, here, j, at, tr);
    if at.depth < cfg.ovf && nest > 0 {
      var i := SlotTree(x, j).node;
      if i.CondJump? {
        LateChunkGrows(cfg, nest - 1, x, j, Deeper(at), tr);
      } else if i.ElseDo? {
        LateElseMeans(cfg, nest - 1, x, j, Deeper(at), tr);
        LateGrows(cfg, nest - 1, x, [j], j + 1, Deeper(at), tr);
      } else {
        LatePlain(cfg, nest - 1, x, i, j, Deeper(at), tr);
      }
    }
  }

  lemma LatePlain(cfg: Config, nest: nat, x: Src, i: Instr, j: nat, at: Level, tr: seq<Id>)
    requires IsClause(x) && (i.Act? || i.JumpNear?)
    ensures LateNode(cfg, nest, Box(Slots(x)), i, [j], at, tr)
         == if i.Act? then Late(cfg.oracle(tr + [i.id]), [j], tr + [i.id]) else Late(OK, [j], tr)
  {
    hide Slots;
  }

  lemma LateElseMeans(cfg: Config, nest: nat, x: Src, j: nat, at: Level, tr: seq<Id>)
    requires IsClause(x)
    ensures LateNode(cfg, nest, Box(Slots(x)), ElseDo(1, 2), [j], at, tr)
         == Calm(LateCall(cfg, nest, Box(Slots(x)), [j], [j + 1], at, tr))
  {
    NextSlot(x, j);
    hide Slots, LateCall;
  }

  lemma LateChunkMeans(cfg: Config, nest: nat, x: Src, j: nat, at: Level, tr: seq<Id>)
    requires IsClause(x)
    ensures var c := LateCall(cfg, nest, Box(Slots(x)), [j], [j + 1], at, tr);
            LateNode(cfg, nest, Box(Slots(x)), CondJump(1, 2, 3, Exit(x)), [j], at, tr)
            == if c.out != Ret(true) then Calm(c)
               else Calm(LateCall(cfg, nest, Box(Slots(x)), c.land, OffsetCopy(c.land, 2), at, c.trace))
  {
    NextSlot(x, j);
    hide Slots, LateCall;
  }

  /** Every slot but the first of a clause of user nodes holds a leaf. */
  lemma SlotLeaf(x: Src, j: nat)
    requires IsClause(x) && SoundClause(x) && UserParts(x) && 0 < j < Exit(x)
    ensures SlotTree(x, j).Leaf?
    ensures var i := SlotTree(x, j).node;
            match x
            case Choose(_, _) =>
              i.Act? || (i == CondJump(1, 2, 3, Exit(x)) && j + 2 < Exit(x)) || (i == ElseDo(1, 2) && j + 1 < Exit(x))
            case Repeat(_, _) => if j == 3 then i == JumpNear(0) else i.Act?
            case Attempt(_, _, _, _) => i.Act?
  {
    if x.Attempt? {
      TrySlotFull(x, j);
    } else if x.Choose? && PartIn(x, j).None? && CondIn(x, j).None? {
      ChunkNumber(x, j);
    }
  }

  lemma TrySlotFull(x: Src, j: nat)
    requires x.Attempt? && 0 < j < Exit(x)
    ensures PartIn(x, j).Some?
  {
  }

  lemma NextSlot(x: Src, j: nat)
    ensures OffsetCopy([j], 1) == [j + 1] && OffsetCopy([j], 2) == [j + 2]
  {
  }

  /** A chunk of an IF called late: the condition, then whatever stands two slots behind the condition. */
  lemma {:induction false} LateChunkGrows(cfg: Config, nest: nat, x: Src, j: nat, at: Level, tr: seq<Id>)
    requires x.Choose? && SoundClause(x) && UserParts(x) && 0 < j && j + 2 < Exit(x) && CalmFrom(cfg, |tr|)
    requires SlotTree(x, j) == Leaf(CondJump(1, 2, 3, Exit(x)))
    ensures Grown(x, j, tr, LateNode(cfg, nest, Box(Slots(x)), CondJump(1, 2, 3, Exit(x)), [j], at, tr))
    decreases Exit(x) - j, 0
  {
    hide Slots, LateCall, LateNode, SlotTree, SoundClause, UserParts;
    LateChunkMeans(cfg, nest, x, j, at, tr);
    LateGrows(cfg, nest, x, [j], j + 1, at, tr);
    var c := LateCall(cfg, nest, Box(Slots(x)), [j], [j + 1], at, tr);
    if c.out == Ret(true) {
      ChunkCond(cfg, nest, x, j, at, tr);
      if j + 3 < Exit(x) {
        LateGrows(cfg, nest, x, c.land, j + 3, at, c.trace);
      } else {
        LateExit(cfg, nest, x, c.land, at, c.trace);
      }
    }
  }

  lemma ChunkCond(cfg: Config, nest: nat, x: Src, j: nat, at: Level, tr: seq<Id>)
    requires x.Choose? && SoundClause(x) && j + 2 < Exit(x) && SlotTree(x, j) == Leaf(CondJump(1, 2, 3, Exit(x)))
    ensures var c := LateCall(cfg, nest, Box(Slots(x)), [j], [j + 1], at, tr);
            c.out.Ret? ==> c.land == [j + 1] && OffsetCopy(c.land, 2) == [j + 3]
  {
    hide Slots, SlotTree, LateCall, LateNode, SoundClause;
    ChunkTest(x, j);
    NextSlot(x, j + 1);
    LateLeaf(cfg, nest, x, [j], j + 1, at, tr);
    if at.depth < cfg.ovf && nest > 0 {
      LatePlain(cfg, nest - 1, x, SlotTree(x, j + 1).node, j + 1, Deeper(at), tr);
    }
  }

  lemma ChunkTest(x: Src, j: nat)
    requires x.Choose? && SoundClause(x) && j + 2 < Exit(x) && SlotTree(x, j) == Leaf(CondJump(1, 2, 3, Exit(x)))
    ensures SlotTree(x, j + 1).Leaf? && SlotTree(x, j + 1).node.Act?
  {
    assert PartIn(x, j).None? && CondIn(x, j).None?;
    ChunkNumber(x, j);
    ChooseSlots(x, j / 3);
  }

  lemma LateExit(cfg: Config, nest: nat, x: Src, here: Path, at: Level, tr: seq<Id>)
    requires IsClause(x) && here != []
    ensures var r := LateCall(cfg, nest, Box(Slots(x)), here, [Exit(x)], at, tr);
            && (at.depth < cfg.ovf && nest > 0 ==> r == Late(OK, [Exit(x)], tr))
            && (r.out.Ret? ==> at.depth < cfg.ovf && nest > 0)
  {
    LateLeaf(cfg, nest, x, here, Exit(x), at, tr);
    hide Slots, LateCall;
  }

  // ----- flow through the slots -----

  lemma ExitFlow(cfg: Config, s: Src, at: Level, fuel: nat, tr: seq<Id>)
    requires IsClause(s)
    ensures ActualFrom(cfg, s, [Exit(s)], at, fuel, tr) == ActualOn(cfg, s, Exit(s), at, fuel, tr) == Result(Normal, tr)
  {
  }

  /** Flow standing at slot `m` of the clause goes on behind it when it is through. */
  lemma WithinInner(cfg: Config, s: Src, k: nat, m: nat, at: Level, fuel: nat, tr: seq<Id>)
    requires ClauseInTry(s, k)
    ensures var r := ActualOn(cfg, PartIn(s, k).value, m, at, fuel, tr);
            ActualFrom(cfg, s, [k, m], at, fuel, tr)
            == if r.out.Normal? then ActualOn(cfg, s, k + 1, at, fuel, r.trace) else r
  {
    hide ActualOn;
    assert [k, m][1..] == [m];
  }

  lemma FinInFlow(cfg: Config, s: Src, at: Level, fuel: nat, tr: seq<Id>)
    requires s.Attempt? && s.fin.Some? && s.fin.value.Work?
    ensures var f := Observe(cfg, s.fin.value.id, tr);
            ActualOn(cfg, s, FinSlot(s), at, fuel, tr) == if f.out.Normal? then Result(Normal, f.trace) else f
  {
    assert PartIn(s, FinSlot(s)) == s.fin;
    var f := Observe(cfg, s.fin.value.id, tr);
    assert ActualOn(cfg, s, Exit(s), at, fuel, f.trace) == Result(Normal, f.trace);
  }

  /** Flow through slots of user nodes executes every one of them. */
  lemma {:induction false} FlowGrows(cfg: Config, s: Src, j: nat, at: Level, fuel: nat, tr: seq<Id>)
    requires s.Attempt? && 0 < j <= Exit(s) && CalmFrom(cfg, |tr|)
    requires forall i | j <= i < Exit(s) && PartIn(s, i).Some? :: PartIn(s, i).value.Work?
    ensures var r := ActualOn(cfg, s, j, at, fuel, tr);
            r.out.Normal? && |r.trace| == |tr| + (Exit(s) - j)
    decreases Exit(s) - j
  {
    if j < Exit(s) {
      TrySlotFull(s, j);
      var id := PartIn(s, j).value.id;
      assert cfg.oracle(tr + [id]).Ret?;
      FlowGrows(cfg, s, j + 1, at, fuel, tr + [id]);
    }
  }

  lemma {:induction false} ChooseGrows(cfg: Config, arms: seq<Arm>, els: Option<Src>, at: Level, tr: seq<Id>)
    requires (forall k | 0 <= k < |arms| :: arms[k].body.Work?) && (els.Some? ==> els.value.Work?)
    ensures var r := EvalChoose(cfg, arms, els, at, tr);
            |r.trace| >= |tr| + if at.depth < cfg.ovf && (arms != [] || els.Some?) then 1 else 0
    ensures CalmFrom(cfg, |tr|) && at.depth < cfg.ovf ==> EvalChoose(cfg, arms, els, at, tr).out.Normal?
    decreases |arms|
  {
    if arms != [] && at.depth < cfg.ovf {
      ChooseGrows(cfg, arms[1..], els, at, tr + [arms[0].cond]);
    }
  }

  lemma {:induction false} RepeatGrows(cfg: Config, x: Src, at: Level, fuel: nat, tr: seq<Id>)
    requires x.Repeat? && x.body.Work? && at.depth < cfg.ovf && cfg.nest > 0
    ensures |Actual(cfg, x, at, fuel, tr).trace| > |tr|
    decreases fuel
  {
    var tr1 := tr + [x.cond];
    var r := CallPart(cfg, cfg.nest, x.body, at, tr1);
    assert r.land.None? && |r.trace| >= |tr1|;
    RepeatSlots(cfg, x, at, fuel, tr1);
    RepeatSlots(cfg, x, at, fuel, r.trace);
    if fuel > 0 {
      RepeatGrows(cfg, x, at, fuel - 1, r.trace);
    }
  }

  /** Flow through a clause of user nodes never shortens the trace, and a WHILE's check-up leads to a condition. */
  lemma {:induction false} SlotsGrow(cfg: Config, x: Src, m: nat, at: Level, fuel: nat, tr: seq<Id>)
    requires IsClause(x) && SoundClause(x) && UserParts(x) && 0 < m <= Exit(x) && at.depth < cfg.ovf && cfg.nest > 0
    ensures var r := ActualOn(cfg, x, m, at, fuel, tr);
            |r.trace| >= |tr| && (x.Repeat? && m == 3 && r.out.Normal? ==> |r.trace| > |tr|)
    decreases Exit(x) - m
  {
    hide Actual, EvalChoose, SoundClause;
    if m < Exit(x) {
      if PartIn(x, m).Some? {
        var id := PartIn(x, m).value.id;
        SlotsGrow(cfg, x, m + 1, at, fuel, tr + [id]);
      } else if CondIn(x, m).Some? {
        SlotsGrow(cfg, x, m + 1, at, fuel, tr + [CondIn(x, m).value]);
      } else if x.Choose? {
        UserArms(x);
        var arms := x.arms[if m / 3 < |x.arms| then m / 3 else |x.arms|..];
        ChooseGrows(cfg, arms, x.els, at, tr);
      } else if x.Repeat? && fuel > 0 {
        assert PartIn(x, 2) == Some(x.body);
        RepeatGrows(cfg, x, at, fuel - 1, tr);
      }
    }
  }

  lemma UserArms(x: Src)
    requires x.Choose? && UserParts(x)
    ensures (forall k | 0 <= k < |x.arms| :: x.arms[k].body.Work?) && (x.els.Some? ==> x.els.value.Work?)
  {
    forall k | 0 <= k < |x.arms|
      ensures x.arms[k].body.Work?
    {
      assert PartIn(x, 3 * k + 2) == Some(x.arms[k].body);
    }
    if x.els.Some? {
      assert PartIn(x, 3 * |x.arms| + 1) == x.els;
    }
  }

  // ----- the slots that keep the meaning -----

  /** The slot before FINALLY, with the numbers agreeing: nothing is executed twice, and nothing is left out. */
  lemma CoincidesKeeps(cfg: Config, s: Src, k: nat, at: Level, fuel: nat, tr: seq<Id>)
    requires ClauseInTry(s, k) && Coincides(s, k) && Whole(PartIn(s, k).value) && cfg.nest > 1
    ensures Actual(cfg, s, at, fuel, tr) == Ideal(cfg, s, at, fuel, tr)
  {
    var x := PartIn(s, k).value;
    TryHeadMeans(cfg, cfg.nest, s, at, tr);
    assert PartIn(s, 1) == Some(s.body) && PartIn(s, FinSlot(s)) == s.fin;
    UserSlot(cfg, cfg.nest, s, 1, at, fuel, tr);
    var r := CallSlot(cfg, cfg.nest, s, 1, None, at, tr);
    var next := Second(cfg, s, r.exn);
    hide CallHead, CallSlot, IdealCall, Slots, Second, ActualFrom;
    if next.None? {
      UserSlot(cfg, cfg.nest, s, FinSlot(s), at, fuel, r.trace);
      ExitFlow(cfg, s, at, fuel, CallSlot(cfg, cfg.nest, s, FinSlot(s), None, at, r.trace).trace);
    } else if next.value != k {
      UserSlot(cfg, cfg.nest, s, next.value, at, fuel, r.trace);
      var r2 := CallSlot(cfg, cfg.nest, s, next.value, None, at, r.trace);
      UserSlot(cfg, cfg.nest, s, FinSlot(s), at, fuel, r2.trace);
      ExitFlow(cfg, s, at, fuel, CallSlot(cfg, cfg.nest, s, FinSlot(s), None, at, r2.trace).trace);
    } else {
      WholeSlot(cfg, cfg.nest, s, k, at, fuel, r.trace);
      var i := IdealCall(cfg, x, at, fuel, r.trace);
      UserSlot(cfg, cfg.nest, s, FinSlot(s), at, fuel, i.trace);
      if i.out.Normal? {
        LateBeside(cfg, cfg.nest, s, k, Exit(x), FinSlot(s), at, i.trace);
        WithinInner(cfg, s, k, FinSlot(s), at, fuel, i.trace);
        ExitFlow(cfg, x, at, fuel, i.trace);
        FinInFlow(cfg, s, at, fuel, i.trace);
      }
    }
  }

  lemma LastTidy(s: Src, k: nat)
    requires ClauseInTry(s, k) && Whole(PartIn(s, k).value) && k + 1 == Exit(s)
    ensures SoundClause(s) && StructuredClause(s) && forall n | n > 1 :: FitsHead(s, n)
  {
    var x := PartIn(s, k).value;
    assert SoundPart(x);
    UserTidy(x);
    assert k > 1 by {
      assert s.catches != [] || s.fin.Some?;
    }
    forall j | 0 <= j < Exit(s) && PartIn(s, j).Some? && IsClause(PartIn(s, j).value)
      ensures 1 < j == Exit(s) - 1 && Tidy(PartIn(s, j).value)
    {
      assert j == k;
    }
    forall n | n > 1
      ensures FitsHead(s, n)
    {
      assert FitsHead(x, n - 1);
    }
  }

  // ----- any clause as the last part -----

  /** With room left, one stack entry more or less changes nothing. */
  lemma {:induction false} RoomChoose(cfg: Config, arms: seq<Arm>, els: Option<Src>, at: Level, tr: seq<Id>)
    requires at.depth + 1 < cfg.ovf
    ensures EvalChoose(cfg, arms, els, Deeper(at), tr) == EvalChoose(cfg, arms, els, at, tr)
    decreases |arms|
  {
    if arms != [] {
      RoomChoose(cfg, arms[1..], els, at, tr + [arms[0].cond]);
    }
  }

  lemma {:induction false} RoomRepeat(cfg: Config, x: Src, at: Level, fuel: nat, tr: seq<Id>)
    requires x.Repeat? && x.body.Work? && at.depth + 1 < cfg.ovf
    ensures Ideal(cfg, x, Deeper(at), fuel, tr) == Ideal(cfg, x, at, fuel, tr)
    decreases fuel
  {
    var tr1 := tr + [x.cond];
    if fuel > 0 {
      RoomRepeat(cfg, x, at, fuel - 1, tr1 + [x.body.id]);
    }
  }

  /** Head and flow together do what the clause means, when the call that runs the head is the last one. */
  lemma HeadThenFlow(cfg: Config, x: Src, at: Level, fuel: nat, tr: seq<Id>)
    requires IsClause(x) && SoundClause(x) && UserParts(x) && at.depth + 1 < cfg.ovf && cfg.nest > 1
    ensures var r := CallPart(cfg, cfg.nest, x, at, tr);
            var i := IdealCall(cfg, x, at, fuel, tr);
            && (r.exn.Some? ==> r.land.None? && i == Result(Err(r.exn.value), r.trace))
            && (r.exn.None? ==> r.land.Some? && ActualFrom(cfg, x, r.land.value, at, fuel, r.trace) == i)
  {
    match x
    case Choose(_, _) => ChooseThenFlow(cfg, x, at, fuel, tr);
    case Repeat(_, _) => RepeatThenFlow(cfg, x, at, fuel, tr);
    case Attempt(_, _, _, _) =>
      UserTidy(x);
      TidyPart(cfg, cfg.nest, x, at, fuel, tr);
      WholeLands(cfg, cfg.nest, x, at, tr);
      ExitFlow(cfg, x, at, fuel, CallPart(cfg, cfg.nest, x, at, tr).trace);
  }

  lemma ChooseThenFlow(cfg: Config, x: Src, at: Level, fuel: nat, tr: seq<Id>)
    requires x.Choose? && SoundClause(x) && at.depth + 1 < cfg.ovf && cfg.nest > 1
    ensures var r := CallPart(cfg, cfg.nest, x, at, tr);
            var i := EvalChoose(cfg, x.arms, x.els, Deeper(at), tr);
            && (r.exn.Some? ==> r.land.None? && i == Result(Err(r.exn.value), r.trace))
            && (r.exn.None? ==> r.land.Some? && ActualFrom(cfg, x, r.land.value, at, fuel, r.trace) == i)
  {
    var Arm(c, body) := x.arms[0];
    assert PartIn(x, 2) == Some(body) && Callable(body);
    var tr1 := tr + [c];
    if cfg.oracle(tr1) == Ret(false) {
      RoomChoose(cfg, x.arms[1..], x.els, at, tr1);
      assert ActualFrom(cfg, x, [3], at, fuel, tr1) == ActualOn(cfg, x, 3, at, fuel, tr1);
      if |x.arms| == 1 && x.els.None? {
        assert Exit(x) == 3 && x.arms[1..] == [];
      } else if |x.arms| == 1 {
        assert x.arms[1..] == [] && PartIn(x, 3).None? && CondIn(x, 3).None?;
      } else {
        assert 3 / 3 == 1 && 3 % 3 == 0 && PartIn(x, 3).None? && CondIn(x, 3).None?;
      }
    } else if cfg.oracle(tr1) == Ret(true) {
      var r := EvalCalled(cfg, body, Deeper(at), tr1);
      assert CallPart(cfg, cfg.nest - 1, body, Deeper(at), tr1) == Called(Failure(r.out), None, r.trace);
      ExitFlow(cfg, x, at, fuel, r.trace);
    }
  }

  lemma RepeatThenFlow(cfg: Config, x: Src, at: Level, fuel: nat, tr: seq<Id>)
    requires x.Repeat? && SoundClause(x) && UserParts(x) && at.depth + 1 < cfg.ovf && cfg.nest > 1
    ensures var r := CallPart(cfg, cfg.nest, x, at, tr);
            var i := Ideal(cfg, x, Deeper(at), fuel, tr);
            && (r.exn.Some? ==> r.land.None? && i == Result(Err(r.exn.value), r.trace))
            && (r.exn.None? ==> r.land.Some? && ActualFrom(cfg, x, r.land.value, at, fuel, r.trace) == i)
  {
    assert PartIn(x, 2) == Some(x.body) && x.body.Work?;
    assert FitsHead(x, cfg.nest);
    var tr1 := tr + [x.cond];
    RepeatSlots(cfg, x, at, fuel, tr1);
    if cfg.oracle(tr1) == Ret(true) {
      var r := EvalCalled(cfg, x.body, Deeper(at), tr1);
      assert CallPart(cfg, cfg.nest - 1, x.body, Deeper(at), tr1) == Called(Failure(r.out), None, r.trace);
      RepeatSlots(cfg, x, at, fuel, r.trace);
      if fuel > 0 && r.out.Normal? {
        StructuredActual(cfg, x, at, fuel - 1, r.trace);
        RoomRepeat(cfg, x, at, fuel - 1, r.trace);
      }
    }
  }

  /** Calling the last slot, and flow going on where that leads. */
  lemma LastSlot(cfg: Config, s: Src, k: nat, at: Level, fuel: nat, tr: seq<Id>)
    requires ClauseInTry(s, k) && k + 1 == Exit(s) && at.depth + 1 < cfg.ovf && cfg.nest > 1
    ensures var r := CallSlot(cfg, cfg.nest, s, k, None, at, tr);
            var i := IdealCall(cfg, PartIn(s, k).value, at, fuel, tr);
            && (r.exn.Some? ==> r.land.None? && i == Result(Err(r.exn.value), r.trace))
            && (r.exn.None? ==> r.land.Some? && ActualFrom(cfg, s, r.land.value, at, fuel, r.trace) == i)
  {
    var x := PartIn(s, k).value;
    assert SoundPart(x);
    HeadThenFlow(cfg, x, at, fuel, tr);
    hide CallPart, IdealCall, ActualOn;
    var r := CallPart(cfg, cfg.nest, x, at, tr);
    if r.land.Some? {
      var pos := [k] + r.land.value;
      assert pos[1..] == r.land.value && |pos| > 1;
      var i := ActualFrom(cfg, x, r.land.value, at, fuel, r.trace);
      ExitFlow(cfg, s, at, fuel, i.trace);
    }
  }

  /** The last part, when it is a handler or THEN. */
  lemma LastHandlerKeeps(cfg: Config, s: Src, k: nat, at: Level, fuel: nat, tr: seq<Id>)
    requires ClauseInTry(s, k) && k + 1 == Exit(s) && s.fin.None? && at.depth + 1 < cfg.ovf && cfg.nest > 1
    ensures Actual(cfg, s, at, fuel, tr) == Ideal(cfg, s, at, fuel, tr)
  {
    TryHeadMeans(cfg, cfg.nest, s, at, tr);
    assert PartIn(s, 1) == Some(s.body) && s.catches != [];
    UserSlot(cfg, cfg.nest, s, 1, at, fuel, tr);
    var r := CallSlot(cfg, cfg.nest, s, 1, None, at, tr);
    var next := Second(cfg, s, r.exn);
    hide CallHead, CallSlot, IdealCall, Slots, Second, ActualFrom, CallPart;
    if next == Some(k) {
      LastSlot(cfg, s, k, at, fuel, r.trace);
    } else if next.Some? {
      UserSlot(cfg, cfg.nest, s, next.value, at, fuel, r.trace);
      ExitFlow(cfg, s, at, fuel, CallSlot(cfg, cfg.nest, s, next.value, None, at, r.trace).trace);
    } else {
      ExitFlow(cfg, s, at, fuel, r.trace);
    }
  }

  /**
   Any clause as the last part: the machine does what the author reads, unless
   it is the FINALLY and an exception is pending; then only its head runs.
   */
  lemma LastPartKeeps(cfg: Config, s: Src, k: nat, at: Level, fuel: nat, tr: seq<Id>)
    requires ClauseInTry(s, k) && k + 1 == Exit(s) && at.depth + 1 < cfg.ovf && cfg.nest > 1
    ensures s.fin.None? || Ideal(cfg, s.(fin := None), at, fuel, tr).out.Normal? ==>
              Actual(cfg, s, at, fuel, tr) == Ideal(cfg, s, at, fuel, tr)
    ensures var pending := Ideal(cfg, s.(fin := None), at, fuel, tr);
            s.fin.Some? && pending.out.Err? ==>
              var f := CallPart(cfg, cfg.nest, s.fin.value, at, pending.trace);
              && Actual(cfg, s, at, fuel, tr) == Result(if f.exn.Some? then Err(f.exn.value) else pending.out, f.trace)
  {
    if s.fin.None? {
      LastHandlerKeeps(cfg, s, k, at, fuel, tr);
    } else {
      TryHeadMeans(cfg, cfg.nest, s, at, tr);
      assert PartIn(s, 1) == Some(s.body) && PartIn(s, FinSlot(s)) == s.fin && k == FinSlot(s);
      UserSlot(cfg, cfg.nest, s, 1, at, fuel, tr);
      var r := CallSlot(cfg, cfg.nest, s, 1, None, at, tr);
      var next := Second(cfg, s, r.exn);
      assert next == Second(cfg, s.(fin := None), r.exn);
      assert next.Some? ==> PartIn(s.(fin := None), next.value) == PartIn(s, next.value);
      hide CallHead, IdealCall, Slots, Second, ActualFrom, CallPart;
      var r2 := r;
      if next.Some? {
        UserSlot(cfg, cfg.nest, s, next.value, at, fuel, r.trace);
        r2 := CallSlot(cfg, cfg.nest, s, next.value, None, at, r.trace);
      }
      LastSlot(cfg, s, k, at, fuel, r2.trace);
    }
  }

  // ----- the slots that do not -----

  /** What an oracle has the first condition of a clause say, so that the clause is done when its head is. */
  function Prompting(x: Src): Outcome {
    Ret(!x.Repeat?)
  }

  predicate HasCond(x: Src) {
    x.Repeat? || (x.Choose? && x.arms != [])
  }

  function FirstCond(x: Src): Id
    requires HasCond(x)
  {
    if x.Repeat? then x.cond else x.arms[0].cond
  }

  /** The head of the clause does all its work and jumps to the closing NOP. */
  lemma DoneSlot(cfg: Config, s: Src, k: nat, at: Level, fuel: nat, tr: seq<Id>) returns (end: seq<Id>)
    requires ClauseInTry(s, k) && CalmFrom(cfg, |tr|) && at.depth + 1 < cfg.ovf && cfg.nest > 1
    requires var x := PartIn(s, k).value; HasCond(x) ==> cfg.oracle(tr + [FirstCond(x)]) == Prompting(x)
    ensures var x := PartIn(s, k).value;
            && CallSlot(cfg, cfg.nest, s, k, None, at, tr) == Called(None, Some([k, Exit(x)]), end)
            && IdealCall(cfg, x, at, fuel, tr) == Result(Normal, end) && |end| > |tr| && Exit(x) >= 3
  {
    var x := PartIn(s, k).value;
    assert SoundPart(x) && SoundClause(x);
    match x
    case Choose(arms, _) =>
      assert PartIn(x, 2) == Some(arms[0].body);
      end := tr + [arms[0].cond] + [arms[0].body.id];
      assert cfg.oracle(end).Ret?;
      assert CallPart(cfg, cfg.nest - 1, arms[0].body, Deeper(at), tr + [arms[0].cond]) == Called(None, None, end);
      assert CallPart(cfg, cfg.nest, x, at, tr) == Called(None, Some([Exit(x)]), end);
      assert [k] + [Exit(x)] == [k, Exit(x)];
    case Repeat(c, _) =>
      end := tr + [c];
      assert CallPart(cfg, cfg.nest, x, at, tr) == Called(None, Some([4]), end);
      assert [k] + [4] == [k, 4];
    case Attempt(_, _, _, _) =>
      WholeSlot(cfg, cfg.nest, s, k, at, fuel, tr);
      CalmIdeal(cfg, x, at, fuel, tr);
      end := IdealCall(cfg, x, at, fuel, tr).trace;
      assert x.catches != [] || x.fin.Some?;
  }

  /** What a Try of user nodes adds to the trace when nothing raises. */
  lemma CalmIdeal(cfg: Config, x: Src, at: Level, fuel: nat, tr: seq<Id>)
    requires x.Attempt? && UserParts(x) && CalmFrom(cfg, |tr|) && at.depth + 1 < cfg.ovf
    ensures var i := IdealCall(cfg, x, at, fuel, tr);
            i.out.Normal? && |i.trace| > |tr|
  {
    assert PartIn(x, 1) == Some(x.body);
    var tr1 := tr + [x.body.id];
    assert cfg.oracle(tr1).Ret?;
    assert IdealCall(cfg, x.body, Deeper(at), fuel, tr) == Result(Normal, tr1);
    assert x.thn.Some? ==> PartIn(x, ThnSlot(x)) == x.thn;
    var tr2 := if x.thn.Some? then tr1 + [x.thn.value.id] else tr1;
    if x.thn.Some? {
      assert cfg.oracle(tr2).Ret?;
      assert IdealCall(cfg, x.thn.value, Deeper(at), fuel, tr1) == Result(Normal, tr2);
    }
    if x.fin.Some? {
      assert PartIn(x, FinSlot(x)) == x.fin;
      assert cfg.oracle(tr2 + [x.fin.value.id]).Ret?;
      assert IdealCall(cfg, x.fin.value, Deeper(at), fuel, tr2) == Result(Normal, tr2 + [x.fin.value.id]);
    }
  }

  /** With the jump into the clause pending, what FINALLY does comes on top; then flow goes on behind the clause. */
  lemma LateRuns(cfg: Config, s: Src, k: nat, m: nat, at: Level, fuel: nat, tr: seq<Id>, r: Called)
    requires ClauseInTry(s, k) && 0 < m <= Exit(PartIn(s, k).value) && at.depth < cfg.ovf && cfg.nest > 0
    requires CalmFrom(cfg, |tr|) && r == Finished(cfg, cfg.nest, s, Called(None, Some([k, m]), tr), at)
    ensures var x := PartIn(s, k).value;
            && (s.fin.Some? && FinSlot(s) > Exit(x) ==> r.exn.Some?)
            && (r.exn.None? && ActualFrom(cfg, s, r.land.value, at, fuel, r.trace).out.Normal? ==>
                  |ActualFrom(cfg, s, r.land.value, at, fuel, r.trace).trace|
                  >= |tr| + (Exit(s) - (k + 1)) + if s.fin.Some? && FinSlot(s) < Exit(x) then 1 else 0)
  {
    var x := PartIn(s, k).value;
    assert SoundPart(x);
    if s.fin.None? {
      BehindClause(cfg, s, k, m, at, fuel, tr);
    } else {
      assert PartIn(s, FinSlot(s)) == s.fin;
      var f := CallSlot(cfg, cfg.nest, s, FinSlot(s), Some([k, m]), at, tr);
      var late := LateCall(cfg, cfg.nest, Box(Slots(x)), [m], [FinSlot(s)], at, tr);
      if FinSlot(s) >= Exit(x) {
        LateBeside(cfg, cfg.nest, s, k, m, FinSlot(s), at, tr);
        BehindClause(cfg, s, k, Exit(x), at, fuel, tr);
      } else {
        LateSlotAt(cfg, cfg.nest, s, k, m, FinSlot(s), at, tr);
        LateGrows(cfg, cfg.nest, x, [m], FinSlot(s), at, tr);
        if f.exn.None? {
          assert [k] + late.land == [k, late.land[0]];
          BehindClause(cfg, s, k, late.land[0], at, fuel, late.trace);
        }
      }
    }
  }

  /** Flow from slot `m` of the clause to the end of the Try around it. */
  lemma BehindClause(cfg: Config, s: Src, k: nat, m: nat, at: Level, fuel: nat, tr: seq<Id>)
    requires ClauseInTry(s, k) && SoundClause(PartIn(s, k).value) && 0 < m <= Exit(PartIn(s, k).value)
    requires CalmFrom(cfg, |tr|) && at.depth < cfg.ovf && cfg.nest > 0
    ensures var x := PartIn(s, k).value;
            var r := ActualFrom(cfg, s, [k, m], at, fuel, tr);
            r.out.Normal? ==> |r.trace| >= |tr| + (Exit(s) - (k + 1)) + if x.Repeat? && m == 3 then 1 else 0
  {
    var x := PartIn(s, k).value;
    WithinInner(cfg, s, k, m, at, fuel, tr);
    SlotsGrow(cfg, x, m, at, fuel, tr);
    hide ActualOn, ActualFrom, SoundClause;
    var inner := ActualOn(cfg, x, m, at, fuel, tr);
    FlowGrows(cfg, s, k + 1, at, fuel, inner.trace);
  }

  /** A clause as the tried node: what comes after it is executed, handlers included. */
  lemma BodyDiffers(cfg: Config, s: Src, at: Level, fuel: nat)
    requires ClauseInTry(s, 1) && at.depth + 1 < cfg.ovf && cfg.nest > 1
    requires forall h :: cfg.oracle(h) == Prompting(PartIn(s, 1).value)
    ensures Actual(cfg, s, at, fuel, []) != Ideal(cfg, s, at, fuel, [])
  {
    var x := PartIn(s, 1).value;
    assert s.body == x && SoundPart(x) && SoundClause(x);
    TryHeadMeans(cfg, cfg.nest, s, at, []);
    var T := DoneSlot(cfg, s, 1, at, fuel, []);
    BodyIdeal(cfg, s, at, fuel, T);
    hide CallHead, CallSlot, Finished, IdealCall, Slots, ActualFrom, SoundClause;
    var r2, m := Called(None, Some([1, Exit(x)]), T), Exit(x);
    if s.thn.Some? {
      r2 := CallSlot(cfg, cfg.nest, s, ThnSlot(s), Some([1, Exit(x)]), at, T);
      m := LateThen(cfg, s, at, T);
    }
    var r := Finished(cfg, cfg.nest, s, r2, at);
    if r2.exn.Some? {
      FailedFinish(cfg, cfg.nest, s, r2, at);
    } else {
      LateRuns(cfg, s, 1, m, at, fuel, r2.trace, r);
      assert s.catches != [] || s.fin.Some?;
    }
  }

  /** THEN called after the tried clause has jumped: with no CATCH before it, a node of the clause is executed. */
  lemma LateThen(cfg: Config, s: Src, at: Level, tr: seq<Id>) returns (m: nat)
    requires ClauseInTry(s, 1) && s.thn.Some? && at.depth + 1 < cfg.ovf && cfg.nest > 1 && CalmFrom(cfg, |tr|)
    requires SoundClause(PartIn(s, 1).value) && Exit(PartIn(s, 1).value) >= 3
    ensures PartIn(s, ThnSlot(s)) == s.thn
    ensures var x := PartIn(s, 1).value;
            var r := CallSlot(cfg, cfg.nest, s, ThnSlot(s), Some([1, Exit(x)]), at, tr);
            r.exn.None? ==> r.land == Some([1, m]) && 0 < m <= Exit(x) && |r.trace| >= |tr|
                            && (s.catches == [] ==> |r.trace| > |tr|)
  {
    hide CallSlot, LateCall, Slots, SoundClause, CalmFrom;
    var x, j := PartIn(s, 1).value, ThnSlot(s);
    m := Exit(x);
    assert PartIn(s, j) == s.thn;
    if j >= m {
      LateBeside(cfg, cfg.nest, s, 1, m, j, at, tr);
    } else {
      LateSlotAt(cfg, cfg.nest, s, 1, m, j, at, tr);
      LateGrows(cfg, cfg.nest, x, [m], j, at, tr);
      var late := LateCall(cfg, cfg.nest, Box(Slots(x)), [m], [j], at, tr);
      if late.out.Ret? {
        assert [1] + late.land == [1, late.land[0]];
        m := late.land[0];
      }
    }
  }

  lemma FailedFinish(cfg: Config, nest: nat, s: Src, r: Called, at: Level)
    requires s.Attempt? && r.exn.Some? && (r.land.Some? ==> InPart(s, r.land.value))
    ensures Finished(cfg, nest, s, r, at).exn.Some?
  {
    hide CallSlot;
  }

  /** What its author reads, once the tried node has completed with trace `tr`. */
  lemma BodyIdeal(cfg: Config, s: Src, at: Level, fuel: nat, tr: seq<Id>)
    requires ClauseInTry(s, 1) && CalmFrom(cfg, |tr|) && at.depth < cfg.ovf
    requires IdealCall(cfg, s.body, at, fuel, []) == Result(Normal, tr)
    ensures var i := Ideal(cfg, s, at, fuel, []);
            i.out.Normal? && |i.trace| == |tr| + (if s.thn.Some? then 1 else 0) + (if s.fin.Some? then 1 else 0)
  {
    var tr2 := tr;
    if s.thn.Some? {
      assert PartIn(s, ThnSlot(s)) == s.thn;
      IdealUser(cfg, s, ThnSlot(s), at, fuel, tr);
      tr2 := tr + [s.thn.value.id];
    }
    if s.fin.Some? {
      assert PartIn(s, FinSlot(s)) == s.fin;
      IdealUser(cfg, s, FinSlot(s), at, fuel, tr2);
    }
  }

  lemma IdealUser(cfg: Config, s: Src, j: nat, at: Level, fuel: nat, tr: seq<Id>)
    requires s.Attempt? && PartIn(s, j).Some? && PartIn(s, j).value.Work? && CalmFrom(cfg, |tr|) && at.depth < cfg.ovf
    ensures IdealCall(cfg, PartIn(s, j).value, at, fuel, tr) == Result(Normal, tr + [PartIn(s, j).value.id])
  {
    assert cfg.oracle(tr + [PartIn(s, j).value.id]).Ret?;
  }

  /** The tried node has come to what slot `k` is called for. */
  ghost predicate CallsFor(cfg: Config, s: Src, k: nat)
    requires s.Attempt? && s.body.Work?
  {
    Second(cfg, s, Failure(Observe(cfg, s.body.id, []).out)) == Some(k)
  }

  /** The outer worker up to the call of slot `k`, and what its author reads up to there. */
  lemma SecondCalled(cfg: Config, s: Src, k: nat, at: Level, fuel: nat)
    requires ClauseInTry(s, k) && 1 < k && s.body.Work? && CallsFor(cfg, s, k) && at.depth < cfg.ovf && cfg.nest > 0
    ensures CallHead(cfg, cfg.nest, s, at, [])
         == Finished(cfg, cfg.nest, s, CallSlot(cfg, cfg.nest, s, k, None, at, [s.body.id]), at)
    ensures var i := IdealCall(cfg, PartIn(s, k).value, at, fuel, [s.body.id]);
            Ideal(cfg, s, at, fuel, [])
            == if s.fin.None? || !(i.out.Normal? || i.out.Err?) then i
               else
                 var f := IdealCall(cfg, s.fin.value, at, fuel, i.trace);
                 if f.out.Normal? then Result(i.out, f.trace) else f
  {
    assert [] + [s.body.id] == [s.body.id];
    assert PartIn(s, 1) == Some(s.body);
    TryHeadMeans(cfg, cfg.nest, s, at, []);
    UserSlot(cfg, cfg.nest, s, 1, at, fuel, []);
    hide CallHead, CallSlot, Finished, Second, IdealCall;
  }

  /** A clause as a handler or THEN with something after it. */
  lemma LaterDiffers(cfg: Config, s: Src, k: nat, at: Level, fuel: nat)
    requires ClauseInTry(s, k) && 1 < k < Exit(s) - 1 && !Coincides(s, k)
    requires CalmFrom(cfg, 1) && at.depth + 1 < cfg.ovf && cfg.nest > 1 && s.body.Work? && CallsFor(cfg, s, k)
    requires var x := PartIn(s, k).value;
             HasCond(x) ==> cfg.oracle([s.body.id] + [FirstCond(x)]) == Prompting(x)
    ensures Actual(cfg, s, at, fuel, []) != Ideal(cfg, s, at, fuel, [])
  {
    var x := PartIn(s, k).value;
    SecondCalled(cfg, s, k, at, fuel);
    var T := DoneSlot(cfg, s, k, at, fuel, [s.body.id]);
    if s.fin.Some? {
      assert PartIn(s, FinSlot(s)) == s.fin;
      IdealUser(cfg, s, FinSlot(s), at, fuel, T);
    }
    hide CallHead, CallSlot, Finished, IdealCall, Slots, ActualFrom, SoundClause;
    LateRuns(cfg, s, k, Exit(x), at, fuel, T,
             Finished(cfg, cfg.nest, s, Called(None, Some([k, Exit(x)]), T), at));
  }

  /** What the head of a clause that is not whole has executed when its first condition sends it on. */
  function Begun(x: Src, tr: seq<Id>): seq<Id>
    requires HasCond(x) && (x.Repeat? ==> x.body.Work?)
  {
    if x.Repeat? then tr + [x.cond] + [x.body.id] else tr + [x.arms[0].cond]
  }

  /** Such a clause has more to do when its head has run. */
  lemma BegunPart(cfg: Config, x: Src, at: Level, fuel: nat, tr: seq<Id>)
    requires IsClause(x) && SoundClause(x) && UserParts(x) && !Whole(x)
    requires CalmFrom(cfg, |tr|) && at.depth + 1 < cfg.ovf && cfg.nest > 1
    requires HasCond(x) ==> cfg.oracle(tr + [FirstCond(x)]) == Ret(x.Repeat?)
    ensures HasCond(x) && (x.Repeat? ==> x.body.Work?)
    ensures CallPart(cfg, cfg.nest, x, at, tr) == Called(None, Some([3]), Begun(x, tr))
    ensures var i := IdealCall(cfg, x, at, fuel, tr);
            |Begun(x, tr)| > |tr| && (i.out.Timeout? || |i.trace| > |Begun(x, tr)|)
  {
    if x.Repeat? {
      assert PartIn(x, 2) == Some(x.body);
      var tr2 := tr + [x.cond] + [x.body.id];
      assert cfg.oracle(tr2).Ret?;
      assert CallPart(cfg, cfg.nest - 1, x.body, Deeper(at), tr + [x.cond]) == Called(None, None, tr2);
      assert IdealCall(cfg, x.body, Deeper(at), fuel, tr + [x.cond]) == Result(Normal, tr2);
      if fuel > 0 {
        IdealGrows(cfg, x, Deeper(at), fuel - 1, tr2);
      }
    } else {
      UserArms(x);
      ChooseGrows(cfg, x.arms[1..], x.els, Deeper(at), tr + [x.arms[0].cond]);
    }
  }

  lemma {:induction false} IdealGrows(cfg: Config, x: Src, at: Level, fuel: nat, tr: seq<Id>)
    requires x.Repeat? && x.body.Work? && at.depth < cfg.ovf
    ensures |Ideal(cfg, x, at, fuel, tr).trace| > |tr|
    decreases fuel
  {
    if fuel > 0 {
      IdealGrows(cfg, x, at, fuel - 1, tr + [x.cond] + [x.body.id]);
    }
  }

  /** A clause with work left when FINALLY is called, found harmless: the rest of its work is left out. */
  lemma CoincidesDiffers(cfg: Config, s: Src, k: nat, at: Level, fuel: nat)
    requires ClauseInTry(s, k) && Coincides(s, k) && !Whole(PartIn(s, k).value)
    requires CalmFrom(cfg, 1) && at.depth + 1 < cfg.ovf && cfg.nest > 1 && s.body.Work? && CallsFor(cfg, s, k)
    requires var x := PartIn(s, k).value;
             HasCond(x) ==> cfg.oracle([s.body.id] + [FirstCond(x)]) == Ret(x.Repeat?)
    ensures Actual(cfg, s, at, fuel, []) != Ideal(cfg, s, at, fuel, [])
  {
    var x := PartIn(s, k).value;
    var tr := [s.body.id];
    assert SoundPart(x) && PartIn(s, FinSlot(s)) == s.fin;
    SecondCalled(cfg, s, k, at, fuel);
    BegunPart(cfg, x, at, fuel, tr);
    var T := Begun(x, tr);
    assert [k] + [3] == [k, 3];
    assert CallSlot(cfg, cfg.nest, s, k, None, at, tr) == Called(None, Some([k, 3]), T);
    LateBeside(cfg, cfg.nest, s, k, 3, FinSlot(s), at, T);
    WithinInner(cfg, s, k, FinSlot(s), at, fuel, T);
    ExitFlow(cfg, x, at, fuel, T);
    FinInFlow(cfg, s, at, fuel, T);
    hide CallHead, CallSlot, IdealCall, Slots, ActualFrom, ActualOn, SoundClause;
    var i := IdealCall(cfg, x, at, fuel, tr);
    if i.out.Normal? {
      IdealUser(cfg, s, FinSlot(s), at, fuel, i.trace);
    }
  }

  /** As FINALLY, a clause with work left when its head has run leaves it out if an exception is pending. */
  lemma FinallyDiffers(cfg: Config, s: Src, k: nat, at: Level, fuel: nat, e: Exn)
    requires ClauseInTry(s, k) && s.fin.Some? && k == FinSlot(s) && !Whole(PartIn(s, k).value)
    requires at.depth + 1 < cfg.ovf && cfg.nest > 1
    requires var n := if Second(cfg, s, Some(e)).Some? then 2 else 1;
             forall h :: cfg.oracle(h) == if |h| <= n then Throw(e) else Ret(|h| == n + 1 && PartIn(s, k).value.Repeat?)
    ensures Actual(cfg, s, at, fuel, []) != Ideal(cfg, s, at, fuel, [])
  {
    var x := PartIn(s, k).value;
    assert SoundPart(x) && PartIn(s, FinSlot(s)) == s.fin && PartIn(s, 1) == Some(s.body);
    var next := Second(cfg, s, Some(e));
    var tr1 := [] + [s.body.id];
    assert cfg.oracle(tr1) == Throw(e);
    var tr := if next.Some? then tr1 + [PartIn(s, next.value).value.id] else tr1;
    assert next.Some? ==> cfg.oracle(tr) == Throw(e);
    PendingRaises(cfg, s, at, fuel, e, tr);
    BegunPart(cfg, x, at, fuel, tr);
    hide Actual, CallHead, CallPart, IdealCall, SoundClause;
    LastPartKeeps(cfg, s, k, at, fuel, []);
  }

  lemma PendingRaises(cfg: Config, s: Src, at: Level, fuel: nat, e: Exn, tr: seq<Id>)
    requires s.Attempt? && s.fin.Some? && s.body.Work? && at.depth < cfg.ovf
    requires cfg.oracle([] + [s.body.id]) == Throw(e)
    requires match Second(cfg, s, Some(e))
             case None => tr == [] + [s.body.id]
             case Some(j) => PartIn(s, j).value.Work? && tr == [] + [s.body.id] + [PartIn(s, j).value.id]
                             && cfg.oracle(tr) == Throw(e)
    ensures Ideal(cfg, s.(fin := None), at, fuel, []) == Result(Err(e), tr)
    ensures var f := IdealCall(cfg, s.fin.value, at, fuel, tr);
            Ideal(cfg, s, at, fuel, []) == if f.out.Normal? then Result(Err(e), f.trace) else f
  {
    var next := Second(cfg, s, Some(e));
    assert next == Second(cfg, s.(fin := None), Some(e));
    if next.Some? {
      assert PartIn(s.(fin := None), next.value) == PartIn(s, next.value);
    }
  }

  lemma {:induction false} MatchOracle(cfg: Config, o: Oracle, e: Exn, catches: seq<Catch>)
    ensures FirstMatch(cfg.(oracle := o), e, catches) == FirstMatch(cfg, e, catches)
    decreases |catches|
  {
    if catches != [] {
      MatchOracle(cfg, o, e, catches[1..]);
    }
  }

  lemma SecondOracle(cfg: Config, o: Oracle, s: Src, e: Option<Exn>)
    requires s.Attempt?
    ensures Second(cfg.(oracle := o), s, e) == Second(cfg, s, e)
  {
    if e.Some? {
      MatchOracle(cfg, o, e.value, s.catches);
    }
  }

  /**
   A clause of user nodes in a slot of a Try of user nodes keeps the meaning
   its author reads, whatever the nodes answer, if and only if it is the last
   part before the closing NOP and, should that be FINALLY, does all its work
   when called; or it does so and the call of FINALLY after it happens to find
   its own closing NOP.
   */
  lemma SlotExact(cfg: Config, s: Src, k: nat, at: Level, fuel: nat)
    requires ClauseInTry(s, k) && Reachable(cfg, s, k) && at.depth + 1 < cfg.ovf && cfg.nest > 1
    ensures (forall o: Oracle, tr ::
               Actual(cfg.(oracle := o), s, at, fuel, tr) == Ideal(cfg.(oracle := o), s, at, fuel, tr))
       <==> || (k + 1 == Exit(s) && (s.fin.None? || Whole(PartIn(s, k).value)))
            || (Coincides(s, k) && Whole(PartIn(s, k).value))
  {
    assert s.Attempt?;
    var whole := Whole(PartIn(s, k).value);
    hide Actual, Ideal, ClauseInTry, Whole;
    if (k + 1 == Exit(s) && (s.fin.None? || whole)) || (Coincides(s, k) && whole) {
      forall o: Oracle, tr
        ensures Actual(cfg.(oracle := o), s, at, fuel, tr) == Ideal(cfg.(oracle := o), s, at, fuel, tr)
      {
        if k + 1 < Exit(s) {
          CoincidesKeeps(cfg.(oracle := o), s, k, at, fuel, tr);
        } else if s.fin.None? {
          LastHandlerKeeps(cfg.(oracle := o), s, k, at, fuel, tr);
        } else {
          LastTidy(s, k);
          StructuredActual(cfg.(oracle := o), s, at, fuel, tr);
        }
      }
    } else {
      var o := TellingOracle(cfg, s, k, at, fuel);
      assert Actual(cfg.(oracle := o), s, at, fuel, []) != Ideal(cfg.(oracle := o), s, at, fuel, []);
    }
  }

  /** An oracle that tells the two meanings apart. */
  lemma TellingOracle(cfg: Config, s: Src, k: nat, at: Level, fuel: nat) returns (o: Oracle)
    requires ClauseInTry(s, k) && Reachable(cfg, s, k) && at.depth + 1 < cfg.ovf && cfg.nest > 1
    requires k + 1 == Exit(s) ==> s.fin.Some? && !Whole(PartIn(s, k).value)
    requires Coincides(s, k) ==> !Whole(PartIn(s, k).value)
    ensures Actual(cfg.(oracle := o), s, at, fuel, []) != Ideal(cfg.(oracle := o), s, at, fuel, [])
  {
    hide Actual, Ideal, SoundClause;
    var x := PartIn(s, k).value;
    assert PartIn(s, 1) == Some(s.body);
    if k == 1 {
      o := h => Prompting(x);
      BodyDiffers(cfg.(oracle := o), s, at, fuel);
    } else if k + 1 == Exit(s) {
      var e := BreakLoop;
      var n := if Second(cfg, s, Some(e)).Some? then 2 else 1;
      o := h => if |h| <= n then Throw(e) else Ret(|h| == n + 1 && x.Repeat?);
      SecondOracle(cfg, o, s, Some(e));
      FinallyDiffers(cfg.(oracle := o), s, k, at, fuel, e);
    } else {
      var first := if k < ThnSlot(s) then var e :| Second(cfg, s, Some(e)) == Some(k); Throw(e) else Ret(true);
      var answer := Ret(if Coincides(s, k) then x.Repeat? else !x.Repeat?);
      o := h => if |h| <= 1 then first else answer;
      SecondOracle(cfg, o, s, if first.Throw? then Some(first.exn) else None);
      assert [] + [s.body.id] == [s.body.id];
      if Coincides(s, k) {
        CoincidesDiffers(cfg.(oracle := o), s, k, at, fuel);
      } else {
        LaterDiffers(cfg.(oracle := o), s, k, at, fuel);
      }
    }
  }

  /**
   What the late calls can come to: a Try around a two-branch IF, with a CATCH
   and FINALLY. Every node succeeds, yet the second condition is asked after
   the first branch has run, in FINALLY's stead, and the handler runs although
   nothing was raised.
   */
  lemma HandlerUnraised(cfg: Config, at: Level, fuel: nat, c: Id, x: Id, d: Id, y: Id, cls: ExnClass, h: Id, f: Id)
    requires at.depth + 2 < cfg.ovf && cfg.nest > 2 && forall tr :: cfg.oracle(tr) == Ret(true)
    ensures var choice := Choose([Arm(c, Work(x)), Arm(d, Work(y))], None);
            var s := Attempt(choice, [Catch(cls, Work(h))], None, Some(Work(f)));
            && Actual(cfg, s, at, fuel, []) == Result(Normal, [c, x, d, h, f])
            && Ideal(cfg, s, at, fuel, []) == Result(Normal, [c, x, f])
  {
    var choice := Choose([Arm(c, Work(x)), Arm(d, Work(y))], None);
    var s := Attempt(choice, [Catch(cls, Work(h))], None, Some(Work(f)));
    ExampleParts(choice, s, c, x, d, y, h, f);
    ExampleBody(cfg, choice, s, at, fuel, c, x, d, y, h, f);
    ExampleLate(cfg, choice, s, at, c, x, d, y, h, f);
    TryHeadMeans(cfg, cfg.nest, s, at, []);
    assert Second(cfg, s, None).None?;
    hide CallSlot, CallPart;
    assert CallHead(cfg, cfg.nest, s, at, []) == Called(None, Some([1, 6]), [c, x, d]);
    ExitFlow(cfg, choice, at, fuel, [c, x, d]);
    ExitFlow(cfg, s, at, fuel, [c, x, d, h, f]);
    assert [1, 6][1..] == [6];
    assert [c, x, d] + [h] == [c, x, d, h] && [c, x, d, h] + [f] == [c, x, d, h, f];
    assert ActualOn(cfg, s, 3, at, fuel, [c, x, d, h]) == Result(Normal, [c, x, d, h, f]);
    assert ActualOn(cfg, s, 2, at, fuel, [c, x, d]) == Result(Normal, [c, x, d, h, f]);
    assert [c, x] + [f] == [c, x, f];
    assert IdealCall(cfg, Work(f), at, fuel, [c, x]) == Result(Normal, [c, x, f]);
  }

  lemma ExampleParts(choice: Src, s: Src, c: Id, x: Id, d: Id, y: Id, h: Id, f: Id)
    requires choice == Choose([Arm(c, Work(x)), Arm(d, Work(y))], None)
    requires s.Attempt? && s.body == choice && |s.catches| == 1 && s.catches[0].handler == Work(h)
    requires s.thn.None? && s.fin == Some(Work(f))
    ensures Exit(choice) == 6 && PartIn(choice, 2) == Some(Work(x)) && SlotTree(choice, 4) == Leaf(Act(d))
    ensures SlotTree(choice, 3) == Leaf(CondJump(1, 2, 3, 6)) && ClauseInTry(s, 1)
    ensures PartIn(s, 1) == Some(choice) && PartIn(s, 2) == Some(Work(h)) && PartIn(s, 3) == Some(Work(f))
    ensures Exit(s) == 4 && FinSlot(s) == 3 && SoundClause(choice) && UserParts(choice)
  {
    forall j | 0 <= j < Exit(choice) && PartIn(choice, j).Some?
      ensures PartIn(choice, j).value.Work?
    {
    }
    assert SoundPart(choice);
  }

  lemma ExampleBody(cfg: Config, choice: Src, s: Src, at: Level, fuel: nat, c: Id, x: Id, d: Id, y: Id, h: Id, f: Id)
    requires choice == Choose([Arm(c, Work(x)), Arm(d, Work(y))], None)
    requires s.Attempt? && s.body == choice && |s.catches| == 1 && s.catches[0].handler == Work(h)
    requires s.thn.None? && s.fin == Some(Work(f))
    requires at.depth + 2 < cfg.ovf && cfg.nest > 2 && forall tr :: cfg.oracle(tr) == Ret(true)
    ensures PartIn(s, 1).Some?
    ensures CallSlot(cfg, cfg.nest, s, 1, None, at, []) == Called(None, Some([1, 6]), [c, x])
    ensures IdealCall(cfg, choice, at, fuel, []) == Result(Normal, [c, x])
  {
    ExampleParts(choice, s, c, x, d, y, h, f);
    assert [] + [c] == [c] && [c] + [x] == [c, x] && [1] + [6] == [1, 6];
    assert CallPart(cfg, cfg.nest - 1, Work(x), Deeper(at), [c]) == Called(None, None, [c, x]);
    assert CallHead(cfg, cfg.nest - 1, choice, Deeper(at), []) == Called(None, Some([6]), [c, x]);
    assert CallPart(cfg, cfg.nest, choice, at, []) == Called(None, Some([6]), [c, x]);
  }

  /** FINALLY called late is the second chunk of the IF. */
  lemma ExampleLate(cfg: Config, choice: Src, s: Src, at: Level, c: Id, x: Id, d: Id, y: Id, h: Id, f: Id)
    requires choice == Choose([Arm(c, Work(x)), Arm(d, Work(y))], None)
    requires s.Attempt? && s.body == choice && |s.catches| == 1 && s.catches[0].handler == Work(h)
    requires s.thn.None? && s.fin == Some(Work(f))
    requires at.depth + 2 < cfg.ovf && cfg.nest > 2 && forall tr :: cfg.oracle(tr) == Ret(true)
    ensures PartIn(s, 3).Some?
    ensures CallSlot(cfg, cfg.nest, s, 3, Some([1, 6]), at, [c, x]) == Called(None, Some([1, 6]), [c, x, d])
  {
    ExampleParts(choice, s, c, x, d, y, h, f);
    hide *;
    ExampleRoom(cfg, at, c, x, d);
    LateSlotAt(cfg, cfg.nest, s, 1, 6, 3, at, [c, x]);
    LateLeaf(cfg, cfg.nest, choice, [6], 3, at, [c, x]);
    ExampleChunk(cfg, cfg.nest - 1, choice, Deeper(at), [c, x], d);
  }

  lemma ExampleRoom(cfg: Config, at: Level, c: Id, x: Id, d: Id)
    requires at.depth + 2 < cfg.ovf && cfg.nest > 2 && forall tr :: cfg.oracle(tr) == Ret(true)
    ensures at.depth < cfg.ovf && Deeper(at).depth < cfg.ovf && cfg.oracle([c, x] + [d]) == Ret(true) && OK.Ret?
    ensures [c, x] + [d] == [c, x, d] && [1] + [6] == [1, 6]
  {
  }

  /** The second chunk asks its condition; two slots behind the condition there is the closing NOP. */
  lemma ExampleChunk(cfg: Config, nest: nat, choice: Src, at: Level, tr: seq<Id>, d: Id)
    requires IsClause(choice) && Exit(choice) == 6 && SlotTree(choice, 4) == Leaf(Act(d))
    requires at.depth < cfg.ovf && nest > 0 && cfg.oracle(tr + [d]) == Ret(true)
    ensures LateNode(cfg, nest, Box(Slots(choice)), CondJump(1, 2, 3, 6), [3], at, tr) == Late(OK, [6], tr + [d])
  {
    hide Slots, LateCall, LateNode, SlotTree, Locate, Descend;
    LateChunkMeans(cfg, nest, choice, 3, at, tr);
    LateLeaf(cfg, nest, choice, [3], 4, at, tr);
    LatePlain(cfg, nest - 1, choice, Act(d), 4, Deeper(at), tr);
    NextSlot(choice, 4);
    LateExit(cfg, nest, choice, [4], at, tr + [d]);
  }
}
