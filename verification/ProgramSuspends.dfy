/**
 Suspend transparency for compiled programs: SUSPENDs in the flow of a program,
 at any depth of its loops, branches and routines, do not change its meaning.
 */
module ProgramSuspends {
  import opened Options
  import opened Addressing
  import opened Machine
  import opened Native
  import opened Turns
  import opened RunStates
  import opened Routines
  import opened NativeTheorems
  import opened Relabelling
  import opened Subcalls
  import opened Suspends
  import opened PlainGraphs

  // ----- the program with every SUSPEND a NOP -----

  function Unpause(s: Src): Src
    decreases s
  {
    match s
    case Pause => Skip
    case Block(items) => Block(UnpauseAll(items))
    case While(c, body) => While(c, Unpause(body))
    case DoWhile(body, c) => DoWhile(Unpause(body), c)
    case If(arms, els, extracted) => If(UnpauseArms(arms), UnpauseOption(els), extracted)
    case Choose(arms, els) => Choose(UnpauseArms(arms), UnpauseOption(els))
    case Repeat(c, body) => Repeat(c, Unpause(body))
    case Attempt(body, catches, thn, fin) =>
      Attempt(Unpause(body), UnpauseCatches(catches), UnpauseOption(thn), UnpauseOption(fin))
    case Archive(body) => Archive(Unpause(body))
    case Fn(name, body) => Fn(name, Unpause(body))
    case InterFn(name, body) => InterFn(name, Unpause(body))
    case _ => s
  }

  function UnpauseOption(s: Option<Src>): Option<Src>
    decreases s
  {
    match s
    case None => None
    case Some(x) => Some(Unpause(x))
  }

  function UnpauseAll(ss: seq<Src>): (r: seq<Src>)
    ensures |r| == |ss|
    decreases ss
  {
    seq(|ss|, i requires 0 <= i < |ss| => Unpause(ss[i]))
  }

  function UnpauseArms(arms: seq<Arm>): (r: seq<Arm>)
    ensures |r| == |arms|
    decreases arms
  {
    seq(|arms|, i requires 0 <= i < |arms| => UnpauseArm(arms[i]))
  }

  function UnpauseArm(a: Arm): Arm
    decreases a
  {
    Arm(a.cond, Unpause(a.body))
  }

  function UnpauseCatches(catches: seq<Catch>): (r: seq<Catch>)
    ensures |r| == |catches|
    decreases catches
  {
    seq(|catches|, i requires 0 <= i < |catches| => UnpauseCatch(catches[i]))
  }

  function UnpauseCatch(c: Catch): Catch
    decreases c
  {
    Catch(c.cls, Unpause(c.handler))
  }

  function UnpauseMap(m: map<Name, Src>): map<Name, Src> {
    map f | f in m :: Unpause(m[f])
  }

  function UnpauseProgram(p: Program): Program {
    Program(UnpauseAll(p.main), UnpauseMap(p.fns), UnpauseMap(p.handlers))
  }

  function RelabelAll(ts: seq<Tree<Instr>>): (r: seq<Tree<Instr>>)
    ensures |r| == |ts|
  {
    seq(|ts|, i requires 0 <= i < |ts| => Relabel(Resumable, ts[i]))
  }

  lemma RelabelBox(ts: seq<Tree<Instr>>)
    ensures Relabel(Resumable, Box(ts)) == Box(RelabelAll(ts))
  {
  }

  lemma RelabelAppend(a: seq<Tree<Instr>>, b: seq<Tree<Instr>>)
    ensures RelabelAll(a + b) == RelabelAll(a) + RelabelAll(b)
  {
  }

  lemma RelabelLeaf(i: Instr)
    ensures Relabel(Resumable, Leaf(i)) == Leaf(Resumable(i))
  {
  }

  lemma NodeUnpaused(s: Src, sc: Scope)
    requires Single(s)
    ensures Single(Unpause(s)) && Resumable(NodeOf(s, sc)) == NodeOf(Unpause(s), sc)
  {
  }

  lemma SingleUnpaused(s: Src)
    ensures Single(Unpause(s)) == Single(s) && IsClause(Unpause(s)) == IsClause(s)
  {
  }

  /** Rendering and replacing SUSPENDs commute. */
  lemma {:induction false} ItemUnpaused(s: Src, sc: Scope)
    ensures Relabel(Resumable, Item(s, sc)) == Item(Unpause(s), sc)
    decreases s, 3
  {
    hide Parts;
    if Single(s) {
      NodeUnpaused(s, sc);
    } else {
      PartsUnpaused(s, Seen(s, sc));
      RelabelBox(Parts(s, Seen(s, sc)));
    }
  }

  lemma {:induction false} ItemsUnpaused(ss: seq<Src>, sc: Scope)
    ensures RelabelAll(Items(ss, sc)) == Items(UnpauseAll(ss), sc)
    decreases ss, 0
  {
    forall i | 0 <= i < |ss|
      ensures RelabelAll(Items(ss, sc))[i] == Items(UnpauseAll(ss), sc)[i]
    {
      ItemUnpaused(ss[i], sc);
    }
  }

  lemma {:induction false} LoopBodyUnpaused(s: Src, sc: Scope)
    requires sc.InLoop?
    ensures RelabelAll(LoopBody(s, sc)) == LoopBody(Unpause(s), sc)
    decreases s, 4
  {
    hide Parts;
    RelabelAppend(Slot(s, sc), [Leaf(Control(Some(sc.head)))]);
    if Single(s) {
      NodeUnpaused(s, sc);
    } else {
      PartsUnpaused(s, sc);
    }
  }

  lemma {:induction false} NestedUnpaused(s: Src, sc: Scope)
    ensures Relabel(Resumable, Nested(s, sc)) == Nested(Unpause(s), sc)
    decreases s, 2
  {
    hide Parts;
    if Single(s) {
      NodeUnpaused(s, sc);
    } else {
      PartsUnpaused(s, sc);
      RelabelBox(Parts(s, sc));
    }
  }

  lemma {:induction false} ArmsUnpaused(s: Src, k: nat, sc: Scope)
    requires s.If? && k <= |s.arms|
    ensures RelabelAll(ArmParts(s, k, sc)) == ArmParts(Unpause(s), k, sc)
    decreases s, 0, |s.arms| - k
  {
    hide Parts, Nested;
    if k < |s.arms| {
      NestedUnpaused(s.arms[k].body, sc);
      ArmsUnpaused(s, k + 1, sc);
      var chunk := [Leaf(HeadOf(s, k)), Leaf(Act(s.arms[k].cond)), Nested(s.arms[k].body, sc)];
      RelabelAppend(chunk, ArmParts(s, k + 1, sc));
      HeadUnpaused(s, k);
      IfShape(s);
    }
  }

  lemma HeadUnpaused(s: Src, k: nat)
    requires s.If? && k < |s.arms|
    ensures HeadOf(Unpause(s), k) == HeadOf(s, k)
  {
    hide Unpause;
    SingleUnpaused(s.arms[k].body);
    IfShape(s);
    if s.els.Some? {
      SingleUnpaused(s.els.value);
    }
  }

  lemma IfShape(s: Src)
    requires s.If?
    ensures var s' := Unpause(s);
            && s'.If? && |s'.arms| == |s.arms| && s'.els.Some? == s.els.Some?
            && (forall k | 0 <= k < |s.arms| :: s'.arms[k] == Arm(s.arms[k].cond, Unpause(s.arms[k].body)))
            && (s.els.Some? ==> s'.els == Some(Unpause(s.els.value)))
  {
    assert Unpause(s).arms == UnpauseArms(s.arms);
    forall k | 0 <= k < |s.arms|
      ensures UnpauseArms(s.arms)[k] == Arm(s.arms[k].cond, Unpause(s.arms[k].body))
    {
      assert UnpauseArms(s.arms)[k] == UnpauseArm(s.arms[k]);
    }
  }

  lemma {:induction false} ElseUnpaused(s: Src, sc: Scope)
    requires s.If?
    ensures RelabelAll(ElseParts(s, sc)) == ElseParts(Unpause(s), sc)
    decreases s, 0, 0
  {
    hide Parts, Nested;
    IfShape(s);
    if s.els.Some? {
      SingleUnpaused(s.els.value);
      if Single(s.els.value) {
        NodeUnpaused(s.els.value, sc);
      } else {
        NestedUnpaused(s.els.value, sc);
      }
    }
  }

  // ----- clauses -----

  lemma {:induction false} CatchTableUnpaused(catches: seq<Catch>, base: nat)
    ensures CatchTable(UnpauseCatches(catches), base) == CatchTable(catches, base)
    decreases |catches|
  {
    if catches != [] {
      CatchTableUnpaused(catches[1..], base + 1);
      assert UnpauseCatches(catches)[1..] == UnpauseCatches(catches[1..]);
    }
  }

  /** Replacing SUSPENDs changes the parts of a clause and nothing else about its slots. */
  lemma ClauseShape(s: Src, j: nat)
    requires IsClause(s)
    ensures var s' := Unpause(s);
            && IsClause(s') && Exit(s') == Exit(s) && CondIn(s', j) == CondIn(s, j) && HeadIn(s', j) == HeadIn(s, j)
            && PartIn(s', j) == (if PartIn(s, j).Some? then Some(Unpause(PartIn(s, j).value)) else None)
  {
    if s.Attempt? {
      TryShape(s, j);
    } else if s.Choose? {
      if j / 3 < |s.arms| {
        assert UnpauseArms(s.arms)[j / 3] == UnpauseArm(s.arms[j / 3]);
      }
    }
  }

  lemma TryShape(s: Src, j: nat)
    requires s.Attempt?
    ensures var s' := Unpause(s);
            && IsClause(s') && Exit(s') == Exit(s) && CondIn(s', j) == CondIn(s, j) && HeadIn(s', j) == HeadIn(s, j)
            && PartIn(s', j) == (if PartIn(s, j).Some? then Some(Unpause(PartIn(s, j).value)) else None)
  {
    hide CatchTable;
    CatchTableUnpaused(s.catches, 2);
    if 2 <= j < ThnSlot(s) {
      assert UnpauseCatches(s.catches)[j - 2] == UnpauseCatch(s.catches[j - 2]);
    }
  }

  lemma {:induction false} SlotsUnpaused(s: Src)
    requires IsClause(s)
    ensures IsClause(Unpause(s)) && RelabelAll(Slots(s)) == Slots(Unpause(s))
    decreases s, 0
  {
    hide Unpause, PartIn, CondIn, HeadIn, Item, Exit;
    ClauseShape(s, 0);
    forall j | 0 <= j <= Exit(s)
      ensures Relabel(Resumable, SlotTree(s, j)) == SlotTree(Unpause(s), j)
    {
      ClauseShape(s, j);
      if PartIn(s, j).Some? {
        ItemUnpaused(PartIn(s, j).value, NoLoop);
      } else {
        HeadStays(s, j);
      }
    }
  }

  lemma HeadStays(s: Src, j: nat)
    requires IsClause(s)
    ensures Resumable(HeadIn(s, j)) == HeadIn(s, j)
  {
    hide CatchTable;
  }

  lemma {:induction false} PartsUnpaused(s: Src, sc: Scope)
    requires !Single(s)
    ensures !Single(Unpause(s)) && RelabelAll(Parts(s, sc)) == Parts(Unpause(s), sc)
    decreases s, 1
  {
    hide Items, LoopBody, Slots, Nested, ArmParts, ElseParts;
    match s
    case Block(items) => ItemsUnpaused(items, sc);
    case While(c, body) =>
      LoopBodyUnpaused(body, WHILE_SCOPE);
      RelabelBox(LoopBody(body, WHILE_SCOPE));
    case DoWhile(body, c) =>
      LoopBodyUnpaused(body, DO_SCOPE);
      RelabelBox(LoopBody(body, DO_SCOPE));
    case If(_, _, _) => IfUnpaused(s, sc);
    case Choose(_, _) => SlotsUnpaused(s);
    case Repeat(_, _) => SlotsUnpaused(s);
    case Attempt(_, _, _, _) => SlotsUnpaused(s);
    case Archive(body) => NestedUnpaused(body, sc);
    case Fn(name, body) => NestedUnpaused(body, sc);
    case InterFn(name, body) => NestedUnpaused(body, sc);
  }

  lemma {:induction false} IfUnpaused(s: Src, sc: Scope)
    requires s.If?
    ensures RelabelAll(ArmParts(s, 0, sc) + ElseParts(s, sc) + [Leaf(Nop)])
         == ArmParts(Unpause(s), 0, sc) + ElseParts(Unpause(s), sc) + [Leaf(Nop)]
    decreases s, 0, |s.arms| + 1
  {
    hide ArmParts, ElseParts;
    ArmsUnpaused(s, 0, sc);
    ElseUnpaused(s, sc);
    RelabelAppend(ArmParts(s, 0, sc), ElseParts(s, sc));
    RelabelAppend(ArmParts(s, 0, sc) + ElseParts(s, sc), [Leaf(Nop)]);
  }

  // ----- the calls of a rendered program -----

  /** The slots of its own container that a node in slot `idx` calls. */
  function Siblings(i: Instr, idx: nat): seq<nat> {
    match i
    case WhileHead(condOff, _, _, _) => [idx + condOff]
    case DoCheck(condOff, _, _) => [idx + condOff]
    case IfHead(condOff, doOff, _, _, _, single) => if single then [idx + condOff, idx + doOff] else [idx + condOff]
    case CondJump(condOff, doOff, _, _) => [idx + condOff, idx + doOff]
    case ElseDo(doOff, _) => [idx + doOff]
    case LoopHead(condOff, doOff, _, _) => [idx + condOff, idx + doOff]
    case TryHead(doPos, catches, finPos, thnPos, _) =>
      [doPos] + seq(|catches|, k requires 0 <= k < |catches| => catches[k].1)
      + (if thnPos.None? then [] else [thnPos.value]) + (if finPos.None? then [] else [finPos.value])
    case _ => []
  }

  /** A user node, a NOP, or a container without SUSPEND. */
  predicate Callee(kids: seq<Tree<Instr>>, j: nat) {
    j < |kids| && if kids[j].Leaf? then kids[j].node.Act? || kids[j].node.Nop? else Dry(kids[j])
  }

  ghost predicate PlainAt(kids: seq<Tree<Instr>>, idx: nat)
    requires idx < |kids|
  {
    kids[idx].Leaf? ==> !kids[idx].node.Invoke? && forall j | j in Siblings(kids[idx].node, idx) :: Callee(kids, j)
  }

  /** Every node of the tree calls only such children beside it. */
  ghost predicate PlainTree(t: Tree<Instr>)
    decreases t
  {
    t.Box? ==> (forall idx | 0 <= idx < |t.kids| :: PlainAt(t.kids, idx)) && forall k | k in t.kids :: PlainTree(k)
  }

  ghost predicate PlainKids(kids: seq<Tree<Instr>>) {
    PlainTree(Box(kids))
  }

  lemma {:induction false} PlainBelow(g: Tree<Instr>, p: Path)
    requires PlainTree(g) && Locate(g, p).Hit?
    ensures PlainTree(Locate(g, p).tree)
    decreases |p|
  {
    if p != [] {
      assert g.kids[p[0]] in g.kids;
      PlainBelow(g.kids[p[0]], p[1..]);
    }
  }

  /** What a node calls lies in its own container, in one of its sibling slots. */
  lemma OperandSibling(cfg: Config, i: Instr, p: Path, a: Path) returns (j: nat)
    requires p != [] && !i.Invoke? && a in Operands(cfg, i, p)
    ensures j in Siblings(i, Last(p)) && a == Parent(p) + [j]
  {
    if i.TryHead? {
      TryOperands(cfg, i, p);
      var n :| 0 <= n < |Operands(cfg, i, p)| && Operands(cfg, i, p)[n] == a;
      j := Siblings(i, Last(p))[n];
    } else {
      j := Last(a);
      assert forall off: nat :: OffsetCopy(p, off) == Parent(p) + [Last(p) + off];
      hide OffsetCopy, NearCopy;
      assert Siblings(i, Last(p)) != [];
    }
  }

  lemma TryOperands(cfg: Config, i: Instr, p: Path)
    requires i.TryHead? && p != []
    ensures |Operands(cfg, i, p)| == |Siblings(i, Last(p))|
    ensures forall n | 0 <= n < |Operands(cfg, i, p)| :: Operands(cfg, i, p)[n] == Parent(p) + [Siblings(i, Last(p))[n]]
  {
    assert forall k: nat :: NearCopy(p, k) == Parent(p) + [k];
    hide NearCopy, OffsetCopy;
  }

  lemma PlainTreeCalls(cfg: Config)
    requires cfg.graph.Box? && PlainTree(cfg.graph)
    ensures PlainCalls(cfg)
  {
    hide Operands, Siblings, PlainTree, PlainAt;
    forall p | Locate(cfg.graph, p).Hit? && Locate(cfg.graph, p).tree.Leaf?
      ensures forall a | a in Operands(cfg, Locate(cfg.graph, p).tree.node, p) :: Harmless(cfg, a)
    {
      forall a | a in Operands(cfg, Locate(cfg.graph, p).tree.node, p)
        ensures Harmless(cfg, a)
      {
        OperandHarmless(cfg, p, a);
      }
    }
  }

  lemma OperandHarmless(cfg: Config, p: Path, a: Path)
    requires cfg.graph.Box? && PlainTree(cfg.graph)
    requires Locate(cfg.graph, p).Hit? && Locate(cfg.graph, p).tree.Leaf?
    requires a in Operands(cfg, Locate(cfg.graph, p).tree.node, p)
    ensures Harmless(cfg, a)
  {
    hide Operands, Siblings;
    assert p != [];
    HitParent(cfg.graph, p);
    PlainBelow(cfg.graph, Parent(p));
    var kids := Locate(cfg.graph, Parent(p)).tree.kids;
    assert PlainAt(kids, Last(p));
    var j := OperandSibling(cfg, kids[Last(p)].node, p, a);
    LocateChild(cfg.graph, Parent(p), j);
    if kids[j].Leaf? {
      LeafDescends(cfg.graph, a);
    }
  }

  // ----- which programs render to plain trees -----

  /** No SUSPEND is among the nodes a clause calls, however deep. */
  predicate DryPart(s: Src)
    decreases s, 1
  {
    !s.Pause? && (IsClause(s) ==> DryClause(s))
  }

  predicate DryClause(s: Src)
    requires IsClause(s)
    decreases s, 0
  {
    forall j | 0 <= j < Exit(s) && PartIn(s, j).Some? :: DryPart(PartIn(s, j).value)
  }

  /** SUSPEND only in the flow, never as a node that a clause calls. */
  predicate FlowPauses(s: Src)
    decreases s
  {
    match s
    case Block(items) => forall x | x in items :: FlowPauses(x)
    case While(_, body) => FlowPauses(body)
    case DoWhile(body, _) => FlowPauses(body)
    case If(arms, els, _) =>
      && (forall k | 0 <= k < |arms| :: FlowPauses(arms[k].body) && !arms[k].body.Pause?)
      && (els.Some? ==> FlowPauses(els.value))
    case Choose(_, _) => DryClause(s)
    case Repeat(_, _) => DryClause(s)
    case Attempt(_, _, _, _) => DryClause(s)
    case Archive(body) => FlowPauses(body)
    case Fn(_, body) => FlowPauses(body)
    case InterFn(_, body) => FlowPauses(body)
    case _ => true
  }

  /** What a clause calls is a part or a condition of its own. */
  lemma HeadSiblings(s: Src, j: nat, m: nat)
    requires IsClause(s) && SoundClause(s) && j < Exit(s) && PartIn(s, j).None? && CondIn(s, j).None?
    requires m in Siblings(HeadIn(s, j), j)
    ensures m < Exit(s) && (PartIn(s, m).Some? || CondIn(s, m).Some?)
  {
    match s
    case Choose(arms, _) =>
      var n := j / 3;
      assert j == 3 * n && (j + 1) / 3 == n && (j + 2) / 3 == n;
    case Repeat(_, _) =>
    case Attempt(_, catches, _, _) =>
      hide CatchTable;
      if catches == [] {
        NoCatches(catches);
      } else {
        CatchTableAt(catches, 2, 0);
      }
      var table := CatchTable(catches, 2);
      if q :| 0 <= q < |table| && table[q].1 == m {
        CatchTableAt(catches, 2, q);
      }
  }

  /** A clause that calls no SUSPEND: its slots are dry, and its nodes call each other only. */
  lemma {:induction false} ClausePlain(s: Src)
    requires IsClause(s) && SoundClause(s) && DryClause(s)
    ensures Dry(Box(Slots(s))) && PlainKids(Slots(s))
    decreases s, 0
  {
    var kids := Slots(s);
    hide Siblings, HeadIn;
    forall j | 0 <= j <= Exit(s)
      ensures Dry(kids[j]) && PlainTree(kids[j]) && PlainAt(kids, j)
    {
      SlotPlain(s, j);
    }
  }

  lemma {:induction false} SlotPlain(s: Src, j: nat)
    requires IsClause(s) && SoundClause(s) && DryClause(s) && j <= Exit(s)
    ensures Dry(SlotTree(s, j)) && PlainTree(SlotTree(s, j)) && PlainAt(Slots(s), j)
    decreases s, 0, 0
  {
    if j < Exit(s) && PartIn(s, j).Some? {
      PartPlain(PartIn(s, j).value);
    } else if j < Exit(s) && CondIn(s, j).None? {
      forall m | m in Siblings(HeadIn(s, j), j)
        ensures Callee(Slots(s), m)
      {
        HeadSiblings(s, j, m);
        assert Slots(s)[m] == SlotTree(s, m);
        if PartIn(s, m).Some? {
          PartPlain(PartIn(s, m).value);
        }
      }
      HeadLocal(s, j);
    }
  }

  lemma HeadLocal(s: Src, j: nat)
    requires IsClause(s)
    ensures Local(HeadIn(s, j)) && !HeadIn(s, j).Invoke?
  {
    hide CatchTable;
  }

  /** A part as the child it is laid out as. */
  lemma {:induction false} PartPlain(s: Src)
    requires SoundPart(s) && DryPart(s)
    ensures var t := Item(s, NoLoop);
            && Callee([t], 0) && Dry(t) && PlainTree(t)
            && (t.Leaf? ==> !t.node.Invoke? && forall idx :: Siblings(t.node, idx) == [])
    decreases s, 1
  {
    if IsClause(s) {
      hide Slots, Dry, PlainTree;
      ClausePlain(s);
    }
  }

  /** Containers whose children call nobody. */
  lemma PlainSilent(kids: seq<Tree<Instr>>)
    requires forall k | k in kids :: PlainTree(k)
    requires forall k | k in kids && k.Leaf? :: !k.node.Invoke? && forall idx :: Siblings(k.node, idx) == []
    ensures PlainKids(kids)
  {
    forall idx | 0 <= idx < |kids|
      ensures PlainAt(kids, idx)
    {
      assert kids[idx] in kids;
    }
  }

  /** Siblings are named by distance, except by TRY: containers may be joined. */
  lemma PlainConcat(a: seq<Tree<Instr>>, b: seq<Tree<Instr>>)
    requires PlainKids(a) && PlainKids(b)
    requires forall k | k in b && k.Leaf? :: !k.node.TryHead?
    ensures PlainKids(a + b)
  {
    var all := a + b;
    forall idx | 0 <= idx < |all|
      ensures PlainAt(all, idx)
    {
      if idx < |a| {
        assert PlainAt(a, idx) && all[idx] == a[idx];
        forall j | all[idx].Leaf? && j in Siblings(all[idx].node, idx)
          ensures Callee(all, j)
        {
          assert Callee(a, j) && all[j] == a[j];
        }
      } else {
        var i := idx - |a|;
        assert PlainAt(b, i) && all[idx] == b[i] && b[i] in b;
        forall j | all[idx].Leaf? && j in Siblings(all[idx].node, idx)
          ensures Callee(all, j)
        {
          assert j - |a| in Siblings(b[i].node, i);
          assert Callee(b, j - |a|) && all[j] == b[j - |a|];
        }
      }
    }
  }

  lemma SilentNode(s: Src, sc: Scope)
    requires Single(s)
    ensures !NodeOf(s, sc).Invoke? && forall idx :: Siblings(NodeOf(s, sc), idx) == []
  {
  }

  lemma {:induction false} ItemPlain(p: Program, s: Src, sc: Scope)
    requires Sound(p, s) && FlowPauses(s)
    ensures PlainTree(Item(s, sc))
    decreases s, 3
  {
    hide Parts;
    if !Single(s) {
      PartsPlain(p, s, Seen(s, sc));
    }
  }

  lemma {:induction false} ItemsPlain(p: Program, ss: seq<Src>, sc: Scope)
    requires forall s | s in ss :: Sound(p, s) && FlowPauses(s)
    ensures PlainKids(Items(ss, sc))
    decreases ss, 0
  {
    hide Siblings, PlainTree;
    var kids := Items(ss, sc);
    forall i | 0 <= i < |ss|
      ensures PlainTree(kids[i])
      ensures kids[i].Leaf? ==> !kids[i].node.Invoke? && forall idx :: Siblings(kids[i].node, idx) == []
    {
      ItemPlain(p, ss[i], sc);
      if Single(ss[i]) {
        SilentNode(ss[i], sc);
      }
    }
    PlainSilent(kids);
  }

  lemma {:induction false} LoopBodyPlain(p: Program, s: Src, sc: Scope)
    requires Sound(p, s) && FlowPauses(s) && sc.InLoop?
    ensures PlainKids(LoopBody(s, sc))
    decreases s, 4
  {
    hide Parts;
    if Single(s) {
      SilentNode(s, sc);
      PlainSilent([Leaf(NodeOf(s, sc))]);
    } else {
      PartsPlain(p, s, sc);
    }
    PlainSilent([Leaf(Control(Some(sc.head)))]);
    PlainConcat(Slot(s, sc), [Leaf(Control(Some(sc.head)))]);
  }

  lemma {:induction false} PartsPlain(p: Program, s: Src, sc: Scope)
    requires Sound(p, s) && FlowPauses(s) && !Single(s)
    ensures PlainKids(Parts(s, sc))
    decreases s, 1
  {
    match s
    case Block(items) => ItemsPlain(p, items, sc);
    case While(_, body) => LoopBodyPlain(p, body, WHILE_SCOPE);
    case DoWhile(body, _) => LoopBodyPlain(p, body, DO_SCOPE);
    case If(_, _, _) => IfPlain(p, s, sc);
    case Choose(_, _) => ClausePlain(s);
    case Repeat(_, _) => ClausePlain(s);
    case Attempt(_, _, _, _) => ClausePlain(s);
    case Archive(body) => ArchivePlain(p, s, sc);
    case Fn(name, body) => RoutinePlain(p, name, body, sc, Return);
    case InterFn(name, body) => RoutinePlain(p, name, body, sc, IntReturn);
  }

  /** A body in a slot of its own. */
  lemma {:induction false} NestedPlain(p: Program, s: Src, sc: Scope)
    requires Sound(p, s) && FlowPauses(s)
    ensures var t := Nested(s, sc);
            PlainTree(t) && (t.Leaf? ==> !t.node.Invoke? && forall idx :: Siblings(t.node, idx) == [])
    decreases s, 2
  {
    hide Parts, Siblings;
    if Single(s) {
      SilentNode(s, sc);
    } else {
      PartsPlain(p, s, sc);
    }
  }

  lemma ArchivePlain(p: Program, s: Src, sc: Scope)
    requires s.Archive? && Sound(p, s) && FlowPauses(s)
    ensures PlainKids(Parts(s, sc))
    decreases s, 0, 0
  {
    assert forall idx :: Siblings(JumpOffset(2), idx) == [] && Siblings(Nop, idx) == [];
    hide Siblings, PlainTree, Parts;
    NestedPlain(p, s.body, sc);
    LeafPlain(JumpOffset(2));
    LeafPlain(Nop);
    ArchiveKids(s, sc);
    PlainSilent(Parts(s, sc));
  }

  lemma ArchiveKids(s: Src, sc: Scope)
    requires s.Archive?
    ensures var t := Nested(s.body, sc);
            Parts(s, sc) == [Leaf(JumpOffset(2)), t, Leaf(Nop)]
  {
  }

  lemma {:induction false} IfPlain(p: Program, s: Src, sc: Scope)
    requires s.If? && Sound(p, s) && FlowPauses(s)
    ensures PlainKids(ArmParts(s, 0, sc) + ElseParts(s, sc) + [Leaf(Nop)])
    decreases s, 0, |s.arms| + 1
  {
    hide Siblings, ArmParts, PlainTree, PlainAt;
    ArmsPlain(p, s, 0, sc);
    if s.els.Some? {
      NestedPlain(p, s.els.value, sc);
    }
    ElsePlain(s, sc);
    PlainConcat(ArmParts(s, 0, sc), ElseParts(s, sc) + [Leaf(Nop)]);
    assert ArmParts(s, 0, sc) + ElseParts(s, sc) + [Leaf(Nop)]
        == ArmParts(s, 0, sc) + (ElseParts(s, sc) + [Leaf(Nop)]);
  }

  lemma ElsePlain(s: Src, sc: Scope)
    requires s.If?
    requires s.els.Some? ==> var e := s.els.value; PlainTree(Nested(e, sc))
    ensures PlainKids(ElseParts(s, sc) + [Leaf(Nop)])
    ensures forall k | k in ElseParts(s, sc) + [Leaf(Nop)] && k.Leaf? :: !k.node.TryHead?
  {
    hide Parts;
    if s.els.Some? && Single(s.els.value) {
      SilentNode(s.els.value, sc);
    }
    PlainSilent(ElseParts(s, sc) + [Leaf(Nop)]);
  }

  lemma {:induction false} ArmsPlain(p: Program, s: Src, k: nat, sc: Scope)
    requires s.If? && k <= |s.arms| && Sound(p, s) && FlowPauses(s)
    ensures PlainKids(ArmParts(s, k, sc))
    ensures forall t | t in ArmParts(s, k, sc) && t.Leaf? :: !t.node.TryHead?
    decreases s, 0, |s.arms| - k
  {
    hide Parts;
    if k < |s.arms| {
      var body := s.arms[k].body;
      NestedPlain(p, body, sc);
      ArmsPlain(p, s, k + 1, sc);
      var chunk := [Leaf(HeadOf(s, k)), Leaf(Act(s.arms[k].cond)), Nested(body, sc)];
      ChunkPlain(HeadOf(s, k), s.arms[k].cond, chunk[2]);
      PlainConcat(chunk, ArmParts(s, k + 1, sc));
    }
  }

  lemma ChunkPlain(head: Instr, cond: Id, body: Tree<Instr>)
    requires head.IfHead? && head.condOff == 1 && head.doOff == 2
    requires head.single ==> body.Leaf? && (body.node.Act? || body.node.Nop?)
    requires PlainTree(body) && (body.Leaf? ==> !body.node.Invoke? && forall idx :: Siblings(body.node, idx) == [])
    ensures PlainKids([Leaf(head), Leaf(Act(cond)), body])
  {
    var kids := [Leaf(head), Leaf(Act(cond)), body];
    forall idx | 0 <= idx < |kids|
      ensures PlainAt(kids, idx)
    {
    }
  }

  lemma {:induction false} RoutinePlain(p: Program, name: Name, body: Src, sc: Scope, ret: Instr)
    requires Sound(p, body) && FlowPauses(body) && (ret.Return? || ret.IntReturn?)
    ensures PlainKids(RoutineParts(name, body, sc, ret))
    decreases body, 3
  {
    SilentRoutine(name, ret);
    hide Nested, Siblings, PlainTree;
    NestedPlain(p, body, sc);
    LeafPlain(Escape);
    LeafPlain(Entry(name));
    LeafPlain(ret);
    var kids := RoutineParts(name, body, sc, ret);
    assert kids == [Leaf(Escape), Leaf(Entry(name)), Nested(body, sc), Leaf(ret)];
    PlainSilent(kids);
  }

  lemma SilentRoutine(name: Name, ret: Instr)
    requires ret.Return? || ret.IntReturn?
    ensures forall idx :: Siblings(ret, idx) == [] && Siblings(Escape, idx) == [] && Siblings(Entry(name), idx) == []
  {
  }

  lemma LeafPlain(i: Instr)
    ensures PlainTree(Leaf(i))
  {
  }

  // ----- the theorem -----

  ghost predicate FlowProgram(p: Program) {
    forall s | s in p.main :: FlowPauses(s)
  }

  lemma FlowPlain(p: Program)
    requires SoundProgram(p) && FlowProgram(p)
    ensures PlainTree(Graph(p))
  {
    hide Item, Items, Siblings;
    ItemsPlain(p, p.main, NoLoop);
  }

  // ----- the program without its SUSPENDs is a program again -----

  lemma GraphUnpaused(p: Program)
    ensures Relabel(Resumable, Graph(p)) == Graph(UnpauseProgram(p))
  {
    hide Item, Parts;
    ItemsUnpaused(p.main, NoLoop);
    RelabelBox(Items(p.main, NoLoop));
  }

  /** Entries are where they were. */
  lemma RegisteredUnpaused(cfg: Config)
    requires Registered(cfg)
    ensures Registered(WithoutSuspends(cfg))
  {
    forall a: Path, n: Name | Locate(WithoutSuspends(cfg).graph, a) == Hit(Leaf(Entry(n)))
      ensures n in cfg.aliases && cfg.aliases[n] == a
    {
      RelabelLocate(Resumable, cfg.graph, a);
    }
  }

  lemma {:induction false} ExposedUnpaused(s: Src)
    ensures Exposed(Unpause(s)) == Exposed(s)
    decreases s
  {
    match s
    case Block(items) =>
      forall i | 0 <= i < |items|
        ensures Exposed(UnpauseAll(items)[i]) == Exposed(items[i])
      {
        ExposedUnpaused(items[i]);
      }
      SeqExposed(items);
    case If(arms, els, _) =>
      IfShape(s);
      forall k | 0 <= k < |arms|
        ensures Exposed(Unpause(s).arms[k].body) == Exposed(arms[k].body)
      {
        ExposedUnpaused(arms[k].body);
      }
      if els.Some? {
        ExposedUnpaused(els.value);
      }
    case Archive(body) => ExposedUnpaused(body);
    case Fn(_, body) => ExposedUnpaused(body);
    case InterFn(_, body) => ExposedUnpaused(body);
    case _ =>
  }

  lemma SeqExposed(items: seq<Src>)
    requires forall i | 0 <= i < |items| :: Exposed(UnpauseAll(items)[i]) == Exposed(items[i])
    ensures (exists x | x in UnpauseAll(items) :: Exposed(x)) <==> (exists x | x in items :: Exposed(x))
  {
    hide Exposed, Unpause;
    if x :| x in items && Exposed(x) {
      var i :| 0 <= i < |items| && items[i] == x;
      assert UnpauseAll(items)[i] in UnpauseAll(items);
    }
  }

  lemma {:induction false} LeaksUnpaused(s: Src)
    ensures Leaks(Unpause(s)) == Leaks(s)
    decreases s
  {
    match s
    case Block(items) =>
      forall i | 0 <= i < |items|
        ensures Leaks(UnpauseAll(items)[i]) == Leaks(items[i])
      {
        LeaksUnpaused(items[i]);
      }
      SeqLeaks(items);
    case If(arms, els, _) =>
      IfShape(s);
      forall k | 0 <= k < |arms|
        ensures Leaks(Unpause(s).arms[k].body) == Leaks(arms[k].body)
      {
        LeaksUnpaused(arms[k].body);
      }
      if els.Some? {
        LeaksUnpaused(els.value);
      }
    case Archive(body) => LeaksUnpaused(body);
    case Fn(_, body) => ExposedUnpaused(body);
    case InterFn(_, body) => ExposedUnpaused(body);
    case _ =>
  }

  lemma SeqLeaks(items: seq<Src>)
    requires forall i | 0 <= i < |items| :: Leaks(UnpauseAll(items)[i]) == Leaks(items[i])
    ensures (exists x | x in UnpauseAll(items) :: Leaks(x)) <==> (exists x | x in items :: Leaks(x))
  {
    hide Leaks, Unpause;
    if x :| x in items && Leaks(x) {
      var i :| 0 <= i < |items| && items[i] == x;
      assert UnpauseAll(items)[i] in UnpauseAll(items);
    }
  }

  lemma {:induction false} SealedUnpaused(s: Src)
    requires Sealed(s)
    ensures Sealed(Unpause(s))
    decreases s
  {
    match s
    case Block(items) =>
      forall i | 0 <= i < |items|
        ensures Sealed(UnpauseAll(items)[i])
      {
        SealedUnpaused(items[i]);
      }
    case While(_, body) =>
      SealedUnpaused(body);
      LeaksUnpaused(body);
    case DoWhile(body, _) =>
      SealedUnpaused(body);
      LeaksUnpaused(body);
    case If(arms, els, _) =>
      IfShape(s);
      forall k | 0 <= k < |arms|
        ensures Sealed(Unpause(s).arms[k].body)
      {
        SealedUnpaused(arms[k].body);
      }
      if els.Some? {
        SealedUnpaused(els.value);
      }
    case Archive(body) => SealedUnpaused(body);
    case Fn(_, body) => SealedUnpaused(body);
    case InterFn(_, body) => SealedUnpaused(body);
    case _ =>
  }

  lemma SealedAllUnpaused(p: Program)
    requires SealedProgram(p)
    ensures SealedProgram(UnpauseProgram(p))
  {
    hide Sealed, Unpause;
    forall i | 0 <= i < |p.main|
      ensures Sealed(UnpauseAll(p.main)[i])
    {
      SealedUnpaused(p.main[i]);
    }
  }

  lemma {:induction false} PartUnpaused(s: Src)
    requires SoundPart(s)
    ensures SoundPart(Unpause(s)) && (Callable(s) ==> Callable(Unpause(s)))
    decreases s, 1
  {
    if IsClause(s) {
      SoundClauseUnpaused(s);
    }
  }

  lemma {:induction false} SoundClauseUnpaused(s: Src)
    requires IsClause(s) && SoundClause(s)
    ensures IsClause(Unpause(s)) && SoundClause(Unpause(s))
    decreases s, 0
  {
    var s' := Unpause(s);
    ClauseShape(s, 0);
    assert s.Choose? == s'.Choose?;
    forall j | 0 <= j < Exit(s') && PartIn(s', j).Some?
      ensures if s'.Choose? then Callable(PartIn(s', j).value) else SoundPart(PartIn(s', j).value)
    {
      ClauseShape(s, j);
      PartUnpaused(PartIn(s, j).value);
    }
  }

  lemma {:induction false} SoundUnpaused(p: Program, s: Src)
    requires Sound(p, s)
    ensures Sound(UnpauseProgram(p), Unpause(s))
    decreases s
  {
    match s
    case Block(items) =>
      forall i | 0 <= i < |items|
        ensures Sound(UnpauseProgram(p), UnpauseAll(items)[i])
      {
        SoundUnpaused(p, items[i]);
      }
    case While(_, body) => SoundUnpaused(p, body);
    case DoWhile(body, _) => SoundUnpaused(p, body);
    case If(arms, els, _) =>
      IfShape(s);
      forall k | 0 <= k < |arms|
        ensures Sound(UnpauseProgram(p), Unpause(s).arms[k].body)
        ensures Single(Unpause(s).arms[k].body) ==> Callable(Unpause(s).arms[k].body)
      {
        SoundUnpaused(p, arms[k].body);
        SingleUnpaused(arms[k].body);
      }
      if els.Some? {
        SoundUnpaused(p, els.value);
      }
    case Choose(_, _) => SoundClauseUnpaused(s);
    case Repeat(_, _) => SoundClauseUnpaused(s);
    case Attempt(_, _, _, _) => SoundClauseUnpaused(s);
    case Archive(body) => SoundUnpaused(p, body);
    case Fn(_, body) => SoundUnpaused(p, body);
    case InterFn(_, body) => SoundUnpaused(p, body);
    case _ =>
  }

  lemma {:induction false} HasUnpaused(s: Src, x: Src)
    requires Has(s, x)
    ensures Has(Unpause(s), Unpause(x))
    decreases s
  {
    if s != x {
      match s
      case Block(items) =>
        var i :| 0 <= i < |items| && Has(items[i], x);
        HasUnpaused(items[i], x);
        assert UnpauseAll(items)[i] in UnpauseAll(items);
      case While(_, body) => HasUnpaused(body, x);
      case DoWhile(body, _) => HasUnpaused(body, x);
      case If(arms, els, _) =>
        IfShape(s);
        if k :| 0 <= k < |arms| && Has(arms[k].body, x) {
          HasUnpaused(arms[k].body, x);
          assert Has(Unpause(s).arms[k].body, Unpause(x));
        } else {
          HasUnpaused(els.value, x);
        }
      case Archive(body) => HasUnpaused(body, x);
      case Fn(_, body) => HasUnpaused(body, x);
      case InterFn(_, body) => HasUnpaused(body, x);
      case _ =>
    }
  }

  lemma HasAnyUnpaused(ss: seq<Src>, x: Src)
    requires HasAny(ss, x)
    ensures HasAny(UnpauseAll(ss), Unpause(x))
  {
    hide Has, Unpause;
    var i :| 0 <= i < |ss| && Has(ss[i], x);
    HasUnpaused(ss[i], x);
    assert UnpauseAll(ss)[i] in UnpauseAll(ss);
  }

  lemma SoundAllUnpaused(p: Program)
    requires SoundProgram(p)
    ensures SoundProgram(UnpauseProgram(p))
  {
    hide Sound, Has, HasAny;
    var q := UnpauseProgram(p);
    forall i | 0 <= i < |p.main|
      ensures Sound(q, q.main[i])
    {
      SoundUnpaused(p, p.main[i]);
    }
    forall f | f in p.fns
      ensures Sound(q, q.fns[f]) && HasAny(q.main, Fn(f, q.fns[f]))
    {
      SoundUnpaused(p, p.fns[f]);
      HasAnyUnpaused(p.main, Fn(f, p.fns[f]));
    }
    forall h | h in p.handlers
      ensures Sound(q, q.handlers[h]) && HasAny(q.main, InterFn(h, q.handlers[h]))
    {
      SoundUnpaused(p, p.handlers[h]);
      HasAnyUnpaused(p.main, InterFn(h, p.handlers[h]));
    }
  }

  /**
   A program run, halted by its SUSPENDs, resumed and so on ends in a given way
   with a given trace if and only if the meaning of the program without them does.
   */
  lemma PausesTransparent(p: Program, cfg: Config, ending: Status, tr: seq<Id>)
    requires Rendered(p, cfg) && FlowProgram(p) && NeverSuspends(cfg)
    requires ending.Done? || ending.Panicked?
    ensures (exists m :: Session(cfg, INITIAL, m).status == ending && Session(cfg, INITIAL, m).trace == tr)
       <==> (exists fuel :: StatusOf(Meaning(UnpauseProgram(p), WithoutSuspends(cfg), false, fuel).out) == ending
                            && Meaning(UnpauseProgram(p), WithoutSuspends(cfg), false, fuel).trace == tr)
  {
    hide *;
    RenderedUnpaused(p, cfg);
    CompilerCorrect(UnpauseProgram(p), WithoutSuspends(cfg), ending, tr);
    SessionEnds(cfg, ending, tr);
  }

  lemma RenderedUnpaused(p: Program, cfg: Config)
    requires Rendered(p, cfg) && FlowProgram(p) && NeverSuspends(cfg)
    ensures Rendered(UnpauseProgram(p), WithoutSuspends(cfg))
    ensures cfg.graph.Box? && PlainCalls(cfg)
  {
    assert cfg.graph.Box?;
    hide Graph, SoundProgram, SealedProgram, UnpauseAll, FlowProgram, PlainTree, NeverSuspends, Registered;
    FlowPlain(p);
    PlainTreeCalls(cfg);
    GraphUnpaused(p);
    RegisteredUnpaused(cfg);
    SoundAllUnpaused(p);
    SealedAllUnpaused(p);
  }

  /** On such graphs a session ends as the run without SUSPENDs does. */
  lemma SessionEnds(cfg: Config, ending: Status, tr: seq<Id>)
    requires PlainCalls(cfg) && NeverSuspends(cfg) && cfg.graph.Box? && (ending.Done? || ending.Panicked?)
    ensures (exists m :: Session(cfg, INITIAL, m).status == ending && Session(cfg, INITIAL, m).trace == tr)
       <==> (exists n :: Run(WithoutSuspends(cfg), INITIAL, n).status == ending
                         && Run(WithoutSuspends(cfg), INITIAL, n).trace == tr)
  {
    hide Cycle, Session, Run, Relabel, WithoutSuspends, NeverSuspends, PlainCalls, QuietFrom;
    var cfg' := WithoutSuspends(cfg);
    PlainQuietFrom(cfg);
    if m: nat :| Session(cfg, INITIAL, m).status == ending && Session(cfg, INITIAL, m).trace == tr {
      var m' := SessionFollows(cfg, INITIAL, m);
      SessionPlus(cfg, INITIAL, m, m' - m);
      SessionStopped(cfg, Session(cfg, INITIAL, m), m' - m);
      assert Run(cfg', INITIAL, m).status == ending && Run(cfg', INITIAL, m).trace == tr;
    }
    if n: nat :| Run(cfg', INITIAL, n).status == ending && Run(cfg', INITIAL, n).trace == tr {
      var m := SessionFollows(cfg, INITIAL, n);
      assert Session(cfg, INITIAL, m).status == ending && Session(cfg, INITIAL, m).trace == tr;
    }
  }
}
