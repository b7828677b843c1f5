/**
 How a native clause is extracted before it is rendered: bodies are unpacked
 into slots, and a scan gives the CONTINUE and BREAK_LOOP nodes found there the
 slots of the loop that is being extracted.
 */
module Scanner {
  import opened Options
  import opened Addressing
  import opened Machine
  import opened Native

  /** A loop-control node: which kind, and its target once configured. */
  datatype Mark = Mark(isContinue: bool, target: Option<nat>)

  /**
   A child of a source composition. `Sealed` is an instruction that has not
   been extracted yet, given by what it will render to: the scan does not
   look inside.
   */
  datatype Part<C> = Plain(node: Instr) | Ctl(control: C) | Compose(kids: seq<Part<C>>) | Sealed(tree: Tree<Instr>)

  /** A native loop that is already extracted: its first child is its head. */
  predicate Boundary<C>(k: Part<C>) {
    k.Compose? && k.kids != [] && k.kids[0].Plain? && (k.kids[0].node.WhileHead? || k.kids[0].node.EnterBody?)
  }

  function ScanOne(k: Part<Mark>, cont: nat, brk: nat): Part<Mark>
    decreases k
  {
    match k
    case Ctl(c) => if c.target.Some? then k else Ctl(c.(target := Some(if c.isContinue then cont else brk)))
    case Compose(kids) => if Boundary(k) then k else Compose(Scan(kids, cont, brk))
    case _ => k
  }

  function Scan(kids: seq<Part<Mark>>, cont: nat, brk: nat): (r: seq<Part<Mark>>)
    ensures |r| == |kids|
    decreases kids
  {
    seq(|kids|, i requires 0 <= i < |kids| => ScanOne(kids[i], cont, brk))
  }

  function Render(k: Part<Mark>): Tree<Instr>
    decreases k
  {
    match k
    case Plain(i) => Leaf(i)
    case Ctl(c) => Leaf(Control(c.target))
    case Compose(kids) => Box(RenderAll(kids))
    case Sealed(t) => t
  }

  function RenderAll(kids: seq<Part<Mark>>): (r: seq<Tree<Instr>>)
    ensures |r| == |kids|
    decreases kids
  {
    seq(|kids|, i requires 0 <= i < |kids| => Render(kids[i]))
  }

  // ----- extraction, in the order the code performs it -----

  function RawNode(s: Src): Part<Mark>
    requires Single(s)
  {
    if s.Break? then Ctl(Mark(false, None))
    else if s.Continue? then Ctl(Mark(true, None))
    else Plain(NodeOf(s, NoLoop))
  }

  /** A source element as a child of a composition its author wrote. */
  function RawItem(s: Src): Part<Mark>
    decreases s, 3
  {
    if Single(s) then RawNode(s)
    else if s.Block? then Compose(RawItems(s.items))
    else if (s.If? && s.extracted) || s.Archive? || s.Fn? || s.InterFn? then Compose(Extract(s))
    else Sealed(Box(RenderAll(Extract(s))))
  }

  function RawItems(ss: seq<Src>): (r: seq<Part<Mark>>)
    ensures |r| == |ss|
    decreases ss, 0
  {
    seq(|ss|, i requires 0 <= i < |ss| => RawItem(ss[i]))
  }

  /** The children a body contributes to its slot. */
  function Body(s: Src): seq<Part<Mark>>
    decreases s, 2
  {
    if Single(s) then [RawNode(s)] else if s.Block? then RawItems(s.items) else Extract(s)
  }

  /** A body in a slot of its own, unless it is a single node. */
  function Bubble(s: Src): Part<Mark>
    decreases s, 4
  {
    if Single(s) then RawNode(s) else Compose(Body(s))
  }

  function ExtractArms(s: Src, k: nat): (r: seq<Part<Mark>>)
    requires s.If? && k <= |s.arms|
    ensures |r| == 3 * (|s.arms| - k)
    decreases s, 0, |s.arms| - k
  {
    if k == |s.arms| then []
    else [Plain(HeadOf(s, k)), Plain(Act(s.arms[k].cond)), Bubble(s.arms[k].body)] + ExtractArms(s, k + 1)
  }

  function ExtractElse(s: Src): seq<Part<Mark>>
    requires s.If?
    decreases s, 0, 0
  {
    match s.els
    case None => [Plain(Nop)]
    case Some(e) => if Single(e) then [RawNode(e)] else [Plain(EnterBody(3 * |s.arms| + 1, false)), Bubble(e)]
  }

  /** The body slot of a loop: the body, a closing CONTINUE, and the scan over both. */
  function BodySlot(body: Src, cont: nat, brk: nat): seq<Part<Mark>>
    decreases body, 5
  {
    Scan(Body(body) + [Ctl(Mark(true, None))], cont, brk)
  }

  function Extract(s: Src): seq<Part<Mark>>
    requires !Single(s) && !s.Block?
    decreases s, 1
  {
    match s
    case While(c, body) =>
      [Plain(WhileHead(1, 2, 0, 3)), Plain(Act(c)), Compose(BodySlot(body, 0, 3)), Plain(Nop)]
    case DoWhile(body, c) =>
      [Plain(EnterBody(1, true)), Compose(BodySlot(body, 2, 4)), Plain(DoCheck(1, 0, 4)), Plain(Act(c)), Plain(Nop)]
    case If(_, _, _) => ExtractArms(s, 0) + ExtractElse(s) + [Plain(Nop)]
    case Archive(body) => [Plain(JumpOffset(2)), Bubble(body), Plain(Nop)]
    case Fn(name, body) => [Plain(Escape), Plain(Entry(name)), Bubble(body), Plain(Return)]
    case InterFn(name, body) => [Plain(Escape), Plain(Entry(name)), Bubble(body), Plain(IntReturn)]
    case Choose(_, _) => Leaves(Slots(s))
    case Repeat(_, _) => Leaves(Slots(s))
    case Attempt(_, _, _, _) => Leaves(Slots(s))
  }

  /** The slots of a clause that calls its parts; a part that is a clause is not extracted with it. */
  function Leaves(ts: seq<Tree<Instr>>): seq<Part<Mark>> {
    seq(|ts|, i requires 0 <= i < |ts| => if ts[i].Leaf? then Plain(ts[i].node) else Sealed(ts[i]))
  }

  // ----- what a scan leaves alone -----

  predicate Configured(k: Part<Mark>)
    decreases k
  {
    match k
    case Ctl(c) => c.target.Some?
    case Compose(kids) => forall x | x in kids :: Configured(x)
    case _ => true
  }

  /** Every extracted loop inside is configured already. */
  predicate Guarded(k: Part<Mark>)
    decreases k
  {
    k.Compose? ==> if Boundary(k) then Configured(k) else forall x | x in k.kids :: Guarded(x)
  }

  /** Scanning never changes a node that is already configured. */
  lemma {:induction false} ScanConfigured(k: Part<Mark>, cont: nat, brk: nat)
    requires Configured(k)
    ensures ScanOne(k, cont, brk) == k
    decreases k
  {
    if k.Compose? {
      forall i | 0 <= i < |k.kids|
        ensures ScanOne(k.kids[i], cont, brk) == k.kids[i]
      {
        ScanConfigured(k.kids[i], cont, brk);
      }
      assert Scan(k.kids, cont, brk) == k.kids;
    }
  }

  lemma {:induction false} ConfiguredGuarded(k: Part<Mark>)
    requires Configured(k)
    ensures Guarded(k)
    decreases k
  {
    if k.Compose? {
      forall x | x in k.kids
        ensures Guarded(x)
      {
        ConfiguredGuarded(x);
      }
    }
  }

  lemma {:induction false} ScanConfigures(k: Part<Mark>, cont: nat, brk: nat)
    requires Guarded(k)
    ensures Configured(ScanOne(k, cont, brk))
    decreases k
  {
    if k.Compose? && !Boundary(k) {
      forall i | 0 <= i < |k.kids|
        ensures Configured(Scan(k.kids, cont, brk)[i])
      {
        ScanConfigures(k.kids[i], cont, brk);
      }
    }
  }

  // ----- extraction and scan produce the layout -----

  function ScanIn(kids: seq<Part<Mark>>, sc: Scope): (r: seq<Part<Mark>>)
    ensures |r| == |kids|
  {
    match sc
    case NoLoop => kids
    case InLoop(head, exit) => Scan(kids, head, exit)
  }

  function ScanOneIn(k: Part<Mark>, sc: Scope): Part<Mark> {
    match sc
    case NoLoop => k
    case InLoop(head, exit) => ScanOne(k, head, exit)
  }

  /** A loop's extraction is configured throughout, so no outer scan changes it. */
  predicate Closed(s: Src) {
    s.While? || s.DoWhile?
  }

  /** Only a loop spliced into its slot makes the slot a boundary. */
  lemma BoundaryIsLoop(p: Program, s: Src)
    requires Sound(p, s) && Boundary(Compose(Body(s)))
    ensures Closed(s)
  {
    hide Scan, Parts;
    match s
    case Block(items) => BlockFirst(items);
    case If(_, _, _) => ArmFirst(s);
    case Choose(arms, _) => LeavesHead(s);
    case Repeat(_, _) => LeavesHead(s);
    case Attempt(_, _, _, _) => LeavesHead(s);
    case _ =>
  }

  lemma BlockFirst(items: seq<Src>)
    ensures !Boundary(Compose(RawItems(items)))
  {
    hide Extract;
    if items != [] {
      assert RawItems(items)[0] == RawItem(items[0]);
    }
  }

  lemma ArmFirst(s: Src)
    requires s.If? && s.arms != []
    ensures Extract(s)[0] == Plain(HeadOf(s, 0))
  {
    assert ExtractArms(s, 0)[0] == Plain(HeadOf(s, 0));
  }

  lemma LeavesHead(s: Src)
    requires IsClause(s) && SoundClause(s)
    ensures !Boundary(Compose(Leaves(Slots(s))))
  {
    assert Leaves(Slots(s))[0] == Plain(HeadIn(s, 0));
  }

  lemma {:induction false} BodyGuarded(p: Program, s: Src)
    requires Sound(p, s)
    ensures forall k | k in Body(s) :: Guarded(k)
    ensures Closed(s) ==> forall k | k in Body(s) :: Configured(k)
    decreases s, 2
  {
    hide Scan, Parts;
    match s
    case Block(items) =>
      forall i | 0 <= i < |items|
        ensures Guarded(RawItem(items[i]))
      {
        ItemGuarded(p, items[i]);
      }
    case While(_, body) =>
      SlotConfigured(p, body, 0, 3);
      ConfiguredGuarded(Compose(BodySlot(body, 0, 3)));
    case DoWhile(body, _) =>
      SlotConfigured(p, body, 2, 4);
      ConfiguredGuarded(Compose(BodySlot(body, 2, 4)));
    case If(_, _, _) =>
      ArmsGuarded(p, s, 0);
      ElseGuarded(p, s);
      assert Body(s) == ExtractArms(s, 0) + ExtractElse(s) + [Plain(Nop)];
    case Archive(body) => BubbleGuarded(p, body);
    case Fn(_, body) => BubbleGuarded(p, body);
    case InterFn(_, body) => BubbleGuarded(p, body);
    case _ =>
  }

  lemma {:induction false} ItemGuarded(p: Program, s: Src)
    requires Sound(p, s)
    ensures Guarded(RawItem(s))
    decreases s, 3
  {
    BodyGuarded(p, s);
    if RawItem(s).Compose? && Boundary(RawItem(s)) {
      BoundaryIsLoop(p, s);
    }
  }

  lemma {:induction false} BubbleGuarded(p: Program, s: Src)
    requires Sound(p, s)
    ensures Guarded(Bubble(s))
    decreases s, 4
  {
    BodyGuarded(p, s);
    if !Single(s) && Boundary(Bubble(s)) {
      BoundaryIsLoop(p, s);
    }
  }

  lemma {:induction false} ArmsGuarded(p: Program, s: Src, k: nat)
    requires Sound(p, s) && s.If? && k <= |s.arms|
    ensures forall x | x in ExtractArms(s, k) :: Guarded(x)
    decreases s, 0, |s.arms| - k
  {
    if k < |s.arms| {
      BubbleGuarded(p, s.arms[k].body);
      ArmsGuarded(p, s, k + 1);
    }
  }

  lemma {:induction false} ElseGuarded(p: Program, s: Src)
    requires Sound(p, s) && s.If?
    ensures forall x | x in ExtractElse(s) :: Guarded(x)
    decreases s, 0, 0
  {
    if s.els.Some? {
      BubbleGuarded(p, s.els.value);
    }
  }

  lemma {:induction false} SlotConfigured(p: Program, body: Src, cont: nat, brk: nat)
    requires Sound(p, body)
    ensures Configured(Compose(BodySlot(body, cont, brk)))
    decreases body, 5
  {
    BodyGuarded(p, body);
    var raw := Body(body) + [Ctl(Mark(true, None))];
    forall i | 0 <= i < |raw|
      ensures Configured(Scan(raw, cont, brk)[i])
    {
      assert raw[i] in raw;
      ScanConfigures(raw[i], cont, brk);
    }
  }

  // ----- the rendered result -----

  lemma RenderAppend(a: seq<Part<Mark>>, b: seq<Part<Mark>>, sc: Scope)
    ensures RenderAll(ScanIn(a + b, sc)) == RenderAll(ScanIn(a, sc)) + RenderAll(ScanIn(b, sc))
  {
  }

  lemma RenderPlain(ks: seq<Part<Mark>>, sc: Scope)
    requires forall k | k in ks :: k.Plain? || k.Sealed?
    ensures RenderAll(ScanIn(ks, sc)) == RenderAll(ks)
  {
    if sc.InLoop? {
      forall i | 0 <= i < |ks|
        ensures Scan(ks, sc.head, sc.exit)[i] == ks[i]
      {
        assert ks[i] in ks;
      }
      assert Scan(ks, sc.head, sc.exit) == ks;
    }
  }

  lemma RenderAt(ks: seq<Part<Mark>>, sc: Scope)
    ensures forall i | 0 <= i < |ks| :: RenderAll(ScanIn(ks, sc))[i] == Render(ScanOneIn(ks[i], sc))
  {
  }

  lemma RenderLeaves(ts: seq<Tree<Instr>>, sc: Scope)
    ensures RenderAll(ScanIn(Leaves(ts), sc)) == ts
  {
    RenderPlain(Leaves(ts), sc);
  }

  /** What a body renders to in its slot, scanned for the loop around it, is its laid-out form. */
  lemma {:induction false} BodyRenders(p: Program, s: Src, sc: Scope)
    requires Sound(p, s)
    ensures RenderAll(ScanIn(Body(s), sc)) == Slot(s, sc)
    decreases s, 2
  {
    hide Parts, Extract;
    RenderAt(Body(s), sc);
    if Single(s) {
      assert RenderAll(ScanIn(Body(s), sc)) == [Leaf(NodeOf(s, sc))];
    } else if s.Block? {
      assert Slot(s, sc) == Items(s.items, sc) by {
        BlockParts(s, sc);
      }
      forall i | 0 <= i < |s.items|
        ensures RenderAll(ScanIn(Body(s), sc))[i] == Item(s.items[i], sc)
      {
        ItemRenders(p, s.items[i], sc);
      }
    } else {
      ExtractRenders(p, s, sc);
    }
  }

  lemma BlockParts(s: Src, sc: Scope)
    requires s.Block?
    ensures Slot(s, sc) == Items(s.items, sc)
  {
  }

  lemma {:induction false} ItemRenders(p: Program, s: Src, sc: Scope)
    requires Sound(p, s)
    ensures Render(ScanOneIn(RawItem(s), sc)) == Item(s, sc)
    decreases s, 3
  {
    hide Parts, Extract, Scan;
    if !Single(s) {
      var k := RawItem(s);
      BodyRenders(p, s, Seen(s, sc));
      if k.Compose? {
        if Boundary(k) {
          BoundaryIsLoop(p, s);
        }
      } else {
        BodyRenders(p, s, NoLoop);
        if !s.If? {
          LoopScope(s, sc);
        }
      }
    }
  }

  /** What an instruction that is not yet extracted renders to does not depend on the loop around it. */
  lemma LoopScope(s: Src, sc: Scope)
    requires s.While? || s.DoWhile? || IsClause(s)
    ensures Parts(s, sc) == Parts(s, NoLoop)
  {
  }

  lemma {:induction false} BubbleRenders(p: Program, s: Src, sc: Scope)
    requires Sound(p, s)
    ensures Render(ScanOneIn(Bubble(s), sc)) == Nested(s, sc)
    decreases s, 4
  {
    hide Parts, Extract, Scan;
    if !Single(s) {
      BodyRenders(p, s, sc);
      if Boundary(Bubble(s)) {
        BoundaryIsLoop(p, s);
        BodyRenders(p, s, NoLoop);
        LoopScope(s, sc);
      }
    }
  }

  lemma {:induction false} ArmsRender(p: Program, s: Src, k: nat, sc: Scope)
    requires Sound(p, s) && s.If? && k <= |s.arms|
    ensures RenderAll(ScanIn(ExtractArms(s, k), sc)) == ArmParts(s, k, sc)
    decreases s, 0, |s.arms| - k
  {
    hide Parts, Extract;
    if k < |s.arms| {
      var body := s.arms[k].body;
      BubbleRenders(p, body, sc);
      ArmsRender(p, s, k + 1, sc);
      var chunk := [Plain(HeadOf(s, k)), Plain(Act(s.arms[k].cond)), Bubble(body)];
      RenderAt(chunk, sc);
      RenderAppend(chunk, ExtractArms(s, k + 1), sc);
    }
  }

  lemma {:induction false} ElseRenders(p: Program, s: Src, sc: Scope)
    requires Sound(p, s) && s.If?
    ensures RenderAll(ScanIn(ExtractElse(s), sc)) == ElseParts(s, sc)
    decreases s, 0, 0
  {
    hide Parts, Extract;
    RenderAt(ExtractElse(s), sc);
    if s.els.Some? && !Single(s.els.value) {
      BubbleRenders(p, s.els.value, sc);
    }
  }

  lemma {:induction false} SlotRenders(p: Program, body: Src, cont: nat, brk: nat, sc: Scope)
    requires Sound(p, body)
    ensures Render(ScanOneIn(Compose(BodySlot(body, cont, brk)), sc)) == Box(LoopBody(body, InLoop(cont, brk)))
    decreases body, 5
  {
    hide Parts, Extract;
    var slot := Compose(BodySlot(body, cont, brk));
    SlotConfigured(p, body, cont, brk);
    if sc.InLoop? {
      ScanConfigured(slot, sc.head, sc.exit);
    }
    BodyRenders(p, body, InLoop(cont, brk));
    RenderAppend(Body(body), [Ctl(Mark(true, None))], InLoop(cont, brk));
  }

  lemma {:induction false} ExtractRenders(p: Program, s: Src, sc: Scope)
    requires Sound(p, s) && !Single(s) && !s.Block?
    ensures RenderAll(ScanIn(Extract(s), sc)) == Parts(s, sc)
    decreases s, 1
  {
    hide Scan, ArmParts, ElseParts, SlotTree, Nested, LoopBody;
    RenderAt(Extract(s), sc);
    match s
    case While(_, body) => SlotRenders(p, body, 0, 3, sc);
    case DoWhile(body, _) => SlotRenders(p, body, 2, 4, sc);
    case If(_, _, _) =>
      ArmsRender(p, s, 0, sc);
      ElseRenders(p, s, sc);
      RenderAppend(ExtractArms(s, 0), ExtractElse(s), sc);
      RenderAppend(ExtractArms(s, 0) + ExtractElse(s), [Plain(Nop)], sc);
    case Archive(body) => BubbleRenders(p, body, sc);
    case Fn(name, body) =>
      BubbleRenders(p, body, sc);
      RoutineRenders(name, body, Return, sc);
    case InterFn(name, body) =>
      BubbleRenders(p, body, sc);
      RoutineRenders(name, body, IntReturn, sc);
    case Choose(_, _) => LeavesRender(s, sc);
    case Repeat(_, _) => LeavesRender(s, sc);
    case Attempt(_, _, _, _) => LeavesRender(s, sc);
    case _ =>
  }

  lemma RoutineRenders(name: Name, body: Src, ret: Instr, sc: Scope)
    requires Render(ScanOneIn(Bubble(body), sc)) == Nested(body, sc)
    ensures RenderAll(ScanIn([Plain(Escape), Plain(Entry(name)), Bubble(body), Plain(ret)], sc))
         == RoutineParts(name, body, sc, ret)
  {
    hide Scan, Bubble, Nested;
    RenderAt([Plain(Escape), Plain(Entry(name)), Bubble(body), Plain(ret)], sc);
  }

  lemma LeavesRender(s: Src, sc: Scope)
    requires IsClause(s)
    ensures RenderAll(ScanIn(Leaves(Slots(s)), sc)) == Parts(s, sc)
  {
    RenderLeaves(Slots(s), sc);
  }

  // ----- whole programs -----

  /**
   Extracting every clause, scanning at every loop and rendering gives the
   graph in which each CONTINUE and BREAK_LOOP aims at the head and the exit
   of its innermost enclosing loop, routines included.
   */
  lemma ScannerCorrect(p: Program)
    requires SoundProgram(p)
    ensures Render(Compose(RawItems(p.main))) == Graph(p)
  {
    hide Extract, Parts, RawItem, Item;
    forall i | 0 <= i < |p.main|
      ensures Render(RawItem(p.main[i])) == Item(p.main[i], NoLoop)
    {
      ItemRenders(p, p.main[i], NoLoop);
    }
    assert RenderAll(RawItems(p.main)) == Items(p.main, NoLoop);
  }
}
