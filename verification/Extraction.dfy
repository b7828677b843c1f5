/**
 The `extract` methods of the clauses that build their composition step by
 step, with the slot arithmetic they use, proved to produce the layout.
 */
module Extraction {
  import opened Options
  import opened Addressing
  import opened Machine
  import opened Native
  import opened Scanner

  // ----- IF, ELIF, ELSE -----

  /** `make_chunk`. */
  function Chunk(arm: Arm, thenAddr: nat, falseOffset: nat): seq<Tree<Instr>> {
    [Leaf(CondJump(1, 2, falseOffset, thenAddr)), Leaf(Act(arm.cond)), Item(arm.body, NoLoop)]
  }

  /** What has been laid out so far is the beginning of the clause's slots. */
  ghost predicate Begins(nodes: seq<Tree<Instr>>, s: Src)
    requires IsClause(s)
  {
    |nodes| <= Exit(s) + 1 && forall j | 0 <= j < |nodes| :: nodes[j] == SlotTree(s, j)
  }

  lemma ChunkBegins(nodes: seq<Tree<Instr>>, s: Src, i: nat)
    requires s.Choose? && i < |s.arms| && |nodes| == 3 * i && Begins(nodes, s)
    ensures Begins(nodes + Chunk(s.arms[i], Exit(s), 3), s)
  {
    var b := 3 * i;
    assert b / 3 == i && (b + 1) / 3 == i && (b + 2) / 3 == i && b % 3 == 0 && (b + 1) % 3 == 1 && (b + 2) % 3 == 2;
    assert SlotTree(s, b) == Leaf(HeadIn(s, b));
  }

  lemma ElseBegins(nodes: seq<Tree<Instr>>, s: Src)
    requires s.Choose? && s.els.Some? && |nodes| == 3 * |s.arms| && Begins(nodes, s)
    ensures nodes + [Leaf(ElseDo(1, 2)), Item(s.els.value, NoLoop), Leaf(Nop)] == Slots(s)
  {
    var e := 3 * |s.arms|;
    assert e / 3 == |s.arms| && (e + 1) / 3 == |s.arms|;
    assert SlotTree(s, e) == Leaf(HeadIn(s, e));
  }

  /** `IFClause.extract`. */
  method ExtractChoiceIf(arm: Arm) returns (nodes: seq<Tree<Instr>>)
    ensures nodes == Slots(Choose([arm], None))
  {
    nodes := Chunk(arm, 3, 3);
    ChunkBegins([], Choose([arm], None), 0);
    assert [] + nodes == nodes;
    nodes := nodes + [Leaf(Nop)];
  }

  /** `ELIFClause.extract`: the IF, the first ELIF, then the chain of further ones. */
  method ExtractChoiceElif(arms: seq<Arm>) returns (nodes: seq<Tree<Instr>>)
    requires |arms| >= 2
    ensures nodes == Slots(Choose(arms, None))
  {
    var totalLength := 3 + 3 + (|arms| - 2) * 3 + 1;
    var jumpOut := totalLength - 1;
    nodes := FirstChunks(Choose(arms, None), jumpOut);
    nodes := ExtractChain(Choose(arms, None), nodes, jumpOut);
    nodes := nodes + [Leaf(Nop)];
  }

  /** `ELSEClause.extract`: the two layouts, with and without ELIF. */
  method ExtractChoiceElse(arms: seq<Arm>, els: Src) returns (nodes: seq<Tree<Instr>>)
    requires |arms| >= 1
    ensures nodes == Slots(Choose(arms, Some(els)))
  {
    ghost var s := Choose(arms, Some(els));
    if |arms| == 1 {
      nodes := Chunk(arms[0], 5, 3);
      ChunkBegins([], s, 0);
      assert [] + nodes == nodes;
    } else {
      var totalLength := 3 + 3 + (|arms| - 2) * 3 + 3;
      var thenAddr := totalLength - 1;
      nodes := FirstChunks(Choose(arms, Some(els)), thenAddr);
      nodes := ExtractChain(Choose(arms, Some(els)), nodes, thenAddr);
    }
    ElseBegins(nodes, s);
    nodes := nodes + [Leaf(ElseDo(1, 2)), Item(els, NoLoop), Leaf(Nop)];
  }

  /** The chunks of the IF and of the first ELIF. */
  method FirstChunks(s: Src, thenAddr: nat) returns (nodes: seq<Tree<Instr>>)
    requires s.Choose? && |s.arms| >= 2 && thenAddr == Exit(s)
    ensures |nodes| == 6 && Begins(nodes, s)
  {
    nodes := Chunk(s.arms[0], thenAddr, 3);
    ChunkBegins([], s, 0);
    assert [] + nodes == nodes;
    ChunkBegins(nodes, s, 1);
    nodes := nodes + Chunk(s.arms[1], thenAddr, 3);
  }

  /** The loop over the chained ELIFs. */
  method ExtractChain(s: Src, first: seq<Tree<Instr>>, thenAddr: nat) returns (nodes: seq<Tree<Instr>>)
    requires s.Choose? && |s.arms| >= 2 && thenAddr == Exit(s) && |first| == 6 && Begins(first, s)
    ensures |nodes| == 3 * |s.arms| && Begins(nodes, s)
  {
    nodes := first;
    for i := 2 to |s.arms|
      invariant |nodes| == 3 * i && Begins(nodes, s)
    {
      ChunkBegins(nodes, s, i);
      nodes := nodes + Chunk(s.arms[i], thenAddr, 3);
    }
  }

  /** Every jump an IF chain emits stays inside it: to the next chunk, to ELSE, or to the closing NOP. */
  lemma ChoiceInRange(s: Src, k: nat)
    requires s.Choose? && k < Exit(s) && PartIn(s, k).None? && CondIn(s, k).None?
    ensures var i := HeadIn(s, k);
            && SlotTree(s, k) == Leaf(i) && SlotTree(s, Exit(s)) == Leaf(Nop)
            && (i.CondJump? ==>
                  && i.thenPos == Exit(s) && k + i.falseOff <= Exit(s)
                  && (k + i.falseOff == Exit(s) || (PartIn(s, k + i.falseOff).None? && CondIn(s, k + i.falseOff).None?))
                  && CondIn(s, k + i.condOff).Some? && PartIn(s, k + i.doOff).Some?)
            && (i.ElseDo? ==> k + i.thenOff == Exit(s) && PartIn(s, k + i.doOff) == s.els && s.els.Some?)
  {
    var n := k / 3;
    assert k == 3 * n && n <= |s.arms|;
    assert (k + 1) / 3 == n && (k + 1) % 3 == 1 && (k + 2) / 3 == n && (k + 2) % 3 == 2 && (k + 3) / 3 == n + 1;
  }

  // ----- WHILE -----

  /** What `extract` refuses as the action of a WHILE: anything that is a composition already. */
  predicate IsComposition(s: Src) {
    s.Block? || s.Archive? || s.Fn? || s.InterFn? || (s.If? && s.extracted)
  }

  /** `WhileClause.extract`. */
  method ExtractWhile(cond: Id, action: Src) returns (nodes: Option<seq<Tree<Instr>>>)
    ensures nodes.None? <==> RawItem(action).Compose?
    ensures nodes.Some? ==> nodes.value == Slots(Repeat(cond, action))
  {
    if IsComposition(action) {
      return None;
    }
    ghost var s := Repeat(cond, action);
    nodes := Some([Leaf(LoopHead(1, 2, 3, 4)), Leaf(Act(cond)), Item(action, NoLoop), Leaf(JumpNear(0)), Leaf(Nop)]);
    assert SlotTree(s, 0) == nodes.value[0] && SlotTree(s, 1) == nodes.value[1] && SlotTree(s, 2) == nodes.value[2];
    assert SlotTree(s, 3) == nodes.value[3] && SlotTree(s, 4) == nodes.value[4];
  }

  // ----- NATIVE_IF -----

  /** `NativeIfClause.extract`. */
  method ExtractNativeIf(s: Src) returns (nodes: seq<Part<Mark>>)
    requires s.If? && s.arms != []
    ensures nodes == Extract(s)
  {
    hide Parts;
    var hasElse := s.els.Some?;
    var nElif := |s.arms| - 1;
    var elseSingle := s.els.None? || Single(s.els.value);
    var elseSlotWidth := if elseSingle then 1 else 2;
    var mergePos := 3 + 3 * nElif + elseSlotWidth;
    var falseNext := if nElif > 0 || hasElse then 3 else mergePos;
    var body := s.arms[0].body;
    nodes := [Plain(IfHead(1, 2, 2, mergePos, falseNext, Single(body))), Plain(Act(s.arms[0].cond)), Bubble(body)];
    for i := 0 to nElif
      invariant nodes + ExtractArms(s, i + 1) == ExtractArms(s, 0) && |nodes| == 3 * (i + 1)
    {
      var base := 3 + 3 * i;
      falseNext := if i + 1 < nElif || hasElse then base + 3 else mergePos;
      body := s.arms[i + 1].body;
      assert HeadOf(s, i + 1) == IfHead(1, 2, base + 2, mergePos, falseNext, Single(body));
      nodes := nodes
             + [Plain(IfHead(1, 2, base + 2, mergePos, falseNext, Single(body)))]
              + [Plain(Act(s.arms[i + 1].cond)), Bubble(body)];
    }
    assert nodes == ExtractArms(s, 0);
    if hasElse && !elseSingle {
      var elsePos := |nodes|;
      nodes := nodes + [Plain(EnterBody(elsePos + 1, false)), Bubble(s.els.value)];
    } else if hasElse {
      nodes := nodes + [RawNode(s.els.value)];
    } else {
      nodes := nodes + [Plain(Nop)];
    }
    assert nodes == ExtractArms(s, 0) + ExtractElse(s);
    nodes := nodes + [Plain(Nop)];
  }

  // ----- TRY -----

  /** The loop over the CATCH clauses. */
  method ExtractCatches(catches: seq<Catch>, orLen: nat)
    returns (ctl: seq<Tree<Instr>>, catchChain: seq<(ExnClass, nat)>)
    ensures |ctl| == |catches| && catchChain == CatchTable(catches, orLen)
    ensures forall k | 0 <= k < |ctl| :: ctl[k] == Item(catches[k].handler, NoLoop)
  {
    ctl, catchChain := [], [];
    for idx := 0 to |catches|
      invariant |ctl| == idx && forall k | 0 <= k < idx :: ctl[k] == Item(catches[k].handler, NoLoop)
      invariant catchChain + CatchTable(catches[idx..], idx + orLen) == CatchTable(catches, orLen)
    {
      assert catches[idx..][1..] == catches[idx + 1..];
      ctl := ctl + [Item(catches[idx].handler, NoLoop)];
      catchChain := catchChain + [(catches[idx].cls, idx + orLen)];
    }
    assert CatchTable(catches[|catches|..], |catches| + orLen) == [];
  }

  /**
   `TryClause.extract`: the list grows, and each address is the length before or
   after an append. With neither CATCH nor FINALLY it raises.
   */
  method ExtractTry(s: Src) returns (nodes: Option<seq<Tree<Instr>>>)
    requires s.Attempt?
    ensures nodes.None? <==> s.catches == [] && s.fin.None?
    ensures nodes.Some? ==> nodes.value == Slots(s)
  {
    if s.catches == [] && s.fin.None? {
      return None;
    }
    hide CatchTable, Item;
    var cp := [Leaf(Nop), Item(s.body, NoLoop)];
    var ctl, catchChain := ExtractCatches(s.catches, |cp|);
    cp := cp + ctl;
    var thenAddr: Option<nat> := None;
    var finallyAddr: Option<nat> := None;
    if s.thn.Some? {
      cp := cp + [Item(s.thn.value, NoLoop)];
      thenAddr := Some(|cp| - 1);
    }
    if s.fin.Some? {
      cp := cp + [Item(s.fin.value, NoLoop)];
      finallyAddr := Some(|cp| - 1);
    }
    cp := cp + [Leaf(Nop)];
    var escapeAddr := |cp| - 1;
    assert escapeAddr == Exit(s) && thenAddr == HeadIn(s, 0).thnPos && finallyAddr == HeadIn(s, 0).finPos;
    assert forall j | 0 < j <= Exit(s) :: cp[j] == SlotTree(s, j);
    cp := cp[0 := Leaf(TryHead(1, catchChain, finallyAddr, thenAddr, escapeAddr))];
    assert cp == Slots(s);
    nodes := Some(cp);
  }

  /** Every slot the worker of a Try names is where the layout puts that node. */
  lemma TryLayout(s: Src)
    requires s.Attempt?
    ensures SlotTree(s, 0) == Leaf(HeadIn(s, 0)) && SlotTree(s, Exit(s)) == Leaf(Nop)
    ensures var head := HeadIn(s, 0);
            && PartIn(s, head.doPos) == Some(s.body) && head.escapePos == Exit(s)
            && |head.catches| == |s.catches|
            && (forall i | 0 <= i < |s.catches| ::
                  head.catches[i].0 == s.catches[i].cls && PartIn(s, head.catches[i].1) == Some(s.catches[i].handler))
            && (if s.thn.None? then head.thnPos.None? else head.thnPos.Some? && PartIn(s, head.thnPos.value) == s.thn)
            && (if s.fin.None? then head.finPos.None? else head.finPos.Some? && PartIn(s, head.finPos.value) == s.fin)
    ensures forall j | 0 <= j <= Exit(s) && PartIn(s, j).Some? :: Slots(s)[j] == Item(PartIn(s, j).value, NoLoop)
  {
    hide CatchTable, Item;
    forall i | 0 <= i < |s.catches|
      ensures |CatchTable(s.catches, 2)| == |s.catches| && CatchTable(s.catches, 2)[i] == (s.catches[i].cls, 2 + i)
    {
      CatchTableAt(s.catches, 2, i);
    }
    if s.catches == [] {
      NoCatches(s.catches);
    } else {
      CatchTableAt(s.catches, 2, 0);
    }
  }
}
