/**
 What every run of every workflow keeps about the status register and the
 saved contexts, whatever its nodes do and however often it is resumed.
 */
module Discipline {
  import opened Addressing
  import opened Machine

  /** Every INT of the graph sets IF while its handler runs. */
  ghost predicate Masking(cfg: Config) {
    forall p | Locate(cfg.graph, p).Hit? && Locate(cfg.graph, p).tree.Leaf? ::
      var i := Locate(cfg.graph, p).tree.node;
      i.Interrupt? ==> i.ifState
  }

  /**
   A saved context holds neither IF nor HLT; when every INT sets IF, at most
   one context is saved, and IF says whether one is.
   */
  ghost predicate Disciplined(masks: bool, st: State) {
    && (forall c | c in st.ctxs :: !c.flags.iff && !c.flags.hlt)
    && (masks ==> |st.ctxs| <= 1 && (st.flags.iff <==> st.ctxs != []))
  }

  ghost predicate Awake(masks: bool, st: State) {
    Disciplined(masks, st) && st.status.Running? && !st.flags.hlt
  }

  ghost predicate CallsKeep(cfg: Config, masks: bool, nest: nat) {
    forall addr, st :: Awake(masks, st) ==> Awake(masks, CallSub(cfg, nest, addr, st).1)
  }

  lemma ExecKeeps(cfg: Config, masks: bool, nest: nat, i: Instr, st: State)
    requires Awake(masks, st) && CallsKeep(cfg, masks, nest)
    requires masks && i.Interrupt? ==> i.ifState
    ensures Awake(masks, Exec(cfg, nest, i, st).1)
  {
    hide CallSub, FirstCatch, Locate, Slice, OffsetCopy, NearCopy, Descend;
    match i
    case TryHead(_, _, _, _, _) => TryKeeps(cfg, masks, nest, i, st);
    case IfHead(_, _, _, _, _, _) => BranchKeeps(cfg, masks, nest, i, st);
    case CondJump(_, _, _, _) => BranchKeeps(cfg, masks, nest, i, st);
    case LoopHead(_, _, _, _) => BranchKeeps(cfg, masks, nest, i, st);
    case WhileHead(_, _, _, _) => NativeKeeps(cfg, masks, nest, i, st);
    case DoCheck(_, _, _) => NativeKeeps(cfg, masks, nest, i, st);
    case EnterBody(_, _) => NativeKeeps(cfg, masks, nest, i, st);
    case Control(_) => NativeKeeps(cfg, masks, nest, i, st);
    case Call(_) => RoutineKeeps(cfg, masks, nest, i, st);
    case Return => RoutineKeeps(cfg, masks, nest, i, st);
    case Interrupt(_, _, _) => RoutineKeeps(cfg, masks, nest, i, st);
    case IntReturn => RoutineKeeps(cfg, masks, nest, i, st);
    case _ =>
  }

  lemma TryKeeps(cfg: Config, masks: bool, nest: nat, i: Instr, st: State)
    requires i.TryHead? && Awake(masks, st) && CallsKeep(cfg, masks, nest)
    ensures Awake(masks, Exec(cfg, nest, i, st).1)
  {
    hide CallSub, FirstCatch, Locate, Slice, OffsetCopy, NearCopy;
  }

  lemma RoutineKeeps(cfg: Config, masks: bool, nest: nat, i: Instr, st: State)
    requires i.Call? || i.Return? || i.Interrupt? || i.IntReturn?
    requires Awake(masks, st) && (masks && i.Interrupt? ==> i.ifState)
    ensures Awake(masks, Exec(cfg, nest, i, st).1)
  {
    hide CallSub, FirstCatch, Locate, Slice, OffsetCopy, NearCopy, Descend;
    if st.ctxs != [] {
      assert Top(st.ctxs) in st.ctxs;
    }
  }

  lemma BranchKeeps(cfg: Config, masks: bool, nest: nat, i: Instr, st: State)
    requires i.IfHead? || i.CondJump? || i.LoopHead?
    requires Awake(masks, st) && CallsKeep(cfg, masks, nest)
    ensures Awake(masks, Exec(cfg, nest, i, st).1)
  {
    hide CallSub, FirstCatch, Locate, Slice, OffsetCopy, NearCopy;
  }

  lemma NativeKeeps(cfg: Config, masks: bool, nest: nat, i: Instr, st: State)
    requires i.WhileHead? || i.DoCheck? || i.EnterBody? || i.Control?
    requires Awake(masks, st) && CallsKeep(cfg, masks, nest)
    ensures Awake(masks, Exec(cfg, nest, i, st).1)
  {
    hide CallSub, FirstCatch, Locate, Slice, OffsetCopy, NearCopy;
  }

  lemma {:induction false} CallKeeps(cfg: Config, masks: bool, nest: nat)
    requires masks ==> Masking(cfg)
    ensures CallsKeep(cfg, masks, nest)
  {
    hide Exec, Descend;
    if nest > 0 {
      CallKeeps(cfg, masks, nest - 1);
    }
    forall addr, st | Awake(masks, st)
      ensures Awake(masks, CallSub(cfg, nest, addr, st).1)
    {
      if |st.stack| < cfg.ovf && nest > 0 {
        var st2 := st.(stack := st.stack + [st.ptr], ptr := addr, outer := true);
        NodeKeeps(cfg, masks, nest - 1, st2);
      }
    }
  }

  lemma NodeKeeps(cfg: Config, masks: bool, nest: nat, st: State)
    requires Awake(masks, st) && CallsKeep(cfg, masks, nest) && (masks ==> Masking(cfg))
    ensures Awake(masks, ExecNode(cfg, nest, st).1)
  {
    hide Exec, CallSub, Descend;
    var st' := st.(ptr := Descend(cfg.graph, st.ptr));
    match Locate(cfg.graph, st'.ptr)
    case Hit(Leaf(i)) => ExecKeeps(cfg, masks, nest, i, st');
    case _ =>
  }

  /** After a turn the loop that goes on has HLT clear, and JMP too unless it was resumed with JMP set. */
  lemma CycleKeeps(cfg: Config, masks: bool, st: State)
    requires masks ==> Masking(cfg)
    requires Disciplined(masks, st) && st.status.Running?
    ensures var st' := Cycle(cfg, st);
            && Disciplined(masks, st')
            && (st'.status.Running? ==> !st'.flags.hlt)
            && (st'.status.Running? && st'.flags.jmp ==> st.flags.hlt && st.flags.jmp)
  {
    hide Exec, CallSub, ExecNode;
    CallKeeps(cfg, masks, cfg.nest);
    var st1 := if st.ptr == [] then st.(ptr := [0]) else st;
    if !st.flags.hlt {
      NodeKeeps(cfg, masks, cfg.nest, st1);
    }
  }

  /**
   In every state of every session: no saved context carries IF or HLT, so no
   return from an interrupt brings either back; HLT is clear while the loop runs;
   and if every INT sets IF, no second context is ever saved over a first.
   */
  lemma {:induction false} SessionKeeps(cfg: Config, masks: bool, st: State, n: nat)
    requires masks ==> Masking(cfg)
    requires Disciplined(masks, st) && (st.status.Running? ==> !st.flags.hlt)
    ensures var st' := Session(cfg, st, n);
            Disciplined(masks, st') && (st'.status.Running? ==> !st'.flags.hlt)
    decreases n
  {
    hide Cycle;
    if n > 0 {
      var st1 := if st.status.Halted? then Boot(st) else st;
      if st1.status.Running? {
        CycleKeeps(cfg, masks, st1);
      } else {
        StoppedCycle(cfg, st1);
      }
      SessionKeeps(cfg, masks, SessionStep(cfg, st), n - 1);
    }
  }

  lemma StoppedCycle(cfg: Config, st: State)
    requires !st.status.Running?
    ensures Cycle(cfg, st) == st
  {
  }
}
