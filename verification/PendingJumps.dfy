/**
 A tree of calls in which a node jumps: where the pointer ends, and when that
 is where the first jump led.
 */
module PendingJumps {
  import opened Options
  import opened Addressing
  import opened Machine
  import opened Turns
  import opened Subcalls

  /** Each call starts in the state the call before it left, the first one in the node's own. */
  lemma CallsChain(cfg: Config, nest: nat, i: Instr, st: State)
    ensures var cs := Calls(cfg, nest, i, st);
            && (cs != [] ==> cs[0].1 == st)
            && (forall j | 0 <= j < |cs| - 1 :: cs[j + 1].1 == CallSub(cfg, nest, cs[j].0, cs[j].1).1)
  {
    hide CallSub, FirstCatch, OffsetCopy, NearCopy;
  }

  /** A jump pending at the start of one call is pending at the start of every later one. */
  lemma {:induction false} EarlierClear(cfg: Config, nest: nat, i: Instr, st: State, k: nat)
    requires CallsBalance(cfg, nest, i, st) && k < |Calls(cfg, nest, i, st)|
    requires !Calls(cfg, nest, i, st)[k].1.flags.jmp
    ensures forall j | 0 <= j <= k :: !Calls(cfg, nest, i, st)[j].1.flags.jmp
    decreases k
  {
    hide Calls, CallSub;
    CallsChain(cfg, nest, i, st);
    var cs := Calls(cfg, nest, i, st);
    if k > 0 {
      assert cs[k - 1] in cs;
      assert cs[(k - 1) + 1].1 == CallSub(cfg, nest, cs[k - 1].0, cs[k - 1].1).1;
      EarlierClear(cfg, nest, i, st, k - 1);
    }
  }

  /** What `CallBalances` says of each call a neutral node makes. */
  lemma NodeBalances(cfg: Config, nest: nat, i: Instr, st: State)
    requires NeutralNode(cfg, nest, i, st)
    ensures CallsBalance(cfg, nest, i, st)
  {
    hide CallSub, Calls;
    forall c | c in Calls(cfg, nest, i, st)
      ensures Balanced(c.1, CallSub(cfg, nest, c.0, c.1).1)
    {
      CallBalances(cfg, nest, c.0, c.1);
    }
  }

  /** The outcome of a call that finds a node, in terms of that node. */
  lemma CallOfNode(cfg: Config, nest: nat, addr: Path, st: State, i: Instr)
    requires |st.stack| < cfg.ovf && nest > 0
    requires Locate(cfg.graph, Descend(cfg.graph, addr)) == Hit(Leaf(i))
    requires Exec(cfg, nest - 1, i, Entered(cfg, addr, st)).1.stack == st.stack + [st.ptr]
    ensures var fin := Exec(cfg, nest - 1, i, Entered(cfg, addr, st)).1;
            var st' := CallSub(cfg, nest, addr, st).1;
            st'.flags.jmp == fin.flags.jmp && st'.ptr == if fin.flags.jmp then fin.ptr else st.ptr
  {
    hide Exec;
    var st2 := st.(stack := st.stack + [st.ptr], ptr := addr, outer := true);
    assert ExecNode(cfg, nest - 1, st2) == Exec(cfg, nest - 1, i, Entered(cfg, addr, st));
    assert Top(st.stack + [st.ptr]) == st.ptr;
  }

  // ----- calls started while a jump is pending -----

  /**
   The address on which a call leaves the pointer that is started while a jump
   is pending: that of the last node called below, which only Escape moves on.
   */
  function Landing(cfg: Config, nest: nat, addr: Path, st: State): Path
    decreases nest, 0
  {
    if |st.stack| >= cfg.ovf then st.ptr
    else if nest == 0 then addr
    else
      match Locate(cfg.graph, Descend(cfg.graph, addr))
      case Hit(Leaf(i)) => NodeLanding(cfg, nest - 1, i, Entered(cfg, addr, st))
      case _ => Descend(cfg.graph, addr)
  }

  function NodeLanding(cfg: Config, nest: nat, i: Instr, st: State): Path
    decreases nest, 1
  {
    var cs := Calls(cfg, nest, i, st);
    if cs != [] then Landing(cfg, nest, cs[|cs| - 1].0, cs[|cs| - 1].1)
    else if i.Escape? then OffsetCopy(st.ptr, 3)
    else st.ptr
  }

  /** Once its last call has jumped, a node does not move the pointer itself. */
  lemma JumpStands(cfg: Config, nest: nat, i: Instr, st: State)
    requires Neutral(i) && Calls(cfg, nest, i, st) != []
    requires var cs := Calls(cfg, nest, i, st);
             var c := cs[|cs| - 1];
             CallSub(cfg, nest, c.0, c.1).1.flags.jmp
    ensures var cs := Calls(cfg, nest, i, st);
            var c := cs[|cs| - 1];
            Exec(cfg, nest, i, st).1.ptr == CallSub(cfg, nest, c.0, c.1).1.ptr
  {
    hide CallSub, FirstCatch, Locate, Descend, Slice, OffsetCopy, NearCopy;
  }

  /** A node that calls nothing and finds a jump pending does not move the pointer, Escape apart. */
  lemma JumpIgnored(cfg: Config, nest: nat, i: Instr, st: State)
    requires Neutral(i) && Calls(cfg, nest, i, st) == [] && st.flags.jmp
    ensures Exec(cfg, nest, i, st).1.ptr == if i.Escape? then OffsetCopy(st.ptr, 3) else st.ptr
  {
    hide CallSub, FirstCatch, Locate, Descend, Slice, OffsetCopy, NearCopy;
  }

  lemma {:induction false} LateLanding(cfg: Config, nest: nat, addr: Path, st: State)
    requires NeutralCall(cfg, nest, addr, st) && st.flags.jmp
    ensures CallSub(cfg, nest, addr, st).1.flags.jmp
    ensures CallSub(cfg, nest, addr, st).1.ptr == Landing(cfg, nest, addr, st)
    decreases nest, 0
  {
    hide Exec, Calls;
    CallBalances(cfg, nest, addr, st);
    if |st.stack| < cfg.ovf && nest > 0 {
      match Locate(cfg.graph, Descend(cfg.graph, addr))
      case Hit(Leaf(i)) =>
        var entered := Entered(cfg, addr, st);
        NodeBalances(cfg, nest - 1, i, entered);
        ExecBalances(cfg, nest - 1, i, entered);
        CallOfNode(cfg, nest, addr, st, i);
        NodeLands(cfg, nest - 1, i, entered);
      case _ =>
    }
  }

  lemma {:induction false} NodeLands(cfg: Config, nest: nat, i: Instr, st: State)
    requires Neutral(i) && NeutralNode(cfg, nest, i, st) && st.flags.jmp
    ensures Exec(cfg, nest, i, st).1.ptr == NodeLanding(cfg, nest, i, st)
    decreases nest, 1
  {
    hide Exec, Calls, CallSub;
    var cs := Calls(cfg, nest, i, st);
    if cs == [] {
      JumpIgnored(cfg, nest, i, st);
    } else {
      var c := cs[|cs| - 1];
      assert c in cs;
      LastPending(cfg, nest, i, st);
      LateLanding(cfg, nest, c.0, c.1);
      JumpStands(cfg, nest, i, st);
    }
  }

  lemma LastPending(cfg: Config, nest: nat, i: Instr, st: State)
    requires NeutralNode(cfg, nest, i, st) && st.flags.jmp && Calls(cfg, nest, i, st) != []
    ensures var cs := Calls(cfg, nest, i, st); cs[|cs| - 1].1.flags.jmp
  {
    hide Calls, CallSub;
    var cs := Calls(cfg, nest, i, st);
    NodeBalances(cfg, nest, i, st);
    CallsChain(cfg, nest, i, st);
    if !cs[|cs| - 1].1.flags.jmp {
      EarlierClear(cfg, nest, i, st, |cs| - 1);
      assert false;
    }
  }

  // ----- the first jump of a tree -----

  /** The first call that comes back with a jump pending. */
  function Jumper(cfg: Config, nest: nat, cs: seq<Request>): Option<Request>
    decreases |cs|
  {
    if cs == [] then None
    else if CallSub(cfg, nest, cs[0].0, cs[0].1).1.flags.jmp then Some(cs[0])
    else Jumper(cfg, nest, cs[1..])
  }

  /** The pointer as the node that jumps first, somewhere in the tree, leaves it. */
  function FirstTarget(cfg: Config, nest: nat, addr: Path, st: State): Path
    decreases nest, 0
  {
    if |st.stack| >= cfg.ovf || nest == 0 then st.ptr
    else
      match Locate(cfg.graph, Descend(cfg.graph, addr))
      case Hit(Leaf(i)) => NodeTarget(cfg, nest - 1, i, Entered(cfg, addr, st))
      case _ => st.ptr
  }

  function NodeTarget(cfg: Config, nest: nat, i: Instr, st: State): Path
    decreases nest, 1
  {
    var jumper := Jumper(cfg, nest, Calls(cfg, nest, i, st));
    if jumper.Some? then FirstTarget(cfg, nest, jumper.value.0, jumper.value.1) else Exec(cfg, nest, i, st).1.ptr
  }

  /**
   The last call started once the first jump was pending, by a node on the way
   to the one that jumped, and how deep it may nest.
   */
  function Straggler(cfg: Config, nest: nat, addr: Path, st: State): Option<(nat, Request)>
    decreases nest, 0
  {
    if |st.stack| >= cfg.ovf || nest == 0 then None
    else
      match Locate(cfg.graph, Descend(cfg.graph, addr))
      case Hit(Leaf(i)) => NodeStraggler(cfg, nest - 1, i, Entered(cfg, addr, st))
      case _ => None
  }

  function NodeStraggler(cfg: Config, nest: nat, i: Instr, st: State): Option<(nat, Request)>
    decreases nest, 1
  {
    var cs := Calls(cfg, nest, i, st);
    var jumper := Jumper(cfg, nest, cs);
    if jumper.None? then None
    else if cs != [] && cs[|cs| - 1].1.flags.jmp then Some((nest, cs[|cs| - 1]))
    else Straggler(cfg, nest, jumper.value.0, jumper.value.1)
  }

  /** If no call starts with a jump pending, only the last call of a node can come back with a jump pending. */
  lemma {:induction false} LastJumps(cfg: Config, nest: nat, cs: seq<Request>)
    requires forall c | c in cs :: !c.1.flags.jmp
    requires forall j | 0 <= j < |cs| - 1 :: cs[j + 1].1 == CallSub(cfg, nest, cs[j].0, cs[j].1).1
    ensures Jumper(cfg, nest, cs).Some? <==> cs != [] && CallSub(cfg, nest, cs[|cs| - 1].0, cs[|cs| - 1].1).1.flags.jmp
    ensures Jumper(cfg, nest, cs).Some? ==> Jumper(cfg, nest, cs).value == cs[|cs| - 1]
    decreases |cs|
  {
    hide CallSub;
    if cs != [] {
      if |cs| > 1 {
        assert cs[1] in cs;
        var rest := cs[1..];
        assert forall j | 0 <= j < |rest| :: rest[j] == cs[j + 1];
        LastJumps(cfg, nest, rest);
      }
    }
  }

  lemma {:induction false} LaterJump(cfg: Config, nest: nat, cs: seq<Request>)
    requires Jumper(cfg, nest, cs).None?
    ensures forall c | c in cs :: !CallSub(cfg, nest, c.0, c.1).1.flags.jmp
    decreases |cs|
  {
    if cs != [] {
      LaterJump(cfg, nest, cs[1..]);
    }
  }

  /** Where the last call of a node starts without a jump pending, every call does. */
  lemma AllClear(cfg: Config, nest: nat, i: Instr, st: State)
    requires NeutralNode(cfg, nest, i, st)
    requires var cs := Calls(cfg, nest, i, st); cs != [] && !cs[|cs| - 1].1.flags.jmp
    ensures var cs := Calls(cfg, nest, i, st);
            && (forall c | c in cs :: !c.1.flags.jmp)
            && (forall j | 0 <= j < |cs| - 1 :: !CallSub(cfg, nest, cs[j].0, cs[j].1).1.flags.jmp)
            && (Jumper(cfg, nest, cs).Some? ==>
                  && Jumper(cfg, nest, cs).value == cs[|cs| - 1]
                  && CallSub(cfg, nest, cs[|cs| - 1].0, cs[|cs| - 1].1).1.flags.jmp)
  {
    hide Calls, CallSub, Jumper;
    var cs := Calls(cfg, nest, i, st);
    NodeBalances(cfg, nest, i, st);
    CallsChain(cfg, nest, i, st);
    EarlierClear(cfg, nest, i, st, |cs| - 1);
    forall j | 0 <= j < |cs| - 1
      ensures !CallSub(cfg, nest, cs[j].0, cs[j].1).1.flags.jmp
    {
      assert cs[j + 1].1 == CallSub(cfg, nest, cs[j].0, cs[j].1).1;
    }
    LastJumps(cfg, nest, cs);
  }

  /**
   Where the pointer ends if the tree jumps: where the first jump led, or, if
   calls were started after it, where the last of these left it.
   */
  lemma {:induction false} JumpEnds(cfg: Config, nest: nat, addr: Path, st: State)
    requires NeutralCall(cfg, nest, addr, st) && !st.flags.jmp
    requires CallSub(cfg, nest, addr, st).1.flags.jmp
    ensures CallSub(cfg, nest, addr, st).1.ptr
         == match Straggler(cfg, nest, addr, st)
            case None => FirstTarget(cfg, nest, addr, st)
            case Some(last) => Landing(cfg, last.0, last.1.0, last.1.1)
    decreases nest, 0
  {
    hide Exec, Calls, Jumper, Landing;
    if |st.stack| < cfg.ovf && nest > 0 {
      match Locate(cfg.graph, Descend(cfg.graph, addr))
      case Hit(Leaf(i)) =>
        var entered := Entered(cfg, addr, st);
        NodeBalances(cfg, nest - 1, i, entered);
        ExecBalances(cfg, nest - 1, i, entered);
        CallOfNode(cfg, nest, addr, st, i);
        NodeEnds(cfg, nest - 1, i, entered);
      case _ =>
    }
  }

  lemma {:induction false} NodeEnds(cfg: Config, nest: nat, i: Instr, st: State)
    requires Neutral(i) && NeutralNode(cfg, nest, i, st) && !st.flags.jmp
    ensures Exec(cfg, nest, i, st).1.ptr
         == match NodeStraggler(cfg, nest, i, st)
            case None => NodeTarget(cfg, nest, i, st)
            case Some(last) => Landing(cfg, last.0, last.1.0, last.1.1)
    decreases nest, 1
  {
    hide Exec, Calls, Jumper, CallSub, Landing;
    var cs := Calls(cfg, nest, i, st);
    if Jumper(cfg, nest, cs).Some? {
      SomeCall(cfg, nest, cs);
      var c := cs[|cs| - 1];
      assert c in cs;
      if c.1.flags.jmp {
        LateLanding(cfg, nest, c.0, c.1);
      } else {
        AllClear(cfg, nest, i, st);
        JumpEnds(cfg, nest, c.0, c.1);
      }
      JumpStands(cfg, nest, i, st);
    }
  }

  lemma SomeCall(cfg: Config, nest: nat, cs: seq<Request>)
    requires Jumper(cfg, nest, cs).Some?
    ensures cs != []
  {
  }

  // ----- no call after a jump -----

  /** No call starts while a jump is pending. */
  ghost predicate Timely(cfg: Config, nest: nat, addr: Path, st: State)
    decreases nest, 0
  {
    && !st.flags.jmp
    && (|st.stack| < cfg.ovf && nest > 0 ==>
          match Locate(cfg.graph, Descend(cfg.graph, addr))
          case Hit(Leaf(i)) => TimelyNode(cfg, nest - 1, i, Entered(cfg, addr, st))
          case _ => true)
  }

  ghost predicate TimelyNode(cfg: Config, nest: nat, i: Instr, st: State)
    decreases nest, 1
  {
    forall c | c in Calls(cfg, nest, i, st) :: Timely(cfg, nest, c.0, c.1)
  }

  /** A node whose last call has jumped ends with a jump pending. */
  lemma JumpKept(cfg: Config, nest: nat, i: Instr, st: State)
    requires Neutral(i) && Calls(cfg, nest, i, st) != []
    requires var cs := Calls(cfg, nest, i, st);
             CallSub(cfg, nest, cs[|cs| - 1].0, cs[|cs| - 1].1).1.flags.jmp
    ensures Exec(cfg, nest, i, st).1.flags.jmp
  {
    hide CallSub, FirstCatch, Locate, Descend, Slice, OffsetCopy, NearCopy;
  }

  /** In a tree that does not jump no call starts after a jump. */
  lemma {:induction false} NoJumpTimely(cfg: Config, nest: nat, addr: Path, st: State)
    requires NeutralCall(cfg, nest, addr, st) && !st.flags.jmp
    requires !CallSub(cfg, nest, addr, st).1.flags.jmp
    ensures Timely(cfg, nest, addr, st)
    decreases nest, 0
  {
    hide Exec, Calls;
    if |st.stack| < cfg.ovf && nest > 0 {
      match Locate(cfg.graph, Descend(cfg.graph, addr))
      case Hit(Leaf(i)) =>
        var entered := Entered(cfg, addr, st);
        NodeBalances(cfg, nest - 1, i, entered);
        ExecBalances(cfg, nest - 1, i, entered);
        CallOfNode(cfg, nest, addr, st, i);
        NoJumpNode(cfg, nest - 1, i, entered);
      case _ =>
    }
  }

  lemma {:induction false} NoJumpNode(cfg: Config, nest: nat, i: Instr, st: State)
    requires Neutral(i) && NeutralNode(cfg, nest, i, st) && !st.flags.jmp && !Exec(cfg, nest, i, st).1.flags.jmp
    ensures TimelyNode(cfg, nest, i, st)
    decreases nest, 1
  {
    hide Exec, Calls, CallSub;
    var cs := Calls(cfg, nest, i, st);
    if cs != [] {
      var last := cs[|cs| - 1];
      assert last in cs;
      NodeBalances(cfg, nest, i, st);
      if CallSub(cfg, nest, last.0, last.1).1.flags.jmp {
        JumpKept(cfg, nest, i, st);
        assert false;
      }
      AllClear(cfg, nest, i, st);
      forall c | c in cs
        ensures Timely(cfg, nest, c.0, c.1)
      {
        NoJumpTimely(cfg, nest, c.0, c.1);
      }
    }
  }

  /** No call starts after a jump if and only if there is no such straggler. */
  lemma {:induction false} TimelyExact(cfg: Config, nest: nat, addr: Path, st: State)
    requires NeutralCall(cfg, nest, addr, st) && !st.flags.jmp
    ensures Timely(cfg, nest, addr, st) <==> Straggler(cfg, nest, addr, st).None?
    decreases nest, 0
  {
    hide Exec, Calls, Jumper;
    if |st.stack| < cfg.ovf && nest > 0 {
      match Locate(cfg.graph, Descend(cfg.graph, addr))
      case Hit(Leaf(i)) => TimelyNodeExact(cfg, nest - 1, i, Entered(cfg, addr, st));
      case _ =>
    }
  }

  lemma {:induction false} TimelyNodeExact(cfg: Config, nest: nat, i: Instr, st: State)
    requires NeutralNode(cfg, nest, i, st) && !st.flags.jmp
    ensures TimelyNode(cfg, nest, i, st) <==> NodeStraggler(cfg, nest, i, st).None?
    decreases nest, 1
  {
    hide Exec, Calls, CallSub, Jumper;
    var cs := Calls(cfg, nest, i, st);
    CallsChain(cfg, nest, i, st);
    if cs == [] {
      NoJumper(cfg, nest, cs);
    } else {
      var last := cs[|cs| - 1];
      assert last in cs;
      if Jumper(cfg, nest, cs).None? {
        LaterJump(cfg, nest, cs);
        StartsClear(cfg, nest, i, st);
        forall c | c in cs
          ensures Timely(cfg, nest, c.0, c.1)
        {
          NoJumpTimely(cfg, nest, c.0, c.1);
        }
      } else if last.1.flags.jmp {
        assert !Timely(cfg, nest, last.0, last.1);
      } else {
        AllClear(cfg, nest, i, st);
        forall j | 0 <= j < |cs| - 1
          ensures Timely(cfg, nest, cs[j].0, cs[j].1)
        {
          assert cs[j] in cs;
          NoJumpTimely(cfg, nest, cs[j].0, cs[j].1);
        }
        TimelyExact(cfg, nest, last.0, last.1);
      }
    }
  }

  lemma NoJumper(cfg: Config, nest: nat, cs: seq<Request>)
    requires cs == []
    ensures Jumper(cfg, nest, cs).None?
  {
  }

  lemma StartsClear(cfg: Config, nest: nat, i: Instr, st: State)
    requires !st.flags.jmp
    requires forall c | c in Calls(cfg, nest, i, st) :: !CallSub(cfg, nest, c.0, c.1).1.flags.jmp
    ensures forall c | c in Calls(cfg, nest, i, st) :: !c.1.flags.jmp
  {
    hide Calls, CallSub;
    CallsChain(cfg, nest, i, st);
    var cs := Calls(cfg, nest, i, st);
    forall j | 0 <= j < |cs|
      ensures !cs[j].1.flags.jmp
    {
      if j > 0 {
        assert cs[j - 1] in cs;
        assert cs[(j - 1) + 1].1 == CallSub(cfg, nest, cs[j - 1].0, cs[j - 1].1).1;
      }
    }
  }

  /**
   The first jump of a cycle decides where flow goes if and only if no call
   starts after it, or the last such call happens to leave the pointer there.
   */
  lemma FirstJumpWins(cfg: Config, nest: nat, addr: Path, st: State)
    requires NeutralCall(cfg, nest, addr, st) && !st.flags.jmp
    requires CallSub(cfg, nest, addr, st).1.flags.jmp
    ensures CallSub(cfg, nest, addr, st).1.ptr == FirstTarget(cfg, nest, addr, st)
       <==> Timely(cfg, nest, addr, st)
            || var last := Straggler(cfg, nest, addr, st);
               && last.Some?
               && Landing(cfg, last.value.0, last.value.1.0, last.value.1.1) == FirstTarget(cfg, nest, addr, st)
  {
    hide NeutralCall, CallSub, Straggler, Landing, FirstTarget, Timely;
    JumpEnds(cfg, nest, addr, st);
    TimelyExact(cfg, nest, addr, st);
  }

  // ----- a condition on the graph -----

  /** A node that neither jumps nor calls. */
  predicate Still(i: Instr) {
    i.Act? || i.Nop? || i.Entry? || i.Suspend? || i.Reset?
  }

  ghost predicate StillAt(cfg: Config, a: Path) {
    match Locate(cfg.graph, Descend(cfg.graph, a))
    case Hit(Leaf(i)) => Still(i)
    case _ => true
  }

  /** The addresses that node `i` at `p` may call before a further call of its own. */
  function Earlier(i: Instr, p: Path): seq<Path> {
    match i
    case IfHead(condOff, _, _, _, _, _) => [OffsetCopy(p, condOff)]
    case CondJump(condOff, _, _, _) => [OffsetCopy(p, condOff)]
    case LoopHead(condOff, _, _, _) => [OffsetCopy(p, condOff)]
    case TryHead(doPos, catches, finPos, thnPos, _) =>
      [NearCopy(p, doPos)]
      + (if finPos.Some? then seq(|catches|, k requires 0 <= k < |catches| => NearCopy(p, catches[k].1)) else [])
      + (if finPos.Some? && thnPos.Some? then [NearCopy(p, thnPos.value)] else [])
    case _ => []
  }

  /** Only the last node that a node calls may jump. */
  ghost predicate LastOnly(cfg: Config) {
    forall p: Path, i: Instr :: Locate(cfg.graph, p) == Hit(Leaf(i)) ==>
      forall a | a in Earlier(i, p) :: StillAt(cfg, a)
  }

  ghost predicate AllNeutral(cfg: Config) {
    forall p: Path, i: Instr :: Locate(cfg.graph, p) == Hit(Leaf(i)) ==> Neutral(i)
  }

  lemma StillCall(cfg: Config, nest: nat, a: Path, st: State)
    requires StillAt(cfg, a) && !st.flags.jmp
    ensures var st' := CallSub(cfg, nest, a, st).1; !st'.flags.jmp && st'.ptr == st.ptr
  {
    hide Descend, Locate;
    if |st.stack| < cfg.ovf {
      var st2 := st.(stack := st.stack + [st.ptr], ptr := a, outer := true);
      assert Front(st2.stack) == st.stack && Top(st2.stack) == st.ptr;
      if nest > 0 {
        var entered := Entered(cfg, a, st);
        match Locate(cfg.graph, Descend(cfg.graph, a))
        case Hit(Leaf(i)) => assert ExecNode(cfg, nest - 1, st2) == Exec(cfg, nest - 1, i, entered);
        case _ => assert ExecNode(cfg, nest - 1, st2) == (Throw(NullPointer), entered);
      }
    }
  }

  /** The two calls a condition head makes. */
  lemma TwoTimely(cfg: Config, nest: nat, i: Instr, st: State)
    requires i.IfHead? || i.CondJump? || i.LoopHead?
    requires !st.flags.jmp && forall a | a in Earlier(i, st.ptr) :: StillAt(cfg, a)
    ensures forall c | c in Calls(cfg, nest, i, st) :: !c.1.flags.jmp
  {
    hide CallSub, OffsetCopy;
    var a := OffsetCopy(st.ptr, i.condOff);
    assert a in Earlier(i, st.ptr);
    StillCall(cfg, nest, a, st);
  }

  /** The up to three calls of a TRY worker. */
  lemma TryTimely(cfg: Config, nest: nat, i: Instr, st: State)
    requires i.TryHead? && !st.flags.jmp && forall a | a in Earlier(i, st.ptr) :: StillAt(cfg, a)
    ensures forall c | c in Calls(cfg, nest, i, st) :: !c.1.flags.jmp
  {
    hide CallSub, NearCopy, FirstCatch, StillAt;
    var p := st.ptr;
    var ops := Earlier(i, p);
    assert ops[0] == NearCopy(p, i.doPos);
    StillCall(cfg, nest, ops[0], st);
    var (d, st1) := CallSub(cfg, nest, NearCopy(p, i.doPos), st);
    var second := TrySecond(cfg, i, d, st1);
    if i.finPos.Some? && second.Some? {
      if d.Throw? {
        var k := CatchListed(cfg, d.exn, i.catches);
        assert ops[k + 1] == NearCopy(p, i.catches[k].1);
      } else {
        assert ops[|ops| - 1] == NearCopy(p, i.thnPos.value);
      }
      assert second.value in ops;
      StillCall(cfg, nest, second.value, st1);
    }
  }

  lemma NodeTimely(cfg: Config, nest: nat, i: Instr, st: State)
    requires !st.flags.jmp && forall a | a in Earlier(i, st.ptr) :: StillAt(cfg, a)
    ensures forall c | c in Calls(cfg, nest, i, st) :: !c.1.flags.jmp
  {
    if i.TryHead? {
      TryTimely(cfg, nest, i, st);
    } else if i.IfHead? || i.CondJump? || i.LoopHead? {
      TwoTimely(cfg, nest, i, st);
    } else {
      hide CallSub, OffsetCopy, StillAt;
    }
  }

  /** If only the last node called may jump, no call ever starts after a jump. */
  lemma {:induction false} LastOnlyTimely(cfg: Config, nest: nat, addr: Path, st: State)
    requires LastOnly(cfg) && !st.flags.jmp
    ensures Timely(cfg, nest, addr, st)
    decreases nest
  {
    hide Calls, Earlier, StillAt;
    if |st.stack| < cfg.ovf && nest > 0 {
      match Locate(cfg.graph, Descend(cfg.graph, addr))
      case Hit(Leaf(i)) =>
        var entered := Entered(cfg, addr, st);
        NodeTimely(cfg, nest - 1, i, entered);
        forall c | c in Calls(cfg, nest - 1, i, entered)
          ensures Timely(cfg, nest - 1, c.0, c.1)
        {
          LastOnlyTimely(cfg, nest - 1, c.0, c.1);
        }
      case _ =>
    }
  }

  lemma {:induction false} AllNeutralCall(cfg: Config, nest: nat, addr: Path, st: State)
    requires AllNeutral(cfg)
    ensures NeutralCall(cfg, nest, addr, st)
    decreases nest
  {
    hide Calls;
    if |st.stack| < cfg.ovf && nest > 0 {
      match Locate(cfg.graph, Descend(cfg.graph, addr))
      case Hit(Leaf(i)) =>
        forall c | c in Calls(cfg, nest - 1, i, Entered(cfg, addr, st))
          ensures NeutralCall(cfg, nest - 1, c.0, c.1)
        {
          AllNeutralCall(cfg, nest - 1, c.0, c.1);
        }
      case _ =>
    }
  }

  /** On such graphs, then, the first jump decides, whatever the user nodes do. */
  lemma GraphJumpWins(cfg: Config, nest: nat, addr: Path, st: State)
    requires LastOnly(cfg) && AllNeutral(cfg) && !st.flags.jmp
    requires CallSub(cfg, nest, addr, st).1.flags.jmp
    ensures CallSub(cfg, nest, addr, st).1.ptr == FirstTarget(cfg, nest, addr, st)
  {
    hide NeutralCall, CallSub, Straggler, Landing, FirstTarget, Timely, LastOnly, AllNeutral;
    AllNeutralCall(cfg, nest, addr, st);
    LastOnlyTimely(cfg, nest, addr, st);
    FirstJumpWins(cfg, nest, addr, st);
  }

  // ----- a call started after a jump -----

  /**
   A TRY whose body jumps out still calls FINALLY, by its slot number, but in
   the container the jump led to; the pointer ends on the node found there.
   */
  lemma FinallyAfterJump(cfg: Config, st: State, p: Path, head: Instr, name: Name, target: Path, other: Id)
    requires head.TryHead? && head.thnPos.None? && head.finPos.Some? && st.ptr == p && p != []
    requires Locate(cfg.graph, NearCopy(p, head.doPos)) == Hit(Leaf(JumpTo(name)))
    requires name in cfg.aliases && cfg.aliases[name] == target && target != [] && Locate(cfg.graph, target).Hit?
    requires Locate(cfg.graph, NearCopy(target, head.finPos.value)) == Hit(Leaf(Act(other)))
    requires Active(st) && cfg.nest >= 1 && |st.stack| < cfg.ovf && cfg.oracle(st.trace + [other]).Ret?
    ensures var (out, st') := Exec(cfg, cfg.nest, head, st);
            && out.Ret? && st'.flags.jmp && st'.stack == st.stack
            && st'.trace == st.trace + [other] && st'.ptr == NearCopy(target, head.finPos.value)
  {
    hide CallSub, Locate, Descend, FirstCatch, NearCopy;
    var body, fin := NearCopy(p, head.doPos), NearCopy(target, head.finPos.value);
    var st1 := Marked(st).(ptr := target);
    CalledJump(cfg, cfg.nest, body, name, st);
    assert CallSub(cfg, cfg.nest, body, st) == (OK, st1);
    LateUserCall(cfg, cfg.nest, fin, other, st1);
  }

  /** A user node called while a jump is pending keeps the pointer. */
  lemma LateUserCall(cfg: Config, nest: nat, a: Path, id: Id, st: State)
    requires Locate(cfg.graph, a) == Hit(Leaf(Act(id))) && st.flags.jmp && !st.outer
    requires nest >= 1 && |st.stack| < cfg.ovf
    ensures CallSub(cfg, nest, a, st) == (cfg.oracle(st.trace + [id]), st.(trace := st.trace + [id], ptr := a))
  {
    hide Locate, Descend;
    LeafDescends(cfg.graph, a);
    var inner := st.(stack := st.stack + [st.ptr], ptr := a, outer := true);
    assert ExecNode(cfg, nest - 1, inner) == Exec(cfg, nest - 1, Act(id), inner);
    assert Front(inner.stack) == st.stack;
  }
}
