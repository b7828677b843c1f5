/**
 Source programs of the control-flow clauses, FN / INTER_FN routines and
 CALL / INT, the graph they render to, and what they mean.
 */
module Native {
  import opened Options
  import opened Addressing
  import opened Machine

  /** One element of a source composition. */
  datatype Src =
    | Work(id: Id)                                           // a user node
    | Skip                                                   // NOP
    | Pause                                                  // SUSPEND
    | Break                                                  // BREAK_LOOP()
    | Continue                                               // CONTINUE()
    | CallFn(name: Name)                                     // CALL of the entry of an FN block
    | IntTo(name: Name, ifState: bool)                       // INT to the entry of an INTER_FN block
    | Block(items: seq<Src>)                                 // NodeCompose
    | While(cond: Id, body: Src)                             // NATIVE_WHILE(cond).ACTION(body)
    | DoWhile(body: Src, cond: Id)                           // NATIVE_DO(body).WHILE(cond)
    | If(arms: seq<Arm>, els: Option<Src>, extracted: bool)  // NATIVE_IF(..).ELIF(..).ELSE(..), maybe already extracted
    | Choose(arms: seq<Arm>, els: Option<Src>)               // IF(..).ELIF(..).ELSE(..)
    | Repeat(cond: Id, body: Src)                            // WHILE(cond).ACTION(body)
    | Attempt(body: Src, catches: seq<Catch>, thn: Option<Src>, fin: Option<Src>)  // Try(body).CATCH(..) and so on
    | Archive(body: Src)                                     // ARCHIVED_SEGMENT(body)
    | Fn(name: Name, body: Src)                              // FN(name, body)
    | InterFn(name: Name, body: Src)                         // INTER_FN(name, body)

  datatype Arm = Arm(cond: Id, body: Src)
  datatype Catch = Catch(cls: ExnClass, handler: Src)

  /** A top-level composition, and the routines that stand anywhere in it, by name. */
  datatype Program = Program(main: seq<Src>, fns: map<Name, Src>, handlers: map<Name, Src>)

  /** Where CONTINUE and BREAK_LOOP go inside the container of the loop that encloses them. */
  datatype Scope = NoLoop | InLoop(head: nat, exit: nat)

  const WHILE_SCOPE := InLoop(0, 3)
  const DO_SCOPE := InLoop(2, 4)

  predicate Single(s: Src) {
    s.Work? || s.Skip? || s.Pause? || s.Break? || s.Continue? || s.CallFn? || s.IntTo?
  }

  /** The clauses that execute their parts by subroutine calls. */
  predicate IsClause(s: Src) {
    s.Choose? || s.Repeat? || s.Attempt?
  }

  /** The loop-control nodes of a not yet extracted NATIVE_IF are out of the scanner's sight. */
  function Seen(s: Src, sc: Scope): Scope {
    if s.If? && !s.extracted then NoLoop else sc
  }

  // ----- the slots of a clause -----

  function ThnSlot(s: Src): nat
    requires s.Attempt?
  {
    2 + |s.catches|
  }

  function FinSlot(s: Src): nat
    requires s.Attempt?
  {
    ThnSlot(s) + if s.thn.Some? then 1 else 0
  }

  /** The slot of the closing NOP. */
  function Exit(s: Src): nat
    requires IsClause(s)
  {
    match s
    case Choose(arms, els) => 3 * |arms| + if els.Some? then 2 else 0
    case Repeat(_, _) => 4
    case Attempt(_, _, _, fin) => FinSlot(s) + if fin.Some? then 1 else 0
  }

  /** The element its author put into slot `j`. */
  function PartIn(s: Src, j: nat): (r: Option<Src>)
    requires IsClause(s)
    ensures r.Some? ==> r.value < s && 0 < j < Exit(s)
  {
    match s
    case Choose(arms, els) =>
      if j / 3 < |arms| then if j % 3 == 2 then Some(arms[j / 3].body) else None
      else if j == 3 * |arms| + 1 then els
      else None
    case Repeat(_, body) => if j == 2 then Some(body) else None
    case Attempt(body, catches, thn, fin) =>
      if j == 1 then Some(body)
      else if 2 <= j < ThnSlot(s) then Some(catches[j - 2].handler)
      else if thn.Some? && j == ThnSlot(s) then thn
      else if j == FinSlot(s) then fin
      else None
  }

  /** The condition in slot `j`. */
  function CondIn(s: Src, j: nat): Option<Id>
    requires IsClause(s)
  {
    match s
    case Choose(arms, _) => if j / 3 < |arms| && j % 3 == 1 then Some(arms[j / 3].cond) else None
    case Repeat(c, _) => if j == 1 then Some(c) else None
    case _ => None
  }

  function CatchTable(catches: seq<Catch>, base: nat): seq<(ExnClass, nat)>
    decreases |catches|
  {
    if catches == [] then [] else [(catches[0].cls, base)] + CatchTable(catches[1..], base + 1)
  }

  /** The k-th CATCH is listed with the k-th slot from `base` on. */
  lemma {:induction false} CatchTableAt(catches: seq<Catch>, base: nat, k: nat)
    requires k < |catches|
    ensures |CatchTable(catches, base)| == |catches| && CatchTable(catches, base)[k] == (catches[k].cls, base + k)
    decreases |catches|
  {
    if k > 0 {
      CatchTableAt(catches[1..], base + 1, k - 1);
    } else if |catches| > 1 {
      CatchTableAt(catches[1..], base + 1, 0);
    } else {
      assert CatchTable(catches[1..], base + 1) == [];
    }
  }

  lemma NoCatches(catches: seq<Catch>)
    requires catches == []
    ensures CatchTable(catches, 2) == []
  {
  }

  /** The instruction in a slot that holds neither a part nor a condition. */
  function HeadIn(s: Src, j: nat): Instr
    requires IsClause(s)
  {
    match s
    case Choose(arms, _) => if j / 3 < |arms| then CondJump(1, 2, 3, Exit(s)) else ElseDo(1, 2)
    case Repeat(_, _) => if j == 3 then JumpNear(0) else LoopHead(1, 2, 3, 4)
    case Attempt(_, catches, thn, fin) =>
      TryHead(1, CatchTable(catches, 2), if fin.Some? then Some(FinSlot(s)) else None,
              if thn.Some? then Some(ThnSlot(s)) else None, Exit(s))
  }

  // ----- layout -----

  function NodeOf(s: Src, sc: Scope): Instr
    requires Single(s)
  {
    match s
    case Work(id) => Act(id)
    case Skip => Nop
    case Pause => Suspend
    case Break => Control(if sc.NoLoop? then None else Some(sc.exit))
    case Continue => Control(if sc.NoLoop? then None else Some(sc.head))
    case CallFn(f) => Call(f)
    case IntTo(h, b) => Interrupt(h, None, b)
  }

  /** The child a source element renders to inside a composition. */
  function Item(s: Src, sc: Scope): Tree<Instr>
    decreases s, 3
  {
    if Single(s) then Leaf(NodeOf(s, sc)) else Box(Parts(s, Seen(s, sc)))
  }

  function Items(ss: seq<Src>, sc: Scope): (r: seq<Tree<Instr>>)
    ensures |r| == |ss|
    decreases ss, 0
  {
    seq(|ss|, i requires 0 <= i < |ss| => Item(ss[i], sc))
  }

  /** An element that its surroundings have extracted, in a slot of its own. */
  function Nested(s: Src, sc: Scope): Tree<Instr>
    decreases s, 2
  {
    if Single(s) then Leaf(NodeOf(s, sc)) else Box(Parts(s, sc))
  }

  /** The children of a body slot: a single node as it is, anything else spliced in. */
  function Slot(s: Src, sc: Scope): seq<Tree<Instr>>
    decreases s, 2
  {
    if Single(s) then [Leaf(NodeOf(s, sc))] else Parts(s, sc)
  }

  function LoopBody(s: Src, sc: Scope): seq<Tree<Instr>>
    requires sc.InLoop?
    decreases s, 4
  {
    Slot(s, sc) + [Leaf(Control(Some(sc.head)))]
  }

  function ElseWidth(els: Option<Src>): nat {
    if els.None? || Single(els.value) then 1 else 2
  }

  function MergePos(s: Src): nat
    requires s.If?
  {
    3 * |s.arms| + ElseWidth(s.els)
  }

  function HeadOf(s: Src, k: nat): Instr
    requires s.If? && k < |s.arms|
  {
    var falsePos := if k + 1 < |s.arms| || s.els.Some? then 3 * (k + 1) else MergePos(s);
    IfHead(1, 2, 3 * k + 2, MergePos(s), falsePos, Single(s.arms[k].body))
  }

  function ArmParts(s: Src, k: nat, sc: Scope): (r: seq<Tree<Instr>>)
    requires s.If? && k <= |s.arms|
    ensures |r| == 3 * (|s.arms| - k)
    decreases s, 0, |s.arms| - k
  {
    if k == |s.arms| then []
    else [Leaf(HeadOf(s, k)), Leaf(Act(s.arms[k].cond)), Nested(s.arms[k].body, sc)] + ArmParts(s, k + 1, sc)
  }

  function ElseParts(s: Src, sc: Scope): (r: seq<Tree<Instr>>)
    requires s.If?
    ensures |r| == ElseWidth(s.els)
    decreases s, 0, 0
  {
    match s.els
    case None => [Leaf(Nop)]
    case Some(e) =>
      if Single(e) then [Leaf(NodeOf(e, sc))] else [Leaf(EnterBody(3 * |s.arms| + 1, false)), Nested(e, sc)]
  }

  /** Slot `j` of an extracted clause. Its parts are not extracted with it. */
  function SlotTree(s: Src, j: nat): Tree<Instr>
    requires IsClause(s)
    decreases s, 0, 0
  {
    if j >= Exit(s) then Leaf(Nop)
    else if PartIn(s, j).Some? then Item(PartIn(s, j).value, NoLoop)
    else if CondIn(s, j).Some? then Leaf(Act(CondIn(s, j).value))
    else Leaf(HeadIn(s, j))
  }

  function Slots(s: Src): (r: seq<Tree<Instr>>)
    requires IsClause(s)
    ensures |r| == Exit(s) + 1
    decreases s, 0, 1
  {
    seq(Exit(s) + 1, j requires 0 <= j <= Exit(s) => SlotTree(s, j))
  }

  /** FN and INTER_FN: escape, entry alias on a NOP, body, return. */
  function RoutineParts(name: Name, body: Src, sc: Scope, ret: Instr): (r: seq<Tree<Instr>>)
    ensures |r| == 4
    decreases body, 3
  {
    [Leaf(Escape), Leaf(Entry(name)), Nested(body, sc), Leaf(ret)]
  }

  /** The children of the composition an instruction extracts to. */
  function Parts(s: Src, sc: Scope): seq<Tree<Instr>>
    requires !Single(s)
    decreases s, 1
  {
    match s
    case Block(body) => Items(body, sc)
    case While(c, body) =>
      [Leaf(WhileHead(1, 2, 0, 3)), Leaf(Act(c)), Box(LoopBody(body, WHILE_SCOPE)), Leaf(Nop)]
    case DoWhile(body, c) =>
      [Leaf(EnterBody(1, true)), Box(LoopBody(body, DO_SCOPE)), Leaf(DoCheck(1, 0, 4)), Leaf(Act(c)), Leaf(Nop)]
    case If(_, _, _) => ArmParts(s, 0, sc) + ElseParts(s, sc) + [Leaf(Nop)]
    case Archive(body) => [Leaf(JumpOffset(2)), Nested(body, sc), Leaf(Nop)]
    case Fn(name, body) => RoutineParts(name, body, sc, Return)
    case InterFn(name, body) => RoutineParts(name, body, sc, IntReturn)
    case Choose(_, _) => Slots(s)
    case Repeat(_, _) => Slots(s)
    case Attempt(_, _, _, _) => Slots(s)
  }

  function Graph(p: Program): Tree<Instr> {
    Box(Items(p.main, NoLoop))
  }

  // ----- what running a part of a program needs of the graph around it -----

  /** The alias of a routine stands for the NOP in its second slot. */
  ghost predicate RoutineAt(cfg: Config, name: Name, body: Src, ret: Instr) {
    && name in cfg.aliases
    && var a := cfg.aliases[name];
       && a != [] && Last(a) == 1
       && Locate(cfg.graph, Parent(a)).Hit? && Locate(cfg.graph, Parent(a)).tree.Box?
       && RoutineParts(name, body, NoLoop, ret) <= Locate(cfg.graph, Parent(a)).tree.kids
  }

  ghost predicate Linked(p: Program, cfg: Config) {
    && cfg.nest >= 1
    && (forall f | f in p.fns :: RoutineAt(cfg, f, p.fns[f], Return))
    && (forall h | h in p.handlers :: RoutineAt(cfg, h, p.handlers[h], IntReturn))
  }

  // ----- meaning -----

  datatype Out = Normal | Broke | Continued | Err(exn: Exn) | Timeout

  datatype Result = Result(out: Out, trace: seq<Id>)

  /** Depth of the return stack and of the context stack, and whether an interrupt handler runs. */
  datatype Level = Level(depth: nat, ctxDepth: nat, iff: bool)

  function Deeper(at: Level): Level {
    at.(depth := at.depth + 1)
  }

  function Observe(cfg: Config, id: Id, tr: seq<Id>): Result {
    match cfg.oracle(tr + [id])
    case Ret(_) => Result(Normal, tr + [id])
    case Throw(e) => Result(Err(e), tr + [id])
  }

  /** A user node, a NOP or a SUSPEND where flow meets it. */
  function EvalNode(cfg: Config, s: Src, tr: seq<Id>): Result {
    if s.Work? then Observe(cfg, s.id, tr) else if s.Pause? then Result(Err(Suspended), tr) else Result(Normal, tr)
  }

  /** The same node executed by a subroutine call, which needs room for one stack entry. */
  function EvalCalled(cfg: Config, s: Src, at: Level, tr: seq<Id>): Result {
    if at.depth >= cfg.ovf then Result(Err(StackOverflow), tr) else EvalNode(cfg, s, tr)
  }

  /** A condition is called as a subroutine, too. */
  function Evaluate(cfg: Config, at: Level, c: Id, tr: seq<Id>): (Outcome, seq<Id>) {
    if at.depth >= cfg.ovf then (Throw(StackOverflow), tr) else (cfg.oracle(tr + [c]), tr + [c])
  }

  /** IF, ELIF, ELSE: the first branch whose condition holds, else the ELSE branch, else nothing. */
  function EvalChoose(cfg: Config, arms: seq<Arm>, els: Option<Src>, at: Level, tr: seq<Id>): Result
    decreases |arms|
  {
    if arms == [] then
      if els.None? then Result(Normal, tr) else EvalCalled(cfg, els.value, at, tr)
    else
      var test := Evaluate(cfg, at, arms[0].cond, tr);
      if test.0.Throw? then Result(Err(test.0.exn), test.1)
      else if test.0.value then EvalCalled(cfg, arms[0].body, at, test.1)
      else EvalChoose(cfg, arms[1..], els, at, test.1)
  }

  /** The first CATCH that takes an exception. */
  function FirstMatch(cfg: Config, e: Exn, catches: seq<Catch>): (r: Option<nat>)
    ensures r.Some? ==> r.value < |catches| && cfg.instance(e, catches[r.value].cls)
    decreases |catches|
  {
    if catches == [] then None
    else if cfg.instance(e, catches[0].cls) then Some(0)
    else
      var r := FirstMatch(cfg, e, catches[1..]);
      if r.Some? then Some(r.value + 1) else None
  }

  /** No CATCH before it takes the exception; without one, no CATCH does. */
  lemma {:induction false} FirstMatchExact(cfg: Config, e: Exn, catches: seq<Catch>)
    ensures match FirstMatch(cfg, e, catches)
            case None => forall i | 0 <= i < |catches| :: !cfg.instance(e, catches[i].cls)
            case Some(k) =>
              && k < |catches| && cfg.instance(e, catches[k].cls)
              && forall i | 0 <= i < k :: !cfg.instance(e, catches[i].cls)
    decreases |catches|
  {
    if catches != [] {
      FirstMatchExact(cfg, e, catches[1..]);
      assert forall i | 0 < i < |catches| :: catches[i] == catches[1..][i - 1];
    }
  }

  /** The slot called after the tried node: THEN after success, the first matching handler after a failure. */
  function Second(cfg: Config, s: Src, e: Option<Exn>): (r: Option<nat>)
    requires s.Attempt?
    ensures r.Some? ==> 2 <= r.value < FinSlot(s) && PartIn(s, r.value).Some?
  {
    if e.None? then if s.thn.Some? then Some(ThnSlot(s)) else None
    else if cfg.ignored(e.value) then None
    else
      var i := FirstMatch(cfg, e.value, s.catches);
      if i.Some? then Some(2 + i.value) else None
  }

  /**
   THEN is called after success only, a handler only for an exception that is
   not ignored and that no CATCH before it takes, and nothing otherwise.
   */
  lemma SecondExact(cfg: Config, s: Src, e: Option<Exn>)
    requires s.Attempt?
    ensures match Second(cfg, s, e)
            case None =>
              if e.None? then s.thn.None?
              else cfg.ignored(e.value) || forall i | 0 <= i < |s.catches| :: !cfg.instance(e.value, s.catches[i].cls)
            case Some(j) =>
              if e.None? then PartIn(s, j) == s.thn && s.thn.Some?
              else
                && !cfg.ignored(e.value) && 2 <= j < 2 + |s.catches|
                && PartIn(s, j) == Some(s.catches[j - 2].handler) && cfg.instance(e.value, s.catches[j - 2].cls)
                && forall i | 0 <= i < j - 2 :: !cfg.instance(e.value, s.catches[i].cls)
  {
    if e.Some? {
      FirstMatchExact(cfg, e.value, s.catches);
    }
  }

  function Failure(out: Out): Option<Exn> {
    if out.Err? then Some(out.exn) else None
  }

  // ----- clauses as their author reads them -----

  /** A part that is itself a clause runs as a whole while it is called. */
  function IdealCall(cfg: Config, s: Src, at: Level, fuel: nat, tr: seq<Id>): Result
    decreases fuel, s, 2
  {
    if IsClause(s) && at.depth < cfg.ovf then Ideal(cfg, s, Deeper(at), fuel, tr) else EvalCalled(cfg, s, at, tr)
  }

  function Ideal(cfg: Config, s: Src, at: Level, fuel: nat, tr: seq<Id>): Result
    requires IsClause(s)
    decreases fuel, s, 1
  {
    match s
    case Choose(arms, els) => EvalChoose(cfg, arms, els, at, tr)
    case Repeat(c, body) =>
      var test := Evaluate(cfg, at, c, tr);
      if test.0.Throw? then Result(Err(test.0.exn), test.1)
      else if !test.0.value then Result(Normal, test.1)
      else
        var r := IdealCall(cfg, body, at, fuel, test.1);
        if r.out == Err(BreakLoop) then Result(Normal, r.trace)
        else if !r.out.Normal? then r
        else if fuel == 0 then Result(Timeout, r.trace)
        else Ideal(cfg, s, at, fuel - 1, r.trace)
    case Attempt(body, _, _, fin) =>
      var r := IdealCall(cfg, body, at, fuel, tr);
      if !(r.out.Normal? || r.out.Err?) then r
      else
        var next := Second(cfg, s, Failure(r.out));
        var r2 := if next.None? then r else IdealCall(cfg, PartIn(s, next.value).value, at, fuel, r.trace);
        if fin.None? || !(r2.out.Normal? || r2.out.Err?) then r2
        else
          var f := IdealCall(cfg, fin.value, at, fuel, r2.trace);
          if f.out.Normal? then Result(r2.out, f.trace) else f
  }

  // ----- clauses as the machine runs them -----

  /**
   What a subroutine call comes back with: an exception, and the address of
   the node the pointer was left on if a jump is pending.
   */
  datatype Called = Called(exn: Option<Exn>, land: Option<Path>, trace: seq<Id>)

  /** The same, seen from the container whose slot `k` was called. */
  function Below(r: Called, k: nat): Called {
    if r.land.Some? then r.(land := Some([k] + r.land.value)) else r
  }

  /** What a worker does that has called slot `k` and then jumps to its own slot `own`: only a first jump counts. */
  function JumpedFrom(r: Called, k: nat, own: nat): Called {
    Called(None, Some(if r.land.Some? then [k] + r.land.value else [own]), r.trace)
  }

  function CallCond(cfg: Config, nest: nat, at: Level, c: Id, tr: seq<Id>): (Outcome, seq<Id>) {
    if at.depth < cfg.ovf && nest == 0 then (Throw(RecursionLimit), tr) else Evaluate(cfg, at, c, tr)
  }

  /** A part called from its clause's worker: of a part that is a clause, only the head runs. */
  function CallPart(cfg: Config, nest: nat, s: Src, at: Level, tr: seq<Id>): (r: Called)
    ensures r.land.Some? ==> r.land.value != []
    decreases s, 1
  {
    if at.depth < cfg.ovf && nest == 0 then Called(Some(RecursionLimit), None, tr)
    else if at.depth < cfg.ovf && IsClause(s) then CallHead(cfg, nest - 1, s, Deeper(at), tr)
    else
      var r := EvalCalled(cfg, s, at, tr);
      Called(Failure(r.out), None, r.trace)
  }

  // ----- calls made while a jump is pending -----

  /** What such a call returns or raises, and the node it leaves the pointer on. */
  datatype Late = Late(out: Outcome, land: Path, trace: seq<Id>)

  /**
   A call of address `a` of the container `t`, from a machine that stands at
   `here` with a jump pending. The node is looked up where it is called,
   however it got there, and the pointer stays on it.
   */
  function LateCall(cfg: Config, nest: nat, t: Tree<Instr>, here: Path, a: Path, at: Level, tr: seq<Id>): (r: Late)
    requires here != [] && a != []
    ensures r.land != []
    decreases nest, 0
  {
    if at.depth >= cfg.ovf then Late(Throw(StackOverflow), here, tr)
    else if nest == 0 then Late(Throw(RecursionLimit), a, tr)
    else
      var p := Descend(t, a);
      match Locate(t, p)
      case Hit(Leaf(i)) => LateNode(cfg, nest - 1, t, i, p, Deeper(at), tr)
      case _ => Late(Throw(NullPointer), p, tr)
  }

  /** A node executed then: its jumps do nothing, and each of its calls is made from where the last one left off. */
  function LateNode(cfg: Config, nest: nat, t: Tree<Instr>, i: Instr, p: Path, at: Level, tr: seq<Id>): (r: Late)
    requires p != []
    ensures r.land != []
    decreases nest, 1
  {
    match i
    case Act(id) => Late(cfg.oracle(tr + [id]), p, tr + [id])
    case Suspend => Late(Throw(Suspended), p, tr)
    case CondJump(condOff, doOff, _, _) =>
      var c := LateCall(cfg, nest, t, p, OffsetCopy(p, condOff), at, tr);
      if c.out == Ret(true) then Calm(LateCall(cfg, nest, t, c.land, OffsetCopy(c.land, doOff), at, c.trace))
      else Calm(c)
    case ElseDo(doOff, _) => Calm(LateCall(cfg, nest, t, p, OffsetCopy(p, doOff), at, tr))
    case LoopHead(condOff, doOff, _, _) =>
      var c := LateCall(cfg, nest, t, p, OffsetCopy(p, condOff), at, tr);
      if c.out == Ret(true) then
        var d := LateCall(cfg, nest, t, c.land, OffsetCopy(c.land, doOff), at, c.trace);
        if d.out == Throw(BreakLoop) then d.(out := OK) else Calm(d)
      else Calm(c)
    case TryHead(doPos, catches, finPos, thnPos, _) =>
      var d := LateCall(cfg, nest, t, p, NearCopy(p, doPos), at, tr);
      var next := if d.out.Ret? then thnPos
                  else if cfg.ignored(d.out.exn) then None
                  else FirstCatch(cfg, d.out.exn, catches);
      var d2 := if next.None? then d else LateCall(cfg, nest, t, d.land, NearCopy(d.land, next.value), at, d.trace);
      if finPos.None? then Calm(d2)
      else
        var f := LateCall(cfg, nest, t, d2.land, NearCopy(d2.land, finPos.value), at, d2.trace);
        if f.out.Throw? then f else Calm(f.(out := d2.out))
    case _ => Late(OK, p, tr)
  }

  /** A worker that has come to its end returns nothing. */
  function Calm(r: Late): (c: Late)
    ensures c.land == r.land && c.trace == r.trace
  {
    if r.out.Throw? then r else r.(out := OK)
  }

  /** An address inside one of the clause's parts. */
  predicate InPart(s: Src, pos: Path)
    requires IsClause(s)
  {
    |pos| >= 2 && pos[0] < Exit(s)
  }

  /** The worker of a Try calling its slot `j`, with a jump to `land` pending or none. */
  function CallSlot(cfg: Config, nest: nat, s: Src, j: nat, land: Option<Path>, at: Level, tr: seq<Id>): (r: Called)
    requires s.Attempt? && PartIn(s, j).Some? && (land.Some? ==> InPart(s, land.value))
    ensures r.land.Some? ==> InPart(s, r.land.value)
    ensures land.Some? ==> r.land.Some?
    decreases s, 0, 0
  {
    if land.Some? then
      var k, here := land.value[0], land.value[1..];
      var r := LateCall(cfg, nest, SlotTree(s, k), here, NearCopy(here, j), at, tr);
      Called(if r.out.Throw? then Some(r.out.exn) else None, Some([k] + r.land), r.trace)
    else Below(CallPart(cfg, nest, PartIn(s, j).value, at, tr), j)
  }

  /** What the worker of a Try comes to after its first calls: FINALLY, and the jump past the handlers. */
  function Finished(cfg: Config, nest: nat, s: Src, r: Called, at: Level): (f: Called)
    requires s.Attempt? && (r.land.Some? ==> InPart(s, r.land.value))
    ensures f.land.Some? ==> f.land.value != []
    ensures f.exn.None? ==> f.land.Some?
    decreases s, 0, 1
  {
    var f := if s.fin.None? then r.(exn := None) else CallSlot(cfg, nest, s, FinSlot(s), r.land, at, r.trace);
    if f.exn.Some? then f
    else if r.exn.Some? then f.(exn := r.exn)
    else f.(land := Some(if f.land.Some? then f.land.value else [Exit(s)]))
  }

  /** The head of a clause, executed where the stack is `at` deep. */
  function CallHead(cfg: Config, nest: nat, s: Src, at: Level, tr: seq<Id>): (r: Called)
    requires IsClause(s)
    ensures r.land.Some? ==> r.land.value != []
    ensures r.exn.None? ==> r.land.Some?
    decreases s, 0, 2
  {
    match s
    case Choose(arms, els) =>
      if arms == [] then Called(None, Some([Exit(s)]), tr)
      else
        var test := CallCond(cfg, nest, at, arms[0].cond, tr);
        if test.0.Throw? then Called(Some(test.0.exn), None, test.1)
        else if !test.0.value then Called(None, Some([3]), test.1)
        else
          var r := CallPart(cfg, nest, arms[0].body, at, test.1);
          if r.exn.None? then JumpedFrom(r, 2, Exit(s)) else Below(r, 2)
    case Repeat(c, body) =>
      var test := CallCond(cfg, nest, at, c, tr);
      if test.0.Throw? then Called(Some(test.0.exn), None, test.1)
      else if !test.0.value then Called(None, Some([4]), test.1)
      else
        var r := CallPart(cfg, nest, body, at, test.1);
        if r.exn == Some(BreakLoop) then JumpedFrom(r, 2, 4)
        else if r.exn.None? then JumpedFrom(r, 2, 3)
        else Below(r, 2)
    case Attempt(_, _, _, _) =>
      var r := CallSlot(cfg, nest, s, 1, None, at, tr);
      var next := Second(cfg, s, r.exn);
      var r2 := if next.None? then r else CallSlot(cfg, nest, s, next.value, r.land, at, r.trace);
      Finished(cfg, nest, s, r2, at)
  }

  /** There is nothing to execute at an address. No head ever leads to one. */
  function NoNode(tr: seq<Id>): Result {
    Result(Err(NullPointer), tr)
  }

  /** Flow meeting a clause: its head, then whatever the head's jump leads to. */
  function Actual(cfg: Config, s: Src, at: Level, fuel: nat, tr: seq<Id>): Result
    requires IsClause(s)
    decreases fuel, s, 3, 0
  {
    if s.Choose? then EvalChoose(cfg, s.arms, s.els, at, tr)
    else
      var r := CallHead(cfg, cfg.nest, s, at, tr);
      if r.exn.Some? then Result(Err(r.exn.value), r.trace)
      else ActualFrom(cfg, s, r.land.value, at, fuel, r.trace)
  }

  /** Flow going on at an address inside the clause's container. */
  function ActualFrom(cfg: Config, s: Src, pos: Path, at: Level, fuel: nat, tr: seq<Id>): Result
    requires IsClause(s)
    decreases fuel, s, 2, 0
  {
    if pos == [] then NoNode(tr)
    else if |pos| == 1 then ActualOn(cfg, s, pos[0], at, fuel, tr)
    else
      match PartIn(s, pos[0])
      case Some(x) =>
        if !IsClause(x) then NoNode(tr)
        else
          var r := ActualFrom(cfg, x, pos[1..], at, fuel, tr);
          if r.out.Normal? then ActualOn(cfg, s, pos[0] + 1, at, fuel, r.trace) else r
      case None => NoNode(tr)
  }

  /** Flow going on with slot `j`: nothing jumps over the parts that follow. */
  function ActualOn(cfg: Config, s: Src, j: nat, at: Level, fuel: nat, tr: seq<Id>): Result
    requires IsClause(s)
    decreases fuel, s, 1, if j <= Exit(s) then Exit(s) - j else 0
  {
    if j == Exit(s) then Result(Normal, tr)
    else if j > Exit(s) then NoNode(tr)
    else if PartIn(s, j).Some? then
      var r := ActualPart(cfg, PartIn(s, j).value, at, fuel, tr);
      if r.out.Normal? then ActualOn(cfg, s, j + 1, at, fuel, r.trace) else r
    else if CondIn(s, j).Some? then
      var r := Observe(cfg, CondIn(s, j).value, tr);
      if r.out.Normal? then ActualOn(cfg, s, j + 1, at, fuel, r.trace) else r
    else
      match s
      case Choose(arms, els) => EvalChoose(cfg, arms[if j / 3 < |arms| then j / 3 else |arms|..], els, at, tr)
      case Repeat(_, _) =>
        if j == 0 then NoNode(tr)
        else if fuel == 0 then Result(Timeout, tr)
        else Actual(cfg, s, at, fuel - 1, tr)
      case Attempt(_, _, _, _) => NoNode(tr)
  }

  /** A part that flow runs into. */
  function ActualPart(cfg: Config, s: Src, at: Level, fuel: nat, tr: seq<Id>): Result
    decreases fuel, s, 4, 0
  {
    if IsClause(s) then Actual(cfg, s, at, fuel, tr) else EvalNode(cfg, s, tr)
  }

  // ----- programs -----

  /**
   The meaning of a source element, by recursion on its structure; `fuel`
   bounds loop iterations and calls. With `std` set this is what an author
   expects of structured code; without it, what the rendered graph does:
   a body made of several nodes falls through into the next ELIF or ELSE,
   a clause inside a clause is only entered by the call that should run it,
   loop control inside a hidden NATIVE_IF was never configured, and an empty
   composition cannot be addressed.
   */
  function Eval(p: Program, cfg: Config, std: bool, s: Src, sc: Scope, at: Level, fuel: nat, tr: seq<Id>): Result
    decreases fuel, s, 1, 0
  {
    match s
    case Break => Result(if sc.NoLoop? then Err(NotConfigured) else Broke, tr)
    case Continue => Result(if sc.NoLoop? then Err(NotConfigured) else Continued, tr)
    case CallFn(f) =>
      if f !in p.fns then Result(Err(NullPointer), tr)
      else if at.depth >= cfg.ovf then Result(Err(StackOverflow), tr)
      else if fuel == 0 then Result(Timeout, tr)
      else EvalItem(p, cfg, std, p.fns[f], NoLoop, Deeper(at), fuel - 1, tr)
    case IntTo(h, b) =>
      if h !in p.handlers then Result(Err(NullPointer), tr)
      else if at.iff then Result(Err(NestedInterrupt), tr)
      else if at.ctxDepth >= cfg.ctxOvf then Result(Err(StackOverflow), tr)
      else if fuel == 0 then Result(Timeout, tr)
      else EvalItem(p, cfg, std, p.handlers[h], NoLoop, at.(ctxDepth := at.ctxDepth + 1, iff := b), fuel - 1, tr)
    case Block(body) => EvalSeq(p, cfg, std, body, sc, at, fuel, tr)
    case While(c, body) =>
      var test := Evaluate(cfg, at, c, tr);
      if test.0.Throw? then Result(Err(test.0.exn), test.1)
      else if !test.0.value then Result(Normal, test.1)
      else if fuel == 0 then Result(Timeout, test.1)
      else
        var r := Eval(p, cfg, std, body, WHILE_SCOPE, Deeper(at), fuel - 1, test.1);
        if r.out.Broke? then Result(Normal, r.trace)
        else if r.out.Normal? || r.out.Continued? then Eval(p, cfg, std, s, sc, at, fuel - 1, r.trace)
        else r
    case DoWhile(body, c) =>
      if at.depth >= cfg.ovf then Result(Err(StackOverflow), tr)
      else if fuel == 0 then Result(Timeout, tr)
      else
        var r := Eval(p, cfg, std, body, DO_SCOPE, Deeper(at), fuel - 1, tr);
        if r.out.Broke? then Result(Normal, r.trace)
        else if !(r.out.Normal? || r.out.Continued?) then r
        else
          var test := Evaluate(cfg, at, c, r.trace);
          if test.0.Throw? then Result(Err(test.0.exn), test.1)
          else if test.0.value then Eval(p, cfg, std, s, sc, at, fuel - 1, test.1)
          else Result(Normal, test.1)
    case If(_, _, _) => EvalIf(p, cfg, std, s, 0, sc, at, fuel, tr)
    case Choose(_, _) => EvalClause(cfg, std, s, at, fuel, tr)
    case Repeat(_, _) => EvalClause(cfg, std, s, at, fuel, tr)
    case Attempt(_, _, _, _) => EvalClause(cfg, std, s, at, fuel, tr)
    case Archive(_) => Result(Normal, tr)
    case Fn(_, _) => Result(Normal, tr)
    case InterFn(_, _) => Result(Normal, tr)
    case _ => EvalNode(cfg, s, tr)
  }

  function EvalClause(cfg: Config, std: bool, s: Src, at: Level, fuel: nat, tr: seq<Id>): Result
    requires IsClause(s)
  {
    if std then Ideal(cfg, s, at, fuel, tr) else Actual(cfg, s, at, fuel, tr)
  }

  /** An element met as the child of a composition. */
  function EvalItem(p: Program, cfg: Config, std: bool, s: Src, sc: Scope, at: Level, fuel: nat, tr: seq<Id>): Result
    decreases fuel, s, 2, 0
  {
    if s == Block([]) && !std then Result(Err(NullPointer), tr)
    else Eval(p, cfg, std, s, if std then sc else Seen(s, sc), at, fuel, tr)
  }

  function EvalSeq(p: Program, cfg: Config, std: bool, ss: seq<Src>, sc: Scope, at: Level, fuel: nat,
      tr: seq<Id>): Result
    decreases fuel, ss, 0, 0
  {
    if ss == [] then Result(Normal, tr)
    else
      var r := EvalItem(p, cfg, std, ss[0], sc, at, fuel, tr);
      if r.out.Normal? then EvalSeq(p, cfg, std, ss[1..], sc, at, fuel, r.trace) else r
  }

  /** The body of a branch or of an ELSE, in the branch's own container unless it is a single node. */
  function EvalBubble(p: Program, cfg: Config, std: bool, s: Src, sc: Scope, at: Level, fuel: nat, tr: seq<Id>): Result
    decreases fuel, s, 2, 0
  {
    if s == Block([]) && !std then Result(Err(NullPointer), tr) else Eval(p, cfg, std, s, sc, at, fuel, tr)
  }

  /** The conditions from the k-th on, then the ELSE branch. */
  function EvalIf(p: Program, cfg: Config, std: bool, s: Src, k: nat, sc: Scope, at: Level, fuel: nat,
      tr: seq<Id>): Result
    requires s.If? && k <= |s.arms|
    decreases fuel, s, 0, |s.arms| - k
  {
    if k == |s.arms| then
      if s.els.None? then Result(Normal, tr) else EvalBubble(p, cfg, std, s.els.value, sc, at, fuel, tr)
    else
      var test := Evaluate(cfg, at, s.arms[k].cond, tr);
      if test.0.Throw? then Result(Err(test.0.exn), test.1)
      else if !test.0.value then EvalIf(p, cfg, std, s, k + 1, sc, at, fuel, test.1)
      else
        var body := s.arms[k].body;
        var r := EvalBubble(p, cfg, std, body, sc, at, fuel, test.1);
        if r.out.Normal? && !std && !Single(body)
        then EvalIf(p, cfg, std, s, k + 1, sc, at, fuel, r.trace)
        else r
  }

  /** A whole program: its main flow, at the outermost level. */
  function Meaning(p: Program, cfg: Config, std: bool, fuel: nat): Result {
    EvalSeq(p, cfg, std, p.main, NoLoop, Level(0, 0, false), fuel, [])
  }

  // ----- programs the layout can serve -----

  /** A node that, called as a subroutine, neither touches the stack nor jumps. */
  predicate Callable(s: Src) {
    s.Work? || s.Skip? || s.Pause?
  }

  /** What a clause may call: a node or, in a WHILE or a Try, a further clause. */
  predicate SoundPart(s: Src)
    decreases s, 1
  {
    Callable(s) || (IsClause(s) && SoundClause(s))
  }

  /** IF rejects anything but a node as a branch; a Try needs a CATCH or a FINALLY. */
  predicate SoundClause(s: Src)
    requires IsClause(s)
    decreases s, 0
  {
    && (s.Choose? ==> s.arms != [])
    && (s.Attempt? ==> s.catches != [] || s.fin.Some?)
    && forall j | 0 <= j < Exit(s) && PartIn(s, j).Some? ::
         if s.Choose? then Callable(PartIn(s, j).value) else SoundPart(PartIn(s, j).value)
  }

  /** Loop control that the scan of a loop around `s` would reach. */
  predicate Exposed(s: Src)
    decreases s
  {
    match s
    case Break => true
    case Continue => true
    case Block(items) => exists x | x in items :: Exposed(x)
    case If(arms, els, _) =>
      (exists k | 0 <= k < |arms| :: Exposed(arms[k].body)) || (els.Some? && Exposed(els.value))
    case Archive(body) => Exposed(body)
    case Fn(_, body) => Exposed(body)
    case InterFn(_, body) => Exposed(body)
    case _ => false
  }

  /** A routine inside a loop body with loop control of that loop in it. */
  predicate Leaks(s: Src)
    decreases s
  {
    match s
    case Block(items) => exists x | x in items :: Leaks(x)
    case If(arms, els, _) =>
      (exists k | 0 <= k < |arms| :: Leaks(arms[k].body)) || (els.Some? && Leaks(els.value))
    case Archive(body) => Leaks(body)
    case Fn(_, body) => Exposed(body)
    case InterFn(_, body) => Exposed(body)
    case _ => false
  }

  /** No loop body in the element leaks control. One that does renders, but its leaked node misses the loop. */
  predicate Sealed(s: Src)
    decreases s
  {
    match s
    case Block(items) => forall x | x in items :: Sealed(x)
    case While(_, body) => Sealed(body) && !Leaks(body)
    case DoWhile(body, _) => Sealed(body) && !Leaks(body)
    case If(arms, els, _) =>
      (forall k | 0 <= k < |arms| :: Sealed(arms[k].body)) && (els.Some? ==> Sealed(els.value))
    case Archive(body) => Sealed(body)
    case Fn(_, body) => Sealed(body)
    case InterFn(_, body) => Sealed(body)
    case _ => true
  }

  /**
   Every clause is complete and every routine called exists, or the program
   does not render; and a node that is the whole branch of a NATIVE_IF, which
   is called, neither jumps nor touches the stack.
   */
  predicate Sound(p: Program, s: Src)
    decreases s
  {
    match s
    case CallFn(f) => f in p.fns
    case IntTo(h, _) => h in p.handlers
    case Block(items) => forall x | x in items :: Sound(p, x)
    case While(_, body) => Sound(p, body)
    case DoWhile(body, _) => Sound(p, body)
    case If(arms, els, _) =>
      && arms != []
      && (forall k | 0 <= k < |arms| ::
            Sound(p, arms[k].body) && (Single(arms[k].body) ==> Callable(arms[k].body)))
      && (els.Some? ==> Sound(p, els.value))
    case Choose(_, _) => SoundClause(s)
    case Repeat(_, _) => SoundClause(s)
    case Attempt(_, _, _, _) => SoundClause(s)
    case Archive(body) => Sound(p, body)
    case Fn(_, body) => Sound(p, body)
    case InterFn(_, body) => Sound(p, body)
    case _ => true
  }

  /** `x` stands somewhere in `s`. */
  predicate Has(s: Src, x: Src)
    decreases s
  {
    s == x ||
    match s
    case Block(items) => exists y | y in items :: Has(y, x)
    case While(_, body) => Has(body, x)
    case DoWhile(body, _) => Has(body, x)
    case If(arms, els, _) => (exists k | 0 <= k < |arms| :: Has(arms[k].body, x)) || (els.Some? && Has(els.value, x))
    case Archive(body) => Has(body, x)
    case Fn(_, body) => Has(body, x)
    case InterFn(_, body) => Has(body, x)
    case _ => false
  }

  predicate HasAny(ss: seq<Src>, x: Src) {
    exists s | s in ss :: Has(s, x)
  }

  /** Routines stand in the main composition, so nothing else has to be looked at. */
  predicate SealedProgram(p: Program) {
    forall s | s in p.main :: Sealed(s)
  }

  predicate SoundProgram(p: Program) {
    && (forall s | s in p.main :: Sound(p, s))
    && (forall f | f in p.fns :: Sound(p, p.fns[f]) && HasAny(p.main, Fn(f, p.fns[f])))
    && (forall h | h in p.handlers :: Sound(p, p.handlers[h]) && HasAny(p.main, InterFn(h, p.handlers[h])))
  }
}
