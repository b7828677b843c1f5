/**
 Suspending and resuming: a workflow run, halted, run again and so on executes
 what one run executes in which every SUSPEND is a NOP.
 */
module Suspends {
  import opened Options
  import opened Addressing
  import opened Machine
  import opened Relabelling
  import opened Turns
  import opened Discipline
  import opened Subcalls

  /** No SUSPEND is executed by the call of `addr` or by any call nested in it. */
  ghost predicate Quiet(cfg: Config, nest: nat, addr: Path, st: State)
    decreases nest, 0
  {
    |st.stack| < cfg.ovf && nest > 0 ==>
      match Locate(cfg.graph, Descend(cfg.graph, addr))
      case Hit(Leaf(i)) => !i.Suspend? && QuietNode(cfg, nest - 1, i, Entered(cfg, addr, st))
      case _ => true
  }

  /** No SUSPEND is executed by a call that node `i` makes. */
  ghost predicate QuietNode(cfg: Config, nest: nat, i: Instr, st: State)
    decreases nest, 1
  {
    forall c | c in Calls(cfg, nest, i, st) :: Quiet(cfg, nest, c.0, c.1)
  }

  // ----- replacing every SUSPEND -----

  function Resumable(i: Instr): Instr {
    if i.Suspend? then Nop else i
  }

  function WithoutSuspends(cfg: Config): Config {
    cfg.(graph := Relabel(Resumable, cfg.graph))
  }

  /** Executing a node gives the same in both configurations if its calls do. */
  lemma ExecAgrees(cfg: Config, nest: nat, i: Instr, st: State)
    requires forall c | c in Calls(cfg, nest, i, st) ::
               CallSub(WithoutSuspends(cfg), nest, c.0, c.1) == CallSub(cfg, nest, c.0, c.1)
    ensures Exec(WithoutSuspends(cfg), nest, i, st) == Exec(cfg, nest, i, st)
  {
    hide *;
    if i.TryHead? {
      TryAgrees(cfg, nest, i, st);
    } else if i.IfHead? || i.CondJump? || i.LoopHead? {
      TwoAgree(cfg, nest, i, st);
    } else if i.JumpTo? || i.Call? || i.Interrupt? {
      EntryAgrees(cfg, nest, i, st);
    } else {
      OneAgrees(cfg, nest, i, st);
    }
  }

  lemma OneAgrees(cfg: Config, nest: nat, i: Instr, st: State)
    requires !i.TryHead? && !i.IfHead? && !i.CondJump? && !i.LoopHead? && !i.JumpTo? && !i.Call? && !i.Interrupt?
    requires forall c | c in Calls(cfg, nest, i, st) ::
               CallSub(WithoutSuspends(cfg), nest, c.0, c.1) == CallSub(cfg, nest, c.0, c.1)
    ensures Exec(WithoutSuspends(cfg), nest, i, st) == Exec(cfg, nest, i, st)
  {
    hide CallSub, Relabel, FirstCatch, Locate, Descend;
    var calls := Calls(cfg, nest, i, st);
    assert calls != [] ==> calls[0] in calls;
  }

  lemma TwoAgree(cfg: Config, nest: nat, i: Instr, st: State)
    requires i.IfHead? || i.CondJump? || i.LoopHead?
    requires forall c | c in Calls(cfg, nest, i, st) ::
               CallSub(WithoutSuspends(cfg), nest, c.0, c.1) == CallSub(cfg, nest, c.0, c.1)
    ensures Exec(WithoutSuspends(cfg), nest, i, st) == Exec(cfg, nest, i, st)
  {
    hide CallSub, Relabel, FirstCatch, Locate, Descend;
    var calls := Calls(cfg, nest, i, st);
    assert calls[0] in calls && calls[|calls| - 1] in calls;
  }

  /** Jumping to an alias asks only whether there is something at its address. */
  lemma EntryAgrees(cfg: Config, nest: nat, i: Instr, st: State)
    requires i.JumpTo? || i.Call? || i.Interrupt?
    ensures Exec(WithoutSuspends(cfg), nest, i, st) == Exec(cfg, nest, i, st)
  {
    hide CallSub, Relabel, Locate;
    if i.entry in cfg.aliases {
      RelabelLocate(Resumable, cfg.graph, cfg.aliases[i.entry]);
    }
  }

  lemma TryAgrees(cfg: Config, nest: nat, i: Instr, st: State)
    requires i.TryHead?
    requires forall c | c in Calls(cfg, nest, i, st) ::
               CallSub(WithoutSuspends(cfg), nest, c.0, c.1) == CallSub(cfg, nest, c.0, c.1)
    ensures Exec(WithoutSuspends(cfg), nest, i, st) == Exec(cfg, nest, i, st)
  {
    hide CallSub, Relabel, FirstCatch;
    var calls := Calls(cfg, nest, i, st);
    var (d, st1) := CallSub(cfg, nest, NearCopy(st.ptr, i.doPos), st);
    if d.Throw? {
      SameCatch(cfg, d.exn, i.catches);
    }
    assert calls[0] in calls;
    var second := TrySecond(cfg, i, d, st1);
    if second.Some? {
      assert calls[1] in calls;
    }
    assert calls[|calls| - 1] in calls;
  }

  lemma {:induction false} SameCatch(cfg: Config, e: Exn, catches: seq<(ExnClass, nat)>)
    ensures FirstCatch(WithoutSuspends(cfg), e, catches) == FirstCatch(cfg, e, catches)
    decreases |catches|
  {
    if catches != [] {
      SameCatch(cfg, e, catches[1..]);
    }
  }

  lemma {:induction false} CallAgrees(cfg: Config, nest: nat, addr: Path, st: State)
    requires Quiet(cfg, nest, addr, st)
    ensures CallSub(WithoutSuspends(cfg), nest, addr, st) == CallSub(cfg, nest, addr, st)
    decreases nest, 0
  {
    hide Exec, Calls;
    if |st.stack| < cfg.ovf && nest > 0 {
      RelabelDescend(Resumable, cfg.graph, addr);
      RelabelLocate(Resumable, cfg.graph, Descend(cfg.graph, addr));
      match Locate(cfg.graph, Descend(cfg.graph, addr))
      case Hit(Leaf(i)) => NodeAgrees(cfg, nest - 1, i, Entered(cfg, addr, st));
      case _ =>
    }
  }

  lemma {:induction false} NodeAgrees(cfg: Config, nest: nat, i: Instr, st: State)
    requires QuietNode(cfg, nest, i, st)
    ensures Exec(WithoutSuspends(cfg), nest, i, st) == Exec(cfg, nest, i, st)
    decreases nest, 1
  {
    forall c | c in Calls(cfg, nest, i, st)
      ensures CallSub(WithoutSuspends(cfg), nest, c.0, c.1) == CallSub(cfg, nest, c.0, c.1)
    {
      CallAgrees(cfg, nest, c.0, c.1);
    }
    ExecAgrees(cfg, nest, i, st);
  }

  // ----- the main loop -----

  /** The state in which the node of this turn is executed. */
  function Fetched(cfg: Config, st: State): State {
    var st1 := if st.ptr == [] then st.(ptr := [0]) else st;
    st1.(ptr := Descend(cfg.graph, st1.ptr))
  }

  /** If this turn executes a node, none of the calls it makes reaches a SUSPEND. */
  ghost predicate QuietTurn(cfg: Config, st: State) {
    st.status.Running? && !st.flags.hlt ==>
      match Locate(cfg.graph, Fetched(cfg, st).ptr)
      case Hit(Leaf(i)) => QuietNode(cfg, cfg.nest, i, Fetched(cfg, st))
      case _ => true
  }

  /** No user node raises the notice SUSPEND raises. */
  ghost predicate NeverSuspends(cfg: Config) {
    forall h :: cfg.oracle(h) != Throw(Suspended)
  }

  ghost predicate CallsResume(cfg: Config, nest: nat) {
    forall addr, st :: CallSub(cfg, nest, addr, st).0 != Throw(Suspended)
  }

  lemma ExecResumes(cfg: Config, nest: nat, i: Instr, st: State)
    requires NeverSuspends(cfg) && CallsResume(cfg, nest) && !i.Suspend?
    ensures Exec(cfg, nest, i, st).0 != Throw(Suspended)
  {
    hide CallSub, FirstCatch, Locate, Slice, OffsetCopy, NearCopy;
    if i.Act? {
      assert cfg.oracle(st.trace + [i.id]) != Throw(Suspended);
    }
  }

  lemma {:induction false} CallsNeverSuspend(cfg: Config, nest: nat)
    requires NeverSuspends(cfg)
    ensures CallsResume(WithoutSuspends(cfg), nest)
  {
    hide Exec;
    var cfg' := WithoutSuspends(cfg);
    if nest > 0 {
      CallsNeverSuspend(cfg, nest - 1);
    }
    forall addr, st
      ensures CallSub(cfg', nest, addr, st).0 != Throw(Suspended)
    {
      if |st.stack| < cfg.ovf && nest > 0 {
        NodeResumes(cfg, nest - 1, st.(stack := st.stack + [st.ptr], ptr := addr, outer := true));
      }
    }
  }

  lemma NodeResumes(cfg: Config, nest: nat, st: State)
    requires NeverSuspends(cfg) && CallsResume(WithoutSuspends(cfg), nest)
    ensures ExecNode(WithoutSuspends(cfg), nest, st).0 != Throw(Suspended)
  {
    hide Exec;
    var cfg' := WithoutSuspends(cfg);
    var p := Descend(cfg'.graph, st.ptr);
    RelabelLocate(Resumable, cfg.graph, p);
    match Locate(cfg'.graph, p)
    case Hit(Leaf(i)) => ExecResumes(cfg', nest, i, st.(ptr := p));
    case _ =>
  }

  // ----- one turn with and without SUSPEND -----

  ghost predicate Flowing(st: State) {
    st.status.Running? && !st.flags.hlt && !st.flags.jmp && Disciplined(false, st)
  }

  ghost predicate OnSuspend(cfg: Config, st: State) {
    Locate(cfg.graph, Fetched(cfg, st).ptr) == Hit(Leaf(Suspend))
  }

  /** A turn that does not execute a SUSPEND is the same turn. */
  lemma SameTurn(cfg: Config, st: State)
    requires Flowing(st) && QuietTurn(cfg, st) && !OnSuspend(cfg, st)
    ensures Cycle(WithoutSuspends(cfg), st) == Cycle(cfg, st)
  {
    hide Exec, Calls;
    var cfg' := WithoutSuspends(cfg);
    var st1 := if st.ptr == [] then st.(ptr := [0]) else st;
    var p := Descend(cfg.graph, st1.ptr);
    RelabelDescend(Resumable, cfg.graph, st1.ptr);
    RelabelLocate(Resumable, cfg.graph, p);
    match Locate(cfg.graph, p) {
      case Hit(Leaf(i)) => NodeAgrees(cfg, cfg.nest, i, st1.(ptr := p));
      case _ =>
    }
    assert IsFull(cfg.graph) == IsFull(cfg'.graph);
    assert ExecNode(cfg', cfg.nest, st1) == ExecNode(cfg, cfg.nest, st1);
    var (out, st2) := ExecNode(cfg, cfg.nest, st1);
    RelabelAdvance(Resumable, cfg.graph, st2.ptr);
    assert Advance(cfg', st2) == Advance(cfg, st2);
    assert Settled(cfg', out, st2) == Settled(cfg, out, st2);
  }

  /** Halting on a SUSPEND and resuming is one turn over a NOP. */
  lemma ResumedTurn(cfg: Config, st: State)
    requires Flowing(st) && OnSuspend(cfg, st) && cfg.graph.Box?
    ensures Session(cfg, st, 2) == Cycle(WithoutSuspends(cfg), st)
    ensures Session(cfg, st, 1).status.Halted?
  {
    hide Session;
    var cfg' := WithoutSuspends(cfg);
    var st1 := if st.ptr == [] then st.(ptr := [0]) else st;
    var p := Descend(cfg.graph, st1.ptr);
    RelabelDescend(Resumable, cfg.graph, st1.ptr);
    RelabelLocate(Resumable, cfg.graph, p);
    RelabelAdvance(Resumable, cfg.graph, p);
    assert IsFull(cfg.graph) == IsFull(cfg'.graph);
    var halted := st.(ptr := p, flags := st.flags.(hlt := true), status := Halted);
    if st.ptr == [] && cfg.graph.kids == [] {
      assert false;
    }
    assert ExecNode(cfg, cfg.nest, st1) == (Throw(Suspended), st.(ptr := p));
    assert Cycle(cfg, st) == halted;
    assert Cycle(cfg, Boot(halted)) == Advance(cfg, st.(ptr := p)) == Advance(cfg', st.(ptr := p));
    assert ExecNode(cfg', cfg.nest, st1) == (OK, st.(ptr := p));
    SessionTwo(cfg, st);
  }

  lemma SessionTwo(cfg: Config, st: State)
    ensures Session(cfg, st, 1) == SessionStep(cfg, st)
    ensures Session(cfg, st, 2) == SessionStep(cfg, SessionStep(cfg, st))
  {
    assert forall s :: Session(cfg, s, 0) == s;
    assert forall s :: Session(cfg, s, 1) == SessionStep(cfg, s);
  }

  /** A turn without SUSPEND never halts, and keeps flowing unless it ends the run. */
  lemma TurnFlows(cfg: Config, st: State)
    requires Flowing(st) && NeverSuspends(cfg)
    ensures var st' := Cycle(WithoutSuspends(cfg), st);
            Flowing(st') || st'.status.Done? || st'.status.Panicked?
  {
    hide Exec, CallSub, ExecNode;
    var cfg' := WithoutSuspends(cfg);
    CycleKeeps(cfg', false, st);
    CallsNeverSuspend(cfg, cfg.nest);
    var st1 := if st.ptr == [] then st.(ptr := [0]) else st;
    NodeResumes(cfg, cfg.nest, st1);
    CallKeeps(cfg', false, cfg.nest);
    NodeKeeps(cfg', false, cfg.nest, st1);
  }

  ghost predicate QuietFrom(cfg: Config, st: State) {
    forall k: nat :: QuietTurn(cfg, Session(cfg, st, k))
  }

  lemma QuietLater(cfg: Config, st: State, j: nat)
    requires QuietFrom(cfg, st)
    ensures QuietFrom(cfg, Session(cfg, st, j))
  {
    forall k: nat
      ensures QuietTurn(cfg, Session(cfg, Session(cfg, st, j), k))
    {
      SessionPlus(cfg, st, j, k);
      assert QuietTurn(cfg, Session(cfg, st, j + k));
    }
  }

  /** Every state of the run without SUSPENDs is reached by the session, which takes one more turn per halt. */
  lemma {:induction false} SessionFollows(cfg: Config, st: State, n: nat) returns (m: nat)
    requires Flowing(st) && NeverSuspends(cfg) && QuietFrom(cfg, st) && cfg.graph.Box?
    ensures n <= m <= 2 * n && Session(cfg, st, m) == Run(WithoutSuspends(cfg), st, n)
    decreases n
  {
    hide Cycle, QuietTurn;
    m := 0;
    if n > 0 {
      var cfg' := WithoutSuspends(cfg);
      var st' := Cycle(cfg', st);
      assert Session(cfg, st, 0) == st && QuietTurn(cfg, Session(cfg, st, 0));
      TurnFlows(cfg, st);
      SessionTwo(cfg, st);
      var j := if OnSuspend(cfg, st) then 2 else 1;
      if OnSuspend(cfg, st) {
        ResumedTurn(cfg, st);
      } else {
        SameTurn(cfg, st);
      }
      assert Session(cfg, st, j) == st';
      if Flowing(st') {
        QuietLater(cfg, st, j);
        var m' := SessionFollows(cfg, st', n - 1);
        SessionPlus(cfg, st, j, m');
        m := j + m';
      } else {
        SessionPlus(cfg, st, j, n - 1);
        SessionStopped(cfg, st', n - 1);
        RunStopped(cfg', st', n - 1);
        m := j + (n - 1);
      }
    }
  }

  /**
   Suspend transparency: if no call reaches a SUSPEND, then running, resuming,
   running and so on ends in a state if and only if one run with every SUSPEND
   a NOP ends in that state: same trace, pointer, stacks and flags.
   */
  lemma SuspendTransparent(cfg: Config, fin: State)
    requires NeverSuspends(cfg) && QuietFrom(cfg, INITIAL) && cfg.graph.Box?
    requires fin.status.Done? || fin.status.Panicked?
    ensures (exists m :: Session(cfg, INITIAL, m) == fin)
       <==> (exists n :: Run(WithoutSuspends(cfg), INITIAL, n) == fin)
  {
    hide QuietFrom, Session, Run, Relabel, NeverSuspends, WithoutSuspends, Cycle;
    if m: nat :| Session(cfg, INITIAL, m) == fin {
      var m' := SessionFollows(cfg, INITIAL, m);
      SessionPlus(cfg, INITIAL, m, m' - m);
      SessionStopped(cfg, fin, m' - m);
      assert Run(WithoutSuspends(cfg), INITIAL, m) == fin;
    }
    if n: nat :| Run(WithoutSuspends(cfg), INITIAL, n) == fin {
      var m := SessionFollows(cfg, INITIAL, n);
      assert Session(cfg, INITIAL, m) == fin;
    }
  }
}
