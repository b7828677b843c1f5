/**
 What the machine looks like before and after it runs one source element, and
 the turns every clause shares.
 */
module RunStates {
  import opened Addressing
  import opened Machine
  import opened Native
  import opened Turns

  // ----- positions inside a container -----

  /** Where flow stands once the first `n` children of the container at `q` are behind it. */
  function After(g: Tree<Instr>, q: Path, n: nat): Path {
    match Locate(g, q)
    case Hit(Box(kids)) => if n < |kids| then q + [n] else Next(g, q)
    case _ => []
  }

  lemma NextIsAfter(cfg: Config, st: State, q: Path, i: nat)
    requires Locate(cfg.graph, q).Hit? && Locate(cfg.graph, q).tree.Box?
    requires i < |Locate(cfg.graph, q).tree.kids|
    ensures At(cfg, st, Next(cfg.graph, q + [i])) == At(cfg, st, After(cfg.graph, q, i + 1))
  {
    NextInBox(cfg.graph, q, i);
    if i + 1 < |Locate(cfg.graph, q).tree.kids| {
      LocateChild(cfg.graph, q, i + 1);
      EnterHits(cfg.graph, q + [i + 1]);
    }
  }

  lemma Child(g: Tree<Instr>, q: Path, kids: seq<Tree<Instr>>, i: nat)
    requires Locate(g, q) == Hit(Box(kids)) && i < |kids|
    ensures Locate(g, q + [i]) == Hit(kids[i])
  {
    LocateChild(g, q, i);
  }

  // ----- what the machine state has to look like -----

  ghost predicate Ready(st: State, sc: Scope, at: Level) {
    && Active(st)
    && |st.stack| == at.depth && |st.ctxs| == at.ctxDepth && st.flags.iff == at.iff
    && (sc.InLoop? ==> st.stack != [])
  }

  /** `fin`, `k` turns after starting, is what result `r` predicts. */
  ghost predicate Lands(cfg: Config, r: Result, st: State, sc: Scope, next: Path, fin: State, k: nat, fuel: nat) {
    match r.out
    case Normal => fin == At(cfg, st.(trace := r.trace), next)
    case Broke =>
      && sc.InLoop? && st.stack != []
      && fin == At(cfg, st.(trace := r.trace, stack := Front(st.stack)), Slice(Top(st.stack)) + [sc.exit])
    case Continued =>
      && sc.InLoop? && st.stack != []
      && fin == At(cfg, st.(trace := r.trace, stack := Front(st.stack)), Slice(Top(st.stack)) + [sc.head])
    case Err(e) => fin.status == StopOf(e) && fin.trace == r.trace
    case Timeout => fin.status == Running && fin.trace == r.trace && k >= fuel
  }

  lemma ReadyLater(st: State, sc: Scope, at: Level, tr: seq<Id>)
    requires Ready(st, sc, at)
    ensures Ready(st.(trace := tr), sc, at)
  {
  }

  /** A part that completes at `mid`, and what runs from there. */
  lemma Chain(cfg: Config, r: Result, r2: Result, st: State, sc: Scope, mid: Path, next: Path, start: State,
      k: nat, k2: nat, fuel: nat)
    requires r.out.Normal? && Lands(cfg, r, st, sc, mid, RunTurns(cfg, start, k), k, fuel)
    requires var st1 := st.(trace := r.trace);
             Lands(cfg, r2, st1, sc, next, RunTurns(cfg, At(cfg, st1, mid), k2), k2, fuel)
    ensures Lands(cfg, r2, st, sc, next, RunTurns(cfg, start, k + k2), k + k2, fuel)
  {
    hide RunTurns;
    TurnsPlus(cfg, start, k, k2);
  }

  /** A turn or more, and then what runs from `mid` with less fuel. */
  lemma Onward(cfg: Config, tr: seq<Id>, r2: Result, st: State, sc: Scope, mid: Path, next: Path, start: State,
      k: nat, k2: nat, fuel: nat)
    requires fuel > 0 && RunTurns(cfg, start, k) == At(cfg, st.(trace := tr), mid)
    requires Lands(cfg, r2, st.(trace := tr), sc, next, RunTurns(cfg, At(cfg, st.(trace := tr), mid), k2), k2, fuel - 1)
    ensures Lands(cfg, r2, st, sc, next, RunTurns(cfg, start, k + k2), k + k2 + 1, fuel)
    ensures k > 0 ==> Lands(cfg, r2, st, sc, next, RunTurns(cfg, start, k + k2), k + k2, fuel)
  {
    hide RunTurns;
    TurnsPlus(cfg, start, k, k2);
  }

  /** Some turns, and then what runs from `mid`. */
  lemma Resume(cfg: Config, tr: seq<Id>, r2: Result, st: State, sc: Scope, mid: Path, next: Path, start: State,
      k: nat, k2: nat, fuel: nat)
    requires RunTurns(cfg, start, k) == At(cfg, st.(trace := tr), mid)
    requires Lands(cfg, r2, st.(trace := tr), sc, next, RunTurns(cfg, At(cfg, st.(trace := tr), mid), k2), k2, fuel)
    ensures Lands(cfg, r2, st, sc, next, RunTurns(cfg, start, k + k2), k + k2, fuel)
  {
    hide RunTurns;
    TurnsPlus(cfg, start, k, k2);
  }

  /** A part left by an exception, or not followed to its end. */
  lemma Abandoned(cfg: Config, r: Result, st: State, sc: Scope, next: Path, fin: State, k: nat, fuel: nat)
    requires r.out.Err? || r.out.Timeout?
    requires r.out.Err? ==> fin.status == StopOf(r.out.exn) && fin.trace == r.trace
    requires r.out.Timeout? ==> fin.status == Running && fin.trace == r.trace && k >= fuel
    ensures Lands(cfg, r, st, sc, next, fin, k, fuel)
  {
  }

  lemma LandsLater(cfg: Config, r: Result, st: State, sc: Scope, next: Path, fin: State, k: nat, k': nat, fuel: nat)
    requires k <= k' && Lands(cfg, r, st, sc, next, fin, k, fuel)
    ensures Lands(cfg, r, st, sc, next, fin, k', fuel)
  {
  }

  /** Where a part that does not complete would have gone on does not matter. */
  lemma Elsewhere(cfg: Config, r: Result, st: State, sc: Scope, next: Path, next': Path, fin: State, k: nat, fuel: nat)
    requires !r.out.Normal? && Lands(cfg, r, st, sc, next, fin, k, fuel)
    ensures Lands(cfg, r, st, sc, next', fin, k, fuel)
  {
  }

  /** The NOP that closes a clause. */
  lemma CloseTurn(cfg: Config, st: State, q: Path, i: nat)
    requires Locate(cfg.graph, q).Hit? && Locate(cfg.graph, q).tree.Box?
    requires i < |Locate(cfg.graph, q).tree.kids| && Locate(cfg.graph, q).tree.kids[i] == Leaf(Nop)
    requires Active(st)
    ensures RunTurns(cfg, At(cfg, st, q + [i]), 1) == At(cfg, st, After(cfg.graph, q, i + 1))
  {
    LocateChild(cfg.graph, q, i);
    PlainTurn(cfg, st.(ptr := q + [i]), q + [i], Nop, st.(ptr := q + [i]));
    NextIsAfter(cfg, st, q, i);
  }

  ghost predicate Stopped(fin: State, e: Exn, tr: seq<Id>) {
    fin.status == StopOf(e) && fin.trace == tr
  }

  /** A part that has come to the closing NOP of its clause. */
  lemma Closing(cfg: Config, r: Result, st: State, sc: Scope, q: Path, i: nat, start: State, k: nat, fuel: nat)
    requires Locate(cfg.graph, q).Hit? && Locate(cfg.graph, q).tree.Box?
    requires i < |Locate(cfg.graph, q).tree.kids| && Locate(cfg.graph, q).tree.kids[i] == Leaf(Nop)
    requires Active(st) && r.out.Normal? && RunTurns(cfg, start, k) == At(cfg, st.(trace := r.trace), q + [i])
    ensures Lands(cfg, r, st, sc, After(cfg.graph, q, i + 1), RunTurns(cfg, start, k + 1), k + 1, fuel)
  {
    hide RunTurns, After, Locate;
    CloseTurn(cfg, st.(trace := r.trace), q, i);
    TurnsPlus(cfg, start, k, 1);
  }

  lemma StopLands(cfg: Config, r: Result, st: State, sc: Scope, next: Path, fin: State, k: nat, fuel: nat)
    requires r.out.Err? && Stopped(fin, r.out.exn, r.trace)
    ensures Lands(cfg, r, st, sc, next, fin, k, fuel)
  {
  }

  /** The machine as a called leaf finds it, and the call in terms of that leaf. */
  lemma LeafCall(cfg: Config, nest: nat, p: Path, i: Instr, st: State)
    requires Locate(cfg.graph, p) == Hit(Leaf(i)) && nest >= 1 && |st.stack| < cfg.ovf
    ensures var inner := st.(stack := st.stack + [st.ptr], ptr := p, outer := true);
            var (out, st') := Exec(cfg, nest - 1, i, inner);
            && CallSub(cfg, nest, p, st) == Finally(out, st'.(outer := false))
            && Front(inner.stack) == st.stack && Top(inner.stack) == st.ptr
  {
    var inner := st.(stack := st.stack + [st.ptr], ptr := p, outer := true);
    LeafDescends(cfg.graph, p);
    hide Exec, Descend, Locate, Finally;
    assert inner.(ptr := p) == inner;
    assert ExecNode(cfg, nest - 1, inner) == Exec(cfg, nest - 1, i, inner);
  }
}
