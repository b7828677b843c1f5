/**
 Where the FN and INTER_FN blocks of a program end up in its graph, however
 deep they stand, and what their aliases stand for.
 */
module Routines {
  import opened Options
  import opened Addressing
  import opened Machine
  import opened Native
  import opened Relabelling
  import opened Turns
  import opened RunStates
  import opened NativeRuns
  import Keyed
  import Rendering
  import Walks

  /** The alias table has every routine entry of the graph at its address. */
  ghost predicate Registered(cfg: Config) {
    forall a: Path, n: Name :: Locate(cfg.graph, a) == Hit(Leaf(Entry(n))) ==> n in cfg.aliases && cfg.aliases[n] == a
  }

  /** What rendering registers of an instruction: the name of a routine's entry. */
  function Symbol(i: Instr): Rendering.Node {
    Rendering.Node(0, if i.Entry? then Some(i.name) else None, false)
  }

  /** Rendering a graph whose routine names are distinct leaves such a table. */
  lemma TableRegisters(cfg: Config)
    requires var entries := Rendering.AliasesIn(Walks.Listing(Relabel(Symbol, cfg.graph), []));
             Keyed.Fresh(map[], entries) && cfg.aliases == Keyed.Register(map[], entries)
    ensures Registered(cfg)
  {
    forall a: Path, n: Name | Locate(cfg.graph, a) == Hit(Leaf(Entry(n)))
      ensures n in cfg.aliases && cfg.aliases[n] == a
    {
      RelabelLocate(Symbol, cfg.graph, a);
      Rendering.TableExact(Relabel(Symbol, cfg.graph), n, a);
    }
  }

  predicate IsRoutine(x: Src) {
    x.Fn? || x.InterFn?
  }

  function Ending(x: Src): Instr
    requires IsRoutine(x)
  {
    if x.Fn? then Return else IntReturn
  }

  /** The container at `q` starts with the slots of routine `x`. */
  ghost predicate SiteAt(g: Tree<Instr>, q: Path, x: Src)
    requires IsRoutine(x)
  {
    && Locate(g, q).Hit? && Locate(g, q).tree.Box?
    && RoutineParts(x.name, x.body, NoLoop, Ending(x)) <= Locate(g, q).tree.kids
  }

  // ----- loop control decides how an element is laid out, and nothing else about the loop does -----

  /** What no scan would reach is laid out the same in every loop and outside. */
  lemma {:induction false} ScopeLayout(s: Src, sc: Scope)
    requires !Exposed(s)
    ensures Nested(s, sc) == Nested(s, NoLoop) && Item(s, sc) == Item(s, NoLoop)
    decreases s
  {
    match s
    case Block(items) =>
      forall i | 0 <= i < |items|
        ensures Items(items, sc)[i] == Items(items, NoLoop)[i]
      {
        ScopeLayout(items[i], sc);
      }
      assert Items(items, sc) == Items(items, NoLoop);
    case If(arms, els, _) =>
      ScopeArms(s, 0, sc);
      if els.Some? {
        ScopeLayout(els.value, sc);
      }
      assert ElseParts(s, sc) == ElseParts(s, NoLoop);
      assert Parts(s, sc) == Parts(s, NoLoop);
    case Archive(body) => ScopeLayout(body, sc);
    case Fn(name, body) =>
      ScopeLayout(body, sc);
      assert RoutineParts(name, body, sc, Return) == RoutineParts(name, body, NoLoop, Return);
      assert Parts(s, sc) == Parts(s, NoLoop);
    case InterFn(name, body) =>
      ScopeLayout(body, sc);
      assert RoutineParts(name, body, sc, IntReturn) == RoutineParts(name, body, NoLoop, IntReturn);
      assert Parts(s, sc) == Parts(s, NoLoop);
    case _ =>
  }

  lemma {:induction false} ScopeArms(s: Src, k: nat, sc: Scope)
    requires s.If? && k <= |s.arms| && !Exposed(s)
    ensures ArmParts(s, k, sc) == ArmParts(s, k, NoLoop)
    decreases s, |s.arms| - k
  {
    if k < |s.arms| {
      ScopeLayout(s.arms[k].body, sc);
      ScopeArms(s, k + 1, sc);
    }
  }

  // ----- finding a routine -----

  lemma {:induction false} ItemSite(p: Program, g: Tree<Instr>, s: Src, sc: Scope, path: Path, x: Src)
    returns (q: Path)
    requires Sound(p, s) && Sealed(s) && Has(s, x) && IsRoutine(x) && (sc.InLoop? ==> !Leaks(s))
    requires Locate(g, path) == Hit(Item(s, sc))
    ensures SiteAt(g, q, x)
    decreases s, 2
  {
    q := SlotSite(p, g, s, Seen(s, sc), path, Parts(s, Seen(s, sc)), x);
  }

  lemma {:induction false} NestedSite(p: Program, g: Tree<Instr>, s: Src, sc: Scope, path: Path, x: Src)
    returns (q: Path)
    requires Sound(p, s) && Sealed(s) && Has(s, x) && IsRoutine(x) && (sc.InLoop? ==> !Leaks(s))
    requires Locate(g, path) == Hit(Nested(s, sc))
    ensures SiteAt(g, q, x)
    decreases s, 2
  {
    q := SlotSite(p, g, s, sc, path, Parts(s, sc), x);
  }

  /** A routine inside an element is somewhere among the slots the element is laid out in. */
  lemma {:induction false} SlotSite(p: Program, g: Tree<Instr>, s: Src, sc: Scope, at: Path, kids: seq<Tree<Instr>>,
      x: Src)
    returns (q: Path)
    requires Sound(p, s) && Sealed(s) && Has(s, x) && IsRoutine(x) && (sc.InLoop? ==> !Leaks(s))
    requires Locate(g, at) == Hit(Box(kids)) && Slot(s, sc) <= kids
    ensures SiteAt(g, q, x)
    decreases s, 1
  {
    if s == x {
      q := at;
      if sc.InLoop? {
        ScopeLayout(x.body, sc);
      }
    } else if s.Block? {
      var i :| 0 <= i < |s.items| && Has(s.items[i], x);
      assert Slot(s, sc) == Parts(s, sc) == Items(s.items, sc);
      Child(g, at, kids, i);
      assert kids[i] == Items(s.items, sc)[i];
      q := ItemSite(p, g, s.items[i], sc, at + [i], x);
    } else if s.While? {
      WhileKids(s, sc, at, kids, g);
      q := SlotSite(p, g, s.body, WHILE_SCOPE, at + [2], LoopBody(s.body, WHILE_SCOPE), x);
    } else if s.DoWhile? {
      DoKids(s, sc, at, kids, g);
      q := SlotSite(p, g, s.body, DO_SCOPE, at + [1], LoopBody(s.body, DO_SCOPE), x);
    } else if s.If? {
      q := IfSite(p, g, s, sc, at, kids, x);
    } else if s.Archive? {
      Child(g, at, kids, 1);
      assert kids[1] == Parts(s, sc)[1];
      q := NestedSite(p, g, s.body, sc, at + [1], x);
    } else if s.Fn? || s.InterFn? {
      Child(g, at, kids, 2);
      assert kids[2] == Parts(s, sc)[2];
      if sc.InLoop? {
        ScopeLayout(s.body, sc);
      }
      q := NestedSite(p, g, s.body, NoLoop, at + [2], x);
    }
  }

  lemma {:induction false} IfSite(p: Program, g: Tree<Instr>, s: Src, sc: Scope, at: Path, kids: seq<Tree<Instr>>,
      x: Src)
    returns (q: Path)
    requires s.If? && Sound(p, s) && Sealed(s) && Has(s, x) && IsRoutine(x) && (sc.InLoop? ==> !Leaks(s))
    requires Locate(g, at) == Hit(Box(kids)) && Parts(s, sc) <= kids
    ensures SiteAt(g, q, x)
    decreases s, 0
  {
    hide Parts, ArmParts;
    IfKids(s, sc, kids);
    var n := |s.arms|;
    if k :| 0 <= k < n && Has(s.arms[k].body, x) {
      Child(g, at, kids, 3 * k + 2);
      q := NestedSite(p, g, s.arms[k].body, sc, at + [3 * k + 2], x);
    } else {
      var e := s.els.value;
      Child(g, at, kids, 3 * n + 1);
      assert kids[3 * n + 1] == kids[3 * n..MergePos(s)][1];
      q := NestedSite(p, g, e, sc, at + [3 * n + 1], x);
    }
  }

  /** In a rendered program every routine alias stands for the NOP in the second slot of its routine. */
  lemma GraphLinked(p: Program, cfg: Config)
    requires cfg.graph == Graph(p) && Registered(cfg) && SoundProgram(p) && SealedProgram(p) && cfg.nest >= 1
    ensures Linked(p, cfg)
  {
    forall f | f in p.fns
      ensures RoutineAt(cfg, f, p.fns[f], Return)
    {
      RoutineLinked(p, cfg, Fn(f, p.fns[f]));
    }
    forall h | h in p.handlers
      ensures RoutineAt(cfg, h, p.handlers[h], IntReturn)
    {
      RoutineLinked(p, cfg, InterFn(h, p.handlers[h]));
    }
  }

  lemma RoutineLinked(p: Program, cfg: Config, x: Src)
    requires cfg.graph == Graph(p) && Registered(cfg) && SoundProgram(p) && SealedProgram(p)
    requires IsRoutine(x) && HasAny(p.main, x)
    ensures RoutineAt(cfg, x.name, x.body, Ending(x))
  {
    hide Item, Sound, Sealed, Has;
    var i :| 0 <= i < |p.main| && Has(p.main[i], x);
    Child(cfg.graph, [], cfg.graph.kids, i);
    assert [] + [i] == [i];
    var q := ItemSite(p, cfg.graph, p.main[i], NoLoop, [i], x);
    var kids := Locate(cfg.graph, q).tree.kids;
    Child(cfg.graph, q, kids, 1);
    assert kids[1] == RoutineParts(x.name, x.body, NoLoop, Ending(x))[1];
    assert Parent(q + [1]) == q;
  }

  // ----- loop control inside a routine inside the loop -----

  /**
   The scan of a loop configures the loop control of a routine in its body.
   When the routine is called, that node takes the frame of the CALL for the
   loop's: flow lands in slot `exit` or `head` beside the CALL, and the loop's
   own frame stays where it is.
   */
  lemma LeakedControl(cfg: Config, st: State, s: Src, sc: Scope, f: Name, q: Path, kids: seq<Tree<Instr>>, site: Path)
    requires (s.Break? || s.Continue?) && sc.InLoop?
    requires Locate(cfg.graph, q) == Hit(Box(kids)) && Parts(Fn(f, s), sc) <= kids
    requires f in cfg.aliases && cfg.aliases[f] == q + [1]
    requires site != [] && Locate(cfg.graph, site) == Hit(Leaf(Call(f)))
    requires Active(st) && |st.stack| < cfg.ovf
    ensures RunTurns(cfg, At(cfg, st, site), 3)
         == At(cfg, st, Slice(site) + [if s.Break? then sc.exit else sc.head])
  {
    var target := if s.Break? then sc.exit else sc.head;
    var inside := st.(stack := st.stack + [site]);
    LeakedSlots(cfg, s, sc, f, q, kids);
    assert Front(inside.stack) == st.stack && Top(inside.stack) == site;
    NextIsAfter(cfg, inside, q, 1);
    hide RunTurns, Turn, At, Locate, Next, Parts;
    CallTurn(cfg, st, site, f);
    PlainTurn(cfg, inside, q + [1], Entry(f), inside.(ptr := q + [1]));
    ControlTurn(cfg, inside, q + [2], target);
    TurnsPlus(cfg, At(cfg, st, site), 1, 1);
    TurnsPlus(cfg, At(cfg, st, site), 2, 1);
  }

  lemma LeakedSlots(cfg: Config, s: Src, sc: Scope, f: Name, q: Path, kids: seq<Tree<Instr>>)
    requires (s.Break? || s.Continue?) && sc.InLoop?
    requires Locate(cfg.graph, q) == Hit(Box(kids)) && Parts(Fn(f, s), sc) <= kids
    ensures Locate(cfg.graph, q + [1]) == Hit(Leaf(Entry(f)))
    ensures Locate(cfg.graph, q + [2]) == Hit(Leaf(Control(Some(if s.Break? then sc.exit else sc.head))))
  {
    var parts := Parts(Fn(f, s), sc);
    assert kids[1] == parts[1] && kids[2] == parts[2];
    Child(cfg.graph, q, kids, 1);
    Child(cfg.graph, q, kids, 2);
  }
}
