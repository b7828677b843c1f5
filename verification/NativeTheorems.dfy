/**
 Whole programs: a rendered program halts exactly when its meaning does, with
 the same trace and the same kind of ending.
 */
module NativeTheorems {
  import opened Options
  import opened Addressing
  import opened Machine
  import opened Native
  import opened Turns
  import opened RunStates
  import opened NativeRuns
  import opened Routines

  ghost predicate Rendered(p: Program, cfg: Config) {
    && cfg.graph == Graph(p) && Registered(cfg) && cfg.nest >= 1
    && SoundProgram(p) && SealedProgram(p) && p.main != []
  }

  /** How the main loop leaves a program with this result. */
  function StatusOf(out: Out): Status {
    match out
    case Err(e) => StopOf(e)
    case Timeout => Running
    case _ => Done
  }

  /** The main loop, started on a rendered program, reaches what the meaning says, with both stacks empty again. */
  lemma ProgramRuns(p: Program, cfg: Config, fuel: nat) returns (k: nat)
    requires Rendered(p, cfg)
    ensures var r := Meaning(p, cfg, false, fuel);
            var fin := Run(cfg, INITIAL, k);
            && fin.status == StatusOf(r.out) && fin.trace == r.trace
            && (r.out.Timeout? ==> k >= fuel)
            && (r.out.Normal? ==> fin == State([], [], [], NO_FLAGS, false, r.trace, Done))
            && !r.out.Broke? && !r.out.Continued?
  {
    hide Eval, EvalItem, EvalSeq, EvalIf, Item, Parts, Cycle, Descend;
    var g := cfg.graph;
    assert After(g, [], |p.main|) == [];
    var r := Meaning(p, cfg, false, fuel);
    GraphLinked(p, cfg);
    forall i | 0 <= i < |p.main|
      ensures g.kids[0 + i] == Item(p.main[i], NoLoop)
    {
    }
    assert [] + [0] == [0];
    k := RunSeq(p, cfg, p.main, NoLoop, [], g.kids, 0, INITIAL, Level(0, 0, false), fuel);
    RunIsTurns(cfg, INITIAL, k);
    assert Land(cfg, INITIAL) == At(cfg, INITIAL, [0]) == At(cfg, INITIAL, After(g, [], 0));
  }

  /** Halting runs all end in the same state. */
  lemma HaltedOnce(cfg: Config, st: State, a: nat, b: nat)
    requires !Run(cfg, st, a).status.Running? && !Run(cfg, st, b).status.Running?
    ensures Run(cfg, st, a) == Run(cfg, st, b)
  {
    if a <= b {
      RunPlus(cfg, st, a, b - a);
      RunStopped(cfg, Run(cfg, st, a), b - a);
    } else {
      RunPlus(cfg, st, b, a - b);
      RunStopped(cfg, Run(cfg, st, b), a - b);
    }
  }

  lemma StillRunning(cfg: Config, st: State, n: nat, k: nat)
    requires n <= k && Run(cfg, st, k).status.Running?
    ensures Run(cfg, st, n).status.Running?
  {
    if !Run(cfg, st, n).status.Running? {
      RunPlus(cfg, st, n, k - n);
      RunStopped(cfg, Run(cfg, st, n), k - n);
      assert false;
    }
  }

  /**
   Compiler correctness, both ways: the rendered program stops with a given
   status and trace if and only if its meaning, for some amount of fuel, ends
   that way.
   */
  lemma CompilerCorrect(p: Program, cfg: Config, ending: Status, tr: seq<Id>)
    requires Rendered(p, cfg) && !ending.Running?
    ensures (exists n :: Run(cfg, INITIAL, n).status == ending && Run(cfg, INITIAL, n).trace == tr)
       <==> (exists fuel :: StatusOf(Meaning(p, cfg, false, fuel).out) == ending
                            && Meaning(p, cfg, false, fuel).trace == tr)
  {
    if n: nat :| Run(cfg, INITIAL, n).status == ending && Run(cfg, INITIAL, n).trace == tr {
      var k := ProgramRuns(p, cfg, n + 1);
      if Meaning(p, cfg, false, n + 1).out.Timeout? {
        StillRunning(cfg, INITIAL, n, k);
        assert false;
      }
      HaltedOnce(cfg, INITIAL, n, k);
      assert StatusOf(Meaning(p, cfg, false, n + 1).out) == ending;
    }
    if fuel: nat :| StatusOf(Meaning(p, cfg, false, fuel).out) == ending && Meaning(p, cfg, false, fuel).trace == tr {
      var k := ProgramRuns(p, cfg, fuel);
      assert Run(cfg, INITIAL, k).status == ending;
    }
  }

  /** A program whose meaning never ends keeps the main loop running for ever. */
  lemma DivergenceCorrect(p: Program, cfg: Config)
    requires Rendered(p, cfg)
    ensures (forall n :: Run(cfg, INITIAL, n).status.Running?)
       <==> (forall fuel :: Meaning(p, cfg, false, fuel).out.Timeout?)
  {
    if forall fuel :: Meaning(p, cfg, false, fuel).out.Timeout? {
      forall n
        ensures Run(cfg, INITIAL, n).status.Running?
      {
        var k := ProgramRuns(p, cfg, n);
        StillRunning(cfg, INITIAL, n, k);
      }
    }
    if fuel: nat :| !Meaning(p, cfg, false, fuel).out.Timeout? {
      var k := ProgramRuns(p, cfg, fuel);
      assert !Run(cfg, INITIAL, k).status.Running?;
    }
  }
}
