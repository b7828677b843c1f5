/**
 A rendered program run by the interpreter object ends as its meaning does.
 */
module Workflows {
  import opened Machine
  import opened Native
  import opened NativeTheorems
  import opened StructuredCode
  import opened Suspends
  import opened ProgramSuspends
  import opened Interpreters

  /** One run, for at most `turns` rounds of the main loop. */
  method Execute(p: Program, cfg: Config, turns: nat) returns (status: Status, executed: seq<Id>)
    requires Rendered(p, cfg)
    ensures !status.Running? ==> exists fuel ::
              StatusOf(Meaning(p, cfg, false, fuel).out) == status && Meaning(p, cfg, false, fuel).trace == executed
    ensures !status.Running? && StructuredProgram(p, cfg.nest) ==> exists fuel ::
              StatusOf(Meaning(p, cfg, true, fuel).out) == status && Meaning(p, cfg, true, fuel).trace == executed
  {
    hide Run, Meaning;
    var interpreter := new Interpreter(cfg);
    interpreter.RunStepBy(turns);
    status, executed := interpreter.status, interpreter.executed;
    assert Boot(INITIAL) == INITIAL;
    if !status.Running? {
      assert Run(cfg, INITIAL, turns) == interpreter.Now();
      CompilerCorrect(p, cfg, status, executed);
      if StructuredProgram(p, cfg.nest) {
        var fuel: nat :| && StatusOf(Meaning(p, cfg, false, fuel).out) == status
                         && Meaning(p, cfg, false, fuel).trace == executed;
        StructuredCorrect(p, cfg, fuel);
        assert StatusOf(Meaning(p, cfg, true, fuel).out) == status;
      }
    }
  }

  /** Runs and resumptions, for at most `turns` rounds: what comes out does not depend on the SUSPENDs. */
  method ExecuteSession(p: Program, cfg: Config, turns: nat) returns (status: Status, executed: seq<Id>)
    requires Rendered(p, cfg) && FlowProgram(p) && NeverSuspends(cfg)
    ensures status.Done? || status.Panicked? ==> exists fuel ::
              var r := Meaning(UnpauseProgram(p), WithoutSuspends(cfg), false, fuel);
              StatusOf(r.out) == status && r.trace == executed
  {
    hide Session, Meaning;
    var interpreter := new Interpreter(cfg);
    interpreter.RunSession(turns);
    status, executed := interpreter.status, interpreter.executed;
    assert Session(cfg, INITIAL, turns) == interpreter.Now();
    if status.Done? || status.Panicked? {
      PausesTransparent(p, cfg, status, executed);
    }
  }
}
