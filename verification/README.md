# AmritaSense, modelled and verified in Dafny

AmritaSense is a small virtual machine for workflows. A composition of nodes is
rendered into a tree addressed by integer vectors; a main loop runs the tree
with a pointer, a return-address stack, a context stack and three status bits
(IF, HLT, JMP). Loops, branches, routines and exception handling are not built
into the loop: self-compiling clauses lay them out as nodes that call, jump and
push, with slot numbers computed by index arithmetic.

This project models that machine, the clauses, rendering and relinking, and
three self-contained state machines beside it (weak LRU cache, dependency
registry, suspend handshake), and proves what they are for.

`dafny verify dfyconfig.toml` checks everything.

## How the model is laid out

| file | content |
|---|---|
| `Addressing`, `Walks`, `AddressCalculator`, `Disassembly`, `Relabelling` | trees, addresses, the pointer's steps and its walk as functions; the loops that compute it; the debugger's flattening; changing nodes without moving them |
| `Machine`, `Turns`, `Discipline`, `Subcalls`, `PendingJumps` | the interpreter as a function on states (`Exec`, `CallSub`, `ExecNode`, `Cycle`, `Run`, `Session`); what every run keeps; trees of subroutine calls, and what becomes of them once a node has jumped |
| `Interpreter` | the interpreter as an object with fields and loops, each method proved to do what `Machine` says |
| `Native` | source programs (`Src`, `Program`), the graph they render to (`Parts`, `Graph`), and what they mean (`Eval`, `Meaning`; for IF, WHILE and Try `Ideal` and `Actual`) |
| `RunStates`, `ClauseRuns`, `NativeRuns`, `Routines`, `NativeTheorems` | the simulation, clause by clause; where routines end up; compiler correctness |
| `StructuredCode` | conditions on the source under which the meaning is what structured code means |
| `NestedClauses`, `TrySlots`, `WhileActions`, `NativeBranches`, `CalledNodes`, `Refusals` | exceptions passing enclosing Tries; clauses in the slots of a Try, clauses as the action of WHILE, the branches of NATIVE_IF, nodes that jump as branches: exactly when they do what their author reads, and what they do otherwise; what nodes do that cannot pop or jump |
| `Scanner`, `ScannerMethod`, `Extraction` | `extract` and the loop-control scan, on values and on mutable nodes |
| `Suspends`, `PlainGraphs`, `ProgramSuspends`, `SuspendedBranches`, `SuspendedParts` | halting and resuming: in the machine, on graphs, for programs, and where a clause calls the SUSPEND |
| `SquashedLoop`, `Traps` | the two forms of WHILE; calls from outside into a halted workflow |
| `Rendering`, `Keyed`, `Linking` | alias table, hooks, dynamically linked slots |
| `WeakCache`, `Dependencies`, `Streaming` | the three state machines |
| `Workflows` | a program run by the interpreter object |
| `Options` | a value that may be absent |

A user node is an oracle: given the sequence of nodes executed so far it returns
a truth value or raises. So conditions may depend on anything that happened, and
loops are unbounded. The trace of node executions is what two runs are compared
by. `Meaning` takes an amount of fuel that only loop rounds and calls consume;
a result that does not run out is the same for all larger amounts, and
`CompilerCorrect` and `DivergenceCorrect` quantify over it, so no bound is left
in the statements.

`Eval` is written twice in one: with `std` set it is the meaning an author of
structured code expects, without it the meaning of what is actually rendered.
For IF, WHILE and Try, which call their parts, these are `Ideal` and `Actual`:
`Actual` runs a clause's head with all its calls (`CallHead`), those made after
a jump included (`LateCall`), then lets flow go on from where the head's jump
led. `StructuredCorrect` says when the two meanings agree; `TrySlots`,
`WhileActions` and `NativeBranches` say exactly where they do not.

FN and INTER_FN blocks are source elements like any other and may stand anywhere.

## What the proofs turned up

These are places where the code does something its documentation does not
promise, or where a plausible property needs a condition. The model follows the
code.

- A clause in a slot of a Try - IF, WHILE or a further Try, all of which
  `TRY` accepts - is entered by one call of its head, whose jump stands. When it
  completes, FINALLY is still called, but as a slot of that clause, and flow
  goes on inside the clause and then through the slots after it, handlers
  included. `SlotExact` says exactly which slots keep the meaning: the last part,
  unless it is FINALLY and leaves work for the flow (an IF with several branches
  or a WHILE), and, by coincidence, the slot before a FINALLY whose number is
  that of the clause's own closing NOP. `HandlerUnraised` is
  `Try(IF(c, x).ELIF(d, y)).CATCH(E, h).FINALLY(f)` with every node succeeding:
  `c`, `x`, then `d` in FINALLY's stead, then the handler `h`, then `f`.
  Exceptions do propagate through every enclosing Try (`Propagates`).
- A clause as FINALLY runs only its head when an exception is pending
  (`LastPartKeeps`).
- A jump-based clause is a documented action of WHILE, and loops. But a BREAK
  raised anywhere behind the head of the action, as by the second branch of an
  IF, is a panic instead of the end of the loop (`ActionExact`, `ChooseBreaks`),
  and one raised with a jump pending is lost (`SwallowedBreak`).
- A NATIVE_IF branch of several nodes is entered by a jump and has no jump out,
  so after it flow enters the next ELIF or ELSE (`BranchExact`), although
  the documentation of `extract` says true branches go to the merge point
  (src/amrita_sense/instructions/native/if_native.py:93-98).
- Loop control inside a NATIVE_IF that has not been extracted is invisible to
  the scanner and raises when reached (`HiddenControl`).
- A BREAK_LOOP or CONTINUE that is the single node of a branch is executed by
  `call_sub` and pops that call's frame instead of the loop's (`CalledControl`).
- Loop control of a routine that stands in the loop's body is configured by the
  scan. When the routine is called the node takes the CALL's frame for the
  loop's, and the loop goes on with its frame left behind (`LeakedControl`).
- A CALL as the branch of an IF returns to the IF, so flow goes on with the
  condition and then the CALL as ordinary nodes (`ConditionalCall`); a JMP there
  works as documented (`ConditionalJump`). An INT there saves the IF's address,
  too (`ConditionalInterrupt`).
- A JMP whose target does not exist raises with JMP set (`FailedJump`). In a Try
  whose CATCH takes that error the jump past the handlers then no longer counts,
  and flow executes the handler a second time (`HandlerAgain`).
- A SUSPEND executed by a subroutine call halts with the pointer on the caller;
  after resuming, the caller's operands are run again as part of the flow
  (`SuspendInBranch`). So it tells in every branch with a condition
  (`BranchTransparent`), as the action of a WHILE (`LoopTransparent`) and as any
  part of a Try, but for one coincidence (`TryTransparent`). In the main flow,
  and as an ELSE, suspension is transparent.
- The first jump of a cycle does not always decide: nodes called after it are
  looked up relative to the jump's target, and the last of them keeps the
  pointer (`JumpEnds`, `FirstJumpWins`); a FINALLY after a body that jumps is
  one (`FinallyAfterJump`).
- A trap resumes after the parked address only if that address is a leaf
  (`ReturnSkips`).
- In the squashed form of WHILE a BREAK raised by the condition ends the loop;
  in the other form it is a panic (`BreakingCondition`).
- In loose mode the weak cache drops live values that are false as a condition
  (`LooseKeepsLive`); entries it skips become newer than entries it does not
  reach, so being skipped counts as being used (`LooseOrder`, `LooselyUsed`).
- A `clear` or `discard` on the dependency registry that hits a key under
  computation lets the next `resolve` start a second computation beside the
  first (`AtMostOnce`, `HarmDoubles`), and a cancelled one then removes the
  entry of its successor (`CancelRestarts`). Any other `clear` or `discard` is
  harmless.
- A suspend request can lose its signal to the clean-up of an earlier request
  and is then never answered (`FinishDisplaces`, `DisplacedStays`); a request
  made while producers are already blocked is not told of a further one
  (`PauseNotices`); cancelling the producer that owns the resume signal releases
  all the others (`StaysBlocked`).

## Model

| member | source | states |
|---|---|---|
| `Walks.WalkOrder` | src/amrita_sense/node/addressing.py:48-115 | On every graph with no empty container, descending and advancing visits each leaf exactly once, left to right, starting below `[0]`, and then stops |
| `Walks.StopsChained` | src/amrita_sense/node/addressing.py:48-115 | The same for any subtree of any graph, empty containers included: the walk below an address starts where `_call` descends to and leaves the subtree for the address that follows it |
| `Walks.StopsExact` | src/amrita_sense/node/addressing.py:48-115 | An address is on the walk if and only if it leads to a leaf or an empty container of that subtree |
| `Walks.StopsOrdered` | src/amrita_sense/node/addressing.py:48-115 | The walk goes strictly left to right, so no address is visited twice |
| `Addressing.NextHits` | src/amrita_sense/node/addressing.py:48-115 | From a valid address, the address advanced to is valid (or empty at the end), so the lookup that follows cannot fail |
| `Addressing.AdvanceLost` | src/amrita_sense/node/addressing.py:48-115 | From an address that leads nowhere nothing moves: behind a leaf the walk has ended, behind a missing child an index is out of range |
| `Addressing.DescendStops` | src/amrita_sense/runtime/workflow.py:1320-1331 | The descent of `_call` ends on a leaf or an empty container, and descending again changes nothing |
| `Walks.ListingIsWalk` | src/amrita_sense/debugger/inspect.py:29-48 | The debugger's listing has exactly the addresses the pointer visits, in the same order |
| `Walks.ListingFaithful` | src/amrita_sense/debugger/inspect.py:29-48 | Every listed address leads to the node listed with it |
| `AddressCalculators.PointerVector.constructor` | src/amrita_sense/types.py:147-154 | An empty vector becomes `[0]` |
| `AddressCalculators.PointerVector.Offset` | src/amrita_sense/types.py:156-168 | Moves the last coordinate, which stays a natural number, and leaves the others |
| `AddressCalculators.PointerVector.NearTo` | src/amrita_sense/types.py:201-213 | Replaces the last coordinate by a natural number and leaves the others |
| `AddressCalculators.PointerVector.FarTo` | src/amrita_sense/types.py:215-227 | Replaces the whole address |
| `AddressCalculators.PointerVector.OffsetFar` | src/amrita_sense/types.py:170-199 | Element-wise sum of addresses of any two lengths, cut off at the first negative coordinate |
| `AddressCalculators.FarSumPadded` | src/amrita_sense/types.py:170-199 | Padding the shorter operand with zeros, as the code does, does not change that sum |
| `AddressCalculators.FarSumExact` | src/amrita_sense/types.py:170-199 | Every coordinate of the sum is the sum of the coordinates, zero behind the end of a vector; it stops at the first that would be negative, and nowhere else |
| `AddressCalculators.OffsetTop` | src/amrita_sense/runtime/workflow.py:663-672 | The offset built by `jump_offset_top` always yields a top-level address, or the empty one if it would be negative |
| `AddressCalculators.AddressCalculator.FindAddrSafe` | src/amrita_sense/node/addressing.py:31-40 | The lookup loop finds the subtree at an address, or nothing if the address leaves the graph or goes through a leaf |
| `AddressCalculators.AddressCalculator.FindAddr` | src/amrita_sense/node/addressing.py:42-46 | As above, but an empty container counts as not found |
| `AddressCalculators.AddressCalculator.Advance` | src/amrita_sense/node/addressing.py:48-115 | The pop-and-overwrite loop moves the pointer to the next position of the left-to-right walk, or reports the end or an index out of range |
| `AddressCalculators.AddressCalculator.Land` | src/amrita_sense/runtime/workflow.py:1320-1331 | The descent loop reaches the first stop below the pointer and fails exactly on an empty container |
| `AddressCalculators.AddressCalculator.Traverse` | src/amrita_sense/node/addressing.py:48-115 | A whole pointer walk completes if and only if no container is empty, and then has visited every leaf in order; otherwise it stops at the first empty one |
| `AddressCalculators.WalkGraph` | src/amrita_sense/debugger/inspect.py:29-48 | The recursive listing loop returns the listing above |
| `Disassembly.Build` | src/amrita_sense/debugger/code_disp.py:254-291 | Builds one block per container and no other, in pre-order, whose entries describe its direct children, with references only to later blocks |
| `Disassembly.ContainersExact` | src/amrita_sense/debugger/code_disp.py:254-291 | The addresses of those blocks are exactly those that lead to a container |
| `Disassembly.ContainersOrdered` | src/amrita_sense/debugger/code_disp.py:254-291 | They come in pre-order, left to right, so none twice |
| `Disassembly.Walk` | src/amrita_sense/debugger/code_disp.py:254-304 | The leaves come in the order the pointer visits them, each under the block of the container that holds it |
| `Discipline.CycleKeeps` | src/amrita_sense/runtime/workflow.py:903-937 | A turn of the main loop leaves HLT clear while the loop goes on, and JMP clear unless the loop was resumed with JMP set |
| `Discipline.SessionKeeps` | src/amrita_sense/instructions/interrupt.py:169-189 | In every state of every session of every workflow: no saved context carries IF or HLT; and if every INT sets IF, at most one context is saved and IF says whether one is |
| `Subcalls.CallBalances` | src/amrita_sense/runtime/workflow.py:722-766 | A tree of subroutine calls whose nodes do not themselves touch the return stack leaves the stack as it was on every exit, never clears JMP, and restores the pointer unless a jump happened |
| `PendingJumps.CallsChain` | src/amrita_sense/instructions/try_catch.py:89-119 | The calls of one node start each in the state the one before left |
| `PendingJumps.LateLanding` | src/amrita_sense/runtime/workflow.py:744-766 | A tree of calls started while a jump is pending leaves the pointer on the last node called below, whatever that node is: only the escape node of a routine still moves it |
| `PendingJumps.JumpEnds` | src/amrita_sense/runtime/workflow.py:499-508 | Where the pointer of any tree that jumps ends: where the first jump led if no call starts after it, else where the last such call lands |
| `PendingJumps.FirstJumpWins` | src/amrita_sense/runtime/workflow.py:499-508 | The first jump of a cycle decides where flow goes if and only if no call starts after it, or the last such call happens to land there |
| `PendingJumps.TimelyExact` | src/amrita_sense/runtime/workflow.py:722-766 | No call of the tree starts after a jump if and only if there is no such last call |
| `PendingJumps.LastOnlyTimely` | src/amrita_sense/runtime/workflow.py:722-766 | If in the graph only the last node that a node calls may jump, then no call ever starts after a jump, in any state |
| `PendingJumps.GraphJumpWins` | src/amrita_sense/runtime/workflow.py:499-508 | On such graphs, with no node that touches the return stack, the first jump always decides: a condition on the graph alone |
| `PendingJumps.FinallyAfterJump` | src/amrita_sense/instructions/try_catch.py:114-119 | FINALLY after a body that jumped is looked up in the container jumped to, and the pointer ends there |
| `Subcalls.InvokeTurn` | src/amrita_sense/instructions/subprogram.py:139-140 | INVOKE executes whatever node stands behind its alias, with all the calls that node makes, and flow goes on after the INVOKE with pointer and stack as they were; a jump made on the way stands, an exception passes through |
| `Routines.GraphLinked` | src/amrita_sense/instructions/func_block.py:118-174 | Wherever FN and INTER_FN blocks stand - before, after or inside the main flow, in branches and archived segments, in each other, in loops whose loop control they do not hold - every routine alias stands for the NOP in the second slot of its routine |
| `Routines.LeakedControl` | src/amrita_sense/instructions/native/_core.py:66-108 | A CONTINUE or BREAK_LOOP that is the body of a routine inside the loop, once the routine is called, pops the CALL's frame, lands in its slot beside the CALL and leaves the loop's frame on the stack |
| `Routines.TableRegisters` | src/amrita_sense/node/core.py:512-541 | The alias table that rendering leaves has every routine entry at its address if the names are distinct |
| `Routines.ScopeLayout` | src/amrita_sense/instructions/native/_core.py:79-108 | An element whose loop control no scan reaches is laid out the same in every loop and outside |
| `Turns.RunIsTurns` | src/amrita_sense/runtime/workflow.py:903-928 | The main loop and the loop that always rests on the next node make the same runs |
| `Turns.CallLeaf` | src/amrita_sense/runtime/workflow.py:722-766 | Calling a user node, a NOP or a SUSPEND leaves everything but the trace as it was, or overflows the return stack |
| `Turns.JumpToTurn` | src/amrita_sense/runtime/workflow.py:602-616 | JMP in the flow goes to the first node below its target and changes nothing else, or panics without moving |
| `Turns.CalledJump` | src/amrita_sense/runtime/workflow.py:744-766 | A jump made inside a subroutine call stands when the call ends, and the return stack is as it was |
| `Turns.CalledCall` | src/amrita_sense/instructions/ret2.py:108-116 | A CALL inside a subroutine call leaves the caller's address as return address, whatever called it |
| `Turns.CalledInterrupt` | src/amrita_sense/instructions/interrupt.py:169-189 | An INT inside a subroutine call saves the return address it was given, or the caller's, never its own; the handler is entered with the return stack as it was, or the INT is refused and the caller stands where it stood |
| `Turns.ResetTurn` | src/amrita_sense/runtime/workflow.py:929-933 | An InterruptNotice ends the run with pointer, stacks and flags discarded |
| `ClauseRuns.RunChoose` | src/amrita_sense/instructions/if_clause.py:110-129 | IF / ELIF / ELSE with any number of branches, from any chunk on: conditions in order up to the first true one, exactly that branch, then past the closing NOP |
| `ClauseRuns.HeadComes` | src/amrita_sense/instructions/try_catch.py:89-119 | Executing the head of an IF, a WHILE or a Try - every part of it possibly a further clause - raises, runs nodes and leaves a jump pending exactly as `CallHead` says, whatever the calls made after a jump meet: of a part that is a clause only the head is called |
| `ClauseRuns.TryComes` | src/amrita_sense/instructions/try_catch.py:89-119 | The worker of a Try, call by call: first matching handler only, ignored and unmatched exceptions propagate, THEN only after success, FINALLY on every path and its own exception wins; the same when a part has jumped and what is called next is a node, a head or nothing in the clause jumped to |
| `ClauseRuns.PartCall` | src/amrita_sense/runtime/workflow.py:722-766 | Calling a part: a node leaves the machine as it was, a clause leaves the jump of its head pending or raises |
| `ClauseRuns.LateComes` | src/amrita_sense/runtime/workflow.py:722-766 | A call made while a jump is pending, in any tree of the nodes IF, WHILE and Try consist of: the node is looked up in the container jumped to, a head found there makes its own calls from where each left off, its jumps do nothing, and the pointer stays on the last node called |
| `ClauseRuns.LateRests` | src/amrita_sense/runtime/workflow.py:744-766 | Such a call that returns leaves the pointer on a node that makes no call, so flow never goes on with a head it has not jumped to |
| `ClauseRuns.HeadPlaces` | src/amrita_sense/runtime/workflow.py:499-508 | Where the head of a clause leads is always a slot of it, or of a part at some depth, with something in it |
| `ClauseRuns.RunActual` | src/amrita_sense/instructions/loop/while_clause.py:67-85 | Flow through IF, WHILE and Try nested in each other to any depth: the machine reaches what `Actual` says - the head, then flow from where its jump led, through every slot that follows |
| `StructuredCode.StructuredActual` | src/amrita_sense/instructions/try_catch.py:89-119 | A WHILE, IF or Try whose only clause inside is its last part, itself doing all its work when called, means what its author reads: try / catch / then / finally, BREAK included |
| `NestedClauses.Propagates` | src/amrita_sense/instructions/try_catch.py:105-116 | An exception no CATCH takes passes every enclosing Try, whatever the depth: each FINALLY runs once, innermost first, nothing else runs, and no jump is pending |
| `NestedClauses.NestRaises` | src/amrita_sense/instructions/try_catch.py:105-116 | Met by flow, such a nest ends the run with the exception |
| `NestedClauses.CaughtOutside` | src/amrita_sense/instructions/try_catch.py:98-112 | The first enclosing Try that takes the exception runs its handler, after the FINALLYs inside |
| `TrySlots.SlotExact` | src/amrita_sense/instructions/try_catch.py:163-189 | A clause of user nodes - IF with any branches, WHILE or Try - in a slot of a Try of user nodes keeps the meaning its author reads, whatever the nodes answer, if and only if it is the last part and, as FINALLY, does all its work when called; or it does so, FINALLY follows and its slot number is that of the clause's closing NOP |
| `TrySlots.LastPartKeeps` | src/amrita_sense/instructions/try_catch.py:163-189 | Any clause of user nodes as the last part keeps its meaning, except as FINALLY with an exception pending: then only its head runs |
| `TrySlots.LateGrows` | src/amrita_sense/instructions/try_catch.py:89-119 | A slot of such a clause called after it has jumped raises or executes at least one node more, a WHILE's check-up alone excepted |
| `TrySlots.HandlerUnraised` | src/amrita_sense/instructions/try_catch.py:89-119 | A Try around a two-branch IF, with a CATCH and FINALLY, every node succeeding: the second condition is asked after the first branch has run, and the handler runs although nothing was raised |
| `WhileActions.BreakInAction` | src/amrita_sense/instructions/loop/while_clause.py:67-76 | A round of WHILE with any action: a BREAK raised while the head of the action is called ends the loop if no jump is pending and is lost if one is; raised where flow goes on behind the head, it ends the run |
| `WhileActions.ActionExact` | src/amrita_sense/instructions/loop/_guard.py:6-16 | A WHILE whose action is a clause of user nodes means what its author reads, whatever its nodes answer, if and only if the action is a Try, or an IF with one branch and no ELSE |
| `WhileActions.ChooseBreaks` | src/amrita_sense/instructions/if_clause.py:110-119 | Any longer IF as the action: a BREAK of the second condition is a panic where the author reads the end of the loop |
| `WhileActions.RepeatBreaks` | src/amrita_sense/instructions/loop/while_clause.py:67-76 | The same for a WHILE as the action |
| `WhileActions.SwallowedBreak` | src/amrita_sense/instructions/try_catch.py:114-119 | A Try as the action with an IF as FINALLY: a BREAK of the tried node is lost and the loop goes on |
| `Extraction.TryLayout` | src/amrita_sense/instructions/try_catch.py:163-189 | Every slot the worker names - the tried part, each handler, THEN, FINALLY, the escape - is where the layout puts that part, clauses included |
| `ClauseRuns.ArchiveTurn` | src/amrita_sense/instructions/subprogram.py:197-222 | Sequential flow skips an archived segment whatever is in it |
| `NativeRuns.ControlTurn` | src/amrita_sense/instructions/native/_core.py:66-73 | CONTINUE and BREAK_LOOP pop the loop's frame and go to their slot in the loop's container |
| `NativeRuns.WhileTurn` | src/amrita_sense/instructions/native/_core.py:322-328 | The native WHILE head: evaluates the condition once, pushes its frame and enters the body, or exits |
| `NativeRuns.CheckTurn` | src/amrita_sense/instructions/native/_core.py:390-394 | The native DO check: back to the entry or to the exit |
| `NativeRuns.EnterTurn` | src/amrita_sense/instructions/native/_core.py:453-457 | The bubble entry: pushes the frame only if asked, then enters the body |
| `NativeRuns.RunWhile` | src/amrita_sense/instructions/native/while_native.py:63-91 | A rendered native WHILE does what the structured loop means, for any body, and leaves the return stack as it was |
| `NativeRuns.RunDo` | src/amrita_sense/instructions/native/do_native.py:64-92 | The same for native DO-WHILE |
| `NativeRuns.RunIf` | src/amrita_sense/instructions/native/_core.py:241-251 | A rendered NATIVE_IF does what `EvalIf` says from any branch on, fall-through included |
| `NativeRuns.RunCall` | src/amrita_sense/instructions/ret2.py:108-116 | CALL of a routine standing anywhere runs its body once and resumes after the CALL with the return stack as it was, to any depth the stack allows |
| `NativeRuns.RunInt` | src/amrita_sense/instructions/interrupt.py:169-189 | INT to a handler standing anywhere runs it and resumes after the INT with the context stack and IF as they were |
| `NativeRuns.InterruptTurn` | src/amrita_sense/instructions/interrupt.py:169-189 | INT in the flow: refused while IF is set or the context stack is full, otherwise it saves its own address, or the return address it was given, with the flags, and enters the handler |
| `NativeRuns.IntReturnTurn` | src/amrita_sense/instructions/interrupt.py:233-235 | IRET restores pointer and status register and goes on after the saved address |
| `NativeRuns.RoutineSteps` | src/amrita_sense/instructions/func_block.py:147-174 | From its entry a routine goes through the NOP, the body and the return |
| `NativeRuns.SkipRoutine` | src/amrita_sense/instructions/func_block.py:113-115 | Sequential flow runs past a routine without entering it, wherever the routine stands |
| `NativeTheorems.ProgramRuns` | src/amrita_sense/runtime/workflow.py:846-952 | Started on a rendered program, clauses nested in any way, the main loop reaches the ending and trace its meaning predicts, with both stacks empty after a normal end |
| `NativeTheorems.CompilerCorrect` | src/amrita_sense/runtime/workflow.py:846-952 | A rendered program stops with a given ending and trace if and only if its meaning, for some amount of fuel, has them |
| `NativeTheorems.DivergenceCorrect` | src/amrita_sense/runtime/workflow.py:903-928 | It runs for ever if and only if its meaning never ends |
| `StructuredCode.StructuredCorrect` | src/amrita_sense/instructions/native/_core.py:1-10 | For programs that keep the layout rules the rendered meaning is the one an author of structured code expects |
| `NativeBranches.BranchExact` | src/amrita_sense/instructions/native/_core.py:241-251 | A NATIVE_IF of straight bodies, loop control included, does what its author wrote, whatever its nodes answer, if and only if no branch of several nodes that runs through has a branch after it and, inside a loop, the scanner saw the branches or there is no loop control in them |
| `CalledNodes.CalledControl` | src/amrita_sense/instructions/native/_core.py:241-251 | A CONTINUE or BREAK_LOOP as the single node of a branch pops the call's frame, loses the loop's, and lands in the branch's own container |
| `CalledNodes.ConditionalJump` | src/amrita_sense/instructions/if_clause.py:110-119 | IF with a JMP as its branch is a conditional jump: to the target with both stacks as they were, or to the next chunk |
| `CalledNodes.ConditionalCall` | src/amrita_sense/instructions/if_clause.py:110-119 | IF with a CALL as its branch enters the routine with the IF's own address to return to, after which comes the condition again |
| `CalledNodes.ConditionalInterrupt` | src/amrita_sense/instructions/if_clause.py:110-119 | IF with an INT as its branch enters the handler with the IF's own address saved, after which comes the condition again |
| `Refusals.NothingToPop` | src/amrita_sense/instructions/native/_core.py:66-73 | Loop control or RET with an empty return stack, or IRET with no saved context, ends the run with an underflow |
| `Refusals.NowhereToGo` | src/amrita_sense/runtime/workflow.py:602-616 | A JMP, CALL, INT or INVOKE of an alias that does not exist, and a JMP with nothing at its target, end the run |
| `Refusals.LostReturn` | src/amrita_sense/instructions/ret2.py:32-35 | RET to an address that leads nowhere ends the run if a leaf is in the way, and panics otherwise |
| `Refusals.FailedJump` | src/amrita_sense/runtime/workflow.py:602-616 | A called JMP with nothing at its target raises with JMP set and the pointer on itself, so its caller's own jumps no longer count |
| `Refusals.HandlerAgain` | src/amrita_sense/instructions/try_catch.py:89-119 | So in a Try around such a JMP the handler runs, and the machine is left resting on it, to execute it once more |
| `Refusals.FramelessControl` | src/amrita_sense/instructions/native/_core.py:66-73 | A called CONTINUE or BREAK_LOOP outside any loop pops the call's frame, and the call raises an underflow |
| `Refusals.LateNode` | src/amrita_sense/runtime/workflow.py:744-766 | Called with a jump pending, CALL, INT and loop control no longer jump, but still push their frame, save their context or pop |
| `NativeBranches.HiddenControl` | src/amrita_sense/instructions/native/_core.py:96-108 | Loop control in any straight branch or ELSE of a NATIVE_IF that is not yet extracted: the structured loop ends its round or itself, the rendered one raises, after the same nodes |
| `Scanner.ScanConfigured` | src/amrita_sense/instructions/native/_core.py:96-108 | Scanning never changes a node that is already configured |
| `Scanner.ScanConfigures` | src/amrita_sense/instructions/native/_core.py:96-108 | After a scan everything it can see is configured |
| `Scanner.BoundaryIsLoop` | src/amrita_sense/instructions/native/_core.py:103-107 | The boundary test stops exactly at extracted loops, never at other compositions |
| `Scanner.SlotConfigured` | src/amrita_sense/instructions/native/while_native.py:67-79 | A body slot is configured throughout when its loop is extracted, so no outer scan changes it |
| `Scanner.ScannerCorrect` | src/amrita_sense/instructions/native/_core.py:79-108 | Extracting every clause, scanning at every loop and rendering yields the graph in which each CONTINUE and BREAK_LOOP aims at its innermost enclosing loop |
| `ScannerMethod.ConfigureLoopControlNodes` | src/amrita_sense/instructions/native/_core.py:79-108 | The recursive loop over node objects gives every visited node the loop's slot unless an inner loop configured it before, and changes nothing else, also when a node is used twice |
| `ScannerMethod.ScanBodySlot` | src/amrita_sense/instructions/native/while_native.py:78-79 | On a body slot that loop has the effect of the scan on values above |
| `ScannerMethod.ViewScans` | src/amrita_sense/instructions/native/_core.py:79-108 | Connects the two: aiming exactly the visited nodes is the scan |
| `Extraction.ExtractChoiceIf` | src/amrita_sense/instructions/if_clause.py:153-157 | The fixed layout of a lone IF |
| `Extraction.ExtractChoiceElif` | src/amrita_sense/instructions/if_clause.py:201-229 | The slot arithmetic of IF / ELIF produces the layout, for every number of ELIFs and any node as a branch |
| `Extraction.ExtractChoiceElse` | src/amrita_sense/instructions/if_clause.py:291-360 | The same with ELSE, in both of its layouts |
| `Extraction.ChoiceInRange` | src/amrita_sense/instructions/if_clause.py:124-129 | Every jump an IF chain emits stays inside it |
| `Extraction.ExtractWhile` | src/amrita_sense/instructions/loop/while_clause.py:146-160 | The fixed layout of WHILE, and which actions it refuses |
| `Extraction.ExtractNativeIf` | src/amrita_sense/instructions/native/if_native.py:139-195 | The slot arithmetic of NATIVE_IF produces the layout, for every number of branches, single or not |
| `Extraction.ExtractTry` | src/amrita_sense/instructions/try_catch.py:163-189 | The growing list of a Try clause, with its addresses, is the layout, whatever its parts are; with neither CATCH nor FINALLY it raises |
| `Relabelling.RelabelAdvance` | src/amrita_sense/node/addressing.py:48-115 | The pointer's walk depends only on the shape of the graph |
| `Suspends.ResumedTurn` | src/amrita_sense/runtime/workflow.py:592-600 | Halting on a SUSPEND and resuming is one turn over a NOP, in every component of the state |
| `Suspends.CallAgrees` | src/amrita_sense/runtime/workflow.py:722-766 | A call that reaches no SUSPEND is the same call when SUSPENDs are NOPs |
| `Suspends.SessionFollows` | src/amrita_sense/runtime/workflow.py:913-937 | Every state of the run without SUSPENDs is reached by running and resuming, with one more turn per halt |
| `Suspends.SuspendTransparent` | src/amrita_sense/runtime/workflow.py:592-600 | If no call reaches a SUSPEND, running and resuming ends in a state if and only if one run with every SUSPEND a NOP ends in that state |
| `PlainGraphs.PlainTransparent` | src/amrita_sense/runtime/workflow.py:913-937 | The same from a condition on the graph alone: every call leads to a user node, a NOP, or a clause without SUSPEND, however deep |
| `SuspendedBranches.SuspendInBranch` | src/amrita_sense/instructions/if_clause.py:110-119 | IF(c, SUSPEND) with c true, in any graph and any state: the session halts on the IF, executes the condition a second time as a node of the flow, halts again on the SUSPEND and goes on with the next branch, where the run without SUSPEND leaves the IF |
| `SuspendedBranches.SuspendInElse` | src/amrita_sense/instructions/if_clause.py:273-275 | ELSE(SUSPEND) halts twice and is as good as ELSE(NOP) |
| `SuspendedBranches.BranchTransparent` | src/amrita_sense/instructions/if_clause.py:110-119 | A workflow of one IF is transparent to suspension, whatever its nodes answer, if and only if no branch with a condition is a SUSPEND |
| `SuspendedParts.LoopTransparent` | src/amrita_sense/instructions/loop/while_clause.py:67-76 | A workflow of one WHILE is, if and only if its action is not SUSPEND |
| `SuspendedParts.TryTransparent` | src/amrita_sense/instructions/try_catch.py:89-119 | A workflow of one Try of user nodes with a SUSPEND as tried node, reachable handler, THEN or FINALLY is not, unless the SUSPEND is the tried node, a CATCH takes the notice it raises and that handler is the same node as THEN |
| `ProgramSuspends.ItemUnpaused` | src/amrita_sense/node/core.py:495-554 | Rendering a source element and replacing its SUSPENDs by NOPs commute |
| `ProgramSuspends.PausesTransparent` | src/amrita_sense/runtime/workflow.py:929-937 | For programs with SUSPENDs anywhere in their flow, loops, branches and routines included, sessions end in a given way if and only if the meaning of the program without them does |
| `Traps.TrapEnters` | src/amrita_sense/runtime/workflow.py:744-766 | A subroutine call on a CALL node from outside leaves the parked address as return address, JMP set, and the pointer on the routine's entry |
| `Traps.EntryTwice` | src/amrita_sense/runtime/workflow.py:918-927 | The leftover JMP makes the entry NOP run twice and nothing else |
| `Traps.TrapRuns` | src/amrita_sense/runtime/workflow.py:744-766 | A trap into a workflow parked on a leaf runs the routine's body once, resumes after the parked node, and restores the return stack; errors and divergence as the body's meaning says |
| `Traps.InterruptEnters` | src/amrita_sense/instructions/interrupt.py:169-189 | A subroutine call on an INT node from outside saves the parked address, not the INT's, and leaves the pointer on the handler's entry with JMP set |
| `Traps.InterruptRuns` | src/amrita_sense/instructions/interrupt.py:169-189 | Such a trap runs the handler's body once and resumes after the parked node, with both stacks and IF as they were; errors and divergence as the body's meaning says |
| `Traps.ReturnSkips` | src/amrita_sense/instructions/ret2.py:32-35 | A return leaves its address behind if and only if that is not a container: returning into one enters it |
| `SquashedLoop.SquashEquivalent` | src/amrita_sense/instructions/loop/while_clause.py:67-85 | Squashed and unsquashed WHILE agree round by round, for any action that jumps or puts the pointer back and any condition that does not raise BREAK, jumping or not: same calls, same exit, same exception |
| `SquashedLoop.NeutralOrderly` | src/amrita_sense/runtime/workflow.py:722-766 | Whatever is called, a clause with its parts included, jumps or puts the pointer back if no node of the call touches the return stack and there is no IRET |
| `SquashedLoop.NeutralGraph` | src/amrita_sense/runtime/workflow.py:722-766 | In a graph of such nodes every address and every pending jump meets what the equivalence asks |
| `SquashedLoop.WhileComparable` | src/amrita_sense/instructions/loop/while_clause.py:146-160 | In the graph of a composition of nodes, IF, WHILE and Try, nested in any way, a WHILE meets the equivalence's conditions, whatever its action is, if and only if its condition never raises BREAK |
| `SquashedLoop.JumpsStandThere` | src/amrita_sense/runtime/workflow.py:559-576 | What the equivalence asks of the graph: without IRET no call takes back a pending jump |
| `SquashedLoop.BreakingCondition` | src/amrita_sense/instructions/loop/while_clause.py:69-85 | A condition that raises BREAK ends the squashed loop and panics the other |
| `SquashedLoop.UserNodes` | src/amrita_sense/instructions/loop/while_clause.py:146-160 | User nodes meet the equivalence's conditions, a condition exactly if it never raises BREAK |
| `Interpreters.Interpreter.Markup` | src/amrita_sense/runtime/workflow.py:482-508 | Only the first jump of a cycle goes ahead; it sets JMP and clears HLT |
| `Interpreters.Interpreter.RebasePtr` | src/amrita_sense/runtime/workflow.py:578-590 | Moves the pointer and clears HLT only |
| `Interpreters.Interpreter.Near` | src/amrita_sense/runtime/workflow.py:618-625 | A marked jump to a sibling slot |
| `Interpreters.Interpreter.Offset` | src/amrita_sense/runtime/workflow.py:627-634 | A marked jump by a distance |
| `Interpreters.Interpreter.JumpToAddr` | src/amrita_sense/runtime/workflow.py:602-616 | A marked jump to an address, which raises and stays if nothing is there |
| `Interpreters.Interpreter.CallAt` | src/amrita_sense/runtime/workflow.py:722-766 | `call_sub`: push, execute, pop on every exit, and back unless a jump happened |
| `Interpreters.Interpreter.ExecuteNode` | src/amrita_sense/runtime/workflow.py:1283-1331 | `_call`: lookup, descent, execution |
| `Interpreters.Interpreter.Execute` | src/amrita_sense/runtime/workflow.py:1283-1403 | Each kind of node does what the machine specification says of it |
| `Interpreters.Interpreter.RunWhileHead` | src/amrita_sense/instructions/native/_core.py:322-328 | The native WHILE head as it is written |
| `Interpreters.Interpreter.RunIfHead` | src/amrita_sense/instructions/native/_core.py:241-251 | The NATIVE_IF head as it is written |
| `Interpreters.Interpreter.RunControl` | src/amrita_sense/instructions/native/_core.py:66-73 | CONTINUE / BREAK_LOOP as they are written |
| `Interpreters.Interpreter.RunCondJump` | src/amrita_sense/instructions/if_clause.py:110-119 | The IF worker as it is written |
| `Interpreters.Interpreter.RunLoopHead` | src/amrita_sense/instructions/loop/while_clause.py:67-76 | The unsquashed WHILE worker as it is written |
| `Interpreters.Interpreter.RunSquashed` | src/amrita_sense/instructions/loop/while_clause.py:77-85 | The squashed WHILE worker's loop |
| `Interpreters.Interpreter.RunTryHead` | src/amrita_sense/instructions/try_catch.py:89-119 | The TRY worker as it is written |
| `Machine.FirstCatchExact` | src/amrita_sense/instructions/try_catch.py:98-102 | The slot looked up for an exception is that of a CATCH that takes it with none before that does; without one, no CATCH takes it |
| `Native.FirstMatchExact` | src/amrita_sense/instructions/try_catch.py:98-102 | The same of the CATCHes as they are written |
| `Native.SecondExact` | src/amrita_sense/instructions/try_catch.py:89-112 | THEN is called after success only, a handler only for an exception that is not ignored and that no CATCH before it takes, and nothing otherwise |
| `Interpreters.Interpreter.FindCatch` | src/amrita_sense/instructions/try_catch.py:98-102 | The loop over handlers finds that one |
| `Interpreters.Interpreter.RunInterrupt` | src/amrita_sense/instructions/interrupt.py:169-189 | INT as it is written, its return address computed at each execution |
| `Interpreters.Interpreter.RunIntReturn` | src/amrita_sense/runtime/workflow.py:559-576 | IRET through `rebase_context` |
| `Interpreters.Interpreter.Round` | src/amrita_sense/runtime/workflow.py:903-937 | One round of the main loop with its exception handlers |
| `Interpreters.Interpreter.RunStepBy` | src/amrita_sense/runtime/workflow.py:846-952 | The main loop is the iteration of rounds |
| `Interpreters.Interpreter.RunSession` | src/amrita_sense/runtime/workflow.py:846-952 | Running again after each halt is the session the suspend theorems speak of |
| `Workflows.Execute` | src/amrita_sense/runtime/workflow.py:837-844 | A rendered program run by the interpreter object ends as its meaning says, and as its structured meaning says if it keeps the layout rules |
| `Workflows.ExecuteSession` | src/amrita_sense/runtime/workflow.py:837-844 | Run and resumed, it ends as the meaning of the program without SUSPENDs says |
| `Rendering.TableExact` | src/amrita_sense/node/core.py:512-541 | With distinct aliases, an alias stands for an address if and only if the node there carries that alias: lookups are exact and no two aliases share an address |
| `Rendering.LayoutLists` | src/amrita_sense/node/core.py:495-554 | The graph lists exactly the nodes written in the source, payloads in place, left to right, each unchanged and at the child positions leading to it |
| `Rendering.LayoutShape` | src/amrita_sense/node/core.py:495-554 | At every position the graph has a node where the source has one, a container with as many children where it has a composition, and nothing else |
| `Rendering.WrittenExact` | src/amrita_sense/node/core.py:495-554 | What that list holds, said of positions: a node is in it with an address if and only if the source has it there |
| `Rendering.HooksExact` | src/amrita_sense/node/core.py:531-554 | The collected hooks are those of the nodes that have one, each once, in graph order |
| `Rendering.ListingComplete` | src/amrita_sense/debugger/inspect.py:29-48 | The listing has every leaf |
| `Keyed.RegisterExact` | src/amrita_sense/node/core.py:525-541 | A table filled without repetition holds its old entries and the new ones, and nothing else |
| `Linking.Host.ProcessNodes` | src/amrita_sense/node/core.py:495-554 | Succeeds if and only if no alias is repeated and no slot reused; then graph, table, hooks and proxies are exactly those of the source |
| `Linking.Host.BuildSlot` | src/amrita_sense/node/dll.py:190-227 | Building a slot registers the aliases written in its payload, records exactly them as its delta, and hands the payload's hooks to the host after those collected before |
| `Linking.Host.Render` | src/amrita_sense/node/core.py:447-493 | Rendering succeeds if and only if aliases are distinct and no slot is reused; then every node and alias of the source is in place, and every hook written in it runs once, in order, with the finished table |
| `Linking.SourceResolves` | src/amrita_sense/node/core.py:512-541 | In every graph a source builds, whatever was linked into it: each node stands where it is written, each alias resolves to the very node it was written on, and no other alias resolves |
| `Linking.SourceHooks` | src/amrita_sense/node/core.py:548-554 | The hooks run are those of the nodes that have one in the source, each once, in order |
| `Linking.Host.Apply` | src/amrita_sense/node/dll.py:229-243 | Relinking a slot succeeds if and only if rendering the changed source would; then graph, table and proxies are those of that rendering, the payload's hooks have run on the finished table, and lookups outside the slot are unchanged |
| `Linking.RelinkSource` | src/amrita_sense/node/dll.py:181-209 | Removing a slot's old aliases and registering the new payload's gives the table of the changed source |
| `Linking.SlotsExact` | src/amrita_sense/node/dll.py:181-227 | The proxies are those of the slots written in the source, each at its position, owning exactly the aliases written in its payload |
| `Linking.ReplaceAt` | src/amrita_sense/node/dll.py:229-243 | In the changed source the slot holds the new payload and every other position what it held |
| `Linking.DeltasDisjoint` | src/amrita_sense/node/dll.py:206-209 | Two slots never own the same alias |
| `WeakCache.WeakValueLRUCache.Get` | src/amrita_sense/weakcache.py:123-145 | Returns a live value and makes it the newest; drops a dead one |
| `WeakCache.WeakValueLRUCache.Put` | src/amrita_sense/weakcache.py:147-183 | Replaces an existing key without evicting; otherwise drops the oldest entries needed, or in loose mode makes one pass that drops the droppable ones and moves the live ones it meets behind the rest, then appends |
| `WeakCache.WeakValueLRUCache.EvictOldest` | src/amrita_sense/weakcache.py:171-182 | The eviction loop with its counter drops or rotates exactly the entries it reaches |
| `WeakCache.WeakValueLRUCache.Expire` | src/amrita_sense/weakcache.py:185-196 | Drops the dead ones, and no others, among the oldest fifth, the oldest `length`, or all but the newest `-length` entries |
| `WeakCache.NormalEviction` | src/amrita_sense/weakcache.py:168-182 | Normal mode evicts exactly the least recent entries needed, so that at most max(1, capacity) remain |
| `WeakCache.LooseEviction` | src/amrita_sense/weakcache.py:171-182 | Loose mode drops exactly the first droppable entries, as many as needed or as there are; everything else stays |
| `WeakCache.LooseOrder` | src/amrita_sense/weakcache.py:171-182 | The order a loose pass leaves: the entries behind the last one dropped as they were, then the live ones before it as they were; none behind it if too few could be dropped |
| `WeakCache.PassOnce` | src/amrita_sense/weakcache.py:171-182 | Where the pass ends is determined by how many droppable entries there are and how many are needed |
| `WeakCache.LooseKeepsLive` | src/amrita_sense/weakcache.py:173-176 | Loose mode keeps every live entry if and only if no live value is false as a condition |
| `WeakCache.LeastRecentlyUsed` | src/amrita_sense/weakcache.py:123-183 | After any gets and puts, whatever dies in between, the cache holds the most recently used entries not found dead, in order of use: up to max(1, capacity), one fewer for each value a get found dead until new keys are put |
| `WeakCache.LastingUsed` | src/amrita_sense/weakcache.py:123-183 | If no value dies it holds exactly the max(1, capacity) most recently used entries of the whole history |
| `WeakCache.LooselyUsed` | src/amrita_sense/weakcache.py:123-183 | After any gets and puts in loose mode the cache holds the keys not found dead in order of last use, where a put of a new key looks at every entry its pass reaches: live ones count as used, the others as found dead |
| `WeakCache.SpelledPass` | src/amrita_sense/weakcache.py:171-182 | The entries looked at are those up to the end of the pass |
| `WeakCache.Replay` | src/amrita_sense/weakcache.py:123-183 | The cache object, put through such operations in either mode, holds exactly that |
| `Dependencies.NoOrphan` | src/amrita_sense/di/cache.py:115-139 | In every reachable state a waiter's entry is finished, or exactly one task computes it and its end answers the waiter |
| `Dependencies.SameOutcome` | src/amrita_sense/di/cache.py:82-85 | All resolvers answered by one entry get the same outcome |
| `Dependencies.OwnKey` | src/amrita_sense/di/cache.py:115-139 | Over every history: whoever is answered asked for the key the answering entry was made for, gets the outcome of the computation its maker started, and the entry is the one the registry had for that key when the task resolved, or the task's own |
| `Dependencies.NextResolver` | src/amrita_sense/di/cache.py:127-139 | After a computation the next resolver of its key gets its value or failure without starting another; after a cancelled one it starts anew |
| `Dependencies.StaysCached` | src/amrita_sense/di/cache.py:103-139 | A key's entry is removed by exactly three things: `discard` of that key, `clear`, and the cancellation of a computation of that key |
| `Dependencies.AtMostOnce` | src/amrita_sense/di/cache.py:115-139 | Over every history: no key is, or can next be, computed twice at a time if and only if no `discard` or `clear` hits a key that some task is computing |
| `Dependencies.HeldKeeps` | src/amrita_sense/di/cache.py:109-113 | Every computing task goes on holding its key's entry after an action if and only if the action does not discard or clear a key some task is computing |
| `Dependencies.HarmDoubles` | src/amrita_sense/di/cache.py:109-126 | Otherwise the next `resolve` of that key starts a second computation beside the first |
| `Dependencies.StartsAgain` | src/amrita_sense/di/cache.py:115-139 | In every history a provider was started once more than its entry was removed, if it has one, and as often otherwise |
| `Dependencies.IdleClear` | src/amrita_sense/di/cache.py:109-113 | A scope may be cleared whenever nothing is being computed |
| `Dependencies.CancelRestarts` | src/amrita_sense/di/cache.py:133-139 | With two computations of a key in flight, cancelling one removes the entry of the other, and a third can start beside it |
| `Dependencies.DependencyStore.Settle` | src/amrita_sense/di/cache.py:68-80 | An entry is settled once; settling it again raises |
| `Dependencies.DependencyStore.Begin` | src/amrita_sense/di/cache.py:115-126 | `resolve` up to its first await |
| `Dependencies.DependencyStore.End` | src/amrita_sense/di/cache.py:127-139 | The rest of `resolve`; its entry is always still pending, so settling never raises |
| `Streaming.ResumeReleasesAll` | src/amrita_sense/streaming.py:202-206 | After any interleaving, one `resume` releases every producer blocked at that moment |
| `Streaming.StaysBlocked` | src/amrita_sense/streaming.py:128-173 | Nothing else does: only its own cancellation, or that of the producer owning the signal |
| `Streaming.PauseNotices` | src/amrita_sense/streaming.py:151-159 | A request learns that a producer blocked if and only if no producer was blocked already |
| `Streaming.TagFilter` | src/amrita_sense/streaming.py:145-147 | After any actions, a break point blocks if and only if the last accepted request, if none has finished since, asked for no tags or for its tag |
| `Streaming.AskAccepted` | src/amrita_sense/streaming.py:175-192 | After any actions, a request is accepted if and only if no other waits for the current signal |
| `Streaming.OwnerReleases` | src/amrita_sense/streaming.py:149-172 | The first producer to block since the last resume owns the signal: its cancellation lets go everyone who joined, theirs only themselves |
| `Streaming.FinishDisplaces` | src/amrita_sense/streaming.py:193-200 | A waiting request loses its signal exactly when an earlier, noticed request finishes |
| `Streaming.DisplacedStays` | src/amrita_sense/streaming.py:193-200 | A request that lost its signal is never answered |
| `Streaming.DisplacedReachable` | src/amrita_sense/streaming.py:175-200 | That state is reachable |
| `Streaming.SuspendObjectStream.WaitForContinue` | src/amrita_sense/streaming.py:128-162 | The section under the lock, and when it blocks |
| `Streaming.SuspendObjectStream.LeaveSuspension` | src/amrita_sense/streaming.py:163-172 | The owner's clean-up; its signal is always done by then |
| `Streaming.SuspendObjectStream.RequestSuspend` | src/amrita_sense/streaming.py:175-192 | A request is refused exactly while another still waits |
| `Streaming.SuspendObjectStream.ResumeAll` | src/amrita_sense/streaming.py:202-206 | Afterwards no producer waits for a signal that is not done |

## Left out

- RunInterrupt: the return address of an INT without `ret_to` is cached by the code at its first execution, as is the one of a CALL; the model computes it anew, which is the same for a node that is always executed in the same place.
- RunInt: the same caching.
- CallAt: the code pushes and swaps pointer objects; the model passes addresses, so two names for one pointer object (as INVOKE makes with the alias table's list) are not captured.
- Offset: a last coordinate that becomes negative, from which Python counts children from the end, is not modelled, neither on the vector nor on the interpreter; no instruction of the library makes one.
- NearTo: the same for an index given as negative.
- Near: the same for a jump to a negative slot.
- CompilerCorrect: leaves out programs in which a routine inside a loop body holds loop control of that loop (`SealedProgram`), and those in which a CALL, INT, CONTINUE or BREAK_LOOP is the single node of a NATIVE_IF branch (`Sound`). All of these render; what the nodes do there is stated at the machine level (`LeakedControl`, `CalledControl`, `CalledCall`).
- GraphLinked: leaves out the same routines, whose body is laid out with the loop's slots.
- SlotExact: the parts of the Try and of the clause in it are user nodes; deeper mixtures are covered by `RunActual` and `StructuredActual`.
- TrapRuns: stated, as is `InterruptRuns`, for traps into a workflow halted on a leaf; calls from outside while a node is running are not modelled.
- SquashEquivalent: asks of the action that it jumps or leaves the pointer on the head, of the condition that it does not raise BREAK, and of the graph that no call takes back a pending jump; a routine or native loop called as the action need not meet that.
- BranchTransparent: about a workflow of one IF; `LoopTransparent` and `TryTransparent` are about one WHILE and one Try with a single SUSPEND among user nodes; `PausesTransparent` covers whole programs, but asks that no clause calls a SUSPEND at all, an ELSE included.
- Apply: a slot's payload contains no further slot, and after a failed `apply` the table, which then holds what was registered before the failure, is not described.
- ProcessNodes: self-compiling instructions stand in the source as the composition they extract to; extraction is the subject of the `Scanner` and `Extraction` files. The error for an alias that is not addressable (src/amrita_sense/node/core.py:517-520) is left out: every alias node is made addressable (src/amrita_sense/instructions/alias.py:55-60).
- ConfigureLoopControlNodes: slots of dynamically linked payloads inside loop bodies, which the scan skips, are not part of a loop body here.
- Begin: cache entries are numbered rather than objects, and a resolver is cut at its awaits.
- WaitForContinue: sections under the lock are single actions; the yield inside the lock and the wake-up callbacks are not separate steps.
- Expire: the default share is taken as a fifth of the length rounded down, where the code multiplies by a floating-point fifth.
- What IF, WHILE and Try call in a source program is a user node, NOP, SUSPEND or a further IF, WHILE or Try. Other nodes that jump or touch the stack, native loops and routines among them, are covered there at the machine level only (`Subcalls`, `PendingJumps`, `CalledNodes`, `SquashedLoop`).
- Squashed DO-WHILE, FUN_BLOCK, PUSH_RET, PUSH_CONTEXT, POP_CONTEXT and ARCHIVED_NODES.
- Dependency injection, its caches, the preload pass, lifecycle scopes, middleware, event matchers, logging, breakpoints and stepping.
- asyncio, locks and threads: user nodes are oracles, and what a lock protects is one step.
- Interpreter trees: forking, terminating and waiting for sub-interpreters.
