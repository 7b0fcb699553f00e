# Nonlocal control frames of the mypyc IR builder

mypyc lowers Python's `break`, `continue` and `return` through a chain of
*nonlocal control* frames. The innermost construct is at the top of the chain.
Each frame decides what IR the statement emits at its nesting level:

- the base frame of a function emits a plain `Return`;
- the base frame of a generator runs the StopIteration exhaustion protocol;
- a loop frame jumps to its continue or break block;
- a try/finally frame stashes the return value in a lazily allocated register and jumps to the finally entry;
- the except and finally cleanup wrappers restore the saved exception state and then delegate to their `outer` frame.

This project models that chain and the part of the IR builder it drives, and
proves what each frame emits.

Layout:

- `ir.dfy` (module `IR`): the IR as uninterpreted constructors. Values, registers, blocks and ops have identity but no runtime meaning.
- `builder.dfy` (module `Builder`): the builder state the frames can see or change. It holds:
  - the blocks with their ops and recorded error handler, and the current block;
  - the temporaries;
  - the error-handler stack;
  - the reported errors;
  - the return-type stack;
  - the generator's resume-label target.

  Each builder primitive that changes state exists twice: as a pure transition on the `State` value, and as a method of the class `IRBuilder` that updates its fields in place. Each method is proved to perform exactly its transition. `Read` (`builder.read`) changes nothing and is only a function.
- `nonlocal_control.dfy` (module `NonlocalControl`):
  - the frames, as the datatype `Frame`. The try/finally frame holds a `TryFinallyControl` object, because its `ret_reg` is updated in place and read later by the finally lowering;
  - one specification function per operation, from the state before the statement to the state after it;
  - the operations `GenJump` (`gen_break`/`gen_continue`), `GenReturn` and `GenCleanup`, as methods on an `IRBuilder`. Each is proved to produce exactly the state its specification function gives.
- `counting.dfy` (module `Counting`): the number of ops of a kind (exception-state restores, `Return`s) over all blocks, and how each builder transition changes it.
- `properties.dfy` (module `Properties`): the properties of the frames, stated over the specification functions.

How the source's constructs are modelled:

- `builder.read(saved)` yields the saved value itself, or, for an assignment target, the symbolic value `TargetRead(t)`.
- `builder.assign(target, v, line)` is one `AssignTarget` op.
- `activate_block` records the top of the error-handler stack on the block it activates. That is how "a block without an error handler" is visible in the model.
- A fresh `BasicBlock()` gets the next free block index. Emission then continues wherever the frame activates. A fresh index is distinct from every block already in the state, but the model does not tie the frames' own targets (a loop's continue and break blocks, a try/finally frame's finally entry) to existing blocks, so nothing rules out a frame target that equals a later fresh index; no property here depends on that distinctness.
- The base frames' `assert False` in `gen_break`/`gen_continue` becomes the precondition `JumpResolves(f)`: a `break`/`continue` must reach a loop or a try/finally frame before the chain's root.
- `gen_return` and the pending-return register: the function `ReturnEffect` takes the root try/finally frame's register as an argument and returns it updated, and the method `GenReturn` updates the `TryFinallyControl` object.

Two behaviours of the code worth noting:

- The base frames' `gen_break`/`gen_continue` `assert False` (nonlocalcontrol.py lines 45-49); they report no error. The model turns this into the precondition `JumpResolves`.
- The docstring of `FinallyNonlocalControl` (lines 168-169) describes its cleanup as releasing (decrefing) the return register when it is not null, but `gen_cleanup` (lines 178-184) emits no decref: only an error branch on the register whose two targets are the same fresh block. The model emits exactly that branch.

## Model

| member | source | states |
|---|---|---|
| NonlocalControl.GenJump | mypyc/irbuild/nonlocalcontrol.py:45-140 | `gen_break`/`gen_continue` on any frame whose jump reaches a loop or try/finally frame (the base frames assert it does) leaves the builder exactly in `JumpEffect` of the old state: cleanups, then the loop's jump or the try/finally error |
| NonlocalControl.GenReturn | mypyc/irbuild/nonlocalcontrol.py:42-147 | `gen_return` on any frame leaves the builder, and the root try/finally frame's pending register, exactly as `ReturnEffect` of the old builder state and old register gives |
| NonlocalControl.GenCleanup | mypyc/irbuild/nonlocalcontrol.py:161-191 | the cleanup of an except or finally frame leaves the builder exactly in `CleanupEffect` of the old state |
| NonlocalControl.ExceptCleanup | mypyc/irbuild/nonlocalcontrol.py:161-162 | the except cleanup performs exactly `ExceptCleanupEffect`: one restore call on `read(saved)` |
| NonlocalControl.FinallyCleanup | mypyc/irbuild/nonlocalcontrol.py:177-191 | the finally cleanup performs exactly `FinallyCleanupEffect`: the register branch, then the restore branch |
| NonlocalControl.BranchOnRetReg | mypyc/irbuild/nonlocalcontrol.py:181-184 | the error branch on a present pending-return register, with one fresh block as both targets, which becomes current |
| NonlocalControl.RestoreUnlessError | mypyc/irbuild/nonlocalcontrol.py:187-191 | the restore branch: error branch on `saved`, restore in the fresh cleanup block, jump to and activate the fresh target block |
| NonlocalControl.GeneratorReturn | mypyc/irbuild/nonlocalcontrol.py:79-104 | the generator return performs exactly `GeneratorReturnEffect` |
| NonlocalControl.TryFinallyControl.GenJump | mypyc/irbuild/nonlocalcontrol.py:136-140 | try/finally `break`/`continue` only reports the "unimplemented" error at `line` |
| NonlocalControl.TryFinallyControl.GenReturn | mypyc/irbuild/nonlocalcontrol.py:142-147 | allocates a temp of the innermost return type into `ret_reg` only when it is unset, otherwise keeps the register and the temps; appends `Assign(ret_reg, v)` and `Goto(target)` |
| NonlocalControl.TryFinallyControl.constructor | mypyc/irbuild/nonlocalcontrol.py:132-134 | a fresh try/finally frame has its target and no pending register |
| NonlocalControl.Root | mypyc/irbuild/nonlocalcontrol.py:42-147 | following `outer` always ends at a base, generator or try/finally frame, the classes without an `outer` |
| NonlocalControl.ReturnEffect | mypyc/irbuild/nonlocalcontrol.py:42-147 | a `return` leaves the error-handler stack as it was, reports no error and keeps the return-type stack; without a try/finally root it allocates nothing and leaves the pending register alone |
| NonlocalControl.JumpEffect | mypyc/irbuild/nonlocalcontrol.py:116-140 | a `break`/`continue` keeps the error-handler stack, the temps and the return-type stack |
| NonlocalControl.FinallyCleanupEffect | mypyc/irbuild/nonlocalcontrol.py:177-191 | the finally cleanup keeps handlers, temps and errors, and ends with the first of its two fresh restore blocks current |
| NonlocalControl.ExceptCleanupEffect | mypyc/irbuild/nonlocalcontrol.py:161-162 | the except cleanup keeps the current block, the handlers, temps, errors and return types |
| NonlocalControl.RetRegBranchEffect | mypyc/irbuild/nonlocalcontrol.py:181-184 | the branch on the pending-return register keeps handlers, temps, errors and return types |
| NonlocalControl.RestoreBranchEffect | mypyc/irbuild/nonlocalcontrol.py:187-191 | the restore branch keeps handlers, temps, errors and return types, and ends with `target`, the first of its two fresh blocks, current |
| NonlocalControl.CleanupEffect | mypyc/irbuild/nonlocalcontrol.py:161-191 | any cleanup wrapper's `gen_cleanup` keeps the handlers, temps, errors and return types |
| NonlocalControl.TryFinallyReturnEffect | mypyc/irbuild/nonlocalcontrol.py:142-147 | try/finally `return` always leaves a pending register set, and keeps the handlers and errors |
| NonlocalControl.GeneratorReturnEffect | mypyc/irbuild/nonlocalcontrol.py:92-104 | the generator return leaves the error-handler stack, the temps and the errors as they were |
| Properties.BaseReturnEmitsOneReturn | mypyc/irbuild/nonlocalcontrol.py:51-52 | the base `return` appends exactly `Return(v)` to the current block and changes nothing else |
| Properties.JumpResolvesAtFirstNonCleanup | mypyc/irbuild/nonlocalcontrol.py:45-49 | `JumpResolves(f)`, the precondition that replaces the base frames' `assert False`, holds if and only if the first non-cleanup frame is a loop or try/finally frame (the generator frame inherits the assertion) |
| Properties.LoopJumpsEmitOneGoto | mypyc/irbuild/nonlocalcontrol.py:66-70 | loop `break` is exactly one `Goto(break_block)`, `continue` exactly one `Goto(continue_block)`; nothing else changes |
| Properties.LoopDelegatesReturn | mypyc/irbuild/nonlocalcontrol.py:72-73 | a loop frame's `return` is exactly its outer frame's `return` |
| Properties.ReturnIgnoresLoops | mypyc/irbuild/nonlocalcontrol.py:72-73 | removing every loop frame from a chain does not change what a `return` emits |
| Properties.ExceptCleanupRestoresSaved | mypyc/irbuild/nonlocalcontrol.py:161-162 | the except cleanup appends exactly one restore call on `read(saved)` |
| Properties.FinallyCleanupWithoutRetReg | mypyc/irbuild/nonlocalcontrol.py:186-191 | with no register, the cleanup ends the current block with `Branch(saved, b, b+1, IS_ERROR)`; block `b+1` holds exactly the restore and `Goto(b)`; `b`, empty, becomes current; both get the active handler; all else is unchanged |
| Properties.FinallyCleanupWithRetReg | mypyc/irbuild/nonlocalcontrol.py:178-191 | with a register, the cleanup first ends the current block with `Branch(reg, t, t, IS_ERROR)` to one fresh block `t`, then does from `t` exactly the cleanup without a register |
| Properties.CleanupRestoresExactlyOnce | mypyc/irbuild/nonlocalcontrol.py:161-191 | each cleanup wrapper emits exactly one exception-state restore and no `Return` |
| Properties.RunCleanupsRestoresEachOnce | mypyc/irbuild/nonlocalcontrol.py:116-126 | running N cleanups emits exactly N restores |
| Properties.JumpRunsCleanupsInnermostFirst | mypyc/irbuild/nonlocalcontrol.py:116-122 | a `break`/`continue` under cleanup wrappers is their cleanups, innermost first, then the first non-cleanup frame's jump |
| Properties.ReturnRunsCleanupsInnermostFirst | mypyc/irbuild/nonlocalcontrol.py:124-126 | a `return` under cleanup wrappers is their cleanups, innermost first, then the first non-cleanup frame's return |
| Properties.LoopJumpThroughCleanups | mypyc/irbuild/nonlocalcontrol.py:66-70 | inside a loop under any cleanup wrappers, `break`/`continue` run all cleanups and then append exactly one jump to the loop's block |
| Properties.JumpRestoresOncePerCleanup | mypyc/irbuild/nonlocalcontrol.py:116-122 | a `break`/`continue` emits exactly one restore per cleanup wrapper it passes |
| Properties.ReturnRestoresOncePerCleanup | mypyc/irbuild/nonlocalcontrol.py:124-126 | a `return` emits exactly one restore per cleanup wrapper in the whole chain, loops included |
| Properties.TryFinallyJumpOnlyReportsError | mypyc/irbuild/nonlocalcontrol.py:136-140 | try/finally `break` and `continue` only add their "unimplemented" message at `line`; no op, no delegation |
| Properties.TryFinallyReturnStashesAndJumps | mypyc/irbuild/nonlocalcontrol.py:142-147 | try/finally `return` allocates a temp of type `ret_types[-1]` only when no register is pending, then appends exactly `Assign(reg, v)`, `Goto(target)` |
| Properties.TryFinallyReturnCount | mypyc/irbuild/nonlocalcontrol.py:142-147 | try/finally `return` emits no `Return` and no restore |
| Properties.ReturnInsideTryFinallyAllocatesAtMostOnce | mypyc/irbuild/nonlocalcontrol.py:143-144 | through any loops and cleanups, a `return` inside try/finally allocates the register only if none is pending, and nothing otherwise |
| Properties.ReturnInsideTryFinallyJumpsToFinally | mypyc/irbuild/nonlocalcontrol.py:146-147 | through any loops and cleanups, the current block ends with the store into the register and the jump to the finally entry |
| Properties.ReturnInsideTryFinallyNeverReturns | mypyc/irbuild/nonlocalcontrol.py:142-147 | through any loops and cleanups, a `return` inside try/finally never emits a `Return` op |
| Properties.SecondReturnReusesRegister | mypyc/irbuild/nonlocalcontrol.py:143-144 | the first return in a try/finally body allocates one register; a second reuses it and allocates nothing |
| Properties.GeneratorReturnCount | mypyc/irbuild/nonlocalcontrol.py:79-104 | the generator return emits no restore and no `Return` |
| Properties.GeneratorReturnProtocol | mypyc/irbuild/nonlocalcontrol.py:79-104 | the current block gets `LoadInt(-1)`, its assignment to the resume-label target and a jump to a fresh block `b`; `b` has no handler and holds exactly `set_stop_iteration_value(v)` without traceback and `Unreachable`; `b` becomes current and nothing else changes |
| Properties.GeneratorReturnNeverLeaks | mypyc/irbuild/nonlocalcontrol.py:87-104 | however deep the `return` inside a generator, StopIteration is raised from a block with no error handler, and the handler stack is as before |

## Left out

- The internals of the IR builder are modelled only through the state and transitions of module `Builder`. The builder source is not part of this model.
- The ops `builder.read` and `builder.assign` may emit for attribute or index targets are not modelled; each is one symbolic value or op.
- The meaning of the emitted IR is not modelled: refcount insertion (which the finally branch on `ret_reg` relies on), the `StopIteration` runtime behaviour and the primitives `set_stop_iteration_value` and `restore_exc_info_op`.
- The lowering of the finally body that later reads `ret_reg` is outside this file; the model only exposes the updated register.
- Pushing and popping frames on the builder's nonlocal-control stack is done by the statement lowering, which is not part of this model.
- Frame targets are not required to be blocks of the state; see the note on fresh block indices above.
- The `line` argument is an opaque integer, and `NO_TRACEBACK_LINE_NO` is a distinct constructor, not its numeric value.
- `if self.ret_reg:` in the finally cleanup is read as "is not None"; IR values define no truthiness of their own.
- The abstract `NonlocalControl` interface and the concrete Python classes are one datatype with one case per class; the `CleanupNonlocalControl` base is a predicate on it.
