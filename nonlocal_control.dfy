/** Nonlocal control frames: what `break`, `continue` and `return` emit at
    each nesting level of loops, generators, try/finally bodies and
    except/finally handlers.

    Each operation is given twice: as a function from the builder state
    before the statement to the state after it (the specification, used by
    the lemmas in module Properties), and as a method that performs the same
    emission on an `IRBuilder` in place and is proved to agree with it. */
module NonlocalControl {
  import opened IR
  import opened Builder

  const BreakUnimplemented := "break inside try/finally block is unimplemented"
  const ContinueUnimplemented := "continue inside try/finally block is unimplemented"

  /** The frame of a try/finally body. `retReg` is allocated lazily by the
      first `return` lowered inside the body, and is read afterwards by the
      lowering of the finally body, so it lives in an object. */
  class TryFinallyControl {
    const target: BlockId
    var retReg: Option<Register>

    constructor (target: BlockId)
      ensures this.target == target && retReg == None
    {
      this.target := target;
      retReg := None;
    }

    /** `break`/`continue` inside try/finally: only an error is reported. */
    method GenJump(j: Jump, builder: IRBuilder, line: int)
      requires builder.Valid()
      modifies builder
      ensures builder.Valid()
      ensures builder.Snapshot() == ReportError(old(builder.Snapshot()), UnimplementedMessage(j), line)
    {
      builder.Error(UnimplementedMessage(j), line);
    }

    /** `return` inside try/finally: stash the value in `retReg`, allocating
        it on first use, and jump to the finally entry. */
    method GenReturn(builder: IRBuilder, v: Value)
      requires builder.Valid()
      modifies this, builder
      ensures builder.Valid()
      ensures (builder.Snapshot(), retReg)
           == TryFinallyReturnEffect(target, old(builder.Snapshot()), old(retReg), v)
      ensures old(retReg).Some? ==> retReg == old(retReg) && builder.temps == old(builder.temps)
      ensures old(retReg).None? ==> retReg == Some(Register(|old(builder.temps)|))
      ensures old(retReg).None? ==> builder.temps == old(builder.temps) + [old(builder.retTypes[|builder.retTypes| - 1])]
    {
      if retReg.None? {
        var reg := builder.AllocTemp(builder.retTypes[|builder.retTypes| - 1]);
        retReg := Some(reg);
      }
      var stored := builder.Add(Assign(retReg.value, v));
      var jump := builder.Add(Goto(target));
    }
  }

  datatype Jump = Break | Continue

  datatype Frame =
    | Base                                                      // outside any construct
    | Generator                                                 // outside any construct, in a generator
    | Loop(outer: Frame, continueBlock: BlockId, breakBlock: BlockId)
    | TryFinally(control: TryFinallyControl)
    | Except(outer: Frame, saved: Saved)                        // an except handler body
    | Finally(outer: Frame, retReg: Option<Value>, savedExc: Value) // a finally body
  {
    /** The frames that run cleanup code before delegating to `outer`. */
    predicate IsCleanup() {
      Except? || Finally?
    }
  }

  function UnimplementedMessage(j: Jump): string {
    match j
    case Break => BreakUnimplemented
    case Continue => ContinueUnimplemented
  }

  /** The frame at the bottom of a chain: the one without an `outer`. */
  function Root(f: Frame): (r: Frame)
    ensures r.Base? || r.Generator? || r.TryFinally?
  {
    match f
    case Loop(outer, _, _) => Root(outer)
    case Except(outer, _) => Root(outer)
    case Finally(outer, _, _) => Root(outer)
    case _ => f
  }

  /** The mutable objects a `return` through `f` may update. */
  function Controls(f: Frame): set<TryFinallyControl> {
    if Root(f).TryFinally? then {Root(f).control} else {}
  }

  /** The pending-return register of the try/finally frame at the root of `f`, if any. */
  function RetReg(f: Frame): Option<Register>
    reads Controls(f)
  {
    if Root(f).TryFinally? then Root(f).control.retReg else None
  }

  /** A `break`/`continue` issued under `f` reaches a loop or a try/finally
      frame; the base frames assert that it never reaches them. */
  predicate JumpResolves(f: Frame) {
    match f
    case Base => false
    case Generator => false
    case Loop(_, _, _) => true
    case TryFinally(_) => true
    case Except(outer, _) => JumpResolves(outer)
    case Finally(outer, _, _) => JumpResolves(outer)
  }

  // ---------------------------------------------------------------------
  // Specification: the effect of each operation on the builder state

  /** Except cleanup: restore the exception state read from `saved`. */
  function ExceptCleanupEffect(saved: Saved, s: State, line: int): (r: State)
    requires WellFormed(s)
    ensures WellFormed(r)
    ensures r.current == s.current && r.handlers == s.handlers && r.temps == s.temps && r.errors == s.errors && r.retTypes == s.retTypes
  {
    PrimitiveCall(s, RestoreExcInfo, [Read(saved)], Line(line))
  }

  /** Finally cleanup: an error branch on the pending-return register (both
      targets the same fresh block), then a restore of the exception state
      that is skipped when `saved` is an error. Emission continues in a
      fresh join block. */
  function FinallyCleanupEffect(retReg: Option<Value>, saved: Value, s: State, line: int): (r: State)
    requires WellFormed(s)
    ensures WellFormed(r)
    ensures r.handlers == s.handlers && r.temps == s.temps && r.errors == s.errors && r.retTypes == s.retTypes
    ensures r.current == |r.blocks| - 2
  {
    RestoreBranchEffect(saved, RetRegBranchEffect(retReg, s), line)
  }

  /** The first half of the finally cleanup: when a pending-return register
      is present, an error branch on it whose two targets are one fresh block,
      which becomes current. */
  function RetRegBranchEffect(retReg: Option<Value>, s: State): (r: State)
    requires WellFormed(s)
    ensures WellFormed(r)
    ensures r.handlers == s.handlers && r.temps == s.temps && r.errors == s.errors && r.retTypes == s.retTypes
  {
    if retReg.Some? then
      var t := |s.blocks|;
      Activated(AddOp(WithNewBlock(s), Branch(retReg.value, t, t, IsError)), t)
    else s
  }

  /** The second half of the finally cleanup: an error branch on `saved` to a
      fresh join block `target` (when it is an error) or a fresh `cleanup`
      block (otherwise) that restores the exception state and jumps to
      `target`; `target` becomes current. */
  function RestoreBranchEffect(saved: Value, s: State, line: int): (r: State)
    requires WellFormed(s)
    ensures WellFormed(r)
    ensures r.handlers == s.handlers && r.temps == s.temps && r.errors == s.errors && r.retTypes == s.retTypes
    ensures r.current == |r.blocks| - 2
  {
    var target := |s.blocks|;
    var cleanup := target + 1;
    var s1 := AddOp(WithNewBlock(WithNewBlock(s)), Branch(saved, target, cleanup, IsError));
    var s2 := PrimitiveCall(Activated(s1, cleanup), RestoreExcInfo, [saved], Line(line));
    GotoAndActivated(s2, target)
  }

  function CleanupEffect(f: Frame, s: State, line: int): (r: State)
    requires f.IsCleanup() && WellFormed(s)
    ensures WellFormed(r)
    ensures r.handlers == s.handlers && r.temps == s.temps && r.errors == s.errors && r.retTypes == s.retTypes
  {
    match f
    case Except(_, saved) => ExceptCleanupEffect(saved, s, line)
    case Finally(_, retReg, saved) => FinallyCleanupEffect(retReg, saved, s, line)
  }

  /** `break` (or `continue`) under `f`. */
  function JumpEffect(j: Jump, f: Frame, s: State, line: int): (r: State)
    requires JumpResolves(f) && WellFormed(s)
    ensures WellFormed(r)
    ensures r.handlers == s.handlers && r.temps == s.temps && r.retTypes == s.retTypes
    decreases f
  {
    match f
    case Loop(_, continueBlock, breakBlock) =>
      AddOp(s, Goto(if j == Break then breakBlock else continueBlock))
    case TryFinally(_) => ReportError(s, UnimplementedMessage(j), line)
    case Except(outer, _) => JumpEffect(j, outer, CleanupEffect(f, s, line), line)
    case Finally(outer, _, _) => JumpEffect(j, outer, CleanupEffect(f, s, line), line)
  }

  /** The generator return protocol: invalidate the resume label, then raise
      StopIteration(v) from a fresh block that has no error handler, so that
      no enclosing except block of the generator catches it. */
  function GeneratorReturnEffect(s: State, v: Value, line: int): (r: State)
    requires WellFormed(s)
    ensures WellFormed(r)
    ensures r.handlers == s.handlers && r.temps == s.temps && r.errors == s.errors && r.retTypes == s.retTypes
  {
    var minusOne := OpResult(s.current, |CurrentOps(s)|);
    var s1 := AssignTo(AddOp(s, LoadInt(-1)), s.nextLabelTarget, minusOne, line);
    var s2 := PushedHandler(s1, None);
    var s3 := GotoAndActivated(WithNewBlock(s2), |s2.blocks|);
    var s4 := AddOp(PrimitiveCall(s3, SetStopIterationValue, [v], NoTraceback), Unreachable);
    PoppedHandler(s4)
  }

  /** `return v` inside try/finally, given the frame's pending-return register
      `rr`: the new state and the register afterwards. */
  function TryFinallyReturnEffect(target: BlockId, s: State, rr: Option<Register>, v: Value)
    : (r: (State, Option<Register>))
    requires WellFormed(s)
    ensures WellFormed(r.0)
    ensures r.0.handlers == s.handlers && r.0.errors == s.errors && r.1.Some?
  {
    var reg := if rr.Some? then rr.value else Register(|s.temps|);
    var s1 := if rr.Some? then s else WithTemp(s, s.retTypes[|s.retTypes| - 1]);
    (AddOp(AddOp(s1, Assign(reg, v)), Goto(target)), Some(reg))
  }

  /** `return v` under `f`, given the pending-return register `rr` of the
      try/finally frame at its root: the new state and that register afterwards. */
  function ReturnEffect(f: Frame, s: State, rr: Option<Register>, v: Value, line: int)
    : (r: (State, Option<Register>))
    requires WellFormed(s)
    ensures WellFormed(r.0)
    ensures r.0.handlers == s.handlers && r.0.errors == s.errors && r.0.retTypes == s.retTypes
    ensures !Root(f).TryFinally? ==> r.1 == rr && r.0.temps == s.temps
    decreases f
  {
    match f
    case Base => (AddOp(s, Return(v)), rr)
    case Generator => (GeneratorReturnEffect(s, v, line), rr)
    case Loop(outer, _, _) => ReturnEffect(outer, s, rr, v, line)
    case TryFinally(control) => TryFinallyReturnEffect(control.target, s, rr, v)
    case Except(outer, _) => ReturnEffect(outer, CleanupEffect(f, s, line), rr, v, line)
    case Finally(outer, _, _) => ReturnEffect(outer, CleanupEffect(f, s, line), rr, v, line)
  }

  // ---------------------------------------------------------------------
  // The operations, performed on a builder in place

  method ExceptCleanup(saved: Saved, builder: IRBuilder, line: int)
    requires builder.Valid()
    modifies builder
    ensures builder.Valid()
    ensures builder.Snapshot() == ExceptCleanupEffect(saved, old(builder.Snapshot()), line)
  {
    var restored := builder.PrimitiveOp(RestoreExcInfo, [Read(saved)], Line(line));
  }

  method FinallyCleanup(retReg: Option<Value>, saved: Value, builder: IRBuilder, line: int)
    requires builder.Valid()
    modifies builder
    ensures builder.Valid()
    ensures builder.Snapshot() == FinallyCleanupEffect(retReg, saved, old(builder.Snapshot()), line)
  {
    BranchOnRetReg(retReg, builder);
    RestoreUnlessError(saved, builder, line);
  }

  /** The first half of the finally cleanup. */
  method BranchOnRetReg(retReg: Option<Value>, builder: IRBuilder)
    requires builder.Valid()
    modifies builder
    ensures builder.Valid()
    ensures builder.Snapshot() == RetRegBranchEffect(retReg, old(builder.Snapshot()))
  {
    if retReg.Some? {
      var t := builder.NewBlock();
      var branch := builder.Add(Branch(retReg.value, t, t, IsError));
      builder.ActivateBlock(t);
    }
  }

  /** The second half of the finally cleanup. */
  method RestoreUnlessError(saved: Value, builder: IRBuilder, line: int)
    requires builder.Valid()
    modifies builder
    ensures builder.Valid()
    ensures builder.Snapshot() == RestoreBranchEffect(saved, old(builder.Snapshot()), line)
  {
    ghost var s0 := builder.Snapshot();
    var target := builder.NewBlock();
    var cleanup := builder.NewBlock();
    var branch := builder.Add(Branch(saved, target, cleanup, IsError));
    ghost var s1 := builder.Snapshot();
    assert s1 == AddOp(WithNewBlock(WithNewBlock(s0)), Branch(saved, target, cleanup, IsError));
    builder.ActivateBlock(cleanup);
    var restored := builder.PrimitiveOp(RestoreExcInfo, [saved], Line(line));
    ghost var s2 := builder.Snapshot();
    assert s2 == PrimitiveCall(Activated(s1, cleanup), RestoreExcInfo, [saved], Line(line));
    builder.GotoAndActivate(target);
  }

  method GenCleanup(f: Frame, builder: IRBuilder, line: int)
    requires f.IsCleanup() && builder.Valid()
    modifies builder
    ensures builder.Valid()
    ensures builder.Snapshot() == CleanupEffect(f, old(builder.Snapshot()), line)
  {
    match f
    case Except(_, saved) => ExceptCleanup(saved, builder, line);
    case Finally(_, retReg, saved) => FinallyCleanup(retReg, saved, builder, line);
  }

  /** `gen_break` (`j == Break`) and `gen_continue` (`j == Continue`). */
  method GenJump(j: Jump, f: Frame, builder: IRBuilder, line: int)
    requires JumpResolves(f) && builder.Valid()
    modifies builder
    ensures builder.Valid()
    ensures builder.Snapshot() == JumpEffect(j, f, old(builder.Snapshot()), line)
    decreases f
  {
    match f
    case Loop(_, continueBlock, breakBlock) =>
      var jump := builder.Add(Goto(if j == Break then breakBlock else continueBlock));
    case TryFinally(control) =>
      control.GenJump(j, builder, line);
    case Except(outer, _) =>
      GenCleanup(f, builder, line);
      GenJump(j, outer, builder, line);
    case Finally(outer, _, _) =>
      GenCleanup(f, builder, line);
      GenJump(j, outer, builder, line);
  }

  method GeneratorReturn(builder: IRBuilder, v: Value, line: int)
    requires builder.Valid()
    modifies builder
    ensures builder.Valid()
    ensures builder.Snapshot() == GeneratorReturnEffect(old(builder.Snapshot()), v, line)
  {
    var minusOne := builder.Add(LoadInt(-1));
    builder.Assign(builder.nextLabelTarget, minusOne, line);
    builder.PushErrorHandler(None);
    var b := builder.NewBlock();
    builder.GotoAndActivate(b);
    var stop := builder.PrimitiveOp(SetStopIterationValue, [v], NoTraceback);
    var end := builder.Add(Unreachable);
    var popped := builder.PopErrorHandler();
  }

  /** `gen_return`. */
  method GenReturn(f: Frame, builder: IRBuilder, v: Value, line: int)
    requires builder.Valid()
    modifies builder, Controls(f)
    ensures builder.Valid()
    ensures (builder.Snapshot(), RetReg(f)) == ReturnEffect(f, old(builder.Snapshot()), old(RetReg(f)), v, line)
    decreases f
  {
    match f
    case Base =>
      var ret := builder.Add(Return(v));
    case Generator =>
      GeneratorReturn(builder, v, line);
    case Loop(outer, _, _) =>
      GenReturn(outer, builder, v, line);
    case TryFinally(control) =>
      control.GenReturn(builder, v);
    case Except(outer, _) =>
      GenCleanup(f, builder, line);
      // the cleanup changed only the builder, not the frame's pending-return register
      if Root(outer).TryFinally? {
        assert Root(outer).control as object != builder;
        assert Root(outer).control.retReg == old(Root(outer).control.retReg);
      }
      GenReturn(outer, builder, v, line);
    case Finally(outer, _, _) =>
      GenCleanup(f, builder, line);
      // the cleanup changed only the builder, not the frame's pending-return register
      if Root(outer).TryFinally? {
        assert Root(outer).control as object != builder;
        assert Root(outer).control.retReg == old(Root(outer).control.retReg);
      }
      GenReturn(outer, builder, v, line);
  }
}
