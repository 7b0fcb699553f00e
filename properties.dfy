/** What each frame's `break`, `continue` and `return` emit, and how a chain
    of frames composes them. */
module Properties {
  import opened IR
  import opened Builder
  import opened Counting
  import opened NonlocalControl

  // ---------------------------------------------------------------------
  // Views of a frame chain

  /** The first frame of the chain that is not a cleanup wrapper. */
  function Below(f: Frame): (r: Frame)
    ensures !r.IsCleanup()
  {
    if f.IsCleanup() then Below(f.outer) else f
  }

  /** The cleanup wrappers above `Below(f)`, innermost construct (the top of the chain) first. */
  function Cleanups(f: Frame): (cs: seq<Frame>)
    ensures forall i :: 0 <= i < |cs| ==> cs[i].IsCleanup()
  {
    if f.IsCleanup() then [f] + Cleanups(f.outer) else []
  }

  /** Every cleanup wrapper in the chain, including those below loop frames. */
  function CleanupCount(f: Frame): nat {
    match f
    case Loop(outer, _, _) => CleanupCount(outer)
    case Except(outer, _) => CleanupCount(outer) + 1
    case Finally(outer, _, _) => CleanupCount(outer) + 1
    case _ => 0
  }

  /** The chain with its loop frames removed. */
  function StripLoops(f: Frame): (r: Frame)
    ensures Root(r) == Root(f)
  {
    match f
    case Loop(outer, _, _) => StripLoops(outer)
    case Except(outer, saved) => Except(StripLoops(outer), saved)
    case Finally(outer, retReg, saved) => Finally(StripLoops(outer), retReg, saved)
    case _ => f
  }

  /** Run the cleanups `cs` in order, the first one first. */
  function RunCleanups(cs: seq<Frame>, s: State, line: int): (r: State)
    requires forall i :: 0 <= i < |cs| ==> cs[i].IsCleanup()
    requires WellFormed(s)
    ensures WellFormed(r)
    ensures r.handlers == s.handlers && r.temps == s.temps && r.errors == s.errors
    decreases |cs|
  {
    if cs == [] then s else RunCleanups(cs[1..], CleanupEffect(cs[0], s, line), line)
  }

  /** One step of a `return` through a cleanup wrapper: run the wrapper's cleanup, then return from its outer frame. */
  lemma ReturnThroughCleanup(f: Frame, s: State, rr: Option<Register>, v: Value, line: int)
    requires f.IsCleanup() && WellFormed(s)
    ensures ReturnEffect(f, s, rr, v, line) == ReturnEffect(f.outer, CleanupEffect(f, s, line), rr, v, line)
  {
  }

  // ---------------------------------------------------------------------
  // Base and loop frames

  /** The base frame's `return` appends exactly one `Return(v)` to the current block. */
  lemma BaseReturnEmitsOneReturn(s: State, rr: Option<Register>, v: Value, line: int)
    requires WellFormed(s)
    ensures ReturnEffect(Base, s, rr, v, line) == (AppendOps(s, [Return(v)]), rr)
  {
  }

  /** A `break`/`continue` is lowered exactly when the first non-cleanup frame
      is a loop or a try/finally frame: it never reaches `Base` or
      `Generator`, whose `break`/`continue` assert false. */
  lemma {:induction false} JumpResolvesAtFirstNonCleanup(f: Frame)
    ensures JumpResolves(f) <==> Below(f).Loop? || Below(f).TryFinally?
  {
    if f.IsCleanup() {
      JumpResolvesAtFirstNonCleanup(f.outer);
    }
  }

  /** A loop frame's `break` appends exactly `Goto(breakBlock)`, its `continue`
      exactly `Goto(continueBlock)`; nothing else in the state changes. */
  lemma LoopJumpsEmitOneGoto(outer: Frame, continueBlock: BlockId, breakBlock: BlockId, s: State, line: int)
    requires WellFormed(s)
    ensures JumpEffect(Break, Loop(outer, continueBlock, breakBlock), s, line) == AppendOps(s, [Goto(breakBlock)])
    ensures JumpEffect(Continue, Loop(outer, continueBlock, breakBlock), s, line) == AppendOps(s, [Goto(continueBlock)])
  {
  }

  /** A loop frame's `return` is exactly its outer frame's `return`. */
  lemma LoopDelegatesReturn(outer: Frame, continueBlock: BlockId, breakBlock: BlockId,
                            s: State, rr: Option<Register>, v: Value, line: int)
    requires WellFormed(s)
    ensures ReturnEffect(Loop(outer, continueBlock, breakBlock), s, rr, v, line) == ReturnEffect(outer, s, rr, v, line)
  {
  }

  /** No loop frame anywhere in a chain affects what a `return` emits. */
  lemma {:induction false} ReturnIgnoresLoops(f: Frame, s: State, rr: Option<Register>, v: Value, line: int)
    requires WellFormed(s)
    ensures ReturnEffect(f, s, rr, v, line) == ReturnEffect(StripLoops(f), s, rr, v, line)
    decreases f
  {
    match f
    case Loop(outer, _, _) =>
      ReturnIgnoresLoops(outer, s, rr, v, line);
    case Except(outer, saved) =>
      var mid := ExceptCleanupEffect(saved, s, line);
      assert ReturnEffect(f, s, rr, v, line) == ReturnEffect(outer, mid, rr, v, line);
      assert ReturnEffect(StripLoops(f), s, rr, v, line) == ReturnEffect(StripLoops(outer), mid, rr, v, line);
      ReturnIgnoresLoops(outer, mid, rr, v, line);
    case Finally(outer, retReg, saved) =>
      var mid := FinallyCleanupEffect(retReg, saved, s, line);
      assert ReturnEffect(f, s, rr, v, line) == ReturnEffect(outer, mid, rr, v, line);
      assert ReturnEffect(StripLoops(f), s, rr, v, line) == ReturnEffect(StripLoops(outer), mid, rr, v, line);
      ReturnIgnoresLoops(outer, mid, rr, v, line);
    case _ =>
  }

  // ---------------------------------------------------------------------
  // Cleanup wrappers

  /** An except cleanup appends exactly one restore of the exception state read from `saved`. */
  lemma ExceptCleanupRestoresSaved(outer: Frame, saved: Saved, s: State, line: int)
    requires WellFormed(s)
    ensures CleanupEffect(Except(outer, saved), s, line)
         == AppendOps(s, [CallPrimitive(RestoreExcInfo, [Read(saved)], Line(line))])
  {
  }

  /** Without a pending-return register the finally cleanup branches on
      `saved` from the current block: to a fresh join block `b` when it is an
      error, otherwise to a fresh block `b + 1` that restores it and jumps to
      `b`; emission continues in `b`. */
  lemma FinallyCleanupWithoutRetReg(outer: Frame, saved: Value, s: State, line: int)
    requires WellFormed(s)
    ensures var r := CleanupEffect(Finally(outer, None, saved), s, line);
            var b := |s.blocks|;
            r.blocks == s.blocks[s.current := Block(CurrentOps(s) + [Branch(saved, b, b + 1, IsError)], s.blocks[s.current].handler)]
                        + [Block([], TopHandler(s)),
                           Block([CallPrimitive(RestoreExcInfo, [saved], Line(line)), Goto(b)], TopHandler(s))]
            && r.current == b
            && r == s.(blocks := r.blocks, current := b)
  {
    var b := |s.blocks|;
    var head := s.blocks[s.current := Block(CurrentOps(s) + [Branch(saved, b, b + 1, IsError)], s.blocks[s.current].handler)];
    var s0 := WithNewBlock(WithNewBlock(s));
    assert s0.blocks == s.blocks + [Block([], None), Block([], None)];
    var s2 := AddOp(s0, Branch(saved, b, b + 1, IsError));
    assert s2.blocks == head + [Block([], None), Block([], None)];
    var s2a := Activated(s2, b + 1);
    assert s2a.blocks == head + [Block([], None), Block([], TopHandler(s))];
    var restore := CallPrimitive(RestoreExcInfo, [saved], Line(line));
    assert CurrentOps(s2a) + [restore] == [restore];
    var s3 := PrimitiveCall(s2a, RestoreExcInfo, [saved], Line(line));
    assert s3.blocks == head + [Block([], None), Block([CallPrimitive(RestoreExcInfo, [saved], Line(line))], TopHandler(s))];
    var s4 := GotoAndActivated(s3, b);
    assert CurrentOps(s3) + [Goto(b)] == [restore, Goto(b)];
    var s3a := AddOp(s3, Goto(b));
    assert s3a.blocks == head + [Block([], None), Block([restore, Goto(b)], TopHandler(s))];
    assert s4 == RestoreBranchEffect(saved, s, line);
    assert s4.blocks == head + [Block([], TopHandler(s)), Block([CallPrimitive(RestoreExcInfo, [saved], Line(line)), Goto(b)], TopHandler(s))];
  }

  /** With a pending-return register `reg` the finally cleanup first ends the
      current block with an error branch on `reg` whose two targets are one
      fresh block `t`; from `t` it then emits the restore branch exactly as
      without a register. */
  lemma FinallyCleanupWithRetReg(outer: Frame, reg: Value, saved: Value, s: State, line: int)
    requires WellFormed(s)
    ensures var t := |s.blocks|;
            var s1 := s.(blocks := s.blocks[s.current := Block(CurrentOps(s) + [Branch(reg, t, t, IsError)], s.blocks[s.current].handler)]
                                   + [Block([], TopHandler(s))],
                         current := t);
            CleanupEffect(Finally(outer, Some(reg), saved), s, line) == CleanupEffect(Finally(outer, None, saved), s1, line)
  {
  }

  /** The branch on the pending-return register emits no restore and no `Return`. */
  lemma RetRegBranchCount(retReg: Option<Value>, s: State, k: OpKind)
    requires WellFormed(s)
    ensures Count(RetRegBranchEffect(retReg, s), k) == Count(s, k)
  {
    if retReg.Some? {
      var t := |s.blocks|;
      var n := WithNewBlock(s);
      CountNewBlock(s, k);
      CountAddOp(n, Branch(retReg.value, t, t, IsError), k);
      CountActivated(AddOp(n, Branch(retReg.value, t, t, IsError)), t, k);
    }
  }

  /** The restore branch emits exactly one restore and no `Return`. */
  lemma RestoreBranchCount(saved: Value, s: State, line: int, k: OpKind)
    requires WellFormed(s)
    ensures Count(RestoreBranchEffect(saved, s, line), k) == Count(s, k) + if k == RestoreCall then 1 else 0
  {
    var target := |s.blocks|;
    var n1 := WithNewBlock(s);
    var n2 := WithNewBlock(n1);
    CountNewBlock(s, k);
    CountNewBlock(n1, k);
    var s1 := AddOp(n2, Branch(saved, target, target + 1, IsError));
    CountAddOp(n2, Branch(saved, target, target + 1, IsError), k);
    var a := Activated(s1, target + 1);
    CountActivated(s1, target + 1, k);
    var s2 := PrimitiveCall(a, RestoreExcInfo, [saved], Line(line));
    CountAddOp(a, CallPrimitive(RestoreExcInfo, [saved], Line(line)), k);
    CountGotoAndActivated(s2, target, k);
  }

  /** Every cleanup wrapper emits exactly one restore of the exception state, and no `Return`. */
  lemma CleanupRestoresExactlyOnce(f: Frame, s: State, line: int, k: OpKind)
    requires f.IsCleanup() && WellFormed(s)
    ensures Count(CleanupEffect(f, s, line), k) == Count(s, k) + if k == RestoreCall then 1 else 0
  {
    match f
    case Except(_, saved) =>
      CountAddOp(s, CallPrimitive(RestoreExcInfo, [Read(saved)], Line(line)), k);
    case Finally(_, retReg, saved) =>
      RetRegBranchCount(retReg, s, k);
      RestoreBranchCount(saved, RetRegBranchEffect(retReg, s), line, k);
  }

  /** Validity of running a sequence of cleanup frames, and its cost in restores. */
  lemma {:induction false} RunCleanupsRestoresEachOnce(cs: seq<Frame>, s: State, line: int)
    requires forall i :: 0 <= i < |cs| ==> cs[i].IsCleanup()
    requires WellFormed(s)
    ensures Count(RunCleanups(cs, s, line), RestoreCall) == Count(s, RestoreCall) + |cs|
    decreases |cs|
  {
    if cs != [] {
      CleanupRestoresExactlyOnce(cs[0], s, line, RestoreCall);
      RunCleanupsRestoresEachOnce(cs[1..], CleanupEffect(cs[0], s, line), line);
    }
  }

  /** `break`/`continue` under a chain of cleanup wrappers runs their cleanups,
      innermost first, and then emits what the first non-cleanup frame emits. */
  lemma {:induction false} JumpRunsCleanupsInnermostFirst(j: Jump, f: Frame, s: State, line: int)
    requires JumpResolves(f) && WellFormed(s)
    ensures JumpResolves(Below(f))
    ensures JumpEffect(j, f, s, line) == JumpEffect(j, Below(f), RunCleanups(Cleanups(f), s, line), line)
    decreases f
  {
    if f.IsCleanup() {
      var mid := CleanupEffect(f, s, line);
      JumpRunsCleanupsInnermostFirst(j, f.outer, mid, line);
      assert Cleanups(f)[1..] == Cleanups(f.outer);
      assert RunCleanups(Cleanups(f), s, line) == RunCleanups(Cleanups(f.outer), mid, line);
      assert JumpEffect(j, f, s, line) == JumpEffect(j, f.outer, mid, line);
    }
  }

  /** `return` under a chain of cleanup wrappers runs their cleanups,
      innermost first, and then emits what the first non-cleanup frame emits. */
  lemma {:induction false} ReturnRunsCleanupsInnermostFirst(f: Frame, s: State, rr: Option<Register>, v: Value, line: int)
    requires WellFormed(s)
    ensures ReturnEffect(f, s, rr, v, line) == ReturnEffect(Below(f), RunCleanups(Cleanups(f), s, line), rr, v, line)
    decreases f
  {
    if f.IsCleanup() {
      var mid := CleanupEffect(f, s, line);
      ReturnRunsCleanupsInnermostFirst(f.outer, mid, rr, v, line);
      assert Cleanups(f)[1..] == Cleanups(f.outer);
      assert RunCleanups(Cleanups(f), s, line) == RunCleanups(Cleanups(f.outer), mid, line);
      assert ReturnEffect(f, s, rr, v, line) == ReturnEffect(f.outer, mid, rr, v, line);
    }
  }

  /** Inside a loop wrapped in any number of cleanup frames, `break` and
      `continue` run every cleanup and then append exactly one jump to the
      loop's target. */
  lemma LoopJumpThroughCleanups(f: Frame, s: State, line: int)
    requires Below(f).Loop? && WellFormed(s)
    ensures JumpResolves(f)
    ensures JumpEffect(Break, f, s, line) == AppendOps(RunCleanups(Cleanups(f), s, line), [Goto(Below(f).breakBlock)])
    ensures JumpEffect(Continue, f, s, line) == AppendOps(RunCleanups(Cleanups(f), s, line), [Goto(Below(f).continueBlock)])
  {
    JumpResolvesAtFirstNonCleanup(f);
    JumpRunsCleanupsInnermostFirst(Break, f, s, line);
    JumpRunsCleanupsInnermostFirst(Continue, f, s, line);
  }

  /** A `break`/`continue` runs each cleanup between it and its loop (or
      try/finally) frame exactly once. */
  lemma JumpRestoresOncePerCleanup(j: Jump, f: Frame, s: State, line: int)
    requires JumpResolves(f) && WellFormed(s)
    ensures Count(JumpEffect(j, f, s, line), RestoreCall) == Count(s, RestoreCall) + |Cleanups(f)|
  {
    JumpRunsCleanupsInnermostFirst(j, f, s, line);
    JumpResolvesAtFirstNonCleanup(f);
    var mid := RunCleanups(Cleanups(f), s, line);
    RunCleanupsRestoresEachOnce(Cleanups(f), s, line);
    if Below(f).Loop? {
      CountAddOp(mid, Goto(if j == Break then Below(f).breakBlock else Below(f).continueBlock), RestoreCall);
    }
  }

  /** A generator's `return` emits no restore and no `Return` op. */
  lemma GeneratorReturnCount(s: State, v: Value, line: int, k: OpKind)
    requires WellFormed(s)
    ensures Count(GeneratorReturnEffect(s, v, line), k) == Count(s, k)
  {
    var minusOne := OpResult(s.current, |CurrentOps(s)|);
    var a := AddOp(s, LoadInt(-1));
    CountAddOp(s, LoadInt(-1), k);
    var s1 := AssignTo(a, s.nextLabelTarget, minusOne, line);
    CountAddOp(a, AssignTarget(s.nextLabelTarget, minusOne, line), k);
    var s2 := PushedHandler(s1, None);
    CountNewBlock(s2, k);
    var s3 := GotoAndActivated(WithNewBlock(s2), |s2.blocks|);
    CountGotoAndActivated(WithNewBlock(s2), |s2.blocks|, k);
    var c := PrimitiveCall(s3, SetStopIterationValue, [v], NoTraceback);
    CountAddOp(s3, CallPrimitive(SetStopIterationValue, [v], NoTraceback), k);
    CountAddOp(c, Unreachable, k);
  }

  /** A `return` runs every cleanup wrapper of the chain exactly once, loop
      frames notwithstanding. */
  lemma {:induction false} ReturnRestoresOncePerCleanup(f: Frame, s: State, rr: Option<Register>, v: Value, line: int)
    requires WellFormed(s)
    ensures Count(ReturnEffect(f, s, rr, v, line).0, RestoreCall) == Count(s, RestoreCall) + CleanupCount(f)
    decreases f
  {
    match f
    case Base =>
      CountAddOp(s, Return(v), RestoreCall);
    case Generator =>
      GeneratorReturnCount(s, v, line, RestoreCall);
    case Loop(outer, _, _) =>
      ReturnRestoresOncePerCleanup(outer, s, rr, v, line);
    case TryFinally(control) =>
      TryFinallyReturnCount(control.target, s, rr, v, RestoreCall);
    case Except(outer, _) =>
      CleanupRestoresExactlyOnce(f, s, line, RestoreCall);
      ReturnRestoresOncePerCleanup(outer, CleanupEffect(f, s, line), rr, v, line);
    case Finally(outer, _, _) =>
      CleanupRestoresExactlyOnce(f, s, line, RestoreCall);
      ReturnRestoresOncePerCleanup(outer, CleanupEffect(f, s, line), rr, v, line);
  }

  // ---------------------------------------------------------------------
  // Try/finally frame

  /** Inside try/finally, `break` and `continue` only report an "unimplemented"
      error: no op is emitted and nothing is delegated. */
  lemma TryFinallyJumpOnlyReportsError(j: Jump, control: TryFinallyControl, s: State, line: int)
    requires WellFormed(s)
    ensures JumpEffect(j, TryFinally(control), s, line)
         == s.(errors := s.errors + [Diagnostic(UnimplementedMessage(j), line)])
    ensures JumpEffect(Break, TryFinally(control), s, line).errors
         == s.errors + [Diagnostic("break inside try/finally block is unimplemented", line)]
    ensures JumpEffect(Continue, TryFinally(control), s, line).errors
         == s.errors + [Diagnostic("continue inside try/finally block is unimplemented", line)]
  {
  }

  /** `return v` in a try/finally frame: a register is allocated, of the
      innermost return type, only when none is pending; then exactly
      `Assign(reg, v)` and `Goto(target)` are appended. */
  lemma TryFinallyReturnStashesAndJumps(control: TryFinallyControl, s: State, rr: Option<Register>, v: Value, line: int)
    requires WellFormed(s)
    ensures var r := ReturnEffect(TryFinally(control), s, rr, v, line);
            var reg := if rr.Some? then rr.value else Register(|s.temps|);
            var held := if rr.Some? then s else s.(temps := s.temps + [s.retTypes[|s.retTypes| - 1]]);
            r == (AppendOps(held, [Assign(reg, v), Goto(control.target)]), Some(reg))
  {
    var reg := if rr.Some? then rr.value else Register(|s.temps|);
    var held := if rr.Some? then s else WithTemp(s, s.retTypes[|s.retTypes| - 1]);
    assert ReturnEffect(TryFinally(control), s, rr, v, line) == TryFinallyReturnEffect(control.target, s, rr, v);
    assert CurrentOps(held) + [Assign(reg, v)] + [Goto(control.target)] == CurrentOps(held) + [Assign(reg, v), Goto(control.target)];
    assert AddOp(AddOp(held, Assign(reg, v)), Goto(control.target)) == AppendOps(held, [Assign(reg, v), Goto(control.target)]);
  }

  lemma TryFinallyReturnCount(target: BlockId, s: State, rr: Option<Register>, v: Value, k: OpKind)
    requires WellFormed(s)
    ensures Count(TryFinallyReturnEffect(target, s, rr, v).0, k) == Count(s, k)
  {
    var reg := if rr.Some? then rr.value else Register(|s.temps|);
    var s1 := if rr.Some? then s else WithTemp(s, s.retTypes[|s.retTypes| - 1]);
    CountAddOp(s1, Assign(reg, v), k);
    CountAddOp(AddOp(s1, Assign(reg, v)), Goto(target), k);
  }

  /** A `return` anywhere inside a try/finally body (through any loops and
      cleanup wrappers) stores into the frame's pending register, allocating
      it, of the innermost return type, only if none is pending. */
  lemma {:induction false} ReturnInsideTryFinallyAllocatesAtMostOnce(f: Frame, s: State, rr: Option<Register>, v: Value, line: int)
    requires Root(f).TryFinally? && WellFormed(s)
    ensures var r := ReturnEffect(f, s, rr, v, line);
            && r.1 == (if rr.Some? then rr else Some(Register(|s.temps|)))
            && r.0.temps == (if rr.Some? then s.temps else s.temps + [s.retTypes[|s.retTypes| - 1]])
    decreases f
  {
    if f.TryFinally? {
      TryFinallyReturnStashesAndJumps(f.control, s, rr, v, line);
    } else if f.Loop? {
      ReturnInsideTryFinallyAllocatesAtMostOnce(f.outer, s, rr, v, line);
    } else if f.IsCleanup() {
      var mid := CleanupEffect(f, s, line);
      ReturnThroughCleanup(f, s, rr, v, line);
      assert mid.temps == s.temps && mid.retTypes == s.retTypes;
      ReturnInsideTryFinallyAllocatesAtMostOnce(f.outer, mid, rr, v, line);
    }
  }

  /** The current block ends with the store of `v` into `reg` and a jump to `target`. */
  predicate EndsWithStore(s: State, reg: Register, v: Value, target: BlockId)
    requires WellFormed(s)
  {
    var ops := CurrentOps(s);
    |ops| >= 2 && ops[|ops| - 2] == Assign(reg, v) && ops[|ops| - 1] == Goto(target)
  }

  /** A `return` anywhere inside a try/finally body ends the current block
      with the store of `v` into the register and a jump to the finally entry. */
  lemma {:induction false} ReturnInsideTryFinallyJumpsToFinally(f: Frame, s: State, rr: Option<Register>, v: Value, line: int)
    requires Root(f).TryFinally? && WellFormed(s)
    ensures var r := ReturnEffect(f, s, rr, v, line);
            && r.1.Some?
            && EndsWithStore(r.0, r.1.value, v, Root(f).control.target)
    decreases f
  {
    if f.TryFinally? {
      TryFinallyReturnStashesAndJumps(f.control, s, rr, v, line);
    } else if f.Loop? {
      ReturnInsideTryFinallyJumpsToFinally(f.outer, s, rr, v, line);
    } else {
      var mid := CleanupEffect(f, s, line);
      ReturnThroughCleanup(f, s, rr, v, line);
      ReturnInsideTryFinallyJumpsToFinally(f.outer, mid, rr, v, line);
    }
  }

  /** A `return` anywhere inside a try/finally body never emits a `Return` op. */
  lemma {:induction false} ReturnInsideTryFinallyNeverReturns(f: Frame, s: State, rr: Option<Register>, v: Value, line: int)
    requires Root(f).TryFinally? && WellFormed(s)
    ensures Count(ReturnEffect(f, s, rr, v, line).0, ReturnOp) == Count(s, ReturnOp)
    decreases f
  {
    if f.TryFinally? {
      TryFinallyReturnCount(f.control.target, s, rr, v, ReturnOp);
    } else if f.Loop? {
      ReturnInsideTryFinallyNeverReturns(f.outer, s, rr, v, line);
    } else {
      var mid := CleanupEffect(f, s, line);
      CleanupRestoresExactlyOnce(f, s, line, ReturnOp);
      ReturnThroughCleanup(f, s, rr, v, line);
      ReturnInsideTryFinallyNeverReturns(f.outer, mid, rr, v, line);
    }
  }

  /** Two returns inside the same try/finally body: the first allocates the
      register, the second reuses it and allocates nothing. */
  lemma SecondReturnReusesRegister(f1: Frame, f2: Frame, s: State, v1: Value, v2: Value, line1: int, line2: int)
    requires Root(f1).TryFinally? && Root(f2) == Root(f1) && WellFormed(s)
    ensures var first := ReturnEffect(f1, s, None, v1, line1);
            var second := ReturnEffect(f2, first.0, first.1, v2, line2);
            && first.1 == Some(Register(|s.temps|))
            && |first.0.temps| == |s.temps| + 1
            && second.1 == first.1
            && second.0.temps == first.0.temps
  {
    var first := ReturnEffect(f1, s, None, v1, line1);
    ReturnInsideTryFinallyAllocatesAtMostOnce(f1, s, None, v1, line1);
    ReturnInsideTryFinallyAllocatesAtMostOnce(f2, first.0, first.1, v2, line2);
  }

  // ---------------------------------------------------------------------
  // Generator frame

  /** The generator frame's `return`: the current block gets `LoadInt(-1)`,
      its assignment to the resume-label target and a jump to a fresh block
      `b`; `b` is activated with no error handler and holds exactly
      `set_stop_iteration_value(v)` (without traceback) and `Unreachable`;
      the error-handler stack is left as it was. */
  lemma GeneratorReturnProtocol(s: State, rr: Option<Register>, v: Value, line: int)
    requires WellFormed(s)
    ensures var r := ReturnEffect(Generator, s, rr, v, line);
            var b := |s.blocks|;
            var minusOne := OpResult(s.current, |CurrentOps(s)|);
            && r.1 == rr
            && r.0.blocks
               == s.blocks[s.current := Block(CurrentOps(s) + [LoadInt(-1), AssignTarget(s.nextLabelTarget, minusOne, line), Goto(b)],
                                              s.blocks[s.current].handler)]
                  + [Block([CallPrimitive(SetStopIterationValue, [v], NoTraceback), Unreachable], None)]
            && r.0 == s.(blocks := r.0.blocks, current := b)
  {
    var b := |s.blocks|;
    var minusOne := OpResult(s.current, |CurrentOps(s)|);
    var s1 := AssignTo(AddOp(s, LoadInt(-1)), s.nextLabelTarget, minusOne, line);
    assert CurrentOps(s1) == CurrentOps(s) + [LoadInt(-1), AssignTarget(s.nextLabelTarget, minusOne, line)];
    var s2 := PushedHandler(s1, None);
    var n := WithNewBlock(s2);
    var s2a := AddOp(n, Goto(b));
    var head := s.blocks[s.current := Block(CurrentOps(s) + [LoadInt(-1), AssignTarget(s.nextLabelTarget, minusOne, line), Goto(b)],
                                            s.blocks[s.current].handler)];
    assert CurrentOps(n) + [Goto(b)] == CurrentOps(s) + [LoadInt(-1), AssignTarget(s.nextLabelTarget, minusOne, line), Goto(b)];
    assert s2a.blocks == head + [Block([], None)];
    var s3 := Activated(s2a, b);
    assert s3 == GotoAndActivated(n, b);
    assert s3.blocks == head + [Block([], None)];
    var stop := CallPrimitive(SetStopIterationValue, [v], NoTraceback);
    var s4 := AddOp(PrimitiveCall(s3, SetStopIterationValue, [v], NoTraceback), Unreachable);
    assert CurrentOps(s3) + [stop] + [Unreachable] == [stop, Unreachable];
    assert s4.blocks == head + [Block([stop, Unreachable], None)];
    assert PoppedHandler(s4) == GeneratorReturnEffect(s, v, line);
  }

  /** However the `return` in a generator is nested (loops, except and finally
      handlers), StopIteration is raised from a fresh block that has no error
      handler, so no enclosing except block catches it, and the error-handler
      stack is the same afterwards. */
  lemma {:induction false} GeneratorReturnNeverLeaks(f: Frame, s: State, rr: Option<Register>, v: Value, line: int)
    requires Root(f).Generator? && WellFormed(s)
    ensures var r := ReturnEffect(f, s, rr, v, line).0;
            && r.handlers == s.handlers
            && r.current == |r.blocks| - 1
            && r.blocks[r.current] == Block([CallPrimitive(SetStopIterationValue, [v], NoTraceback), Unreachable], None)
    decreases f
  {
    match f
    case Generator =>
      GeneratorReturnProtocol(s, rr, v, line);
    case Loop(outer, _, _) =>
      GeneratorReturnNeverLeaks(outer, s, rr, v, line);
    case Except(outer, _) =>
      GeneratorReturnNeverLeaks(outer, CleanupEffect(f, s, line), rr, v, line);
    case Finally(outer, _, _) =>
      GeneratorReturnNeverLeaks(outer, CleanupEffect(f, s, line), rr, v, line);
  }
}
