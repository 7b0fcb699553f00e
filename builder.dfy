/** An abstract IR builder: just the state that nonlocal-control frames can
    observe or change, the elementary transitions on it, and a class whose
    methods perform those transitions in place. */
module Builder {
  import opened IR

  /** An error reported to the user, with its source line. */
  datatype Diagnostic = Diagnostic(message: string, line: int)

  /** A value that `read` accepts: either already a value or an assignment target. */
  datatype Saved = SavedValue(value: Value) | SavedTarget(target: Target)

  datatype State = State(
    blocks: seq<Block>,                 // every block allocated so far, by id
    current: BlockId,                   // the block ops are appended to
    temps: seq<RType>,                  // the types of the temporaries allocated so far
    handlers: seq<Option<BlockId>>,     // the error-handler stack, top last
    errors: seq<Diagnostic>,            // the errors reported so far
    retTypes: seq<RType>,               // the return types of the functions being built, innermost last
    nextLabelTarget: Target)            // the resume-label target of the generator being built

  /** The builder is inside a function body: a current block exists, the
      handler stack has its bottom entry and a return type is known. */
  predicate WellFormed(s: State) {
    s.current < |s.blocks| && |s.handlers| > 0 && |s.retTypes| > 0
  }

  function TopHandler(s: State): Option<BlockId>
    requires |s.handlers| > 0
  {
    s.handlers[|s.handlers| - 1]
  }

  function CurrentOps(s: State): seq<Op>
    requires WellFormed(s)
  {
    s.blocks[s.current].ops
  }

  function AppendOps(s: State, ops: seq<Op>): (r: State)
    requires WellFormed(s)
    ensures WellFormed(r)
  {
    s.(blocks := s.blocks[s.current := s.blocks[s.current].(ops := CurrentOps(s) + ops)])
  }

  /** `add`: append one op to the current block. */
  function AddOp(s: State, op: Op): (r: State)
    requires WellFormed(s)
    ensures WellFormed(r)
  {
    AppendOps(s, [op])
  }

  /** `BasicBlock()`: a fresh, empty block; its id is the old number of blocks. */
  function WithNewBlock(s: State): (r: State)
    requires WellFormed(s)
    ensures WellFormed(r)
  {
    s.(blocks := s.blocks + [Block([], None)])
  }

  /** `activate_block`: make `b` current and record the active error handler on it. */
  function Activated(s: State, b: BlockId): (r: State)
    requires WellFormed(s) && b < |s.blocks|
    ensures WellFormed(r)
  {
    s.(blocks := s.blocks[b := s.blocks[b].(handler := TopHandler(s))], current := b)
  }

  /** `goto_and_activate`: jump to `b` and continue emitting there. */
  function GotoAndActivated(s: State, b: BlockId): (r: State)
    requires WellFormed(s) && b < |s.blocks|
    ensures WellFormed(r)
  {
    Activated(AddOp(s, Goto(b)), b)
  }

  /** `alloc_temp`: a fresh temporary of type `t`; its register index is the old number of temps. */
  function WithTemp(s: State, t: RType): (r: State)
    requires WellFormed(s)
    ensures WellFormed(r)
  {
    s.(temps := s.temps + [t])
  }

  function PushedHandler(s: State, h: Option<BlockId>): (r: State)
    requires WellFormed(s)
    ensures WellFormed(r)
  {
    s.(handlers := s.handlers + [h])
  }

  function PoppedHandler(s: State): (r: State)
    requires WellFormed(s) && |s.handlers| > 1
    ensures WellFormed(r)
  {
    s.(handlers := s.handlers[..|s.handlers| - 1])
  }

  /** `error`: report a recoverable compile error. */
  function ReportError(s: State, message: string, line: int): (r: State)
    requires WellFormed(s)
    ensures WellFormed(r)
  {
    s.(errors := s.errors + [Diagnostic(message, line)])
  }

  /** `primitive_op`: a call of a runtime primitive. */
  function PrimitiveCall(s: State, p: Primitive, args: seq<Value>, line: Line): (r: State)
    requires WellFormed(s)
    ensures WellFormed(r)
  {
    AddOp(s, CallPrimitive(p, args, line))
  }

  /** `assign`: store a value into an assignment target. */
  function AssignTo(s: State, t: Target, v: Value, line: int): (r: State)
    requires WellFormed(s)
    ensures WellFormed(r)
  {
    AddOp(s, AssignTarget(t, v, line))
  }

  /** `read`: a value is itself; a target stands for its current value. */
  function Read(saved: Saved): Value {
    match saved
    case SavedValue(v) => v
    case SavedTarget(t) => TargetRead(t)
  }

  /** The builder object, whose fields the frames update in place. */
  class IRBuilder {
    var blocks: seq<Block>
    var current: BlockId
    var temps: seq<RType>
    var handlers: seq<Option<BlockId>>
    var errors: seq<Diagnostic>
    var retTypes: seq<RType>
    var nextLabelTarget: Target

    function Snapshot(): State
      reads this
    {
      State(blocks, current, temps, handlers, errors, retTypes, nextLabelTarget)
    }

    predicate Valid()
      reads this
    {
      WellFormed(Snapshot())
    }

    /** A builder positioned at the empty entry block of a function returning `retType`. */
    constructor (retType: RType, nextLabelTarget: Target)
      ensures Valid()
      ensures Snapshot() == State([Block([], None)], 0, [], [None], [], [retType], nextLabelTarget)
    {
      blocks := [Block([], None)];
      current := 0;
      temps := [];
      handlers := [None];
      errors := [];
      retTypes := [retType];
      this.nextLabelTarget := nextLabelTarget;
    }

    method Add(op: Op) returns (v: Value)
      requires Valid()
      modifies this
      ensures Valid() && Snapshot() == AddOp(old(Snapshot()), op)
      ensures v == OpResult(old(current), |old(blocks[current].ops)|)
    {
      v := OpResult(current, |blocks[current].ops|);
      blocks := blocks[current := blocks[current].(ops := blocks[current].ops + [op])];
    }

    method NewBlock() returns (b: BlockId)
      requires Valid()
      modifies this
      ensures Valid() && Snapshot() == WithNewBlock(old(Snapshot()))
      ensures b == |old(blocks)|
    {
      b := |blocks|;
      blocks := blocks + [Block([], None)];
    }

    method ActivateBlock(b: BlockId)
      requires Valid() && b < |blocks|
      modifies this
      ensures Valid() && Snapshot() == Activated(old(Snapshot()), b)
    {
      blocks := blocks[b := blocks[b].(handler := handlers[|handlers| - 1])];
      current := b;
    }

    method GotoAndActivate(b: BlockId)
      requires Valid() && b < |blocks|
      modifies this
      ensures Valid() && Snapshot() == GotoAndActivated(old(Snapshot()), b)
    {
      var jump := Add(Goto(b));
      ActivateBlock(b);
    }

    method AllocTemp(t: RType) returns (r: Register)
      requires Valid()
      modifies this
      ensures Valid() && Snapshot() == WithTemp(old(Snapshot()), t)
      ensures r == Register(|old(temps)|)
    {
      r := Register(|temps|);
      temps := temps + [t];
    }

    method PushErrorHandler(h: Option<BlockId>)
      requires Valid()
      modifies this
      ensures Valid() && Snapshot() == PushedHandler(old(Snapshot()), h)
    {
      handlers := handlers + [h];
    }

    method PopErrorHandler() returns (h: Option<BlockId>)
      requires Valid() && |handlers| > 1
      modifies this
      ensures Valid() && Snapshot() == PoppedHandler(old(Snapshot()))
      ensures h == old(handlers[|handlers| - 1])
    {
      h := handlers[|handlers| - 1];
      handlers := handlers[..|handlers| - 1];
    }

    method Error(message: string, line: int)
      requires Valid()
      modifies this
      ensures Valid() && Snapshot() == ReportError(old(Snapshot()), message, line)
    {
      errors := errors + [Diagnostic(message, line)];
    }

    method PrimitiveOp(p: Primitive, args: seq<Value>, line: Line) returns (v: Value)
      requires Valid()
      modifies this
      ensures Valid() && Snapshot() == PrimitiveCall(old(Snapshot()), p, args, line)
    {
      v := Add(CallPrimitive(p, args, line));
    }

    method Assign(t: Target, v: Value, line: int)
      requires Valid()
      modifies this
      ensures Valid() && Snapshot() == AssignTo(old(Snapshot()), t, v, line)
    {
      var stored := Add(AssignTarget(t, v, line));
    }
  }
}
