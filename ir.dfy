/** The intermediate representation that nonlocal-control frames emit.
    Values, registers, blocks and operations are uninterpreted constructors:
    only their identity and the order in which they are emitted matter here. */
module IR {

  datatype Option<T> = None | Some(value: T)

  /** A basic block is named by its index in the builder's block store. */
  type BlockId = nat

  /** An IR type, as carried by the builder's return-type stack. */
  datatype RType = RType(id: nat)

  /** A temporary register allocated by the builder. */
  datatype Register = Register(index: nat)

  /** An assignment target (a register, attribute or index location). */
  datatype Target = Target(id: nat)

  datatype Value =
    | Input(id: nat)                          // a value computed by the surrounding lowering code
    | RegValue(reg: Register)                 // the contents of a register
    | OpResult(block: BlockId, index: nat)    // the value produced by the op at that position
    | TargetRead(target: Target)              // the current value of an assignment target

  /** The source line attached to a primitive call; NoTraceback suppresses the traceback entry. */
  datatype Line = Line(n: int) | NoTraceback

  datatype Primitive = SetStopIterationValue | RestoreExcInfo

  /** The branch kind used by this component: jump to the first target when the value is an error. */
  datatype BranchKind = IsError

  datatype Op =
    | Goto(target: BlockId)
    | Branch(cond: Value, ifTrue: BlockId, ifFalse: BlockId, kind: BranchKind)
    | Return(value: Value)
    | Unreachable
    | LoadInt(n: int)
    | Assign(dest: Register, src: Value)
    | AssignTarget(location: Target, src: Value, assignLine: int)
    | CallPrimitive(prim: Primitive, args: seq<Value>, callLine: Line)

  /** A basic block: its ops, and the error handler that was active when it was activated. */
  datatype Block = Block(ops: seq<Op>, handler: Option<BlockId>)
}
