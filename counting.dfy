/** Counting emitted ops of a given kind over all blocks of a builder state,
    and how each elementary builder transition changes that count. */
module Counting {
  import opened IR
  import opened Builder

  datatype OpKind = RestoreCall | ReturnOp

  predicate IsKind(k: OpKind, op: Op) {
    match k
    case RestoreCall => op.CallPrimitive? && op.prim == RestoreExcInfo
    case ReturnOp => op.Return?
  }

  function CountOps(ops: seq<Op>, k: OpKind): nat {
    if ops == [] then 0
    else CountOps(ops[..|ops| - 1], k) + (if IsKind(k, ops[|ops| - 1]) then 1 else 0)
  }

  function CountBlocks(bs: seq<Block>, k: OpKind): nat {
    if bs == [] then 0
    else CountBlocks(bs[..|bs| - 1], k) + CountOps(bs[|bs| - 1].ops, k)
  }

  /** The number of ops of kind `k` emitted anywhere so far. */
  function Count(s: State, k: OpKind): nat {
    CountBlocks(s.blocks, k)
  }

  lemma {:induction false} CountOpsAppend(a: seq<Op>, b: seq<Op>, k: OpKind)
    ensures CountOps(a + b, k) == CountOps(a, k) + CountOps(b, k)
    decreases |b|
  {
    if b == [] {
      assert a + b == a;
    } else {
      var last := |b| - 1;
      assert (a + b)[..|a + b| - 1] == a + b[..last];
      CountOpsAppend(a, b[..last], k);
    }
  }

  lemma CountOpsSingle(op: Op, k: OpKind)
    ensures CountOps([op], k) == if IsKind(k, op) then 1 else 0
  {
    assert [op][..0] == [];
  }

  lemma {:induction false} CountBlocksUpdate(bs: seq<Block>, i: nat, b: Block, k: OpKind)
    requires i < |bs|
    ensures CountBlocks(bs[i := b], k) + CountOps(bs[i].ops, k) == CountBlocks(bs, k) + CountOps(b.ops, k)
    decreases |bs|
  {
    var last := |bs| - 1;
    if i < last {
      assert bs[i := b][..last] == bs[..last][i := b];
      CountBlocksUpdate(bs[..last], i, b, k);
    } else {
      assert bs[i := b][..last] == bs[..last];
    }
  }

  lemma CountAppendOps(s: State, ops: seq<Op>, k: OpKind)
    requires WellFormed(s)
    ensures Count(AppendOps(s, ops), k) == Count(s, k) + CountOps(ops, k)
  {
    CountBlocksUpdate(s.blocks, s.current, s.blocks[s.current].(ops := CurrentOps(s) + ops), k);
    CountOpsAppend(CurrentOps(s), ops, k);
  }

  lemma CountAddOp(s: State, op: Op, k: OpKind)
    requires WellFormed(s)
    ensures Count(AddOp(s, op), k) == Count(s, k) + if IsKind(k, op) then 1 else 0
  {
    CountAppendOps(s, [op], k);
    CountOpsSingle(op, k);
  }

  lemma CountNewBlock(s: State, k: OpKind)
    requires WellFormed(s)
    ensures Count(WithNewBlock(s), k) == Count(s, k)
  {
    var bs := s.blocks + [Block([], None)];
    assert bs[..|bs| - 1] == s.blocks;
  }

  lemma CountActivated(s: State, b: BlockId, k: OpKind)
    requires WellFormed(s) && b < |s.blocks|
    ensures Count(Activated(s, b), k) == Count(s, k)
  {
    CountBlocksUpdate(s.blocks, b, s.blocks[b].(handler := TopHandler(s)), k);
  }

  lemma CountGotoAndActivated(s: State, b: BlockId, k: OpKind)
    requires WellFormed(s) && b < |s.blocks|
    ensures Count(GotoAndActivated(s, b), k) == Count(s, k)
  {
    CountAddOp(s, Goto(b), k);
    CountActivated(AddOp(s, Goto(b)), b, k);
  }
}
