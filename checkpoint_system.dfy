// The checkpoint tracker: one optional slot holding the last activated
// checkpoint, which decides where the player respawns.
module Checkpoints {
  import opened Base

  datatype Point = Point(x: real, y: real)

  /** The operations that write the slot. */
  datatype CheckpointOp = Activate(x: real, y: real) | Reset

  /** The slot after one operation: activation overwrites it unconditionally,
      reset empties it. */
  function Apply(last: Option<Point>, op: CheckpointOp): Option<Point> {
    match op
    case Activate(x, y) => Some(Point(x, y))
    case Reset => None
  }

  /** The slot after a series of operations. */
  function Replay(last: Option<Point>, ops: seq<CheckpointOp>): Option<Point>
    decreases |ops|
  {
    if ops == [] then last else Replay(Apply(last, ops[0]), ops[1..])
  }

  /** Where the player respawns: at the recorded checkpoint if there is one,
      else at the level's start. */
  function SpawnPointOf(last: Option<Point>, levelStartX: real, levelStartY: real): (p: Point)
    ensures last.Some? ==> p == last.value
    ensures last.None? ==> p == Point(levelStartX, levelStartY)
  {
    last.GetOr(Point(levelStartX, levelStartY))
  }

  /** Only the latest operation counts: whatever came before, the slot holds
      the point of the last activation, or nothing after a reset. */
  lemma {:induction false} LastOperationWins(last: Option<Point>, ops: seq<CheckpointOp>)
    requires ops != []
    ensures Replay(last, ops) == Apply(None, ops[|ops| - 1])
    decreases |ops|
  {
    if |ops| > 1 {
      LastOperationWins(Apply(last, ops[0]), ops[1..]);
      assert ops[1..][|ops[1..]| - 1] == ops[|ops| - 1];
    }
  }

  /** Activating A, then B, then A again leaves A; activating the same point
      twice is the same as activating it once. */
  lemma ReactivationIsOverwrite(last: Option<Point>, a: Point, b: Point)
    ensures Replay(last, [Activate(a.x, a.y), Activate(b.x, b.y), Activate(a.x, a.y)]) == Some(a)
    ensures Replay(last, [Activate(a.x, a.y), Activate(a.x, a.y)]) == Replay(last, [Activate(a.x, a.y)])
  {
    LastOperationWins(last, [Activate(a.x, a.y), Activate(b.x, b.y), Activate(a.x, a.y)]);
    LastOperationWins(last, [Activate(a.x, a.y), Activate(a.x, a.y)]);
    LastOperationWins(last, [Activate(a.x, a.y)]);
  }

  class CheckpointSystem {
    var lastCheckpoint: Option<Point>

    constructor ()
      ensures lastCheckpoint == None
    {
      lastCheckpoint := None;
    }

    method Activate(x: real, y: real)
      modifies this
      ensures lastCheckpoint == Apply(old(lastCheckpoint), CheckpointOp.Activate(x, y))
    {
      lastCheckpoint := Some(Point(x, y));
    }

    /** A pure read of the slot. */
    function GetSpawnPoint(levelStartX: real, levelStartY: real): (p: Point)
      reads this
      ensures lastCheckpoint.Some? ==> p == lastCheckpoint.value
      ensures lastCheckpoint.None? ==> p == Point(levelStartX, levelStartY)
    {
      SpawnPointOf(lastCheckpoint, levelStartX, levelStartY)
    }

    method Reset()
      modifies this
      ensures lastCheckpoint == Apply(old(lastCheckpoint), CheckpointOp.Reset)
    {
      lastCheckpoint := None;
    }
  }
}
