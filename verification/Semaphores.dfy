/** XSI semaphores: atomic arrays of operations, undo adjustments, SETVAL and exit. */
module Semaphores {

  datatype SemId = WEXIST | REXIST | PRINT | MEMORY | PAIR | FINISH

  /** One number for each of the six semaphores: their values, or a process's adjustments. */
  datatype Sems = Sems(wexist: int, rexist: int, print_: int, memory: int, pair: int, finish: int) {
    function Get(id: SemId): int {
      match id
      case WEXIST => wexist
      case REXIST => rexist
      case PRINT => print_
      case MEMORY => memory
      case PAIR => pair
      case FINISH => finish
    }

    function Set(id: SemId, n: int): Sems {
      match id
      case WEXIST => this.(wexist := n)
      case REXIST => this.(rexist := n)
      case PRINT => this.(print_ := n)
      case MEMORY => this.(memory := n)
      case PAIR => this.(pair := n)
      case FINISH => this.(finish := n)
    }
  }

  const ZERO := Sems(0, 0, 0, 0, 0, 0)

  /** struct sembuf, with its two flags. */
  datatype SemOp = SemOp(num: SemId, op: int, undo: bool, nowait: bool)

  datatype Outcome = Done(vals: Sems, adj: Sems) | Blocks | Again

  /** The operations from the k-th on, tried in order on vals and adj. The first one that
      cannot proceed decides for the whole array: with IPC_NOWAIT the call fails, without
      it the process waits; in both cases nothing is changed. */
  function TryFrom(vals: Sems, adj: Sems, ops: seq<SemOp>, k: nat): Outcome
    requires k <= |ops|
    decreases |ops| - k
  {
    if k == |ops| then Done(vals, adj) else
      var o := ops[k];
      var v := vals.Get(o.num);
      if (if o.op == 0 then v != 0 else v + o.op < 0) then (if o.nowait then Again else Blocks)
      else TryFrom(vals.Set(o.num, v + o.op),
                   if o.undo then adj.Set(o.num, adj.Get(o.num) - o.op) else adj,
                   ops, k + 1)
  }

  function Semop(vals: Sems, adj: Sems, ops: seq<SemOp>): Outcome {
    TryFrom(vals, adj, ops, 0)
  }

  /** Adding a process's adjustments when it exits; a value never drops below 0. */
  function Undone(vals: Sems, adj: Sems): Sems {
    Sems(AtLeast0(vals.wexist + adj.wexist), AtLeast0(vals.rexist + adj.rexist),
         AtLeast0(vals.print_ + adj.print_), AtLeast0(vals.memory + adj.memory),
         AtLeast0(vals.pair + adj.pair), AtLeast0(vals.finish + adj.finish))
  }

  function AtLeast0(n: int): nat {
    if n < 0 then 0 else n
  }
}
