/** The processes of the file transfer as they run: one method for every stretch of a
    process between two points where others may come in. Each does to the shared system just
    what the step of the state machine says. */
module TransferProcesses {
  import opened Semaphores
  import opened Transfer
  import opened TransferInvariant
  import opened TransferSteps

  /** The semaphores, the processes with their adjustments, and the shared memory. */
  class System {
    var vals: Sems
    var procs: seq<Proc>
    var shm: seq<Byte>

    constructor ()
      ensures Shown() == FRESH
    {
      vals, procs, shm := ZERO, [], [];
    }

    ghost function Shown(): State
      reads this
    {
      State(vals, procs, shm)
    }

    /** semop: the operations take effect together or not at all. */
    method Semop(pid: nat, ops: seq<SemOp>) returns (outcome: Outcome)
      requires pid < |procs|
      modifies `vals, `procs
      ensures outcome == Semaphores.Semop(old(vals), old(procs)[pid].adj, ops)
      ensures outcome.Done? ==> vals == outcome.vals && procs == old(procs)[pid := old(procs)[pid].(adj := outcome.adj)]
      ensures !outcome.Done? ==> vals == old(vals) && procs == old(procs)
    {
      var v, a, k := vals, procs[pid].adj, 0;
      while k < |ops|
        invariant k <= |ops| && vals == old(vals) && procs == old(procs)
        invariant Semaphores.Semop(old(vals), old(procs)[pid].adj, ops) == TryFrom(v, a, ops, k)
      {
        var o := ops[k];
        var x := v.Get(o.num);
        if (o.op == 0 && x != 0) || (o.op != 0 && x + o.op < 0) {
          return if o.nowait then Again else Blocks;
        }
        v := v.Set(o.num, x + o.op);
        if o.undo {
          a := a.Set(o.num, a.Get(o.num) - o.op);
        }
        k := k + 1;
      }
      vals, procs := v, procs[pid := procs[pid].(adj := a)];
      outcome := Done(v, a);
    }

    /** semctl with SETVAL: every process forgets what it would have undone. */
    method SetVal(id: SemId, n: int)
      modifies `vals, `procs
      ensures Shown() == SetValue(old(Shown()), id, n)
    {
      vals := vals.Set(id, n);
      for i := 0 to |procs|
        invariant vals == old(vals).Set(id, n) && |procs| == |old(procs)|
        invariant forall k :: 0 <= k < i ==> procs[k] == old(procs)[k].(adj := old(procs)[k].adj.Set(id, 0))
        invariant forall k :: i <= k < |procs| ==> procs[k] == old(procs)[k]
      {
        procs := procs[i := procs[i].(adj := procs[i].adj.Set(id, 0))];
      }
      assert procs == Cleared(old(procs), id);
    }

    /** A process goes on at another station. */
    method Goto(pid: nat, at: Station)
      requires pid < |procs|
      modifies `procs
      ensures procs == old(procs)[pid := old(procs)[pid].(at := at)]
    {
      procs := procs[pid := procs[pid].(at := at)];
    }

    /** A call of semop after which the process goes on at next; if it is refused, the
        process leaves its loop. */
    method Call(pid: nat, ops: seq<SemOp>, next: Station) returns (outcome: Outcome)
      requires pid < |procs| && ops == OpsAt(procs[pid]) && next == Next(procs[pid]) && procs[pid].at != PostFinish
      modifies `vals, `procs
      ensures Shown() == SemopStep(old(Shown()), pid)
      ensures outcome == Semaphores.Semop(old(vals), old(procs)[pid].adj, ops)
    {
      outcome := Semop(pid, ops);
      if outcome.Done? {
        Goto(pid, next);
      } else if outcome.Again? {
        Goto(pid, Leave);
      }
    }

    /** Before the loop: both roles alike. */
    method Prepare(pid: nat)
      requires pid < |procs|
      requires procs[pid].at in {Enter, AwaitUnpaired, Station.SetVal, Take, Join}
      modifies `vals, `procs
      ensures Shown() == Stepped(old(Shown()), pid, 0)
    {
      var role := procs[pid].role;
      match procs[pid].at {
        case Enter =>
          var _ := Call(pid, EnterOps(role), AwaitUnpaired);
        case AwaitUnpaired =>
          var _ := Call(pid, AwaitOps(), Station.SetVal);
        case SetVal =>
          SetVal(Token(role), Initial(role));
          Goto(pid, Take);
        case Take =>
          var _ := Call(pid, TakeOps(role), Join);
        case Join =>
          var _ := Call(pid, JoinOps(role), Head);
      }
    }

    /** The writer's loop: take MEMORY, read up to a page, store it, post PRINT; at the end of
        the file post PRINT and FINISH and leave. n is what read returns. */
    method WriterLoop(pid: nat, n: nat)
      requires pid < |procs| && procs[pid].role.Writer? && 0 <= procs[pid].cursor <= |procs[pid].file|
      requires procs[pid].at == Head || procs[pid].at == Read || procs[pid].at == Copy
        || procs[pid].at == Post || procs[pid].at == PostFinish
      modifies this
      ensures Shown() == Stepped(old(Shown()), pid, n)
    {
      var p := procs[pid];
      match p.at {
        case Head =>
          var _ := Call(pid, HeadOps(Writer), Read);
        case Read =>
          if CanRead(p, n) {
            var bytes := p.file[p.cursor..p.cursor + n];
            procs := procs[pid := p.(buffer := bytes, cursor := p.cursor + n)];
            Goto(pid, if |bytes| == 0 then PostFinish else Copy);
          }
        case Copy =>
          shm := p.buffer;
          Goto(pid, Post);
        case Post =>
          var _ := Call(pid, PostOps(Writer), Head);
        case PostFinish =>
          var outcome := Semop(pid, PostFinishOps());
          if outcome.Done? {
            procs := procs[pid := procs[pid].(finished := true)];
            Goto(pid, Leave);
          } else if outcome.Again? {
            Goto(pid, Leave);
          }
      }
    }

    /** The reader's loop: take PRINT unless FINISH is raised, copy, print, post MEMORY. n is
        how many bytes write takes; the program does not look at it. */
    method ReaderLoop(pid: nat, n: nat)
      requires pid < |procs| && procs[pid].role.Reader?
      requires procs[pid].at == Head || procs[pid].at == Copy || procs[pid].at == Print || procs[pid].at == Post
      modifies this
      ensures Shown() == Stepped(old(Shown()), pid, n)
    {
      var p := procs[pid];
      match p.at {
        case Head =>
          var _ := Call(pid, HeadOps(Reader), Copy);
        case Copy =>
          procs := procs[pid := p.(buffer := shm)];
          Goto(pid, Print);
        case Print =>
          if n <= |p.buffer| {
            procs := procs[pid := p.(out := p.out + p.buffer[..n], whole := p.whole && n == |p.buffer|)];
            Goto(pid, Post);
          }
        case Post =>
          var _ := Call(pid, PostOps(Reader), Head);
      }
    }

    /** After the loop, and the end of the process, whether by exit or by a crash. */
    method Close(pid: nat)
      requires pid < |procs| && procs[pid].at == Leave
      modifies `vals, `procs
      ensures Shown() == Stepped(old(Shown()), pid, 0)
    {
      var _ := Call(pid, LeaveOps(procs[pid].role), Lingering);
    }

    method End(pid: nat)
      requires pid < |procs|
      modifies `vals, `procs
      ensures Shown() == Exit(old(Shown()), pid)
    {
      vals := Undone(vals, procs[pid].adj);
      procs := procs[pid := procs[pid].(at := Gone, adj := ZERO)];
    }

    method Begin(role: Role, file: seq<Byte>) returns (pid: nat)
      requires forall k :: 0 <= k < |file| ==> file[k].origin == |procs|
      modifies `procs
      ensures Shown() == Apply(old(Shown()), Start(role, file)) && pid == |old(procs)|
    {
      pid := |procs|;
      procs := procs + [Started(role, file)];
    }

    /** Whatever comes next: a process starts, goes on or crashes. */
    method Perform(e: Event)
      requires Inv(Shown())
      modifies this
      ensures Shown() == Apply(old(Shown()), e)
    {
      match e {
        case Start(role, file) =>
          if forall k :: 0 <= k < |file| ==> file[k].origin == |procs| {
            var _ := Begin(role, file);
          }
        case Crash(i) =>
          if i < |procs| && procs[i].at != Gone {
            End(i);
          }
        case Step(i, n) =>
          if i < |procs| {
            GoOn(i, n);
          }
      }
    }

    method GoOn(pid: nat, n: nat)
      requires Inv(Shown()) && pid < |procs|
      modifies this
      ensures Shown() == Stepped(old(Shown()), pid, n)
    {
      var p := procs[pid];
      assert DataFits(Shown().procs[pid], pid);
      if p.at == Lingering {
        End(pid);
      } else if p.at == Leave {
        Close(pid);
      } else if p.at != Gone && Rank(p.at) <= 4 {
        Prepare(pid);
      } else if p.at != Gone && p.role.Writer? {
        WriterLoop(pid, n);
      } else if p.at != Gone {
        ReaderLoop(pid, n);
      }
    }
  }

  /** Processes that run in any order and crash anywhere go through the runs of the state
      machine, so all that is proved of those holds of them. */
  method Simulate(events: seq<Event>) returns (s: System)
    ensures s.Shown() == Run(events) && Inv(s.Shown())
  {
    s := new System();
    RunKeeps([]);
    for i := 0 to |events|
      invariant s.Shown() == Run(events[..i]) && Inv(s.Shown())
    {
      assert events[..i + 1][..i] == events[..i];
      ApplyKeeps(s.Shown(), events[i]);
      s.Perform(events[i]);
    }
    assert events[..|events|] == events;
  }
}
