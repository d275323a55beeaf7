/** The file transfer: any number of readers and writers, which may crash at any step. */
module Transfer {
  import opened Semaphores

  datatype Role = Writer | Reader

  /** A byte together with the process whose file it comes from. No step looks at the
      origin; it only lets the properties say where output came from. */
  datatype Byte = Byte(origin: nat, value: int)

  /** Where a process is. The writer's stations are Read, Copy, Post, PostFinish, the
      reader's Copy, Print, Post; the others are common to both. */
  datatype Station =
    | Enter | AwaitUnpaired | SetVal | Take | Join | Head
    | Read | Copy | Print | Post | PostFinish
    | Leave | Lingering | Gone

  datatype Proc = Proc(role: Role, at: Station, adj: Sems,
                       file: seq<Byte>, cursor: nat, finished: bool,
                       buffer: seq<Byte>, out: seq<Byte>, whole: bool)

  datatype State = State(sems: Sems, procs: seq<Proc>, shm: seq<Byte>)

  const PAGESIZE := 100

  function Exist(role: Role): SemId { if role.Writer? then WEXIST else REXIST }
  function Token(role: Role): SemId { if role.Writer? then PRINT else MEMORY }
  function Other(role: Role): Role { if role.Writer? then Reader else Writer }

  /** What a process sets its token semaphore to. */
  function Initial(role: Role): int { if role.Writer? then 1 else 2 }

  // ---------- The semop arrays ----------

  function EnterOps(role: Role): seq<SemOp> {
    [SemOp(Exist(role), 0, false, false), SemOp(Exist(role), 1, true, false)]
  }

  function AwaitOps(): seq<SemOp> {
    [SemOp(PAIR, 0, false, false)]
  }

  function TakeOps(role: Role): seq<SemOp> {
    [SemOp(Exist(role), 1, true, false), SemOp(Token(role), -1, true, false)]
  }

  function JoinOps(role: Role): seq<SemOp> {
    [SemOp(Exist(Other(role)), -2, false, false), SemOp(Exist(Other(role)), 2, false, false),
      SemOp(PAIR, 1, true, false)]
  }

  function HeadOps(role: Role): seq<SemOp> {
    var both := [SemOp(PAIR, -2, false, true), SemOp(PAIR, 2, false, false),
      SemOp(Token(Other(role)), -1, false, false)];
    if role.Writer? then both else both + [SemOp(FINISH, 0, false, true)]
  }

  function PostOps(role: Role): seq<SemOp> {
    [SemOp(Token(role), 1, false, false)]
  }

  function PostFinishOps(): seq<SemOp> {
    [SemOp(PRINT, 1, false, false), SemOp(FINISH, 1, true, false)]
  }

  function LeaveOps(role: Role): seq<SemOp> {
    [SemOp(PAIR, -1, true, false), SemOp(Exist(role), -2, true, false)]
  }

  /** What a process asks for at a station where it calls semop. */
  function OpsAt(p: Proc): seq<SemOp> {
    match p.at
    case Enter => EnterOps(p.role)
    case AwaitUnpaired => AwaitOps()
    case Take => TakeOps(p.role)
    case Join => JoinOps(p.role)
    case Head => HeadOps(p.role)
    case Post => PostOps(p.role)
    case PostFinish => PostFinishOps()
    case Leave => LeaveOps(p.role)
    case _ => []
  }

  /** Where it goes when the call succeeds. */
  function Next(p: Proc): Station {
    match p.at
    case Enter => AwaitUnpaired
    case AwaitUnpaired => SetVal
    case Take => Join
    case Join => Head
    case Head => if p.role.Writer? then Read else Copy
    case Post => Head
    case PostFinish => Leave
    case Leave => Lingering
    case at => at
  }

  // ---------- Steps ----------

  datatype Event =
    | Start(role: Role, file: seq<Byte>)
    | Step(pid: nat, n: nat)
    | Crash(pid: nat)

  function WithProc(s: State, i: nat, p: Proc): State
    requires i < |s.procs|
  {
    s.(procs := s.procs[i := p])
  }

  /** SETVAL sets one semaphore and clears every process's adjustment for it. */
  function Cleared(procs: seq<Proc>, id: SemId): seq<Proc> {
    seq(|procs|, i requires 0 <= i < |procs| => procs[i].(adj := procs[i].adj.Set(id, 0)))
  }

  function SetValue(s: State, id: SemId, n: int): State {
    s.(sems := s.sems.Set(id, n), procs := Cleared(s.procs, id))
  }

  /** A semop call: a failed one makes the process leave its loop. */
  function SemopStep(s: State, i: nat): (r: State)
    requires i < |s.procs|
  {
    var p := s.procs[i];
    match Semop(s.sems, p.adj, OpsAt(p))
    case Done(vals, adj) =>
      WithProc(s, i, p.(at := Next(p), adj := adj, finished := p.finished || p.at == PostFinish)).(sems := vals)
    case Again => WithProc(s, i, p.(at := Leave))
    case Blocks => s
  }

  function Exit(s: State, i: nat): State
    requires i < |s.procs|
  {
    var p := s.procs[i];
    WithProc(s, i, p.(at := Gone, adj := ZERO)).(sems := Undone(s.sems, p.adj))
  }

  /** How many bytes a read can return: none only at the end of the file. */
  predicate CanRead(p: Proc, n: nat) {
    var left := |p.file| - p.cursor;
    if left <= 0 then n == 0 else 0 < n <= PAGESIZE && n <= left
  }

  /** One step of process i; n is the number of bytes a read or a write moves. A step that
      is blocked, or an impossible n, changes nothing. */
  function Stepped(s: State, i: nat, n: nat): State
    requires i < |s.procs|
  {
    var p := s.procs[i];
    match p.at
    case SetVal =>
      var t := SetValue(s, Token(p.role), Initial(p.role));
      WithProc(t, i, t.procs[i].(at := Take))
    case Read =>
      if !CanRead(p, n) then s
      else if n == 0 then WithProc(s, i, p.(at := PostFinish, buffer := []))
      else if p.cursor + n <= |p.file| then
        WithProc(s, i, p.(at := Copy, buffer := p.file[p.cursor..p.cursor + n], cursor := p.cursor + n))
      else s
    case Copy =>
      if p.role.Writer? then WithProc(s, i, p.(at := Post)).(shm := p.buffer)
      else WithProc(s, i, p.(at := Print, buffer := s.shm))
    case Print =>
      if n > |p.buffer| then s
      else WithProc(s, i, p.(at := Post, out := p.out + p.buffer[..n], whole := p.whole && n == |p.buffer|))
    case Lingering => Exit(s, i)
    case Gone => s
    case _ => SemopStep(s, i)
  }

  function Started(role: Role, file: seq<Byte>): Proc {
    Proc(role, Enter, ZERO, file, 0, false, [], [], true)
  }

  function Apply(s: State, e: Event): State {
    match e
    case Start(role, file) =>
      if forall k :: 0 <= k < |file| ==> file[k].origin == |s.procs|
      then s.(procs := s.procs + [Started(role, file)]) else s
    case Step(i, n) => if i < |s.procs| then Stepped(s, i, n) else s
    case Crash(i) => if i < |s.procs| && s.procs[i].at != Gone then Exit(s, i) else s
  }

  const FRESH := State(ZERO, [], [])

  /** The state a run has reached. */
  function Run(events: seq<Event>): State {
    if events == [] then FRESH else Apply(Run(events[..|events| - 1]), events[|events| - 1])
  }
}
