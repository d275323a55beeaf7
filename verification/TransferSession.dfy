/** When a file really arrives. A writer or a reader that looks at PAIR before its partner
    has raised it gives up, so not every crash-free run delivers; but once both are in the
    loop and nobody's FINISH is left over, all of the file is passed on, and arrives unless a
    write is short. */
module TransferSession {
  import opened Semaphores
  import opened Transfer
  import opened TransferInvariant
  import opened TransferSteps
  import opened TransferTheorems

  /** Both partners are in the loop, and FINISH is 0. */
  ghost predicate Running(s: State, i: nat, j: nat) {
    && IsPair(s, i, j) && s.sems.finish == 0
    && Paired(s.procs[i]) && s.procs[i].at != Leave && s.procs[i].cursor <= |s.procs[i].file|
    && Paired(s.procs[j]) && s.procs[j].at != Leave
  }

  /** Process k will not get into the loop before reader j has left it. */
  ghost predicate KeptOut(s: State, k: int) {
    0 <= k < |s.procs| && s.procs[k].role.Writer? ==> !(2 <= Rank(s.procs[k].at) <= 11)
  }

  /** The writer has seen the end of its file, the reader has printed all of it (unless a
      write was short) and takes nothing more. */
  ghost predicate Concluded(s: State, i: nat, j: nat) {
    && IsPair(s, i, j)
    && s.procs[i].finished && From(s.procs[j].out, i) && (s.procs[j].whole <==> s.procs[j].out == s.procs[i].file)
    && (s.procs[j].at == Head || Rank(s.procs[j].at) >= 11)
    && (s.procs[j].at == Head ==> forall k :: k != i ==> KeptOut(s, k))
  }

  /** What is left to do in a session: ten for every unread byte, less within a block. */
  ghost function Left(s: State, i: nat, j: nat): nat
    requires Running(s, i, j)
  {
    10 * (|s.procs[i].file| - s.procs[i].cursor) + Phase(s.procs[i].at, s.procs[j].at, s.sems.memory >= 1)
  }

  ghost function Phase(writer: Station, reader: Station, memory: bool): nat {
    if writer == Copy then 16 else if writer == Post then 15
    else if writer == Read then 9 else if writer == PostFinish then 5
    else if reader == Copy then 13 else if reader == Print then 12 else if reader == Post then 11
    else if memory then 10 else 14
  }

  // ---------- What a step leaves alone ----------

  /** Nobody else's step changes more of a process than its adjustments. */
  lemma OthersKept(s: State, k: nat, n: nat, m: nat)
    requires k < |s.procs| && m < |s.procs| && m != k
    ensures |Stepped(s, k, n).procs| == |s.procs|
    ensures Stepped(s, k, n).procs[m] == s.procs[m].(adj := Stepped(s, k, n).procs[m].adj)
  {
  }

  lemma SemopKept(s: State, k: nat)
    requires k < |s.procs|
    ensures |SemopStep(s, k).procs| == |s.procs|
    ensures SemopStep(s, k).procs[k].role == s.procs[k].role && SemopStep(s, k).procs[k].file == s.procs[k].file
    ensures s.procs[k].finished ==> SemopStep(s, k).procs[k].finished
  {
  }

  /** A process keeps its role and its file, and stays finished. */
  lemma SelfKept(s: State, k: nat, n: nat)
    requires k < |s.procs|
    ensures |Stepped(s, k, n).procs| == |s.procs|
    ensures Stepped(s, k, n).procs[k].role == s.procs[k].role && Stepped(s, k, n).procs[k].file == s.procs[k].file
    ensures s.procs[k].finished ==> Stepped(s, k, n).procs[k].finished
  {
    SemopKept(s, k);
  }

  /** After leaving there is nothing but the exit. */
  lemma OnlyExits(s: State, k: nat, n: nat)
    requires k < |s.procs| && Rank(s.procs[k].at) >= 12
    ensures |Stepped(s, k, n).procs| == |s.procs|
    ensures var (p, q) := (s.procs[k], Stepped(s, k, n).procs[k]); q == p.(at := q.at, adj := q.adj) && Rank(q.at) >= 12
  {
  }

  lemma LeavesNow(s: State, k: nat, n: nat)
    requires Inv(s) && k < |s.procs| && s.procs[k].at == Leave
    ensures |Stepped(s, k, n).procs| == |s.procs|
    ensures var (p, q) := (s.procs[k], Stepped(s, k, n).procs[k]); q == p.(at := Lingering, adj := q.adj)
  {
    LeaveResult(s, k);
  }

  // ---------- A running session ----------

  lemma RunningFacts(s: State, i: nat, j: nat)
    requires Inv(s) && Running(s, i, j)
    ensures s.sems.pair >= 2 && TokenOk(s, s.procs[i], s.procs[j]) && Stream(s, i, j)
    ensures AdjustmentsFit(s.procs[i]) && AdjustmentsFit(s.procs[j])
    ensures DataFits(s.procs[i], i) && DataFits(s.procs[j], j)
    ensures s.sems.print_ >= 0 && s.sems.memory >= 0 && !s.procs[i].finished
    ensures forall k :: 0 <= k < |s.procs| && k != i && k != j ==> !Active(s.procs[k])
  {
    hide Stream, Total, Setup, Outputs;
    NobodyOwes(s);
    assert AdjustmentsFit(s.procs[i]) && AdjustmentsFit(s.procs[j]);
    assert DataFits(s.procs[i], i) && DataFits(s.procs[j], j);
    TotalAtLeastTwo(s.procs, PAIR, i, j);
    OnlyTheTwo(s, i, j);
  }

  lemma OnlyTheTwo(s: State, i: nat, j: nat)
    requires OnePerRole(s) && Running(s, i, j)
    ensures forall k :: 0 <= k < |s.procs| && k != i && k != j ==> !Active(s.procs[k])
  {
    forall k | 0 <= k < |s.procs| && k != i && k != j ensures !Active(s.procs[k]) {
      assert SameRole(s, i, k) || SameRole(s, j, k);
    }
  }

  /** Somebody else's exit does not touch the session. */
  lemma RunningExit(s: State, i: nat, j: nat, k: nat)
    requires Inv(s) && Running(s, i, j) && k < |s.procs| && k != i && k != j
    ensures Running(Exit(s, k), i, j) && Left(Exit(s, k), i, j) == Left(s, i, j)
  {
    ExitResult(s, k);
    NobodyOwes(s);
    TotalAtLeast(s.procs, FINISH, k);
    TakeNotCleared(s, k, j);
  }

  /** Nobody else can do anything but exit. */
  lemma RunningOther(s: State, i: nat, j: nat, k: nat, n: nat)
    requires Inv(s) && Running(s, i, j) && k < |s.procs| && k != i && k != j
    ensures Running(Stepped(s, k, n), i, j) && Left(Stepped(s, k, n), i, j) == Left(s, i, j)
  {
    RunningFacts(s, i, j);
    RunningExit(s, i, j, k);
    if s.procs[k].at == Enter {
      ExistIsShare(s, if s.procs[k].role.Writer? then i else j);
      EnterOutcome(s.sems, s.procs[k].adj, s.procs[k].role);
    }
  }

  /** What a step of the writer at its loop head does within a session. */
  lemma WriterAtHead(s: State, i: nat, j: nat)
    requires Inv(s) && Running(s, i, j) && s.procs[i].at == Head
    ensures SemopStep(s, i) == if s.sems.memory < 1 then s
      else Moved(s, i, s.procs[i].(at := Read), s.sems.(memory := s.sems.memory - 1))
  {
    RunningFacts(s, i, j);
    HeadOutcome(s.sems, s.procs[i].adj, s.procs[i].role);
  }

  /** The session after the writer became q. */
  lemma WriterBecomes(s: State, i: nat, j: nat, q: Proc, v: Sems, shm: seq<Byte>)
    requires Running(s, i, j) && q.role.Writer? && q.file == s.procs[i].file && v.finish == 0
    requires Paired(q) && q.at != Leave && q.cursor <= |q.file|
    ensures var t := Moved(s, i, q, v).(shm := shm);
      Running(t, i, j) && Left(t, i, j) == 10 * (|q.file| - q.cursor) + Phase(q.at, s.procs[j].at, v.memory >= 1)
  {
  }

  lemma WriterReads(s: State, i: nat, j: nat, n: nat)
    requires Running(s, i, j) && s.procs[i].at == Read
    ensures Running(Stepped(s, i, n), i, j)
    ensures Stepped(s, i, n) == s || Left(Stepped(s, i, n), i, j) < Left(s, i, j)
  {
    var p := s.procs[i];
    ReadResult(s, i, n);
    if CanRead(p, n) && p.cursor + n <= |p.file| {
      WriterBecomes(s, i, j, AfterRead(p, n), s.sems, s.shm);
    }
  }

  lemma WriterPosts(s: State, i: nat, j: nat)
    requires Running(s, i, j) && s.procs[i].at == Post && s.sems.print_ >= 0 && !s.procs[i].finished
    ensures Running(SemopStep(s, i), i, j) && Left(SemopStep(s, i), i, j) < Left(s, i, j)
  {
    WriterPostResult(s, i);
    WriterBecomes(s, i, j, s.procs[i].(at := Head), s.sems.(print_ := s.sems.print_ + 1), s.shm);
  }

  lemma WriterTakes(s: State, i: nat, j: nat)
    requires Inv(s) && Running(s, i, j) && s.procs[i].at == Head
    ensures Running(SemopStep(s, i), i, j)
    ensures SemopStep(s, i) == s || Left(SemopStep(s, i), i, j) < Left(s, i, j)
  {
    hide SemopStep, Inv;
    WriterAtHead(s, i, j);
    if s.sems.memory >= 1 {
      ReaderIsHead(s, i, j);
      WriterBecomes(s, i, j, s.procs[i].(at := Read), s.sems.(memory := s.sems.memory - 1), s.shm);
    }
  }

  lemma ReaderIsHead(s: State, i: nat, j: nat)
    requires Inv(s) && Running(s, i, j) && (Inside(s.procs[i]) || s.sems.memory >= 1)
    ensures !Inside(s.procs[j]) && s.sems.print_ >= 0 && !s.procs[i].finished && s.procs[i].at != Print
  {
    RunningFacts(s, i, j);
  }

  lemma RunningWriter(s: State, i: nat, j: nat, n: nat)
    requires Inv(s) && Running(s, i, j) && s.procs[i].at != PostFinish
    ensures Running(Stepped(s, i, n), i, j)
    ensures Stepped(s, i, n) == s || Left(Stepped(s, i, n), i, j) < Left(s, i, j)
  {
    hide SemopStep, Inv;
    var p := s.procs[i];
    if p.at == Head {
      WriterTakes(s, i, j);
    } else {
      ReaderIsHead(s, i, j);
      if p.at == Read {
        WriterReads(s, i, j, n);
      } else if p.at == Copy {
        WriterBecomes(s, i, j, p.(at := Post), s.sems, p.buffer);
      } else {
        WriterPosts(s, i, j);
      }
    }
  }

  /** What a step of the reader does within a session. */
  lemma ReaderMove(s: State, i: nat, j: nat, n: nat)
    requires Inv(s) && Running(s, i, j)
    ensures var (t, p) := (Stepped(s, j, n), s.procs[j]);
      t == s ||
      if p.at == Head then s.sems.print_ >= 1 && t == Moved(s, j, p.(at := Copy), s.sems.(print_ := s.sems.print_ - 1))
      else if p.at == Post then t == Moved(s, j, p.(at := Head), s.sems.(memory := s.sems.memory + 1))
      else ReaderInside(s, j, n) && t == Moved(s, j, AfterReader(s, p, n), s.sems)
  {
    hide Inv;
    RunningFacts(s, i, j);
    var p := s.procs[j];
    if p.at == Head {
      HeadOutcome(s.sems, p.adj, p.role);
    } else if p.at == Post {
      PostOutcome(s.sems, p.adj, p.role);
    }
  }

  /** The session after the reader became q. */
  lemma ReaderBecomes(s: State, i: nat, j: nat, q: Proc, v: Sems)
    requires Running(s, i, j) && q.role.Reader? && v.finish == 0 && Paired(q) && q.at != Leave
    ensures var (t, w) := (Moved(s, j, q, v), s.procs[i]);
      Running(t, i, j) && Left(t, i, j) == 10 * (|w.file| - w.cursor) + Phase(w.at, q.at, v.memory >= 1)
  {
  }

  /** While the reader is inside or PRINT is up, the writer is at its loop head and MEMORY is 0. */
  lemma WriterIsOutside(s: State, i: nat, j: nat)
    requires Inv(s) && Running(s, i, j) && (Inside(s.procs[j]) || s.sems.print_ >= 1)
    ensures s.procs[i].at == Head && s.sems.memory == 0
  {
    RunningFacts(s, i, j);
  }

  lemma RunningReader(s: State, i: nat, j: nat, n: nat)
    requires Inv(s) && Running(s, i, j)
    ensures Running(Stepped(s, j, n), i, j)
    ensures Stepped(s, j, n) == s || Left(Stepped(s, j, n), i, j) < Left(s, i, j)
  {
    hide Stepped, Inv;
    ReaderMove(s, i, j, n);
    var p := s.procs[j];
    if Stepped(s, j, n) != s {
      WriterIsOutside(s, i, j);
      if p.at == Head {
        ReaderBecomes(s, i, j, p.(at := Copy), s.sems.(print_ := s.sems.print_ - 1));
      } else if p.at == Post {
        ReaderBecomes(s, i, j, p.(at := Head), s.sems.(memory := s.sems.memory + 1));
      } else {
        ReaderBecomes(s, i, j, AfterReader(s, p, n), s.sems);
      }
    }
  }

  /** The step after the end of the file concludes the session. */
  lemma FinishConcludes(s: State, i: nat, j: nat, n: nat)
    requires Inv(s) && Running(s, i, j) && s.procs[i].at == PostFinish
    ensures Concluded(Stepped(s, i, n), i, j)
  {
    RunningFacts(s, i, j);
    PostFinishResult(s, i);
    var t := Stepped(s, i, n);
    assert s.procs[j].at == Head;
    assert Flight(s, s.procs[i], s.procs[j]) == [];
    forall k | k != i ensures KeptOut(t, k) {
      if 0 <= k < |s.procs| {
        OthersKept(s, i, n, k);
      }
    }
  }

  /** Whose step an event is. */
  ghost predicate CrashOf(e: Event, i: nat, j: nat) {
    e == Crash(i) || e == Crash(j)
  }

  ghost predicate MoveOf(s: State, e: Event, i: nat, j: nat) {
    e.Step? && (e.pid == i || e.pid == j) && Apply(s, e) != s
  }

  lemma RunningOwnStep(s: State, k: nat, n: nat, i: nat, j: nat)
    requires Inv(s) && Running(s, i, j) && (k == i || k == j)
    ensures Running(Stepped(s, k, n), i, j) || Concluded(Stepped(s, k, n), i, j)
    ensures Running(Stepped(s, k, n), i, j) ==>
      Left(Stepped(s, k, n), i, j) <= Left(s, i, j) - (if Stepped(s, k, n) != s then 1 else 0)
  {
    if k == j {
      RunningReader(s, i, j, n);
    } else if s.procs[i].at == PostFinish {
      FinishConcludes(s, i, j, n);
    } else {
      RunningWriter(s, i, j, n);
    }
  }

  lemma RunningStart(s: State, role: Role, file: seq<Byte>, i: nat, j: nat)
    requires Running(s, i, j)
    ensures Running(AfterStart(s, role, file), i, j) && Left(AfterStart(s, role, file), i, j) == Left(s, i, j)
  {
  }

  /** As long as neither partner crashes, a running session goes on or is concluded, and
      every move of a partner brings it nearer to its end. */
  lemma RunningStep(s: State, e: Event, i: nat, j: nat)
    requires Inv(s) && Running(s, i, j) && !CrashOf(e, i, j)
    ensures Running(Apply(s, e), i, j) || Concluded(Apply(s, e), i, j)
    ensures Running(Apply(s, e), i, j) ==>
      Left(Apply(s, e), i, j) <= Left(s, i, j) - (if MoveOf(s, e, i, j) then 1 else 0)
  {
    match e
    case Start(role, file) => RunningStart(s, role, file, i, j);
    case Crash(k) =>
      if k < |s.procs| {
        RunningExit(s, i, j, k);
      }
    case Step(k, n) =>
      if k < |s.procs| {
        if k == i || k == j {
          RunningOwnStep(s, k, n, i, j);
        } else {
          RunningOther(s, i, j, k, n);
        }
      }
  }

  // ---------- A concluded session ----------

  lemma OnlyThisWriter(s: State, i: nat, j: nat)
    requires Inv(s) && Concluded(s, i, j) && s.procs[j].at == Head && s.sems.pair >= 2
    ensures Paired(s.procs[i])
  {
    var a, b := BothPaired(s);
    assert a != i ==> KeptOut(s, a);
  }

  /** After the writer has finished, nobody can take the last PRINT at the loop head. */
  lemma FinishedIsSeen(s: State, i: nat, j: nat)
    requires Inv(s) && Concluded(s, i, j) && s.procs[j].at == Head
    ensures s.sems.pair < 2 || s.sems.finish != 0
  {
    if s.sems.pair >= 2 {
      OnlyThisWriter(s, i, j);
      NobodyOwes(s);
      TotalAtLeast(s.procs, FINISH, i);
      assert AdjustmentsFit(s.procs[i]);
    }
  }

  /** So a reader at its loop head gives up or waits. */
  lemma HeadAfterFinish(s: State, i: nat, j: nat, n: nat)
    requires Inv(s) && Concluded(s, i, j) && s.procs[j].at == Head
    ensures Stepped(s, j, n) == s || Stepped(s, j, n) == Moved(s, j, s.procs[j].(at := Leave), s.sems)
  {
    FinishedIsSeen(s, i, j);
    HeadOutcome(s.sems, s.procs[j].adj, s.procs[j].role);
  }

  /** Process j printed nothing and is where nothing can be printed any more. */
  ghost predicate OnlyLeft(s: State, t: State, j: nat)
    requires j < |s.procs|
  {
    && |t.procs| == |s.procs|
    && t.procs[j] == s.procs[j].(at := t.procs[j].at, adj := t.procs[j].adj)
    && (t.procs[j].at == s.procs[j].at || Rank(t.procs[j].at) >= 11)
  }

  lemma HeadOnlyLeft(s: State, i: nat, j: nat, n: nat)
    requires Inv(s) && Concluded(s, i, j) && s.procs[j].at == Head
    ensures OnlyLeft(s, Stepped(s, j, n), j)
  {
    HeadAfterFinish(s, i, j, n);
  }

  /** The reader of a concluded session only leaves. */
  lemma ReaderOnlyLeaves(s: State, i: nat, j: nat, n: nat)
    requires Inv(s) && Concluded(s, i, j)
    ensures OnlyLeft(s, Stepped(s, j, n), j)
  {
    if s.procs[j].at == Head {
      HeadOnlyLeft(s, i, j, n);
    } else if s.procs[j].at == Leave {
      LeavesNow(s, j, n);
    } else {
      OnlyExits(s, j, n);
    }
  }

  /** While the reader is at its loop head, no other writer gets past PAIR. */
  lemma StillKeptOut(s: State, j: nat, k: nat, n: nat)
    requires Inv(s) && j < |s.procs| && Paired(s.procs[j])
    requires k < |s.procs| && KeptOut(s, k)
    ensures KeptOut(Stepped(s, k, n), k)
  {
    SelfKept(s, k, n);
    if s.procs[k].role.Writer? {
      if s.procs[k].at == Enter {
        EnterOutcome(s.sems, s.procs[k].adj, s.procs[k].role);
      } else if s.procs[k].at == AwaitUnpaired {
        NotUnpaired(s, j, k, n);
      } else {
        OnlyExits(s, k, n);
      }
    }
  }

  lemma NotUnpaired(s: State, j: nat, k: nat, n: nat)
    requires Inv(s) && j < |s.procs| && Paired(s.procs[j])
    requires k < |s.procs| && s.procs[k].at == AwaitUnpaired
    ensures Stepped(s, k, n) == s
  {
    NobodyOwes(s);
    TotalAtLeast(s.procs, PAIR, j);
    assert AdjustmentsFit(s.procs[j]);
    AwaitOutcome(s.sems, s.procs[k].adj);
  }

  lemma ConcludedStepped(s: State, k: nat, n: nat, i: nat, j: nat)
    requires Inv(s) && Concluded(s, i, j) && k < |s.procs|
    ensures Concluded(Stepped(s, k, n), i, j) && Stepped(s, k, n).procs[j].out == s.procs[j].out
  {
    hide Stepped, Inv;
    var t := Stepped(s, k, n);
    SelfKept(s, k, n);
    if k != i {
      OthersKept(s, k, n, i);
    }
    if k == j {
      ReaderOnlyLeaves(s, i, j, n);
    } else {
      OthersKept(s, k, n, j);
    }
    if t.procs[j].at == Head {
      forall m | m != i ensures KeptOut(t, m) {
        assert KeptOut(s, m);
        if 0 <= m < |s.procs| {
          if m == k {
            StillKeptOut(s, j, k, n);
          } else {
            OthersKept(s, k, n, m);
          }
        }
      }
    }
  }

  lemma ConcludedCrash(s: State, k: nat, i: nat, j: nat)
    requires Concluded(s, i, j) && k < |s.procs|
    ensures Concluded(Exit(s, k), i, j) && Exit(s, k).procs[j].out == s.procs[j].out
  {
    var t := Exit(s, k);
    if t.procs[j].at == Head {
      forall m | m != i ensures KeptOut(t, m) {
        assert KeptOut(s, m);
      }
    }
  }

  /** Whatever happens, a concluded session stays so, and nothing is added to its output. */
  lemma ConcludedStep(s: State, e: Event, i: nat, j: nat)
    requires Inv(s) && Concluded(s, i, j)
    ensures Concluded(Apply(s, e), i, j) && Apply(s, e).procs[j].out == s.procs[j].out
  {
    hide Stepped, Exit, Inv;
    match e
    case Start(role, file) =>
      var t := Apply(s, e);
      if t.procs[j].at == Head {
        forall m | m != i ensures KeptOut(t, m) {
          assert KeptOut(s, m);
        }
      }
    case Crash(k) =>
      if k < |s.procs| {
        ConcludedCrash(s, k, i, j);
      }
    case Step(k, n) =>
      if k < |s.procs| {
        ConcludedStepped(s, k, n, i, j);
      }
  }

  // ---------- Runs ----------

  ghost predicate NoCrash(events: seq<Event>, i: nat, j: nat) {
    forall k :: 0 <= k < |events| ==> !CrashOf(events[k], i, j)
  }

  ghost predicate CrashFree(events: seq<Event>) {
    forall k :: 0 <= k < |events| ==> !events[k].Crash?
  }

  /** A run that goes on from another one without a crash. */
  ghost predicate Continues(before: seq<Event>, events: seq<Event>) {
    before <= events && forall k :: |before| <= k < |events| ==> !events[k].Crash?
  }

  lemma AllButLast(before: seq<Event>, after: seq<Event>)
    requires after != []
    ensures var (all, n) := (before + after, |after| - 1);
      all[..|all| - 1] == before + after[..n] && all[|all| - 1] == after[n]
  {
  }

  lemma OneMore(before: seq<Event>, after: seq<Event>)
    requires after != []
    ensures var n := |after| - 1; Run(before + after) == Apply(Run(before + after[..n]), after[n])
  {
    AllButLast(before, after);
    RunLast(before + after, before + after[..|after| - 1], after[|after| - 1]);
  }

  lemma RunLast(all: seq<Event>, front: seq<Event>, e: Event)
    requires all != [] && all[..|all| - 1] == front && all[|all| - 1] == e
    ensures Run(all) == Apply(Run(front), e)
  {
  }

  /** No run changes a file. */
  lemma {:induction false} FileStays(before: seq<Event>, after: seq<Event>, i: nat)
    requires i < |Run(before).procs|
    ensures i < |Run(before + after).procs| && Run(before + after).procs[i].file == Run(before).procs[i].file
  {
    hide Apply;
    if after == [] {
      assert before + after == before;
    } else {
      var n := |after| - 1;
      FileStays(before, after[..n], i);
      OneMore(before, after);
      FileKept(Run(before + after[..n]), after[n], i);
    }
  }

  lemma FileKept(s: State, e: Event, i: nat)
    requires i < |s.procs|
    ensures i < |Apply(s, e).procs| && Apply(s, e).procs[i].file == s.procs[i].file
  {
    if e.Step? && e.pid < |s.procs| {
      if e.pid == i {
        SelfKept(s, i, e.n);
      } else {
        OthersKept(s, e.pid, e.n, i);
      }
    }
  }

  /** Once both partners are in the loop with FINISH at 0, every continuation without a crash
      of one of the two either is still on the way or has concluded its session. */
  lemma {:induction false} SessionConcludes(before: seq<Event>, after: seq<Event>, i: nat, j: nat)
    requires Running(Run(before), i, j) && NoCrash(after, i, j)
    ensures Running(Run(before + after), i, j) || Concluded(Run(before + after), i, j)
  {
    hide Apply;
    if after == [] {
      assert before + after == before;
    } else {
      var n := |after| - 1;
      SessionConcludes(before, after[..n], i, j);
      OneMore(before, after);
      RunKeeps(before + after[..n]);
      if Running(Run(before + after[..n]), i, j) {
        RunningStep(Run(before + after[..n]), after[n], i, j);
      } else {
        ConcludedStep(Run(before + after[..n]), after[n], i, j);
      }
    }
  }

  /** A crash of a partner takes nothing back once the session is concluded. */
  lemma {:induction false} ConclusionLasts(before: seq<Event>, after: seq<Event>, i: nat, j: nat)
    requires Concluded(Run(before), i, j)
    ensures Concluded(Run(before + after), i, j)
    ensures Run(before + after).procs[j].out == Run(before).procs[j].out
  {
    hide Apply;
    if after == [] {
      assert before + after == before;
    } else {
      var n := |after| - 1;
      ConclusionLasts(before, after[..n], i, j);
      OneMore(before, after);
      RunKeeps(before + after[..n]);
      ConcludedStep(Run(before + after[..n]), after[n], i, j);
    }
  }

  /** How many moves the partners make. */
  ghost function Moves(before: seq<Event>, after: seq<Event>, i: nat, j: nat): nat {
    if after == [] then 0 else
      var n := |after| - 1;
      Moves(before, after[..n], i, j) + (if MoveOf(Run(before + after[..n]), after[n], i, j) then 1 else 0)
  }

  /** A session still on the way has made no more moves than it had left to make. */
  lemma {:induction false} SessionIsBounded(before: seq<Event>, after: seq<Event>, i: nat, j: nat)
    requires Running(Run(before), i, j) && NoCrash(after, i, j) && Running(Run(before + after), i, j)
    ensures Moves(before, after, i, j) + Left(Run(before + after), i, j) <= Left(Run(before), i, j)
  {
    hide Apply;
    if after == [] {
      assert before + after == before;
    } else {
      var n := |after| - 1;
      var s := Run(before + after[..n]);
      OneMore(before, after);
      RunKeeps(before + after[..n]);
      SessionConcludes(before, after[..n], i, j);
      if Concluded(s, i, j) {
        ConcludedStep(s, after[n], i, j);
        NotBoth(before + after, i, j);
      } else {
        SessionIsBounded(before, after[..n], i, j);
        RunningStep(s, after[n], i, j);
      }
    }
  }

  lemma NotBoth(events: seq<Event>, i: nat, j: nat)
    requires Running(Run(events), i, j)
    ensures !Concluded(Run(events), i, j)
  {
    RunKeeps(events);
    RunningFacts(Run(events), i, j);
  }

  ghost predicate OwnSteps(events: seq<Event>, i: nat, j: nat) {
    forall k :: 0 <= k < |events| ==> events[k].Step? && (events[k].pid == i || events[k].pid == j)
  }

  lemma Regroup(before: seq<Event>, e: Event, rest: seq<Event>)
    ensures before + [e] + rest == before + ([e] + rest)
  {
  }

  /** A session can always be brought to its end by moves of the two partners, and without a
      short write on the way. */
  lemma {:induction false} SessionCanDeliver(before: seq<Event>, i: nat, j: nat) returns (more: seq<Event>)
    requires Running(Run(before), i, j)
    ensures OwnSteps(more, i, j) && Concluded(Run(before + more), i, j)
    ensures Run(before + more).procs[j].whole == Run(before).procs[j].whole
    decreases Left(Run(before), i, j)
  {
    hide Run;
    var e := MoveOn(before, i, j);
    var next := before + [e];
    if Concluded(Run(next), i, j) {
      more := [e];
    } else {
      var rest := SessionCanDeliver(next, i, j);
      more := [e] + rest;
      Regroup(before, e, rest);
    }
  }

  lemma MoveOn(before: seq<Event>, i: nat, j: nat) returns (e: Event)
    requires Running(Run(before), i, j)
    ensures e.Step? && (e.pid == i || e.pid == j)
    ensures Concluded(Run(before + [e]), i, j)
      || (Running(Run(before + [e]), i, j) && Left(Run(before + [e]), i, j) < Left(Run(before), i, j))
    ensures Run(before + [e]).procs[j].whole == Run(before).procs[j].whole
  {
    hide Run, Apply;
    e := SomeMove(before, i, j);
    RunKeeps(before);
    RunningStep(Run(before), e, i, j);
    OneMore(before, [e]);
    assert before + [e][..0] == before;
  }

  /** Some partner can move, and if the reader is about to print, it can print all it holds. */
  lemma SomeMove(before: seq<Event>, i: nat, j: nat) returns (e: Event)
    requires Running(Run(before), i, j)
    ensures e.Step? && (e.pid == i || e.pid == j) && MoveOf(Run(before), e, i, j)
    ensures j < |Apply(Run(before), e).procs|
    ensures Apply(Run(before), e).procs[j].whole == Run(before).procs[j].whole
  {
    hide Run, Inv, Stepped;
    var s := Run(before);
    if s.procs[j].at == Print {
      e := Step(j, |s.procs[j].buffer|);
      PrintsAll(s, j);
    } else {
      PairProgress(before, i, j);
      if Enabled(s, i) {
        var n := EnabledMoves(s, i);
        e := Step(i, n);
        OthersKept(s, i, n, j);
      } else {
        var n := EnabledMoves(s, j);
        e := Step(j, n);
        OnlyPrintsShorten(s, j, n);
      }
    }
  }

  lemma EnabledMoves(s: State, k: nat) returns (n: nat)
    requires k < |s.procs| && Enabled(s, k)
    ensures Stepped(s, k, n) != s
  {
    n :| Stepped(s, k, n).procs[k].at != s.procs[k].at;
  }

  lemma PrintsAll(s: State, j: nat)
    requires j < |s.procs| && s.procs[j].at == Print
    ensures var t := Stepped(s, j, |s.procs[j].buffer|);
      t != s && j < |t.procs| && t.procs[j].whole == s.procs[j].whole
  {
  }

  lemma OnlyPrintsShorten(s: State, j: nat, n: nat)
    requires j < |s.procs| && s.procs[j].at != Print
    ensures j < |Stepped(s, j, n).procs| && Stepped(s, j, n).procs[j].whole == s.procs[j].whole
  {
  }

  // ---------- A writer that gave up ----------

  /** The writer has left its loop without having finished. */
  ghost predicate GaveUp(s: State, i: nat) {
    i < |s.procs| && s.procs[i].role.Writer? && !s.procs[i].finished && Rank(s.procs[i].at) >= 11
  }

  lemma GaveUpStep(s: State, e: Event, i: nat)
    requires Inv(s) && GaveUp(s, i)
    ensures GaveUp(Apply(s, e), i)
    ensures Apply(s, e).procs[i].cursor == s.procs[i].cursor && Apply(s, e).procs[i].file == s.procs[i].file
  {
    if e.Step? && e.pid < |s.procs| {
      if e.pid != i {
        OthersKept(s, e.pid, e.n, i);
      } else {
        GaveUpLeaves(s, i, e.n);
      }
    }
  }

  lemma GaveUpLeaves(s: State, i: nat, n: nat)
    requires Inv(s) && GaveUp(s, i)
    ensures GaveUp(Stepped(s, i, n), i) && Stepped(s, i, n).procs[i].cursor == s.procs[i].cursor
    ensures Stepped(s, i, n).procs[i].file == s.procs[i].file
  {
    if s.procs[i].at == Leave {
      LeavesNow(s, i, n);
    } else {
      OnlyExits(s, i, n);
    }
  }

  /** What a writer had not read when it gave up is never delivered to anybody. */
  lemma {:induction false} GaveUpNeverDelivers(before: seq<Event>, after: seq<Event>, i: nat, j: nat)
    requires GaveUp(Run(before), i) && Run(before).procs[i].cursor < |Run(before).procs[i].file|
    ensures GaveUp(Run(before + after), i)
    ensures Run(before + after).procs[i].cursor == Run(before).procs[i].cursor
    ensures Run(before + after).procs[i].file == Run(before).procs[i].file
    ensures j < |Run(before + after).procs| ==>
      Run(before + after).procs[j].out != Run(before + after).procs[i].file
  {
    hide Apply;
    if after == [] {
      assert before + after == before;
    } else {
      var n := |after| - 1;
      GaveUpNeverDelivers(before, after[..n], i, j);
      OneMore(before, after);
      RunKeeps(before + after[..n]);
      GaveUpStep(Run(before + after[..n]), after[n], i);
    }
    RunKeeps(before + after);
    NotWholeFile(Run(before + after), i, j);
  }

  lemma NotWholeFile(s: State, i: nat, j: nat)
    requires Inv(s) && i < |s.procs| && s.procs[i].cursor < |s.procs[i].file|
    ensures j < |s.procs| ==> s.procs[j].out != s.procs[i].file
  {
    if j < |s.procs| && s.procs[j].out != [] {
      assert Sourced(s, j) && DataFits(s.procs[i], i);
      assert Got(s, j)[0] == s.procs[j].out[0];
    }
  }
}
