/** What a start, a crash and a read do, and how the others recover from a crash. */
module TransferRecovery {
  import opened Semaphores
  import opened Transfer
  import opened TransferInvariant
  import opened TransferSteps
  import opened TransferTheorems
  import opened TransferSession
  import opened TransferExamples

  // ---------- What single events do ----------

  lemma RunOneMore(events: seq<Event>, e: Event)
    ensures Run(events + [e]) == Apply(Run(events), e)
  {
    RunLast(events + [e], events, e);
  }

  /** A process that is not gone yet can crash at any station of any run: it is gone, has
      nothing left to undo, every semaphore is changed by just what it had to undo, and nobody
      else and no byte is touched. */
  lemma CrashUndoes(events: seq<Event>, i: nat)
    requires i < |Run(events).procs| && Run(events).procs[i].at != Gone
    ensures var (s, t) := (Run(events), Run(events + [Crash(i)]));
      && t.procs == s.procs[i := s.procs[i].(at := Gone, adj := ZERO)] && t.shm == s.shm
      && forall id :: t.sems.Get(id) == s.sems.Get(id) + s.procs[i].adj.Get(id)
  {
    hide Inv, Exit, Run;
    RunOneMore(events, Crash(i));
    RunKeeps(events);
    ExitChanges(Run(events), i);
  }

  lemma ExitChanges(s: State, i: nat)
    requires Inv(s) && i < |s.procs|
    ensures Exit(s, i).procs == s.procs[i := s.procs[i].(at := Gone, adj := ZERO)] && Exit(s, i).shm == s.shm
    ensures forall id :: Exit(s, i).sems.Get(id) == s.sems.Get(id) + s.procs[i].adj.Get(id)
  {
    ExitResult(s, i);
    hide Inv, Exit;
  }

  /** The exit of a process that has left is undone in the same way. */
  lemma ExitIsAsCrash(events: seq<Event>, i: nat, n: nat)
    requires i < |Run(events).procs| && Run(events).procs[i].at == Lingering
    ensures Run(events + [Step(i, n)]) == Run(events + [Crash(i)])
  {
    hide Run;
    RunOneMore(events, Crash(i));
    RunOneMore(events, Step(i, n));
    LingeringExits(Run(events), i, n);
  }

  lemma LingeringExits(s: State, i: nat, n: nat)
    requires i < |s.procs| && s.procs[i].at == Lingering
    ensures Apply(s, Step(i, n)) == Apply(s, Crash(i))
  {
    hide Exit, SemopStep;
  }

  /** A new process stands before its entry with nothing read, printed or to undo. */
  lemma StartAdds(events: seq<Event>, role: Role, file: seq<Byte>)
    requires From(file, |Run(events).procs|)
    ensures var (s, t) := (Run(events), Run(events + [Start(role, file)]));
      && t.sems == s.sems && t.shm == s.shm && |t.procs| == |s.procs| + 1 && t.procs[..|s.procs|] == s.procs
      && var p := t.procs[|s.procs|];
        p.role == role && p.at == Enter && p.adj == ZERO && p.file == file && p.cursor == 0
        && p.out == [] && p.whole && !p.finished
  {
    RunOneMore(events, Start(role, file));
  }

  /** Once the active process of a role has crashed, the next one of the role gets in. */
  lemma EntryIsFreed(events: seq<Event>, i: nat)
    requires i < |Run(events).procs| && Active(Run(events).procs[i])
    ensures var (s, t) := (Run(events), Run(events + [Crash(i)]));
      && t.sems.Get(Exist(s.procs[i].role)) == 0
      && t.sems.pair == s.sems.pair - (if Paired(s.procs[i]) then 1 else 0)
  {
    hide Run, Inv, Exist;
    RunKeeps(events);
    CrashUndoes(events, i);
    FreedBy(Run(events), Run(events + [Crash(i)]).sems, i);
  }

  lemma FreedBy(s: State, v: Sems, i: nat)
    requires Inv(s) && i < |s.procs| && Active(s.procs[i])
    requires forall id :: v.Get(id) == s.sems.Get(id) + s.procs[i].adj.Get(id)
    ensures v.Get(Exist(s.procs[i].role)) == 0
    ensures v.pair == s.sems.pair - (if Paired(s.procs[i]) then 1 else 0)
  {
    var e := Exist(s.procs[i].role);
    ExistIsShare(s, i);
    assert Share(s.procs[i], PAIR) == (if Paired(s.procs[i]) then 1 else 0) by {
      assert AdjustmentsFit(s.procs[i]);
    }
    hide Inv, Exist, Active, Paired;
    assert v.Get(e) == s.sems.Get(e) + s.procs[i].adj.Get(e);
    assert v.Get(PAIR) == s.sems.Get(PAIR) + s.procs[i].adj.Get(PAIR);
  }

  lemma NextGetsIn(events: seq<Event>, i: nat)
    requires i < |Run(events).procs| && Active(Run(events).procs[i])
    ensures var (role, k) := (Run(events).procs[i].role, |Run(events).procs|);
      var t := Run(events + [Crash(i), Start(role, []), Step(k, 0)]);
      k < |t.procs| && t.procs[k].role == role && t.procs[k].at == AwaitUnpaired
  {
    var role, k := Run(events).procs[i].role, |Run(events).procs|;
    EntryIsFreed(events, i);
    CrashUndoes(events, i);
    var crashed := events + [Crash(i)];
    StartAdds(crashed, role, []);
    var started := crashed + [Start(role, [])];
    RunOneMore(started, Step(k, 0));
    assert started + [Step(k, 0)] == events + [Crash(i), Start(role, []), Step(k, 0)];
    EnterOutcome(Run(started).sems, ZERO, role);
  }

  /** A read takes any count from 1 to 100 within the file, and returns 0 only at its end. */
  lemma ReadTakes(s: State, w: nat, n: nat)
    requires w < |s.procs| && s.procs[w].at == Read && s.procs[w].cursor <= |s.procs[w].file|
    ensures var (p, t) := (s.procs[w], Stepped(s, w, n));
      if 1 <= n <= 100 && p.cursor + n <= |p.file| then
        t == s.(procs := s.procs[w := p.(at := Copy, cursor := p.cursor + n,
                                         buffer := p.file[p.cursor..p.cursor + n])])
      else if n == 0 && p.cursor == |p.file| then t == s.(procs := s.procs[w := p.(at := PostFinish, buffer := [])])
      else t == s
  {
  }

  /** A write takes any count up to what the reader holds. */
  lemma PrintTakes(s: State, r: nat, n: nat)
    requires r < |s.procs| && s.procs[r].at == Print
    ensures var (p, t) := (s.procs[r], Stepped(s, r, n));
      if n <= |p.buffer| then
        t == s.(procs := s.procs[r := p.(at := Post, out := p.out + p.buffer[..n],
                                         whole := p.whole && n == |p.buffer|)])
      else t == s
  {
  }

  // ---------- The survivor leaves ----------

  ghost function ToGo(at: Station): nat {
    match at
    case Read => 8
    case Copy => 7
    case Print => 6
    case Post => 5
    case Head => 4
    case PostFinish => 3
    case Leave => 2
    case Lingering => 1
    case _ => 0
  }

  /** Without a partner a process in or after its loop can go on, and comes nearer to its end. */
  ghost predicate ComesNearer(s: State, t: State, j: nat)
    requires j < |s.procs|
  {
    && |t.procs| == |s.procs| && t.procs == s.procs[j := t.procs[j]] && t.sems.pair < 2
    && ToGo(t.procs[j].at) < ToGo(s.procs[j].at) && Rank(t.procs[j].at) >= 5
  }

  lemma LonelyStep(s: State, j: nat) returns (n: nat)
    requires Inv(s) && j < |s.procs| && Rank(s.procs[j].at) >= 5 && s.procs[j].at != Gone && s.sems.pair < 2
    ensures ComesNearer(s, Stepped(s, j, n), j)
  {
    hide Inv, ComesNearer, Stepped;
    n := 0;
    match s.procs[j].at
    case Read =>
      n := if s.procs[j].cursor >= |s.procs[j].file| then 0 else 1;
      LonelyRead(s, j, n);
    case Copy => LonelyCopy(s, j);
    case Print =>
      n := |s.procs[j].buffer|;
      LonelyPrint(s, j, n);
    case Post => LonelyPost(s, j);
    case Head => LonelyHead(s, j);
    case PostFinish => LonelyFinish(s, j);
    case Leave => LonelyLeave(s, j);
    case Lingering => LonelyExit(s, j);
  }

  lemma LonelyRead(s: State, j: nat, n: nat)
    requires Inv(s) && j < |s.procs| && s.procs[j].at == Read && s.sems.pair < 2
    requires n == if s.procs[j].cursor >= |s.procs[j].file| then 0 else 1
    ensures ComesNearer(s, Stepped(s, j, n), j)
  {
    assert DataFits(s.procs[j], j);
    ReadTakes(s, j, n);
    hide Stepped, Inv;
  }

  lemma LonelyCopy(s: State, j: nat)
    requires j < |s.procs| && s.procs[j].at == Copy && s.sems.pair < 2
    ensures ComesNearer(s, Stepped(s, j, 0), j)
  {
  }

  lemma LonelyPrint(s: State, j: nat, n: nat)
    requires j < |s.procs| && s.procs[j].at == Print && s.sems.pair < 2 && n == |s.procs[j].buffer|
    ensures ComesNearer(s, Stepped(s, j, n), j)
  {
  }

  lemma LonelyPost(s: State, j: nat)
    requires Inv(s) && j < |s.procs| && s.procs[j].at == Post && s.sems.pair < 2
    ensures ComesNearer(s, Stepped(s, j, 0), j)
  {
    assert s.sems.print_ >= 0 && s.sems.memory >= 0;
    hide Inv;
    PostOutcome(s.sems, s.procs[j].adj, s.procs[j].role);
  }

  lemma LonelyHead(s: State, j: nat)
    requires j < |s.procs| && s.procs[j].at == Head && s.sems.pair < 2
    ensures ComesNearer(s, Stepped(s, j, 0), j)
  {
    HeadOutcome(s.sems, s.procs[j].adj, s.procs[j].role);
  }

  lemma LonelyFinish(s: State, j: nat)
    requires Inv(s) && j < |s.procs| && s.procs[j].at == PostFinish && s.sems.pair < 2
    ensures ComesNearer(s, Stepped(s, j, 0), j)
  {
    NobodyOwes(s);
    TotalAtLeast(s.procs, FINISH, j);
    assert s.sems.print_ >= 0 && s.sems.finish >= 0;
    hide Inv, Total;
    PostFinishResult(s, j);
  }

  lemma LonelyLeave(s: State, j: nat)
    requires Inv(s) && j < |s.procs| && s.procs[j].at == Leave && s.sems.pair < 2
    ensures ComesNearer(s, Stepped(s, j, 0), j)
  {
    LeaveResult(s, j);
    hide Inv, SemopStep;
  }

  lemma LonelyExit(s: State, j: nat)
    requires Inv(s) && j < |s.procs| && s.procs[j].at == Lingering && s.sems.pair < 2
    ensures ComesNearer(s, Stepped(s, j, 0), j)
  {
    assert AdjustmentsFit(s.procs[j]);
    ExitChanges(s, j);
    hide Inv, Exit;
    assert Exit(s, j).sems.pair == Exit(s, j).sems.Get(PAIR);
  }

  /** Process j is gone in t, and everybody else is as in s. */
  ghost predicate OnlyGone(s: State, t: State, j: nat) {
    j < |s.procs| == |t.procs| && t.procs == s.procs[j := t.procs[j]] && t.procs[j].at == Gone
  }

  /** Without a partner, moves of its own lead a process out of its loop and to its exit. */
  lemma {:induction false} SurvivorLeaves(before: seq<Event>, j: nat) returns (more: seq<Event>)
    requires j < |Run(before).procs| && Rank(Run(before).procs[j].at) >= 5 && Run(before).sems.pair < 2
    ensures OwnSteps(more, j, j) && OnlyGone(Run(before), Run(before + more), j)
    decreases ToGo(Run(before).procs[j].at)
  {
    hide Run, Stepped, Inv;
    if Run(before).procs[j].at == Gone {
      more := [];
      assert before + more == before;
    } else {
      RunKeeps(before);
      var n := LonelyStep(Run(before), j);
      RunOneMore(before, Step(j, n));
      var rest := SurvivorLeaves(before + [Step(j, n)], j);
      more := [Step(j, n)] + rest;
      Regroup(before, Step(j, n), rest);
    }
  }

  // ---------- A crash inside a session ----------

  /** The session of i and j is running, and everybody else is gone. */
  ghost predicate OnlySession(s: State, i: nat, j: nat) {
    Running(s, i, j) && forall k :: 0 <= k < |s.procs| && k != i && k != j ==> s.procs[k].at == Gone
  }

  lemma CrashLeavesOne(before: seq<Event>, i: nat, j: nat, c: nat)
    requires OnlySession(Run(before), i, j) && (c == i || c == j)
    ensures var (s, t) := (Run(before), Run(before + [Crash(c)]));
      && t.procs == s.procs[c := s.procs[c].(at := Gone, adj := ZERO)] && t.sems.pair < 2
  {
    var s := Run(before);
    RunKeeps(before);
    CrashUndoes(before, c);
    UndoAddsUp(before, PAIR);
    assert AdjustmentsFit(s.procs[c]);
    assert Run(before + [Crash(c)]).sems.Get(PAIR) == s.sems.Get(PAIR) + s.procs[c].adj.Get(PAIR);
  }

  /** Wherever in their loops a writer or a reader crashes: the other one finds its way out,
      and a new writer and a new reader can then pass on any file, all of which arrives. */
  lemma CrashThenArrival(before: seq<Event>, i: nat, j: nat, c: nat, file: seq<Byte>) returns (events: seq<Event>)
    requires OnlySession(Run(before), i, j) && (c == i || c == j) && From(file, |Run(before).procs|)
    ensures Continues(before + [Crash(c)], events)
    ensures Arrived(Run(events), |Run(before).procs|, |Run(before).procs| + 1, file)
  {
    hide Run, Inv;
    var crashed := before + [Crash(c)];
    CrashLeavesOne(before, i, j, c);
    var more := SurvivorLeaves(crashed, if c == i then j else i);
    events := MayDeliver(crashed + more, file);
  }

  /** Writer 0 is in a session with reader 1, and this is its file. */
  ghost predicate Sending(s: State, file: seq<Byte>) {
    OnlySession(s, 0, 1) && s.procs[0].file == file
  }

  /** There are such runs: for any two files, the writer of the first crashes once the two are
      in their loops, and the second file arrives. */
  lemma MayRecover(first: seq<Byte>, file: seq<Byte>) returns (before: seq<Event>, events: seq<Event>)
    requires From(first, 0) && From(file, 2)
    ensures Sending(Run(before), first)
    ensures Continues(before + [Crash(0)], events) && Arrived(Run(events), 2, 3, file)
  {
    hide Run, Together, Running, Inv;
    NothingRun();
    before := TwoStart([], first);
    NewcomersMayMeet(FRESH, first);
    before := PairForms([], before, 0, 1);
    TogetherRuns(FRESH, first);
    events := CrashThenArrival(before, 0, 1, 0, file);
  }
}
