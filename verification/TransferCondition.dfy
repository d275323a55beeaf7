/** Exactly when a file arrives: a reader gets bytes of a writer's file only if the two were
    at some moment in their loops together with FINISH at 0, and then, unless one of them
    crashes, it gets them all. */
module TransferCondition {
  import opened Semaphores
  import opened Transfer
  import opened TransferInvariant
  import opened TransferSteps
  import opened TransferTheorems
  import opened TransferSession

  /** At some moment of the run the session of i and j was running. */
  ghost predicate EverRunning(events: seq<Event>, i: nat, j: nat) {
    Running(Run(events), i, j) || (events != [] && EverRunning(events[..|events| - 1], i, j))
  }

  /** That is, after some beginning of the run. */
  lemma {:induction false} SomePrefix(events: seq<Event>, i: nat, j: nat) returns (k: nat)
    requires EverRunning(events, i, j)
    ensures k <= |events| && Running(Run(events[..k]), i, j)
  {
    if Running(Run(events), i, j) {
      k := |events|;
      assert events[..k] == events;
    } else {
      var front := events[..|events| - 1];
      k := SomePrefix(front, i, j);
      assert front[..k] == events[..k];
    }
  }

  lemma {:induction false} FromPrefix(events: seq<Event>, k: nat, i: nat, j: nat)
    requires k <= |events| && Running(Run(events[..k]), i, j)
    ensures EverRunning(events, i, j)
  {
    if k == |events| {
      assert events[..k] == events;
    } else {
      var front := events[..|events| - 1];
      assert front[..k] == events[..k];
      FromPrefix(front, k, i, j);
    }
  }

  // ---------- What one event does to one process ----------

  ghost predicate ActsOn(e: Event, m: nat) {
    (e.Step? || e.Crash?) && e.pid == m
  }

  /** An event of others changes at most the adjustments of a process. */
  lemma OnlyActs(s: State, e: Event, m: nat)
    requires m < |s.procs| && !ActsOn(e, m)
    ensures m < |Apply(s, e).procs| && Apply(s, e).procs[m] == s.procs[m].(adj := Apply(s, e).procs[m].adj)
  {
    if e.Step? && e.pid < |s.procs| {
      OthersKept(s, e.pid, e.n, m);
    }
  }

  /** The shared memory is written only by a writer. */
  lemma ShmKept(s: State, e: Event)
    ensures Apply(s, e).shm == s.shm
      || (e.Step? && e.pid < |s.procs| && s.procs[e.pid].role.Writer? && s.procs[e.pid].at == Copy)
  {
  }

  /** A paired process was paired before, or it has just joined. */
  lemma PairedBefore(s: State, e: Event, m: nat)
    requires Inv(s) && m < |Apply(s, e).procs| && Paired(Apply(s, e).procs[m])
    ensures m < |s.procs| && Ready(s.procs[m])
    ensures s.procs[m].role == Apply(s, e).procs[m].role && s.procs[m].file == Apply(s, e).procs[m].file
    ensures s.procs[m].at == Join ==>
      ActsOn(e, m) && Apply(s, e).procs[m] == s.procs[m].(at := Head, adj := Apply(s, e).procs[m].adj)
  {
    NotNew(s, e, m);
    if !ActsOn(e, m) {
      OnlyActs(s, e, m);
    } else if e.Step? {
      SelfKept(s, m, e.n);
      StepBack(s, m, e.n);
    }
  }

  lemma NotNew(s: State, e: Event, m: nat)
    requires m < |Apply(s, e).procs| && Apply(s, e).procs[m].at != Enter
    ensures m < |s.procs|
  {
    if e.Step? && e.pid < |s.procs| {
      SelfKept(s, e.pid, e.n);
    }
  }

  lemma StepBack(s: State, m: nat, n: nat)
    requires Inv(s) && m < |s.procs| && m < |Stepped(s, m, n).procs| && Paired(Stepped(s, m, n).procs[m])
    ensures Ready(s.procs[m])
    ensures s.procs[m].at == Join ==>
      Stepped(s, m, n).procs[m] == s.procs[m].(at := Head, adj := Stepped(s, m, n).procs[m].adj)
  {
    if s.procs[m].at == Join {
      JoinResult(s, m);
    } else if Rank(s.procs[m].at) >= 12 {
      OnlyExits(s, m, n);
    }
  }

  // ---------- A writer that gives up beside a reader has read nothing ----------

  /** Who leaves the loop head while the partner is paired has not given up on PAIR. */
  lemma WriterStays(s: State, i: nat, j: nat, n: nat)
    requires Inv(s) && IsPair(s, i, j) && Paired(s.procs[i]) && Paired(s.procs[j]) && s.procs[i].at != Leave
    ensures i < |Stepped(s, i, n).procs|
    ensures Stepped(s, i, n).procs[i].at == Leave ==> Stepped(s, i, n).procs[i].finished
  {
    NobodyOwes(s);
    assert AdjustmentsFit(s.procs[i]) && AdjustmentsFit(s.procs[j]) && DataFits(s.procs[i], i);
    TotalAtLeastTwo(s.procs, PAIR, i, j);
    TotalAtLeast(s.procs, FINISH, i);
    if s.procs[i].at == Head {
      HeadOutcome(s.sems, s.procs[i].adj, s.procs[i].role);
    } else if s.procs[i].at == Post {
      PostOutcome(s.sems, s.procs[i].adj, s.procs[i].role);
    } else if s.procs[i].at == PostFinish {
      PostFinishResult(s, i);
    }
  }

  lemma {:induction false} LeftUnread(events: seq<Event>, i: nat, j: nat)
    requires IsPair(Run(events), i, j) && Paired(Run(events).procs[j])
    requires Run(events).procs[i].at == Leave && !Run(events).procs[i].finished
    ensures Run(events).procs[i].cursor == 0
  {
    hide Apply;
    if events == [] {
    } else {
      var n := |events| - 1;
      RunKeeps(events[..n]);
      LeftUnreadStep(Run(events[..n]), events[n], i, j);
      var s := Run(events[..n]);
      if s.procs[j].at != Join {
        LeftUnread(events[..n], i, j);
      }
    }
  }

  lemma LeftUnreadStep(s: State, e: Event, i: nat, j: nat)
    requires Inv(s) && IsPair(Apply(s, e), i, j) && Paired(Apply(s, e).procs[j])
    requires Apply(s, e).procs[i].at == Leave && !Apply(s, e).procs[i].finished
    ensures IsPair(s, i, j) && Ready(s.procs[j]) && s.procs[i].at == Leave && !s.procs[i].finished
    ensures Apply(s, e).procs[i].cursor == s.procs[i].cursor
    ensures s.procs[j].at == Join ==> s.procs[i].cursor == 0
  {
    hide Apply;
    PairedBefore(s, e, i);
    PairedBefore(s, e, j);
    NotByItself(s, e, i, j);
    OnlyActs(s, e, i);
    if s.procs[j].at == Join {
      assert TokenOk(s, s.procs[i], s.procs[j]);
    }
  }

  lemma NotByItself(s: State, e: Event, i: nat, j: nat)
    requires Inv(s) && IsPair(s, i, j) && Ready(s.procs[i]) && Ready(s.procs[j])
    requires i < |Apply(s, e).procs| && Apply(s, e).procs[i].at == Leave && !Apply(s, e).procs[i].finished
    requires s.procs[i].at == Join ==> Apply(s, e).procs[i].at == Head
    requires s.procs[j].at == Join ==> ActsOn(e, j)
    ensures !ActsOn(e, i)
  {
    if ActsOn(e, i) && e.Step? {
      if s.procs[i].at == Leave {
        LeavesNow(s, i, e.n);
      } else {
        WriterStays(s, i, j, e.n);
      }
    }
  }

  // ---------- A reader that gets bytes is in a running session ----------

  ghost predicate Takes(s: State, e: Event, j: nat) {
    && j < |s.procs| && s.procs[j].role.Reader? && s.procs[j].at == Head
    && e.Step? && e.pid == j && j < |Apply(s, e).procs| && Apply(s, e).procs[j].at == Copy
  }

  lemma TakeNeeds(s: State, e: Event, j: nat)
    requires Takes(s, e, j)
    ensures s.sems.pair >= 2 && s.sems.print_ >= 1 && s.sems.finish == 0
    ensures Apply(s, e) == Moved(s, j, s.procs[j].(at := Copy, finished := s.procs[j].finished),
      s.sems.(print_ := s.sems.print_ - 1))
  {
    HeadOutcome(s.sems, s.procs[j].adj, s.procs[j].role);
  }

  /** The writer whose PRINT a reader takes is at its loop head, and the bytes are its own. */
  lemma TakingMeansRunning(events: seq<Event>, e: Event, j: nat) returns (i: nat)
    requires Takes(Run(events), e, j)
    ensures Running(Run(events), i, j) && Got(Apply(Run(events), e), j) != []
    ensures Got(Apply(Run(events), e), j)[0].origin == i
  {
    var s := Run(events);
    RunKeeps(events);
    TakeNeeds(s, e, j);
    i := HeadReaderAllowed(s, j);
    assert DataFits(s.procs[j], j);
    PairsFine(s, j);
    HeadReaderSourced(s, j, i, Apply(s, e));
    if s.procs[i].at == Leave {
      LeftUnread(events, i, j);
      NothingToTake(s, i, j);
    }
    NotInside(s, i, j);
  }

  lemma NotInside(s: State, i: nat, j: nat)
    requires Inv(s) && IsPair(s, i, j) && Ready(s.procs[i]) && Ready(s.procs[j]) && s.sems.print_ >= 1
    ensures !Inside(s.procs[i])
  {
    assert TokenOk(s, s.procs[i], s.procs[j]);
  }

  lemma NothingToTake(s: State, i: nat, j: nat)
    requires Inv(s) && IsPair(s, i, j) && Paired(s.procs[j]) && s.procs[i].at == Leave
    requires s.procs[i].cursor == 0 && !s.procs[i].finished
    ensures s.sems.print_ < 1
  {
    assert Stream(s, i, j);
  }

  /** What a process got first stays what it got first, or it loses all of it. */
  lemma GotFirstKept(s: State, e: Event, j: nat)
    requires Inv(s) && j < |s.procs| && !Takes(s, e, j)
    ensures j < |Apply(s, e).procs|
    ensures Got(Apply(s, e), j) <= Got(s, j)
  {
    if ActsOn(e, j) {
      if e.Step? {
        OwnGotKept(s, j, e.n);
      }
    } else {
      OnlyActs(s, e, j);
      ShmKept(s, e);
      if e.Step? && e.pid < |s.procs| && s.procs[e.pid].role.Writer? && s.procs[e.pid].at == Copy {
        NoReaderInside(s, e.pid);
      }
    }
  }

  /** A semop call moves no data. */
  lemma SemopGotKept(s: State, j: nat)
    requires j < |s.procs| && s.procs[j].at != Copy && s.procs[j].at != Print
    requires SemopStep(s, j).procs[j].at != Copy
    ensures Got(SemopStep(s, j), j) == Got(s, j)
  {
  }

  lemma PrintGotKept(s: State, j: nat, n: nat)
    requires j < |s.procs| && s.procs[j].role.Reader? && s.procs[j].at == Print
    ensures j < |Stepped(s, j, n).procs|
    ensures Got(Stepped(s, j, n), j) <= Got(s, j)
  {
    var p := s.procs[j];
    if n <= |p.buffer| {
      assert Got(Stepped(s, j, n), j) == p.out + p.buffer[..n];
      assert Got(s, j) == p.out + p.buffer;
    }
  }

  lemma WriterGotNothing(s: State, j: nat)
    requires Inv(s) && j < |s.procs| && s.procs[j].role.Writer?
    ensures Got(s, j) == []
  {
    assert DataFits(s.procs[j], j);
  }

  lemma ExitGotKept(s: State, j: nat)
    requires j < |s.procs|
    ensures Got(Exit(s, j), j) <= Got(s, j)
  {
  }

  lemma OwnGotKept(s: State, j: nat, n: nat)
    requires Inv(s) && j < |s.procs| && !Takes(s, Step(j, n), j)
    ensures j < |Stepped(s, j, n).procs|
    ensures Got(Stepped(s, j, n), j) <= Got(s, j)
  {
    var p := s.procs[j];
    SelfKept(s, j, n);
    if p.role.Writer? {
      StepKeeps(s, j, n);
      WriterGotNothing(Stepped(s, j, n), j);
    } else {
      ReaderGotKept(s, j, n);
    }
  }

  lemma ReaderGotKept(s: State, j: nat, n: nat)
    requires j < |s.procs| && s.procs[j].role.Reader? && DataFits(s.procs[j], j) && !Takes(s, Step(j, n), j)
    ensures j < |Stepped(s, j, n).procs|
    ensures Got(Stepped(s, j, n), j) <= Got(s, j)
  {
    match s.procs[j].at
    case Print => PrintGotKept(s, j, n);
    case Lingering => ExitGotKept(s, j);
    case Copy =>
    case SetVal =>
    case Gone =>
    case _ => SemopGotKept(s, j);
  }

  /** Whoever got a byte of a writer was with it in a running session. */
  lemma {:induction false} GotNeedsSession(events: seq<Event>, i: nat, j: nat)
    requires j < |Run(events).procs| && Got(Run(events), j) != [] && Got(Run(events), j)[0].origin == i
    ensures EverRunning(events, i, j)
  {
    hide Apply;
    if events == [] {
    } else {
      var n := |events| - 1;
      var s := Run(events[..n]);
      RunKeeps(events[..n]);
      if Takes(s, events[n], j) {
        var k := TakingMeansRunning(events[..n], events[n], j);
        MetBefore(events, i, j);
      } else if j < |s.procs| {
        GotFirstKept(s, events[n], j);
        GotNeedsSession(events[..n], i, j);
      } else {
        NewGotNothing(s, events[n], j);
      }
    }
  }

  lemma MetBefore(events: seq<Event>, i: nat, j: nat)
    requires events != [] && Running(Run(events[..|events| - 1]), i, j)
    ensures EverRunning(events, i, j)
  {
  }

  lemma NewGotNothing(s: State, e: Event, j: nat)
    requires |s.procs| <= j < |Apply(s, e).procs|
    ensures Got(Apply(s, e), j) == []
  {
    if e.Step? && e.pid < |s.procs| {
      SelfKept(s, e.pid, e.n);
    }
  }

  // ---------- Without a running session the reader has printed nothing ----------

  ghost predicate Fresh(p: Proc) {
    (p.at == Head || p.at == Leave) && p.out == [] && p.whole
  }

  /** A reader at its loop head or leaving it prints nothing. */
  lemma FreshStays(s: State, e: Event, j: nat)
    requires Inv(s) && j < |s.procs| && s.procs[j].role.Reader? && Fresh(s.procs[j]) && !Takes(s, e, j)
    requires j < |Apply(s, e).procs| && Paired(Apply(s, e).procs[j])
    ensures Fresh(Apply(s, e).procs[j])
  {
    if !ActsOn(e, j) {
      OnlyActs(s, e, j);
    } else if e.Step? && s.procs[j].at == Leave {
      LeavesNow(s, j, e.n);
    } else if e.Step? {
      HeadOutcome(s.sems, s.procs[j].adj, s.procs[j].role);
    }
  }

  /** Just joined, the pair has seen no data. */
  lemma FreshAtJoin(s: State, e: Event, i: nat, j: nat)
    requires Inv(s) && IsPair(Apply(s, e), i, j) && Paired(Apply(s, e).procs[i]) && Paired(Apply(s, e).procs[j])
    ensures IsPair(s, i, j) && Ready(s.procs[i]) && Ready(s.procs[j])
    ensures s.procs[i].at == Join || s.procs[j].at == Join ==> Fresh(Apply(s, e).procs[j])
  {
    PairedBefore(s, e, i);
    PairedBefore(s, e, j);
    assert DataFits(s.procs[j], j);
    if s.procs[i].at == Join && s.procs[j].at != Join {
      assert TokenOk(s, s.procs[i], s.procs[j]);
      OnlyActs(s, e, j);
    }
  }

  lemma TakingMeets(events: seq<Event>, e: Event, i: nat, j: nat)
    requires Takes(Run(events), e, j) && IsPair(Run(events), i, j) && Paired(Run(events).procs[i])
    ensures Running(Run(events), i, j)
  {
    RunKeeps(events);
    var k := TakingMeansRunning(events, e, j);
    assert SameRole(Run(events), i, k);
  }

  lemma {:induction false} UnmetIsFresh(events: seq<Event>, i: nat, j: nat)
    requires IsPair(Run(events), i, j) && Paired(Run(events).procs[i]) && Paired(Run(events).procs[j])
    requires !EverRunning(events, i, j)
    ensures Fresh(Run(events).procs[j])
  {
    hide Apply;
    if events == [] {
    } else {
      var n := |events| - 1;
      var s := Run(events[..n]);
      RunKeeps(events[..n]);
      FreshAtJoin(s, events[n], i, j);
      if s.procs[i].at != Join && s.procs[j].at != Join {
        UnmetIsFresh(events[..n], i, j);
        if Takes(s, events[n], j) {
          TakingMeets(events[..n], events[n], i, j);
          MetBefore(events, i, j);
        } else {
          FreshStays(s, events[n], j);
        }
      }
    }
  }

  // ---------- The end of the file ----------

  /** Reader j, alive or not, has printed what i has read, unless a write was short, and
      does not print more while i is inside. */
  ghost predicate Reached(s: State, i: nat, j: nat) {
    && IsPair(s, i, j) && From(s.procs[j].out, i) && s.procs[i].cursor <= |s.procs[i].file|
    && (s.procs[j].whole <==> s.procs[j].out == s.procs[i].file[..s.procs[i].cursor])
    && (s.procs[j].at == Head || Rank(s.procs[j].at) >= 11)
  }

  ghost predicate AtEnd(p: Proc) {
    p.role.Writer? && (p.at == Read || p.at == PostFinish)
  }

  /** While the writer is inside, the reader can only give up, leave and exit. */
  lemma ReachedReader(s: State, i: nat, j: nat, n: nat)
    requires Inv(s) && Reached(s, i, j) && AtEnd(s.procs[i])
    ensures OnlyLeft(s, Stepped(s, j, n), j)
  {
    if s.procs[j].at == Head {
      HeadWithoutToken(s, i, j, n);
    } else if s.procs[j].at == Leave {
      LeavesNow(s, j, n);
    } else {
      OnlyExits(s, j, n);
    }
  }

  lemma HeadWithoutToken(s: State, i: nat, j: nat, n: nat)
    requires Inv(s) && IsPair(s, i, j) && AtEnd(s.procs[i]) && s.procs[j].at == Head
    ensures OnlyLeft(s, Stepped(s, j, n), j)
  {
    assert TokenOk(s, s.procs[i], s.procs[j]);
    HeadOutcome(s.sems, s.procs[j].adj, s.procs[j].role);
  }

  lemma ReachedStep(s: State, e: Event, i: nat, j: nat)
    requires Inv(s) && Reached(s, i, j) && AtEnd(s.procs[i])
    requires i < |Apply(s, e).procs| && AtEnd(Apply(s, e).procs[i])
    ensures Reached(Apply(s, e), i, j) && Apply(s, e).procs[i].cursor == s.procs[i].cursor
  {
    if ActsOn(e, i) {
      EndStep(s, e, i);
    } else {
      OnlyActs(s, e, i);
    }
    if !ActsOn(e, j) {
      OnlyActs(s, e, j);
    } else if e.Step? {
      ReachedReader(s, i, j, e.n);
    }
  }

  lemma EndStep(s: State, e: Event, i: nat)
    requires Inv(s) && i < |s.procs| && AtEnd(s.procs[i]) && ActsOn(e, i)
    requires i < |Apply(s, e).procs| && AtEnd(Apply(s, e).procs[i])
    ensures Apply(s, e).procs[i].cursor == s.procs[i].cursor
    ensures Apply(s, e).procs[i].file == s.procs[i].file && Apply(s, e).procs[i].role == s.procs[i].role
  {
    if e.Step? {
      assert DataFits(s.procs[i], i);
      SelfKept(s, i, e.n);
      if s.procs[i].at == Read {
        ReadResult(s, i, e.n);
      } else {
        NobodyOwes(s);
        TotalAtLeast(s.procs, FINISH, i);
        PostFinishResult(s, i);
      }
    }
  }

  /** Where a writer at the end of a round was before. */
  lemma EndBefore(s: State, e: Event, i: nat)
    requires Inv(s) && i < |Apply(s, e).procs| && AtEnd(Apply(s, e).procs[i])
    ensures i < |s.procs| && s.procs[i].role.Writer?
    ensures AtEnd(s.procs[i]) || (s.procs[i].at == Head && e.Step? && e.pid == i)
    ensures !AtEnd(s.procs[i]) ==>
      Apply(s, e).procs[i].at == Read && Apply(s, e).procs == s.procs[i := s.procs[i].(at := Read)]
  {
    NotNew(s, e, i);
    if ActsOn(e, i) && e.Step? {
      SelfKept(s, i, e.n);
      EndStepBack(s, i, e.n);
    } else if !ActsOn(e, i) {
      OnlyActs(s, e, i);
    }
  }

  lemma EndStepBack(s: State, i: nat, n: nat)
    requires i < |s.procs| && s.procs[i].role.Writer? && DataFits(s.procs[i], i)
    requires i < |Stepped(s, i, n).procs| && AtEnd(Stepped(s, i, n).procs[i])
    ensures AtEnd(s.procs[i]) || s.procs[i].at == Head
    ensures !AtEnd(s.procs[i]) ==>
      Stepped(s, i, n).procs[i].at == Read && Stepped(s, i, n).procs == s.procs[i := s.procs[i].(at := Read)]
  {
    if s.procs[i].at == Head {
      HeadOutcome(s.sems, s.procs[i].adj, s.procs[i].role);
    }
  }

  /** Whenever a writer reads or has reached the end of its file, there is such a reader; if
      anything was read before, the two were in a running session. */
  lemma {:induction false} ReadingReached(events: seq<Event>, i: nat) returns (j: nat)
    requires i < |Run(events).procs| && AtEnd(Run(events).procs[i])
    ensures Reached(Run(events), i, j)
    ensures Run(events).procs[i].cursor > 0 ==> EverRunning(events, i, j)
  {
    hide Apply;
    if events == [] {
    } else {
      var n := |events| - 1;
      var s := Run(events[..n]);
      RunKeeps(events[..n]);
      EndBefore(s, events[n], i);
      if AtEnd(s.procs[i]) {
        j := ReadingReached(events[..n], i);
        ReachedStep(s, events[n], i, j);
      } else {
        j := ReadingStarts(events[..n], events[n], i);
      }
    }
  }

  lemma ReadingStarts(events: seq<Event>, e: Event, i: nat) returns (j: nat)
    requires i < |Run(events).procs| && Run(events).procs[i].role.Writer? && Run(events).procs[i].at == Head
    requires e.Step? && e.pid == i
    requires Apply(Run(events), e).procs == Run(events).procs[i := Run(events).procs[i].(at := Read)]
    ensures Reached(Apply(Run(events), e), i, j)
    ensures Run(events).procs[i].cursor > 0 ==> EverRunning(events, i, j)
  {
    hide Stepped, Inv, Apply;
    var s := Run(events);
    RunKeeps(events);
    StepIsApplied(s, e);
    j := MemoryMeansPrinted(events, i, e.n);
    ReaderIsOutside(s, i, j, e.n);
    if !EverRunning(events, i, j) {
      UnmetIsFresh(events, i, j);
    }
  }

  lemma StepIsApplied(s: State, e: Event)
    requires e.Step? && e.pid < |s.procs|
    ensures Apply(s, e) == Stepped(s, e.pid, e.n)
  {
  }

  lemma ReaderIsOutside(s: State, i: nat, j: nat, n: nat)
    requires Inv(s) && IsPair(s, i, j) && s.procs[i].at == Head && Paired(s.procs[j])
    requires Stepped(s, i, n).procs[i].at == Read
    ensures s.procs[j].at == Join || s.procs[j].at == Head || s.procs[j].at == Leave
  {
    HeadOutcome(s.sems, s.procs[i].adj, s.procs[i].role);
    assert TokenOk(s, s.procs[i], s.procs[j]);
  }

  /** The step after the end of the file concludes the session, the reader alive or not. */
  lemma EndConcludes(s: State, e: Event, i: nat, j: nat)
    requires Inv(s) && Reached(s, i, j) && s.procs[i].at == PostFinish
    requires i < |Apply(s, e).procs| && Apply(s, e).procs[i].finished
    ensures Concluded(Apply(s, e), i, j)
  {
    hide Stepped;
    var t := Apply(s, e);
    assert DataFits(s.procs[i], i);
    if !ActsOn(e, i) {
      OnlyActs(s, e, i);
    } else if e.Step? {
      SelfKept(s, i, e.n);
      OnlyActs(s, e, j);
      AloneInRole(s, i);
      forall k | k != i ensures KeptOut(t, k) {
        if 0 <= k < |s.procs| {
          OnlyActs(s, e, k);
        }
      }
    }
  }

  lemma FinishedBefore(s: State, e: Event, i: nat)
    requires Inv(s) && i < |Apply(s, e).procs| && Apply(s, e).procs[i].finished
    ensures i < |s.procs| && s.procs[i].role == Apply(s, e).procs[i].role
    ensures s.procs[i].file == Apply(s, e).procs[i].file
    ensures s.procs[i].finished || s.procs[i].at == PostFinish
  {
    hide Stepped;
    NotNewIfFinished(s, e, i);
    if !ActsOn(e, i) {
      OnlyActs(s, e, i);
    } else if e.Step? {
      SelfKept(s, i, e.n);
      FinishesAtPost(s, i, e.n);
    }
  }

  lemma FinishesAtPost(s: State, i: nat, n: nat)
    requires i < |s.procs| && i < |Stepped(s, i, n).procs| && Stepped(s, i, n).procs[i].finished
    ensures s.procs[i].finished || s.procs[i].at == PostFinish
  {
  }

  lemma NotNewIfFinished(s: State, e: Event, i: nat)
    requires i < |Apply(s, e).procs| && Apply(s, e).procs[i].finished
    ensures i < |s.procs|
  {
    hide Stepped;
    if e.Step? && e.pid < |s.procs| {
      SelfKept(s, e.pid, e.n);
    }
  }

  /** A finished writer has a reader, alive or not, with which its session was concluded. */
  lemma {:induction false} FinishedConcluded(events: seq<Event>, i: nat) returns (j: nat)
    requires i < |Run(events).procs| && Run(events).procs[i].finished
    ensures Concluded(Run(events), i, j)
    ensures Run(events).procs[i].file != [] ==> EverRunning(events, i, j)
  {
    hide Apply;
    if events == [] {
    } else {
      var n := |events| - 1;
      var s := Run(events[..n]);
      RunKeeps(events[..n]);
      FinishedBefore(s, events[n], i);
      assert DataFits(s.procs[i], i);
      if s.procs[i].finished {
        j := FinishedConcluded(events[..n], i);
        ConcludedStep(s, events[n], i, j);
      } else {
        j := ReadingReached(events[..n], i);
        EndConcludes(s, events[n], i, j);
      }
    }
  }

  /** When a writer's read has returned 0, and ever after, some reader, alive or not, has
      printed the whole file, exactly if none of its writes was short. */
  lemma EndOfFileIsPrinted(events: seq<Event>, i: nat) returns (j: nat)
    requires i < |Run(events).procs| && (Run(events).procs[i].at == PostFinish || Run(events).procs[i].finished)
    ensures IsPair(Run(events), i, j) && From(Run(events).procs[j].out, i)
    ensures Run(events).procs[j].whole <==> Run(events).procs[j].out == Run(events).procs[i].file
  {
    RunKeeps(events);
    assert DataFits(Run(events).procs[i], i);
    if Run(events).procs[i].finished {
      j := FinishedConcluded(events, i);
    } else {
      j := ReadingReached(events, i);
    }
  }

  // ---------- The exact condition ----------

  /** A session that ever ran, without a crash of the two, runs on or is concluded. */
  lemma {:induction false} EverRunningConcludes(events: seq<Event>, i: nat, j: nat)
    requires EverRunning(events, i, j) && NoCrash(events, i, j)
    ensures Running(Run(events), i, j) || Concluded(Run(events), i, j)
  {
    hide Apply;
    if Running(Run(events), i, j) {
    } else {
      var n := |events| - 1;
      var s := Run(events[..n]);
      RunKeeps(events[..n]);
      assert forall k :: 0 <= k < n ==> events[..n][k] == events[k];
      EverRunningConcludes(events[..n], i, j);
      if Running(s, i, j) {
        RunningStep(s, events[n], i, j);
      } else {
        ConcludedStep(s, events[n], i, j);
      }
    }
  }

  /** In a run without a crash of i or j, with writer i out of its loop: reader j has printed
      i's whole file if and only if the session of the two was running at some moment and none
      of j's writes was short. Not a byte of i is printed without such a session. */
  lemma ArrivedExactly(events: seq<Event>, i: nat, j: nat)
    requires IsPair(Run(events), i, j) && Run(events).procs[i].file != []
    requires Rank(Run(events).procs[i].at) >= 11 && NoCrash(events, i, j)
    ensures EverRunning(events, i, j) ==> Concluded(Run(events), i, j)
    ensures !EverRunning(events, i, j) ==>
      forall k :: 0 <= k < |Run(events).procs[j].out| ==> Run(events).procs[j].out[k].origin != i
    ensures Run(events).procs[j].out == Run(events).procs[i].file <==>
      Run(events).procs[j].whole && EverRunning(events, i, j)
  {
    var s := Run(events);
    RunKeeps(events);
    assert Sourced(s, j) && DataFits(s.procs[i], i);
    if EverRunning(events, i, j) {
      EverRunningConcludes(events, i, j);
    } else {
      forall k | 0 <= k < |s.procs[j].out| ensures s.procs[j].out[k].origin != i {
        assert Got(s, j)[k] == s.procs[j].out[k];
        if s.procs[j].out[k].origin == i {
          GotNeedsSession(events, i, j);
        }
      }
      assert s.procs[j].out != [] ==> s.procs[j].out[0].origin != i;
    }
  }

  lemma SessionFinishes(events: seq<Event>, i: nat, j: nat)
    requires i < |Run(events).procs| && Rank(Run(events).procs[i].at) >= 11
    requires EverRunning(events, i, j) && CrashFree(events)
    ensures Run(events).procs[i].finished
  {
    EverRunningConcludes(events, i, j);
  }

  /** The writer was in a running session with some reader. */
  ghost predicate HadSession(events: seq<Event>, i: nat) {
    exists j: nat :: EverRunning(events, i, j)
  }

  /** In a run without any crash a writer with something to send has finished, once it is
      out of its loop, if and only if it was in a running session with some reader. */
  lemma FinishedExactly(events: seq<Event>, i: nat)
    requires i < |Run(events).procs| && Run(events).procs[i].role.Writer? && Run(events).procs[i].file != []
    requires Rank(Run(events).procs[i].at) >= 11 && CrashFree(events)
    ensures Run(events).procs[i].finished <==> HadSession(events, i)
  {
    if Run(events).procs[i].finished {
      var j := FinishedConcluded(events, i);
    }
    if HadSession(events, i) {
      var j: nat :| EverRunning(events, i, j);
      SessionFinishes(events, i, j);
    }
  }
}
