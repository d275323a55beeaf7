/** What holds in every run of the file transfer, for any number of readers and
    writers, whatever crashes and whatever is interleaved. */
module TransferTheorems {
  import opened Semaphores
  import opened Transfer
  import opened TransferInvariant
  import opened TransferSteps

  /** A writer between taking MEMORY and posting PRINT and a reader between taking PRINT
      and posting MEMORY never coexist. */
  lemma MutualExclusion(events: seq<Event>, i: nat, j: nat)
    requires IsPair(Run(events), i, j)
    ensures !(Inside(Run(events).procs[i]) && Inside(Run(events).procs[j]))
  {
    var s := Run(events);
    RunKeeps(events);
    assert Inside(s.procs[i]) && Inside(s.procs[j]) ==> TokenOk(s, s.procs[i], s.procs[j]);
  }

  /** While PAIR is 2 there is one writer and one reader in the loop, and MEMORY, PRINT,
      the writer inside and the reader inside add up to one token. */
  lemma OneToken(events: seq<Event>) returns (i: nat, j: nat)
    requires Run(events).sems.pair >= 2
    ensures var s := Run(events);
      && s.sems.pair == 2 && IsPair(s, i, j) && Paired(s.procs[i]) && Paired(s.procs[j])
      && s.sems.memory + s.sems.print_ + One(Inside(s.procs[i])) + One(Inside(s.procs[j])) == 1
      && forall k :: 0 <= k < |s.procs| && k != i && k != j ==> !Paired(s.procs[k])
  {
    var s := Run(events);
    RunKeeps(events);
    i, j := BothPaired(s);
    assert TokenOk(s, s.procs[i], s.procs[j]);
    forall k | 0 <= k < |s.procs| && k != i && k != j ensures !Paired(s.procs[k]) {
      assert SameRole(s, i, k) || SameRole(s, j, k);
    }
    PairIsTwo(s, i, j);
  }

  lemma {:induction false} TotalOfTwo(procs: seq<Proc>, id: SemId, i: nat, j: nat)
    requires i < j < |procs| && forall k :: 0 <= k < |procs| && k != i && k != j ==> Share(procs[k], id) == 0
    ensures Total(procs, id) == Share(procs[i], id) + Share(procs[j], id)
  {
    var n := |procs| - 1;
    assert forall k :: 0 <= k < n ==> procs[..n][k] == procs[k];
    if j == n {
      TotalOnly(procs[..n], id, i);
    } else {
      TotalOfTwo(procs[..n], id, i, j);
    }
  }

  lemma PairIsTwo(s: State, i: nat, j: nat)
    requires Sums(s) && Locals(s) && IsPair(s, i, j) && Paired(s.procs[i]) && Paired(s.procs[j])
    requires forall k :: 0 <= k < |s.procs| && k != i && k != j ==> !Paired(s.procs[k])
    ensures s.sems.pair == 2
  {
    forall k | 0 <= k < |s.procs| ensures Share(s.procs[k], PAIR) == (if Paired(s.procs[k]) then 1 else 0) {
      assert AdjustmentsFit(s.procs[k]);
    }
    TotalOfTwo(s.procs, PAIR, if i < j then i else j, if i < j then j else i);
  }

  /** Sessions never mix: everything a reader prints comes from one writer, and as long as
      its writes were whole it is the beginning of that writer's file. */
  lemma OutputIsPrefix(events: seq<Event>, j: nat)
    requires j < |Run(events).procs| && Run(events).procs[j].out != []
    ensures var (procs, out) := (Run(events).procs, Run(events).procs[j].out);
      && var i := out[0].origin;
      && i < |procs| && procs[i].role.Writer? && From(out, i)
      && (procs[j].whole ==> out <= procs[i].file)
  {
    var s := Run(events);
    RunKeeps(events);
    assert Sourced(s, j);
    var r := s.procs[j];
    var i := Got(s, j)[0].origin;
    assert r.out == Got(s, j)[..|r.out|];
    assert From(r.out, i);
    if r.whole {
      assert r.out == s.procs[i].file[..|Got(s, j)|][..|r.out|] == s.procs[i].file[..|r.out|];
    }
  }

  /** No writer's data goes to two readers. */
  lemma OneReaderPerWriter(events: seq<Event>, j: nat, k: nat, x: Byte, y: Byte)
    requires j < |Run(events).procs| && k < |Run(events).procs| && j != k
    requires x in Run(events).procs[j].out && y in Run(events).procs[k].out
    ensures x.origin != y.origin
  {
    var s := Run(events);
    RunKeeps(events);
    assert Sourced(s, j) && Sourced(s, k);
    var a :| 0 <= a < |s.procs[j].out| && s.procs[j].out[a] == x;
    var b :| 0 <= b < |s.procs[k].out| && s.procs[k].out[b] == y;
    assert Got(s, j)[a] == x && Got(s, k)[b] == y;
  }

  /** When a writer's read has returned 0, a reader still paired with it has printed the whole
      file, exactly if none of its writes was short. */
  lemma PairedReaderHasAll(events: seq<Event>, i: nat, j: nat)
    requires IsPair(Run(events), i, j) && Run(events).procs[i].at == PostFinish && Paired(Run(events).procs[j])
    ensures Run(events).procs[j].whole <==> Run(events).procs[j].out == Run(events).procs[i].file
  {
    var s := Run(events);
    RunKeeps(events);
    var w, r := s.procs[i], s.procs[j];
    assert TokenOk(s, w, r) && Stream(s, i, j) && DataFits(w, i);
    assert Flight(s, w, r) == [];
  }

  /** Whenever a writer gets MEMORY at its loop head, a paired reader has printed everything
      read so far; what that reader does or suffers later takes nothing back. */
  lemma MemoryMeansPrinted(events: seq<Event>, i: nat, n: nat) returns (j: nat)
    requires i < |Run(events).procs| && Run(events).procs[i].role.Writer? && Run(events).procs[i].at == Head
    requires Stepped(Run(events), i, n).procs[i].at == Read
    ensures IsPair(Run(events), i, j) && Paired(Run(events).procs[j]) && From(Run(events).procs[j].out, i)
    ensures var (w, r) := (Run(events).procs[i], Run(events).procs[j]);
      w.cursor <= |w.file| && (r.whole <==> r.out == w.file[..w.cursor])
  {
    var s := Run(events);
    RunKeeps(events);
    HeadOutcome(s.sems, s.procs[i].adj, s.procs[i].role);
    j := PartnerOf(s, i);
    NothingInFlight(s, i, j);
  }

  lemma NothingInFlight(s: State, i: nat, j: nat)
    requires Inv(s) && IsPair(s, i, j) && s.procs[i].at == Head && Paired(s.procs[j]) && s.sems.memory >= 1
    ensures From(s.procs[j].out, i) && s.procs[i].cursor <= |s.procs[i].file|
    ensures s.procs[j].whole <==> s.procs[j].out == s.procs[i].file[..s.procs[i].cursor]
  {
    var w, r := s.procs[i], s.procs[j];
    assert TokenOk(s, w, r) && Stream(s, i, j) && DataFits(w, i);
    assert Flight(s, w, r) == [];
  }

  /** WEXIST, REXIST, PAIR and FINISH are what the processes alive still have to undo. */
  lemma UndoAddsUp(events: seq<Event>, id: SemId)
    requires id != PRINT && id != MEMORY
    ensures Run(events).sems.Get(id) == Total(Run(events).procs, id)
    ensures 0 <= Run(events).sems.Get(id)
    ensures id != FINISH ==> Run(events).sems.Get(id) <= 2
  {
    var s := Run(events);
    RunKeeps(events);
    NobodyOwes(s);
    if |s.procs| > 0 {
      TotalAtLeast(s.procs, id, 0);
    }
    if id == PAIR {
      if s.sems.pair > 2 {
        var _, _ := OneToken(events);
      }
    } else if id == WEXIST || id == REXIST {
      if s.sems.Get(id) > 0 {
        var k := TotalFrom(s.procs, id);
        assert AdjustmentsFit(s.procs[k]);
        ExistIsShare(s, k);
      }
    }
  }

  /** PRINT and MEMORY are set only while nobody is paired. */
  lemma SetWhileUnpaired(events: seq<Event>, i: nat)
    requires i < |Run(events).procs| && Run(events).procs[i].at == SetVal
    ensures Run(events).sems.pair == 0
  {
    var s := Run(events);
    RunKeeps(events);
    assert Setup(s, i);
    forall k | 0 <= k < |s.procs| ensures Share(s.procs[k], PAIR) == 0 {
      assert AdjustmentsFit(s.procs[k]);
    }
    TotalNone(s.procs, PAIR);
  }

  /** The closing operations never block. */
  lemma LeavingIsImmediate(events: seq<Event>, i: nat, n: nat)
    requires i < |Run(events).procs| && Run(events).procs[i].at == Leave
    ensures Stepped(Run(events), i, n).procs[i].at == Lingering
  {
    RunKeeps(events);
    LeaveResult(Run(events), i);
  }

  /** With the partner gone, a process at the loop head does not wait. */
  lemma LonelyHeadLeaves(s: State, i: nat, n: nat)
    requires i < |s.procs| && s.procs[i].at == Head && s.sems.pair < 2
    ensures Stepped(s, i, n).procs[i].at == Leave
  {
    HeadOutcome(s.sems, s.procs[i].adj, s.procs[i].role);
  }

  /** A step is enabled when some number of bytes makes it change the process. */
  ghost predicate Enabled(s: State, i: nat)
    requires i < |s.procs|
  {
    exists n: nat :: Stepped(s, i, n).procs[i].at != s.procs[i].at
  }

  /** Of two partners in the loop, one can always go on. */
  lemma PairProgress(events: seq<Event>, i: nat, j: nat)
    requires IsPair(Run(events), i, j) && Paired(Run(events).procs[i]) && Paired(Run(events).procs[j])
    ensures Enabled(Run(events), i) || Enabled(Run(events), j)
  {
    RunKeeps(events);
    PairMoves(Run(events), i, j);
  }

  lemma PairMoves(s: State, i: nat, j: nat)
    requires Inv(s) && IsPair(s, i, j) && Paired(s.procs[i]) && Paired(s.procs[j])
    ensures Enabled(s, i) || Enabled(s, j)
  {
    hide Enabled;
    if s.procs[i].at != Head {
      LoopEnabled(s, i);
    } else if s.procs[j].at != Head {
      LoopEnabled(s, j);
    } else {
      assert TokenOk(s, s.procs[i], s.procs[j]);
      if s.sems.memory == 1 {
        HeadEnabled(s, i);
      } else {
        HeadEnabled(s, j);
      }
    }
  }

  /** In its loop and not at its head a process never waits. */
  lemma LoopEnabled(s: State, i: nat)
    requires Inv(s) && i < |s.procs| && Paired(s.procs[i]) && s.procs[i].at != Head
    ensures Enabled(s, i)
  {
    hide Enabled;
    assert DataFits(s.procs[i], i);
    if s.procs[i].at == Leave {
      LeaveEnabled(s, i);
    } else {
      InsideEnabled(s, i);
    }
  }

  lemma LeaveEnabled(s: State, i: nat)
    requires Inv(s) && i < |s.procs| && s.procs[i].at == Leave
    ensures Enabled(s, i)
  {
    LeaveResult(s, i);
    MovesAway(s, i, 0);
  }

  lemma MovesAway(s: State, i: nat, n: nat)
    requires i < |s.procs| && i < |Stepped(s, i, n).procs| && Stepped(s, i, n).procs[i].at != s.procs[i].at
    ensures Enabled(s, i)
  {
  }

  lemma HeadEnabled(s: State, i: nat)
    requires i < |s.procs| && s.procs[i].at == Head && s.sems.Get(Token(Other(s.procs[i].role))) >= 1
    ensures Enabled(s, i)
  {
    HeadOutcome(s.sems, s.procs[i].adj, s.procs[i].role);
    MovesAway(s, i, 0);
  }

  lemma InsideEnabled(s: State, i: nat)
    requires Inv(s) && i < |s.procs| && Inside(s.procs[i])
    ensures Enabled(s, i)
  {
    var p := s.procs[i];
    assert AdjustmentsFit(p) && DataFits(p, i);
    var left := |p.file| - p.cursor;
    var n: nat := if p.at == Read then (if left <= PAGESIZE then left else PAGESIZE) else 0;
    if p.at == Post {
      PostOutcome(s.sems, p.adj, p.role);
    } else if p.at == PostFinish {
      NobodyOwes(s);
      TotalAtLeast(s.procs, FINISH, i);
      PostFinishOutcome(s.sems, p.adj);
    }
    MovesAway(s, i, n);
  }

  // ---------- No system-wide deadlock ----------

  /** Neither past its closing operations nor gone. */
  ghost predicate Live(p: Proc) {
    Rank(p.at) <= 11
  }

  /** While somebody of a role is live, somebody live of that role can move or is past the entry. */
  lemma SomebodyIn(s: State, i: nat) returns (k: nat)
    requires Inv(s) && i < |s.procs| && Live(s.procs[i])
    ensures k < |s.procs| && s.procs[k].role == s.procs[i].role && Live(s.procs[k])
    ensures Active(s.procs[k]) || Enabled(s, k)
  {
    hide Total;
    var e := Exist(s.procs[i].role);
    NobodyOwes(s);
    SumOf(s, e);
    TotalAtLeast(s.procs, e, i);
    if s.sems.Get(e) == 0 {
      k := i;
      assert AdjustmentsFit(s.procs[i]);
      if s.procs[i].at == Enter {
        EnterOutcome(s.sems, s.procs[i].adj, s.procs[i].role);
        MovesAway(s, i, 0);
      }
    } else {
      k := TotalFrom(s.procs, e);
      assert AdjustmentsFit(s.procs[k]);
    }
  }

  /** A token that was just set can be taken. */
  lemma TakeEnabled(s: State, i: nat)
    requires Inv(s) && i < |s.procs| && s.procs[i].at == Take
    ensures Enabled(s, i)
  {
    assert Setup(s, i);
    ExistIsShare(s, i);
    TakeOutcome(s.sems, s.procs[i].adj, s.procs[i].role);
    MovesAway(s, i, 0);
  }

  lemma SetValEnabled(s: State, i: nat)
    requires i < |s.procs| && s.procs[i].at == SetVal
    ensures Enabled(s, i)
  {
    MovesAway(s, i, 0);
  }

  lemma JoinEnabled(s: State, i: nat, j: nat)
    requires Inv(s) && i < |s.procs| && s.procs[i].at == Join
    requires j < |s.procs| && Ready(s.procs[j]) && s.procs[j].role == Other(s.procs[i].role)
    ensures Enabled(s, i)
  {
    ExistIsShare(s, j);
    JoinResult(s, i);
    MovesAway(s, i, 0);
  }

  lemma AwaitEnabled(s: State, i: nat)
    requires i < |s.procs| && s.procs[i].at == AwaitUnpaired && s.sems.pair == 0
    ensures Enabled(s, i)
  {
    AwaitOutcome(s.sems, s.procs[i].adj);
    MovesAway(s, i, 0);
  }

  lemma LonelyEnabled(s: State, i: nat)
    requires i < |s.procs| && s.procs[i].at == Head && s.sems.pair < 2
    ensures Enabled(s, i)
  {
    LonelyHeadLeaves(s, i, 0);
    MovesAway(s, i, 0);
  }

  /** Of an active writer and an active reader only one is paired: PAIR is 1; none is: 0. */
  lemma PairOfActive(s: State, i: nat, j: nat)
    requires Inv(s) && i < |s.procs| && j < |s.procs| && s.procs[j].role == Other(s.procs[i].role)
    requires Active(s.procs[i]) && Active(s.procs[j]) && !Paired(s.procs[j])
    ensures s.sems.pair == One(Paired(s.procs[i]))
  {
    forall k | 0 <= k < |s.procs| && k != i ensures Share(s.procs[k], PAIR) == 0 {
      assert AdjustmentsFit(s.procs[k]);
      assert k != j ==> SameRole(s, i, k) || SameRole(s, j, k);
    }
    assert AdjustmentsFit(s.procs[i]);
    TotalOnly(s.procs, PAIR, i);
  }

  /** j waits for PAIR or to join; the other one is where it waits, too. */
  lemma OneOfTwoMoves(s: State, i: nat, j: nat)
    requires Inv(s) && i < |s.procs| && j < |s.procs| && s.procs[j].role == Other(s.procs[i].role)
    requires Active(s.procs[i]) && Active(s.procs[j]) && !Paired(s.procs[j])
    ensures Enabled(s, i) || Enabled(s, j)
  {
    hide Enabled;
    PairOfActive(s, i, j);
    if s.procs[j].at == SetVal {
      SetValEnabled(s, j);
    } else if s.procs[j].at == Take {
      TakeEnabled(s, j);
    } else if s.procs[i].at == SetVal {
      SetValEnabled(s, i);
    } else if s.procs[i].at == Take {
      TakeEnabled(s, i);
    } else if s.procs[i].at == Head {
      LonelyEnabled(s, i);
    } else if Paired(s.procs[i]) {
      LoopEnabled(s, i);
    } else if s.procs[j].at == AwaitUnpaired {
      AwaitEnabled(s, j);
    } else if s.procs[i].at == AwaitUnpaired {
      AwaitEnabled(s, i);
    } else {
      JoinEnabled(s, i, j);
    }
  }

  /** As long as a writer and a reader are live, some live process can move, wherever the
      two are and whatever else was started or has crashed. */
  lemma SystemProgress(events: seq<Event>, w: nat, r: nat) returns (k: nat)
    requires IsPair(Run(events), w, r) && Live(Run(events).procs[w]) && Live(Run(events).procs[r])
    ensures k < |Run(events).procs| && Live(Run(events).procs[k]) && Enabled(Run(events), k)
  {
    RunKeeps(events);
    k := SomebodyMoves(Run(events), w, r);
  }

  lemma SomebodyMoves(s: State, w: nat, r: nat) returns (k: nat)
    requires Inv(s) && IsPair(s, w, r) && Live(s.procs[w]) && Live(s.procs[r])
    ensures k < |s.procs| && Live(s.procs[k]) && Enabled(s, k)
  {
    hide Enabled;
    var i := SomebodyIn(s, w);
    var j := SomebodyIn(s, r);
    if Active(s.procs[i]) && Active(s.procs[j]) {
      if !Paired(s.procs[j]) {
        OneOfTwoMoves(s, i, j);
      } else if !Paired(s.procs[i]) {
        OneOfTwoMoves(s, j, i);
      } else {
        PairMoves(s, i, j);
      }
      if Enabled(s, i) {
        k := i;
      } else {
        k := j;
      }
    } else if Active(s.procs[i]) {
      k := j;
    } else {
      k := i;
    }
  }
}
