/** What crashes and short writes cost. A short write drops the tail of one block and changes
    nothing else; a crash loses at most the one block on its way. */
module TransferLosses {
  import opened Semaphores
  import opened Transfer
  import opened TransferInvariant
  import opened TransferSteps
  import opened TransferTheorems
  import opened TransferSession
  import opened TransferCondition

  // ---------- Blocks are small ----------

  ghost predicate SmallBlocks(s: State) {
    |s.shm| <= PAGESIZE && forall i :: 0 <= i < |s.procs| ==> |s.procs[i].buffer| <= PAGESIZE
  }

  /** A semop call moves no data. */
  lemma SemopMovesNothing(s: State, i: nat)
    requires i < |s.procs|
    ensures var t := SemopStep(s, i);
      && |t.procs| == |s.procs| && t.shm == s.shm && t.procs == s.procs[i := t.procs[i]]
      && t.procs[i] == s.procs[i].(at := t.procs[i].at, adj := t.procs[i].adj, finished := t.procs[i].finished)
  {
  }

  lemma SmallStepped(s: State, i: nat, n: nat)
    requires SmallBlocks(s) && i < |s.procs|
    ensures SmallBlocks(Stepped(s, i, n))
  {
    hide SemopStep;
    SemopMovesNothing(s, i);
  }

  lemma {:induction false} SmallRun(events: seq<Event>)
    ensures SmallBlocks(Run(events))
  {
    hide Stepped, Exit;
    if events == [] {
    } else {
      var n := |events| - 1;
      var s := Run(events[..n]);
      SmallRun(events[..n]);
      if events[n].Step? && events[n].pid < |s.procs| {
        SmallStepped(s, events[n].pid, events[n].n);
      } else if events[n].Crash? && events[n].pid < |s.procs| {
        SmallExit(s, events[n].pid);
      }
    }
  }

  lemma SmallExit(s: State, i: nat)
    requires SmallBlocks(s) && i < |s.procs|
    ensures SmallBlocks(Exit(s, i))
  {
  }

  // ---------- Two that met have nobody else ----------

  /** Has raised PAIR at some time. */
  ghost predicate Joined(p: Proc) {
    Rank(p.at) >= 5
  }

  /** As long as process a holds PAIR up, nobody but b comes in beside it. */
  ghost predicate Alone(s: State, a: nat, b: nat) {
    && a < |s.procs| && b < |s.procs| && Joined(s.procs[a])
    && (Paired(s.procs[a]) ==>
          forall k :: SameRole(s, b, k) && k != b ==> !(2 <= Rank(s.procs[k].at) <= 11))
  }

  lemma RunningAlone(s: State, i: nat, j: nat)
    requires OnePerRole(s) && Running(s, i, j)
    ensures Alone(s, i, j) && Alone(s, j, i)
  {
  }

  lemma JoinedStays(s: State, e: Event, m: nat)
    requires m < |s.procs| && Joined(s.procs[m])
    ensures m < |Apply(s, e).procs| && Joined(Apply(s, e).procs[m])
    ensures Paired(Apply(s, e).procs[m]) ==> Paired(s.procs[m])
    ensures Apply(s, e).procs[m].role == s.procs[m].role
  {
    if !ActsOn(e, m) {
      OnlyActs(s, e, m);
    } else if e.Step? {
      JoinedStepped(s, m, e.n);
    }
  }

  lemma JoinedStepped(s: State, m: nat, n: nat)
    requires m < |s.procs| && Joined(s.procs[m])
    ensures m < |Stepped(s, m, n).procs| && Joined(Stepped(s, m, n).procs[m])
    ensures Paired(Stepped(s, m, n).procs[m]) ==> Paired(s.procs[m])
    ensures Stepped(s, m, n).procs[m].role == s.procs[m].role
  {
  }

  /** Nobody passes the wait for PAIR at 0 while somebody is paired. */
  lemma WaitsOutside(s: State, a: nat, k: nat, n: nat)
    requires Inv(s) && a < |s.procs| && Paired(s.procs[a]) && k < |s.procs|
    requires !(2 <= Rank(s.procs[k].at) <= 11)
    ensures k < |Stepped(s, k, n).procs| && !(2 <= Rank(Stepped(s, k, n).procs[k].at) <= 11)
  {
    if s.procs[k].at == AwaitUnpaired {
      NotUnpaired(s, a, k, n);
    }
  }

  lemma OutsideStays(s: State, e: Event, a: nat, k: nat)
    requires Inv(s) && a < |s.procs| && Paired(s.procs[a]) && k < |Apply(s, e).procs|
    requires k < |s.procs| ==> !(2 <= Rank(s.procs[k].at) <= 11)
    ensures !(2 <= Rank(Apply(s, e).procs[k].at) <= 11)
  {
    hide Stepped, Inv;
    if 2 <= Rank(Apply(s, e).procs[k].at) <= 11 {
      NotNew(s, e, k);
      if !ActsOn(e, k) {
        OnlyActs(s, e, k);
      } else if e.Step? {
        WaitsOutside(s, a, k, e.n);
      }
    }
  }

  lemma AloneStays(s: State, e: Event, a: nat, b: nat)
    requires Inv(s) && Alone(s, a, b) && Joined(s.procs[b])
    ensures Alone(Apply(s, e), a, b)
  {
    hide Apply, Inv;
    var t := Apply(s, e);
    JoinedStays(s, e, a);
    JoinedStays(s, e, b);
    if Paired(t.procs[a]) {
      forall k | SameRole(t, b, k) && k != b ensures !(2 <= Rank(t.procs[k].at) <= 11) {
        if k < |s.procs| {
          RoleStays(s, e, k);
          assert SameRole(s, b, k);
        }
        OutsideStays(s, e, a, k);
      }
    }
  }

  lemma RoleStays(s: State, e: Event, k: nat)
    requires k < |s.procs|
    ensures k < |Apply(s, e).procs| && Apply(s, e).procs[k].role == s.procs[k].role
  {
    if !ActsOn(e, k) {
      OnlyActs(s, e, k);
    } else if e.Step? {
      SelfKept(s, k, e.n);
    }
  }

  // ---------- A crash loses at most one block ----------

  /** How far the writer can be ahead of what a reader has printed without a short write. */
  ghost predicate Near(s: State, i: nat, j: nat)
    requires i < |s.procs| && j < |s.procs|
  {
    s.procs[j].whole ==>
      && s.procs[i].cursor <= |s.procs[j].out| + PAGESIZE
      && (s.procs[i].at == Read ==> s.procs[i].cursor <= |s.procs[j].out|)
  }

  /** While both are paired, only what is in flight is not printed. */
  lemma PairedNear(s: State, i: nat, j: nat)
    requires Inv(s) && SmallBlocks(s) && IsPair(s, i, j) && Paired(s.procs[i]) && Paired(s.procs[j])
    ensures Near(s, i, j)
  {
    assert Stream(s, i, j) && TokenOk(s, s.procs[i], s.procs[j]);
    FlightIsSmall(s, i, j);
    FlightAtRead(s, i, j);
  }

  lemma FlightIsSmall(s: State, i: nat, j: nat)
    requires SmallBlocks(s) && i < |s.procs| && j < |s.procs|
    ensures |Flight(s, s.procs[i], s.procs[j])| <= PAGESIZE
  {
  }

  lemma FlightAtRead(s: State, i: nat, j: nat)
    requires i < |s.procs| && j < |s.procs| && TokenOk(s, s.procs[i], s.procs[j])
    requires s.sems.print_ >= 0 && s.sems.memory >= 0
    ensures s.procs[i].at == Read ==> Flight(s, s.procs[i], s.procs[j]) == []
  {
  }

  /** The two have met, nobody else comes between them, and no more than a block is missing. */
  ghost predicate Behind(s: State, i: nat, j: nat) {
    IsPair(s, i, j) && Alone(s, i, j) && Alone(s, j, i) && From(Got(s, j), i) && Near(s, i, j)
  }

  lemma RunningBehind(s: State, i: nat, j: nat)
    requires Inv(s) && SmallBlocks(s) && Running(s, i, j)
    ensures Behind(s, i, j)
  {
    RunningAlone(s, i, j);
    PairedNear(s, i, j);
    RunningFrom(s, i, j);
  }

  lemma RunningFrom(s: State, i: nat, j: nat)
    requires Inv(s) && Running(s, i, j)
    ensures From(Got(s, j), i)
  {
    RunningFacts(s, i, j);
    if s.procs[j].at == Copy || s.procs[j].at == Print {
      assert Flight(s, s.procs[i], s.procs[j]) == Holding(s, s.procs[j]);
    }
  }

  /** A block is taken only from the partner. */
  lemma TakenFromPartner(events: seq<Event>, e: Event, i: nat, j: nat)
    requires IsPair(Run(events), i, j) && Alone(Run(events), j, i) && Takes(Run(events), e, j)
    ensures From(Got(Apply(Run(events), e), j), i)
  {
    hide Apply, Inv, Got;
    var s := Run(events);
    var k := TakingMeansRunning(events, e, j);
    assert k == i by {
      assert k != i ==> SameRole(s, i, k);
    }
    RunKeeps(events + [e]);
    RunLast(events + [e], events, e);
    FromFirst(Apply(s, e), j);
  }

  lemma FromFirst(s: State, j: nat)
    requires Inv(s) && j < |s.procs| && Got(s, j) != []
    ensures From(Got(s, j), Got(s, j)[0].origin)
  {
    assert Sourced(s, j);
  }

  lemma GotStaysFrom(events: seq<Event>, e: Event, i: nat, j: nat)
    requires Behind(Run(events), i, j)
    ensures j < |Apply(Run(events), e).procs| && From(Got(Apply(Run(events), e), j), i)
  {
    hide Apply, Got;
    RunKeeps(events);
    RoleStays(Run(events), e, j);
    if Takes(Run(events), e, j) {
      TakenFromPartner(events, e, i, j);
    } else {
      GotFirstKept(Run(events), e, j);
    }
  }

  /** What a step of the writer does to its cursor. */
  lemma CursorStepped(s: State, i: nat, n: nat)
    requires i < |s.procs| && s.procs[i].role.Writer? && Joined(s.procs[i]) && s.procs[i].at != Print
    ensures i < |Stepped(s, i, n).procs|
    ensures var (p, q) := (s.procs[i], Stepped(s, i, n).procs[i]);
      && (q == p || q.at == Read || q.cursor <= p.cursor || p.at == Read)
      && q.cursor <= p.cursor + (if p.at == Read && q != p then PAGESIZE else 0)
      && (q.at == Read ==> q.cursor == p.cursor && (p.at == Read || (p.at == Head && s.sems.pair >= 2)))
  {
    if s.procs[i].at == Head {
      HeadOutcome(s.sems, s.procs[i].adj, s.procs[i].role);
    }
  }

  /** What a reader has printed only grows, and once short it stays so. */
  lemma OutGrows(s: State, e: Event, j: nat)
    requires j < |s.procs|
    ensures j < |Apply(s, e).procs| && |s.procs[j].out| <= |Apply(s, e).procs[j].out|
    ensures Apply(s, e).procs[j].whole ==> s.procs[j].whole
  {
    hide Stepped;
    if !ActsOn(e, j) {
      OnlyActs(s, e, j);
    } else if e.Step? {
      OutGrowsStepped(s, j, e.n);
    }
  }

  lemma OutGrowsStepped(s: State, j: nat, n: nat)
    requires j < |s.procs|
    ensures j < |Stepped(s, j, n).procs| && |s.procs[j].out| <= |Stepped(s, j, n).procs[j].out|
    ensures Stepped(s, j, n).procs[j].whole ==> s.procs[j].whole
  {
    hide SemopStep;
    SemopMovesNothing(s, j);
  }

  /** A writer that gets on to read has its partner still beside it. */
  lemma PartnerIsThere(s: State, i: nat, j: nat)
    requires Inv(s) && IsPair(s, i, j) && Alone(s, i, j) && Paired(s.procs[i]) && s.sems.pair >= 2
    ensures Paired(s.procs[j])
  {
    var k := PartnersPaired(s, i);
    assert k != j ==> SameRole(s, j, k);
  }

  lemma NearStays(s: State, e: Event, i: nat, j: nat)
    requires Inv(s) && Inv(Apply(s, e)) && SmallBlocks(Apply(s, e))
    requires IsPair(s, i, j) && Alone(s, i, j) && Near(s, i, j) && IsPair(Apply(s, e), i, j)
    ensures Near(Apply(s, e), i, j)
  {
    hide Inv, Apply, SmallBlocks;
    var t := Apply(s, e);
    OutGrows(s, e, j);
    if Paired(t.procs[i]) && Paired(t.procs[j]) {
      PairedNear(t, i, j);
    } else if !ActsOn(e, i) {
      OnlyActs(s, e, i);
    } else {
      WriterNear(s, e, i, j);
    }
  }

  lemma WriterNear(s: State, e: Event, i: nat, j: nat)
    requires Inv(s) && IsPair(s, i, j) && Alone(s, i, j) && Near(s, i, j) && ActsOn(e, i)
    requires IsPair(Apply(s, e), i, j) && !(Paired(Apply(s, e).procs[i]) && Paired(Apply(s, e).procs[j]))
    ensures Near(Apply(s, e), i, j)
  {
    hide Stepped;
    OnlyActs(s, e, j);
    assert DataFits(s.procs[i], i);
    hide Inv;
    if e.Step? {
      StepIsApplied(s, e);
      CursorStepped(s, i, e.n);
      if s.procs[i].at == Head && s.sems.pair >= 2 {
        PartnerIsThere(s, i, j);
      }
    }
  }

  lemma BehindStays(events: seq<Event>, e: Event, i: nat, j: nat)
    requires Behind(Run(events), i, j)
    ensures Behind(Apply(Run(events), e), i, j)
  {
    hide Apply, Near, Inv, Alone, SmallBlocks;
    var s, all := Run(events), events + [e];
    RunLast(all, events, e);
    hide Run;
    RunKeeps(events);
    RunKeeps(all);
    SmallRun(all);
    RoleStays(s, e, i);
    RoleStays(s, e, j);
    BothJoined(s, i, j);
    AloneStays(s, e, i, j);
    AloneStays(s, e, j, i);
    GotStaysFrom(events, e, i, j);
    NearStays(s, e, i, j);
  }

  lemma BothJoined(s: State, i: nat, j: nat)
    requires Alone(s, i, j) && Alone(s, j, i)
    ensures Joined(s.procs[i]) && Joined(s.procs[j])
  {
  }

  lemma {:induction false} MetIsBehind(events: seq<Event>, i: nat, j: nat)
    requires EverRunning(events, i, j)
    ensures Behind(Run(events), i, j)
  {
    hide Apply, Behind;
    if Running(Run(events), i, j) {
      RunKeeps(events);
      SmallRun(events);
      RunningBehind(Run(events), i, j);
    } else {
      var n := |events| - 1;
      MetIsBehind(events[..n], i, j);
      BehindStays(events[..n], events[n], i, j);
    }
  }

  /** Once a writer and a reader have met, whatever crashes when: without a short write the
      reader has printed the beginning of the file, all that was read of it but at most one
      block. */
  lemma CrashLosesOneBlock(events: seq<Event>, i: nat, j: nat)
    requires EverRunning(events, i, j) && j < |Run(events).procs| && Run(events).procs[j].whole
    ensures IsPair(Run(events), i, j) && Run(events).procs[j].out <= Run(events).procs[i].file
    ensures Run(events).procs[i].cursor <= |Run(events).procs[j].out| + PAGESIZE
  {
    MetIsBehind(events, i, j);
    if Run(events).procs[j].out != [] {
      OutputIsPrefix(events, j);
      assert Got(Run(events), j)[0] == Run(events).procs[j].out[0];
    }
  }

  // ---------- The writes of a reader ----------

  /** A write: the block the reader held, and how many bytes of it were written. */
  datatype Write = Write(block: seq<Byte>, n: nat)

  ghost predicate Prints(s: State, e: Event, j: nat) {
    && e.Step? && e.pid == j < |s.procs| && s.procs[j].at == Print && e.n <= |s.procs[j].buffer|
  }

  /** The writes that reader j has made in the run, in their order. */
  ghost function WritesOf(events: seq<Event>, j: nat): seq<Write> {
    if events == [] then [] else
      var n := |events| - 1;
      var s := Run(events[..n]);
      if Prints(s, events[n], j) then WritesOf(events[..n], j) + [Write(s.procs[j].buffer, events[n].n)]
      else WritesOf(events[..n], j)
  }

  /** Every block is one, and not more of it is written than there is. */
  ghost predicate Possible(writes: seq<Write>) {
    forall k :: 0 <= k < |writes| ==> 0 < |writes[k].block| <= PAGESIZE && writes[k].n <= |writes[k].block|
  }

  /** What was written: of every block its first n bytes. */
  ghost function Written(writes: seq<Write>): seq<Byte>
    requires Possible(writes)
  {
    if writes == [] then [] else
      var w := writes[|writes| - 1];
      Written(writes[..|writes| - 1]) + w.block[..w.n]
  }

  ghost function Blocks(writes: seq<Write>): seq<Byte> {
    if writes == [] then [] else Blocks(writes[..|writes| - 1]) + writes[|writes| - 1].block
  }

  /** How many bytes short writes have left out. */
  ghost function Dropped(writes: seq<Write>): nat
    requires Possible(writes)
  {
    if writes == [] then 0 else
      var w := writes[|writes| - 1];
      Dropped(writes[..|writes| - 1]) + (|w.block| - w.n)
  }

  ghost predicate AllWhole(writes: seq<Write>) {
    forall k :: 0 <= k < |writes| ==> writes[k].n == |writes[k].block|
  }

  lemma {:induction false} DroppedIsRest(writes: seq<Write>)
    requires Possible(writes)
    ensures |Written(writes)| + Dropped(writes) == |Blocks(writes)|
    ensures Dropped(writes) == 0 <==> AllWhole(writes)
    ensures AllWhole(writes) <==> Written(writes) == Blocks(writes)
  {
    if writes == [] {
    } else {
      var n := |writes| - 1;
      DroppedIsRest(writes[..n]);
      assert AllWhole(writes) <==> AllWhole(writes[..n]) && writes[n].n == |writes[n].block|;
    }
  }

  lemma OneWriteMore(writes: seq<Write>, w: Write)
    requires Possible(writes) && w.n <= |w.block|
    ensures Blocks(writes + [w]) == Blocks(writes) + w.block
    ensures Possible(writes + [w]) ==> Written(writes + [w]) == Written(writes) + w.block[..w.n]
  {
    assert (writes + [w])[..|writes|] == writes;
  }

  lemma HeldBlock(s: State, i: nat)
    requires Inv(s) && SmallBlocks(s) && i < |s.procs| && s.procs[i].at == Print
    ensures 0 < |s.procs[i].buffer| <= PAGESIZE
  {
    assert Sourced(s, i) && DataFits(s.procs[i], i);
  }

  lemma {:induction false} WritesArePossible(events: seq<Event>, j: nat)
    ensures Possible(WritesOf(events, j))
  {
    hide Inv;
    if events == [] {
    } else {
      var n := |events| - 1;
      WritesArePossible(events[..n], j);
      if Prints(Run(events[..n]), events[n], j) {
        RunKeeps(events[..n]);
        SmallRun(events[..n]);
        HeldBlock(Run(events[..n]), j);
      }
    }
  }

  /** Only a write adds to an output, and just what it writes. */
  lemma OutputStep(s: State, e: Event, j: nat)
    requires j < |Apply(s, e).procs|
    ensures j >= |s.procs| ==> Apply(s, e).procs[j].out == []
    ensures j < |s.procs| ==>
      Apply(s, e).procs[j].out
      == s.procs[j].out + (if Prints(s, e, j) then s.procs[j].buffer[..e.n] else [])
  {
    hide SemopStep;
    if j < |s.procs| && !ActsOn(e, j) {
      OnlyActs(s, e, j);
    } else if e.Step? && e.pid < |s.procs| {
      SelfKept(s, e.pid, e.n);
      SemopMovesNothing(s, e.pid);
    }
  }

  /** Who has not been started has written nothing. */
  lemma {:induction false} NoWritesYet(events: seq<Event>, j: nat)
    requires j >= |Run(events).procs|
    ensures WritesOf(events, j) == []
  {
    hide Apply;
    if events == [] {
    } else {
      var n := |events| - 1;
      NobodyRemoved(Run(events[..n]), events[n]);
      NoWritesYet(events[..n], j);
    }
  }

  lemma NobodyRemoved(s: State, e: Event)
    ensures |s.procs| <= |Apply(s, e).procs|
  {
    if e.Step? && e.pid < |s.procs| {
      SelfKept(s, e.pid, e.n);
    }
  }

  /** An output is what the writes have written, of every block its beginning. */
  lemma {:induction false} OutputIsWritten(events: seq<Event>, j: nat)
    requires j < |Run(events).procs|
    ensures Possible(WritesOf(events, j)) && Run(events).procs[j].out == Written(WritesOf(events, j))
  {
    hide Apply;
    WritesArePossible(events, j);
    if events == [] {
    } else {
      var n := |events| - 1;
      OutputStep(Run(events[..n]), events[n], j);
      if j < |Run(events[..n]).procs| {
        OutputIsWritten(events[..n], j);
        if Prints(Run(events[..n]), events[n], j) {
          OneWriteMore(WritesOf(events[..n], j), Write(Run(events[..n]).procs[j].buffer, events[n].n));
        }
      } else {
        NoWritesYet(events[..n], j);
      }
    }
  }

  // ---------- A short write changes nothing but the output ----------

  /** The same event with a write that is whole. */
  ghost function Whole(s: State, e: Event): Event {
    if e.Step? && e.pid < |s.procs| && s.procs[e.pid].at == Print && e.n <= |s.procs[e.pid].buffer|
    then Step(e.pid, |s.procs[e.pid].buffer|) else e
  }

  /** The same run with all writes whole. */
  ghost function Unshortened(events: seq<Event>): (all: seq<Event>)
    ensures |all| == |events|
  {
    if events == [] then [] else
      var n := |events| - 1;
      Unshortened(events[..n]) + [Whole(Run(events[..n]), events[n])]
  }

  /** q is p but for its output, which is the same exactly if no write of p was short. */
  ghost predicate Alike(p: Proc, q: Proc) {
    && q == p.(out := q.out, whole := true)
    && (if p.whole then p.out == q.out else |p.out| < |q.out|)
  }

  ghost predicate AllAlike(s: State, t: State) {
    && s.sems == t.sems && s.shm == t.shm && |s.procs| == |t.procs|
    && forall i :: 0 <= i < |s.procs| ==> Alike(s.procs[i], t.procs[i])
  }

  /** No step but a print looks at outputs or changes them. */
  lemma StepsAlike(s: State, t: State, i: nat, n: nat)
    requires AllAlike(s, t) && i < |s.procs| && s.procs[i].at != Print
    ensures AllAlike(Stepped(s, i, n), Stepped(t, i, n))
  {
    hide SemopStep;
    assert Alike(s.procs[i], t.procs[i]);
    if s.procs[i].at == SetVal {
      SetsAlike(s, t, i, n);
    } else {
      SemopsAlike(s, t, i);
      hide Alike;
    }
  }

  lemma SemopsAlike(s: State, t: State, i: nat)
    requires AllAlike(s, t) && i < |s.procs|
    ensures AllAlike(SemopStep(s, i), SemopStep(t, i))
  {
    hide Semop;
    assert Alike(s.procs[i], t.procs[i]);
  }

  lemma SetsAlike(s: State, t: State, i: nat, n: nat)
    requires AllAlike(s, t) && i < |s.procs| && s.procs[i].at == SetVal
    ensures AllAlike(Stepped(s, i, n), Stepped(t, i, n))
  {
    forall k | 0 <= k < |s.procs| ensures Alike(Stepped(s, i, n).procs[k], Stepped(t, i, n).procs[k]) {
      assert Alike(s.procs[k], t.procs[k]);
    }
  }

  lemma PrintsAlike(s: State, t: State, i: nat, n: nat)
    requires AllAlike(s, t) && i < |s.procs| && s.procs[i].at == Print
    requires n <= |s.procs[i].buffer| && 0 < |s.procs[i].buffer| <= PAGESIZE
    ensures AllAlike(Stepped(s, i, n), Stepped(t, i, |s.procs[i].buffer|))
  {
    var p, q := s.procs[i], t.procs[i];
    assert Alike(p, q);
    assert p.buffer[..|p.buffer|] == p.buffer;
    assert Alike(Stepped(s, i, n).procs[i], Stepped(t, i, |p.buffer|).procs[i]);
  }

  lemma CrashAlike(s: State, t: State, i: nat)
    requires AllAlike(s, t) && i < |s.procs|
    ensures AllAlike(Exit(s, i), Exit(t, i))
  {
    assert Alike(s.procs[i], t.procs[i]);
  }

  lemma EventAlike(s: State, t: State, e: Event)
    requires Inv(s) && SmallBlocks(s) && AllAlike(s, t)
    ensures AllAlike(Apply(s, e), Apply(t, Whole(s, e)))
  {
    hide Stepped, Exit, Inv, SmallBlocks;
    match e
    case Start(role, file) =>
    case Step(i, n) =>
      if i < |s.procs| {
        if s.procs[i].at == Print && n <= |s.procs[i].buffer| {
          HeldBlock(s, i);
          PrintsAlike(s, t, i, n);
        } else if s.procs[i].at == Print {
          PrintsNothing(s, i, n);
          PrintsNothing(t, i, n);
        } else {
          StepsAlike(s, t, i, n);
        }
      }
    case Crash(i) =>
      if i < |s.procs| {
        CrashAlike(s, t, i);
      }
  }

  lemma PrintsNothing(s: State, i: nat, n: nat)
    requires i < |s.procs| && s.procs[i].at == Print && n > |s.procs[i].buffer|
    ensures Stepped(s, i, n) == s
  {
  }

  /** Short writes change nothing but what is printed. */
  lemma {:induction false} RunsAlike(events: seq<Event>)
    ensures AllAlike(Run(events), Run(Unshortened(events)))
  {
    hide Apply, Alike;
    if events == [] {
    } else {
      var n := |events| - 1;
      var s, front := Run(events[..n]), Unshortened(events[..n]);
      RunsAlike(events[..n]);
      RunKeeps(events[..n]);
      SmallRun(events[..n]);
      EventAlike(s, Run(front), Whole(s, events[n]));
      EventAlike(s, Run(front), events[n]);
      RunLast(Unshortened(events), front, Whole(s, events[n]));
    }
  }

  /** What a reader would have printed without a short write. */
  ghost function Unshort(events: seq<Event>, j: nat): seq<Byte>
    requires j < |Run(Unshortened(events)).procs|
  {
    Run(Unshortened(events)).procs[j].out
  }

  /** With whole writes the output is all blocks, one after the other. */
  lemma {:induction false} UnshortIsBlocks(events: seq<Event>, j: nat)
    requires j < |Run(events).procs|
    ensures j < |Run(Unshortened(events)).procs| && Unshort(events, j) == Blocks(WritesOf(events, j))
  {
    hide Apply, Alike;
    RunsAlike(events);
    if events == [] {
    } else {
      var n := |events| - 1;
      var s, t, e := Run(events[..n]), Run(Unshortened(events[..n])), Whole(Run(events[..n]), events[n]);
      RunsAlike(events[..n]);
      RunLast(Unshortened(events), Unshortened(events[..n]), e);
      OutputStep(t, e, j);
      if j < |s.procs| {
        UnshortIsBlocks(events[..n], j);
        WholeBlock(s, t, events[n], j);
        WritesArePossible(events[..n], j);
        if Prints(s, events[n], j) {
          OneWriteMore(WritesOf(events[..n], j), Write(s.procs[j].buffer, events[n].n));
        }
      } else {
        NoWritesYet(events[..n], j);
      }
    }
  }

  lemma WholeBlock(s: State, t: State, e: Event, j: nat)
    requires AllAlike(s, t) && j < |s.procs|
    ensures Prints(s, e, j) <==> Prints(t, Whole(s, e), j)
    ensures Prints(s, e, j) ==> t.procs[j].buffer[..Whole(s, e).n] == s.procs[j].buffer
  {
    assert Alike(s.procs[j], t.procs[j]);
    if e.Step? && e.pid < |s.procs| {
      assert Alike(s.procs[e.pid], t.procs[e.pid]);
    }
  }

  /** In every run the blocks a reader has held are, one after the other, the beginning of one
      file and what it prints without a short write; its output is of every block what was
      written of it, and is complete exactly if no write was short. */
  lemma ShortWritesDropTails(events: seq<Event>, j: nat)
    requires j < |Run(events).procs|
    ensures j < |Run(Unshortened(events)).procs|
    ensures var writes := WritesOf(events, j);
      && Possible(writes) && Run(events).procs[j].out == Written(writes) && Unshort(events, j) == Blocks(writes)
      && (Run(events).procs[j].whole <==> AllWhole(writes))
    ensures var (procs, all) := (Run(events).procs, Unshort(events, j));
      all != [] ==> all[0].origin < |procs| && procs[all[0].origin].role.Writer? && all <= procs[all[0].origin].file
  {
    hide Written, Blocks, WritesOf, Possible, AllWhole;
    OutputIsWritten(events, j);
    UnshortIsBlocks(events, j);
    DroppedIsRest(WritesOf(events, j));
    RunsAlike(events);
    assert Alike(Run(events).procs[j], Run(Unshortened(events)).procs[j]);
    if Unshort(events, j) != [] {
      OutputIsPrefix(Unshortened(events), j);
      var i := Unshort(events, j)[0].origin;
      assert Alike(Run(events).procs[i], Run(Unshortened(events)).procs[i]);
    }
  }

  lemma RunningAlike(s: State, t: State, i: nat, j: nat)
    requires AllAlike(s, t) && Running(s, i, j)
    ensures Running(t, i, j)
  {
    assert Alike(s.procs[i], t.procs[i]) && Alike(s.procs[j], t.procs[j]);
  }

  lemma {:induction false} MeetingAlike(events: seq<Event>, i: nat, j: nat)
    requires EverRunning(events, i, j)
    ensures EverRunning(Unshortened(events), i, j)
  {
    hide Running, Run;
    if Running(Run(events), i, j) {
      RunsAlike(events);
      RunningAlike(Run(events), Run(Unshortened(events)), i, j);
    } else {
      var n := |events| - 1;
      MeetingAlike(events[..n], i, j);
      assert Unshortened(events)[..n] == Unshortened(events[..n]);
    }
  }

  /** What crashes and short writes can cost together, in any run: of the bytes read by a
      writer that has met a reader, all are printed but those that short writes have left out
      at the ends of their blocks, and at most one block. */
  lemma LossIsBounded(events: seq<Event>, i: nat, j: nat)
    requires EverRunning(events, i, j)
    ensures IsPair(Run(events), i, j)
    ensures var writes := WritesOf(events, j);
      && Possible(writes) && Run(events).procs[j].out == Written(writes)
      && Blocks(writes) <= Run(events).procs[i].file
      && Run(events).procs[i].cursor <= |Run(events).procs[j].out| + Dropped(writes) + PAGESIZE
  {
    hide Written, Blocks, WritesOf, Possible, Dropped;
    MetIsBehind(events, i, j);
    RunsAlike(events);
    MeetingAlike(events, i, j);
    assert Alike(Run(events).procs[i], Run(Unshortened(events)).procs[i]);
    assert Alike(Run(events).procs[j], Run(Unshortened(events)).procs[j]);
    CrashLosesOneBlock(Unshortened(events), i, j);
    ShortWritesDropTails(events, j);
    DroppedIsRest(WritesOf(events, j));
  }
}
