/** Runs without a crash for any given file: one that delivers it, one in which the writer
    gives up at once, one in which a FINISH left over from an earlier session makes the reader
    give up, and one in which a short write loses bytes. */
module TransferExamples {
  import opened Semaphores
  import opened Transfer
  import opened TransferInvariant
  import opened TransferSteps
  import opened TransferSession

  // ---------- A pair forms ----------

  /** The run goes from its state s to t by one step of process i. */
  lemma Goes(before: seq<Event>, events: seq<Event>, s: State, i: nat, n: nat, t: State) returns (more: seq<Event>)
    requires Continues(before, events) && Run(events) == s && i < |s.procs| && Stepped(s, i, n) == t
    ensures Continues(before, more) && Run(more) == t && events <= more
  {
    more := events + [Step(i, n)];
    assert more[..|events|] == events;
  }

  lemma Begins(before: seq<Event>, events: seq<Event>, s: State, role: Role, file: seq<Byte>) returns (more: seq<Event>)
    requires Continues(before, events) && Run(events) == s && From(file, |s.procs|)
    ensures Continues(before, more) && Run(more) == s.(procs := s.procs + [Started(role, file)])
  {
    more := events + [Start(role, file)];
    assert more[..|events|] == events;
  }

  /** Process i has just started and finds nobody of its role and no pair. */
  ghost predicate CanEnter(s: State, i: nat) {
    && i < |s.procs| && s.procs[i].at == Enter && s.procs[i].adj == ZERO && !s.procs[i].finished
    && s.sems.Get(Exist(s.procs[i].role)) == 0 && s.sems.pair == 0
  }

  /** The four calls before JOIN have been made. */
  ghost function Readied(s: State, i: nat): State
    requires i < |s.procs|
  {
    var p, e, k := s.procs[i], Exist(s.procs[i].role), Token(s.procs[i].role);
    State(s.sems.Set(e, 2).Set(k, Initial(p.role) - 1),
          Cleared(s.procs, k)[i := p.(at := Join, adj := ZERO.Set(e, -2).Set(k, 1))], s.shm)
  }

  lemma Enters(s: State, i: nat)
    requires CanEnter(s, i)
    ensures var (p, e) := (s.procs[i], Exist(s.procs[i].role));
      Stepped(s, i, 0) == Moved(s, i, p.(at := AwaitUnpaired, adj := ZERO.Set(e, -1)), s.sems.Set(e, 1))
  {
    EnterOutcome(s.sems, ZERO, s.procs[i].role);
  }

  lemma FindsNoPair(s: State, i: nat)
    requires i < |s.procs| && s.procs[i].at == AwaitUnpaired && s.sems.pair == 0 && !s.procs[i].finished
    ensures Stepped(s, i, 0) == Moved(s, i, s.procs[i].(at := SetVal), s.sems)
  {
    AwaitOutcome(s.sems, s.procs[i].adj);
  }

  lemma SetsItsToken(s: State, i: nat)
    requires i < |s.procs| && s.procs[i].at == SetVal
    ensures var (p, k) := (s.procs[i], Token(s.procs[i].role));
      Stepped(s, i, 0) == State(s.sems.Set(k, Initial(p.role)),
                                Cleared(s.procs, k)[i := p.(at := Take, adj := p.adj.Set(k, 0))], s.shm)
  {
  }

  lemma TakesItsToken(s: State, i: nat)
    requires i < |s.procs| && s.procs[i].at == Take && !s.procs[i].finished
    requires var e := Exist(s.procs[i].role);
      && s.sems.Get(e) == 1 && s.sems.Get(Token(s.procs[i].role)) == Initial(s.procs[i].role)
      && s.procs[i].adj == ZERO.Set(e, -1)
    ensures var (p, e, k) := (s.procs[i], Exist(s.procs[i].role), Token(s.procs[i].role));
      Stepped(s, i, 0) == Moved(s, i, p.(at := Join, adj := ZERO.Set(e, -2).Set(k, 1)),
        s.sems.Set(e, 2).Set(k, Initial(p.role) - 1))
  {
    TakeOutcome(s.sems, s.procs[i].adj, s.procs[i].role);
  }

  lemma GetsReady(before: seq<Event>, events: seq<Event>, i: nat) returns (more: seq<Event>)
    requires Continues(before, events) && CanEnter(Run(events), i)
    ensures Continues(before, more) && Run(more) == Readied(Run(events), i)
  {
    hide Stepped, Run;
    var s := Run(events);
    var p, e, k := s.procs[i], Exist(s.procs[i].role), Token(s.procs[i].role);
    var a := Moved(s, i, p.(at := AwaitUnpaired, adj := ZERO.Set(e, -1)), s.sems.Set(e, 1));
    Enters(s, i);
    more := Goes(before, events, s, i, 0, a);
    var b := Moved(a, i, a.procs[i].(at := SetVal), a.sems);
    FindsNoPair(a, i);
    more := Goes(before, more, a, i, 0, b);
    var c := State(b.sems.Set(k, Initial(p.role)),
      Cleared(b.procs, k)[i := b.procs[i].(at := Take, adj := b.procs[i].adj.Set(k, 0))], b.shm);
    SetsItsToken(b, i);
    more := Goes(before, more, b, i, 0, c);
    TakesItsToken(c, i);
    var d := Moved(c, i, p.(at := Join, adj := ZERO.Set(e, -2).Set(k, 1)),
      c.sems.Set(e, 2).Set(k, Initial(p.role) - 1));
    more := Goes(before, more, c, i, 0, d);
    assert d.procs == Readied(s, i).procs;
  }

  /** A writer and a reader may get ready from here. */
  ghost predicate MayMeet(s: State, w: nat, r: nat) {
    CanEnter(s, w) && CanEnter(s, r) && IsPair(s, w, r)
  }

  /** Writer w and reader r are at station a and b, with the other processes' adjustments for
      the two tokens cleared; PAIR counts those who have joined. */
  ghost function Together(s: State, w: nat, a: Station, r: nat, b: Station): State
    requires IsPair(s, w, r)
  {
    var x, y := One(a != Join), One(b != Join);
    State(Sems(2, 2, 0, 1, x + y, s.sems.finish),
          Cleared(Cleared(s.procs, PRINT), MEMORY)
            [w := s.procs[w].(at := a, adj := Sems(-2, 0, 1, 0, -x, 0))]
            [r := s.procs[r].(at := b, adj := Sems(0, -2, 0, 1, -y, 0))], s.shm)
  }

  lemma BothGetReady(before: seq<Event>, events: seq<Event>, w: nat, r: nat) returns (more: seq<Event>)
    requires Continues(before, events) && MayMeet(Run(events), w, r)
    ensures Continues(before, more) && Run(more) == Together(Run(events), w, Join, r, Join)
  {
    hide Run;
    var s := Run(events);
    more := GetsReady(before, events, w);
    more := GetsReady(before, more, r);
    ReadyTogether(s, w, r);
  }

  lemma ReadyTogether(s: State, w: nat, r: nat)
    requires MayMeet(s, w, r)
    ensures CanEnter(Readied(s, w), r)
    ensures Readied(Readied(s, w), r) == Together(s, w, Join, r, Join)
  {
    assert Readied(Readied(s, w), r).procs == Together(s, w, Join, r, Join).procs;
  }

  /** The writer raises PAIR, whether or not the reader has. */
  lemma WriterJoins(s: State, w: nat, r: nat, b: Station)
    requires IsPair(s, w, r) && !s.procs[w].finished && (b == Join || b == Head)
    ensures Stepped(Together(s, w, Join, r, b), w, 0) == Together(s, w, Head, r, b)
  {
    var t := Together(s, w, Join, r, b);
    JoinOutcome(t.sems, t.procs[w].adj, Writer);
    assert Stepped(t, w, 0).procs == Together(s, w, Head, r, b).procs;
  }

  lemma ReaderJoins(s: State, w: nat, r: nat)
    requires IsPair(s, w, r) && !s.procs[r].finished
    ensures Stepped(Together(s, w, Head, r, Join), r, 0) == Together(s, w, Head, r, Head)
  {
    var t := Together(s, w, Head, r, Join);
    JoinOutcome(t.sems, t.procs[r].adj, Reader);
    assert Stepped(t, r, 0).procs == Together(s, w, Head, r, Head).procs;
  }

  lemma PairForms(before: seq<Event>, events: seq<Event>, w: nat, r: nat) returns (more: seq<Event>)
    requires Continues(before, events) && MayMeet(Run(events), w, r)
    ensures Continues(before, more) && Run(more) == Together(Run(events), w, Head, r, Head)
  {
    hide Run, Stepped, Together;
    var s := Run(events);
    more := BothGetReady(before, events, w, r);
    WriterJoins(s, w, r, Join);
    TogetherSize(s, w, Join, r, Join);
    more := Goes(before, more, Together(s, w, Join, r, Join), w, 0, Together(s, w, Head, r, Join));
    ReaderJoins(s, w, r);
    TogetherSize(s, w, Head, r, Join);
    more := Goes(before, more, Together(s, w, Head, r, Join), r, 0, Together(s, w, Head, r, Head));
  }

  lemma TogetherSize(s: State, w: nat, a: Station, r: nat, b: Station)
    requires IsPair(s, w, r)
    ensures |Together(s, w, a, r, b).procs| == |s.procs|
  {
  }

  lemma NothingRun()
    ensures Run([]) == FRESH && Continues([], [])
  {
  }

  /** A writer of the given file and a reader more, just started. */
  ghost function Newcomers(s: State, file: seq<Byte>): State {
    s.(procs := s.procs + [Started(Writer, file), Started(Reader, [])])
  }

  lemma TwoStart(before: seq<Event>, file: seq<Byte>) returns (events: seq<Event>)
    requires From(file, |Run(before).procs|)
    ensures Continues(before, events) && Run(events) == Newcomers(Run(before), file)
  {
    hide Run;
    var s := Run(before);
    var t := s.(procs := s.procs + [Started(Writer, file)]);
    events := Begins(before, before, s, Writer, file);
    events := Begins(before, events, t, Reader, []);
    assert t.procs + [Started(Reader, [])] == Newcomers(s, file).procs;
  }

  lemma NewcomersMayMeet(s: State, file: seq<Byte>)
    requires s.sems.wexist == 0 && s.sems.rexist == 0 && s.sems.pair == 0
    ensures MayMeet(Newcomers(s, file), |s.procs|, |s.procs| + 1)
  {
  }

  // ---------- Looking too early ----------

  /** Both processes are ready and nobody crashes, and still the writer gives up with nothing
      read, whatever its file: it looked at PAIR before the reader had raised it. */
  lemma MayDeliverNothing(file: seq<Byte>) returns (events: seq<Event>)
    requires From(file, 0)
    ensures CrashFree(events)
    ensures var s := Run(events);
      && GaveUp(s, 0) && s.procs[0].file == file && s.procs[0].cursor == 0
      && |s.procs| == 2 && s.procs[1].role.Reader? && Ready(s.procs[1]) && !Paired(s.procs[1])
  {
    hide Run, Stepped, Together;
    NothingRun();
    events := TwoStart([], file);
    NewcomersMayMeet(FRESH, file);
    var s := Newcomers(FRESH, file);
    events := BothGetReady([], events, 0, 1);
    WriterJoins(s, 0, 1, Join);
    TogetherSize(s, 0, Join, 1, Join);
    events := Goes([], events, Together(s, 0, Join, 1, Join), 0, 0, Together(s, 0, Head, 1, Join));
    LooksTooEarly(file);
    TogetherSize(s, 0, Head, 1, Join);
    events := Goes([], events, Together(s, 0, Head, 1, Join), 0, 0, Early(file));
  }

  ghost function Early(file: seq<Byte>): State {
    var s := Together(Newcomers(FRESH, file), 0, Head, 1, Join);
    Moved(s, 0, s.procs[0].(at := Leave), s.sems)
  }

  lemma LooksTooEarly(file: seq<Byte>)
    ensures var s := Early(file);
      && Stepped(Together(Newcomers(FRESH, file), 0, Head, 1, Join), 0, 0) == s
      && GaveUp(s, 0) && s.procs[0].file == file && s.procs[0].cursor == 0
      && |s.procs| == 2 && s.procs[1].role.Reader? && Ready(s.procs[1]) && !Paired(s.procs[1])
  {
    var s := Together(Newcomers(FRESH, file), 0, Head, 1, Join);
    HeadOutcome(s.sems, s.procs[0].adj, Writer);
  }

  // ---------- Arriving after all ----------

  /** Everybody started so far has exited or crashed. */
  ghost predicate AllGone(s: State) {
    forall i :: 0 <= i < |s.procs| ==> s.procs[i].at == Gone
  }

  /** Nothing is left to undo then, whatever happened before. */
  lemma NothingLeft(s: State)
    requires Inv(s) && AllGone(s)
    ensures s.sems.wexist == 0 && s.sems.rexist == 0 && s.sems.pair == 0 && s.sems.finish == 0
  {
    forall i | 0 <= i < |s.procs|
      ensures Share(s.procs[i], WEXIST) == Share(s.procs[i], REXIST) == 0
      ensures Share(s.procs[i], PAIR) == Share(s.procs[i], FINISH) == 0
    {
      assert AdjustmentsFit(s.procs[i]);
    }
    TotalNone(s.procs, WEXIST);
    TotalNone(s.procs, REXIST);
    TotalNone(s.procs, PAIR);
    TotalNone(s.procs, FINISH);
  }

  /** Reader r has printed the file of writer w, and it is this one. */
  ghost predicate Arrived(s: State, w: nat, r: nat, file: seq<Byte>) {
    IsPair(s, w, r) && s.procs[w].file == file && s.procs[r].out == file
  }

  lemma TogetherRuns(s: State, file: seq<Byte>)
    requires s.sems.finish == 0
    ensures var (w, r) := (|s.procs|, |s.procs| + 1); var t := Together(Newcomers(s, file), w, Head, r, Head);
      Running(t, w, r) && |t.procs| == r + 1 && t.procs[w].file == file && t.procs[r].whole
  {
  }

  /** Whoever started, moved and crashed before, and wherever: once they are all gone, a new
      writer and a new reader can pass on any file without a crash, and all of it arrives.
      They do so when the reader, too, raises PAIR before anybody looks. */
  lemma MayDeliver(before: seq<Event>, file: seq<Byte>) returns (events: seq<Event>)
    requires AllGone(Run(before)) && From(file, |Run(before).procs|)
    ensures Continues(before, events)
    ensures Arrived(Run(events), |Run(before).procs|, |Run(before).procs| + 1, file)
  {
    hide Run, Stepped, Together, Inv, Running;
    var s := Run(before);
    var w, r := |s.procs|, |s.procs| + 1;
    RunKeeps(before);
    NothingLeft(s);
    events := TwoStart(before, file);
    NewcomersMayMeet(s, file);
    events := PairForms(before, events, w, r);
    TogetherRuns(s, file);
    var more := SessionCanDeliver(events, w, r);
    FileStays(events, more, w);
    events := events + more;
  }

  // ---------- A FINISH left over ----------

  /** The writer of an empty file and its reader. */
  ghost function Earlier(v: Sems, a: Station, x: Sems, b: Station, y: Sems): State {
    State(v, [Started(Writer, []).(at := a, adj := x, finished := x.finish < 0),
      Started(Reader, []).(at := b, adj := y)], [])
  }

  lemma EarlierPair()
    ensures Together(Newcomers(FRESH, []), 0, Head, 1, Head)
      == Earlier(Sems(2, 2, 0, 1, 2, 0), Head, Sems(-2, 0, 1, 0, -1, 0), Head, Sems(0, -2, 0, 1, -1, 0))
  {
    assert Together(Newcomers(FRESH, []), 0, Head, 1, Head).procs
      == Earlier(Sems(2, 2, 0, 1, 2, 0), Head, Sems(-2, 0, 1, 0, -1, 0), Head, Sems(0, -2, 0, 1, -1, 0)).procs;
  }

  /** The empty file is read. */
  lemma EmptyRead()
    ensures var (x, y) := (Sems(-2, 0, 1, 0, -1, 0), Sems(0, -2, 0, 1, -1, 0));
      && Stepped(Earlier(Sems(2, 2, 0, 1, 2, 0), Head, x, Head, y), 0, 0)
        == Earlier(Sems(2, 2, 0, 0, 2, 0), Read, x, Head, y)
      && Stepped(Earlier(Sems(2, 2, 0, 0, 2, 0), Read, x, Head, y), 0, 0)
        == Earlier(Sems(2, 2, 0, 0, 2, 0), PostFinish, x, Head, y)
  {
    HeadOutcome(Sems(2, 2, 0, 1, 2, 0), Sems(-2, 0, 1, 0, -1, 0), Writer);
  }

  /** Its end is told, and the reader leaves its loop. */
  lemma EmptyConcluded()
    ensures var (x, y) := (Sems(-2, 0, 1, 0, -1, 0), Sems(0, -2, 0, 1, -1, 0));
      && Stepped(Earlier(Sems(2, 2, 0, 0, 2, 0), PostFinish, x, Head, y), 0, 0)
         == Earlier(Sems(2, 2, 1, 0, 2, 1), Leave, x.(finish := -1), Head, y)
      && Stepped(Earlier(Sems(2, 2, 1, 0, 2, 1), Leave, x.(finish := -1), Head, y), 1, 0)
         == Earlier(Sems(2, 2, 1, 0, 2, 1), Leave, x.(finish := -1), Leave, y)
  {
    PostFinishOutcome(Sems(2, 2, 0, 0, 2, 0), Sems(-2, 0, 1, 0, -1, 0));
    HeadOutcome(Sems(2, 2, 1, 0, 2, 1), Sems(0, -2, 0, 1, -1, 0), Reader);
  }

  lemma WriterLeaves()
    ensures var (x, y) := (Sems(-2, 0, 1, 0, -1, -1), Sems(0, -2, 0, 1, -1, 0));
      Stepped(Earlier(Sems(2, 2, 1, 0, 2, 1), Leave, x, Leave, y), 0, 0)
      == Earlier(Sems(0, 2, 1, 0, 1, 1), Lingering, Sems(0, 0, 1, 0, 0, -1), Leave, y)
  {
    LeaveOutcome(Sems(2, 2, 1, 0, 2, 1), Sems(-2, 0, 1, 0, -1, -1), Writer);
  }

  lemma ReaderLeaves()
    ensures var y := Sems(0, -2, 0, 1, -1, 0);
      Stepped(Earlier(Sems(0, 2, 1, 0, 1, 1), Lingering, Sems(0, 0, 1, 0, 0, -1), Leave, y), 1, 0) == LeftOver()
  {
    LeaveOutcome(Sems(0, 2, 1, 0, 1, 1), Sems(0, -2, 0, 1, -1, 0), Reader);
  }

  /** The writer has left its loop and has not exited yet. */
  ghost function LeftOver(): State {
    Earlier(Sems(0, 0, 1, 0, 0, 1), Lingering, Sems(0, 0, 1, 0, 0, -1), Lingering, Sems(0, 0, 0, 1, 0, 0))
  }

  lemma EarlierSession() returns (events: seq<Event>)
    ensures CrashFree(events) && Run(events) == LeftOver()
  {
    hide Run, Stepped, Together;
    var x, y := Sems(-2, 0, 1, 0, -1, 0), Sems(0, -2, 0, 1, -1, 0);
    var z := x.(finish := -1);
    NothingRun();
    events := TwoStart([], []);
    NewcomersMayMeet(FRESH, []);
    events := PairForms([], events, 0, 1);
    EarlierPair();
    EmptyRead();
    EmptyConcluded();
    events := Goes([], events, Earlier(Sems(2, 2, 0, 1, 2, 0), Head, x, Head, y), 0, 0,
      Earlier(Sems(2, 2, 0, 0, 2, 0), Read, x, Head, y));
    events := Goes([], events, Earlier(Sems(2, 2, 0, 0, 2, 0), Read, x, Head, y), 0, 0,
                   Earlier(Sems(2, 2, 0, 0, 2, 0), PostFinish, x, Head, y));
    events := Goes([], events, Earlier(Sems(2, 2, 0, 0, 2, 0), PostFinish, x, Head, y), 0, 0,
                   Earlier(Sems(2, 2, 1, 0, 2, 1), Leave, z, Head, y));
    events := Goes([], events, Earlier(Sems(2, 2, 1, 0, 2, 1), Leave, z, Head, y), 1, 0,
      Earlier(Sems(2, 2, 1, 0, 2, 1), Leave, z, Leave, y));
    WriterLeaves();
    ReaderLeaves();
    events := Goes([], events, Earlier(Sems(2, 2, 1, 0, 2, 1), Leave, z, Leave, y), 0, 0,
                   Earlier(Sems(0, 2, 1, 0, 1, 1), Lingering, Sems(0, 0, 1, 0, 0, -1), Leave, y));
    events := Goes([], events, Earlier(Sems(0, 2, 1, 0, 1, 1), Lingering, Sems(0, 0, 1, 0, 0, -1), Leave, y), 1, 0,
      LeftOver());
  }

  lemma NewcomersMeet(file: seq<Byte>) returns (events: seq<Event>)
    requires From(file, 2)
    ensures CrashFree(events)
    ensures Run(events) == Stale(Sems(2, 2, 0, 1, 2, 1), Head, Sems(0, -2, 0, 1, -1, 0), Head, file, 0, [])
  {
    hide Run, Stepped;
    var earlier := EarlierSession();
    events := TwoStart(earlier, file);
    NewcomersMayMeet(LeftOver(), file);
    events := PairForms([], events, 2, 3);
    assert Together(Newcomers(LeftOver(), file), 2, Head, 3, Head).procs
      == Stale(Sems(2, 2, 0, 1, 2, 1), Head, Sems(0, -2, 0, 1, -1, 0), Head, file, 0, []).procs;
  }

  /** All four later: the new writer at a, having read n bytes, the new reader at b. */
  ghost function Stale(v: Sems, a: Station, y: Sems, b: Station, file: seq<Byte>, n: nat, shm: seq<Byte>): State {
    State(v,
          [Started(Writer, []).(at := Lingering, adj := Sems(0, 0, 0, 0, 0, -1), finished := true),
           Started(Reader, []).(at := Lingering),
           Started(Writer, file).(at := a, adj := Sems(-2, 0, 1, 0, -1, 0), cursor := n,
             buffer := if n <= |file| then file[..n] else []),
           Started(Reader, []).(at := b, adj := y)],
          shm)
  }

  ghost function FirstBlock(file: seq<Byte>): nat {
    if |file| <= PAGESIZE then |file| else PAGESIZE
  }

  /** The new writer passes on its first block. */
  lemma BlockIsRead(file: seq<Byte>)
    requires file != []
    ensures var (y, n) := (Sems(0, -2, 0, 1, -1, 0), FirstBlock(file));
      && Stepped(Stale(Sems(2, 2, 0, 1, 2, 1), Head, y, Head, file, 0, []), 2, 0)
         == Stale(Sems(2, 2, 0, 0, 2, 1), Read, y, Head, file, 0, [])
      && Stepped(Stale(Sems(2, 2, 0, 0, 2, 1), Read, y, Head, file, 0, []), 2, n)
         == Stale(Sems(2, 2, 0, 0, 2, 1), Copy, y, Head, file, n, [])
  {
    HeadOutcome(Sems(2, 2, 0, 1, 2, 1), Sems(-2, 0, 1, 0, -1, 0), Writer);
  }

  lemma BlockIsPosted(file: seq<Byte>)
    ensures var (y, n) := (Sems(0, -2, 0, 1, -1, 0), FirstBlock(file)); var d := file[..n];
      && Stepped(Stale(Sems(2, 2, 0, 0, 2, 1), Copy, y, Head, file, n, []), 2, 0)
         == Stale(Sems(2, 2, 0, 0, 2, 1), Post, y, Head, file, n, d)
      && Stepped(Stale(Sems(2, 2, 0, 0, 2, 1), Post, y, Head, file, n, d), 2, 0)
         == Stale(Sems(2, 2, 1, 0, 2, 1), Head, y, Head, file, n, d)
  {
    PostOutcome(Sems(2, 2, 0, 0, 2, 1), Sems(-2, 0, 1, 0, -1, 0), Writer);
  }

  /** The new reader sees the old FINISH and leaves, and then the writer gives up. */
  lemma OldFinishIsSeen(file: seq<Byte>)
    ensures var (y, n) := (Sems(0, -2, 0, 1, -1, 0), FirstBlock(file)); var d := file[..n];
      && Stepped(Stale(Sems(2, 2, 1, 0, 2, 1), Head, y, Head, file, n, d), 3, 0)
         == Stale(Sems(2, 2, 1, 0, 2, 1), Head, y, Leave, file, n, d)
      && Stepped(Stale(Sems(2, 2, 1, 0, 2, 1), Head, y, Leave, file, n, d), 3, 0)
         == Stale(Sems(2, 0, 1, 0, 1, 1), Head, Sems(0, 0, 0, 1, 0, 0), Lingering, file, n, d)
  {
    var y := Sems(0, -2, 0, 1, -1, 0);
    HeadOutcome(Sems(2, 2, 1, 0, 2, 1), y, Reader);
    LeaveOutcome(Sems(2, 2, 1, 0, 2, 1), y, Reader);
  }

  lemma NewWriterGivesUp(file: seq<Byte>)
    ensures var (y, n) := (Sems(0, 0, 0, 1, 0, 0), FirstBlock(file)); var d := file[..n];
      Stepped(Stale(Sems(2, 0, 1, 0, 1, 1), Head, y, Lingering, file, n, d), 2, 0)
      == Stale(Sems(2, 0, 1, 0, 1, 1), Leave, y, Lingering, file, n, d)
  {
    HeadOutcome(Sems(2, 0, 1, 0, 1, 1), Sems(-2, 0, 1, 0, -1, 0), Writer);
  }

  lemma StaleRun(file: seq<Byte>, before: seq<Event>) returns (after: seq<Event>)
    requires file != [] && CrashFree(before)
    requires Run(before) == Stale(Sems(2, 2, 0, 1, 2, 1), Head, Sems(0, -2, 0, 1, -1, 0), Head, file, 0, [])
    ensures CrashFree(after) && before <= after
    ensures var n := FirstBlock(file);
      Run(after) == Stale(Sems(2, 0, 1, 0, 1, 1), Leave, Sems(0, 0, 0, 1, 0, 0), Lingering, file, n, file[..n])
  {
    hide Run, Stepped;
    var y, z, n := Sems(0, -2, 0, 1, -1, 0), Sems(0, 0, 0, 1, 0, 0), FirstBlock(file);
    var v, u, d := Sems(2, 2, 0, 0, 2, 1), Sems(2, 2, 1, 0, 2, 1), file[..n];
    BlockIsRead(file);
    BlockIsPosted(file);
    OldFinishIsSeen(file);
    NewWriterGivesUp(file);
    after := Goes([], before, Stale(v.(memory := 1), Head, y, Head, file, 0, []), 2, 0,
      Stale(v, Read, y, Head, file, 0, []));
    after := Goes([], after, Stale(v, Read, y, Head, file, 0, []), 2, n, Stale(v, Copy, y, Head, file, n, []));
    after := Goes([], after, Stale(v, Copy, y, Head, file, n, []), 2, 0, Stale(v, Post, y, Head, file, n, d));
    after := Goes([], after, Stale(v, Post, y, Head, file, n, d), 2, 0, Stale(u, Head, y, Head, file, n, d));
    after := Goes([], after, Stale(u, Head, y, Head, file, n, d), 3, 0, Stale(u, Head, y, Leave, file, n, d));
    var w := Sems(2, 0, 1, 0, 1, 1);
    after := Goes([], after, Stale(u, Head, y, Leave, file, n, d), 3, 0, Stale(w, Head, z, Lingering, file, n, d));
    after := Goes([], after, Stale(w, Head, z, Lingering, file, n, d), 2, 0, Stale(w, Leave, z, Lingering, file, n, d));
  }

  /** Writer 2 with the file and reader 3 are both in their loops, with PAIR at 2. */
  ghost predicate BothInLoop(s: State, file: seq<Byte>) {
    && IsPair(s, 2, 3) && s.procs[2].file == file
    && s.procs[2].at == Head && s.procs[3].at == Head && s.sems.pair == 2
  }

  /** Both have left their loops, the writer without finishing, and nobody has printed anything. */
  ghost predicate NothingArrived(s: State, file: seq<Byte>) {
    && IsPair(s, 2, 3) && s.procs[2].file == file
    && GaveUp(s, 2) && Rank(s.procs[3].at) >= 11
    && forall j :: 0 <= j < |s.procs| ==> s.procs[j].out == []
  }

  /** Both are in their loops, PAIR is 2 and nobody crashes, and still not a byte of the file
      is printed, whatever it is: a writer of an earlier session has not exited yet. */
  lemma StaleFinishLoses(file: seq<Byte>) returns (before: seq<Event>, after: seq<Event>)
    requires From(file, 2) && file != []
    ensures BothInLoop(Run(before), file)
    ensures CrashFree(after) && before <= after && NothingArrived(Run(after), file)
  {
    hide Run, Stepped;
    before := NewcomersMeet(file);
    after := StaleRun(file, before);
  }

  // ---------- A short write ----------

  /** A pair: who is where, the tokens, how many bytes the writer has read, the shared memory,
      what the reader holds and what it has printed. */
  ghost function Later(memory: int, print_: int, a: Station, b: Station, n: nat, shm: seq<Byte>, held: seq<Byte>,
                       out: seq<Byte>, file: seq<Byte>): State
    requires n <= |file|
  {
    State(Sems(2, 2, print_, memory, 2, 0),
          [Started(Writer, file).(at := a, adj := Sems(-2, 0, 1, 0, -1, 0), cursor := n, buffer := file[..n]),
           Started(Reader, []).(at := b, adj := Sems(0, -2, 0, 1, -1, 0), buffer := held, out := out,
             whole := out == [])],
          shm)
  }

  lemma NewPair(file: seq<Byte>)
    ensures Together(Newcomers(FRESH, file), 0, Head, 1, Head) == Later(1, 0, Head, Head, 0, [], [], [], file)
  {
    assert Together(Newcomers(FRESH, file), 0, Head, 1, Head).procs
      == Later(1, 0, Head, Head, 0, [], [], [], file).procs;
  }

  /** The writer reads two bytes. */
  lemma TwoBytesRead(file: seq<Byte>)
    requires |file| >= 2
    ensures Stepped(Later(1, 0, Head, Head, 0, [], [], [], file), 0, 0) == Later(0, 0, Read, Head, 0, [], [], [], file)
    ensures Stepped(Later(0, 0, Read, Head, 0, [], [], [], file), 0, 2) == Later(0, 0, Copy, Head, 2, [], [], [], file)
  {
    HeadOutcome(Sems(2, 2, 0, 1, 2, 0), Sems(-2, 0, 1, 0, -1, 0), Writer);
  }

  /** And passes them on. */
  lemma TwoBytesPass(file: seq<Byte>)
    requires |file| >= 2
    ensures Stepped(Later(0, 0, Copy, Head, 2, [], [], [], file), 0, 0)
      == Later(0, 0, Post, Head, 2, file[..2], [], [], file)
    ensures Stepped(Later(0, 0, Post, Head, 2, file[..2], [], [], file), 0, 0)
      == Later(0, 1, Head, Head, 2, file[..2], [], [], file)
  {
    PostOutcome(Sems(2, 2, 0, 0, 2, 0), Sems(-2, 0, 1, 0, -1, 0), Writer);
  }

  /** The reader gets them and prints one. */
  lemma OneByteIsPrinted(file: seq<Byte>)
    requires |file| >= 2
    ensures var d := file[..2];
      && Stepped(Later(0, 1, Head, Head, 2, d, [], [], file), 1, 0) == Later(0, 0, Head, Copy, 2, d, [], [], file)
      && Stepped(Later(0, 0, Head, Copy, 2, d, [], [], file), 1, 0) == Later(0, 0, Head, Print, 2, d, d, [], file)
      && Stepped(Later(0, 0, Head, Print, 2, d, d, [], file), 1, 1) == Later(0, 0, Head, Post, 2, d, d, file[..1], file)
  {
    HeadOutcome(Sems(2, 2, 1, 0, 2, 0), Sems(0, -2, 0, 1, -1, 0), Reader);
    assert [] + file[..2][..1] == file[..1];
  }

  lemma ShortWriteHappens(file: seq<Byte>) returns (events: seq<Event>)
    requires From(file, 0) && |file| >= 2
    ensures CrashFree(events) && Run(events) == Later(0, 0, Head, Post, 2, file[..2], file[..2], file[..1], file)
  {
    hide Run, Stepped;
    var d := file[..2];
    NothingRun();
    events := TwoStart([], file);
    NewcomersMayMeet(FRESH, file);
    events := PairForms([], events, 0, 1);
    NewPair(file);
    TwoBytesRead(file);
    TwoBytesPass(file);
    OneByteIsPrinted(file);
    events := Goes([], events, Later(1, 0, Head, Head, 0, [], [], [], file), 0, 0,
      Later(0, 0, Read, Head, 0, [], [], [], file));
    events := Goes([], events, Later(0, 0, Read, Head, 0, [], [], [], file), 0, 2,
      Later(0, 0, Copy, Head, 2, [], [], [], file));
    events := Goes([], events, Later(0, 0, Copy, Head, 2, [], [], [], file), 0, 0,
      Later(0, 0, Post, Head, 2, d, [], [], file));
    events := Goes([], events, Later(0, 0, Post, Head, 2, d, [], [], file), 0, 0,
      Later(0, 1, Head, Head, 2, d, [], [], file));
    events := Goes([], events, Later(0, 1, Head, Head, 2, d, [], [], file), 1, 0,
      Later(0, 0, Head, Copy, 2, d, [], [], file));
    events := Goes([], events, Later(0, 0, Head, Copy, 2, d, [], [], file), 1, 0,
      Later(0, 0, Head, Print, 2, d, d, [], file));
    events := Goes([], events, Later(0, 0, Head, Print, 2, d, d, [], file), 1, 1,
      Later(0, 0, Head, Post, 2, d, d, file[..1], file));
  }

  lemma ShortIsRunning(file: seq<Byte>)
    requires |file| >= 2
    ensures Running(Later(0, 0, Head, Post, 2, file[..2], file[..2], file[..1], file), 0, 1)
    ensures !Later(0, 0, Head, Post, 2, file[..2], file[..2], file[..1], file).procs[1].whole
    ensures Later(0, 0, Head, Post, 2, file[..2], file[..2], file[..1], file).procs[0].file == file
  {
  }

  /** The reader does not look at how much was written. */
  lemma NeverWholeAgain(s: State, e: Event, j: nat)
    requires j < |s.procs| && !s.procs[j].whole
    ensures j < |Apply(s, e).procs| && !Apply(s, e).procs[j].whole
  {
    if e.Step? && e.pid < |s.procs| && e.pid != j {
      OthersKept(s, e.pid, e.n, j);
    }
  }

  lemma {:induction false} StaysShort(before: seq<Event>, after: seq<Event>, j: nat)
    requires j < |Run(before).procs| && !Run(before).procs[j].whole
    ensures j < |Run(before + after).procs| && !Run(before + after).procs[j].whole
  {
    hide Apply;
    if after == [] {
      assert before + after == before;
    } else {
      var n := |after| - 1;
      StaysShort(before, after[..n], j);
      OneMore(before, after);
      NeverWholeAgain(Run(before + after[..n]), after[n], j);
    }
  }

  /** One short write is enough for a file of two bytes or more to arrive incomplete, though
      nobody crashes and the session goes on to its end. */
  lemma ShortWriteLoses(file: seq<Byte>) returns (events: seq<Event>)
    requires From(file, 0) && |file| >= 2
    ensures CrashFree(events) && Concluded(Run(events), 0, 1)
    ensures Run(events).procs[0].file == file && Run(events).procs[1].out != file
  {
    hide Run;
    events := ShortWriteHappens(file);
    ShortIsRunning(file);
    var more := SessionCanDeliver(events, 0, 1);
    StaysShort(events, more, 1);
    FileStays(events, more, 0);
    events := events + more;
  }
}
