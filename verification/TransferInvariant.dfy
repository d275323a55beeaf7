/** What every reachable state of the file transfer satisfies. */
module TransferInvariant {
  import opened Semaphores
  import opened Transfer

  // ---------- Stations ----------

  function Rank(at: Station): nat {
    match at
    case Enter => 0
    case AwaitUnpaired => 1
    case SetVal => 2
    case Take => 3
    case Join => 4
    case Head => 5
    case Read => 6
    case Copy => 7
    case Print => 8
    case Post => 9
    case PostFinish => 10
    case Leave => 11
    case Lingering => 12
    case Gone => 13
  }

  /** Between passing the entry and leaving: at most one process of each role. */
  ghost predicate Active(p: Proc) { 1 <= Rank(p.at) <= 11 }

  /** Has taken its token. */
  ghost predicate Ready(p: Proc) { 4 <= Rank(p.at) <= 11 }

  /** Has raised PAIR. */
  ghost predicate Paired(p: Proc) { 5 <= Rank(p.at) <= 11 }

  /** Works on the shared memory: has taken the partner's token and not posted its own. */
  ghost predicate Inside(p: Proc) { 6 <= Rank(p.at) <= 10 }

  // ---------- Sums of adjustments ----------

  function Share(p: Proc, id: SemId): int { -p.adj.Get(id) }

  function Total(procs: seq<Proc>, id: SemId): int {
    if procs == [] then 0 else Total(procs[..|procs| - 1], id) + Share(procs[|procs| - 1], id)
  }

  lemma {:induction false} TotalUpdate(procs: seq<Proc>, i: nat, p: Proc, id: SemId)
    requires i < |procs|
    ensures Total(procs[i := p], id) == Total(procs, id) + Share(p, id) - Share(procs[i], id)
  {
    var n := |procs| - 1;
    if i < n {
      assert procs[i := p][..n] == procs[..n][i := p];
      TotalUpdate(procs[..n], i, p, id);
    } else {
      assert procs[i := p][..n] == procs[..n];
    }
  }

  lemma {:induction false} TotalCleared(procs: seq<Proc>, cleared: SemId, id: SemId)
    requires id != cleared
    ensures Total(Cleared(procs, cleared), id) == Total(procs, id)
  {
    if procs == [] {
    } else {
      var n := |procs| - 1;
      assert Cleared(procs, cleared)[..n] == Cleared(procs[..n], cleared);
      TotalCleared(procs[..n], cleared, id);
    }
  }

  /** Nobody owes anything negative. */
  ghost predicate NonNegative(procs: seq<Proc>, id: SemId) {
    forall i :: 0 <= i < |procs| ==> Share(procs[i], id) >= 0
  }

  lemma {:induction false} TotalAtLeast(procs: seq<Proc>, id: SemId, i: nat)
    requires NonNegative(procs, id) && i < |procs|
    ensures Total(procs, id) >= Share(procs[i], id) >= 0
  {
    var n := |procs| - 1;
    assert forall j :: 0 <= j < n ==> procs[..n][j] == procs[j];
    if i < n {
      TotalAtLeast(procs[..n], id, i);
    } else if n > 0 {
      TotalAtLeast(procs[..n], id, 0);
    }
  }

  /** Two processes of their own give at least the sum of their shares. */
  lemma {:induction false} TotalAtLeastTwo(procs: seq<Proc>, id: SemId, i: nat, j: nat)
    requires NonNegative(procs, id) && i < |procs| && j < |procs| && i != j
    ensures Total(procs, id) >= Share(procs[i], id) + Share(procs[j], id)
  {
    var n := |procs| - 1;
    assert forall k :: 0 <= k < n ==> procs[..n][k] == procs[k];
    if i == n {
      TotalAtLeast(procs[..n], id, j);
    } else if j == n {
      TotalAtLeast(procs[..n], id, i);
    } else {
      TotalAtLeastTwo(procs[..n], id, i, j);
    }
  }

  /** A positive total comes from somebody; if it is more than every single share, from two. */
  lemma {:induction false} TotalFrom(procs: seq<Proc>, id: SemId) returns (i: nat)
    requires Total(procs, id) > 0
    ensures i < |procs| && Share(procs[i], id) > 0
  {
    var n := |procs| - 1;
    if Share(procs[n], id) > 0 {
      i := n;
    } else {
      i := TotalFrom(procs[..n], id);
    }
  }

  lemma {:induction false} TotalFromTwo(procs: seq<Proc>, id: SemId, c: int) returns (i: nat, j: nat)
    requires Total(procs, id) > c && forall k :: 0 <= k < |procs| ==> Share(procs[k], id) <= c
    requires c >= 0
    ensures i < |procs| && j < |procs| && i != j && Share(procs[i], id) > 0 && Share(procs[j], id) > 0
  {
    var n := |procs| - 1;
    assert forall k :: 0 <= k < n ==> procs[..n][k] == procs[k];
    if Share(procs[n], id) > 0 {
      i := n;
      j := TotalFrom(procs[..n], id);
    } else {
      i, j := TotalFromTwo(procs[..n], id, c);
    }
  }

  // ---------- The invariant ----------

  /** What the station of a process says about its adjustments. */
  ghost predicate AdjustmentsFit(p: Proc) {
    var k := Rank(p.at);
    && Share(p, Exist(p.role)) == (if 4 <= k <= 11 then 2 else if 1 <= k <= 3 then 1 else 0)
    && Share(p, Exist(Other(p.role))) == 0
    && Share(p, PAIR) == (if Paired(p) then 1 else 0)
    && Share(p, FINISH) == (if p.finished && p.at != Gone then 1 else 0)
    && 0 <= p.adj.Get(Token(p.role)) <= 1
    && (Ready(p) ==> p.adj.Get(Token(p.role)) == 1)
    && (k <= 3 || p.at == Gone ==> p.adj.Get(Token(p.role)) == 0)
    && p.adj.Get(Token(Other(p.role))) == 0
  }

  /** What the station says about the data; i is the process's number. */
  ghost predicate DataFits(p: Proc, i: nat) {
    && p.cursor <= |p.file|
    && (forall k :: 0 <= k < |p.file| ==> p.file[k].origin == i)
    && (p.role.Writer? ==> p.at != Print && p.out == [])
    && (p.role.Reader? ==> p.at != Read && p.at != PostFinish && !p.finished)
    && (Rank(p.at) <= 4 ==> p.cursor == 0 && p.out == [] && p.whole && !p.finished)
    && (p.finished ==> Rank(p.at) >= 11)
    && (p.at == PostFinish ==> p.cursor == |p.file|)
    && (p.role.Writer? && (p.at == Copy || p.at == Post) ==>
          0 < |p.buffer| <= p.cursor && p.buffer == p.file[p.cursor - |p.buffer|..p.cursor])
  }

  ghost predicate Sums(s: State) {
    && s.sems.wexist == Total(s.procs, WEXIST) && s.sems.rexist == Total(s.procs, REXIST)
    && s.sems.pair == Total(s.procs, PAIR) && s.sems.finish == Total(s.procs, FINISH)
  }

  ghost predicate Locals(s: State) {
    forall i :: 0 <= i < |s.procs| ==> AdjustmentsFit(s.procs[i]) && DataFits(s.procs[i], i)
  }

  ghost predicate SameRole(s: State, i: int, j: int) {
    0 <= i < |s.procs| && 0 <= j < |s.procs| && s.procs[i].role == s.procs[j].role
  }

  ghost predicate OnePerRole(s: State) {
    forall i, j :: SameRole(s, i, j) && Active(s.procs[i]) && Active(s.procs[j]) ==> i == j
  }

  /** Around its SETVAL a process finds nobody paired, and its token as it set it; from
      then on nobody else has an adjustment for that token left. */
  ghost predicate Setup(s: State, i: nat)
    requires i < |s.procs|
  {
    var p := s.procs[i];
    && (2 <= Rank(p.at) <= 3 ==> forall j :: 0 <= j < |s.procs| ==> !Paired(s.procs[j]))
    && (p.at == Take ==> s.sems.Get(Token(p.role)) == Initial(p.role))
    && (p.at == Join ==> s.sems.Get(Token(p.role)) == Initial(p.role) - 1)
    && (3 <= Rank(p.at) <= 11 ==> forall j :: 0 <= j < |s.procs| && j != i ==> s.procs[j].adj.Get(Token(p.role)) == 0)
  }

  ghost predicate Setups(s: State) {
    && s.sems.print_ >= 0 && s.sems.memory >= 0
    && forall i :: 0 <= i < |s.procs| ==> Setup(s, i)
  }

  function One(b: bool): int { if b then 1 else 0 }

  /** A partner that has seen no data yet. */
  ghost predicate Untouched(p: Proc) {
    (p.at == Join || p.at == Head || p.at == Leave) && p.cursor == 0 && p.out == [] && p.whole && !p.finished
  }

  /** A ready writer w and a ready reader r share one token. */
  ghost predicate TokenOk(s: State, w: Proc, r: Proc) {
    && s.sems.print_ + s.sems.memory + One(Inside(w)) + One(Inside(r)) == 1
    && (w.at == Join ==> Untouched(r))
    && (r.at == Join ==> Untouched(w))
  }

  ghost predicate IsPair(s: State, i: int, j: int) {
    0 <= i < |s.procs| && 0 <= j < |s.procs| && s.procs[i].role.Writer? && s.procs[j].role.Reader?
  }

  ghost predicate Tokens(s: State) {
    forall i, j :: IsPair(s, i, j) && Ready(s.procs[i]) && Ready(s.procs[j]) ==> TokenOk(s, s.procs[i], s.procs[j])
  }

  // ---------- The data on its way ----------

  /** All bytes come from process i's file. */
  ghost predicate From(data: seq<Byte>, i: int) {
    forall k :: 0 <= k < |data| ==> data[k].origin == i
  }

  /** The bytes a reader holds and has not printed. */
  function Holding(s: State, r: Proc): seq<Byte> {
    if r.role.Reader? && r.at == Copy then s.shm
    else if r.role.Reader? && r.at == Print then r.buffer
    else []
  }

  /** The bytes between a paired writer's read and its reader's print. */
  function Flight(s: State, w: Proc, r: Proc): seq<Byte> {
    if w.at == Copy || w.at == Post then w.buffer
    else if s.sems.print_ >= 1 && !w.finished then s.shm
    else Holding(s, r)
  }

  /** Bytes data are the last ones read from the file, and out is what came before them, or
      less if a write was short. */
  ghost predicate Follows(data: seq<Byte>, out: seq<Byte>, whole: bool, file: seq<Byte>, cursor: nat) {
    |data| <= cursor <= |file|
    && data == file[cursor - |data|..cursor]
    && (if whole then out == file[..cursor - |data|] else |out| < cursor - |data|)
  }

  /** Everything a reader got so far. */
  function Got(s: State, j: nat): seq<Byte>
    requires j < |s.procs|
  {
    s.procs[j].out + Holding(s, s.procs[j])
  }

  /** While i and j are paired, j has printed all that i read, except what is in flight,
      and nobody else got anything from i. */
  ghost predicate Stream(s: State, i: nat, j: nat)
    requires i < |s.procs| && j < |s.procs|
  {
    var w, r := s.procs[i], s.procs[j];
    && Follows(Flight(s, w, r), r.out, r.whole, w.file, w.cursor)
    && From(r.out, i)
    && (w.at == Post ==> s.shm == w.buffer)
    && (s.sems.print_ >= 1 && !w.finished ==> s.shm != [])
    && (forall k :: 0 <= k < |s.procs| && k != j && Got(s, k) != [] ==> Got(s, k)[0].origin != i)
  }

  ghost predicate Streams(s: State) {
    forall i, j :: IsPair(s, i, j) && Paired(s.procs[i]) && Paired(s.procs[j]) ==> Stream(s, i, j)
  }

  /** All a reader got is the beginning of one writer's file, and what it holds is not empty. */
  ghost predicate Sourced(s: State, j: nat)
    requires j < |s.procs|
  {
    var r, got := s.procs[j], Got(s, j);
    && (r.role.Reader? && (r.at == Copy || r.at == Print) ==> Holding(s, r) != [])
    && (got != [] ==>
          var i := got[0].origin;
          && i < |s.procs| && s.procs[i].role.Writer? && From(got, i) && s.procs[i].cursor > 0
          && |got| <= s.procs[i].cursor <= |s.procs[i].file|
          && (if r.whole then got == s.procs[i].file[..|got|] else |got| < s.procs[i].cursor))
  }

  ghost predicate Outputs(s: State) {
    && (forall j :: 0 <= j < |s.procs| ==> Sourced(s, j))
    && (forall j, k :: 0 <= j < |s.procs| && 0 <= k < |s.procs| && j != k && Got(s, j) != [] && Got(s, k) != [] ==>
          Got(s, j)[0].origin != Got(s, k)[0].origin)
  }

  ghost predicate Inv(s: State) {
    Sums(s) && Locals(s) && OnePerRole(s) && Setups(s) && Tokens(s) && Streams(s) && Outputs(s)
  }
}
