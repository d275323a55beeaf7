/** Every step of the file transfer keeps the invariant. */
module TransferSteps {
  import opened Semaphores
  import opened Transfer
  import opened TransferInvariant

  // ---------- What the semop arrays amount to ----------

  lemma EnterOutcome(v: Sems, a: Sems, role: Role)
    ensures var e := Exist(role);
      Semop(v, a, EnterOps(role)) == if v.Get(e) != 0 then Blocks else Done(v.Set(e, 1), a.Set(e, a.Get(e) - 1))
  {
    var e, ops := Exist(role), EnterOps(role);
    assert v.Get(e) == 0 ==> TryFrom(v, a, ops, 0) == TryFrom(v, a, ops, 1);
  }

  lemma AwaitOutcome(v: Sems, a: Sems)
    ensures Semop(v, a, AwaitOps()) == if v.pair != 0 then Blocks else Done(v, a)
  {
    assert v.pair == 0 ==> TryFrom(v, a, AwaitOps(), 0) == TryFrom(v, a, AwaitOps(), 1);
  }

  lemma TakeOutcome(v: Sems, a: Sems, role: Role)
    requires v.Get(Exist(role)) >= 0
    ensures var (e, t) := (Exist(role), Token(role));
      Semop(v, a, TakeOps(role)) == if v.Get(t) < 1 then Blocks
        else Done(v.Set(e, v.Get(e) + 1).Set(t, v.Get(t) - 1), a.Set(e, a.Get(e) - 1).Set(t, a.Get(t) + 1))
  {
    var e, t, ops := Exist(role), Token(role), TakeOps(role);
    var v1, a1 := v.Set(e, v.Get(e) + 1), a.Set(e, a.Get(e) - 1);
    assert TryFrom(v, a, ops, 0) == TryFrom(v1, a1, ops, 1);
    assert v.Get(t) >= 1 ==>
      TryFrom(v1, a1, ops, 1) == TryFrom(v1.Set(t, v.Get(t) - 1), a1.Set(t, a.Get(t) + 1), ops, 2);
  }

  lemma JoinOutcome(v: Sems, a: Sems, role: Role)
    requires v.pair >= 0
    ensures Semop(v, a, JoinOps(role)) == if v.Get(Exist(Other(role))) < 2 then Blocks
      else Done(v.(pair := v.pair + 1), a.(pair := a.pair - 1))
  {
    var e, ops := Exist(Other(role)), JoinOps(role);
    var v1 := v.Set(e, v.Get(e) - 2);
    if v.Get(e) >= 2 {
      assert TryFrom(v, a, ops, 0) == TryFrom(v1, a, ops, 1);
      assert v1.Set(e, v1.Get(e) + 2) == v;
      assert TryFrom(v1, a, ops, 1) == TryFrom(v, a, ops, 2);
      assert TryFrom(v, a, ops, 2) == TryFrom(v.(pair := v.pair + 1), a.(pair := a.pair - 1), ops, 3);
    }
  }

  lemma HeadOutcome(v: Sems, a: Sems, role: Role)
    ensures var t := Token(Other(role));
      Semop(v, a, HeadOps(role)) ==
        if v.pair < 2 then Again
        else if v.Get(t) < 1 then Blocks
        else if role.Reader? && v.finish != 0 then Again
        else Done(v.Set(t, v.Get(t) - 1), a)
  {
    var t, ops := Token(Other(role)), HeadOps(role);
    var v1 := v.(pair := v.pair - 2);
    var v2 := v.Set(t, v.Get(t) - 1);
    if v.pair >= 2 {
      assert TryFrom(v, a, ops, 0) == TryFrom(v1, a, ops, 1);
      assert v1.(pair := v1.pair + 2) == v;
      assert TryFrom(v1, a, ops, 1) == TryFrom(v, a, ops, 2);
      if v.Get(t) >= 1 {
        assert TryFrom(v, a, ops, 2) == TryFrom(v2, a, ops, 3);
        if role.Reader? && v.finish == 0 {
          assert v2.Set(FINISH, 0) == v2;
          assert TryFrom(v2, a, ops, 3) == TryFrom(v2, a, ops, 4);
        }
      }
    }
  }

  lemma PostOutcome(v: Sems, a: Sems, role: Role)
    requires v.Get(Token(role)) >= 0
    ensures Semop(v, a, PostOps(role)) == Done(v.Set(Token(role), v.Get(Token(role)) + 1), a)
  {
    var t, ops := Token(role), PostOps(role);
    assert TryFrom(v, a, ops, 0) == TryFrom(v.Set(t, v.Get(t) + 1), a, ops, 1);
  }

  lemma PostFinishOutcome(v: Sems, a: Sems)
    requires v.print_ >= 0 && v.finish >= 0
    ensures Semop(v, a, PostFinishOps()) ==
      Done(v.(print_ := v.print_ + 1, finish := v.finish + 1), a.(finish := a.finish - 1))
  {
    var ops := PostFinishOps();
    var v1 := v.(print_ := v.print_ + 1);
    assert TryFrom(v, a, ops, 0) == TryFrom(v1, a, ops, 1);
    assert TryFrom(v1, a, ops, 1) == TryFrom(v1.(finish := v.finish + 1), a.(finish := a.finish - 1), ops, 2);
  }

  lemma LeaveOutcome(v: Sems, a: Sems, role: Role)
    ensures var e := Exist(role);
      Semop(v, a, LeaveOps(role)) == if v.pair < 1 || v.Get(e) < 2 then Blocks
        else Done(v.(pair := v.pair - 1).Set(e, v.Get(e) - 2), a.(pair := a.pair + 1).Set(e, a.Get(e) + 2))
  {
    var e, ops := Exist(role), LeaveOps(role);
    var v1, a1 := v.(pair := v.pair - 1), a.(pair := a.pair + 1);
    if v.pair >= 1 {
      assert TryFrom(v, a, ops, 0) == TryFrom(v1, a1, ops, 1);
      if v.Get(e) >= 2 {
        assert TryFrom(v1, a1, ops, 1) == TryFrom(v1.Set(e, v.Get(e) - 2), a1.Set(e, a.Get(e) + 2), ops, 2);
      }
    }
  }

  // ---------- Consequences of the invariant ----------

  lemma NobodyOwes(s: State)
    requires Locals(s)
    ensures NonNegative(s.procs, WEXIST) && NonNegative(s.procs, REXIST)
    ensures NonNegative(s.procs, PAIR) && NonNegative(s.procs, FINISH)
  {
    forall i | 0 <= i < |s.procs|
      ensures Share(s.procs[i], WEXIST) >= 0 && Share(s.procs[i], REXIST) >= 0
      ensures Share(s.procs[i], PAIR) >= 0 && Share(s.procs[i], FINISH) >= 0
    {
      assert AdjustmentsFit(s.procs[i]);
    }
  }

  lemma SumOf(s: State, id: SemId)
    requires Sums(s) && id != PRINT && id != MEMORY
    ensures s.sems.Get(id) == Total(s.procs, id)
  {
  }

  /** An entry semaphore at 0 means that nobody of the role is active. */
  lemma NobodyActive(s: State, role: Role)
    requires Sums(s) && Locals(s) && s.sems.Get(Exist(role)) == 0
    ensures forall j :: 0 <= j < |s.procs| && s.procs[j].role == role ==> !Active(s.procs[j])
  {
    NobodyOwes(s);
    forall j | 0 <= j < |s.procs| && s.procs[j].role == role ensures !Active(s.procs[j]) {
      TotalAtLeast(s.procs, Exist(role), j);
      assert AdjustmentsFit(s.procs[j]);
    }
  }

  /** PAIR at 0 means that nobody is paired. */
  lemma NobodyPaired(s: State)
    requires Sums(s) && Locals(s) && s.sems.pair == 0
    ensures forall j :: 0 <= j < |s.procs| ==> !Paired(s.procs[j])
  {
    NobodyOwes(s);
    forall j | 0 <= j < |s.procs| ensures !Paired(s.procs[j]) {
      TotalAtLeast(s.procs, PAIR, j);
      assert AdjustmentsFit(s.procs[j]);
    }
  }

  lemma {:induction false} TotalOnly(procs: seq<Proc>, id: SemId, i: nat)
    requires i < |procs| && forall j :: 0 <= j < |procs| && j != i ==> Share(procs[j], id) == 0
    ensures Total(procs, id) == Share(procs[i], id)
  {
    var n := |procs| - 1;
    assert forall k :: 0 <= k < n ==> procs[..n][k] == procs[k];
    if i == n {
      TotalNone(procs[..n], id);
    } else {
      TotalOnly(procs[..n], id, i);
    }
  }

  lemma {:induction false} TotalNone(procs: seq<Proc>, id: SemId)
    requires forall j :: 0 <= j < |procs| ==> Share(procs[j], id) == 0
    ensures Total(procs, id) == 0
  {
    if procs == [] {
    } else {
      var n := |procs| - 1;
      assert forall k :: 0 <= k < n ==> procs[..n][k] == procs[k];
      TotalNone(procs[..n], id);
    }
  }

  /** An entry semaphore is what its one active process added. */
  lemma ExistIsShare(s: State, j: nat)
    requires Sums(s) && Locals(s) && OnePerRole(s) && j < |s.procs| && Active(s.procs[j])
    ensures s.sems.Get(Exist(s.procs[j].role)) == (if Ready(s.procs[j]) then 2 else 1)
  {
    var id := Exist(s.procs[j].role);
    forall k | 0 <= k < |s.procs| && k != j ensures Share(s.procs[k], id) == 0 {
      assert AdjustmentsFit(s.procs[k]);
      assert SameRole(s, j, k) <==> s.procs[k].role == s.procs[j].role;
    }
    TotalOnly(s.procs, id, j);
    assert AdjustmentsFit(s.procs[j]);
  }

  /** An entry semaphore at 2 means that a process of the role is ready. */
  lemma SomebodyReady(s: State, role: Role) returns (j: nat)
    requires Sums(s) && Locals(s) && OnePerRole(s) && s.sems.Get(Exist(role)) >= 2
    ensures j < |s.procs| && s.procs[j].role == role && Ready(s.procs[j])
  {
    SumOf(s, Exist(role));
    j := TotalFrom(s.procs, Exist(role));
    assert AdjustmentsFit(s.procs[j]);
    ExistIsShare(s, j);
  }

  /** PAIR at 2 or more means that a writer and a reader are paired. */
  lemma BothPaired(s: State) returns (i: nat, j: nat)
    requires Sums(s) && Locals(s) && OnePerRole(s) && s.sems.pair >= 2
    ensures IsPair(s, i, j) && Paired(s.procs[i]) && Paired(s.procs[j])
  {
    forall k | 0 <= k < |s.procs| ensures Share(s.procs[k], PAIR) <= 1 {
      assert AdjustmentsFit(s.procs[k]);
    }
    i, j := TotalFromTwo(s.procs, PAIR, 1);
    assert AdjustmentsFit(s.procs[i]) && AdjustmentsFit(s.procs[j]);
    assert !SameRole(s, i, j);
    if s.procs[i].role.Reader? {
      i, j := j, i;
    }
  }

  /** A paired process's partner. */
  lemma PartnerOf(s: State, i: nat) returns (j: nat)
    requires Sums(s) && Locals(s) && OnePerRole(s) && s.sems.pair >= 2 && i < |s.procs| && Paired(s.procs[i])
    ensures j < |s.procs| && Paired(s.procs[j]) && s.procs[j].role == Other(s.procs[i].role)
  {
    var a, b := BothPaired(s);
    j := if s.procs[i].role.Writer? then b else a;
  }

  // ---------- Steps that change one process ----------

  /** A step of process i without a store does not change what the others got. */
  lemma OthersGot(s: State, i: nat, p: Proc, v: Sems)
    requires i < |s.procs|
    ensures forall k :: 0 <= k < |s.procs| && k != i ==> Got(Moved(s, i, p, v), k) == Got(s, k)
  {
  }

  /** The state after a step of process i alone. */
  ghost function Moved(s: State, i: nat, p: Proc, v: Sems): State
    requires i < |s.procs|
  {
    WithProc(s, i, p).(sems := v)
  }

  lemma SumsKept(s: State, i: nat, p: Proc, v: Sems)
    requires Sums(s) && i < |s.procs|
    requires forall id :: id != PRINT && id != MEMORY ==>
      v.Get(id) == s.sems.Get(id) + Share(p, id) - Share(s.procs[i], id)
    ensures Sums(Moved(s, i, p, v))
  {
    TotalUpdate(s.procs, i, p, WEXIST);
    TotalUpdate(s.procs, i, p, REXIST);
    TotalUpdate(s.procs, i, p, PAIR);
    TotalUpdate(s.procs, i, p, FINISH);
    assert v.Get(WEXIST) == v.wexist && v.Get(REXIST) == v.rexist && v.Get(PAIR) == v.pair && v.Get(FINISH) == v.finish;
  }

  lemma LocalsKept(s: State, i: nat, p: Proc, v: Sems)
    requires Locals(s) && i < |s.procs| && AdjustmentsFit(p) && DataFits(p, i)
    ensures Locals(Moved(s, i, p, v))
  {
  }

  ghost predicate NobodyElse(s: State, i: nat)
    requires i < |s.procs|
  {
    forall j :: SameRole(s, i, j) && j != i ==> !Active(s.procs[j])
  }

  lemma OneKept(s: State, i: nat, p: Proc, v: Sems)
    requires OnePerRole(s) && i < |s.procs| && p.role == s.procs[i].role
    requires Active(p) ==> NobodyElse(s, i)
    ensures OnePerRole(Moved(s, i, p, v))
  {
    var t := Moved(s, i, p, v);
    forall a, b | SameRole(t, a, b) && Active(t.procs[a]) && Active(t.procs[b]) ensures a == b {
      assert SameRole(s, a, b) && SameRole(s, b, a);
    }
  }

  /** Setup of the others only depends on their own token, on who is paired and on
      adjustments; the mover keeps away from all three. */
  lemma SetupsKept(s: State, i: nat, p: Proc, v: Sems)
    requires Setups(s) && i < |s.procs| && p.role == s.procs[i].role
    requires v.print_ >= 0 && v.memory >= 0 && Setup(Moved(s, i, p, v), i)
    requires p.adj.Get(Token(Other(p.role))) == 0
    requires p.adj.Get(Token(p.role)) in {s.procs[i].adj.Get(Token(p.role)), 0} || NobodyElse(s, i)
    requires forall j :: 0 <= j < |s.procs| && j != i ==>
      && (2 <= Rank(s.procs[j].at) <= 3 ==> Paired(p) ==> Paired(s.procs[i]))
      && (s.procs[j].at == Take || s.procs[j].at == Join ==>
        v.Get(Token(s.procs[j].role)) == s.sems.Get(Token(s.procs[j].role)))
    ensures Setups(Moved(s, i, p, v))
  {
    var t := Moved(s, i, p, v);
    forall j | 0 <= j < |s.procs| ensures Setup(t, j) {
      assert Setup(s, j);
      if j != i && s.procs[j].role == p.role {
        assert SameRole(s, i, j);
      }
    }
  }

  /** With nobody of one role ready there is no pair to speak of. */
  lemma NoPairs(s: State, role: Role)
    requires forall j :: 0 <= j < |s.procs| && s.procs[j].role == role ==> !Ready(s.procs[j])
    ensures Tokens(s) && Streams(s)
  {
  }

  /** The data of the others is where it was, and what i got did not change its source. */
  lemma OutputsKept(s: State, t: State, i: nat)
    requires Outputs(s) && i < |s.procs| == |t.procs|
    requires forall j :: 0 <= j < |s.procs| && j != i ==>
      && Got(t, j) == Got(s, j) && Holding(t, t.procs[j]) == Holding(s, s.procs[j])
      && t.procs[j] == s.procs[j].(adj := t.procs[j].adj)
    requires t.procs[i].role == s.procs[i].role && t.procs[i].file == s.procs[i].file
    requires s.procs[i].cursor <= t.procs[i].cursor <= |t.procs[i].file|
    requires Sourced(t, i)
    requires Got(t, i) != [] ==> Got(s, i) != [] && Got(t, i)[0] == Got(s, i)[0]
    ensures Outputs(t)
  {
    forall j | 0 <= j < |s.procs| ensures Sourced(t, j) {
      assert Sourced(s, j);
    }
  }

  /** A step that moves no data. */
  ghost predicate Quiet(a: Proc, b: Proc) {
    && b == a.(at := b.at, adj := b.adj, finished := b.finished)
    && (a.role.Reader? ==> a.at != Copy && a.at != Print && b.at != Copy && b.at != Print)
  }

  lemma QuietKeepsOutputs(s: State, i: nat, p: Proc, v: Sems)
    requires Outputs(s) && Locals(s) && i < |s.procs| && Quiet(s.procs[i], p)
    ensures Outputs(Moved(s, i, p, v))
  {
    assert Sourced(s, i) && DataFits(s.procs[i], i);
    OutputsKept(s, Moved(s, i, p, v), i);
  }

  /** What a step of one process has to respect besides the pair it may be in. */
  ghost predicate Allowed(s: State, i: nat, p: Proc, v: Sems)
    requires i < |s.procs|
  {
    && p.role == s.procs[i].role && AdjustmentsFit(p) && DataFits(p, i)
    && (forall id :: id != PRINT && id != MEMORY ==> v.Get(id) == s.sems.Get(id) + Share(p, id) - Share(s.procs[i], id))
    && (Active(p) ==> NobodyElse(s, i))
    && v.print_ >= 0 && v.memory >= 0 && Setup(Moved(s, i, p, v), i)
    && (p.adj.Get(Token(p.role)) in {s.procs[i].adj.Get(Token(p.role)), 0} || NobodyElse(s, i))
    && (forall j :: 0 <= j < |s.procs| && j != i ==>
          && (2 <= Rank(s.procs[j].at) <= 3 ==> Paired(p) ==> Paired(s.procs[i]))
          && (s.procs[j].at == Take || s.procs[j].at == Join ==>
            v.Get(Token(s.procs[j].role)) == s.sems.Get(Token(s.procs[j].role))))
  }

  ghost predicate Core(s: State) {
    Sums(s) && Locals(s) && OnePerRole(s) && Setups(s)
  }

  lemma CoreKept(s: State, i: nat, p: Proc, v: Sems)
    requires Core(s) && i < |s.procs| && Allowed(s, i, p, v)
    ensures Core(Moved(s, i, p, v))
  {
    SumsKept(s, i, p, v);
    LocalsKept(s, i, p, v);
    OneKept(s, i, p, v);
    SetupsKept(s, i, p, v);
  }

  /** Somebody active is alone in its role. */
  lemma AloneInRole(s: State, i: nat)
    requires OnePerRole(s) && i < |s.procs| && Active(s.procs[i])
    ensures NobodyElse(s, i)
    ensures forall j :: 0 <= j < |s.procs| && j != i && s.procs[j].role == s.procs[i].role ==> !Active(s.procs[j])
  {
    forall j | 0 <= j < |s.procs| && j != i && s.procs[j].role == s.procs[i].role ensures !Active(s.procs[j]) {
      assert SameRole(s, i, j);
    }
  }

  // ---------- The steps before the loop ----------

  lemma EnterAllowed(s: State, i: nat, q: Proc, v: Sems)
    requires Core(s) && i < |s.procs| && s.procs[i].at == Enter
    requires var e := Exist(q.role);
      s.sems.Get(e) == 0 && v == s.sems.Set(e, 1)
      && q == s.procs[i].(at := AwaitUnpaired, adj := s.procs[i].adj.Set(e, s.procs[i].adj.Get(e) - 1))
    ensures Allowed(s, i, q, v)
    ensures forall j :: 0 <= j < |s.procs| && s.procs[j].role == q.role ==> !Active(s.procs[j])
  {
    NobodyActive(s, q.role);
    assert AdjustmentsFit(s.procs[i]);
  }

  lemma EnterKeeps(s: State, i: nat)
    requires Inv(s) && i < |s.procs| && s.procs[i].at == Enter
    ensures Inv(SemopStep(s, i))
  {
    var p := s.procs[i];
    var e := Exist(p.role);
    EnterOutcome(s.sems, p.adj, p.role);
    if s.sems.Get(e) == 0 {
      var q := p.(at := AwaitUnpaired, adj := p.adj.Set(e, p.adj.Get(e) - 1));
      var v := s.sems.Set(e, 1);
      EnterAllowed(s, i, q, v);
      CoreKept(s, i, q, v);
      NoPairs(Moved(s, i, q, v), p.role);
      QuietKeepsOutputs(s, i, q, v);
    }
  }

  lemma AwaitKeeps(s: State, i: nat)
    requires Inv(s) && i < |s.procs| && s.procs[i].at == AwaitUnpaired
    ensures Inv(SemopStep(s, i))
  {
    var p := s.procs[i];
    AwaitOutcome(s.sems, p.adj);
    if s.sems.pair == 0 {
      var q, v := p.(at := SetVal), s.sems;
      NobodyPaired(s);
      AloneInRole(s, i);
      CoreKept(s, i, q, v);
      NoPairs(Moved(s, i, q, v), p.role);
      QuietKeepsOutputs(s, i, q, v);
    }
  }

  lemma TakeAllowed(s: State, i: nat, q: Proc, v: Sems)
    requires Core(s) && i < |s.procs| && s.procs[i].at == Take
    requires var (p, e, k) := (s.procs[i], Exist(q.role), Token(q.role));
      q == p.(at := Join, adj := p.adj.Set(e, p.adj.Get(e) - 1).Set(k, p.adj.Get(k) + 1))
      && v == s.sems.Set(e, 2).Set(k, Initial(q.role) - 1)
    ensures Allowed(s, i, q, v)
    ensures s.sems.Get(Exist(q.role)) == 1 && s.sems.Get(Token(q.role)) == Initial(q.role)
  {
    assert Setup(s, i);
    ExistIsShare(s, i);
    AloneInRole(s, i);
    assert AdjustmentsFit(s.procs[i]);
  }

  lemma TakeTokens(s: State, i: nat, t: State)
    requires Core(s) && i < |s.procs| == |t.procs| && s.procs[i].at == Take
    requires t.procs == s.procs[i := t.procs[i]] && t.procs[i].role == s.procs[i].role && t.procs[i].at == Join
    requires Core(t)
    ensures Tokens(t) && Streams(t)
  {
    assert Setup(s, i) && Setup(t, i);
    forall a, b | IsPair(t, a, b) && Ready(t.procs[a]) && Ready(t.procs[b])
      ensures TokenOk(t, t.procs[a], t.procs[b]) && (!Paired(t.procs[a]) || !Paired(t.procs[b]))
    {
      assert SameRole(t, i, a) || SameRole(t, i, b);
      assert Setup(t, a) && Setup(t, b);
      assert DataFits(t.procs[a], a) && DataFits(t.procs[b], b);
    }
  }

  lemma TakeResult(s: State, i: nat, q: Proc, v: Sems)
    requires i < |s.procs| && s.procs[i].at == Take
    requires var (p, e, k) := (s.procs[i], Exist(q.role), Token(q.role));
      q == p.(at := Join, adj := p.adj.Set(e, p.adj.Get(e) - 1).Set(k, p.adj.Get(k) + 1))
      && v == s.sems.Set(e, 2).Set(k, Initial(q.role) - 1)
      && s.sems.Get(e) == 1 && s.sems.Get(k) == Initial(q.role) && !p.finished
    ensures SemopStep(s, i) == Moved(s, i, q, v)
  {
    TakeOutcome(s.sems, s.procs[i].adj, q.role);
  }

  lemma TakeKeeps(s: State, i: nat)
    requires Inv(s) && i < |s.procs| && s.procs[i].at == Take
    ensures Inv(SemopStep(s, i))
  {
    var p := s.procs[i];
    var e, k := Exist(p.role), Token(p.role);
    var q := p.(at := Join, adj := p.adj.Set(e, p.adj.Get(e) - 1).Set(k, p.adj.Get(k) + 1));
    var v := s.sems.Set(e, 2).Set(k, Initial(p.role) - 1);
    TakeAllowed(s, i, q, v);
    assert DataFits(p, i);
    TakeResult(s, i, q, v);
    CoreKept(s, i, q, v);
    TakeTokens(s, i, Moved(s, i, q, v));
    QuietKeepsOutputs(s, i, q, v);
  }

  // ---------- SETVAL ----------

  /** What SETVAL does to a process: its adjustment for that semaphore is cleared. */
  lemma SetValProc(s: State, i: nat, j: nat)
    requires i < |s.procs| && j < |s.procs| && s.procs[i].at == SetVal
    ensures var q := s.procs[j].(adj := s.procs[j].adj.Set(Token(s.procs[i].role), 0));
      Stepped(s, i, 0).procs[j] == if j == i then q.(at := Take) else q
  {
  }

  lemma SetValLocals(s: State, i: nat)
    requires Locals(s) && i < |s.procs| && s.procs[i].at == SetVal
    requires forall j :: 0 <= j < |s.procs| && j != i && s.procs[j].role == s.procs[i].role ==> !Active(s.procs[j])
    ensures Locals(Stepped(s, i, 0))
  {
    var t := Stepped(s, i, 0);
    forall j | 0 <= j < |s.procs| ensures AdjustmentsFit(t.procs[j]) && DataFits(t.procs[j], j) {
      SetValProc(s, i, j);
      assert AdjustmentsFit(s.procs[j]) && DataFits(s.procs[j], j);
    }
  }

  lemma SetValOne(s: State, i: nat)
    requires OnePerRole(s) && i < |s.procs| && s.procs[i].at == SetVal
    ensures OnePerRole(Stepped(s, i, 0))
  {
    var t := Stepped(s, i, 0);
    forall a, b | SameRole(t, a, b) && Active(t.procs[a]) && Active(t.procs[b]) ensures a == b {
      SetValProc(s, i, a);
      SetValProc(s, i, b);
      assert SameRole(s, a, b);
    }
  }

  lemma SetValSetups(s: State, i: nat)
    requires Core(s) && i < |s.procs| && s.procs[i].at == SetVal
    ensures Setups(Stepped(s, i, 0))
  {
    var t := Stepped(s, i, 0);
    AloneInRole(s, i);
    assert Setup(s, i);
    forall j | 0 <= j < |s.procs|
      ensures t.procs[j].role == s.procs[j].role && (Paired(t.procs[j]) <==> Paired(s.procs[j]))
    {
      SetValProc(s, i, j);
    }
    forall j | 0 <= j < |s.procs| ensures Setup(t, j) {
      SetValSetup(s, i, j);
    }
  }

  lemma SetValSetup(s: State, i: nat, j: nat)
    requires i < |s.procs| && j < |s.procs| && Setup(s, i) && Setup(s, j) && s.procs[i].at == SetVal
    requires j != i && s.procs[j].role == s.procs[i].role ==> !Active(s.procs[j])
    ensures Setup(Stepped(s, i, 0), j)
  {
    var t := Stepped(s, i, 0);
    forall k | 0 <= k < |s.procs|
      ensures Paired(t.procs[k]) ==> Paired(s.procs[k])
      ensures k != j && 3 <= Rank(t.procs[j].at) <= 11 ==> t.procs[k].adj.Get(Token(t.procs[j].role)) == 0
    {
      SetValProc(s, i, k);
      SetValProc(s, i, j);
    }
    SetValProc(s, i, j);
  }

  lemma SetValSums(s: State, i: nat)
    requires Sums(s) && i < |s.procs| && s.procs[i].at == SetVal
    ensures Sums(Stepped(s, i, 0))
  {
    var k := Token(s.procs[i].role);
    var c := Cleared(s.procs, k);
    var q := c[i].(at := Take);
    TotalCleared(s.procs, k, WEXIST);
    TotalCleared(s.procs, k, REXIST);
    TotalCleared(s.procs, k, PAIR);
    TotalCleared(s.procs, k, FINISH);
    var u := SetValue(s, k, Initial(s.procs[i].role));
    assert Stepped(s, i, 0) == Moved(u, i, q, u.sems);
    SumsKept(u, i, q, u.sems);
  }

  lemma SetValOutputs(s: State, i: nat)
    requires Core(s) && Outputs(s) && i < |s.procs| && s.procs[i].at == SetVal
    ensures Outputs(Stepped(s, i, 0))
  {
    hide Follows;
    assert Sourced(s, i) && DataFits(s.procs[i], i);
    OutputsKept(s, Stepped(s, i, 0), i);
  }

  lemma SetValKeeps(s: State, i: nat)
    requires Inv(s) && i < |s.procs| && s.procs[i].at == SetVal
    ensures Inv(Stepped(s, i, 0))
  {
    SetValSums(s, i);
    AloneInRole(s, i);
    SetValLocals(s, i);
    SetValOne(s, i);
    SetValSetups(s, i);
    SetValOutputs(s, i);
    NoPairs(Stepped(s, i, 0), s.procs[i].role);
  }

  // ---------- Forming the pair ----------

  lemma JoinAllowed(s: State, i: nat, q: Proc, v: Sems) returns (j: nat)
    requires Core(s) && i < |s.procs| && s.procs[i].at == Join && s.sems.Get(Exist(Other(s.procs[i].role))) >= 2
    requires q == s.procs[i].(at := Head, adj := s.procs[i].adj.(pair := s.procs[i].adj.pair - 1))
    requires v == s.sems.(pair := s.sems.pair + 1)
    ensures Allowed(s, i, q, v)
    ensures j < |s.procs| && s.procs[j].role == Other(q.role) && Ready(s.procs[j])
  {
    j := SomebodyReady(s, Other(q.role));
    AloneInRole(s, i);
    AloneInRole(s, j);
    assert Setup(s, i) && AdjustmentsFit(s.procs[i]) && DataFits(s.procs[i], i);
  }

  /** Pairs other than the one in question do not exist. */
  lemma OnlyPair(s: State, w: nat, r: nat)
    requires OnePerRole(s) && IsPair(s, w, r) && Ready(s.procs[w]) && Ready(s.procs[r])
    requires TokenOk(s, s.procs[w], s.procs[r])
    requires Paired(s.procs[w]) && Paired(s.procs[r]) ==> Stream(s, w, r)
    ensures Tokens(s) && Streams(s)
  {
    forall a, b | IsPair(s, a, b) && Ready(s.procs[a]) && Ready(s.procs[b]) ensures a == w && b == r {
      assert SameRole(s, a, w) && SameRole(s, b, r);
    }
  }

  /** Nobody got anything from a writer that has not read yet. */
  lemma NothingFrom(s: State, w: nat)
    requires Outputs(s) && w < |s.procs| && s.procs[w].cursor == 0
    ensures forall k :: 0 <= k < |s.procs| && Got(s, k) != [] ==> Got(s, k)[0].origin != w
  {
    forall k | 0 <= k < |s.procs| && Got(s, k) != [] ensures Got(s, k)[0].origin != w {
      assert Sourced(s, k);
    }
  }

  lemma JoinPair(s: State, i: nat, t: State, w: nat, r: nat)
    requires Core(s) && Tokens(s) && Core(t) && Outputs(t) && i < |s.procs| == |t.procs| && s.procs[i].at == Join
    requires IsPair(s, w, r) && (i == w || i == r) && Ready(s.procs[w]) && Ready(s.procs[r])
    requires t.procs == s.procs[i := t.procs[i]] && t.procs[i] == s.procs[i].(at := Head, adj := t.procs[i].adj)
    requires t.sems == s.sems.(pair := t.sems.pair)
    ensures Tokens(t) && Streams(t)
  {
    hide Stream, Total, Got;
    assert TokenOk(s, s.procs[w], s.procs[r]);
    assert Setup(s, w) && Setup(s, r);
    assert DataFits(t.procs[w], w) && DataFits(t.procs[r], r) && DataFits(s.procs[i], i);
    NothingFrom(t, w);
    if Paired(t.procs[w]) && Paired(t.procs[r]) {
      NewStream(t, w, r);
    }
    OnlyPair(t, w, r);
  }

  /** A pair that has seen no data yet. */
  lemma NewStream(t: State, w: nat, r: nat)
    requires IsPair(t, w, r) && Untouched(t.procs[w]) && Untouched(t.procs[r]) && t.sems.print_ == 0
    requires forall k :: 0 <= k < |t.procs| && Got(t, k) != [] ==> Got(t, k)[0].origin != w
    ensures Stream(t, w, r)
  {
    hide Got;
    assert Flight(t, t.procs[w], t.procs[r]) == [];
  }

  lemma JoinResult(s: State, i: nat)
    requires Core(s) && i < |s.procs| && s.procs[i].at == Join
    ensures SemopStep(s, i) ==
      if s.sems.Get(Exist(Other(s.procs[i].role))) < 2 then s
      else Moved(s, i, s.procs[i].(at := Head, adj := s.procs[i].adj.(pair := s.procs[i].adj.pair - 1)),
                 s.sems.(pair := s.sems.pair + 1))
  {
    NobodyOwes(s);
    TotalAtLeast(s.procs, PAIR, i);
    assert DataFits(s.procs[i], i);
    JoinOutcome(s.sems, s.procs[i].adj, s.procs[i].role);
  }

  lemma JoinKeeps(s: State, i: nat)
    requires Inv(s) && i < |s.procs| && s.procs[i].at == Join
    ensures Inv(SemopStep(s, i))
  {
    JoinResult(s, i);
    var p := s.procs[i];
    if s.sems.Get(Exist(Other(p.role))) >= 2 {
      var q, v := p.(at := Head, adj := p.adj.(pair := p.adj.pair - 1)), s.sems.(pair := s.sems.pair + 1);
      var j := JoinAllowed(s, i, q, v);
      CoreKept(s, i, q, v);
      QuietKeepsOutputs(s, i, q, v);
      JoinPair(s, i, Moved(s, i, q, v), if p.role.Writer? then i else j, if p.role.Writer? then j else i);
    }
  }

  // ---------- The loop ----------

  /** What the invariant says about a pair of an i and a j of the other role. */
  ghost predicate PairFine(s: State, i: nat, j: nat)
    requires i < |s.procs| && j < |s.procs|
  {
    var w, r := if s.procs[i].role.Writer? then i else j, if s.procs[i].role.Writer? then j else i;
    PairOk(s, w, r)
  }

  /** What it says about a ready writer w and a ready reader r. */
  ghost predicate PairOk(s: State, w: nat, r: nat)
    requires w < |s.procs| && r < |s.procs|
  {
    TokenOk(s, s.procs[w], s.procs[r]) && (Paired(s.procs[w]) && Paired(s.procs[r]) ==> Stream(s, w, r))
  }

  /** j is a ready process of the other role. */
  ghost predicate Partner(s: State, i: nat, j: int)
    requires i < |s.procs|
  {
    0 <= j < |s.procs| && s.procs[j].role == Other(s.procs[i].role) && Ready(s.procs[j])
  }

  lemma PairsFine(s: State, i: nat)
    requires Tokens(s) && Streams(s) && i < |s.procs| && Ready(s.procs[i])
    ensures forall j :: Partner(s, i, j) ==> PairFine(s, i, j)
  {
    forall j | Partner(s, i, j) ensures PairFine(s, i, j) {
      assert IsPair(s, i, j) || IsPair(s, j, i);
    }
  }

  lemma PairsKept(s: State, i: nat)
    requires OnePerRole(s) && i < |s.procs| && Ready(s.procs[i])
    requires forall j :: Partner(s, i, j) ==> PairFine(s, i, j)
    ensures Tokens(s) && Streams(s)
  {
    forall a, b | IsPair(s, a, b) && Ready(s.procs[a]) && Ready(s.procs[b])
      ensures TokenOk(s, s.procs[a], s.procs[b]) && (Paired(s.procs[a]) && Paired(s.procs[b]) ==> Stream(s, a, b))
    {
      assert SameRole(s, i, a) || SameRole(s, i, b);
      assert Partner(s, i, if a == i then b else a);
    }
  }

  /** One step of a ready process: the core, its pair and the outputs. */
  lemma ReadyKeeps(s: State, i: nat, p: Proc, v: Sems)
    requires Inv(s) && i < |s.procs| && Ready(s.procs[i]) && Ready(p)
    requires Allowed(s, i, p, v) && Outputs(Moved(s, i, p, v))
    requires forall j :: Partner(s, i, j) && PairFine(s, i, j) ==> PairFine(Moved(s, i, p, v), i, j)
    ensures Inv(Moved(s, i, p, v))
  {
    var t := Moved(s, i, p, v);
    CoreKept(s, i, p, v);
    PairsFine(s, i);
    forall j | Partner(t, i, j) ensures PairFine(t, i, j) {
      assert Partner(s, i, j);
    }
    PairsKept(t, i);
  }

  lemma ReadyAllowed(s: State, i: nat, p: Proc, v: Sems)
    requires Core(s) && i < |s.procs| && Paired(s.procs[i]) && Paired(p) && p.role == s.procs[i].role
    requires p.adj == s.procs[i].adj.(finish := p.adj.finish)
    requires AdjustmentsFit(p) && DataFits(p, i)
    requires v == s.sems.(print_ := v.print_, memory := v.memory, finish := v.finish)
    requires v.finish - s.sems.finish == Share(p, FINISH) - Share(s.procs[i], FINISH)
    requires v.print_ >= 0 && v.memory >= 0
    requires forall j :: Partner(s, i, j) ==>
      Paired(s.procs[j]) || v.Get(Token(Other(p.role))) == s.sems.Get(Token(Other(p.role)))
    ensures Allowed(s, i, p, v)
  {
    AloneInRole(s, i);
    assert Setup(s, i);
    forall j | 0 <= j < |s.procs| && j != i
      ensures s.procs[j].at == Take || s.procs[j].at == Join ==>
        v.Get(Token(s.procs[j].role)) == s.sems.Get(Token(s.procs[j].role))
      ensures !(2 <= Rank(s.procs[j].at) <= 3) || Paired(s.procs[i])
    {
      assert Setup(s, j);
      if s.procs[j].role != p.role && Ready(s.procs[j]) {
        assert Partner(s, i, j);
      }
    }
  }

  /** Giving up at the loop head. */
  lemma GiveUpKeeps(s: State, i: nat)
    requires Inv(s) && i < |s.procs| && s.procs[i].at == Head
    ensures Inv(Moved(s, i, s.procs[i].(at := Leave), s.sems))
  {
    var q := s.procs[i].(at := Leave);
    assert AdjustmentsFit(s.procs[i]) && DataFits(s.procs[i], i);
    ReadyAllowed(s, i, q, s.sems);
    QuietKeepsOutputs(s, i, q, s.sems);
    var t := Moved(s, i, q, s.sems);
    forall j | Partner(s, i, j) && PairFine(s, i, j) ensures PairFine(t, i, j) {
      GiveUpPair(s, i, j);
    }
    ReadyKeeps(s, i, q, s.sems);
  }

  lemma GiveUpPair(s: State, i: nat, j: nat)
    requires i < |s.procs| && s.procs[i].at == Head && Partner(s, i, j) && PairFine(s, i, j)
    ensures PairFine(Moved(s, i, s.procs[i].(at := Leave), s.sems), i, j)
  {
    if s.procs[i].role.Writer? {
      WriterGivesUp(s, i, j);
    } else {
      ReaderGivesUp(s, i, j);
    }
  }

  lemma WriterGivesUp(s: State, w: nat, r: nat)
    requires IsPair(s, w, r) && s.procs[w].at == Head && Ready(s.procs[r]) && PairOk(s, w, r)
    ensures PairOk(Moved(s, w, s.procs[w].(at := Leave), s.sems), w, r)
  {
    var q := s.procs[w].(at := Leave);
    var t := Moved(s, w, q, s.sems);
    if Paired(s.procs[r]) {
      forall k | 0 <= k < |s.procs| ensures Got(t, k) == Got(s, k) {}
      assert Flight(t, q, s.procs[r]) == Flight(s, s.procs[w], s.procs[r]);
      StreamKept(s, t, w, r);
    }
  }

  lemma ReaderGivesUp(s: State, r: nat, w: nat)
    requires IsPair(s, w, r) && s.procs[r].at == Head && Ready(s.procs[w]) && PairOk(s, w, r)
    ensures PairOk(Moved(s, r, s.procs[r].(at := Leave), s.sems), w, r)
  {
    hide Stream;
    assert TokenOk(s, s.procs[w], s.procs[r]);
    if Paired(s.procs[w]) {
      LeavingStream(s, r, w);
    }
  }

  lemma LeavingStream(s: State, r: nat, w: nat)
    requires IsPair(s, w, r) && s.procs[r].at == Head && Stream(s, w, r)
    ensures Stream(Moved(s, r, s.procs[r].(at := Leave), s.sems), w, r)
  {
    var q := s.procs[r].(at := Leave);
    var t := Moved(s, r, q, s.sems);
    forall k | 0 <= k < |s.procs| ensures Got(t, k) == Got(s, k) {}
    assert Flight(t, s.procs[w], q) == Flight(s, s.procs[w], s.procs[r]);
    hide Got, Follows, Flight;
    StreamKept(s, t, w, r);
  }

  /** Nobody but the reader got anything new. */
  lemma StreamKept(s: State, t: State, w: nat, r: nat)
    requires |s.procs| == |t.procs| && w < |s.procs| && r < |s.procs| && Stream(s, w, r)
    requires forall k :: 0 <= k < |s.procs| && k != r ==> Got(t, k) == Got(s, k)
    requires var (a, b) := (t.procs[w], t.procs[r]);
      && Follows(Flight(t, a, b), b.out, b.whole, a.file, a.cursor) && From(b.out, w)
      && (a.at == Post ==> t.shm == a.buffer) && (t.sems.print_ >= 1 && !a.finished ==> t.shm != [])
    ensures Stream(t, w, r)
  {
  }

  /** With PAIR at 2, every partner is paired. */
  lemma PartnersPaired(s: State, i: nat) returns (j: nat)
    requires Core(s) && i < |s.procs| && Paired(s.procs[i]) && s.sems.pair >= 2
    ensures Partner(s, i, j) && Paired(s.procs[j]) && forall k :: Partner(s, i, k) ==> k == j
  {
    j := PartnerOf(s, i);
    forall k | Partner(s, i, k) ensures k == j {
      assert SameRole(s, j, k);
    }
  }

  /** The writer takes MEMORY: nothing is in flight. */
  lemma HeadWriterPair(s: State, w: nat, r: nat, t: State)
    requires w < |s.procs| && s.procs[w].role.Writer? && s.procs[w].at == Head && s.sems.memory >= 1
    requires s.sems.print_ >= 0
    requires Partner(s, w, r) && Paired(s.procs[r]) && PairFine(s, w, r)
    requires t == Moved(s, w, s.procs[w].(at := Read), s.sems.(memory := s.sems.memory - 1))
    ensures PairFine(t, w, r)
  {
    hide Stream;
    assert TokenOk(s, s.procs[w], s.procs[r]);
    assert s.sems.print_ == 0 && !Inside(s.procs[r]);
    HeadWriterStream(s, w, r, t);
    assert TokenOk(t, t.procs[w], t.procs[r]);
  }

  lemma HeadWriterStream(s: State, w: nat, r: nat, t: State)
    requires IsPair(s, w, r) && s.procs[w].at == Head && s.sems.print_ == 0 && Stream(s, w, r)
    requires t == Moved(s, w, s.procs[w].(at := Read), s.sems.(memory := s.sems.memory - 1))
    ensures Stream(t, w, r)
  {
    forall k | 0 <= k < |s.procs| ensures Got(t, k) == Got(s, k) {}
    assert Flight(t, t.procs[w], t.procs[r]) == Flight(s, s.procs[w], s.procs[r]);
    hide Got, Follows, Flight;
    StreamKept(s, t, w, r);
  }

  lemma HeadWriterKeeps(s: State, w: nat)
    requires Inv(s) && w < |s.procs| && s.procs[w].role.Writer? && s.procs[w].at == Head
    requires s.sems.pair >= 2 && s.sems.memory >= 1
    ensures Inv(Moved(s, w, s.procs[w].(at := Read), s.sems.(memory := s.sems.memory - 1)))
  {
    var q, v := s.procs[w].(at := Read), s.sems.(memory := s.sems.memory - 1);
    assert AdjustmentsFit(s.procs[w]) && DataFits(s.procs[w], w);
    var r := PartnersPaired(s, w);
    ReadyAllowed(s, w, q, v);
    QuietKeepsOutputs(s, w, q, v);
    forall j | Partner(s, w, j) && PairFine(s, w, j) ensures PairFine(Moved(s, w, q, v), w, j) {
      HeadWriterPair(s, w, j, Moved(s, w, q, v));
    }
    ReadyKeeps(s, w, q, v);
  }

  /** The reader takes PRINT: what is in flight is in the shared memory. */
  lemma HeadReaderPair(s: State, r: nat, w: nat, t: State)
    requires r < |s.procs| && s.procs[r].role.Reader? && s.procs[r].at == Head && s.sems.print_ >= 1
    requires s.sems.memory >= 0
    requires Partner(s, r, w) && Paired(s.procs[w]) && PairFine(s, r, w) && !s.procs[w].finished
    requires s.procs[w].at != Print
    requires t == Moved(s, r, s.procs[r].(at := Copy), s.sems.(print_ := s.sems.print_ - 1))
    requires forall k :: 0 <= k < |s.procs| && k != r && s.procs[k].role.Reader? ==> s.procs[k].at != Copy
    ensures PairFine(t, r, w)
  {
    hide Stream;
    assert TokenOk(s, s.procs[w], s.procs[r]);
    assert s.sems.print_ == 1 && !Inside(s.procs[w]);
    HeadReaderStream(s, w, r, t);
    assert TokenOk(t, t.procs[w], t.procs[r]);
  }

  lemma HeadReaderStream(s: State, w: nat, r: nat, t: State)
    requires IsPair(s, w, r) && s.procs[r].at == Head && s.sems.print_ == 1 && Stream(s, w, r)
    requires !Inside(s.procs[w]) && !s.procs[w].finished
    requires t == Moved(s, r, s.procs[r].(at := Copy), s.sems.(print_ := s.sems.print_ - 1))
    ensures Stream(t, w, r)
  {
    forall k | 0 <= k < |s.procs| && k != r ensures Got(t, k) == Got(s, k) {}
    assert Flight(t, t.procs[w], t.procs[r]) == s.shm == Flight(s, s.procs[w], s.procs[r]);
    hide Got, Follows, Flight;
    StreamKept(s, t, w, r);
  }

  lemma HeadReaderSourced(s: State, r: nat, w: nat, t: State)
    requires r < |s.procs| && s.procs[r].role.Reader? && s.procs[r].at == Head && s.sems.print_ >= 1
    requires s.sems.memory >= 0
    requires Partner(s, r, w) && Paired(s.procs[w]) && PairFine(s, r, w) && !s.procs[w].finished
    requires DataFits(s.procs[w], w)
    requires t == Moved(s, r, s.procs[r].(at := Copy), s.sems.(print_ := s.sems.print_ - 1))
    ensures Sourced(t, r) && Got(t, r)[0].origin == w
    ensures forall k :: 0 <= k < |s.procs| && k != r && Got(s, k) != [] ==> Got(s, k)[0].origin != w
  {
    var a, b := s.procs[w], s.procs[r];
    assert Stream(s, w, r) && Flight(s, a, b) == s.shm && s.shm != [];
    assert Got(t, r) == b.out + s.shm;
    AllFollows(s.shm, b.out, b.whole, a.file, a.cursor, w);
  }

  lemma AllFollows(data: seq<Byte>, out: seq<Byte>, whole: bool, file: seq<Byte>, cursor: nat, w: nat)
    requires Follows(data, out, whole, file, cursor) && From(out, w) && From(file, w) && data != []
    ensures From(out + data, w) && (out + data)[0].origin == w
    ensures if whole then |out + data| == cursor && out + data == file[..|out + data|] else |out + data| < cursor
  {
    FromSlice(file, cursor - |data|, cursor, w);
    GotFrom(out, data, w);
    if whole {
      Rejoin(file, cursor, |data|);
    }
  }

  lemma Rejoin(file: seq<Byte>, cursor: nat, n: nat)
    requires n <= cursor <= |file|
    ensures file[..cursor - n] + file[cursor - n..cursor] == file[..cursor]
  {
  }

  /** A reader got more from a writer that nobody else got anything from. */
  lemma OutputsGrown(s: State, t: State, r: nat)
    requires Outputs(s) && r < |s.procs| == |t.procs| && Sourced(t, r)
    requires forall j :: 0 <= j < |s.procs| && j != r ==>
      Got(t, j) == Got(s, j) && Holding(t, t.procs[j]) == Holding(s, s.procs[j]) && t.procs[j] == s.procs[j]
    requires t.procs[r].role == s.procs[r].role && t.procs[r].file == s.procs[r].file
    requires t.procs[r].cursor == s.procs[r].cursor
    requires Got(t, r) != [] ==>
      forall k :: 0 <= k < |s.procs| && k != r && Got(s, k) != [] ==> Got(s, k)[0].origin != Got(t, r)[0].origin
    ensures Outputs(t)
  {
    forall j | 0 <= j < |s.procs| ensures Sourced(t, j) {
      assert Sourced(s, j);
    }
  }

  lemma GotFrom(a: seq<Byte>, b: seq<Byte>, w: nat)
    requires From(a, w) && From(b, w)
    ensures From(a + b, w) && (a + b != [] ==> (a + b)[0].origin == w)
  {
  }

  lemma HeadReaderAllowed(s: State, r: nat) returns (w: nat)
    requires Core(s) && r < |s.procs| && s.procs[r].role.Reader? && s.procs[r].at == Head
    requires s.sems.pair >= 2 && s.sems.print_ >= 1 && s.sems.finish == 0
    ensures Allowed(s, r, s.procs[r].(at := Copy), s.sems.(print_ := s.sems.print_ - 1))
    ensures Partner(s, r, w) && Paired(s.procs[w]) && forall k :: Partner(s, r, k) ==> k == w
    ensures !s.procs[w].finished && s.procs[w].at != Print && DataFits(s.procs[w], w)
    ensures forall k :: 0 <= k < |s.procs| && k != r && s.procs[k].role.Reader? ==> s.procs[k].at != Copy
  {
    assert AdjustmentsFit(s.procs[r]) && DataFits(s.procs[r], r);
    w := PartnersPaired(s, r);
    NobodyOwes(s);
    TotalAtLeast(s.procs, FINISH, w);
    assert AdjustmentsFit(s.procs[w]) && DataFits(s.procs[w], w);
    AloneInRole(s, r);
    ReadyAllowed(s, r, s.procs[r].(at := Copy), s.sems.(print_ := s.sems.print_ - 1));
  }

  lemma HeadReaderKeeps(s: State, r: nat)
    requires Inv(s) && r < |s.procs| && s.procs[r].role.Reader? && s.procs[r].at == Head
    requires s.sems.pair >= 2 && s.sems.print_ >= 1 && s.sems.finish == 0
    ensures Inv(Moved(s, r, s.procs[r].(at := Copy), s.sems.(print_ := s.sems.print_ - 1)))
  {
    var q, v := s.procs[r].(at := Copy), s.sems.(print_ := s.sems.print_ - 1);
    var w := HeadReaderAllowed(s, r);
    PairsFine(s, r);
    HeadReaderSourced(s, r, w, Moved(s, r, q, v));
    OutputsGrown(s, Moved(s, r, q, v), r);
    HeadReaderPair(s, r, w, Moved(s, r, q, v));
    ReadyKeeps(s, r, q, v);
  }

  lemma HeadKeeps(s: State, i: nat)
    requires Inv(s) && i < |s.procs| && s.procs[i].at == Head
    ensures Inv(SemopStep(s, i))
  {
    var p := s.procs[i];
    assert DataFits(p, i);
    HeadOutcome(s.sems, p.adj, p.role);
    if s.sems.pair < 2 || (p.role.Reader? && s.sems.print_ >= 1 && s.sems.finish != 0) {
      GiveUpKeeps(s, i);
      assert SemopStep(s, i) == Moved(s, i, p.(at := Leave), s.sems);
    } else if s.sems.Get(Token(Other(p.role))) < 1 {
      assert SemopStep(s, i) == s;
    } else if p.role.Writer? {
      HeadWriterKeeps(s, i);
      assert SemopStep(s, i) == Moved(s, i, p.(at := Read), s.sems.(memory := s.sems.memory - 1));
    } else {
      HeadReaderKeeps(s, i);
      assert SemopStep(s, i) == Moved(s, i, p.(at := Copy), s.sems.(print_ := s.sems.print_ - 1));
    }
  }

  // ---------- The writer inside ----------

  /** The writer after a read of n bytes. */
  ghost function AfterRead(p: Proc, n: nat): Proc
    requires p.cursor + n <= |p.file|
  {
    if n == 0 then p.(at := PostFinish, buffer := [])
    else p.(at := Copy, buffer := p.file[p.cursor..p.cursor + n], cursor := p.cursor + n)
  }

  lemma ReadFollows(p: Proc, n: nat, out: seq<Byte>, whole: bool)
    requires p.cursor + n <= |p.file| && Follows([], out, whole, p.file, p.cursor)
    ensures Follows(if n == 0 then [] else p.file[p.cursor..p.cursor + n], out, whole, p.file, AfterRead(p, n).cursor)
  {
    var q := AfterRead(p, n);
    if n > 0 {
      assert q.cursor - n == p.cursor && |p.file[p.cursor..p.cursor + n]| == n;
    }
  }

  lemma ReadPair(s: State, w: nat, r: nat, n: nat)
    requires w < |s.procs| && Partner(s, w, r) && PairFine(s, w, r)
    requires s.procs[w].role.Writer? && s.procs[w].at == Read && s.sems.print_ >= 0 && s.sems.memory >= 0
    requires !s.procs[w].finished && s.procs[w].cursor + n <= |s.procs[w].file|
    ensures PairFine(Moved(s, w, AfterRead(s.procs[w], n), s.sems), w, r)
  {
    hide Stream;
    assert TokenOk(s, s.procs[w], s.procs[r]);
    if Paired(s.procs[r]) {
      ReadStream(s, w, r, n);
    }
  }

  lemma ReadStream(s: State, w: nat, r: nat, n: nat)
    requires IsPair(s, w, r) && Stream(s, w, r) && s.procs[w].at == Read && s.sems.print_ == 0 && !Inside(s.procs[r])
    requires !s.procs[w].finished && s.procs[w].cursor + n <= |s.procs[w].file|
    ensures Stream(Moved(s, w, AfterRead(s.procs[w], n), s.sems), w, r)
  {
    hide Got, Follows;
    var q := AfterRead(s.procs[w], n);
    var t := Moved(s, w, q, s.sems);
    ReadFlight(s, s.procs[w], s.procs[r], t, q, n);
    ReadFollows(s.procs[w], n, s.procs[r].out, s.procs[r].whole);
    ReadOthers(s, w, q);
    hide Flight;
    StreamKept(s, t, w, r);
  }

  /** Before the read nothing is in flight, then just the bytes read are. */
  lemma ReadFlight(s: State, w: Proc, r: Proc, t: State, q: Proc, n: nat)
    requires w.at == Read && w.cursor + n <= |w.file| && q == AfterRead(w, n) && !Inside(r)
    requires s.sems.print_ == t.sems.print_ == 0
    ensures Flight(s, w, r) == []
    ensures Flight(t, q, r) == if n == 0 then [] else w.file[w.cursor..w.cursor + n]
  {
  }

  lemma ReadOthers(s: State, w: nat, q: Proc)
    requires w < |s.procs| && s.procs[w].role.Writer? && q.role.Writer? && q.out == s.procs[w].out
    ensures forall k :: 0 <= k < |s.procs| ==> Got(Moved(s, w, q, s.sems), k) == Got(s, k)
  {
  }

  lemma WriterOutputs(s: State, w: nat, q: Proc)
    requires Outputs(s) && Locals(s) && w < |s.procs| && s.procs[w].role.Writer?
    requires q.role.Writer? && q.file == s.procs[w].file && s.procs[w].cursor <= q.cursor <= |q.file| && q.out == []
    ensures Outputs(Moved(s, w, q, s.sems))
  {
    assert DataFits(s.procs[w], w);
    OutputsKept(s, Moved(s, w, q, s.sems), w);
  }

  lemma ReadFits(p: Proc, w: nat, n: nat)
    requires AdjustmentsFit(p) && DataFits(p, w) && p.role.Writer? && p.at == Read && CanRead(p, n)
    requires p.cursor + n <= |p.file|
    ensures AdjustmentsFit(AfterRead(p, n)) && DataFits(AfterRead(p, n), w)
    ensures Paired(p) && Paired(AfterRead(p, n))
  {
  }

  lemma ReadAllowed(s: State, w: nat, n: nat)
    requires Core(s) && w < |s.procs| && s.procs[w].at == Read && CanRead(s.procs[w], n)
    requires s.procs[w].cursor + n <= |s.procs[w].file|
    ensures Allowed(s, w, AfterRead(s.procs[w], n), s.sems)
  {
    assert AdjustmentsFit(s.procs[w]) && DataFits(s.procs[w], w) && s.procs[w].role.Writer?;
    ReadFits(s.procs[w], w, n);
    hide AdjustmentsFit, DataFits, Allowed, Sums, Total;
    ReadyAllowed(s, w, AfterRead(s.procs[w], n), s.sems);
  }

  lemma ReadResult(s: State, w: nat, n: nat)
    requires w < |s.procs| && s.procs[w].at == Read && s.procs[w].cursor <= |s.procs[w].file|
    ensures var p := s.procs[w];
      Stepped(s, w, n) == if CanRead(p, n) && p.cursor + n <= |p.file| then Moved(s, w, AfterRead(p, n), s.sems) else s
  {
  }

  lemma ReadKeeps(s: State, w: nat, n: nat)
    requires Inv(s) && w < |s.procs| && s.procs[w].at == Read
    ensures Inv(Stepped(s, w, n))
  {
    var p := s.procs[w];
    assert DataFits(p, w);
    ReadResult(s, w, n);
    if CanRead(p, n) && p.cursor + n <= |p.file| {
      var q := AfterRead(p, n);
      ReadAllowed(s, w, n);
      WriterOutputs(s, w, q);
      forall j | Partner(s, w, j) && PairFine(s, w, j) ensures PairFine(Moved(s, w, q, s.sems), w, j) {
        ReadPair(s, w, j, n);
      }
      ReadyKeeps(s, w, q, s.sems);
    }
  }

  /** The writer's steps from its copy on: storing in the shared memory, posting, and posting
      with FINISH. */
  ghost predicate StoresOrPosts(s: State, w: nat, q: Proc, v: Sems, shm: seq<Byte>)
    requires w < |s.procs|
  {
    var p := s.procs[w];
    || (p.at == Copy && q.at == Post && shm == q.buffer && v.print_ == s.sems.print_ && !q.finished)
    || (p.at == Post && q.at == Head && shm == s.shm && v.print_ == s.sems.print_ + 1
        && !q.finished && q.buffer != [])
    || (p.at == PostFinish && q.at == Leave && shm == s.shm && v.print_ == s.sems.print_ + 1 && q.finished)
  }

  /** They move nothing from or to the flight. */
  lemma WriterPair(s: State, w: nat, r: nat, q: Proc, v: Sems, shm: seq<Byte>)
    requires w < |s.procs| && Partner(s, w, r) && PairFine(s, w, r)
    requires s.procs[w].role.Writer? && q == s.procs[w].(at := q.at, adj := q.adj, finished := q.finished)
    requires s.sems.print_ >= 0 && s.sems.memory >= 0 && Inside(s.procs[w])
    requires v.memory == s.sems.memory && StoresOrPosts(s, w, q, v, shm)
    requires forall k :: 0 <= k < |s.procs| && s.procs[k].role.Reader? && s.procs[k].at == Copy ==> shm == s.shm
    ensures PairFine(Moved(s, w, q, v).(shm := shm), w, r)
  {
    hide Stream;
    assert TokenOk(s, s.procs[w], s.procs[r]);
    if Paired(s.procs[r]) {
      WriterStream(s, w, r, q, v, shm);
    }
  }

  lemma WriterStream(s: State, w: nat, r: nat, q: Proc, v: Sems, shm: seq<Byte>)
    requires IsPair(s, w, r) && Stream(s, w, r) && s.sems.print_ == 0 && !Inside(s.procs[r])
    requires q == s.procs[w].(at := q.at, adj := q.adj, finished := q.finished) && StoresOrPosts(s, w, q, v, shm)
    requires forall k :: 0 <= k < |s.procs| && s.procs[k].role.Reader? && s.procs[k].at == Copy ==> shm == s.shm
    ensures Stream(Moved(s, w, q, v).(shm := shm), w, r)
  {
    var t := Moved(s, w, q, v).(shm := shm);
    assert forall k :: 0 <= k < |s.procs| ==> Got(t, k) == Got(s, k);
    assert Flight(t, q, s.procs[r]) == Flight(s, s.procs[w], s.procs[r]);
    hide Got, Follows, Flight;
    StreamKept(s, t, w, r);
  }

  /** While the writer is inside, no reader is. */
  lemma NoReaderInside(s: State, w: nat)
    requires OnePerRole(s) && Tokens(s) && w < |s.procs| && s.procs[w].role.Writer? && Inside(s.procs[w])
    requires s.sems.print_ >= 0 && s.sems.memory >= 0
    ensures forall k :: 0 <= k < |s.procs| && s.procs[k].role.Reader? ==> !Inside(s.procs[k])
  {
    forall k | 0 <= k < |s.procs| && s.procs[k].role.Reader? ensures !Inside(s.procs[k]) {
      assert IsPair(s, w, k);
    }
  }

  /** One step of a ready process that may also store in the shared memory. */
  lemma StoreKeeps(s: State, i: nat, p: Proc, v: Sems, shm: seq<Byte>)
    requires Inv(s) && i < |s.procs| && Ready(s.procs[i]) && Ready(p)
    requires Allowed(s, i, p, v) && Outputs(Moved(s, i, p, v).(shm := shm))
    requires forall j :: Partner(s, i, j) && PairFine(s, i, j) ==> PairFine(Moved(s, i, p, v).(shm := shm), i, j)
    ensures Inv(Moved(s, i, p, v).(shm := shm))
  {
    var t := Moved(s, i, p, v).(shm := shm);
    CoreKept(s, i, p, v);
    SameCore(Moved(s, i, p, v), t);
    PairsFine(s, i);
    forall j | Partner(t, i, j) ensures PairFine(t, i, j) {
      assert Partner(s, i, j);
    }
    PairsKept(t, i);
  }

  lemma SameCore(s: State, t: State)
    requires Core(s) && t == s.(shm := t.shm)
    ensures Core(t)
  {
    forall j | 0 <= j < |t.procs| ensures Setup(t, j) {
      assert Setup(s, j);
    }
  }

  lemma StoreOutputs(s: State, w: nat, q: Proc, v: Sems, shm: seq<Byte>)
    requires Outputs(s) && Locals(s) && w < |s.procs| && s.procs[w].role.Writer?
    requires q == s.procs[w].(at := q.at, adj := q.adj, finished := q.finished)
    requires forall k :: 0 <= k < |s.procs| && s.procs[k].role.Reader? && s.procs[k].at == Copy ==> shm == s.shm
    ensures Outputs(Moved(s, w, q, v).(shm := shm))
  {
    assert DataFits(s.procs[w], w) && Sourced(s, w);
    OutputsKept(s, Moved(s, w, q, v).(shm := shm), w);
  }

  lemma WriterStepKeeps(s: State, w: nat, q: Proc, v: Sems, shm: seq<Byte>)
    requires Inv(s) && w < |s.procs| && s.procs[w].role.Writer? && Inside(s.procs[w])
    requires q == s.procs[w].(at := q.at, adj := s.procs[w].adj.(finish := q.adj.finish), finished := q.finished)
    requires AdjustmentsFit(q) && DataFits(q, w)
    requires v == s.sems.(print_ := v.print_, finish := v.finish)
    requires v.finish - s.sems.finish == Share(q, FINISH) - Share(s.procs[w], FINISH)
    requires StoresOrPosts(s, w, q, v, shm)
    ensures Inv(Moved(s, w, q, v).(shm := shm))
  {
    NoReaderInside(s, w);
    ReadyAllowed(s, w, q, v);
    StoreOutputs(s, w, q, v, shm);
    forall j | Partner(s, w, j) && PairFine(s, w, j) ensures PairFine(Moved(s, w, q, v).(shm := shm), w, j) {
      WriterPair(s, w, j, q, v, shm);
    }
    StoreKeeps(s, w, q, v, shm);
  }

  lemma WriterCopyKeeps(s: State, w: nat, n: nat)
    requires Inv(s) && w < |s.procs| && s.procs[w].role.Writer? && s.procs[w].at == Copy
    ensures Inv(Stepped(s, w, n))
  {
    var p := s.procs[w];
    assert AdjustmentsFit(p) && DataFits(p, w);
    WriterStepKeeps(s, w, p.(at := Post), s.sems, p.buffer);
  }

  lemma WriterPostResult(s: State, w: nat)
    requires w < |s.procs| && s.procs[w].role.Writer? && s.procs[w].at == Post && s.sems.print_ >= 0
    requires !s.procs[w].finished
    ensures SemopStep(s, w) == Moved(s, w, s.procs[w].(at := Head), s.sems.(print_ := s.sems.print_ + 1)).(shm := s.shm)
  {
    PostOutcome(s.sems, s.procs[w].adj, s.procs[w].role);
  }

  lemma WriterPostKeeps(s: State, w: nat)
    requires Inv(s) && w < |s.procs| && s.procs[w].role.Writer? && s.procs[w].at == Post
    ensures Inv(SemopStep(s, w))
  {
    var p := s.procs[w];
    assert AdjustmentsFit(p) && DataFits(p, w);
    WriterPostResult(s, w);
    WriterStepKeeps(s, w, p.(at := Head), s.sems.(print_ := s.sems.print_ + 1), s.shm);
  }

  lemma PostFinishResult(s: State, w: nat)
    requires w < |s.procs| && s.procs[w].at == PostFinish && s.sems.print_ >= 0 && s.sems.finish >= 0
    ensures var p := s.procs[w];
      SemopStep(s, w) == Moved(s, w, p.(at := Leave, adj := p.adj.(finish := p.adj.finish - 1), finished := true),
        s.sems.(print_ := s.sems.print_ + 1, finish := s.sems.finish + 1)).(shm := s.shm)
  {
    PostFinishOutcome(s.sems, s.procs[w].adj);
  }

  lemma PostFinishKeeps(s: State, w: nat)
    requires Inv(s) && w < |s.procs| && s.procs[w].at == PostFinish
    ensures Inv(SemopStep(s, w))
  {
    var p := s.procs[w];
    assert AdjustmentsFit(p) && DataFits(p, w);
    NobodyOwes(s);
    TotalAtLeast(s.procs, FINISH, w);
    hide Inv, Total;
    PostFinishResult(s, w);
    WriterStepKeeps(s, w, p.(at := Leave, adj := p.adj.(finish := p.adj.finish - 1), finished := true),
                    s.sems.(print_ := s.sems.print_ + 1, finish := s.sems.finish + 1), s.shm);
  }

  // ---------- The reader inside ----------

  /** The reader after copying the shared memory, after printing n bytes, and after posting. */
  ghost function AfterReader(s: State, p: Proc, n: nat): Proc
    requires p.at == Print ==> n <= |p.buffer|
  {
    if p.at == Copy then p.(at := Print, buffer := s.shm)
    else if p.at == Print then p.(at := Post, out := p.out + p.buffer[..n], whole := p.whole && n == |p.buffer|)
    else p.(at := Head)
  }

  ghost predicate ReaderInside(s: State, r: nat, n: nat) {
    && r < |s.procs| && s.procs[r].role.Reader?
    && (s.procs[r].at == Copy || s.procs[r].at == Print || s.procs[r].at == Post)
    && (s.procs[r].at == Print ==> n <= |s.procs[r].buffer|)
  }

  /** While the reader is inside, all that is in flight is what it holds. */
  lemma ReaderFlight(s: State, r: nat, w: nat, n: nat)
    requires ReaderInside(s, r, n) && Partner(s, r, w) && TokenOk(s, s.procs[w], s.procs[r])
    requires s.sems.print_ >= 0 && s.sems.memory >= 0
    ensures s.sems.print_ == s.sems.memory == 0 && !Inside(s.procs[w])
    ensures Flight(s, s.procs[w], s.procs[r]) == Holding(s, s.procs[r])
  {
  }

  /** What the reader does with it. */
  lemma ReaderFollows(s: State, r: nat, n: nat, v: Sems, w: nat, file: seq<Byte>, cursor: nat)
    requires ReaderInside(s, r, n) && From(file, w) && From(s.procs[r].out, w)
    requires Follows(Holding(s, s.procs[r]), s.procs[r].out, s.procs[r].whole, file, cursor)
    ensures var q := AfterReader(s, s.procs[r], n);
      Follows(Holding(Moved(s, r, q, v), q), q.out, q.whole, file, cursor) && From(q.out, w)
  {
    var p := s.procs[r];
    if p.at == Print {
      PrintFollows(p.buffer, p.out, p.whole, file, cursor, w, n);
    }
  }

  lemma ReaderTokens(s: State, r: nat, w: nat, n: nat, v: Sems)
    requires ReaderInside(s, r, n) && Partner(s, r, w) && TokenOk(s, s.procs[w], s.procs[r])
    requires s.sems.print_ >= 0 && s.sems.memory >= 0
    requires v == if s.procs[r].at == Post then s.sems.(memory := s.sems.memory + 1) else s.sems
    ensures TokenOk(Moved(s, r, AfterReader(s, s.procs[r], n), v), s.procs[w], AfterReader(s, s.procs[r], n))
  {
  }

  lemma NothingElseInFlight(s: State, r: nat, q: Proc, v: Sems, w: Proc)
    requires r < |s.procs| && v.print_ == 0 && w.at != Copy && w.at != Post
    ensures Flight(Moved(s, r, q, v), w, q) == Holding(Moved(s, r, q, v), q)
  {
  }

  lemma ReaderStream(s: State, r: nat, w: nat, n: nat, v: Sems)
    requires ReaderInside(s, r, n) && Partner(s, r, w) && Stream(s, w, r) && DataFits(s.procs[w], w)
    requires Flight(s, s.procs[w], s.procs[r]) == Holding(s, s.procs[r])
    requires s.sems.print_ == 0 && v.print_ == 0 && !Inside(s.procs[w])
    ensures Stream(Moved(s, r, AfterReader(s, s.procs[r], n), v), w, r)
  {
    var p, a := s.procs[r], s.procs[w];
    var q := AfterReader(s, p, n);
    var t := Moved(s, r, q, v);
    ReaderFollows(s, r, n, v, w, a.file, a.cursor);
    OthersGot(s, r, q, v);
    NothingElseInFlight(s, r, q, v, a);
    StreamKept(s, t, w, r);
  }

  lemma ReaderPair(s: State, r: nat, w: nat, n: nat, v: Sems)
    requires ReaderInside(s, r, n) && Partner(s, r, w) && PairFine(s, r, w)
    requires s.sems.print_ >= 0 && s.sems.memory >= 0 && DataFits(s.procs[w], w)
    requires v == if s.procs[r].at == Post then s.sems.(memory := s.sems.memory + 1) else s.sems
    ensures PairFine(Moved(s, r, AfterReader(s, s.procs[r], n), v), r, w)
  {
    ReaderTokens(s, r, w, n, v);
    ReaderFlight(s, r, w, n);
    if Paired(s.procs[w]) {
      ReaderStream(s, r, w, n, v);
    }
  }

  lemma PrintFollows(data: seq<Byte>, out: seq<Byte>, whole: bool, file: seq<Byte>, cursor: nat, w: nat, n: nat)
    requires Follows(data, out, whole, file, cursor) && n <= |data| && From(out, w) && From(file, w)
    ensures Follows([], out + data[..n], whole && n == |data|, file, cursor) && From(out + data[..n], w)
  {
    FromSlice(file, cursor - |data|, cursor, w);
    GotFrom(out, data[..n], w);
    if whole && n == |data| {
      Rejoin(file, cursor, n);
      assert data[..n] == data;
    }
  }

  lemma FromSlice(file: seq<Byte>, a: nat, b: nat, w: nat)
    requires From(file, w) && a <= b <= |file|
    ensures From(file[a..b], w)
  {
  }

  /** The reader gets nothing new. */
  lemma ReaderSourced(s: State, r: nat, n: nat, v: Sems)
    requires ReaderInside(s, r, n) && Sourced(s, r)
    ensures var t := Moved(s, r, AfterReader(s, s.procs[r], n), v);
      Sourced(t, r) && (Got(t, r) != [] ==> Got(s, r) != [] && Got(t, r)[0] == Got(s, r)[0])
  {
    var p := s.procs[r];
    var t := Moved(s, r, AfterReader(s, p, n), v);
    var before, after := Got(s, r), Got(t, r);
    if p.at == Print {
      assert after == before[..|p.out| + n];
      if after != [] {
        assert From(after, before[0].origin);
      }
    } else {
      assert after == before;
    }
  }

  lemma ReaderOutputs(s: State, r: nat, n: nat, v: Sems)
    requires Outputs(s) && Locals(s) && ReaderInside(s, r, n)
    ensures Outputs(Moved(s, r, AfterReader(s, s.procs[r], n), v))
  {
    hide AdjustmentsFit;
    assert DataFits(s.procs[r], r) && Sourced(s, r);
    ReaderSourced(s, r, n, v);
    var q := AfterReader(s, s.procs[r], n);
    OthersGot(s, r, q, v);
    OutputsKept(s, Moved(s, r, q, v), r);
  }

  lemma ReaderAllowed(s: State, r: nat, n: nat, v: Sems)
    requires Core(s) && ReaderInside(s, r, n)
    requires v == if s.procs[r].at == Post then s.sems.(memory := s.sems.memory + 1) else s.sems
    ensures Allowed(s, r, AfterReader(s, s.procs[r], n), v)
  {
    assert AdjustmentsFit(s.procs[r]) && DataFits(s.procs[r], r);
    ReadyAllowed(s, r, AfterReader(s, s.procs[r], n), v);
  }

  lemma ReaderInsideKeeps(s: State, r: nat, n: nat, v: Sems)
    requires Inv(s) && ReaderInside(s, r, n)
    requires v == if s.procs[r].at == Post then s.sems.(memory := s.sems.memory + 1) else s.sems
    ensures Inv(Moved(s, r, AfterReader(s, s.procs[r], n), v))
  {
    var q := AfterReader(s, s.procs[r], n);
    ReaderAllowed(s, r, n, v);
    ReaderOutputs(s, r, n, v);
    forall j | Partner(s, r, j) && PairFine(s, r, j) ensures PairFine(Moved(s, r, q, v), r, j) {
      assert DataFits(s.procs[j], j);
      ReaderPair(s, r, j, n, v);
    }
    ReadyKeeps(s, r, q, v);
  }

  lemma ReaderPostKeeps(s: State, r: nat)
    requires Inv(s) && r < |s.procs| && s.procs[r].role.Reader? && s.procs[r].at == Post
    ensures Inv(SemopStep(s, r))
  {
    var p := s.procs[r];
    assert DataFits(p, r);
    PostOutcome(s.sems, p.adj, p.role);
    assert SemopStep(s, r) == Moved(s, r, AfterReader(s, p, 0), s.sems.(memory := s.sems.memory + 1));
    ReaderInsideKeeps(s, r, 0, s.sems.(memory := s.sems.memory + 1));
  }

  // ---------- Leaving ----------

  /** Leaving never waits. */
  lemma LeaveResult(s: State, i: nat)
    requires Core(s) && i < |s.procs| && s.procs[i].at == Leave
    ensures var (p, e) := (s.procs[i], Exist(s.procs[i].role));
      && s.sems.pair >= 1 && s.sems.Get(e) == 2
      && SemopStep(s, i) ==
           Moved(s, i, p.(at := Lingering, adj := p.adj.(pair := p.adj.pair + 1).Set(e, p.adj.Get(e) + 2)),
                 s.sems.(pair := s.sems.pair - 1).Set(e, 0))
  {
    var p := s.procs[i];
    ExistIsShare(s, i);
    NobodyOwes(s);
    TotalAtLeast(s.procs, PAIR, i);
    assert AdjustmentsFit(p);
    LeaveOutcome(s.sems, p.adj, p.role);
  }

  lemma LeaveAllowed(s: State, i: nat, q: Proc, v: Sems)
    requires Core(s) && i < |s.procs| && s.procs[i].at == Leave
    requires var (p, e) := (s.procs[i], Exist(s.procs[i].role));
      && q == p.(at := Lingering, adj := p.adj.(pair := p.adj.pair + 1).Set(e, p.adj.Get(e) + 2))
      && v == s.sems.(pair := s.sems.pair - 1).Set(e, 0) && s.sems.Get(e) == 2
    ensures Allowed(s, i, q, v)
    ensures forall j :: 0 <= j < |s.procs| && j != i && s.procs[j].role == q.role ==> !Active(s.procs[j])
  {
    AloneInRole(s, i);
    assert AdjustmentsFit(s.procs[i]) && DataFits(s.procs[i], i);
  }

  lemma LeaveKeeps(s: State, i: nat)
    requires Inv(s) && i < |s.procs| && s.procs[i].at == Leave
    ensures Inv(SemopStep(s, i))
  {
    var p, e := s.procs[i], Exist(s.procs[i].role);
    var q := p.(at := Lingering, adj := p.adj.(pair := p.adj.pair + 1).Set(e, p.adj.Get(e) + 2));
    var v := s.sems.(pair := s.sems.pair - 1).Set(e, 0);
    LeaveResult(s, i);
    LeaveAllowed(s, i, q, v);
    CoreKept(s, i, q, v);
    NoPairs(Moved(s, i, q, v), p.role);
    QuietKeepsOutputs(s, i, q, v);
  }

  // ---------- Exits and crashes ----------

  /** The values after an exit of process i, which never drop below 0. */
  ghost function ExitSems(s: State, a: Sems): Sems {
    Sems(s.sems.wexist + a.wexist, s.sems.rexist + a.rexist, s.sems.print_ + a.print_,
         s.sems.memory + a.memory, s.sems.pair + a.pair, s.sems.finish + a.finish)
  }

  lemma ExitResult(s: State, i: nat)
    requires Core(s) && i < |s.procs|
    ensures Exit(s, i) == Moved(s, i, s.procs[i].(at := Gone, adj := ZERO), ExitSems(s, s.procs[i].adj))
  {
    NobodyOwes(s);
    TotalAtLeast(s.procs, WEXIST, i);
    TotalAtLeast(s.procs, REXIST, i);
    TotalAtLeast(s.procs, PAIR, i);
    TotalAtLeast(s.procs, FINISH, i);
    assert AdjustmentsFit(s.procs[i]);
  }

  lemma ExitFits(s: State, i: nat)
    requires Core(s) && i < |s.procs|
    ensures var (p, v) := (s.procs[i], ExitSems(s, s.procs[i].adj)); var q := p.(at := Gone, adj := ZERO);
      && AdjustmentsFit(q) && DataFits(q, i) && v.print_ >= 0 && v.memory >= 0
      && forall id :: id != PRINT && id != MEMORY ==> v.Get(id) == s.sems.Get(id) + Share(q, id) - Share(p, id)
  {
    assert AdjustmentsFit(s.procs[i]) && DataFits(s.procs[i], i);
  }

  lemma ExitAllowed(s: State, i: nat)
    requires Core(s) && i < |s.procs|
    ensures Allowed(s, i, s.procs[i].(at := Gone, adj := ZERO), ExitSems(s, s.procs[i].adj))
  {
    hide Core, Setup, AdjustmentsFit, DataFits, Total, ExitSems;
    var v := ExitSems(s, s.procs[i].adj);
    var q := s.procs[i].(at := Gone, adj := ZERO);
    ExitFits(s, i);
    GoneIsSet(s, i, q, v);
    SetTokensStay(s, i);
    assert q.adj.Get(Token(q.role)) == 0 && !Active(q) && !Paired(q);
  }

  lemma SetTokensStay(s: State, i: nat)
    requires Core(s) && i < |s.procs|
    ensures forall j :: 0 <= j < |s.procs| && j != i && (s.procs[j].at == Take || s.procs[j].at == Join) ==>
      ExitSems(s, s.procs[i].adj).Get(Token(s.procs[j].role)) == s.sems.Get(Token(s.procs[j].role))
  {
    hide Core;
    forall j | 0 <= j < |s.procs| && j != i && (s.procs[j].at == Take || s.procs[j].at == Join)
      ensures ExitSems(s, s.procs[i].adj).Get(Token(s.procs[j].role)) == s.sems.Get(Token(s.procs[j].role))
    {
      TakeNotCleared(s, i, j);
    }
  }

  lemma GoneIsSet(s: State, i: nat, q: Proc, v: Sems)
    requires i < |s.procs| && q.at == Gone
    ensures Setup(Moved(s, i, q, v), i)
  {
  }

  /** Once j has set its token, nobody's exit changes it but its own. */
  lemma TakeNotCleared(s: State, i: nat, j: nat)
    requires Core(s) && i < |s.procs| && j < |s.procs| && i != j
    requires 4 <= Rank(s.procs[j].at) <= 11 || s.procs[j].at == Take
    ensures s.procs[i].adj.Get(Token(s.procs[j].role)) == 0
  {
    assert Setup(s, j) && AdjustmentsFit(s.procs[i]);
  }

  /** The exit of somebody who is not ready does not touch a pair. */
  lemma BystanderPair(s: State, i: nat, a: nat, b: nat, v: Sems)
    requires i < |s.procs| && !Ready(s.procs[i]) && i != a && i != b
    requires IsPair(s, a, b) && Ready(s.procs[a]) && Ready(s.procs[b]) && PairOk(s, a, b)
    requires v.print_ == s.sems.print_ && v.memory == s.sems.memory
    ensures PairOk(Moved(s, i, s.procs[i].(at := Gone, adj := ZERO), v), a, b)
  {
    var t := Moved(s, i, s.procs[i].(at := Gone, adj := ZERO), v);
    if Paired(s.procs[a]) && Paired(s.procs[b]) {
      forall k | 0 <= k < |s.procs| && k != i ensures Got(t, k) == Got(s, k) {}
      BystanderStream(s, t, a, b, i);
    }
  }

  /** Nobody but a bystander got less. */
  lemma BystanderStream(s: State, t: State, w: nat, r: nat, i: nat)
    requires |s.procs| == |t.procs| && w < |s.procs| && r < |s.procs| && i < |s.procs| && i != w && i != r
    requires Stream(s, w, r)
    requires t.shm == s.shm && t.sems.print_ == s.sems.print_ && t.procs[w] == s.procs[w] && t.procs[r] == s.procs[r]
    requires forall k :: 0 <= k < |s.procs| && k != i ==> Got(t, k) == Got(s, k)
    requires Got(t, i) <= Got(s, i)
    ensures Stream(t, w, r)
  {
    assert Flight(t, t.procs[w], t.procs[r]) == Flight(s, s.procs[w], s.procs[r]);
  }

  lemma BystanderPairs(s: State, i: nat)
    requires Inv(s) && i < |s.procs| && !Ready(s.procs[i])
    ensures var t := Moved(s, i, s.procs[i].(at := Gone, adj := ZERO), ExitSems(s, s.procs[i].adj));
      Tokens(t) && Streams(t)
  {
    var v := ExitSems(s, s.procs[i].adj);
    var t := Moved(s, i, s.procs[i].(at := Gone, adj := ZERO), v);
    forall a, b | IsPair(t, a, b) && Ready(t.procs[a]) && Ready(t.procs[b]) ensures PairOk(t, a, b) {
      BystanderAt(s, i, a, b);
    }
    AllPairsOk(t);
  }

  lemma BystanderAt(s: State, i: nat, a: nat, b: nat)
    requires Inv(s) && i < |s.procs| && !Ready(s.procs[i]) && i != a && i != b
    requires IsPair(s, a, b) && Ready(s.procs[a]) && Ready(s.procs[b])
    ensures PairOk(Moved(s, i, s.procs[i].(at := Gone, adj := ZERO), ExitSems(s, s.procs[i].adj)), a, b)
  {
    TakeNotCleared(s, i, a);
    TakeNotCleared(s, i, b);
    assert PairOk(s, a, b);
    BystanderPair(s, i, a, b, ExitSems(s, s.procs[i].adj));
  }

  lemma AllPairsOk(s: State)
    requires forall a, b :: IsPair(s, a, b) && Ready(s.procs[a]) && Ready(s.procs[b]) ==> PairOk(s, a, b)
    ensures Tokens(s) && Streams(s)
  {
    forall a, b | IsPair(s, a, b) && Ready(s.procs[a]) && Ready(s.procs[b])
      ensures TokenOk(s, s.procs[a], s.procs[b]) && (Paired(s.procs[a]) && Paired(s.procs[b]) ==> Stream(s, a, b))
    {
      assert PairOk(s, a, b);
    }
  }

  lemma ExitOutputs(s: State, i: nat, v: Sems)
    requires Outputs(s) && Locals(s) && i < |s.procs|
    ensures Outputs(Moved(s, i, s.procs[i].(at := Gone, adj := ZERO), v))
  {
    hide AdjustmentsFit;
    var p := s.procs[i];
    var t := Moved(s, i, p.(at := Gone, adj := ZERO), v);
    assert DataFits(p, i) && Sourced(s, i);
    assert Got(t, i) == p.out && Got(s, i)[..|p.out|] == p.out;
    if p.out != [] {
      assert From(p.out, Got(s, i)[0].origin);
    }
    OutputsKept(s, t, i);
  }

  lemma ExitKeeps(s: State, i: nat)
    requires Inv(s) && i < |s.procs|
    ensures Inv(Exit(s, i))
  {
    var q, v := s.procs[i].(at := Gone, adj := ZERO), ExitSems(s, s.procs[i].adj);
    ExitResult(s, i);
    ExitAllowed(s, i);
    CoreKept(s, i, q, v);
    ExitOutputs(s, i, v);
    if Ready(s.procs[i]) {
      AloneInRole(s, i);
      NoPairs(Moved(s, i, q, v), q.role);
    } else {
      BystanderPairs(s, i);
    }
  }

  // ---------- Starts ----------

  ghost function AfterStart(s: State, role: Role, file: seq<Byte>): State {
    s.(procs := s.procs + [Started(role, file)])
  }

  lemma StartCore(s: State, role: Role, file: seq<Byte>)
    requires Core(s) && From(file, |s.procs|)
    ensures Core(AfterStart(s, role, file))
  {
    var t := AfterStart(s, role, file);
    assert t.procs[..|s.procs|] == s.procs;
    StartOne(s, t);
    StartSetups(s, t);
    hide Setups, OnePerRole;
    forall j | 0 <= j < |t.procs| ensures AdjustmentsFit(t.procs[j]) && DataFits(t.procs[j], j) {
      if j < |s.procs| {
        assert AdjustmentsFit(s.procs[j]) && DataFits(s.procs[j], j);
      }
    }
  }

  /** A process more, which has not entered. */
  ghost predicate Enlarged(s: State, t: State) {
    && |t.procs| == |s.procs| + 1 && t.procs[..|s.procs|] == s.procs && t.sems == s.sems && t.shm == s.shm
    && t.procs[|s.procs|].at == Enter && t.procs[|s.procs|].adj == ZERO
  }

  lemma StartOne(s: State, t: State)
    requires OnePerRole(s) && Enlarged(s, t)
    ensures OnePerRole(t)
  {
    forall a, b | SameRole(t, a, b) && Active(t.procs[a]) && Active(t.procs[b]) ensures a == b {
      assert SameRole(s, a, b);
    }
  }

  lemma StartSetups(s: State, t: State)
    requires Setups(s) && Enlarged(s, t)
    ensures Setups(t)
  {
    forall j | 0 <= j < |t.procs| ensures Setup(t, j) {
      if j < |s.procs| {
        assert Setup(s, j);
      }
    }
  }

  lemma StartKeeps(s: State, role: Role, file: seq<Byte>)
    requires Inv(s) && From(file, |s.procs|)
    ensures Inv(AfterStart(s, role, file))
  {
    var t := AfterStart(s, role, file);
    StartCore(s, role, file);
    assert forall k :: 0 <= k < |s.procs| ==> Got(t, k) == Got(s, k);
    assert Got(t, |s.procs|) == [];
    StartPairs(s, t);
    StartOutputs(s, t);
  }

  lemma StartPairs(s: State, t: State)
    requires Inv(s) && |t.procs| == |s.procs| + 1 && t == s.(procs := s.procs + [t.procs[|s.procs|]])
    requires t.procs[|s.procs|].at == Enter && Got(t, |s.procs|) == []
    requires forall k :: 0 <= k < |s.procs| ==> Got(t, k) == Got(s, k)
    ensures Tokens(t) && Streams(t)
  {
    hide Got, Stream;
    forall a, b | IsPair(t, a, b) && Ready(t.procs[a]) && Ready(t.procs[b])
      ensures TokenOk(t, t.procs[a], t.procs[b]) && (Paired(t.procs[a]) && Paired(t.procs[b]) ==> Stream(t, a, b))
    {
      assert IsPair(s, a, b);
      if Paired(t.procs[a]) && Paired(t.procs[b]) {
        StreamOnStart(s, t, a, b);
      }
    }
  }

  lemma StreamOnStart(s: State, t: State, w: nat, r: nat)
    requires |t.procs| == |s.procs| + 1 && t == s.(procs := s.procs + [t.procs[|s.procs|]])
    requires Got(t, |s.procs|) == [] && forall k :: 0 <= k < |s.procs| ==> Got(t, k) == Got(s, k)
    requires w < |s.procs| && r < |s.procs| && Stream(s, w, r)
    ensures Stream(t, w, r)
  {
    hide Got, Follows;
    assert Flight(t, t.procs[w], t.procs[r]) == Flight(s, s.procs[w], s.procs[r]);
  }

  lemma StartOutputs(s: State, t: State)
    requires Outputs(s) && |t.procs| == |s.procs| + 1 && t == s.(procs := s.procs + [t.procs[|s.procs|]])
    requires t.procs[|s.procs|].at == Enter && Got(t, |s.procs|) == []
    requires forall k :: 0 <= k < |s.procs| ==> Got(t, k) == Got(s, k)
    ensures Outputs(t)
  {
    forall j | 0 <= j < |t.procs| ensures Sourced(t, j) {
      if j < |s.procs| {
        assert Sourced(s, j);
      }
    }
  }

  // ---------- Every step, every run ----------

  lemma StepKeeps(s: State, i: nat, n: nat)
    requires Inv(s) && i < |s.procs|
    ensures Inv(Stepped(s, i, n))
  {
    match s.procs[i].at
    case Enter => EnterKeeps(s, i);
    case AwaitUnpaired => AwaitKeeps(s, i);
    case SetVal => SetValKeeps(s, i);
    case Take => TakeKeeps(s, i);
    case Join => JoinKeeps(s, i);
    case Head => HeadKeeps(s, i);
    case Read => ReadKeeps(s, i, n);
    case Copy =>
      if s.procs[i].role.Writer? {
        WriterCopyKeeps(s, i, n);
      } else {
        ReaderInsideKeeps(s, i, n, s.sems);
      }
    case Print => PrintKeeps(s, i, n);
    case Post =>
      if s.procs[i].role.Writer? {
        WriterPostKeeps(s, i);
      } else {
        ReaderPostKeeps(s, i);
      }
    case PostFinish => PostFinishKeeps(s, i);
    case Leave => LeaveKeeps(s, i);
    case Lingering => ExitKeeps(s, i);
    case Gone =>
  }

  lemma PrintKeeps(s: State, i: nat, n: nat)
    requires Inv(s) && i < |s.procs| && s.procs[i].at == Print
    ensures Inv(Stepped(s, i, n))
  {
    assert DataFits(s.procs[i], i);
    if n <= |s.procs[i].buffer| {
      ReaderInsideKeeps(s, i, n, s.sems);
    }
  }

  lemma ApplyKeeps(s: State, e: Event)
    requires Inv(s)
    ensures Inv(Apply(s, e))
  {
    match e
    case Start(role, file) =>
      if From(file, |s.procs|) {
        StartKeeps(s, role, file);
      }
    case Step(i, n) =>
      if i < |s.procs| {
        StepKeeps(s, i, n);
      }
    case Crash(i) =>
      if i < |s.procs| {
        ExitKeeps(s, i);
      }
  }

  lemma FreshIsFine()
    ensures Inv(FRESH)
  {
  }

  lemma {:induction false} RunKeeps(events: seq<Event>)
    ensures Inv(Run(events))
  {
    hide Apply;
    if events == [] {
      FreshIsFine();
    } else {
      var n := |events| - 1;
      RunKeeps(events[..n]);
      ApplyKeeps(Run(events[..n]), events[n]);
    }
  }
}
