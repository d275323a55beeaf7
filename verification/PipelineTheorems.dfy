/** Conservation of bytes, termination and freedom from deadlock of the proxy. */
module PipelineTheorems {
  import opened ProxyBytes
  import opened Pipeline

  // ---------- Conservation ----------

  /** All bytes in the order of the file: the standard output first, the unread file last. */
  ghost function Stream(queues: seq<seq<Byte>>): seq<Byte> {
    if queues == [] then [] else Stream(queues[1..]) + queues[0]
  }

  lemma {:induction false} MoveKeepsStream(queues: seq<seq<Byte>>, j: nat, k: nat)
    requires j + 1 < |queues| && k <= |queues[j]|
    ensures Stream(MoveBytes(queues, j, k)) == Stream(queues)
    decreases j
  {
    var after := MoveBytes(queues, j, k);
    if j > 0 {
      assert after[1..] == MoveBytes(queues[1..], j - 1, k);
      MoveKeepsStream(queues[1..], j - 1, k);
    } else {
      var a, b, rest := queues[0], queues[1], queues[2..];
      assert queues[1..][1..] == rest && after[1..][1..] == rest;
      assert Stream(after) == Stream(rest) + (b + a[..k]) + a[k..];
      assert Stream(queues) == Stream(rest) + b + a;
      assert a == a[..k] + a[k..];
    }
  }

  lemma InputKeepsStream(s: State, i: nat, t: Transfer)
    requires Shaped(s) && i < s.n && CanInput(s, i, t)
    ensures Stream(Input(s, i, t).queues) == Stream(s.queues)
  {
    if t.Moved? && t.bytes > 0 {
      MoveKeepsStream(s.queues, 3 * i + 1, t.bytes);
    }
  }

  lemma OutputKeepsStream(s: State, i: nat, t: Transfer)
    requires Shaped(s) && i < s.n && CanOutput(s, i, t)
    ensures Stream(Output(s, i, t).queues) == Stream(s.queues)
  {
    if t.Moved? {
      MoveKeepsStream(s.queues, 3 * i + 2, t.bytes);
    }
  }

  lemma ApplyKeepsStream(s: State, e: Event)
    requires Shaped(s)
    ensures Stream(Apply(s, e).queues) == Stream(s.queues) && Apply(s, e).n == s.n
  {
    hide Stream, FitsPipe, FitsBuffer, FitsSource, SourceClosed;
    if Possible(s, e) {
      match e
      case Splice(i, k) => MoveKeepsStream(s.queues, 3 * i, k);
      case Exit(i) =>
      case Visit(i, input, output) =>
        if input != Again {
          InputKeepsStream(s, i, input);
          OutputKeepsStream(Input(s, i, input), i, output);
        }
    }
  }

  // ---------- Termination ----------

  ghost function Bytes(queues: seq<seq<Byte>>): nat {
    if queues == [] then 0 else Bytes(queues[..|queues| - 1]) + |queues[|queues| - 1]|
  }

  /** The sum over all bytes of the queues each still has to pass. */
  ghost function Hops(queues: seq<seq<Byte>>): nat {
    if |queues| <= 1 then 0 else Bytes(queues[..|queues| - 1]) + Hops(queues[..|queues| - 1])
  }

  lemma {:induction false} MoveBytesCount(queues: seq<seq<Byte>>, j: nat, k: nat)
    requires j + 1 < |queues| && k <= |queues[j]|
    ensures Bytes(MoveBytes(queues, j, k)) == Bytes(queues)
  {
    var n := |queues| - 1;
    var after := MoveBytes(queues, j, k);
    if j + 1 < n {
      assert after[..n] == MoveBytes(queues[..n], j, k);
      MoveBytesCount(queues[..n], j, k);
    } else {
      assert after[..n] == queues[..n][j := queues[j][k..]];
      assert after[..n][..j] == queues[..n][..j];
    }
  }

  /** Moving k bytes one queue on takes k from the hops that are left. */
  lemma {:induction false} MoveTakesHops(queues: seq<seq<Byte>>, j: nat, k: nat)
    requires j + 1 < |queues| && k <= |queues[j]|
    ensures Hops(MoveBytes(queues, j, k)) == Hops(queues) - k
  {
    var n := |queues| - 1;
    var after := MoveBytes(queues, j, k);
    if j + 1 < n {
      assert after[..n] == MoveBytes(queues[..n], j, k);
      MoveBytesCount(queues[..n], j, k);
      MoveTakesHops(queues[..n], j, k);
    } else {
      assert after[..n] == queues[..n][j := queues[j][k..]];
      assert after[..n][..j] == queues[..n][..j];
    }
  }

  ghost function Count(flags: seq<bool>): nat {
    if flags == [] then 0 else Count(flags[..|flags| - 1]) + (if flags[|flags| - 1] then 1 else 0)
  }

  lemma {:induction false} CountDrops(flags: seq<bool>, i: nat)
    requires i < |flags| && flags[i]
    ensures Count(flags[i := false]) == Count(flags) - 1
  {
    var n := |flags| - 1;
    if i < n {
      assert flags[i := false][..n] == flags[..n][i := false];
      CountDrops(flags[..n], i);
    } else {
      assert flags[i := false][..n] == flags[..n];
    }
  }

  /** Hops of bytes and ends still to be passed on. */
  ghost function Remaining(s: State): nat
    requires Shaped(s)
  {
    Hops(s.queues) + Count(s.alive) + Count(s.canRead) + (s.n - s.deaths)
  }

  /** The event moves a byte or an end of file. */
  ghost predicate Effective(s: State, e: Event)
    requires Shaped(s)
  {
    Possible(s, e) && (e.Visit? ==> e.input.Moved? || (e.input.Skipped? && e.output.Moved?))
  }

  lemma InputRemaining(s: State, i: nat, t: Transfer)
    requires Shaped(s) && i < s.n && CanInput(s, i, t)
    ensures Shaped(Input(s, i, t))
    ensures Remaining(Input(s, i, t)) <= Remaining(s) - (if t.Moved? then 1 else 0)
  {
    if t.Moved? {
      if t.bytes == 0 {
        CountDrops(s.canRead, i);
      } else {
        MoveTakesHops(s.queues, 3 * i + 1, t.bytes);
      }
    }
  }

  lemma OutputRemaining(s: State, i: nat, t: Transfer)
    requires Shaped(s) && i < s.n && CanOutput(s, i, t)
    ensures Shaped(Output(s, i, t))
    ensures Remaining(Output(s, i, t)) <= Remaining(s) - (if t.Moved? then 1 else 0)
  {
    if t.Moved? {
      MoveTakesHops(s.queues, 3 * i + 2, t.bytes);
    }
  }

  lemma EffectiveDecreases(s: State, e: Event)
    requires Inv(s)
    ensures Shaped(Apply(s, e))
    ensures Remaining(Apply(s, e)) <= Remaining(s) - (if Effective(s, e) then 1 else 0)
  {
    ApplyKeeps(s, e);
    if Possible(s, e) {
      match e
      case Splice(i, k) => MoveTakesHops(s.queues, 3 * i, k);
      case Exit(i) => CountDrops(s.alive, i);
      case Visit(i, input, output) =>
        if input != Again {
          InputRemaining(s, i, input);
          OutputRemaining(Input(s, i, input), i, output);
        }
    }
  }

  // ---------- Runs ----------

  ghost function Run(s: State, events: seq<Event>): State
    requires Inv(s)
    ensures Inv(Run(s, events))
  {
    if events == [] then s else
      var t := Run(s, events[..|events| - 1]);
      ApplyKeeps(t, events[|events| - 1]);
      Apply(t, events[|events| - 1])
  }

  /** How many events of a run moved something. */
  ghost function EffectiveEvents(s: State, events: seq<Event>): nat
    requires Inv(s)
  {
    if events == [] then 0 else
      EffectiveEvents(s, events[..|events| - 1])
      + (if Effective(Run(s, events[..|events| - 1]), events[|events| - 1]) then 1 else 0)
  }

  /** No run loses, adds or reorders a byte on its way. */
  lemma {:induction false} StreamKept(s: State, events: seq<Event>)
    requires Inv(s)
    ensures Stream(Run(s, events).queues) == Stream(s.queues) && Run(s, events).n == s.n
  {
    hide Apply, Stream, Bounded, Ended;
    if events == [] {
    } else {
      StreamKept(s, events[..|events| - 1]);
      ApplyKeepsStream(Run(s, events[..|events| - 1]), events[|events| - 1]);
    }
  }

  /** Every run from the start conserves the file, and what is printed is a prefix of it. */
  lemma Conservation(n: nat, pipeSize: nat, file: seq<Byte>, events: seq<Event>)
    requires n >= 1 && pipeSize >= 1
    ensures Inv(Start(n, pipeSize, file))
    ensures var s := Run(Start(n, pipeSize, file), events);
      Stream(s.queues) == file && s.queues[|s.queues| - 1] <= file && s.n == n
  {
    hide Run, Inv;
    StartInv(n, pipeSize, file);
    var start := Start(n, pipeSize, file);
    StartStream(start.queues, file);
    StreamKept(start, events);
    OutputIsThere(Run(start, events));
    LastIsPrefix(Run(start, events).queues);
  }

  lemma OutputIsThere(s: State)
    requires Inv(s)
    ensures s.queues != []
  {
  }

  lemma {:induction false} StartStream(queues: seq<seq<Byte>>, file: seq<Byte>)
    requires queues != [] && queues[0] == file && forall j :: 0 < j < |queues| ==> queues[j] == []
    ensures Stream(queues) == file
  {
    if |queues| == 1 {
    } else {
      StartStream(queues[1..], []);
    }
  }

  lemma {:induction false} LastIsPrefix(queues: seq<seq<Byte>>)
    requires queues != []
    ensures queues[|queues| - 1] <= Stream(queues)
  {
    if |queues| == 1 {
    } else {
      LastIsPrefix(queues[1..]);
    }
  }

  /** No run moves bytes and ends more often than was to be done at its start. */
  lemma {:induction false} BoundedWork(s: State, events: seq<Event>)
    requires Inv(s)
    ensures EffectiveEvents(s, events) + Remaining(Run(s, events)) <= Remaining(s)
  {
    if events == [] {
    } else {
      BoundedWork(s, events[..|events| - 1]);
      EffectiveDecreases(Run(s, events[..|events| - 1]), events[|events| - 1]);
    }
  }

  // ---------- Order of the ends ----------

  /** The branch for a channel that finished too early is never taken, and a channel at its
      end has all earlier ones drained and closed. */
  lemma EndsInOrder(s: State, i: nat)
    requires Inv(s) && i < s.n && !s.canRead[i]
    ensures !s.failed && i <= s.deaths
    ensures forall c :: 0 <= c < i ==>
      !s.alive[c] && !s.canRead[c] && s.queues[3 * c] == [] && s.queues[3 * c + 1] == [] && s.queues[3 * c + 2] == []
  {
    assert Ended(s, i);
    forall c | 0 <= c < i
      ensures !s.alive[c] && !s.canRead[c] && s.queues[3 * c] == [] && s.queues[3 * c + 1] == []
      ensures s.queues[3 * c + 2] == []
    {
      assert Ended(s, c);
    }
  }

  // ---------- No deadlock ----------

  /** Looking back from channel i whose output has room: something before it can move. */
  lemma {:induction false} SomethingBefore(s: State, i: nat) returns (e: Event)
    requires Inv(s) && s.deaths <= i < s.n
    requires i == s.n - 1 || s.queues[3 * i + 3] == []
    ensures Effective(s, e)
    decreases i
  {
    assert Ended(s, i) && Bounded(s, i);
    BufferSizePositive(s.n, i);
    if s.queues[3 * i + 2] != [] {
      e := Visit(i, Skipped, Moved(1));
    } else if s.queues[3 * i + 1] != [] {
      e := Visit(i, Moved(1), Skipped);
    } else if !s.alive[i] {
      e := Visit(i, Moved(0), Skipped);
    } else if s.queues[3 * i] != [] {
      e := Splice(i, 1);
    } else if SourceClosed(s, i) {
      e := Exit(i);
    } else {
      e := SomethingBefore(s, i - 1);
    }
  }

  /** As long as a channel is open, some child or the parent can move something. */
  lemma NoDeadlock(s: State) returns (e: Event)
    requires Inv(s) && s.deaths < s.n
    ensures Effective(s, e)
  {
    e := SomethingBefore(s, s.n - 1);
  }

  /** The loop ends with everything closed, drained and printed. */
  lemma FinishedIsPrinted(n: nat, pipeSize: nat, file: seq<Byte>, events: seq<Event>)
    requires n >= 1 && pipeSize >= 1
    ensures Inv(Start(n, pipeSize, file))
    ensures var s := Run(Start(n, pipeSize, file), events); s.deaths == n ==> s.queues[3 * n] == file
  {
    Conservation(n, pipeSize, file, events);
    AllPrinted(Run(Start(n, pipeSize, file), events));
  }

  lemma AllPrinted(s: State)
    requires Inv(s)
    ensures s.deaths == s.n ==> s.queues[3 * s.n] == Stream(s.queues)
  {
    if s.deaths == s.n {
      Drained(s);
      OnlyLast(s.queues);
    }
  }

  lemma Drained(s: State)
    requires Inv(s) && s.deaths == s.n
    ensures forall j :: 0 <= j < 3 * s.n ==> s.queues[j] == []
  {
    forall j | 0 <= j < 3 * s.n ensures s.queues[j] == [] {
      var i := j / 3;
      assert Ended(s, i);
      assert j == 3 * i || j == 3 * i + 1 || j == 3 * i + 2;
    }
  }

  lemma {:induction false} OnlyLast(queues: seq<seq<Byte>>)
    requires queues != [] && forall j :: 0 <= j < |queues| - 1 ==> queues[j] == []
    ensures Stream(queues) == queues[|queues| - 1]
  {
    if |queues| == 1 {
    } else {
      OnlyLast(queues[1..]);
    }
  }

  lemma SomeStep(s: State) returns (e: Event)
    requires Inv(s) && s.deaths < s.n
    ensures Inv(Apply(s, e)) && Apply(s, e).n == s.n && Remaining(Apply(s, e)) < Remaining(s)
  {
    e := NoDeadlock(s);
    EffectiveDecreases(s, e);
    ApplyKeeps(s, e);
  }

  /** From every reachable state some run finishes; with BoundedWork, every run that goes on
      moving something does. */
  lemma {:induction false} CanFinish(s: State) returns (events: seq<Event>)
    requires Inv(s)
    ensures Run(s, events).deaths == s.n && Run(s, events).n == s.n
    decreases Remaining(s)
  {
    if s.deaths == s.n {
      events := [];
    } else {
      var e := SomeStep(s);
      var rest := CanFinish(Apply(s, e));
      events := [e] + rest;
      RunFrom(s, e, rest);
    }
  }

  lemma {:induction false} RunFrom(s: State, e: Event, rest: seq<Event>)
    requires Inv(s) && Inv(Apply(s, e))
    ensures Run(s, [e] + rest) == Run(Apply(s, e), rest)
  {
    var all := [e] + rest;
    if rest == [] {
      assert all == [e] && all[..|all| - 1] == [];
      assert Run(s, []) == s;
    } else {
      assert all[..|all| - 1] == [e] + rest[..|rest| - 1];
      RunFrom(s, e, rest[..|rest| - 1]);
    }
  }
}
