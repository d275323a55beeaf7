/** The proxy: a chain of n children and n buffered channels between them.
    Queue 3i is what child i reads (the file for i = 0, else the pipe from channel i-1),
    queue 3i+1 the pipe from child i, queue 3i+2 the buffer of channel i, and the last
    queue, 3n, is the standard output. */
module Pipeline {
  import opened ProxyBytes

  const PAGE := 10000

  datatype State = State(n: nat, pipeSize: nat, queues: seq<seq<Byte>>,
                         alive: seq<bool>, canRead: seq<bool>, deaths: nat, failed: bool)

  /** What a nonblocking read or write of the parent came to: not attempted, EAGAIN, or bytes. */
  datatype Transfer = Skipped | Again | Moved(bytes: nat)

  datatype Event =
    | Splice(child: nat, bytes: nat)
    | Exit(child: nat)
    | Visit(channel: nat, input: Transfer, output: Transfer)

  function Pow3(k: nat): nat {
    if k == 0 then 1 else 3 * Pow3(k - 1)
  }

  /** The size of a channel's buffer. */
  function BufferSize(n: nat, i: nat): nat
    requires i < n
  {
    Pow3(n - i) * 1024
  }

  /** The last buffer holds 3 KiB, and every one before it three times as much as the next. */
  lemma BufferSizes(n: nat, i: nat)
    requires i < n
    ensures BufferSize(n, n - 1) == 3 * 1024
    ensures i + 1 < n ==> BufferSize(n, i) == 3 * BufferSize(n, i + 1)
  {
    assert Pow3(1) == 3 * Pow3(0);
  }

  predicate Shaped(s: State) {
    && s.n >= 1 && s.pipeSize >= 1 && |s.queues| == 3 * s.n + 1
    && |s.alive| == s.n && |s.canRead| == s.n && s.deaths <= s.n
  }

  /** Whether the pipe to child i, the pipe from it and the buffer of channel i take k more
      bytes; the standard output (after the last channel) takes everything. */
  predicate FitsSource(s: State, i: nat, k: nat)
    requires Shaped(s) && i <= s.n
  {
    i == s.n || |s.queues[3 * i]| + k <= s.pipeSize
  }

  predicate FitsPipe(s: State, i: nat, k: nat)
    requires Shaped(s) && i < s.n
  {
    |s.queues[3 * i + 1]| + k <= s.pipeSize
  }

  predicate FitsBuffer(s: State, i: nat, k: nat)
    requires Shaped(s) && i < s.n
  {
    |s.queues[3 * i + 2]| + k <= BufferSize(s.n, i)
  }

  /** Nothing will be added to what child i reads. */
  predicate SourceClosed(s: State, i: nat) {
    i == 0 || s.deaths >= i
  }

  // ---------- Steps ----------

  function MoveBytes(queues: seq<seq<Byte>>, j: nat, k: nat): seq<seq<Byte>>
    requires j + 1 < |queues| && k <= |queues[j]|
  {
    queues[j := queues[j][k..]][j + 1 := queues[j + 1] + queues[j][..k]]
  }

  function WithMove(s: State, j: nat, k: nat): State
    requires Shaped(s) && j < 3 * s.n && k <= |s.queues[j]|
  {
    s.(queues := MoveBytes(s.queues, j, k))
  }

  predicate CanSplice(s: State, i: nat, k: nat)
    requires Shaped(s) && i < s.n
  {
    s.alive[i] && 0 < k <= |s.queues[3 * i]| && k <= PAGE && FitsPipe(s, i, k)
  }

  predicate CanInput(s: State, i: nat, t: Transfer)
    requires Shaped(s) && i < s.n
  {
    t == Skipped ||
    (s.canRead[i] && FitsBuffer(s, i, 1) &&
      match t
      case Again => s.queues[3 * i + 1] == [] && s.alive[i]
      case Moved(0) => s.queues[3 * i + 1] == [] && !s.alive[i]
      case Moved(k) => k <= |s.queues[3 * i + 1]| && FitsBuffer(s, i, k))
  }

  /** The parent's read: bytes go to the buffer, end of file closes the channel's input. */
  function Input(s: State, i: nat, t: Transfer): State
    requires Shaped(s) && i < s.n && CanInput(s, i, t)
  {
    match t
    case Moved(0) => s.(canRead := s.canRead[i := false])
    case Moved(k) => WithMove(s, 3 * i + 1, k)
    case _ => s
  }

  predicate CanOutput(s: State, i: nat, t: Transfer)
    requires Shaped(s) && i < s.n
  {
    match t
    case Skipped => true
    case Again => s.queues[3 * i + 2] != [] && !FitsSource(s, i + 1, 1)
    case Moved(k) => 0 < k <= |s.queues[3 * i + 2]| && FitsSource(s, i + 1, k)
  }

  function Output(s: State, i: nat, t: Transfer): State
    requires Shaped(s) && i < s.n && CanOutput(s, i, t)
  {
    if t.Moved? then WithMove(s, 3 * i + 2, t.bytes) else s
  }

  /** The check at the end of a visit: a finished channel is closed, in order or not at all. */
  function Close(s: State, i: nat): State
    requires Shaped(s) && i < s.n
  {
    if s.canRead[i] || s.queues[3 * i + 2] != [] then s
    else if i != s.deaths then s.(failed := true)
    else s.(deaths := s.deaths + 1)
  }

  predicate Possible(s: State, e: Event)
    requires Shaped(s)
  {
    !s.failed &&
    match e
    case Splice(i, k) => i < s.n && CanSplice(s, i, k)
    case Exit(i) => i < s.n && s.alive[i] && s.queues[3 * i] == [] && SourceClosed(s, i)
    case Visit(i, input, output) =>
      && s.deaths <= i < s.n && CanInput(s, i, input)
      && (input == Again || CanOutput(Input(s, i, input), i, output))
  }

  function Apply(s: State, e: Event): State
    requires Shaped(s)
  {
    if !Possible(s, e) then s else
    match e
    case Splice(i, k) => WithMove(s, 3 * i, k)
    case Exit(i) => s.(alive := s.alive[i := false])
    case Visit(i, input, output) =>
      if input == Again then s else
        var t := Output(Input(s, i, input), i, output);
        if output == Again then t else Close(t, i)
  }

  function Start(n: nat, pipeSize: nat, file: seq<Byte>): State {
    State(n, pipeSize, seq(3 * n + 1, j => if j == 0 then file else []), seq(n, _ => true), seq(n, _ => true), 0, false)
  }

  // ---------- The invariant ----------

  ghost predicate Inv(s: State) {
    && Shaped(s) && !s.failed
    && (forall i :: 0 <= i < s.n ==> Bounded(s, i))
    && (forall i :: 0 <= i < s.n ==> Ended(s, i))
  }

  /** No pipe and no buffer overflows. */
  ghost predicate Bounded(s: State, i: nat)
    requires Shaped(s) && i < s.n
  {
    (i == 0 || FitsSource(s, i, 0)) && FitsPipe(s, i, 0) && FitsBuffer(s, i, 0)
  }

  /** Ends propagate: child, pipe and channel i end only after everything before them. */
  ghost predicate Ended(s: State, i: nat)
    requires Shaped(s) && i < s.n
  {
    && (!s.alive[i] ==> s.queues[3 * i] == [] && SourceClosed(s, i))
    && (!s.canRead[i] ==> !s.alive[i] && s.queues[3 * i + 1] == [])
    && (i < s.deaths <==> !s.canRead[i] && s.queues[3 * i + 2] == [])
  }

  lemma StartInv(n: nat, pipeSize: nat, file: seq<Byte>)
    requires n >= 1 && pipeSize >= 1
    ensures Inv(Start(n, pipeSize, file))
  {
  }

  lemma {:induction false} BufferSizePositive(n: nat, i: nat)
    requires i < n
    ensures BufferSize(n, i) >= 1
  {
    Pow3Positive(n - i);
  }

  lemma {:induction false} Pow3Positive(k: nat)
    ensures Pow3(k) >= 1
  {
    if k == 0 {
    } else {
      Pow3Positive(k - 1);
    }
  }

  // ---------- Every step keeps it ----------

  lemma SpliceKeeps(s: State, i: nat, k: nat)
    requires Inv(s) && i < s.n && CanSplice(s, i, k)
    ensures Inv(WithMove(s, 3 * i, k))
  {
    var t := WithMove(s, 3 * i, k);
    forall c | 0 <= c < s.n ensures Bounded(t, c) && Ended(t, c) {
      assert Bounded(s, c) && Ended(s, c);
    }
  }

  lemma ExitKeeps(s: State, i: nat)
    requires Inv(s) && i < s.n && s.alive[i] && s.queues[3 * i] == [] && SourceClosed(s, i)
    ensures Inv(s.(alive := s.alive[i := false]))
  {
    var t := s.(alive := s.alive[i := false]);
    forall c | 0 <= c < s.n ensures Bounded(t, c) && Ended(t, c) {
      assert Bounded(s, c) && Ended(s, c);
    }
  }

  /** In the middle of a visit channel i may be finished and not yet closed. */
  ghost predicate InvExcept(s: State, i: nat) {
    && Shaped(s) && !s.failed && s.deaths <= i < s.n
    && (forall c :: 0 <= c < s.n ==> Bounded(s, c))
    && (forall c :: 0 <= c < s.n && c != i ==> Ended(s, c))
    && (!s.alive[i] ==> s.queues[3 * i] == [] && SourceClosed(s, i))
    && (!s.canRead[i] ==> !s.alive[i] && s.queues[3 * i + 1] == [])
  }

  lemma InputKeeps(s: State, i: nat, t: Transfer)
    requires Inv(s) && s.deaths <= i < s.n && CanInput(s, i, t)
    ensures InvExcept(Input(s, i, t), i)
  {
    var u := Input(s, i, t);
    assert Ended(s, i);
    forall c | 0 <= c < s.n ensures Bounded(u, c) && (c != i ==> Ended(u, c)) {
      assert Bounded(s, c) && Ended(s, c);
    }
  }

  lemma OutputKeeps(s: State, i: nat, t: Transfer)
    requires InvExcept(s, i) && CanOutput(s, i, t)
    ensures InvExcept(Output(s, i, t), i)
  {
    var u := Output(s, i, t);
    forall c | 0 <= c < s.n ensures Bounded(u, c) && (c != i ==> Ended(u, c)) {
      assert Bounded(s, c) && (c != i ==> Ended(s, c));
    }
  }

  /** The check never finds a channel finished out of order. */
  lemma CloseKeeps(s: State, i: nat)
    requires InvExcept(s, i)
    ensures Inv(Close(s, i))
  {
    var u := Close(s, i);
    forall c | 0 <= c < s.n ensures Bounded(u, c) && Ended(u, c) {
      assert Bounded(s, c);
      assert c != i ==> Ended(s, c);
    }
  }

  lemma ApplyKeeps(s: State, e: Event)
    requires Inv(s)
    ensures Inv(Apply(s, e))
  {
    if Possible(s, e) {
      match e
      case Splice(i, k) => SpliceKeeps(s, i, k);
      case Exit(i) => ExitKeeps(s, i);
      case Visit(i, input, output) =>
        if input != Again {
          InputKeeps(s, i, input);
          var t := Input(s, i, input);
          OutputKeeps(t, i, output);
          if output != Again {
            CloseKeeps(Output(t, i, output), i);
          } else {
            AgainKeeps(s, i, input);
          }
        }
    }
  }

  /** When the output is full, the channel is not finished. */
  lemma AgainKeeps(s: State, i: nat, input: Transfer)
    requires Inv(s) && s.deaths <= i < s.n && CanInput(s, i, input) && CanOutput(Input(s, i, input), i, Again)
    ensures Inv(Input(s, i, input))
  {
    InputKeeps(s, i, input);
    var t := Input(s, i, input);
    assert Ended(t, i);
  }
}
