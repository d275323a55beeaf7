/** The child that sends and the parent that receives, as two processes whose signals are
    blocked everywhere but inside sigsuspend. */
module SignalProtocol {
  import opened SignalLink

  datatype Signal = USR1 | USR2 | CHLD

  datatype ChildAt = Fetch | Send | Waiting | Exited
  datatype ParentAt = LoopHead | Suspended | Woken | Finished

  /** Pending signals are a set: sending one that is pending already has no effect. */
  datatype State = State(
    file: seq<Byte>,
    childAt: ChildAt, pos: nat, bit: nat, childPending: bool,
    parentAt: ParentAt, parentPending: set<Signal>,
    bits: seq<bool>, count: nat, childDead: bool, out: seq<Byte>, overrun: bool)

  /** The event of the parent says which pending signals are handled in which order. */
  datatype Event = Child | Parent(handled: seq<Signal>)

  const EOF := -1

  /** What a char of these bits is as a number. */
  function SignedChar(c: Byte): int {
    if c < 128 then c as int else c as int - 256
  }

  /** fgetc's result is stored in a char and then compared with EOF. */
  predicate IsEof(c: Byte) {
    SignedChar(c) == EOF
  }

  /** Only the byte with all bits set is taken for the end of the file. */
  lemma OnlyAllOnes(c: Byte)
    ensures IsEof(c) <==> c == 0xFF
    ensures IsEof(c) <==> forall i :: 0 <= i < 8 ==> BitOf(c, i)
  {
    if forall i :: 0 <= i < 8 ==> BitOf(c, i) {
      assert BitOf(c, 0) && BitOf(c, 1) && BitOf(c, 2) && BitOf(c, 3);
      assert BitOf(c, 4) && BitOf(c, 5) && BitOf(c, 6) && BitOf(c, 7);
    }
  }

  const EMPTY_BITS := [false, false, false, false, false, false, false, false]

  function Start(file: seq<Byte>): State {
    State(file, Fetch, 0, 0, false, LoopHead, {}, EMPTY_BITS, 0, false, [], false)
  }

  function ChildStep(s: State): State {
    match s.childAt
    case Fetch =>
      if s.pos >= |s.file| || IsEof(s.file[s.pos]) then
        s.(childAt := Exited, parentPending := s.parentPending + {CHLD})
      else s.(childAt := Send, bit := 0)
    case Send =>
      if s.pos < |s.file| && s.bit < 8 then
        s.(childAt := Waiting, parentPending := s.parentPending + {if BitOf(s.file[s.pos], s.bit) then USR2 else USR1})
      else s
    case Waiting =>
      if !s.childPending then s
      else if s.bit + 1 < 8 then s.(childAt := Send, bit := s.bit + 1, childPending := false)
      else s.(childAt := Fetch, bit := 0, pos := s.pos + 1, childPending := false)
    case Exited => s
  }

  /** The handlers; a bit stored behind the end of the array is an overrun. */
  function Handle(s: State, signal: Signal): State {
    if signal == CHLD then s.(childDead := true)
    else if s.count < |s.bits| then s.(bits := s.bits[s.count := signal == USR2], count := s.count + 1)
    else s.(overrun := true, count := s.count + 1)
  }

  function HandleAll(s: State, signals: seq<Signal>): State
    decreases |signals|
  {
    if signals == [] then s
    else HandleAll(Handle(s.(parentPending := s.parentPending - {signals[0]}), signals[0]), signals[1..])
  }

  predicate Handles(s: State, signals: seq<Signal>) {
    && signals != [] && (forall i :: 0 <= i < |signals| ==> signals[i] in s.parentPending)
    && forall i, j :: 0 <= i < j < |signals| ==> signals[i] != signals[j]
  }

  function ParentStep(s: State, signals: seq<Signal>): State {
    match s.parentAt
    case LoopHead => if s.count == 9 then s.(parentAt := Finished) else s.(parentAt := Suspended)
    case Suspended => if Handles(s, signals) then HandleAll(s, signals).(parentAt := Woken) else s
    case Woken =>
      if s.childDead then s.(parentAt := Finished)
      else
        var t := if s.count == 8 && |s.bits| == 8
          then s.(out := s.out + [Joined(s.bits, 8)], bits := EMPTY_BITS, count := 0) else s;
        t.(parentAt := LoopHead, childPending := t.childPending || t.childAt != Exited)
    case Finished => s
  }

  function Apply(s: State, e: Event): State {
    match e
    case Child => ChildStep(s)
    case Parent(signals) => ParentStep(s, signals)
  }

  function Run(file: seq<Byte>, events: seq<Event>): State {
    if events == [] then Start(file) else Apply(Run(file, events[..|events| - 1]), events[|events| - 1])
  }

  /** The file up to its first byte that reads as end of file. */
  function Text(file: seq<Byte>): seq<Byte> {
    if file == [] || IsEof(file[0]) then [] else [file[0]] + Text(file[1..])
  }

  // ---------- The invariant ----------

  ghost predicate ParentWaits(s: State) {
    s.parentAt == LoopHead || s.parentAt == Suspended
  }

  /** The parent has the first n bits of the current byte and all bytes before it. */
  ghost predicate Received(s: State, n: nat)
    requires |s.bits| == 8 && n <= 8
  {
    s.count == n && s.pos < |s.file| && AreBits(s.bits, s.file[s.pos], n) && s.out == s.file[..s.pos]
  }

  ghost predicate BitPending(s: State)
    requires s.pos < |s.file| && s.bit < 8
  {
    s.parentPending == {if BitOf(s.file[s.pos], s.bit) then USR2 else USR1} && !s.childPending && ParentWaits(s)
  }

  ghost predicate AckPending(s: State) {
    s.parentPending == {} && s.childPending && ParentWaits(s)
  }

  ghost predicate Phase(s: State)
    requires |s.bits| == 8 && s.pos <= |s.file| && s.bit < 8
  {
    match s.childAt
    case Fetch =>
      s.parentPending == {} && !s.childPending && ParentWaits(s) && !s.childDead
      && s.bit == 0 && s.count == 0 && s.out == s.file[..s.pos]
    case Send =>
      s.parentPending == {} && !s.childPending && ParentWaits(s) && !s.childDead && Received(s, s.bit)
    case Waiting =>
      s.pos < |s.file| && !s.childDead &&
      (  || (BitPending(s) && Received(s, s.bit))
         || (s.parentPending == {} && !s.childPending && s.parentAt == Woken && Received(s, s.bit + 1))
         || (AckPending(s) &&
             (if s.bit < 7 then Received(s, s.bit + 1) else s.count == 0 && s.out == s.file[..s.pos + 1])))
    case Exited =>
      && !s.childPending && s.bit == 0 && s.count == 0 && s.out == s.file[..s.pos]
      && (s.pos == |s.file| || IsEof(s.file[s.pos]))
      && (if s.childDead then s.parentPending == {} && (s.parentAt == Woken || s.parentAt == Finished)
          else s.parentPending == {CHLD} && ParentWaits(s))
  }

  ghost predicate Inv(s: State) {
    && |s.bits| == 8 && !s.overrun && s.pos <= |s.file| && s.bit < 8
    && (forall i :: 0 <= i < s.pos ==> !IsEof(s.file[i]))
    && (s.childAt == Send || s.childAt == Waiting ==> s.pos < |s.file| && !IsEof(s.file[s.pos]))
    && Phase(s)
  }

  lemma ChildKeeps(s: State)
    requires Inv(s)
    ensures Inv(ChildStep(s))
  {
    match s.childAt
    case Fetch => FetchKeeps(s);
    case Send => SendKeeps(s);
    case Waiting => AcknowledgedKeeps(s);
    case Exited =>
  }

  lemma FetchKeeps(s: State)
    requires Inv(s) && s.childAt == Fetch
    ensures Inv(ChildStep(s))
  {
  }

  lemma SendKeeps(s: State)
    requires Inv(s) && s.childAt == Send
    ensures Inv(ChildStep(s))
  {
    var t := ChildStep(s);
    assert BitPending(t) && Received(t, t.bit);
  }

  lemma AcknowledgedKeeps(s: State)
    requires Inv(s) && s.childAt == Waiting
    ensures Inv(ChildStep(s))
  {
    if s.childPending {
      assert AckPending(s);
    }
  }

  /** A waking parent finds exactly one signal. */
  lemma OneSignal(s: State, signals: seq<Signal>)
    requires Inv(s) && s.parentAt == Suspended && Handles(s, signals)
    ensures |signals| == 1 && s.parentPending == {signals[0]} && s.count < 8
  {
    assert signals[0] in s.parentPending;
    assert signals[|signals| - 1] in s.parentPending;
  }

  lemma WakeKeeps(s: State, signals: seq<Signal>)
    requires Inv(s) && s.parentAt == Suspended && Handles(s, signals)
    ensures Inv(ParentStep(s, signals))
  {
    OneSignal(s, signals);
    var t := Handle(s.(parentPending := {}), signals[0]);
    assert s.parentPending - {signals[0]} == {};
    assert HandleAll(s, signals) == HandleAll(t, []) == t;
  }

  lemma AnswerKeeps(s: State)
    requires Inv(s) && s.parentAt == Woken
    ensures Inv(ParentStep(s, []))
  {
    if s.childAt == Waiting && s.count == 8 {
      RoundTrip(s.bits, s.file[s.pos]);
      assert s.file[..s.pos] + [s.file[s.pos]] == s.file[..s.pos + 1];
    }
  }

  lemma ApplyKeeps(s: State, e: Event)
    requires Inv(s)
    ensures Inv(Apply(s, e))
  {
    if e == Child {
      ChildKeeps(s);
    } else if s.parentAt == Suspended {
      if Handles(s, e.handled) {
        WakeKeeps(s, e.handled);
      }
    } else if s.parentAt == Woken {
      AnswerKeeps(s);
    }
  }

  lemma {:induction false} RunKeeps(file: seq<Byte>, events: seq<Event>)
    ensures Inv(Run(file, events)) && Run(file, events).file == file
  {
    if events == [] {
    } else {
      RunKeeps(file, events[..|events| - 1]);
      var s := Run(file, events[..|events| - 1]);
      ApplyKeeps(s, events[|events| - 1]);
      ApplyKeepsFile(s, events[|events| - 1]);
    }
  }

  lemma ApplyKeepsFile(s: State, e: Event)
    ensures Apply(s, e).file == s.file
  {
    if e.Parent? && s.parentAt == Suspended {
      HandleAllKeepsFile(s, e.handled);
    }
  }

  lemma {:induction false} HandleAllKeepsFile(s: State, signals: seq<Signal>)
    ensures HandleAll(s, signals).file == s.file
    decreases |signals|
  {
    if signals == [] {
    } else {
      HandleAllKeepsFile(Handle(s.(parentPending := s.parentPending - {signals[0]}), signals[0]), signals[1..]);
    }
  }

  // ---------- Theorems ----------

  /** No handler ever stores a bit outside the array, at most one signal is on its way, and
      the loop's own exit at 9 bits is never taken. */
  lemma SafeHandlers(file: seq<Byte>, events: seq<Event>)
    ensures var s := Run(file, events);
      !s.overrun && s.count <= 8 && |s.parentPending| + (if s.childPending then 1 else 0) <= 1
      && (s.parentAt == LoopHead ==> s.count < 8) && (s.parentAt == Suspended && s.parentPending != {} ==> s.count < 8)
  {
    RunKeeps(file, events);
  }

  /** No signal is sent while the same process still has one pending, so none is lost. */
  lemma NoSignalLost(file: seq<Byte>, events: seq<Event>)
    ensures var s := Run(file, events);
      && (s.childAt == Fetch || s.childAt == Send ==> s.parentPending == {})
      && (s.parentAt == Woken ==> !s.childPending)
  {
    RunKeeps(file, events);
  }

  lemma {:induction false} TextPrefix(file: seq<Byte>, n: nat)
    requires n <= |file| && forall i :: 0 <= i < n ==> !IsEof(file[i])
    ensures file[..n] <= Text(file)
    ensures n == |file| || IsEof(file[n]) ==> file[..n] == Text(file)
  {
    if n == 0 {
    } else {
      TextPrefix(file[1..], n - 1);
      assert file[..n] == [file[0]] + file[1..][..n - 1];
    }
  }

  lemma OutputSoFar(s: State)
    requires Inv(s)
    ensures s.out <= Text(s.file)
    ensures s.childAt == Exited || s.parentAt == Finished ==> s.out == Text(s.file)
  {
    if s.out == s.file[..s.pos] {
      TextPrefix(s.file, s.pos);
    } else {
      TextPrefix(s.file, s.pos + 1);
    }
  }

  /** The output is always a beginning of the text, and all of it when the child has exited. */
  lemma OutputIsText(file: seq<Byte>, events: seq<Event>)
    ensures Run(file, events).out <= Text(file)
    ensures Run(file, events).childAt == Exited || Run(file, events).parentAt == Finished ==>
      Run(file, events).out == Text(file)
  {
    RunKeeps(file, events);
    OutputSoFar(Run(file, events));
  }

  lemma {:induction false} TextIsAll(file: seq<Byte>)
    ensures Text(file) == file <==> forall k :: 0 <= k < |file| ==> !IsEof(file[k])
  {
    if file == [] || IsEof(file[0]) {
    } else {
      TextIsAll(file[1..]);
      assert file == [file[0]] + file[1..];
      assert Text(file) == file <==> Text(file[1..]) == file[1..];
    }
  }

  /** The text is the whole file exactly when no byte of it is 0xFF, and else it ends before
      the first such byte. */
  lemma TextIsFile(file: seq<Byte>)
    ensures Text(file) == file <==> 0xFF !in file
    ensures forall n :: 0 <= n < |file| && file[n] == 0xFF && 0xFF !in file[..n] ==> Text(file) == file[..n]
  {
    TextIsAll(file);
    forall k | 0 <= k < |file| ensures IsEof(file[k]) <==> file[k] == 0xFF {
      OnlyAllOnes(file[k]);
    }
    forall n | 0 <= n < |file| && file[n] == 0xFF && 0xFF !in file[..n] ensures Text(file) == file[..n] {
      forall k | 0 <= k < n ensures !IsEof(file[k]) {
        assert file[..n][k] == file[k];
      }
      TextPrefix(file, n);
    }
  }

  /** A file without a byte 0xFF arrives: what is printed is always a beginning of it, and all
      of it when the child has exited. */
  lemma FileArrives(file: seq<Byte>, events: seq<Event>)
    requires 0xFF !in file
    ensures Run(file, events).out <= file
    ensures Run(file, events).childAt == Exited || Run(file, events).parentAt == Finished ==>
      Run(file, events).out == file
  {
    TextIsFile(file);
    OutputIsText(file, events);
  }

  // ---------- Termination ----------

  /** What is still to be done: ten for every bit, less within a bit. */
  ghost function Remaining(s: State): nat
    requires Inv(s)
  {
    10 * (8 * (|s.file| - s.pos) - s.bit) + Within(s)
  }

  ghost function Within(s: State): nat {
    (match s.childAt
     case Fetch => 8
     case Send => 6
     case Waiting => if s.parentPending != {} then 4 else if s.parentAt == Woken then 3 else 1
     case Exited => if s.parentPending != {} then 4 else if s.parentAt == Woken then 3 else 0)
    + (if s.parentAt == LoopHead then 1 else 0)
  }

  /** Every step that does anything brings the transfer nearer to its end. */
  lemma StepsDecrease(s: State, e: Event)
    requires Inv(s) && Apply(s, e) != s
    ensures Inv(Apply(s, e)) && Remaining(Apply(s, e)) < Remaining(s)
  {
    ApplyKeeps(s, e);
    if e.Parent? && s.parentAt == Suspended {
      OneSignal(s, e.handled);
      HandleAllKeepsChild(s, e.handled);
      assert Apply(s, e).parentAt == Woken;
    }
  }

  lemma {:induction false} HandleAllKeepsChild(s: State, signals: seq<Signal>)
    ensures var t := HandleAll(s, signals);
      && t.file == s.file && t.childAt == s.childAt && t.pos == s.pos && t.bit == s.bit
      && t.parentPending <= s.parentPending
    decreases |signals|
  {
    if signals == [] {
    } else {
      HandleAllKeepsChild(Handle(s.(parentPending := s.parentPending - {signals[0]}), signals[0]), signals[1..]);
    }
  }

  /** Until the parent has finished, some step is possible: no wake-up is ever missed. */
  lemma NoDeadlock(file: seq<Byte>, events: seq<Event>) returns (e: Event)
    requires Run(file, events).parentAt != Finished
    ensures Apply(Run(file, events), e) != Run(file, events)
  {
    var s := Run(file, events);
    RunKeeps(file, events);
    if s.parentAt == LoopHead || s.parentAt == Woken {
      e := Parent([]);
    } else if s.parentPending != {} {
      var signal :| signal in s.parentPending;
      e := Parent([signal]);
      assert Handles(s, [signal]);
      assert Apply(s, e).parentAt == Woken;
    } else {
      e := Child;
    }
  }
}
