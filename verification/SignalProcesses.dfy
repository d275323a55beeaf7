/** The receiving parent and the sending child as objects with the program's variables. */
module SignalProcesses {
  import opened SignalLink
  import opened SignalProtocol

  /** The parent's globals: the bits of the current byte, how many there are, and whether the
      child is dead; out is what it has printed. */
  class Receiver {
    var bits: array<bool>
    var count: nat
    var isChildDead: bool
    var out: seq<Byte>

    constructor ()
      ensures fresh(bits) && bits.Length == 8 && count == 0 && !isChildDead && out == []
      ensures forall file :: Shows(Start(file))
    {
      bits := new bool[8];
      count, isChildDead, out := 0, false, [];
      new;
      SetBitsEmpty(bits);
      assert bits[..] == EMPTY_BITS;
    }

    ghost predicate Shows(s: State)
      reads this, bits
    {
      bits[..] == s.bits && count == s.count && isChildDead == s.childDead && out == s.out
    }

    /** The handler of SIGUSR1 and SIGUSR2. */
    method ParentHandler(signal: Signal, ghost s: State)
      requires Shows(s) && signal != CHLD && count < bits.Length
      modifies this, bits
      ensures Shows(Handle(s, signal)) && unchanged(`bits, `out, `isChildDead)
      ensures count == old(count) + 1 && bits[..] == old(bits[..])[old(count) := signal == USR2]
    {
      bits[count] := signal == USR2;
      count := count + 1;
    }

    /** The handler of SIGCHLD. */
    method WaitChild(ghost s: State)
      requires Shows(s)
      modifies this
      ensures Shows(Handle(s, CHLD)) && unchanged(`bits, `out, `count) && isChildDead && bits[..] == old(bits[..])
    {
      isChildDead := true;
    }

    /** What is pending while the parent is in sigsuspend is handled; by the invariant it is
        one signal, and a bit has room. */
    method Suspend(signals: seq<Signal>, ghost s: State)
      requires Inv(s) && s.parentAt == Suspended && Handles(s, signals) && Shows(s)
      modifies this, bits
      ensures Shows(ParentStep(s, signals)) && unchanged(`bits)
    {
      OneSignal(s, signals);
      ghost var t := s.(parentPending := s.parentPending - {signals[0]});
      if signals[0] == CHLD {
        WaitChild(t);
      } else {
        ParentHandler(signals[0], t);
      }
      assert HandleAll(s, signals) == HandleAll(Handle(t, signals[0]), []);
    }

    /** The loop body after sigsuspend: the parent exits when the child is dead; else it
        prints a complete byte and acknowledges. */
    method AfterSuspend(ghost s: State) returns (acknowledge: bool)
      requires Shows(s) && s.parentAt == Woken && |s.bits| == 8
      modifies this, bits
      ensures Shows(ParentStep(s, [])) && unchanged(`bits)
      ensures acknowledge <==> ParentStep(s, []).parentAt == LoopHead
      ensures acknowledge && s.childAt != Exited ==> ParentStep(s, []).childPending
      ensures acknowledge <==> !old(isChildDead)
      ensures out == if acknowledge && old(count) == 8 then old(out) + [Joined(old(bits[..]), 8)] else old(out)
      ensures count == if acknowledge && old(count) == 8 then 0 else old(count)
    {
      if isChildDead {
        return false;
      }
      if count == 8 {
        var c := ToChar(bits[..]);
        out := out + [c];
        SetBitsEmpty(bits);
        assert bits[..] == EMPTY_BITS;
        count := 0;
      }
      acknowledge := true;
    }
  }

  /** The child's variables: where it is in the file, the current byte's bits and the next one. */
  class Sender {
    const file: seq<Byte>
    var pos: nat
    var bits: seq<bool>
    var r: nat

    constructor (file: seq<Byte>)
      ensures this.file == file && pos == 0 && Shows(Start(file))
    {
      this.file, pos, bits, r := file, 0, [], 0;
    }

    /** While a byte is being sent, bits are its bits. */
    ghost predicate Shows(s: State)
      reads this
    {
      && file == s.file && pos == s.pos
      && (s.childAt == Send || s.childAt == Waiting ==>
            r == s.bit < 8 && pos < |file| && |bits| == 8 && AreBits(bits, file[pos], 8))
    }

    /** fgetc into a char: at the end of the file, and for a byte 0xFF, the child exits; else
        the bits of the byte are to be sent. */
    method Fetch(ghost s: State) returns (done: bool)
      requires Shows(s) && s.childAt.Fetch?
      modifies `bits, `r
      ensures Shows(ChildStep(s)) && (done <==> ChildStep(s).childAt == Exited)
      ensures done <==> pos >= |file| || file[pos] == 0xFF
      ensures !done ==> |bits| == 8 && r == 0 && forall i :: 0 <= i < 8 ==> bits[i] == BitOf(file[pos], i)
    {
      if pos < |file| {
        OnlyAllOnes(file[pos]);
      }
      if pos >= |file| || IsEof(file[pos]) {
        return true;
      }
      bits := ToBits(file[pos]);
      r, done := 0, false;
    }

    /** One bit, as a signal. */
    method SendBit(ghost s: State) returns (signal: Signal)
      requires Shows(s) && s.childAt == Send
      ensures Shows(ChildStep(s)) && ChildStep(s).parentPending == s.parentPending + {signal}
      ensures signal == if BitOf(file[pos], r) then USR2 else USR1
    {
      signal := if bits[r] then USR2 else USR1;
    }

    /** The acknowledgement has arrived: the next bit, or the next byte. */
    method Acknowledged(ghost s: State)
      requires Shows(s) && s.childAt == Waiting && s.childPending
      modifies `r, `pos
      ensures Shows(ChildStep(s)) && r == old(r) + 1
    {
      r := r + 1;
      if r >= 8 {
        pos := pos + 1;
      }
    }
  }

  /** The two processes and the signals pending for them. */
  class Link {
    const receiver: Receiver
    const sender: Sender
    var childAt: ChildAt
    var parentAt: ParentAt
    var childPending: bool
    var parentPending: set<Signal>

    constructor (file: seq<Byte>)
      ensures Shows(Start(file)) && fresh(receiver) && fresh(receiver.bits) && fresh(sender)
    {
      receiver := new Receiver();
      sender := new Sender(file);
      childAt, parentAt, childPending, parentPending := ChildAt.Fetch, LoopHead, false, {};
    }

    ghost predicate Shows(s: State)
      reads this, receiver, receiver.bits, sender
    {
      && receiver.Shows(s) && sender.Shows(s)
      && childAt == s.childAt && childPending == s.childPending
      && parentAt == s.parentAt && parentPending == s.parentPending
    }

    /** The child goes on to its next signal, or from its acknowledgement. */
    method ChildMoves(ghost s: State)
      requires Inv(s) && Shows(s)
      modifies this, sender
      ensures Shows(ChildStep(s))
    {
      match childAt {
        case Fetch =>
          var done := sender.Fetch(s);
          if done {
            childAt, parentPending := Exited, parentPending + {CHLD};
          } else {
            childAt := Send;
          }
        case Send =>
          var signal := sender.SendBit(s);
          childAt, parentPending := Waiting, parentPending + {signal};
        case Waiting =>
          if childPending {
            sender.Acknowledged(s);
            childAt, childPending := if sender.r < 8 then Send else ChildAt.Fetch, false;
          }
        case Exited =>
      }
    }

    /** The parent goes on to sigsuspend, out of it, or around its loop. */
    method ParentMoves(signals: seq<Signal>, ghost s: State)
      requires Inv(s) && Shows(s)
      modifies this, receiver, receiver.bits
      ensures Shows(ParentStep(s, signals)) && unchanged(receiver`bits)
    {
      hide Joined, Phase, BitOf;
      match parentAt {
        case LoopHead =>
          parentAt := if receiver.count == 9 then Finished else Suspended;
        case Suspended =>
          var handled := signals != [] && (forall i :: 0 <= i < |signals| ==> signals[i] in parentPending)
            && forall i, j :: 0 <= i < j < |signals| ==> signals[i] != signals[j];
          if handled {
            OneSignal(s, signals);
            HandleAllKeepsChild(s, signals);
            receiver.Suspend(signals, s);
            HandledOne(s, signals);
            parentAt, parentPending := Woken, {};
          }
        case Woken =>
          var acknowledge := receiver.AfterSuspend(s);
          if acknowledge {
            parentAt, childPending := LoopHead, childPending || childAt != Exited;
          } else {
            parentAt := Finished;
          }
        case Finished =>
      }
    }
  }

  lemma HandledOne(s: State, signals: seq<Signal>)
    requires Inv(s) && s.parentAt == Suspended && Handles(s, signals)
    ensures HandleAll(s, signals).parentPending == {} && HandleAll(s, signals).childPending == s.childPending
    ensures HandleAll(s, signals).bit == s.bit
  {
    OneSignal(s, signals);
    HandleAllKeepsChild(s, signals);
    var t := Handle(s.(parentPending := s.parentPending - {signals[0]}), signals[0]);
    assert HandleAll(s, signals) == HandleAll(t, []);
  }

  /** The two programs, run in any order with any handling of what is pending, go through
      just the runs of the state machine. */
  method Simulate(file: seq<Byte>, events: seq<Event>) returns (link: Link)
    ensures link.Shows(Run(file, events))
    ensures 0xFF !in file ==>
      link.receiver.out <= file && (link.childAt == Exited || link.parentAt == Finished ==> link.receiver.out == file)
  {
    link := new Link(file);
    for i := 0 to |events|
      invariant link.Shows(Run(file, events[..i]))
      invariant fresh(link) && fresh(link.receiver) && fresh(link.receiver.bits) && fresh(link.sender)
    {
      ghost var s := Run(file, events[..i]);
      RunKeeps(file, events[..i]);
      match events[i] {
        case Child => link.ChildMoves(s);
        case Parent(signals) => link.ParentMoves(signals, s);
      }
      assert events[..i + 1][..i] == events[..i];
    }
    assert events[..|events|] == events;
    if 0xFF !in file {
      FileArrives(file, events);
    }
  }
}
