/** The body of the parent's loop over the channels, and the pipeline event it is. */
module ProxyLoop {
  import opened RingBuffer
  import opened Pipeline

  /** Channel i of the pipeline s, the pipe from its child and the pipe to the next one are
      these objects. */
  ghost predicate Shows(s: State, i: nat, channel: Channel, from: Pipe, to: Pipe)
    reads channel, channel.buffer, from, to
  {
    && Shaped(s) && i < s.n && channel.Valid() && from != to
    && s.queues[3 * i + 1] == from.data && s.alive[i] == from.open
    && s.queues[3 * i + 2] == channel.Contents() && s.canRead[i] == channel.isCanRead
    && s.queues[3 * i + 3] == to.data
    && channel.size == BufferSize(s.n, i) && to.endless == (i == s.n - 1) && to.capacity == s.pipeSize
  }

  // ---------- Which event a visit is ----------

  /** What select and the system answer for one channel in one round. */
  datatype Flags = Flags(readable: bool, writable: bool, inputLimit: nat, outputLimit: nat)

  /** Channel i has room for its bytes, of which the oldest is at position mark. */
  ghost predicate Marked(s: State, i: nat, mark: nat) {
    Shaped(s) && i < s.n && mark < BufferSize(s.n, i) && |s.queues[3 * i + 2]| <= BufferSize(s.n, i)
  }

  /** The read: as much as the system moves of what is in the pipe, up to the end of the free
      part or of the buffer. */
  ghost function InputAt(s: State, i: nat, mark: nat, limit: nat): Transfer
    requires Marked(s, i, mark)
  {
    var full, size := |s.queues[3 * i + 2]|, BufferSize(s.n, i);
    var got := ReadOf(FreeFrom(Wrap(mark + full, size), size - full, size), limit, |s.queues[3 * i + 1]|, s.alive[i]);
    if got < 0 then Again else Moved(got)
  }

  /** The write: as much as the system moves of the filled part, up to the end of the buffer. */
  ghost function OutputAt(s: State, i: nat, mark: nat, full: nat, limit: nat): Transfer
    requires Marked(s, i, mark)
  {
    var room := s.pipeSize - |s.queues[3 * i + 3]|;
    var put := WriteOf(FilledFrom(mark, full, BufferSize(s.n, i)), limit, i == s.n - 1, room);
    if put < 0 then Again else Moved(put)
  }

  /** The visit: it reads if select reports input and the buffer had room, writes if select
      reports room and there was something to write, and stops at EAGAIN. */
  ghost function VisitAt(s: State, i: nat, mark: nat, flags: Flags): Event
    requires Marked(s, i, mark)
  {
    var full := |s.queues[3 * i + 2]|;
    var asks := flags.readable && s.canRead[i] && full < BufferSize(s.n, i);
    var input := if asks then InputAt(s, i, mark, flags.inputLimit) else Skipped;
    var filled := full + (if input.Moved? then input.bytes else 0);
    var offers := flags.writable && full > 0 && input != Again;
    Event.Visit(i, input, if offers then OutputAt(s, i, mark, filled, flags.outputLimit) else Skipped)
  }

  /** Where the oldest byte is after an output. */
  ghost function MarkAfter(mark: nat, output: Transfer, size: nat): nat {
    if output.Moved? then Onward(mark, output.bytes, size) else mark
  }

  // ---------- The methods ----------

  lemma ContentsSize(channel: Channel)
    requires channel.Valid()
    ensures |channel.Contents()| == channel.full && channel.empty == channel.size - channel.full
  {
  }

  lemma ReadIs(s: State, i: nat, channel: Channel, from: Pipe, to: Pipe, limit: nat)
    requires Shows(s, i, channel, from, to)
    ensures Marked(s, i, channel.offsetForRead)
    ensures var got := from.ReadCount(channel.FreeRun(), limit);
      InputAt(s, i, channel.offsetForRead, limit) == if got < 0 then Again else Moved(got)
  {
    ContentsSize(channel);
  }

  lemma WriteIs(s: State, i: nat, channel: Channel, from: Pipe, to: Pipe, limit: nat)
    requires Shows(s, i, channel, from, to)
    ensures Marked(s, i, channel.offsetForRead)
    ensures var put := to.WriteCount(channel.FilledRun(), limit);
      OutputAt(s, i, channel.offsetForRead, channel.full, limit) == if put < 0 then Again else Moved(put)
  {
    ContentsSize(channel);
  }

  /** What a read of got bytes, or the end of the input, does around channel i. */
  lemma InputIs(s: State, i: nat, got: nat)
    requires Shaped(s) && i < s.n && s.canRead[i] && FitsBuffer(s, i, 1)
    requires got <= |s.queues[3 * i + 1]| && FitsBuffer(s, i, got)
    requires got == 0 ==> s.queues[3 * i + 1] == [] && !s.alive[i]
    ensures CanInput(s, i, Moved(got))
    ensures var (t, k) := (Input(s, i, Moved(got)), 3 * i);
      && Shaped(t) && t.n == s.n && t.pipeSize == s.pipeSize && t.alive == s.alive && t.canRead[i] == (got != 0)
      && t.queues[k + 1] == s.queues[k + 1][got..] && t.queues[k + 3] == s.queues[k + 3]
      && t.queues[k + 2] == s.queues[k + 2] + s.queues[k + 1][..got]
  {
  }

  method ReadPart(channel: Channel, from: Pipe, to: Pipe, i: nat, limit: nat, ghost s: State)
    returns (got: int, ghost t: Transfer)
    requires Shows(s, i, channel, from, to) && channel.isCanRead && channel.empty != 0
    modifies channel, channel.buffer, from
    ensures unchanged(channel`buffer)
    ensures got < 0 <==> t == Again
    ensures CanInput(s, i, t) && Shows(Input(s, i, t), i, channel, from, to) && t != Skipped
    ensures unchanged(channel`offsetForRead) && t == InputAt(s, i, channel.offsetForRead, limit)
  {
    hide InputAt, ReadOf, FreeFrom, BufferSize, Ring, Wrap;
    ReadIs(s, i, channel, from, to, limit);
    ContentsSize(channel);
    got := channel.PutInBuffer(from, limit);
    if got == 0 {
      channel.isCanRead := false;
    }
    t := Again;
    if got >= 0 {
      t := Moved(got);
      InputIs(s, i, got);
      hide CanInput, Input;
    }
    ContentsSize(channel);
  }

  method WritePart(channel: Channel, from: Pipe, to: Pipe, i: nat, limit: nat, ghost s: State)
    returns (put: int, ghost t: Transfer)
    requires Shows(s, i, channel, from, to) && channel.full != 0
    modifies channel, to
    ensures unchanged(channel`buffer)
    ensures put < 0 <==> t == Again
    ensures CanOutput(s, i, t) && Shows(Output(s, i, t), i, channel, from, to) && t != Skipped
    ensures t == OutputAt(s, i, old(channel.offsetForRead), old(channel.full), limit)
    ensures channel.offsetForRead == MarkAfter(old(channel.offsetForRead), t, channel.size)
  {
    hide OutputAt, WriteOf, FilledFrom;
    WriteIs(s, i, channel, from, to, limit);
    ContentsSize(channel);
    put := channel.GetFromBuffer(to, limit);
    t := if put < 0 then Again else Moved(put);
  }

  /** Without a look at the objects: the channel is full or empty as the pipeline says. */
  lemma Fills(s: State, i: nat, channel: Channel, from: Pipe, to: Pipe)
    requires Shows(s, i, channel, from, to)
    ensures Marked(s, i, channel.offsetForRead) && |s.queues[3 * i + 2]| == channel.full
    ensures s.canRead[i] == channel.isCanRead && channel.size == BufferSize(s.n, i)
    ensures channel.empty == channel.size - channel.full
  {
  }

  /** The event of a visit that came to these transfers, and what it leaves. */
  lemma VisitIs(s: State, i: nat, input: Transfer, output: Transfer)
    requires Shaped(s) && !s.failed && s.deaths <= i < s.n && CanInput(s, i, input)
    requires if input == Again then output == Skipped else CanOutput(Input(s, i, input), i, output)
    ensures Possible(s, Event.Visit(i, input, output))
    ensures var t := Input(s, i, input);
      Apply(s, Event.Visit(i, input, output)) ==
      if input == Again then s else if output == Again then t else Close(Output(t, i, output), i)
  {
  }

  /** An input does not change where an output goes. */
  lemma OutputAfterInput(s: State, i: nat, mark: nat, input: Transfer, full: nat, limit: nat)
    requires Marked(s, i, mark) && CanInput(s, i, input) && Marked(Input(s, i, input), i, mark)
    ensures OutputAt(Input(s, i, input), i, mark, full, limit) == OutputAt(s, i, mark, full, limit)
    ensures |Input(s, i, input).queues[3 * i + 2]|
      == |s.queues[3 * i + 2]| + (if input.Moved? then input.bytes else 0)
    ensures Input(s, i, input).deaths == s.deaths && Input(s, i, input).failed == s.failed
  {
  }

  lemma NothingPut(s: State, i: nat)
    requires Shaped(s) && i < s.n
    ensures CanInput(s, i, Skipped) && Input(s, i, Skipped) == s
    ensures CanOutput(s, i, Skipped) && Output(s, i, Skipped) == s
  {
  }

  lemma OutputEnds(s: State, i: nat, t: Transfer)
    requires Shaped(s) && i < s.n && CanOutput(s, i, t)
    ensures Shaped(Output(s, i, t)) && Output(s, i, t).deaths == s.deaths && Output(s, i, t).failed == s.failed
    ensures t == Again ==> Output(s, i, t) == s
  {
  }

  /** One visit: read if select reported input, write if it reported room, then close the
      channel if it is finished. The result is the number of finished channels, and whether
      the parent gives up. */
  method Visit(channel: Channel, from: Pipe, to: Pipe, i: nat, childDeaths: nat, flags: Flags, ghost s: State)
    returns (deaths: nat, failed: bool, ghost e: Event)
    requires Shows(s, i, channel, from, to) && !s.failed && s.deaths == childDeaths <= i
    modifies channel, channel.buffer, from, to
    ensures unchanged(channel`buffer)
    ensures Marked(s, i, old(channel.offsetForRead)) && e == VisitAt(s, i, old(channel.offsetForRead), flags)
    ensures Possible(s, e) && Shows(Apply(s, e), i, channel, from, to)
    ensures channel.offsetForRead == MarkAfter(old(channel.offsetForRead), e.output, channel.size)
    ensures deaths == Apply(s, e).deaths && failed == Apply(s, e).failed
  {
    hide Shows, Apply, Possible, Input, Output, Close, CanInput, CanOutput, InputAt, OutputAt;
    deaths, failed := childDeaths, false;
    Fills(s, i, channel, from, to);
    NothingPut(s, i);
    var readable := flags.readable && channel.isCanRead && channel.empty != 0;
    var writable := flags.writable && channel.full != 0;
    ghost var mark, input, output := channel.offsetForRead, Skipped, Skipped;
    if readable {
      var got: int;
      got, input := ReadPart(channel, from, to, i, flags.inputLimit, s);
      if got < 0 {
        VisitIs(s, i, input, output);
        e := Event.Visit(i, input, output);
        InputEnds(s, i, input);
        return;
      }
    }
    ghost var t := Input(s, i, input);
    Fills(t, i, channel, from, to);
    OutputAfterInput(s, i, mark, input, channel.full, flags.outputLimit);
    NothingPut(t, i);
    if writable {
      var put: int;
      put, output := WritePart(channel, from, to, i, flags.outputLimit, t);
      if put < 0 {
        VisitIs(s, i, input, output);
        OutputEnds(t, i, output);
        e := Event.Visit(i, input, output);
        return;
      }
    }
    VisitIs(s, i, input, output);
    OutputEnds(t, i, output);
    e := Event.Visit(i, input, output);
    deaths, failed := ClosePart(channel, from, to, i, childDeaths, Output(t, i, output));
  }

  lemma InputEnds(s: State, i: nat, t: Transfer)
    requires Shaped(s) && i < s.n && CanInput(s, i, t) && t == Again
    ensures Input(s, i, t) == s
  {
  }

  method ClosePart(channel: Channel, from: Pipe, to: Pipe, i: nat, childDeaths: nat, ghost s: State)
    returns (deaths: nat, failed: bool)
    requires Shows(s, i, channel, from, to) && !s.failed && s.deaths == childDeaths <= i
    ensures Shows(Close(s, i), i, channel, from, to)
    ensures deaths == Close(s, i).deaths && failed == Close(s, i).failed
  {
    deaths, failed := childDeaths, false;
    ContentsSize(channel);
    if !channel.isCanRead && channel.full == 0 {
      if i != childDeaths {
        failed := true;
        return;
      }
      deaths := childDeaths + 1;
    }
  }
}
