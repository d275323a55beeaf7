/** The whole proxy on real buffers and pipes: the children's splices and exits, and the
    rounds of the parent's loop. */
module ProxyRuns {
  import opened ProxyBytes
  import opened RingBuffer
  import opened Pipeline
  import opened PipelineTheorems
  import P = ProxyLoop

  /** What happens next: a child moves bytes or exits, or the parent makes a round. */
  datatype Action = SpliceBytes(child: nat, bytes: nat) | ExitChild(child: nat) | Round(flags: seq<P.Flags>)

  // ---------- What the actions come to ----------

  /** The pipeline, the position of the oldest byte in every buffer, and the events so far. */
  datatype Progress = Progress(state: State, marks: seq<nat>, events: seq<Event>)

  ghost predicate Fine(p: Progress) {
    && Inv(p.state) && |p.marks| == p.state.n
    && forall i :: 0 <= i < p.state.n ==> p.marks[i] < BufferSize(p.state.n, i)
  }

  lemma FineMarks(p: Progress, i: nat)
    requires Fine(p) && i < p.state.n
    ensures P.Marked(p.state, i, p.marks[i])
  {
    assert Bounded(p.state, i);
  }

  lemma ApplySize(s: State, e: Event)
    requires Shaped(s)
    ensures Apply(s, e).n == s.n
  {
  }

  /** A child's event. */
  ghost function Moves(p: Progress, e: Event): (q: Progress)
    requires Fine(p)
    ensures Fine(q) && q.state.n == p.state.n
  {
    ApplyKeeps(p.state, e);
    ApplySize(p.state, e);
    Progress(Apply(p.state, e), p.marks, p.events + [e])
  }

  /** The visit of channel i. */
  ghost function Visited(p: Progress, i: nat, flags: P.Flags): (q: Progress)
    requires Fine(p) && i < p.state.n
    ensures Fine(q) && q.state.n == p.state.n
  {
    FineMarks(p, i);
    var e := P.VisitAt(p.state, i, p.marks[i], flags);
    var size := BufferSize(p.state.n, i);
    ApplyKeeps(p.state, e);
    ApplySize(p.state, e);
    MarkInside(p.marks[i], p.state, i, flags);
    Progress(Apply(p.state, e), p.marks[i := P.MarkAfter(p.marks[i], e.output, size)], p.events + [e])
  }

  lemma MarkInside(mark: nat, s: State, i: nat, flags: P.Flags)
    requires P.Marked(s, i, mark)
    ensures P.MarkAfter(mark, P.VisitAt(s, i, mark, flags).output, BufferSize(s.n, i)) < BufferSize(s.n, i)
  {
  }

  /** A round up to channel i, from the first open one on. */
  ghost function RoundTo(p: Progress, i: nat, flags: seq<P.Flags>): (q: Progress)
    requires Fine(p) && i <= p.state.n == |flags|
    ensures Fine(q) && q.state.n == p.state.n
    decreases i
  {
    if i <= p.state.deaths then p else Visited(RoundTo(p, i - 1, flags), i - 1, flags[i - 1])
  }

  /** One action; the parent's loop has ended when all channels are closed. */
  ghost function Acted(p: Progress, action: Action): (q: Progress)
    requires Fine(p)
    ensures Fine(q) && q.state.n == p.state.n
  {
    match action
    case SpliceBytes(i, k) => if i < p.state.n then Moves(p, Splice(i, k)) else p
    case ExitChild(i) => if i < p.state.n then Moves(p, Exit(i)) else p
    case Round(flags) =>
      if p.state.deaths < p.state.n && |flags| == p.state.n then RoundTo(p, p.state.n, flags) else p
  }

  ghost function ActedAll(p: Progress, actions: seq<Action>): (q: Progress)
    requires Fine(p)
    ensures Fine(q) && q.state.n == p.state.n
  {
    if actions == [] then p else Acted(ActedAll(p, actions[..|actions| - 1]), actions[|actions| - 1])
  }

  /** The events make just that run of the pipeline. */
  ghost predicate Follows(p: Progress, s: State)
    requires Inv(s)
  {
    p.state == Run(s, p.events)
  }

  lemma {:induction false} RoundFollows(p: Progress, i: nat, flags: seq<P.Flags>, s: State)
    requires Inv(s) && Fine(p) && Follows(p, s) && i <= p.state.n == |flags|
    ensures Follows(RoundTo(p, i, flags), s)
  {
    hide Apply, Inv, P.VisitAt;
    if i <= p.state.deaths {
    } else {
      RoundFollows(p, i - 1, flags, s);
      var q := RoundTo(p, i - 1, flags);
      FineMarks(q, i - 1);
      RunMore(s, q.events, P.VisitAt(q.state, i - 1, q.marks[i - 1], flags[i - 1]));
    }
  }

  lemma ActedFollows(p: Progress, action: Action, s: State)
    requires Inv(s) && Fine(p) && Follows(p, s)
    ensures Follows(Acted(p, action), s)
  {
    hide Apply, Inv, Fine;
    match action
    case SpliceBytes(i, k) => RunMore(s, p.events, Splice(i, k));
    case ExitChild(i) => RunMore(s, p.events, Exit(i));
    case Round(flags) =>
      if |flags| == p.state.n {
        RoundFollows(p, p.state.n, flags, s);
      }
  }

  lemma {:induction false} ActionsFollow(p: Progress, actions: seq<Action>, s: State)
    requires Inv(s) && Fine(p) && Follows(p, s)
    ensures Follows(ActedAll(p, actions), s)
  {
    hide Acted, Inv, Fine, Follows;
    if actions == [] {
    } else {
      ActionsFollow(p, actions[..|actions| - 1], s);
      ActedFollows(ActedAll(p, actions[..|actions| - 1]), actions[|actions| - 1], s);
    }
  }

  // ---------- What one event leaves alone ----------

  ghost predicate SameAt(s: State, t: State, c: nat) {
    && Shaped(s) && Shaped(t) && t.n == s.n && t.pipeSize == s.pipeSize && c < s.n
    && t.queues[3 * c + 1] == s.queues[3 * c + 1] && t.queues[3 * c + 2] == s.queues[3 * c + 2]
    && t.queues[3 * c + 3] == s.queues[3 * c + 3]
    && t.alive[c] == s.alive[c] && t.canRead[c] == s.canRead[c]
  }

  lemma VisitLeavesOthers(s: State, e: Event, c: nat)
    requires Shaped(s) && Possible(s, e) && e.Visit? && c < s.n && c != e.channel
    ensures SameAt(s, Apply(s, e), c)
  {
    InputLeavesOthers(s, e.channel, e.input, c);
    if e.input != Transfer.Again {
      OutputLeavesOthers(Input(s, e.channel, e.input), e.channel, e.output, c);
    }
  }

  lemma InputLeavesOthers(s: State, i: nat, t: Transfer, c: nat)
    requires Shaped(s) && i < s.n && CanInput(s, i, t) && c < s.n && c != i
    ensures SameAt(s, Input(s, i, t), c)
  {
  }

  lemma OutputLeavesOthers(s: State, i: nat, t: Transfer, c: nat)
    requires Shaped(s) && i < s.n && CanOutput(s, i, t) && c < s.n && c != i
    ensures SameAt(s, Output(s, i, t), c)
  {
  }

  lemma VisitLeavesFile(s: State, e: Event)
    requires Shaped(s) && Possible(s, e) && e.Visit?
    ensures Apply(s, e).queues[0] == s.queues[0] && Apply(s, e).n == s.n && Apply(s, e).pipeSize == s.pipeSize
  {
  }

  lemma ShowsSame(s: State, t: State, i: nat, channel: Channel, from: Pipe, to: Pipe)
    requires P.Shows(s, i, channel, from, to) && SameAt(s, t, i)
    ensures P.Shows(t, i, channel, from, to)
  {
  }

  /** A splice takes the first k bytes of what child i reads to the pipe it writes. */
  lemma SpliceIs(s: State, i: nat, k: nat)
    requires Shaped(s) && i < s.n && !s.failed
    ensures var (t, from) := (Apply(s, Event.Splice(i, k)), 3 * i);
      if s.alive[i] && 1 <= k <= 10000 && k <= |s.queues[from]| && |s.queues[from + 1]| + k <= s.pipeSize then
        && t == s.(queues := t.queues) && |t.queues| == |s.queues|
        && t.queues[from] == s.queues[from][k..] && t.queues[from + 1] == s.queues[from + 1] + s.queues[from][..k]
        && forall j :: 0 <= j < |s.queues| && j != from && j != from + 1 ==> t.queues[j] == s.queues[j]
      else t == s
  {
  }

  class Proxy {
    const n: nat
    const pipeSize: nat
    const file: Pipe
    const from: seq<Pipe>
    const to: seq<Pipe>
    const channels: seq<Channel>
    ghost const buffers: seq<array<Byte>>
    var childDeaths: nat
    var failed: bool

    constructor (n: nat, pipeSize: nat, file: Pipe, from: seq<Pipe>, to: seq<Pipe>, channels: seq<Channel>,
                 ghost buffers: seq<array<Byte>>)
      ensures this.n == n && this.pipeSize == pipeSize && this.file == file && childDeaths == 0 && !failed
      ensures this.from == from && this.to == to && this.channels == channels && this.buffers == buffers
    {
      this.n, this.pipeSize, this.file, this.from, this.to, this.channels, this.buffers :=
        n, pipeSize, file, from, to, channels, buffers;
      childDeaths, failed := 0, false;
    }

    /** from[i] is the pipe from child i, to[i] the one to child i + 1 or the standard output. */
    ghost predicate Wired()
      reads this
    {
      && |from| == |to| == |channels| == |buffers| == n
      && (forall i, j :: 0 <= i < n && 0 <= j < n ==> from[i] != to[j] && from[i] != file && to[j] != file)
      && (forall i, j :: 0 <= i < j < n ==>
            from[i] != from[j] && to[i] != to[j] && channels[i] != channels[j] && buffers[i] != buffers[j])
    }

    ghost function Objects(): set<object>
      requires Wired()
      reads this
    {
      {file} + (set i | 0 <= i < n :: from[i]) + (set i | 0 <= i < n :: to[i])
      + (set i | 0 <= i < n :: channels[i]) + (set i | 0 <= i < n :: buffers[i])
    }

    ghost predicate ShowsAt(s: State, i: nat)
      requires Wired() && i < n
      reads this, Objects()
    {
      channels[i].buffer == buffers[i] && P.Shows(s, i, channels[i], from[i], to[i])
    }

    ghost predicate Shows(s: State)
      reads this, if Wired() then Objects() else {}
    {
      && Wired() && Shaped(s) && s.n == n && s.pipeSize == pipeSize
      && s.queues[0] == file.data && s.deaths == childDeaths && s.failed == failed
      && forall i :: 0 <= i < n ==> ShowsAt(s, i)
    }

    /** What child i reads. */
    function Source(i: nat): Pipe
      requires Wired() && i < n
      reads this
    {
      if i == 0 then file else to[i - 1]
    }

    /** Which pipes are different ones. */
    lemma Apart(i: nat, c: nat)
      requires Wired() && i < n && c < n
      ensures from[c] != to[i] && from[i] != to[c] && from[c] != Source(i) && from[i] != Source(i)
      ensures c != i ==>
        from[c] != from[i] && to[c] != to[i] && channels[c] != channels[i] && buffers[c] != buffers[i]
      ensures to[c] == Source(i) <==> c + 1 == i
    {
      if i > 0 {
        assert from[c] != to[i - 1] && from[i] != to[i - 1];
        assert c != i - 1 ==> to[c] != to[i - 1];
      }
      assert from[c] != to[i] && from[i] != to[c];
      assert from[c] != file && to[c] != file;
    }

    lemma SourceShown(s: State, i: nat)
      requires Shows(s) && i < n
      ensures Source(i).data == s.queues[3 * i]
    {
      if i > 0 {
        assert ShowsAt(s, i - 1);
      }
    }

    lemma FromShown(s: State, i: nat)
      requires Shows(s) && i < n
      ensures from[i].data == s.queues[3 * i + 1] && from[i].open == s.alive[i]
    {
      assert ShowsAt(s, i);
    }

    /** Child i is running and has k bytes to move, not more than a page, and room for them. */
    predicate MaySplice(i: nat, k: nat)
      requires Wired() && i < n
      reads this, Source(i), from[i]
    {
      from[i].open && 1 <= k <= 10000 && k <= |Source(i).data| && |from[i].data| + k <= pipeSize
    }

    /** Child i is running, has read everything, and nothing more will come. */
    predicate MayExit(i: nat)
      requires Wired() && i < n
      reads this, Source(i), from[i]
    {
      from[i].open && |Source(i).data| == 0 && (i == 0 || childDeaths >= i)
    }

    /** A splice of child i, if it can be. */
    method SpliceChild(i: nat, k: nat, ghost s: State)
      requires Shows(s) && i < n && !failed
      modifies Source(i), from[i]
      ensures Shows(Apply(s, Event.Splice(i, k)))
      ensures Source(i).open == old(Source(i).open) && from[i].open == old(from[i].open)
      ensures old(MaySplice(i, k)) ==>
        Source(i).data == old(Source(i).data)[k..] && from[i].data == old(from[i].data) + old(Source(i).data)[..k]
      ensures !old(MaySplice(i, k)) ==> unchanged(Source(i), from[i])
    {
      hide Apply, WithMove, MoveBytes, BufferSize, Ring, Wrap;
      SourceShown(s, i);
      FromShown(s, i);
      Apart(i, i);
      SpliceIs(s, i, k);
      var source := Source(i);
      if from[i].open && 0 < k <= |source.data| && k <= PAGE && |from[i].data| + k <= pipeSize {
        var moved := source.data[..k];
        source.data := source.data[k..];
        from[i].data := from[i].data + moved;
        ghost var t := Apply(s, Event.Splice(i, k));
        forall c | 0 <= c < n ensures ShowsAt(t, c) {
          Apart(i, c);
          assert old(ShowsAt(s, c));
        }
      }
    }

    /** The exit of child i, if it is at the end of its input. */
    method ExitChild(i: nat, ghost s: State)
      requires Shows(s) && i < n && !failed
      modifies from[i]
      ensures Shows(Apply(s, Event.Exit(i)))
      ensures from[i].data == old(from[i].data) && (from[i].open <==> old(from[i].open) && !old(MayExit(i)))
    {
      SourceShown(s, i);
      FromShown(s, i);
      if from[i].open && |Source(i).data| == 0 && (i == 0 || childDeaths >= i) {
        from[i].open := false;
        ghost var t := s.(alive := s.alive[i := false]);
        assert Apply(s, Event.Exit(i)) == t;
        forall c | 0 <= c < n ensures ShowsAt(t, c) {
          Apart(i, c);
          assert old(ShowsAt(s, c));
        }
      }
    }

    /** The body of the loop over the channels. */
    method VisitChannel(i: nat, flags: P.Flags, ghost s: State) returns (ghost e: Event)
      requires Inv(s) && Shows(s) && childDeaths <= i < n
      modifies `childDeaths, `failed, channels[i], channels[i].buffer, from[i], to[i]
      ensures P.Marked(s, i, old(channels[i].offsetForRead))
      ensures e == P.VisitAt(s, i, old(channels[i].offsetForRead), flags)
      ensures channels[i].offsetForRead == P.MarkAfter(old(channels[i].offsetForRead), e.output, BufferSize(n, i))
      ensures Possible(s, e) && Shows(Apply(s, e))
      ensures flags.readable && old(channels[i].isCanRead && channels[i].empty != 0) <==> e.input != Skipped
      ensures flags.writable && old(channels[i].full != 0) && e.input != Transfer.Again <==> e.output != Skipped
    {
      hide Apply, Possible, P.Shows, SameAt;
      assert ShowsAt(s, i);
      ChannelReady(s, i);
      P.Fills(s, i, channels[i], from[i], to[i]);
      childDeaths, failed, e := P.Visit(channels[i], from[i], to[i], i, childDeaths, flags, s);
      VisitKinds(s, i, old(channels[i].offsetForRead), flags);
      hide P.VisitAt, P.MarkAfter;
      ghost var t := Apply(s, e);
      VisitLeavesFile(s, e);
      P.Fills(t, i, channels[i], from[i], to[i]);
      Apart(i, i);
      assert to[i] != file && from[i] != file;
      forall c | 0 <= c < n ensures ShowsAt(t, c) {
        Apart(i, c);
        if c != i {
          assert old(ShowsAt(s, c));
          VisitLeavesOthers(s, e, c);
          ShowsSame(s, t, c, channels[c], from[c], to[c]);
        }
      }
    }

    lemma ChannelReady(s: State, i: nat)
      requires Shows(s) && i < n
      ensures channels[i].Valid() && from[i] != to[i]
    {
      assert ShowsAt(s, i);
    }

    lemma OutputShown(s: State)
      requires Shows(s) && n >= 1
      ensures |to| == n && to[n - 1].data == s.queues[3 * n] && |s.queues| == 3 * n + 1
      ensures childDeaths == s.deaths && failed == s.failed
    {
      assert ShowsAt(s, n - 1);
    }

    lemma InObjects(s: State, i: nat)
      requires Shows(s) && i < n
      ensures {channels[i], channels[i].buffer, from[i], to[i], Source(i)} <= Objects()
    {
      assert ShowsAt(s, i);
    }

    /** The buffers are at the positions of p, too. */
    ghost predicate At(p: Progress)
      reads this, if Wired() then Objects() else {}
    {
      Shows(p.state) && |p.marks| == n && forall i :: 0 <= i < n ==> channels[i].offsetForRead == p.marks[i]
    }

    /** One round of the parent's loop: every channel from the first open one on is visited. */
    method ParentRound(flags: seq<P.Flags>, ghost p: Progress)
      requires Fine(p) && At(p) && |flags| == n
      modifies Objects(), `childDeaths, `failed
      ensures At(RoundTo(p, n, flags))
    {
      var start := childDeaths;
      for i := start to n
        invariant At(RoundTo(p, i, flags)) && childDeaths <= i
      {
        VisitNext(i, flags[i], RoundTo(p, i, flags));
      }
    }

    method VisitNext(i: nat, flags: P.Flags, ghost p: Progress)
      requires Fine(p) && At(p) && childDeaths <= i < n
      modifies Objects(), `childDeaths, `failed
      ensures At(Visited(p, i, flags)) && childDeaths <= i + 1
    {
      hide Apply, Possible, P.VisitAt, P.MarkAfter, P.Shows, Inv;
      FineMarks(p, i);
      InObjects(p.state, i);
      ghost var e := VisitChannel(i, flags, p.state);
      VisitKinds(p.state, i, p.marks[i], flags);
      OneDeath(p.state, e);
      forall c | 0 <= c < n && c != i ensures channels[c] != channels[i] {
        Apart(i, c);
      }
    }

    /** What a splice of k bytes by child i does to the pipes. */
    method SpliceAction(i: nat, k: nat, ghost p: Progress)
      requires Fine(p) && At(p) && i < n
      modifies Objects(), `childDeaths, `failed
      ensures At(Moves(p, Splice(i, k)))
      ensures unchanged(`childDeaths, `failed) && unchanged(Objects() - {Source(i), from[i]})
      ensures Source(i).open == old(Source(i).open) && from[i].open == old(from[i].open)
      ensures if !old(MaySplice(i, k)) then unchanged(Source(i), from[i]) else
        Source(i).data == old(Source(i).data)[k..] && from[i].data == old(from[i].data) + old(Source(i).data)[..k]
    {
      hide Apply, P.Shows, Inv;
      InObjects(p.state, i);
      NeverFailed(p.state);
      SpliceChild(i, k, p.state);
      forall c | 0 <= c < n ensures channels[c].offsetForRead == old(channels[c].offsetForRead) {
      }
    }

    method ExitAction(i: nat, ghost p: Progress)
      requires Fine(p) && At(p) && i < n
      modifies Objects(), `childDeaths, `failed
      ensures At(Moves(p, Exit(i)))
      ensures unchanged(`childDeaths, `failed) && unchanged(Objects() - {from[i]})
      ensures from[i].data == old(from[i].data) && (from[i].open <==> old(from[i].open) && !old(MayExit(i)))
    {
      hide Apply, P.Shows, Inv;
      InObjects(p.state, i);
      NeverFailed(p.state);
      ExitChild(i, p.state);
    }

    /** One action: a step of a child or a round of the parent's loop. */
    method Act(action: Action, ghost p: Progress)
      requires Fine(p) && At(p)
      modifies Objects(), `childDeaths, `failed
      ensures At(Acted(p, action))
      ensures action.SpliceBytes? && action.child < n ==>
        var (i, k) := (action.child, action.bytes);
        && unchanged(`childDeaths, `failed) && unchanged(Objects() - {Source(i), from[i]})
        && Source(i).open == old(Source(i).open) && from[i].open == old(from[i].open)
        && if !old(MaySplice(i, k)) then unchanged(Source(i), from[i]) else
             Source(i).data == old(Source(i).data)[k..] && from[i].data == old(from[i].data) + old(Source(i).data)[..k]
      ensures action.ExitChild? && action.child < n ==>
        var i := action.child;
        && unchanged(`childDeaths, `failed) && unchanged(Objects() - {from[i]})
        && from[i].data == old(from[i].data) && (from[i].open <==> old(from[i].open) && !old(MayExit(i)))
    {
      hide Apply, P.Shows, ShowsAt, Inv, MaySplice, MayExit;
      match action {
        case SpliceBytes(i, k) =>
          if i < n {
            SpliceAction(i, k, p);
          }
        case ExitChild(i) =>
          if i < n {
            ExitAction(i, p);
          }
        case Round(flags) =>
          if childDeaths < n && |flags| == n {
            ParentRound(flags, p);
          }
      }
    }
  }

  /** What a visit tries is what select reports and the channel allows. */
  lemma VisitKinds(s: State, i: nat, mark: nat, flags: P.Flags)
    requires P.Marked(s, i, mark)
    ensures var (e, full) := (P.VisitAt(s, i, mark, flags), |s.queues[3 * i + 2]|);
      && (flags.readable && s.canRead[i] && full < BufferSize(s.n, i) <==> e.input != Skipped)
      && (flags.writable && full > 0 && e.input != Transfer.Again <==> e.output != Skipped)
      && e.Visit? && e.channel == i
  {
  }

  lemma OneDeath(s: State, e: Event)
    requires Shaped(s) && Possible(s, e) && e.Visit? && s.deaths <= e.channel
    ensures Apply(s, e).deaths <= e.channel + 1
  {
  }

  lemma RunMore(s: State, events: seq<Event>, e: Event)
    requires Inv(s)
    ensures Run(s, events + [e]) == Apply(Run(s, events), e)
  {
    assert (events + [e])[..|events|] == events;
  }

  // ---------- Rounds that move something ----------

  /** What was reported for channel i is asked for and true: something can be read, or room
      for something that is there to be written. */
  ghost predicate Ready(s: State, i: nat, flags: P.Flags)
    requires Shaped(s) && i < s.n
  {
    var full := |s.queues[3 * i + 2]|;
    var asks, offers := flags.readable && s.canRead[i] && full < BufferSize(s.n, i), flags.writable && full > 0;
    && (asks || offers)
    && (asks ==> s.queues[3 * i + 1] != [] || !s.alive[i])
    && (offers ==> FitsSource(s, i + 1, 1))
  }

  lemma InputFits(s: State, i: nat, mark: nat, limit: nat)
    requires P.Marked(s, i, mark) && s.canRead[i] && |s.queues[3 * i + 2]| < BufferSize(s.n, i)
    ensures CanInput(s, i, P.InputAt(s, i, mark, limit))
    ensures P.InputAt(s, i, mark, limit) == Transfer.Again <==> s.queues[3 * i + 1] == [] && s.alive[i]
    ensures P.InputAt(s, i, mark, limit) != Skipped
  {
  }

  lemma OutputFits(s: State, t: State, i: nat, mark: nat, limit: nat)
    requires P.Marked(s, i, mark) && P.Marked(t, i, mark) && t.queues[3 * i + 3] == s.queues[3 * i + 3]
    requires t.n == s.n && t.pipeSize == s.pipeSize && t.queues[3 * i + 2] != []
    ensures CanOutput(t, i, P.OutputAt(s, i, mark, |t.queues[3 * i + 2]|, limit))
    ensures FitsSource(s, i + 1, 1) ==> P.OutputAt(s, i, mark, |t.queues[3 * i + 2]|, limit).Moved?
    ensures P.OutputAt(s, i, mark, |t.queues[3 * i + 2]|, limit) != Skipped
  {
  }

  lemma InputLeaves(s: State, i: nat, mark: nat, t: Transfer)
    requires P.Marked(s, i, mark) && CanInput(s, i, t)
    ensures var u := Input(s, i, t);
      && P.Marked(u, i, mark) && u.n == s.n && u.pipeSize == s.pipeSize && u.queues[3 * i + 3] == s.queues[3 * i + 3]
      && |u.queues[3 * i + 2]| == |s.queues[3 * i + 2]| + (if t.Moved? then t.bytes else 0)
  {
  }

  /** Whatever is reported, the visit is a possible one, and it moves something if what was
      reported is true. */
  lemma VisitMoves(s: State, i: nat, mark: nat, flags: P.Flags)
    requires P.Marked(s, i, mark) && !s.failed && s.deaths <= i
    ensures Possible(s, P.VisitAt(s, i, mark, flags))
    ensures Ready(s, i, flags) ==> Effective(s, P.VisitAt(s, i, mark, flags))
  {
    hide P.InputAt, P.OutputAt, CanInput, CanOutput, Input;
    var e, full := P.VisitAt(s, i, mark, flags), |s.queues[3 * i + 2]|;
    NothingAsked(s, i);
    if flags.readable && s.canRead[i] && full < BufferSize(s.n, i) {
      InputFits(s, i, mark, flags.inputLimit);
    }
    InputLeaves(s, i, mark, e.input);
    var t := Input(s, i, e.input);
    NothingAsked(t, i);
    if flags.writable && full > 0 {
      OutputFits(s, t, i, mark, flags.outputLimit);
    }
  }

  lemma NothingAsked(s: State, i: nat)
    requires Shaped(s) && i < s.n
    ensures CanInput(s, i, Skipped) && CanOutput(s, i, Skipped)
  {
  }

  lemma SameHere(s: State, c: nat)
    requires Shaped(s) && c < s.n
    ensures SameAt(s, s, c)
  {
  }

  lemma SameOn(s: State, t: State, u: State, c: nat)
    requires SameAt(s, t, c) && SameAt(t, u, c)
    ensures SameAt(s, u, c)
  {
  }

  lemma ReadySame(s: State, t: State, i: nat, flags: P.Flags)
    requires SameAt(s, t, i) && Ready(s, i, flags)
    ensures Ready(t, i, flags)
  {
  }

  /** A round that began in s has come to channel i and to t: it has left the channels from
      there on alone, and has moved something if it has passed channel k. */
  ghost predicate DoneTo(s: State, t: State, i: nat, k: nat) {
    && Shaped(s) && Shaped(t) && t.n == s.n
    && t.deaths <= (if i < s.deaths then s.deaths else i)
    && (forall c :: i <= c < s.n && s.deaths <= c ==> SameAt(s, t, c))
    && Remaining(t) <= Remaining(s) - (if k < i then 1 else 0)
  }

  lemma RoundBegins(s: State, i: nat, k: nat)
    requires Inv(s) && i <= s.deaths <= k
    ensures DoneTo(s, s, i, k)
  {
  }

  lemma VisitInRound(s: State, q: State, i: nat, mark: nat, flags: P.Flags, k: nat)
    requires Inv(q) && P.Marked(q, i, mark) && DoneTo(s, q, i, k) && s.deaths <= i
    requires i == k ==> Ready(s, i, flags)
    ensures DoneTo(s, Apply(q, P.VisitAt(q, i, mark, flags)), i + 1, k)
  {
    hide Apply, Possible, Effective, SameAt, Ready, Remaining, P.VisitAt;
    var e := P.VisitAt(q, i, mark, flags);
    VisitMoves(q, i, mark, flags);
    VisitKinds(q, i, mark, flags);
    OneDeath(q, e);
    ApplySize(q, e);
    EffectiveDecreases(q, e);
    if i == k {
      ReadySame(s, q, i, flags);
    }
    forall c | i < c < s.n ensures SameAt(s, Apply(q, e), c) {
      VisitLeavesOthers(q, e, c);
      SameOn(s, q, Apply(q, e), c);
    }
  }

  lemma {:induction false} RoundUpTo(p: Progress, i: nat, flags: seq<P.Flags>, k: nat)
    requires Fine(p) && i <= p.state.n == |flags| && p.state.deaths <= k
    requires k < p.state.n ==> Ready(p.state, k, flags[k])
    ensures DoneTo(p.state, RoundTo(p, i, flags).state, i, k)
    decreases i
  {
    hide Apply, DoneTo, Ready, P.VisitAt, P.MarkAfter, Inv;
    if i <= p.state.deaths {
      RoundBegins(p.state, i, k);
    } else {
      RoundUpTo(p, i - 1, flags, k);
      var q := RoundTo(p, i - 1, flags);
      FineMarks(q, i - 1);
      VisitInRound(p.state, q.state, i - 1, q.marks[i - 1], flags[i - 1], k);
    }
  }

  /** Some channel is ready for what was reported. */
  ghost predicate AnyReady(s: State, flags: seq<P.Flags>)
    requires Shaped(s)
  {
    |flags| == s.n && exists i :: 0 <= i < s.n && Ready(s, i, flags[i])
  }

  /** A closed channel is never ready. */
  lemma ReadyIsOpen(s: State, i: nat, flags: P.Flags)
    requires Inv(s) && i < s.n && Ready(s, i, flags)
    ensures s.deaths <= i
  {
    assert Ended(s, i);
  }

  /** A round after select has returned truly moves a byte or an end. */
  lemma RoundMoves(p: Progress, flags: seq<P.Flags>)
    requires Fine(p) && AnyReady(p.state, flags)
    ensures Remaining(Acted(p, Round(flags)).state) < Remaining(p.state)
  {
    hide Ready, Remaining, RoundTo;
    var k: nat :| k < p.state.n && Ready(p.state, k, flags[k]);
    ReadyIsOpen(p.state, k, flags[k]);
    RoundUpTo(p, p.state.n, flags, k);
  }

  /** How many rounds are entered with some channel ready. */
  ghost function ReadyRounds(p: Progress, actions: seq<Action>): nat
    requires Fine(p)
  {
    if actions == [] then 0 else
      var (front, last) := (actions[..|actions| - 1], actions[|actions| - 1]);
      ReadyRounds(p, front)
      + (if last.Round? && AnyReady(ActedAll(p, front).state, last.flags) then 1 else 0)
  }

  lemma {:induction false} RoundNeverAdds(p: Progress, i: nat, flags: seq<P.Flags>)
    requires Fine(p) && i <= p.state.n == |flags|
    ensures Remaining(RoundTo(p, i, flags).state) <= Remaining(p.state)
    decreases i
  {
    hide Apply, Remaining, P.VisitAt, P.MarkAfter, Effective;
    if i <= p.state.deaths {
    } else {
      RoundNeverAdds(p, i - 1, flags);
      var q := RoundTo(p, i - 1, flags);
      FineMarks(q, i - 1);
      EffectiveDecreases(q.state, P.VisitAt(q.state, i - 1, q.marks[i - 1], flags[i - 1]));
    }
  }

  lemma ActionNeverAdds(p: Progress, action: Action)
    requires Fine(p)
    ensures Remaining(Acted(p, action).state) <= Remaining(p.state)
  {
    hide Apply, Remaining, RoundTo, Effective;
    match action
    case SpliceBytes(i, k) => EffectiveDecreases(p.state, Splice(i, k));
    case ExitChild(i) => EffectiveDecreases(p.state, Exit(i));
    case Round(flags) =>
      if |flags| == p.state.n {
        RoundNeverAdds(p, p.state.n, flags);
      }
  }

  /** Whatever else happens in between, there are no more such rounds than there was to be
      done at the start: the parent does not go round for ever. */
  lemma {:induction false} RoundsAreBounded(p: Progress, actions: seq<Action>)
    requires Fine(p)
    ensures ReadyRounds(p, actions) + Remaining(ActedAll(p, actions).state) <= Remaining(p.state)
  {
    hide Acted, Remaining, AnyReady;
    if actions == [] {
    } else {
      var front, last := actions[..|actions| - 1], actions[|actions| - 1];
      RoundsAreBounded(p, front);
      ActionNeverAdds(ActedAll(p, front), last);
      if last.Round? && AnyReady(ActedAll(p, front).state, last.flags) {
        RoundMoves(ActedAll(p, front), last.flags);
      }
    }
  }

  // ---------- What a round consists of ----------

  /** A visit depends on its own channel only. */
  lemma VisitSame(s: State, t: State, c: nat, mark: nat, flags: P.Flags)
    requires SameAt(s, t, c) && P.Marked(s, c, mark) && P.Marked(t, c, mark)
    ensures P.VisitAt(s, c, mark, flags) == P.VisitAt(t, c, mark, flags)
  {
  }

  lemma AheadSame(s: State, t: State, i: nat, k: nat)
    requires DoneTo(s, t, i, k) && s.deaths <= i < s.n
    ensures SameAt(s, t, i)
  {
  }

  lemma {:induction false} MarksAhead(p: Progress, i: nat, flags: seq<P.Flags>, c: nat)
    requires Fine(p) && i <= c < p.state.n == |flags|
    ensures RoundTo(p, i, flags).marks[c] == p.marks[c]
    decreases i
  {
    hide Apply, Inv, P.VisitAt, P.MarkAfter;
    if i <= p.state.deaths {
    } else {
      MarksAhead(p, i - 1, flags, c);
    }
  }

  /** e is the visit of channel c that is determined by what is reported for it and by how it
      is in p. */
  ghost predicate IsVisit(p: Progress, c: int, flags: P.Flags, e: Event) {
    && Shaped(p.state) && 0 <= c < p.state.n == |p.marks| && P.Marked(p.state, c, p.marks[c])
    && e == P.VisitAt(p.state, c, p.marks[c], flags)
  }

  lemma VisitAhead(p: Progress, i: nat, flags: seq<P.Flags>)
    requires Fine(p) && p.state.deaths <= i < p.state.n == |flags|
    ensures var q := RoundTo(p, i, flags);
      && P.Marked(q.state, i, q.marks[i]) && IsVisit(p, i, flags[i], P.VisitAt(q.state, i, q.marks[i], flags[i]))
  {
    hide Apply, Inv, RoundTo, DoneTo, SameAt, P.VisitAt, P.MarkAfter;
    var q := RoundTo(p, i, flags);
    RoundUpTo(p, i, flags, p.state.n);
    AheadSame(p.state, q.state, i, p.state.n);
    MarksAhead(p, i, flags, i);
    FineMarks(p, i);
    FineMarks(q, i);
    VisitSame(p.state, q.state, i, p.marks[i], flags[i]);
  }

  /** A round visits every channel from the first open one on, once, in this order, and does
      there just what was reported for it and how it was when the round began determine. */
  lemma {:induction false} RoundVisits(p: Progress, i: nat, flags: seq<P.Flags>)
    requires Fine(p) && p.state.deaths <= i <= p.state.n == |flags|
    ensures var (q, k) := (RoundTo(p, i, flags), |p.events|);
      && p.events <= q.events && |q.events| == k + i - p.state.deaths
      && forall j :: k <= j < |q.events| ==>
           var c := p.state.deaths + j - k; IsVisit(p, c, flags[c], q.events[j])
    decreases i
  {
    hide Apply, Inv, IsVisit, P.VisitAt, P.MarkAfter;
    if i == p.state.deaths {
    } else {
      RoundVisits(p, i - 1, flags);
      VisitAhead(p, i - 1, flags);
    }
  }

  /** As much is read as the system moves, up to what is in the pipe and to the end of the free
      part or of the buffer. */
  lemma ReadsAll(s: State, i: nat, mark: nat, limit: nat)
    requires P.Marked(s, i, mark) && s.queues[3 * i + 1] != [] && |s.queues[3 * i + 2]| < BufferSize(s.n, i)
    ensures var (t, full, size) := (P.InputAt(s, i, mark, limit), |s.queues[3 * i + 2]|, BufferSize(s.n, i));
      && t.Moved? && 1 <= t.bytes <= |s.queues[3 * i + 1]| && t.bytes <= size - full && (limit > 0 ==> t.bytes <= limit)
      && (t.bytes == limit || (t.bytes == 1 && limit == 0) || t.bytes == |s.queues[3 * i + 1]| || t.bytes == size - full
          || Wrap(mark + full, size) + t.bytes == size)
  {
  }

  lemma WritesAll(s: State, i: nat, mark: nat, limit: nat)
    requires P.Marked(s, i, mark) && s.queues[3 * i + 2] != [] && FitsSource(s, i + 1, 1)
    ensures var (full, to) := (|s.queues[3 * i + 2]|, |s.queues[3 * i + 3]|);
      var t := P.OutputAt(s, i, mark, full, limit);
      && t.Moved? && 1 <= t.bytes <= full && FitsSource(s, i + 1, t.bytes) && (limit > 0 ==> t.bytes <= limit)
      && (t.bytes == limit || (t.bytes == 1 && limit == 0) || t.bytes == full
          || (i < s.n - 1 && to + t.bytes == s.pipeSize) || mark + t.bytes == BufferSize(s.n, i))
  {
  }

  // ---------- Every file can be printed ----------

  lemma {:induction false} ActedFrom(p: Progress, a: Action, rest: seq<Action>)
    requires Fine(p)
    ensures ActedAll(p, [a] + rest) == ActedAll(Acted(p, a), rest)
  {
    hide Acted, Fine;
    var all := [a] + rest;
    if rest == [] {
      assert all == [a] && all[..|all| - 1] == [];
      assert ActedAll(p, []) == p;
    } else {
      assert all[..|all| - 1] == [a] + rest[..|rest| - 1];
      ActedFrom(p, a, rest[..|rest| - 1]);
    }
  }

  /** Nothing reported but for channel i. */
  ghost function Only(n: nat, i: nat, f: P.Flags): seq<P.Flags>
    requires i < n
  {
    seq(n, k => if k == i then f else P.Flags(false, false, 0, 0))
  }

  /** What can move is ready for a report that is true. */
  lemma VisitIsReady(s: State, e: Event) returns (flags: seq<P.Flags>)
    requires Inv(s) && Effective(s, e) && e.Visit?
    ensures AnyReady(s, flags)
  {
    var f := if e.input.Moved? then P.Flags(true, false, 1, 1) else P.Flags(false, true, 1, 1);
    flags := Only(s.n, e.channel, f);
    assert Ready(s, e.channel, flags[e.channel]);
  }

  /** As long as a channel is open, some action moves something. */
  lemma SomeAction(p: Progress) returns (a: Action)
    requires Fine(p) && p.state.deaths < p.state.n
    ensures Remaining(Acted(p, a).state) < Remaining(p.state)
  {
    hide RoundTo, Ready, Remaining;
    var e := NoDeadlock(p.state);
    match e
    case Splice(i, k) =>
      a := SpliceBytes(i, k);
      EffectiveDecreases(p.state, e);
    case Exit(i) =>
      a := ExitChild(i);
      EffectiveDecreases(p.state, e);
    case Visit(i, _, _) =>
      var flags := VisitIsReady(p.state, e);
      a := Round(flags);
      RoundMoves(p, flags);
  }

  lemma {:induction false} FinishingActions(p: Progress) returns (actions: seq<Action>)
    requires Fine(p)
    ensures ActedAll(p, actions).state.deaths == p.state.n
    decreases Remaining(p.state)
  {
    hide Acted, Remaining;
    if p.state.deaths == p.state.n {
      actions := [];
    } else {
      var a := SomeAction(p);
      var rest := FinishingActions(Acted(p, a));
      actions := [a] + rest;
      ActedFrom(p, a, rest);
    }
  }

  // ---------- Start-up ----------

  /** n pipes, the last of them endless if it stands for the standard output. */
  method MakePipes(n: nat, capacity: nat, output: bool) returns (pipes: seq<Pipe>)
    ensures |pipes| == n && (forall i :: 0 <= i < n ==> fresh(pipes[i]))
    ensures forall i, j :: 0 <= i < j < n ==> pipes[i] != pipes[j]
    ensures forall i :: 0 <= i < n ==>
      && pipes[i].data == [] && pipes[i].open && pipes[i].capacity == capacity
      && pipes[i].endless == (output && i == n - 1)
  {
    pipes := [];
    for k := 0 to n
      invariant |pipes| == k && (forall i :: 0 <= i < k ==> fresh(pipes[i]))
      invariant forall i, j :: 0 <= i < j < k ==> pipes[i] != pipes[j]
      invariant forall i :: 0 <= i < k ==>
        && pipes[i].data == [] && pipes[i].open && pipes[i].capacity == capacity
        && pipes[i].endless == (output && i == n - 1)
    {
      var pipe := new Pipe(capacity, output && k == n - 1);
      pipes := pipes + [pipe];
    }
  }

  ghost predicate IsNew(channel: Channel, size: nat)
    reads channel, channel.buffer
  {
    && channel.Valid() && channel.Contents() == [] && channel.isCanRead
    && channel.size == size && channel.offsetForRead == 0
  }

  method MakeChannel(size: nat) returns (channel: Channel)
    requires size > 0
    ensures fresh(channel) && fresh(channel.buffer) && IsNew(channel, size)
  {
    channel := new Channel(size);
  }

  method MakeChannels(n: nat) returns (channels: seq<Channel>, ghost buffers: seq<array<Byte>>)
    ensures |channels| == |buffers| == n
    ensures forall i :: 0 <= i < n ==> fresh(channels[i]) && fresh(buffers[i]) && channels[i].buffer == buffers[i]
    ensures forall i, j :: 0 <= i < j < n ==> channels[i] != channels[j] && buffers[i] != buffers[j]
    ensures forall i :: 0 <= i < n ==> IsNew(channels[i], BufferSize(n, i))
  {
    hide IsNew, BufferSize;
    channels, buffers := [], [];
    for k := 0 to n
      invariant |channels| == |buffers| == k
      invariant forall i :: 0 <= i < k ==> fresh(channels[i]) && fresh(buffers[i]) && channels[i].buffer == buffers[i]
      invariant forall i, j :: 0 <= i < j < k ==> channels[i] != channels[j] && buffers[i] != buffers[j]
      invariant forall i :: 0 <= i < k ==> IsNew(channels[i], BufferSize(n, i))
    {
      BufferSizePositive(n, k);
      var channel := MakeChannel(BufferSize(n, k));
      channels, buffers := channels + [channel], buffers + [channel.buffer];
    }
  }

  /** A channel and its pipes as they are before the first event. */
  lemma StartShows(n: nat, pipeSize: nat, data: seq<Byte>, i: nat, channel: Channel, from: Pipe, to: Pipe)
    requires n >= 1 && pipeSize >= 1 && i < n && IsNew(channel, BufferSize(n, i))
    requires from != to && from.data == [] && from.open && from.capacity == pipeSize && !from.endless
    requires to.data == [] && to.open && to.capacity == pipeSize && to.endless == (i == n - 1)
    ensures P.Shows(Start(n, pipeSize, data), i, channel, from, to)
  {
    hide BufferSize;
  }

  method StartUp(n: nat, pipeSize: nat, data: seq<Byte>) returns (proxy: Proxy)
    requires n >= 1 && pipeSize >= 1
    ensures fresh(proxy) && proxy.Wired() && fresh(proxy.Objects()) && proxy.n == n
    ensures proxy.Shows(Start(n, pipeSize, data))
    ensures forall i :: 0 <= i < n ==> proxy.channels[i].offsetForRead == 0
  {
    hide IsNew, BufferSize, Start, P.Shows;
    var file := new Pipe(0, false);
    file.data := data;
    var from := MakePipes(n, pipeSize, false);
    var to := MakePipes(n, pipeSize, true);
    var channels;
    ghost var buffers;
    channels, buffers := MakeChannels(n);
    proxy := new Proxy(n, pipeSize, file, from, to, channels, buffers);
    ghost var s := Start(n, pipeSize, data);
    StartShape(n, pipeSize, data);
    forall i | 0 <= i < n ensures proxy.ShowsAt(s, i) {
      assert IsNew(channels[i], BufferSize(n, i));
      StartShows(n, pipeSize, data, i, channels[i], from[i], to[i]);
    }
    forall i | 0 <= i < n ensures channels[i].offsetForRead == 0 {
      assert IsNew(channels[i], BufferSize(n, i));
      NewAtStart(channels[i], BufferSize(n, i));
    }
  }

  lemma NewAtStart(channel: Channel, size: nat)
    requires IsNew(channel, size)
    ensures channel.offsetForRead == 0
  {
  }

  lemma StartShape(n: nat, pipeSize: nat, data: seq<Byte>)
    requires n >= 1 && pipeSize >= 1
    ensures Shaped(Start(n, pipeSize, data)) && Start(n, pipeSize, data).n == n
    ensures Start(n, pipeSize, data).pipeSize == pipeSize && Start(n, pipeSize, data).queues[0] == data
    ensures Start(n, pipeSize, data).deaths == 0 && !Start(n, pipeSize, data).failed
  {
  }

  /** Nothing has happened yet. */
  ghost function Begun(n: nat, pipeSize: nat, data: seq<Byte>): (p: Progress)
    requires n >= 1 && pipeSize >= 1
    ensures Fine(p) && p.state == Start(n, pipeSize, data) && p.state.n == n
  {
    StartInv(n, pipeSize, data);
    StartShape(n, pipeSize, data);
    BuffersExist(n);
    Progress(Start(n, pipeSize, data), seq(n, _ => 0), [])
  }

  lemma BuffersExist(n: nat)
    ensures forall i :: 0 <= i < n ==> BufferSize(n, i) > 0
  {
    forall i | 0 <= i < n ensures BufferSize(n, i) > 0 {
      BufferSizePositive(n, i);
    }
  }

  lemma NeverFailed(s: State)
    requires Inv(s)
    ensures !s.failed
  {
  }

  /** The pipeline after the actions, which is the one after some run from the start. */
  ghost function Reached(n: nat, pipeSize: nat, data: seq<Byte>, actions: seq<Action>): (p: Progress)
    requires n >= 1 && pipeSize >= 1
    ensures Fine(p) && p.state.n == n
    ensures Inv(Start(n, pipeSize, data)) && p.state == Run(Start(n, pipeSize, data), p.events)
  {
    StartInv(n, pipeSize, data);
    ActionsFollow(Begun(n, pipeSize, data), actions, Start(n, pipeSize, data));
    ActedAll(Begun(n, pipeSize, data), actions)
  }

  /** For every file, number of children and size of the pipes some splices, exits and rounds
      end the loop with all of the file printed. */
  lemma AllCanBePrinted(n: nat, pipeSize: nat, data: seq<Byte>) returns (actions: seq<Action>)
    requires n >= 1 && pipeSize >= 1
    ensures var s := Reached(n, pipeSize, data, actions).state;
      s.deaths == n && |s.queues| == 3 * n + 1 && s.queues[3 * n] == data
  {
    hide Run, Start, ActedAll;
    actions := FinishingActions(Begun(n, pipeSize, data));
    FinishedIsPrinted(n, pipeSize, data, Reached(n, pipeSize, data, actions).events);
  }

  /** The proxy, whatever moves when and however much, does just what the actions say in the
      pipeline; what it prints is a beginning of the file, and all of it when the loop ends. */
  method Simulate(n: nat, pipeSize: nat, data: seq<Byte>, actions: seq<Action>) returns (proxy: Proxy)
    requires n >= 1 && pipeSize >= 1
    ensures proxy.At(Reached(n, pipeSize, data, actions))
    ensures |proxy.to| == n && proxy.to[n - 1].data <= data && (proxy.childDeaths == n ==> proxy.to[n - 1].data == data)
    ensures !proxy.failed
  {
    hide Start, Run, Inv, Acted;
    proxy := StartUp(n, pipeSize, data);
    ghost var start := Begun(n, pipeSize, data);
    for i := 0 to |actions|
      invariant fresh(proxy) && proxy.n == n && proxy.At(ActedAll(start, actions[..i])) && fresh(proxy.Objects())
    {
      proxy.Act(actions[i], ActedAll(start, actions[..i]));
      assert actions[..i + 1][..i] == actions[..i];
    }
    assert actions[..|actions|] == actions;
    ghost var p := Reached(n, pipeSize, data, actions);
    Conservation(n, pipeSize, data, p.events);
    FinishedIsPrinted(n, pipeSize, data, p.events);
    proxy.OutputShown(p.state);
    NeverFailed(p.state);
  }
}
