/** Cutting an interval into equal slices, over machines and then over threads, in
    exact real arithmetic. */
module Slices {

  /** The point k slices of width w after b. */
  function Cut(b: real, w: real, k: nat): real {
    if k == 0 then b else Cut(b, w, k - 1) + w
  }

  lemma {:induction false} CutIs(b: real, w: real, k: nat)
    ensures Cut(b, w, k) == b + k as real * w
  {
    if k == 0 {
    } else {
      CutIs(b, w, k - 1);
      assert k as real == (k - 1) as real + 1.0;
      OneMore((k - 1) as real, w);
    }
  }

  lemma OneMore(r: real, w: real)
    ensures (r + 1.0) * w == r * w + w
  {
  }

  /** Cutting on from slice number k. */
  lemma {:induction false} CutOn(b: real, w: real, k: nat, n: nat)
    ensures Cut(b, w, k + n) == Cut(Cut(b, w, k), w, n)
  {
    if n == 0 {
    } else {
      CutOn(b, w, k, n - 1);
    }
  }

  lemma CutEnd(b: real, e: real, n: nat)
    requires n > 0
    ensures Cut(b, (e - b) / n as real, n) == e
  {
    var r := n as real;
    CutIs(b, (e - b) / r, n);
    assert r * ((e - b) / r) == e - b;
  }

  lemma {:induction false} CutGrows(b: real, w: real, k: nat, n: nat)
    requires w >= 0.0 && k <= n
    ensures Cut(b, w, k) <= Cut(b, w, n)
  {
    if k == n {
    } else {
      CutGrows(b, w, k, n - 1);
    }
  }

  /** n slices of width w, taken together and divided by n, have width w again. */
  lemma WidthBack(c: real, w: real, n: nat)
    requires n > 0
    ensures (Cut(c, w, n) - c) / n as real == w
  {
    CutIs(c, w, n);
    Divided(n as real, w);
  }

  lemma Divided(r: real, w: real)
    requires r > 0.0
    ensures r * w / r == w
  {
  }

  // ---------- Machines ----------

  datatype Task = Task(threads: nat, begin: real, end: real)

  /** How many slices the first i tasks have. */
  ghost function SlicesBefore(tasks: seq<Task>, i: nat): nat
    requires i <= |tasks|
  {
    if i == 0 then 0 else SlicesBefore(tasks, i - 1) + tasks[i - 1].threads
  }

  /** Task i takes its slices of width w where the tasks before it end. */
  ghost predicate InPlace(tasks: seq<Task>, i: nat, b: real, w: real)
    requires i < |tasks|
  {
    && tasks[i].threads > 0
    && tasks[i].begin == Cut(b, w, SlicesBefore(tasks, i))
    && tasks[i].end == Cut(b, w, SlicesBefore(tasks, i) + tasks[i].threads)
  }

  /** The first m tasks, in order, take the first slices of width w after b. */
  ghost predicate Tiles(tasks: seq<Task>, m: nat, b: real, w: real)
    requires m <= |tasks|
  {
    forall i :: 0 <= i < m ==> InPlace(tasks, i, b, w)
  }

  lemma {:induction false} SlicesBeforeSame(s: seq<Task>, t: seq<Task>, i: nat)
    requires |s| == |t| && i <= |s| && forall k :: 0 <= k < i ==> s[k] == t[k]
    ensures SlicesBefore(s, i) == SlicesBefore(t, i)
  {
    if i == 0 {
    } else {
      SlicesBeforeSame(s, t, i - 1);
    }
  }

  /** One more task after a tiled beginning. */
  lemma TilesMore(s: seq<Task>, t: seq<Task>, m: nat, b: real, w: real)
    requires m < |s| == |t| && Tiles(s, m, b, w) && t == s[m := t[m]] && t[m].threads > 0
    requires t[m].begin == Cut(b, w, SlicesBefore(s, m))
    requires t[m].end == Cut(t[m].begin, w, t[m].threads)
    ensures Tiles(t, m + 1, b, w)
    ensures SlicesBefore(t, m + 1) == SlicesBefore(s, m) + t[m].threads
  {
    forall i | 0 <= i <= m ensures SlicesBefore(t, i) == SlicesBefore(s, i) {
      SlicesBeforeSame(s, t, i);
    }
    forall i | 0 <= i < m + 1 ensures InPlace(t, i, b, w) {
      if i < m {
        assert InPlace(s, i, b, w) && s[i] == t[i];
      } else {
        CutOn(b, w, SlicesBefore(s, m), t[m].threads);
      }
    }
  }

  /** i times each, one addition at a time. */
  function Times(i: nat, each: nat): (r: nat)
    ensures r == i * each
  {
    if i == 0 then 0 else Times(i - 1, each) + each
  }

  lemma Share(threads: nat, workers: nat)
    requires 0 < workers <= threads
    ensures threads / workers >= 1 && Times(workers - 1, threads / workers) < threads
  {
    var each := threads / workers;
    assert Times(workers, each) <= threads;
  }

  datatype Status = SUCCESS | E_INVAL | E_MEM | E_THREAD

  /** The work for each of at most machines workers; none when an argument is 0 or memory is
      refused. */
  method DivideWork(machines: nat, threads: nat, begin: real, end: real, memory: bool)
    returns (tasks: array?<Task>, error: Status)
    ensures error == if machines == 0 || threads == 0 then E_INVAL else if !memory then E_MEM else SUCCESS
    ensures tasks == null <==> error != SUCCESS
    ensures tasks != null ==>
      && fresh(tasks) && tasks.Length == (if machines < threads then machines else threads)
      && Tiles(tasks[..], tasks.Length, begin, (end - begin) / threads as real)
      && SlicesBefore(tasks[..], tasks.Length) == threads
      && tasks[tasks.Length - 1].end == end
      && (forall i :: 0 <= i < tasks.Length - 1 ==> tasks[i].threads == threads / tasks.Length)
      && tasks[tasks.Length - 1].threads == threads - (tasks.Length - 1) * (threads / tasks.Length)
  {
    if machines == 0 || threads == 0 {
      return null, E_INVAL;
    }
    if !memory {
      return null, E_MEM;
    }
    error := SUCCESS;
    var width := (end - begin) / threads as real;
    var workers := if machines < threads then machines else threads;
    tasks := new Task[workers](_ => Task(0, 0.0, 0.0));
    var each := threads / workers;
    Share(threads, workers);
    CutEnd(begin, end, threads);
    FillTasks(tasks, threads, each, begin, end, width);
  }

  /** The loop over all workers but the last, and the last one, which takes what is left. */
  method FillTasks(tasks: array<Task>, threads: nat, each: nat, begin: real, end: real, width: real)
    requires 0 < tasks.Length && each >= 1 && Times(tasks.Length - 1, each) < threads
    requires end == Cut(begin, width, threads)
    modifies tasks
    ensures Tiles(tasks[..], tasks.Length, begin, width)
    ensures SlicesBefore(tasks[..], tasks.Length) == threads && tasks[tasks.Length - 1].end == end
    ensures forall i :: 0 <= i < tasks.Length - 1 ==> tasks[i].threads == each
    ensures tasks[tasks.Length - 1].threads == threads - Times(tasks.Length - 1, each)
  {
    var last := tasks.Length - 1;
    var x := begin;
    for i := 0 to last
      invariant Tiles(tasks[..], i, begin, width) && SlicesBefore(tasks[..], i) == Times(i, each)
      invariant x == Cut(begin, width, Times(i, each)) && forall k :: 0 <= k < i ==> tasks[k].threads == each
    {
      ghost var before := tasks[..];
      var first := x;
      x := x + width * each as real;
      tasks[i] := Task(each, first, x);
      CutIs(first, width, each);
      CutOn(begin, width, Times(i, each), each);
      TilesMore(before, tasks[..], i, begin, width);
    }
    ghost var before := tasks[..];
    var rest := threads - last * tasks[0].threads;
    assert rest == threads - Times(last, each);
    tasks[last] := Task(rest, x, end);
    CutOn(begin, width, Times(last, each), rest);
    TilesMore(before, tasks[..], last, begin, width);
    assert tasks[..][last] == tasks[last];
  }

  // ---------- Threads ----------

  datatype Slice = Slice(begin: real, end: real)

  /** The slices of one task; entries behind the last thread repeat the first slice. */
  method FillThreadInfo(infos: array?<Slice>, begin: real, end: real, threads: nat) returns (status: int)
    requires infos != null ==> threads <= infos.Length
    modifies if infos == null then {} else {infos}
    ensures status == (if infos == null || threads == 0 then -1 else 0)
    ensures status == 0 ==> var w := (end - begin) / threads as real;
      && (forall k :: 0 <= k < threads ==> infos[k] == Slice(Cut(begin, w, k), Cut(begin, w, k + 1)))
      && (forall k :: threads <= k < infos.Length ==> infos[k] == Slice(begin, begin + w))
      && infos[threads - 1].end == end
    ensures infos != null && threads == 0 ==> infos[..] == old(infos[..])
  {
    if infos == null || threads == 0 {
      return -1;
    }
    var width := (end - begin) / threads as real;
    var first, next := begin, begin + width;
    var firstBegin, firstEnd := first, next;
    for i := 0 to threads - 1
      invariant first == Cut(begin, width, i) && next == Cut(begin, width, i + 1)
      invariant forall k :: 0 <= k < i ==> infos[k] == Slice(Cut(begin, width, k), Cut(begin, width, k + 1))
    {
      infos[i] := Slice(first, next);
      first := next;
      next := next + width;
    }
    CutEnd(begin, end, threads);
    infos[threads - 1] := Slice(first, end);
    for i := threads to infos.Length
      invariant forall k :: 0 <= k < threads ==> infos[k] == Slice(Cut(begin, width, k), Cut(begin, width, k + 1))
      invariant forall k :: threads <= k < i ==> infos[k] == Slice(begin, begin + width)
    {
      infos[i] := Slice(firstBegin, firstEnd);
    }
    status := 0;
  }

  /** Dividing over machines and then over threads is dividing into equal slices at once:
      slice j of task i is slice number SlicesBefore(i) + j of the whole interval. */
  lemma SlicesAreGlobal(tasks: seq<Task>, b: real, w: real, i: nat, j: nat)
    requires i < |tasks| && Tiles(tasks, |tasks|, b, w)
    ensures tasks[i].threads > 0 && (tasks[i].end - tasks[i].begin) / tasks[i].threads as real == w
    ensures Cut(tasks[i].begin, w, j) == Cut(b, w, SlicesBefore(tasks, i) + j)
  {
    var t := tasks[i];
    assert InPlace(tasks, i, b, w);
    CutOn(b, w, SlicesBefore(tasks, i), t.threads);
    CutOn(b, w, SlicesBefore(tasks, i), j);
    WidthBack(t.begin, w, t.threads);
  }
}
