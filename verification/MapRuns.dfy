/** Any sequence of calls on one map, with any allocations refused. */
module MapRuns {
  import opened Tree
  import opened RedBlack
  import opened Rotation
  import opened Linking
  import opened RBMap
  import opened MapForeach
  import opened MapCommands

  // ---------- The calls on the tree ----------

  method PerformFind(m: Map, key: int) returns (answer: Answer)
    requires m.Valid()
    ensures answer == if key in m.Contents() then Found(m.Contents()[key]) else Missing
  {
    var node, _, _, _, _ := FindItem(m, key, SUCCESS);
    answer := if node == null then Missing else Found(node.value);
  }

  method PerformSet(m: Map, key: int, value: int) returns (answer: Answer)
    requires m.Valid()
    modifies m, Nodes(m.tree)
    ensures m.Valid() && Nodes(m.tree) == old(Nodes(m.tree))
    ensures answer == Told(if key in old(m.Contents()) then SUCCESS else INVALID_ARG)
    ensures m.Contents() == if key in old(m.Contents()) then old(m.Contents())[key := value] else old(m.Contents())
  {
    var node, _, _, _, _ := FindItem(m, key, SUCCESS);
    var status := SetValue(node, value, m);
    answer := Told(status);
  }

  /** The callback: it collects the pairs and sets every value to what change makes of it. */
  function Collects(change: Pair -> int): (Pair, seq<Pair>) -> (int, seq<Pair>) {
    (x: Pair, seen: seq<Pair>) => (change(x), seen + [x])
  }

  lemma {:induction false} Collected(visits: seq<Pair>, data: seq<Pair>, change: Pair -> int)
    ensures Data(visits, Collects(change), data) == data + visits
  {
    if visits == [] {
    } else {
      Collected(visits[..|visits| - 1], data, change);
      assert visits == visits[..|visits| - 1] + [visits[|visits| - 1]];
    }
  }

  lemma CollectsSets(visits: seq<Pair>, i: nat, data: seq<Pair>, change: Pair -> int)
    requires i < |visits|
    ensures NewValue(visits, i, Collects(change), data) == change(visits[i])
  {
  }

  lemma AllChanged(contents: map<int, int>, now: map<int, int>, visits: seq<Pair>, data: seq<Pair>, change: Pair -> int)
    requires VisitsOf(visits, contents) && LeftBy(now, visits, Collects(change), data)
    ensures now == Changed(contents, change)
  {
    hide NewValue, Collects;
    forall k | k in contents ensures k in now && now[k] == change(Pair(k, contents[k])) {
      assert Pair(k, contents[k]) in visits;
      var i: nat :| i < |visits| && visits[i] == Pair(k, contents[k]);
      CollectsSets(visits, i, data, change);
    }
    forall k | k in now ensures k in contents {
      var i :| 0 <= i < |visits| && visits[i].key == k;
      assert Pair(k, visits[i].value) in visits;
    }
  }

  method PerformVisit(m: Map, change: Pair -> int) returns (answer: Answer)
    requires m.Valid()
    modifies m, Nodes(m.tree)
    ensures m.Valid() && Nodes(m.tree) == old(Nodes(m.tree)) && m.Contents() == Changed(old(m.Contents()), change)
    ensures answer.Saw? && VisitsOf(answer.visits, old(m.Contents()))
  {
    hide VisitsOf, LeftBy, Data, Changed, Collects, Bindings, Holds;
    var foo := Collects(change);
    var status, seen;
    ghost var visits;
    status, seen, visits := Foreach(m, true, foo, []);
    Collected(visits, [], change);
    assert [] + visits == visits;
    AllChanged(old(m.Contents()), m.Contents(), visits, [], change);
    answer := Saw(seen);
  }

  /** What one call on the tree does and answers is what it does to the finite map, and what
      that says. */
  method Perform(m: Map, c: Command, memory: Allocator, ghost others: set<object>) returns (answer: Answer)
    requires m.Valid() && AllLive(memory.live, others, Nodes(m.tree))
    modifies m, Nodes(m.tree), memory
    ensures m.Valid() && AllLive(memory.live, others, Nodes(m.tree)) && fresh(Nodes(m.tree) - old(Nodes(m.tree)))
    ensures Model(m.Contents(), memory.calls) == Next(old(Model(m.Contents(), memory.calls)), c, memory.refused)
    ensures Fits(old(Model(m.Contents(), memory.calls)), c, answer, memory.refused)
  {
    match c {
      case Find(key) => answer := PerformFind(m, key);
      case Add(item) => answer := PerformAdd(m, item, memory, others);
      case Delete(key) => answer := PerformDelete(m, key, memory, others);
      case Set(key, value) => answer := PerformSet(m, key, value);
      case Clear =>
        var status := ClearMap(m, memory);
        answer := Told(status);
      case Visit(change) => answer := PerformVisit(m, change);
    }
  }

  method PerformAdd(m: Map, item: Pair, memory: Allocator, ghost others: set<object>) returns (answer: Answer)
    requires m.Valid() && AllLive(memory.live, others, Nodes(m.tree))
    modifies m, Nodes(m.tree), memory
    ensures m.Valid() && AllLive(memory.live, others, Nodes(m.tree)) && fresh(Nodes(m.tree) - old(Nodes(m.tree)))
    ensures Model(m.Contents(), memory.calls) == Next(old(Model(m.Contents(), memory.calls)), Add(item), memory.refused)
    ensures Fits(old(Model(m.Contents(), memory.calls)), Add(item), answer, memory.refused)
  {
    ghost var counter := new Counter();
    var status := AddItem(m, item, memory, counter);
    KeptGrow(others, old(memory.live), old(Nodes(m.tree)), memory.live, Nodes(m.tree));
    answer := Told(status);
  }

  method PerformDelete(m: Map, key: int, memory: Allocator, ghost others: set<object>) returns (answer: Answer)
    requires m.Valid() && AllLive(memory.live, others, Nodes(m.tree))
    modifies m, Nodes(m.tree), memory`live
    ensures m.Valid() && AllLive(memory.live, others, Nodes(m.tree)) && Nodes(m.tree) <= old(Nodes(m.tree))
    ensures m.Contents() == old(m.Contents()) - {key}
    ensures answer == Told(if old(m.Contents()) == map[] then INVALID_ARG else SUCCESS)
  {
    ghost var counter := new Counter();
    var status := DeleteItem(m, key, memory, counter);
    KeptGrow(others, old(memory.live), old(Nodes(m.tree)), memory.live, Nodes(m.tree));
    answer := Told(status);
  }

  /** After any sequence of calls the tree is a red-black search tree that holds just what
      the finite map holds, of logarithmic height, exactly its nodes are allocated, and every
      answer was what the finite map says. */
  method PerformAll(m: Map, commands: seq<Command>, memory: Allocator, ghost others: set<object>)
    returns (answers: seq<Answer>)
    requires m.Valid() && AllLive(memory.live, others, Nodes(m.tree))
    modifies m, Nodes(m.tree), memory
    ensures m.Valid() && AllLive(memory.live, others, Nodes(m.tree))
    ensures Model(m.Contents(), memory.calls)
      == Replay(old(Model(m.Contents(), memory.calls)), commands, memory.refused)
    ensures |answers| == |commands| && AllFit(old(Model(m.Contents(), memory.calls)), commands, answers, memory.refused)
    ensures Lawful(commands, answers) && Starts(old(m.Contents()), commands, answers)
    ensures Logarithmic(Height(m.tree), |m.Contents()|)
  {
    ghost var start := Model(m.Contents(), memory.calls);
    answers := [];
    NoAnswers(start, commands, memory.refused);
    hide Fits, Next, AllFit, Replay, Bindings, Lawful, Starts;
    for i := 0 to |commands|
      invariant m.Valid() && AllLive(memory.live, others, Nodes(m.tree))
      invariant fresh(Nodes(m.tree) - old(Nodes(m.tree)))
      invariant Model(m.Contents(), memory.calls) == Replay(start, commands[..i], memory.refused)
      invariant |answers| == i && AllFit(start, commands, answers, memory.refused)
    {
      var answer := Perform(m, commands[i], memory, others);
      OneMoreCall(start, commands, i, memory.refused);
      OneMoreAnswer(start, commands, answers, answer, memory.refused);
      answers := answers + [answer];
    }
    assert commands[..|commands|] == commands;
    FitsAreLawful(start, commands, answers, memory.refused);
    HeightBound(m.tree, Height(m.tree));
    BindingsSize(Inorder(m.tree));
  }

  /** The calls on a map that exists, and deleteMap. */
  method Serve(m: Map, commands: seq<Command>, memory: Allocator, ghost others: set<object>, ghost start: Model)
    returns (answers: seq<Answer>)
    requires m.Valid() && AllLive(memory.live, others, Nodes(m.tree)) && m in others
    requires start.contents == m.Contents() && start.calls == memory.calls
    modifies m, Nodes(m.tree), memory
    ensures memory.live == others - {m}
    ensures |answers| == |commands| && AllFit(start, commands, answers, memory.refused)
    ensures Lawful(commands, answers) && Starts(start.contents, commands, answers)
  {
    answers := PerformAll(m, commands, memory, others);
    var _ := DeleteMap(m, memory);
  }

  lemma OneTaken(first: set<object>, m: object)
    requires m !in first
    ensures first + {m} - {m} == first
  {
  }

  /** From createMap to deleteMap: the map starts with the first value of every key, answers
      as the finite map does and by the laws of a map, and nothing stays allocated, whether or
      not it was created. */
  method Lifetime(data: seq<Pair>, commands: seq<Command>, memory: Allocator)
    returns (created: bool, answers: seq<Answer>)
    modifies memory
    ensures memory.live == old(memory.live)
    ensures created <==> Grants(memory.refused, old(memory.calls), 1 + DistinctKeys(data))
    ensures |answers| == if created then |commands| else 0
    ensures AllFit(Model(FirstBindings(data), old(memory.calls) + 1 + DistinctKeys(data)), commands, answers,
      memory.refused)
    ensures Lawful(commands, answers) && StartsWith(data, commands, answers)
  {
    ghost var start := Model(FirstBindings(data), memory.calls + 1 + DistinctKeys(data));
    NoAnswers(start, commands, memory.refused);
    FitsAreLawful(start, commands, [], memory.refused);
    FirstValuesStart(data, commands, []);
    hide *;
    var m := CreateMap(data, memory);
    if m == null {
      return false, [];
    }
    OneTaken(old(memory.live), m);
    answers := Serve(m, commands, memory, old(memory.live) + {m}, start);
    FirstValuesStart(data, commands, answers);
    created := true;
  }
}
