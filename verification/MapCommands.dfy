/** The calls on a map, what they have to answer, and the laws that the answers obey. */
module MapCommands {
  import opened Tree
  import opened RBMap
  import opened MapForeach

  /** Set is a search and setValue of what was found; Visit is foreach with a callback that
      collects what it is called with and sets the value to what change makes of it. */
  datatype Command =
    | Find(key: int) | Add(item: Pair) | Delete(key: int) | Set(key: int, value: int) | Clear
    | Visit(change: Pair -> int)

  datatype Answer = Found(value: int) | Missing | Told(status: Status) | Saw(visits: seq<Pair>)

  /** The finite map the commands describe, and the allocations asked for so far. */
  datatype Model = Model(contents: map<int, int>, calls: nat)

  ghost function Next(m: Model, c: Command, refused: set<nat>): Model {
    match c
    case Add(item) =>
      if item.key in m.contents then m
      else Model(if m.calls in refused then m.contents else m.contents[item.key := item.value], m.calls + 1)
    case Delete(key) => m.(contents := m.contents - {key})
    case Set(key, value) => if key in m.contents then m.(contents := m.contents[key := value]) else m
    case Clear => m.(contents := map[])
    case Visit(change) => m.(contents := Changed(m.contents, change))
    case _ => m
  }

  ghost function Changed(m: map<int, int>, change: Pair -> int): map<int, int> {
    map k | k in m :: change(Pair(k, m[k]))
  }

  /** What a call has to answer, told by the finite map alone. */
  ghost predicate Fits(m: Model, c: Command, a: Answer, refused: set<nat>) {
    match c
    case Find(key) => a == if key in m.contents then Found(m.contents[key]) else Missing
    case Add(item) => a == Told(if item.key !in m.contents && m.calls in refused then LACK_OF_MEMORY else SUCCESS)
    case Delete(_) => a == Told(if m.contents == map[] then INVALID_ARG else SUCCESS)
    case Set(key, _) => a == Told(if key in m.contents then SUCCESS else INVALID_ARG)
    case Clear => a == Told(SUCCESS)
    case Visit(_) => a.Saw? && VisitsOf(a.visits, m.contents)
  }

  ghost function Replay(start: Model, commands: seq<Command>, refused: set<nat>): Model {
    if commands == [] then start
    else Next(Replay(start, commands[..|commands| - 1], refused), commands[|commands| - 1], refused)
  }

  /** The calls that say something about key k. */
  predicate Touches(c: Command, k: int) {
    (c.Add? && c.item.key == k) || (c.Delete? && c.key == k) || (c.Set? && c.key == k) || c.Clear? || c.Visit?
  }

  /** Calls that do not touch a key leave its binding alone. */
  lemma {:induction false} OthersDoNotMatter(start: Model, commands: seq<Command>, refused: set<nat>, k: int)
    requires forall i :: 0 <= i < |commands| ==> !Touches(commands[i], k)
    ensures var m := Replay(start, commands, refused).contents;
      (k in m <==> k in start.contents) && (k in m ==> m[k] == start.contents[k])
  {
    if commands == [] {
    } else {
      OthersDoNotMatter(start, commands[..|commands| - 1], refused, k);
    }
  }

  /** All answers fit the finite map as it was replayed up to then. */
  ghost predicate AllFit(start: Model, commands: seq<Command>, answers: seq<Answer>, refused: set<nat>) {
    && |answers| <= |commands|
    && forall i :: 0 <= i < |answers| ==> Fits(Replay(start, commands[..i], refused), commands[i], answers[i], refused)
  }

  lemma NoAnswers(start: Model, commands: seq<Command>, refused: set<nat>)
    ensures Replay(start, commands[..0], refused) == start && AllFit(start, commands, [], refused)
  {
  }

  lemma OneMoreCall(start: Model, commands: seq<Command>, i: nat, refused: set<nat>)
    requires i < |commands|
    ensures Replay(start, commands[..i + 1], refused)
      == Next(Replay(start, commands[..i], refused), commands[i], refused)
  {
    assert commands[..i + 1][..i] == commands[..i];
  }

  lemma OneMoreAnswer(start: Model, commands: seq<Command>, answers: seq<Answer>, a: Answer, refused: set<nat>)
    requires AllFit(start, commands, answers, refused) && |answers| < |commands|
    requires Fits(Replay(start, commands[..|answers|], refused), commands[|answers|], a, refused)
    ensures AllFit(start, commands, answers + [a], refused)
  {
  }

  // ---------- What the answers say about each other ----------

  /** None of the calls from number i up to number n says anything about key k. */
  ghost predicate Quiet(commands: seq<Command>, i: nat, n: nat, k: int) {
    forall j :: i <= j < n && j < |commands| ==> !Touches(commands[j], k)
  }

  /** What a search for key k answers. */
  ghost function Lookup(m: map<int, int>, k: int): Answer {
    if k in m then Found(m[k]) else Missing
  }

  lemma {:induction false} LookupKept(start: Model, commands: seq<Command>, i: nat, n: nat, refused: set<nat>, k: int)
    requires i <= n <= |commands| && Quiet(commands, i, n, k)
    ensures Lookup(Replay(start, commands[..n], refused).contents, k)
      == Lookup(Replay(start, commands[..i], refused).contents, k)
  {
    if i == n {
    } else {
      LookupKept(start, commands, i, n - 1, refused, k);
      OneMoreCall(start, commands, n - 1, refused);
    }
  }

  /** A search that was answered before, and then a call. */
  ghost predicate ToldAfter(before: Answer, k: int, c: Command, told: Answer) {
    match c
    case Find(key) => key == k ==> told == before
    case Add(item) =>
      item.key == k ==> told == Told(SUCCESS) || (told == Told(LACK_OF_MEMORY) && before == Missing)
    case Delete(_) => before.Found? ==> told == Told(SUCCESS)
    case Set(key, _) => key == k ==> told == Told(if before.Found? then SUCCESS else INVALID_ARG)
    case Clear => told == Told(SUCCESS)
    case Visit(_) => told.Saw? && forall v :: Pair(k, v) in told.visits <==> before == Found(v)
  }

  /** A call, and then what a search for key k answers. */
  ghost predicate FoundAfter(c: Command, told: Answer, k: int, after: Answer) {
    match c
    case Find(key) => key == k ==> after == told
    case Add(item) => item.key == k ==> (if told == Told(SUCCESS) then after.Found? else after == Missing)
    case Delete(key) => key == k ==> after == Missing
    case Set(key, value) => key == k ==> after == if told == Told(SUCCESS) then Found(value) else Missing
    case Clear => after == Missing
    case Visit(change) =>
      && told.Saw? && (forall v :: Pair(k, v) in told.visits ==> after == Found(change(Pair(k, v))))
      && (after.Found? ==> exists v :: Pair(k, v) in told.visits)
  }

  /** A pair is added only for a key that is absent; a present one keeps its value. */
  ghost predicate AddedBetween(before: Answer, item: Pair, told: Answer, after: Answer) {
    after == if before == Missing && told == Told(SUCCESS) then Found(item.value) else before
  }

  /** Calls m and i, with nothing about the key searched for at m in between. */
  ghost predicate FirstFind(commands: seq<Command>, m: nat, i: nat) {
    m < i < |commands| && commands[m].Find? && Quiet(commands, m, i, commands[m].key)
  }

  ghost predicate ThenFind(commands: seq<Command>, i: nat, n: nat) {
    i < n < |commands| && commands[n].Find? && Quiet(commands, i + 1, n, commands[n].key)
  }

  /** The same search before and after a key is added. */
  ghost predicate AddInside(commands: seq<Command>, m: nat, i: nat, n: nat) {
    && FirstFind(commands, m, i) && ThenFind(commands, i, n)
    && commands[n].key == commands[m].key && commands[i].Add? && commands[i].item.key == commands[m].key
  }

  /** The laws of a map, told by the calls and their answers alone. */
  ghost predicate Lawful(commands: seq<Command>, answers: seq<Answer>) {
    && |answers| <= |commands|
    && (forall m: nat, i: nat :: FirstFind(commands, m, i) && i < |answers| ==>
          ToldAfter(answers[m], commands[m].key, commands[i], answers[i]))
    && (forall i: nat, n: nat :: ThenFind(commands, i, n) && n < |answers| ==>
          FoundAfter(commands[i], answers[i], commands[n].key, answers[n]))
    && (forall m: nat, i: nat, n: nat :: AddInside(commands, m, i, n) && n < |answers| ==>
          AddedBetween(answers[m], commands[i].item, answers[i], answers[n]))
  }

  /** A search before anything is said about its key. */
  ghost predicate EarlyFind(commands: seq<Command>, n: nat) {
    n < |commands| && commands[n].Find? && Quiet(commands, 0, n, commands[n].key)
  }

  /** Searches before anything was said about their keys find what was there at first. */
  ghost predicate Starts(first: map<int, int>, commands: seq<Command>, answers: seq<Answer>) {
    forall n: nat :: EarlyFind(commands, n) && n < |answers| ==> answers[n] == Lookup(first, commands[n].key)
  }

  /** A map made from data starts with the first value of every key. */
  ghost predicate StartsWith(data: seq<Pair>, commands: seq<Command>, answers: seq<Answer>) {
    && (forall n: nat, d: nat :: EarlyFind(commands, n) && n < |answers| && IsFirstOf(data, d, commands[n].key) ==>
          answers[n] == Found(data[d].value))
    && (forall n: nat :: EarlyFind(commands, n) && n < |answers| && NoneOf(data, commands[n].key) ==>
          answers[n] == Missing)
  }

  ghost predicate IsFirstOf(data: seq<Pair>, d: nat, k: int) {
    d < |data| && IsFirst(data, d, k)
  }

  ghost predicate NoneOf(data: seq<Pair>, k: int) {
    forall d :: 0 <= d < |data| ==> data[d].key != k
  }

  lemma FirstValuesStart(data: seq<Pair>, commands: seq<Command>, answers: seq<Answer>)
    requires Starts(FirstBindings(data), commands, answers)
    ensures StartsWith(data, commands, answers)
  {
    forall k ensures k in FirstBindings(data) <==> exists i :: 0 <= i < |data| && data[i].key == k {
      FirstBindingsAreFirst(data, k);
    }
    forall k, d: nat | IsFirstOf(data, d, k) ensures Lookup(FirstBindings(data), k) == Found(data[d].value) {
      FirstBindingsAreFirst(data, k);
    }
  }

  lemma AnswersFindLookup(start: Model, commands: seq<Command>, answers: seq<Answer>, n: nat, refused: set<nat>)
    requires AllFit(start, commands, answers, refused) && n < |answers| && commands[n].Find?
    ensures answers[n] == Lookup(Replay(start, commands[..n], refused).contents, commands[n].key)
  {
    assert Fits(Replay(start, commands[..n], refused), commands[n], answers[n], refused);
  }

  lemma FirstLaw(start: Model, commands: seq<Command>, answers: seq<Answer>, m: nat, i: nat, refused: set<nat>)
    requires AllFit(start, commands, answers, refused) && FirstFind(commands, m, i) && i < |answers|
    ensures ToldAfter(answers[m], commands[m].key, commands[i], answers[i])
    ensures answers[m] == Lookup(Replay(start, commands[..i], refused).contents, commands[m].key)
  {
    hide Replay, Next, Fits, Lookup, ToldAfter, FoundAfter;
    AnswersFindLookup(start, commands, answers, m, refused);
    LookupKept(start, commands, m, i, refused, commands[m].key);
    OneCall(Replay(start, commands[..i], refused), commands[i], answers[i], commands[m].key, refused);
  }

  /** The laws for one call. */
  lemma OneCall(m: Model, c: Command, told: Answer, k: int, refused: set<nat>)
    requires Fits(m, c, told, refused)
    ensures ToldAfter(Lookup(m.contents, k), k, c, told)
    ensures FoundAfter(c, told, k, Lookup(Next(m, c, refused).contents, k))
  {
  }

  lemma SecondLaw(start: Model, commands: seq<Command>, answers: seq<Answer>, i: nat, n: nat, refused: set<nat>)
    requires AllFit(start, commands, answers, refused) && ThenFind(commands, i, n) && n < |answers|
    ensures FoundAfter(commands[i], answers[i], commands[n].key, answers[n])
    ensures answers[n]
      == Lookup(Next(Replay(start, commands[..i], refused), commands[i], refused).contents, commands[n].key)
  {
    hide Replay, Next, Fits, Lookup, ToldAfter, FoundAfter;
    AnswersFindLookup(start, commands, answers, n, refused);
    LookupKept(start, commands, i + 1, n, refused, commands[n].key);
    OneMoreCall(start, commands, i, refused);
    OneCall(Replay(start, commands[..i], refused), commands[i], answers[i], commands[n].key, refused);
  }

  /** Answers that fit a finite map obey the laws. */
  lemma FitsAreLawful(start: Model, commands: seq<Command>, answers: seq<Answer>, refused: set<nat>)
    requires AllFit(start, commands, answers, refused)
    ensures Lawful(commands, answers) && Starts(start.contents, commands, answers)
  {
    hide Quiet, ToldAfter, FoundAfter, AllFit;
    assert |answers| <= |commands| by { AnswersFewer(start, commands, answers, refused); }
    forall m: nat, i: nat | FirstFind(commands, m, i) && i < |answers|
      ensures ToldAfter(answers[m], commands[m].key, commands[i], answers[i])
    {
      FirstLaw(start, commands, answers, m, i, refused);
    }
    forall i: nat, n: nat | ThenFind(commands, i, n) && n < |answers|
      ensures FoundAfter(commands[i], answers[i], commands[n].key, answers[n])
    {
      SecondLaw(start, commands, answers, i, n, refused);
    }
    forall m: nat, i: nat, n: nat | AddInside(commands, m, i, n) && n < |answers|
      ensures AddedBetween(answers[m], commands[i].item, answers[i], answers[n])
    {
      ThirdLaw(start, commands, answers, m, i, n, refused);
    }
    forall n: nat | EarlyFind(commands, n) && n < |answers|
      ensures answers[n] == Lookup(start.contents, commands[n].key)
    {
      AnswersFindLookup(start, commands, answers, n, refused);
      LookupKept(start, commands, 0, n, refused, commands[n].key);
      NoAnswers(start, commands, refused);
    }
  }

  lemma AnswersFewer(start: Model, commands: seq<Command>, answers: seq<Answer>, refused: set<nat>)
    requires AllFit(start, commands, answers, refused)
    ensures |answers| <= |commands|
  {
  }

  lemma ThirdLaw(start: Model, commands: seq<Command>, answers: seq<Answer>, m: nat, i: nat, n: nat, refused: set<nat>)
    requires AllFit(start, commands, answers, refused) && AddInside(commands, m, i, n) && n < |answers|
    ensures AddedBetween(answers[m], commands[i].item, answers[i], answers[n])
  {
    FirstLaw(start, commands, answers, m, i, refused);
    SecondLaw(start, commands, answers, i, n, refused);
    assert Fits(Replay(start, commands[..i], refused), commands[i], answers[i], refused);
    hide Replay;
  }

  /** Memory is lacking only when some call for it is refused. */
  lemma LackNeedsRefusal(start: Model, commands: seq<Command>, answers: seq<Answer>, refused: set<nat>, i: nat)
    requires AllFit(start, commands, answers, refused) && i < |answers| && answers[i] == Told(LACK_OF_MEMORY)
    ensures commands[i].Add? && refused != {}
  {
    assert Fits(Replay(start, commands[..i], refused), commands[i], answers[i], refused);
  }

  /** A map that was just cleared is empty: a deletion says so until something is added. */
  lemma EmptyAfterClear(start: Model, commands: seq<Command>, answers: seq<Answer>, refused: set<nat>, i: nat, n: nat)
    requires AllFit(start, commands, answers, refused) && i < n < |answers| && commands[i].Clear? && commands[n].Delete?
    requires forall j :: i < j < n ==> !commands[j].Add?
    ensures answers[n] == Told(INVALID_ARG)
  {
    StaysEmpty(start, commands, refused, i, n);
    assert Fits(Replay(start, commands[..n], refused), commands[n], answers[n], refused);
  }

  lemma {:induction false} StaysEmpty(start: Model, commands: seq<Command>, refused: set<nat>, i: nat, n: nat)
    requires i < n <= |commands| && commands[i].Clear? && forall j :: i < j < n ==> !commands[j].Add?
    ensures Replay(start, commands[..n], refused).contents == map[]
  {
    OneMoreCall(start, commands, n - 1, refused);
    if n == i + 1 {
    } else {
      StaysEmpty(start, commands, refused, i, n - 1);
    }
  }
}
