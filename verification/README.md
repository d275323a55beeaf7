# Five verified models

This project models five programs of the repository and proves what they are for. `dafny
verify dfyconfig.toml` checks all of it.

**The red-black map** (`Projects/Container`; `Tree`, `RedBlack`, `Rotation`, `Insertion`,
`Deletion`, `Linking`, `RBMap`, `MapForeach`, `MapCommands`, `MapRuns`). Nodes are objects
with `parent`, `left`, `right`, `color`, `key` and `value`, assigned in place by one method
per C function. What a linked structure looks like is described by a ghost subtree and the
ghost path around it (a zipper whose parts name their nodes); `Holds` says that the heap is
exactly that, parent links included. Every method keeps `Holds` and one `World`: the set of
nodes and the listing in key order. So the red-black rules are proved on plain trees and
paths, and the methods only show which tree they make of which. The insertion's repair has a
possible red-red edge at one place, the deletion's a missing black node at one place (the
leaf is still linked, and its key is in the tree twice); both are stated as a path that fits
a subtree of another height. Allocation is an `Allocator` that refuses the calls it is told
to refuse and knows what is live, and a ghost `Counter` counts the rotations. `MapRuns` puts
the calls together: from `createMap` to `deleteMap`, any sequence of them, with any
refusals, answers as a finite map does and by laws that speak of calls and answers alone
(`MapCommands.Lawful`), in a tree of height at most 2 log2(n+1), and leaves nothing
allocated.

**The file transfer** (`Projects/TransFileSemShm`; `Semaphores`, `Transfer`,
`TransferInvariant`, `TransferSteps`, `TransferTheorems`, `TransferSession`,
`TransferCondition`, `TransferLosses`, `TransferProcesses`, `TransferExamples`,
`TransferRecovery`). Any number of readers and writers, each a program counter, its undo
adjustments and its data, share six semaphores and one buffer. A `semop` array is tried
operation by operation and takes effect as a whole; the first operation that cannot proceed
decides between waiting and failing. `SETVAL` clears the adjustments of every process, and
an exit or a crash at any station applies them. A byte carries the number of the process
whose file it comes from; no step looks at it. The invariant says which adjustments fit
which station, that the tokens of a pair add up to one, and where the bytes between a
writer's cursor and its reader's output are. `TransferProcesses` holds the programs
themselves, one method for every stretch between two points where others may come in, and
shows that they go through the state machine's runs. Two promises are false of the code, and
the exact conditions are proved instead:

* A file does not always arrive, even without a crash. When the writer is out of its loop
  and neither of the two has crashed, a file with a byte in it has arrived if and only if at
  some moment both were in their loops with FINISH at 0 (`Running`) and no write was short;
  without such a moment not a byte of it has arrived (`ArrivedExactly`, `FinishedExactly`).
  From such a moment on the session is concluded (`Concluded`: all was passed on, and is
  printed unless a write was short) after a bounded number of moves (`SessionConcludes`,
  `SessionIsBounded`). Two runs miss that moment: a process that looks at PAIR before its
  partner has raised it gives up (`MayDeliverNothing`), and the writer of an earlier session
  that has not exited yet holds FINISH up, so that the reader leaves at once
  (`StaleFinishLoses`). Once everybody is gone, however they went, any file can arrive again
  (`MayDeliver`).
* A reader ignores how much `write` wrote. At the end of the file its output is the file
  exactly if every write was whole (`EndOfFileIsPrinted`, `ShortWriteLoses`). A short write
  changes nothing but the output, from which it drops the tail of the block it was given, and
  a crash loses at most one block more (`RunsAlike`, `ShortWritesDropTails`, `LossIsBounded`).

**The proxy** (`Projects/Proxy`; `ProxyBytes`, `RingBuffer`, `Pipeline`, `PipelineTheorems`,
`ProxyLoop`, `ProxyRuns`). The ring buffer is a class over an array and is proved to be a
FIFO queue for whatever number of bytes the system moves. The chain of n children and n
channels is a transition system over 3n+1 queues, in which a splice, an exit or a visit of a
channel is one event. `ProxyLoop.Visit` is the body of the parent's loop on real buffers and
pipes, and is proved to be one possible event; `ProxyRuns` puts children, channels and
rounds together on such objects and shows that they do exactly what splices, exits and
`select` ask for. Conservation, order of the ends, absence of deadlock and termination hold
for every n, pipe size and file.

**The signal link** (`Projects/Signals`; `SignalLink`, `SignalProtocol`, `SignalProcesses`).
Pending signals are sets, as in section 2.4 of POSIX.1-2017 System Interfaces: a second one
of the same kind is lost. A waking process may handle what is pending in any order.
`SignalProcesses` holds the handlers and the two loop bodies on the programs' variables, and
runs the two together.

**The quadrature** (`Projects/NetworkIntegration`; `Slices`, `Quadrature`), in exact reals
with any step h > 0. From its second turn on the loop at `calc.c:27-32` takes the sample at
the strip's left end as its right one, so for n >= 2 turns it adds up the trapezoid rule on
n - 1 strips and `h f(b+h)`; that is what is modelled.

## Model

| member | source | states |
|---|---|---|
| Rotation.LeftRotation | Projects/Container/src/helper.c:208-226 | which fields of which nodes the rotation assigns, told by the pointers alone; every other field of every node stays, and one rotation is counted |
| Rotation.RightRotation | Projects/Container/src/helper.c:228-247 | which fields of which nodes the right rotation assigns; every other field stays, and one rotation is counted |
| Rotation.LeftRotationAt | Projects/Container/src/helper.c:208-226 | anywhere in a linked tree it turns exactly the subtree below the node: all links (parent links too), colours, the set of nodes and the listing in key order fit again |
| Rotation.RightRotationAt | Projects/Container/src/helper.c:228-247 | anywhere in a linked tree a right rotation turns exactly the subtree below the node; the rest of the tree, links included, is as before |
| Rotation.RotationKeeps | Projects/Container/src/helper.c:208-247 | the two rotations undo each other and keep the nodes and the listing |
| Insertion.InsertCase1 | Projects/Container/src/helper.c:273-279 | with at most one red-red edge, above the node, the repair leads to a red-black tree with the same nodes and the same listing, with at most 2 rotations; the measure is the depth |
| Insertion.InsertCase2 | Projects/Container/src/helper.c:281-287 | repairs a red node below some parent: a red-black tree with the same nodes and listing and at most 2 rotations |
| Insertion.InsertCase3 | Projects/Container/src/helper.c:289-305 | repairs a red node below a red parent, with at most 2 rotations; under a red uncle the breach moves up two levels, which is why it ends |
| Insertion.InsertCase4 | Projects/Container/src/helper.c:307-322 | repairs a red node below a red parent without a red uncle, with at most 2 rotations, an inner node being turned outwards first |
| Insertion.InsertCase5 | Projects/Container/src/helper.c:325-337 | repairs a red node on the outer side of a red parent without a red uncle, with exactly one rotation; the whole tree is red-black afterwards |
| Insertion.GrandparentIsBlack | Projects/Container/src/helper.c:289-337 | below a red parent the grandparent that is dereferenced exists and is black |
| Insertion.UncleIsSibling | Projects/Container/src/helper.c:159-172 | findUncle finds the other child of the grandparent, and the tests on left and right children tell the shape |
| Insertion.RedMovesUp | Projects/Container/src/helper.c:293-301 | after the repainting the only possible red-red edge is above the grandparent, two levels nearer to the root |
| Insertion.TurnRepairs | Projects/Container/src/helper.c:325-337 | repainting and turning the grandparent restores the rules for the whole path |
| Deletion.BrotherExists | Projects/Container/src/helper.c:174-183 | next to a black node that is to be missed the brother exists; its colour and the colours of its children are those the code looks at |
| Deletion.DeleteCase1 | Projects/Container/src/helper.c:421-425 | with the leaf still linked the repair changes only the path around it: afterwards the path fits the tree without that black node, at the same place of the listing; at most 3 rotations |
| Deletion.DeleteCase2 | Projects/Container/src/helper.c:427-442 | settles the missing black node below a parent with at most 3 rotations; a red brother is turned away first, after which the parent is red and the climb ends |
| Deletion.DeleteCase3 | Projects/Container/src/helper.c:444-457 | settles it next to a black brother, with at most 2 rotations under a red parent and 3 else; it goes up only from a black parent, so never after a rotation in case 2 |
| Deletion.DeleteCase4 | Projects/Container/src/helper.c:459-472 | settles it when the brother has a red child or the parent is red, with at most 2 rotations |
| Deletion.DeleteCase5 | Projects/Container/src/helper.c:474-499 | settles it when the brother has a red child, with at most 2 rotations |
| Deletion.DeleteCase6 | Projects/Container/src/helper.c:501-515 | settles it when the far nephew, which is dereferenced without a test, is red, with exactly one rotation |
| Deletion.TurnRedBrother | Projects/Container/src/helper.c:431-439 | after turning a red brother away the node has a black brother and a red parent, and is as short as before |
| Deletion.RedBrotherIsLower | Projects/Container/src/helper.c:448-470 | painting the brother red lowers its side: under a black parent the parent is now short, under a red one painting the parent settles it |
| Deletion.TurnedBrotherFits | Projects/Container/src/helper.c:478-496 | turning the brother makes the far nephew red and changes nothing for the rest |
| Deletion.FarNephewFits | Projects/Container/src/helper.c:501-515 | the last rotation settles the debt for good |
| Linking.FindTop | Projects/Container/src/helper.c:127-138 | from any node of the tree the walk over parent links ends at the root |
| Linking.FindParent | Projects/Container/src/helper.c:141-157 | the walk ends at a node with a free child on the side where the key belongs |
| Linking.FindMin | Projects/Container/src/helper.c:193-199 | the leftmost node of the subtree |
| Linking.FindMax | Projects/Container/src/helper.c:185-191 | the rightmost node of the subtree |
| Linking.Allocator.CreateNode | Projects/Container/src/helper.c:83-98 | a new red node with the given key, value, parent and children, or null with nothing allocated when the call is refused |
| Linking.Insert | Projects/Container/src/helper.c:256-271 | linking a red leaf and repairing gives a red-black tree with one node and one listed pair more, with at most 2 rotations |
| Linking.ReplaceWithChild | Projects/Container/src/helper.c:408-418 | the child takes the place of the node in the links |
| Linking.OnlyRedLeaf | Projects/Container/src/helper.c:372-405 | a node without left child that has a right one is black and its child is a red leaf; this is why looking at node->right alone is enough |
| Linking.LeftIsRedLeaf | Projects/Container/src/helper.c:354-366 | a node without right child has at most a red leaf on its left, so the predecessor it finds is that leaf |
| Linking.DeleteTheOnlyChild | Projects/Container/src/helper.c:372-405 | a node with at most a right child is taken out: the rest is a red-black tree, and just this node is freed |
| Linking.DeleteLeaf | Projects/Container/src/helper.c:378-395 | takes a leaf out of the tree after the repair, from wherever the repair has moved it; the rest is a red-black tree with the same listing less its pair |
| Linking.ReplaceBlackNode | Projects/Container/src/helper.c:397-404 | a red leaf, painted black, takes the place of its black parent; the rest is a red-black tree with the same listing less its pair |
| Linking.SuccessorIsVictim | Projects/Container/src/helper.c:354-366 | with the successor copied up, the tree holds a key twice; taking out the copied-from node takes out exactly the old pair |
| Linking.PredecessorIsVictim | Projects/Container/src/helper.c:354-366 | with the predecessor copied up, which is a red leaf, taking that leaf out takes out exactly the old pair |
| Linking.ChooseVictim | Projects/Container/src/helper.c:354-364 | which node is unlinked, and that it is one deleteTheOnlyChild can deal with |
| Linking.DeleteNode | Projects/Container/src/helper.c:349-369 | deleting any node of any red-black tree leaves a red-black tree with the same listing less that node's pair, one node less, exactly that one freed, at most 3 rotations; the result is the new root |
| RedBlack.BalancedPlug | Projects/Container/src/helper.c:273-515 | a subtree and the path around it form a red-black tree exactly when they fit each other |
| RedBlack.BlackHeightBounds | Projects/Container/src/helper.c:256-515 | height at most twice the black height (one more under a red root), and at least 2^h - 1 nodes |
| RedBlack.HeightLogarithmic | Projects/Container/src/helper.c:256-515 | 2^height <= (n+1)^2, that is height <= 2 log2(n+1) |
| RBMap.FindFrom | Projects/Container/src/RBTree.c:65-76 | the loop finds the node with the key exactly if the key is bound, and makes no more turns, the last one counted, than the tree is high |
| RBMap.FindItem | Projects/Container/src/RBTree.c:50-77 | the public search: found exactly if bound, with the bound value, within 2 log2(n+1) turns, the one that finds it counted; without a map INVALID_ARG is stored, and else the error stays as it was |
| RBMap.AddItem | Projects/Container/src/RBTree.c:88-112 | a present key changes nothing, not even the value; an absent one is added or, when memory is refused, nothing changes; the tree stays red-black and sorted, allocated nodes change as the tree's nodes do |
| RBMap.LinkNew | Projects/Container/src/RBTree.c:105-109 | a linked node adds exactly its pair to the finite map |
| RBMap.NewBinding | Projects/Container/src/RBTree.c:105-107 | where the search for an absent key ends, the pair fits into the sorted listing |
| RBMap.DeleteItem | Projects/Container/src/RBTree.c:128-144 | the finite map without the key, red-black again; INVALID_ARG exactly without a map or for an empty one; nothing leaks and nothing reachable is freed |
| RBMap.RemovedBinding | Projects/Container/src/RBTree.c:138-141 | the listing without the victim lists the map without the key |
| RBMap.DeleteTree | Projects/Container/src/helper.c:518-529 | frees exactly the nodes of the subtree, each once |
| RBMap.ClearMap | Projects/Container/src/RBTree.c:146-154 | an empty map, all its nodes freed and nothing else |
| RBMap.DeleteMap | Projects/Container/src/RBTree.c:156-164 | all its nodes and the map itself freed and nothing else |
| RBMap.SetValue | Projects/Container/src/RBTree.c:222-229 | the key of a node that was found gets the value and nothing else in the map changes; INVALID_ARG without a node |
| MapForeach.ForeachFrom | Projects/Container/src/helper.c:536-544 | the callback runs over the subtree in postorder and may set the value of the node it is at; links and colours stay |
| MapForeach.Foreach | Projects/Container/src/RBTree.c:170-177 | the callback gets every binding exactly once and nothing else, and afterwards every key has just the value its visit left; INVALID_ARG without a map or without a callback |
| MapForeach.PostorderVisitsAll | Projects/Container/src/helper.c:536-544 | the postorder is a permutation of the listing |
| MapForeach.RewrittenValue | Projects/Container/src/helper.c:536-544 | what a visit leaves at its node is what the tree has there when all visits are over |
| MapForeach.ChildrenFirst | Projects/Container/src/helper.c:536-544 | at every node the visits are first those of the left subtree, then those of the right one, then its own |
| MapForeach.OneVisitMore | Projects/Container/src/helper.c:536-544 | every visit gets the data the ones before it have left, and sets just its own value |
| RBMap.AddAll | Projects/Container/src/RBTree.c:29-35 | the loop succeeds exactly if one allocation is granted for every different key |
| RBMap.CreateMap | Projects/Container/src/RBTree.c:19-38 | null exactly if one of the needed allocations is refused, and then nothing stays allocated; else the first value of every key |
| RBMap.FirstBindingsAreFirst | Projects/Container/src/RBTree.c:29-35 | the created map binds just the keys of the data, each to the value of its first pair |
| RBMap.DistinctKeysSize | Projects/Container/src/RBTree.c:29-35 | the number of allocations is the number of different keys |
| MapRuns.Perform | Projects/Container/src/RBTree.c:50-229 | each call does to the finite map what it should and answers what the finite map says: the value found, the status, the bindings visited; a foreach sets every value to what its callback makes of the pair |
| MapRuns.PerformAll | Projects/Container/src/RBTree.c:50-229 | any sequence of calls with any refused allocations: a red-black search tree with just the replayed bindings, of height at most 2 log2(n+1), allocated are exactly its nodes; every answer fits the finite map as replayed up to it, and all answers obey the laws of a map |
| MapRuns.Lifetime | Projects/Container/src/RBTree.c:19-229 | from createMap over any calls to deleteMap: created exactly if the needed allocations are granted, answers by the laws of a map that starts with the first value of every key in the data, and nothing stays allocated |
| MapCommands.OthersDoNotMatter | Projects/Container/src/RBTree.c:50-154 | only calls about a key change its binding |
| MapCommands.FitsAreLawful | Projects/Container/src/RBTree.c:50-229 | the laws of a map, told by calls and answers alone: what every call answers after a search, and what a search answers after it: the value set or added last, the old one if the key was present, nothing after a deletion or a clear, what the callback made of a visited pair |
| MapCommands.FirstValuesStart | Projects/Container/src/RBTree.c:29-35 | a search before anything is said about its key finds the first value the data has for it, and nothing if there is none |
| MapCommands.LackNeedsRefusal | Projects/Container/src/RBTree.c:98-103 | memory is lacking only for an addition, and only if some call is refused |
| MapCommands.EmptyAfterClear | Projects/Container/src/RBTree.c:128-154 | after a clear a deletion answers INVALID_ARG until something is added |
| TransferSteps.EnterOutcome | Projects/TransFileSemShm/writer.c:21-36 | the entry waits for the semaphore to be 0 and then owns it |
| TransferSteps.AwaitOutcome | Projects/TransFileSemShm/writer.c:38-49 | waits for PAIR to be 0 and changes nothing |
| TransferSteps.TakeOutcome | Projects/TransFileSemShm/writer.c:53-68 | takes the token with undo and raises its own entry to 2, or waits with nothing changed |
| TransferSteps.JoinOutcome | Projects/TransFileSemShm/writer.c:70-89 | waits for the partner's entry to be 2, leaves it as it is and raises PAIR |
| TransferSteps.HeadOutcome | Projects/TransFileSemShm/reader.c:91-114 | which of the conditions decides: PAIR below 2 fails at once, then the token makes it wait, then, for the reader, FINISH makes it fail |
| TransferSteps.PostOutcome | Projects/TransFileSemShm/writer.c:161-172 | never waits and raises the own token |
| TransferSteps.PostFinishOutcome | Projects/TransFileSemShm/writer.c:130-145 | PRINT and FINISH together, FINISH with undo |
| TransferSteps.LeaveOutcome | Projects/TransFileSemShm/writer.c:176-188 | lowers PAIR and the own entry and the adjustments for them |
| TransferSteps.EnterKeeps | Projects/TransFileSemShm/reader.c:9-24 | the step keeps the invariant: an entry semaphore at 0 means nobody of the role is active |
| TransferSteps.AwaitKeeps | Projects/TransFileSemShm/reader.c:26-37 | the step keeps the invariant: PAIR at 0 means nobody is paired |
| TransferSteps.SetValKeeps | Projects/TransFileSemShm/reader.c:39 | SETVAL keeps the invariant, clearing what others would have undone on that semaphore |
| TransferSteps.TakeKeeps | Projects/TransFileSemShm/reader.c:41-56 | the step keeps the invariant: the token is still as SETVAL left it |
| TransferSteps.JoinKeeps | Projects/TransFileSemShm/reader.c:58-77 | the step keeps the invariant: whoever is ready on the other side has seen no data yet |
| TransferSteps.HeadKeeps | Projects/TransFileSemShm/writer.c:104-123 | the step keeps the invariant, whether it goes on, waits or gives up |
| TransferSteps.ReadKeeps | Projects/TransFileSemShm/writer.c:125-149 | the step keeps the invariant for any number of bytes a read can return |
| TransferSteps.WriterCopyKeeps | Projects/TransFileSemShm/writer.c:159 | storing overwrites nothing that is still to be printed |
| TransferSteps.WriterPostKeeps | Projects/TransFileSemShm/writer.c:161-172 | posting keeps the invariant: what was stored is what is now to be printed |
| TransferSteps.PostFinishKeeps | Projects/TransFileSemShm/writer.c:128-149 | posting PRINT and FINISH together keeps the invariant: nothing is taken for data |
| TransferSteps.ReaderInsideKeeps | Projects/TransFileSemShm/reader.c:116-139 | copying, printing any number of the bytes, and posting keep the invariant |
| TransferSteps.LeaveKeeps | Projects/TransFileSemShm/reader.c:143-155 | leaving keeps the invariant: a process after that has nothing left to undo but its token and FINISH |
| TransferSteps.LeaveResult | Projects/TransFileSemShm/writer.c:176-188 | the closing operations are never refused |
| TransferSteps.ExitResult | Projects/TransFileSemShm/writer.c:21-188 | undoing a process's adjustments never meets the bound at 0 |
| TransferSteps.ExitKeeps | Projects/TransFileSemShm/writer.c:21-192 | an exit or a crash at any station keeps the invariant |
| TransferSteps.StartKeeps | Projects/TransFileSemShm/writer.c:3-19 | a new process keeps the invariant |
| TransferSteps.RunKeeps | Projects/TransFileSemShm/writer.c:21-192 | the invariant holds in every state of every run |
| TransferTheorems.MutualExclusion | Projects/TransFileSemShm/writer.c:104-172 | never is a writer between MEMORY and PRINT while a reader is between PRINT and MEMORY, whatever crashes |
| TransferTheorems.OneToken | Projects/TransFileSemShm/reader.c:91-139 | while PAIR is 2 there is one writer and one reader in the loop, and MEMORY + PRINT + writer inside + reader inside = 1 |
| TransferTheorems.OutputIsPrefix | Projects/TransFileSemShm/reader.c:116-139 | all a reader prints comes from one single writer and, without a short write, is a prefix of its file (with short writes: TransferLosses.ShortWritesDropTails) |
| TransferTheorems.OneReaderPerWriter | Projects/TransFileSemShm/writer.c:21-89 | no writer's bytes are printed by two readers |
| TransferTheorems.PairedReaderHasAll | Projects/TransFileSemShm/writer.c:125-149 | when read has returned 0, a reader still paired has printed the whole file exactly if none of its writes was short |
| TransferCondition.EndOfFileIsPrinted | Projects/TransFileSemShm/writer.c:125-149 | when read has returned 0, and ever after, some reader, alive or gone, has printed only bytes of this file, and the whole of it exactly if none of its writes was short |
| TransferTheorems.MemoryMeansPrinted | Projects/TransFileSemShm/writer.c:104-123 | getting MEMORY means that a paired reader has printed all bytes read so far, again exactly if no write was short |
| TransferTheorems.UndoAddsUp | Projects/TransFileSemShm/writer.c:21-188 | WEXIST, REXIST, PAIR and FINISH are the sum of what live processes have to undo; none is negative, the first three are at most 2 |
| TransferTheorems.SetWhileUnpaired | Projects/TransFileSemShm/writer.c:51 | SETVAL happens only while PAIR is 0 |
| TransferTheorems.LeavingIsImmediate | Projects/TransFileSemShm/reader.c:143-155 | the closing operations never wait, in any run |
| TransferTheorems.LonelyHeadLeaves | Projects/TransFileSemShm/writer.c:104-123 | with PAIR below 2 the loop head does not wait |
| TransferTheorems.PairProgress | Projects/TransFileSemShm/reader.c:91-139 | of two paired processes one can always go on |
| TransferTheorems.SystemProgress | Projects/TransFileSemShm/writer.c:21-188 | while a writer and a reader are live, wherever they are in their programs and whatever else was started or crashed, some live process can move |
| TransferSession.RunningStep | Projects/TransFileSemShm/writer.c:101-174 | in a session without a crash of a partner, every event keeps the session going or concludes it, and every move of a partner decreases what is left |
| TransferSession.FinishConcludes | Projects/TransFileSemShm/writer.c:128-149 | the step after the end of the file concludes the session: the reader has printed all of the file exactly if no write was short |
| TransferSession.FinishedIsSeen | Projects/TransFileSemShm/reader.c:91-114 | after the writer has finished, the reader at its loop head sees FINISH or a lower PAIR, also when the writer has left or crashed since |
| TransferSession.SessionConcludes | Projects/TransFileSemShm/writer.c:101-174 | once both are in the loop with FINISH at 0, every continuation without a crash of the two is still on its way or has concluded the session, with the file printed exactly if no write was short |
| TransferSession.SessionIsBounded | Projects/TransFileSemShm/writer.c:101-174 | a session on its way has made no more moves of the partners than it had left to make at its start, so it cannot go on for ever |
| TransferSession.SessionCanDeliver | Projects/TransFileSemShm/writer.c:101-174 | from any session, moves of the two partners alone, none of them a short write, lead to its conclusion; so the file arrives if no write was short before |
| TransferSession.ConclusionLasts | Projects/TransFileSemShm/reader.c:88-158 | a concluded session stays so, and its output stays byte for byte as it is, whatever crashes or starts later |
| TransferSession.GaveUpNeverDelivers | Projects/TransFileSemShm/writer.c:119-122 | what a writer had not read when it gave up never reaches any reader, so its file is never printed whole |
| TransferCondition.LeftUnread | Projects/TransFileSemShm/writer.c:104-123 | while a reader is paired, a writer that has given up has read nothing |
| TransferCondition.UnmetIsFresh | Projects/TransFileSemShm/reader.c:58-114 | two paired processes whose session never ran: the reader has got nothing |
| TransferCondition.GotNeedsSession | Projects/TransFileSemShm/reader.c:91-139 | if a reader holds or has printed a byte of a writer, then the two were at some moment in their loops together with FINISH at 0 |
| TransferCondition.FinishedConcluded | Projects/TransFileSemShm/writer.c:128-149 | a finished writer has a reader, alive or gone, with which it has concluded its session, and for a file with a byte in it the two were in a running session |
| TransferCondition.ArrivedExactly | Projects/TransFileSemShm/writer.c:101-188 | in a run without a crash of the two, the writer out of its loop: the reader's output is the file if and only if at some moment both were in their loops with FINISH at 0 and no write was short; without such a moment not a byte of the file is in it |
| TransferCondition.FinishedExactly | Projects/TransFileSemShm/writer.c:128-188 | in a run without a crash, a writer with something to send, once out of its loop, has posted the end of its file if and only if it was in such a session with some reader |
| TransferExamples.MayDeliverNothing | Projects/TransFileSemShm/writer.c:104-123 | a run without a crash in which both processes are ready and the writer gives up with nothing read, for every file |
| TransferExamples.MayDeliver | Projects/TransFileSemShm/writer.c:21-188 | from every reachable state in which all processes are gone, however they went, a new writer and a new reader can go on without a crash so that the reader prints just the file, for every file |
| TransferExamples.StaleFinishLoses | Projects/TransFileSemShm/reader.c:91-114 | a run without a crash in which both partners are in their loops with PAIR at 2 and not a byte arrives, for every file with a byte in it: a writer of an earlier session still holds FINISH up |
| TransferLosses.SmallRun | Projects/TransFileSemShm/writer.c:125-149 | in every run no buffer holds more than PAGESIZE bytes |
| TransferLosses.MetIsBehind | Projects/TransFileSemShm/writer.c:21-188 | a writer and a reader that were in a running session have nobody else beside them for good, and without a short write the reader is at most one block behind |
| TransferLosses.CrashLosesOneBlock | Projects/TransFileSemShm/writer.c:101-174 | in every run, whatever crashes when: without a short write a reader that was in a session with a writer has printed the beginning of its file, all but at most PAGESIZE bytes of what was read of it |
| TransferLosses.OutputIsWritten | Projects/TransFileSemShm/reader.c:118-139 | in every run an output is, write after write, the bytes written of the block that was held |
| TransferLosses.DroppedIsRest | Projects/TransFileSemShm/reader.c:118-139 | what was written and what was left out at the ends of the blocks add up to all blocks; nothing is left out exactly if no write was short |
| TransferLosses.RunsAlike | Projects/TransFileSemShm/reader.c:118-139 | every run and the same run with whole writes agree, in every state, in all but the outputs |
| TransferLosses.ShortWritesDropTails | Projects/TransFileSemShm/reader.c:118-139 | in every run the blocks a reader has held are, one after the other, the beginning of one file and just what whole writes would have printed; the output is of every block the part that was written, and a reader counts as whole exactly if no write was short |
| TransferLosses.LossIsBounded | Projects/TransFileSemShm/writer.c:101-174 | crashes and short writes together: the bytes read by a writer in a session are at most those printed, those that short writes left out at the ends of the blocks they were given, and PAGESIZE more |
| TransferExamples.ShortWriteLoses | Projects/TransFileSemShm/reader.c:118-139 | a run without a crash in which one short write makes any file of two or more bytes arrive incomplete |
| TransferRecovery.CrashUndoes | Projects/TransFileSemShm/writer.c:21-188 | a process can crash at any station of any run: it is gone with nothing left to undo, every semaphore changes by just what it had to undo, and nobody else and no byte is touched |
| TransferRecovery.ExitIsAsCrash | Projects/TransFileSemShm/writer.c:190-193 | the exit of a process that has left does the same |
| TransferRecovery.StartAdds | Projects/TransFileSemShm/writer.c:3-19 | a new process stands before its entry, with its file unread and nothing printed or to undo; the others and the semaphores are as before |
| TransferRecovery.EntryIsFreed | Projects/TransFileSemShm/writer.c:21-36 | the crash of the active process of a role frees the entry, and lowers PAIR exactly if it had raised it |
| TransferRecovery.NextGetsIn | Projects/TransFileSemShm/writer.c:21-36 | the next process of the role then gets in |
| TransferRecovery.ReadTakes | Projects/TransFileSemShm/writer.c:125-149 | a read takes any count from 1 to 100 within the file, returns 0 exactly at its end, and moves on accordingly |
| TransferRecovery.PrintTakes | Projects/TransFileSemShm/reader.c:118-139 | a write takes any count up to the bytes held, and prints just the first of them |
| TransferRecovery.SurvivorLeaves | Projects/TransFileSemShm/reader.c:88-158 | without a partner, moves of its own lead a process from any station of its loop to its exit |
| TransferRecovery.CrashThenArrival | Projects/TransFileSemShm/writer.c:21-188 | wherever in its loop a partner crashes, the other one leaves by itself, and then a new pair can pass on any file, all of which arrives |
| TransferRecovery.MayRecover | Projects/TransFileSemShm/writer.c:21-188 | for any two files there is a run in which the writer of the first crashes in its loop and the second arrives |
| TransferProcesses.System.Semop | Projects/TransFileSemShm/writer.c:21-36 | a loop over the operations that commits all of them or nothing is the atomic array of the state machine |
| TransferProcesses.System.SetVal | Projects/TransFileSemShm/reader.c:39 | sets one semaphore and clears every process's adjustment for it, and nothing else |
| TransferProcesses.System.Prepare | Projects/TransFileSemShm/reader.c:9-77 | the stretches before the loop, of either role, are the state machine's steps |
| TransferProcesses.System.WriterLoop | Projects/TransFileSemShm/writer.c:101-174 | the stretches of the writer's loop are the state machine's steps, for every result of read |
| TransferProcesses.System.ReaderLoop | Projects/TransFileSemShm/reader.c:88-141 | the stretches of the reader's loop are the state machine's steps, for every result of write |
| TransferProcesses.System.Close | Projects/TransFileSemShm/writer.c:176-188 | the closing operations are the state machine's step |
| TransferProcesses.System.End | Projects/TransFileSemShm/writer.c:190-193 | the end of a process, by exit or crash, is the state machine's |
| TransferProcesses.Simulate | Projects/TransFileSemShm/writer.c:3-193 | processes started, run and crashed in any order go through just the runs of the state machine, so all theorems hold of them |
| RingBuffer.RingPut | Projects/Proxy/src.c:49-83 | bytes stored in the free run are appended to the queue, no unread byte is overwritten |
| RingBuffer.RingGet | Projects/Proxy/src.c:12-47 | the filled run is the front of the queue |
| RingBuffer.Channel.FreeRun | Projects/Proxy/src.c:52-58 | the requested count is all free bytes or goes just to the end of the buffer; it fits, and is 0 only for a full buffer |
| RingBuffer.Channel.FilledRun | Projects/Proxy/src.c:16-21 | the requested count is all filled bytes or goes just to the end of the buffer; it fits, and is 0 only for an empty buffer |
| RingBuffer.Channel.PutInBuffer | Projects/Proxy/src.c:49-83 | a FIFO put of just the bytes the system moves, at most up to the end of the free run; -1 exactly for EAGAIN; 0 with room in the buffer exactly at the end of the input |
| RingBuffer.Channel.GetFromBuffer | Projects/Proxy/src.c:12-47 | a FIFO get of just the bytes the system moves, at most up to the end of the filled run; -1 exactly for EAGAIN; 0 exactly for an empty buffer |
| ProxyLoop.ReadPart | Projects/Proxy/main.c:229-242 | the object-level read is the pipeline's input step, with just the count the free run, the pipe and the system allow |
| ProxyLoop.WritePart | Projects/Proxy/main.c:244-252 | the object-level write is the pipeline's output step, with just the count the filled run, the pipe and the system allow |
| ProxyLoop.ClosePart | Projects/Proxy/main.c:254-265 | the object-level check is the pipeline's closing step |
| ProxyLoop.Visit | Projects/Proxy/main.c:227-266 | the loop body on real buffers and pipes does exactly the visit that select's report, the pipes and the place in the buffer determine, which is a possible event of the pipeline |
| ProxyRuns.SpliceIs | Projects/Proxy/main.c:92-106 | a splice of 1 to 10000 bytes that are there and for which there is room takes just these from the front of what the child reads to the end of its pipe; any other does nothing |
| ProxyRuns.Proxy.SpliceChild | Projects/Proxy/main.c:92-106 | the same on the pipes themselves: source and pipe before and after; no other pipe or channel is touched |
| ProxyRuns.Proxy.ExitChild | Projects/Proxy/main.c:94-99 | a child's exit closes its pipe exactly at the end of its input, after which nothing can come, and changes no byte |
| ProxyRuns.Proxy.VisitChannel | Projects/Proxy/main.c:227-266 | a visit of one channel among all of them is exactly the event its flags determine: it reads exactly if select reports input and the buffer of an open channel has room, and writes exactly if select reports room, there was something to write and the read was no EAGAIN |
| ProxyRuns.Proxy.ParentRound | Projects/Proxy/main.c:190-267 | one round visits, in order, every channel from the first open one on, each as its flags say in the state reached so far |
| ProxyRuns.Proxy.Act | Projects/Proxy/main.c:92-267 | a splice moves its bytes from the child's source to its pipe exactly if they are there and fit, an exit closes the pipe exactly at the end of the input, and all other objects stay; a round makes the visits its flags determine |
| ProxyRuns.RoundVisits | Projects/Proxy/main.c:227-266 | a round visits every channel from the first open one on, once and in order, and does at each just what its flags and its state when the round began determine |
| ProxyRuns.VisitKinds | Projects/Proxy/main.c:227-252 | a visit reads exactly if select reports input and the buffer of an open channel has room, and writes exactly if it reports room, there was something to write and the read was no EAGAIN |
| ProxyRuns.ReadsAll | Projects/Proxy/src.c:52-58 | a read takes what the system moves of what is in the pipe, up to all free bytes or the end of the buffer |
| ProxyRuns.WritesAll | Projects/Proxy/src.c:16-21 | a write takes what the system moves of the filled bytes, up to the end of the buffer or the room in the pipe |
| ProxyRuns.ActionsFollow | Projects/Proxy/main.c:33-269 | what any sequence of splices, exits and rounds comes to is a run of the pipeline from its start |
| ProxyRuns.VisitMoves | Projects/Proxy/main.c:227-266 | whatever is reported, the visit is a possible event, and if what was reported for a channel is asked for and true it moves a byte or an end of file |
| ProxyRuns.RoundMoves | Projects/Proxy/main.c:216-266 | a round entered with some channel ready decreases what is left to do |
| ProxyRuns.RoundsAreBounded | Projects/Proxy/main.c:190-267 | among any splices, exits and other rounds there are no more rounds entered with a channel ready than there was to do at the start |
| ProxyRuns.AllCanBePrinted | Projects/Proxy/main.c:33-269 | for every file, number of children and pipe size some splices, exits and rounds end the loop with all of the file printed |
| ProxyRuns.Simulate | Projects/Proxy/main.c:33-269 | the proxy on real buffers and pipes reaches exactly the state that the splices, exits and rounds asked for lead to, byte for byte and place for place; what it has printed is a beginning of the file, all of it when the loop ends, and it never gives up |
| Pipeline.StartInv | Projects/Proxy/main.c:33-166 | the invariant at the start, for every n >= 1 |
| Pipeline.BufferSizes | Projects/Proxy/main.c:152-153 | the last buffer has 3 KiB and every one before it three times the next |
| Pipeline.SpliceKeeps | Projects/Proxy/main.c:92-106 | a splice of any size keeps the invariant |
| Pipeline.ExitKeeps | Projects/Proxy/main.c:94-99 | a child's exit at the end of its input keeps the invariant |
| Pipeline.InputKeeps | Projects/Proxy/main.c:229-242 | a read, EAGAIN or end of file keeps the invariant but for the channel visited, which may now be finished and not closed |
| Pipeline.OutputKeeps | Projects/Proxy/main.c:244-252 | a write of any size, or EAGAIN, keeps the invariant but for the channel visited |
| Pipeline.CloseKeeps | Projects/Proxy/main.c:254-265 | the check restores the invariant; a finished channel is always the next one in order |
| Pipeline.ApplyKeeps | Projects/Proxy/main.c:190-267 | every event keeps the invariant: nothing overflows and ends propagate in order |
| PipelineTheorems.MoveKeepsStream | Projects/Proxy/main.c:92-252 | passing bytes on keeps the whole stream |
| PipelineTheorems.Conservation | Projects/Proxy/main.c:190-267 | in every run for every n: standard output, buffers, pipes and unread file together are the file, and the output is a prefix of it |
| PipelineTheorems.FinishedIsPrinted | Projects/Proxy/main.c:190-269 | when the loop ends the output is the file |
| PipelineTheorems.MoveTakesHops | Projects/Proxy/main.c:92-252 | passing on k bytes takes k from the hops that are left |
| PipelineTheorems.EffectiveDecreases | Projects/Proxy/main.c:92-267 | every event that moves bytes or an end decreases hops plus pending ends, and no event increases it |
| PipelineTheorems.BoundedWork | Projects/Proxy/main.c:190-267 | no run has more such events than the start allows |
| PipelineTheorems.EndsInOrder | Projects/Proxy/main.c:227-266 | a channel at its end has all earlier ones drained and closed; the branch for a child that died too early is never taken |
| PipelineTheorems.SomethingBefore | Projects/Proxy/main.c:190-267 | looking back from a channel whose output has room, something can move |
| PipelineTheorems.NoDeadlock | Projects/Proxy/main.c:190-267 | while a channel is open some child or the parent can move something |
| PipelineTheorems.CanFinish | Projects/Proxy/main.c:190-267 | from every reachable state some run ends the loop |
| SignalLink.SetBitsEmpty | Projects/Signals/src.c:3-6 | all bits 0 |
| SignalLink.ToBits | Projects/Signals/src.c:8-17 | the eight bits of the byte, which joined give the byte again |
| SignalLink.ToChar | Projects/Signals/src.c:19-24 | the byte whose bits these are |
| SignalLink.RoundTrip | Projects/Signals/src.c:8-24 | taking a byte apart and joining it is the identity |
| SignalLink.BitIsDigit | Projects/Signals/src.c:8-17 | bit i is the byte divided by 2 to the i, modulo 2 |
| SignalProtocol.OneSignal | Projects/Signals/main.c:150 | a waking parent has exactly one signal, and room for the bit |
| SignalProtocol.ChildKeeps | Projects/Signals/main.c:92-108 | the child's steps keep the invariant |
| SignalProtocol.WakeKeeps | Projects/Signals/main.c:177-198 | running the handlers keeps the invariant |
| SignalProtocol.AnswerKeeps | Projects/Signals/main.c:152-164 | printing and acknowledging keep the invariant |
| SignalProtocol.RunKeeps | Projects/Signals/main.c:92-165 | the invariant holds in every run: where every bit of the file and every signal is |
| SignalProtocol.SafeHandlers | Projects/Signals/main.c:177-190 | at most one signal is on its way, count is 0 to 8, no bit is stored behind the array, and the exit at 9 bits is never taken |
| SignalProtocol.NoSignalLost | Projects/Signals/main.c:99-103 | no signal is sent to a process that still has one pending |
| SignalProtocol.OutputIsText | Projects/Signals/main.c:146-165 | the output is always a prefix of the text before the first byte that reads as EOF, and all of it when the child has exited |
| SignalProtocol.OnlyAllOnes | Projects/Signals/main.c:92 | the only byte that as a signed char equals EOF is 0xFF, the one with all bits set |
| SignalProtocol.TextIsFile | Projects/Signals/main.c:92 | that text is the whole file exactly if no byte is 0xFF, and else all before the first such byte |
| SignalProtocol.FileArrives | Projects/Signals/main.c:90-165 | of a file without a byte 0xFF a beginning is printed at all times, and all of it when the child has exited |
| SignalProtocol.StepsDecrease | Projects/Signals/main.c:92-165 | every step that does anything brings the end nearer |
| SignalProtocol.NoDeadlock | Projects/Signals/main.c:103-150 | until the parent has finished some step is possible: no wake-up is missed |
| SignalProcesses.Receiver.ParentHandler | Projects/Signals/main.c:177-190 | the handler stores at count a 1 exactly for SIGUSR2 and counts it, nothing else |
| SignalProcesses.Receiver.WaitChild | Projects/Signals/main.c:192-198 | the handler marks the child as dead, nothing else |
| SignalProcesses.Receiver.Suspend | Projects/Signals/main.c:150 | handling what is pending is the state machine's wake-up; the bit has room |
| SignalProcesses.Receiver.AfterSuspend | Projects/Signals/main.c:152-164 | the loop body is the state machine's step: it exits exactly when the child is dead, else acknowledges, and prints exactly the byte of eight bits that are complete, starting over |
| SignalProcesses.Sender.Fetch | Projects/Signals/main.c:92-97 | the byte's bits, or the exit exactly at the end of the file or a byte 0xFF |
| SignalProcesses.Sender.SendBit | Projects/Signals/main.c:99-103 | SIGUSR2 for a 1 and SIGUSR1 for a 0 at the current bit of the current byte |
| SignalProcesses.Sender.Acknowledged | Projects/Signals/main.c:97-106 | the next bit, and after the eighth the next byte |
| SignalProcesses.Link.ChildMoves | Projects/Signals/main.c:92-108 | the child's loop from one signal to the next is the state machine's step |
| SignalProcesses.Link.ParentMoves | Projects/Signals/main.c:146-165 | the parent's loop, with whatever is pending handled in any order, is the state machine's step |
| SignalProcesses.Simulate | Projects/Signals/main.c:92-165 | the two programs, run in any order, go through just the runs of the state machine, so all theorems hold of them; a file without a byte 0xFF is printed, all of it once the child has exited |
| Slices.DivideWork | Projects/NetworkIntegration/src/Network/worker_manager.c:64-127 | the tasks take, in order and without gap, all slices of equal width of the interval, end exactly at its end, each but the last with the same share and the last with the rest, none empty; null with E_INVAL exactly for a 0 argument, with E_MEM exactly when memory is refused |
| Slices.FillTasks | Projects/NetworkIntegration/src/Network/worker_manager.c:94-109 | the loop and the last task |
| Slices.FillThreadInfo | Projects/NetworkIntegration/src/Integration/pthread_manager.c:160-196 | contiguous slices of equal width that end exactly at the end; surplus entries repeat the first; -1 exactly without an array or for 0 threads, and then nothing is changed |
| Slices.SlicesAreGlobal | Projects/NetworkIntegration/src/Network/worker_manager.c:94-109 | slice j of task i is slice SlicesBefore(i) + j of the whole interval, of the same width |
| Quadrature.CalcIntegral | Projects/NetworkIntegration/src/Integration/calc.c:14-35 | ends in either order; the number of turns is the least that covers the interval, and the sum is the trapezoid sum of one strip less plus h f(b+h) for two or more turns |
| Quadrature.TurnSumIsStepped | Projects/NetworkIntegration/src/Integration/calc.c:27-32 | the loop's sum, turn by turn, has that closed form |
| Quadrature.TurnsAre | Projects/NetworkIntegration/src/Integration/calc.c:27-32 | the number of turns is the least n for which n steps reach the end |
| Quadrature.EndsInAnyOrder | Projects/NetworkIntegration/src/Integration/calc.c:16-20 | the result is the same for both orders of the ends |
| Quadrature.FirstTurns | Projects/NetworkIntegration/src/Integration/calc.c:22-32 | for any function: 0 for an empty interval, one trapezoid for one turn, and a rectangle at the height of the second sample more for two |
| Quadrature.OneTurnMore | Projects/NetworkIntegration/src/Integration/calc.c:27-32 | from the third turn on a turn more adds the trapezoid of the strip before its own |
| Quadrature.SquareExactly | Projects/NetworkIntegration/src/Integration/calc.c:14-35 | the exact result for x*x with two turns or more |
| Quadrature.LineExactly | Projects/NetworkIntegration/src/Integration/calc.c:14-35 | the exact result for straight lines: their integral but for the odd rectangle |
| Quadrature.TrapezoidsOfSquare | Projects/NetworkIntegration/src/Integration/calc.c:27-32 | for x*x the trapezoid sum exceeds the area by h^3/6 a strip |
| Quadrature.RectangleFits | Projects/NetworkIntegration/src/Integration/calc.c:27-32 | the odd rectangle and that excess fit into the next strip |
| Quadrature.SquareBounds | Projects/NetworkIntegration/src/Integration/calc.c:14-35 | for f = x*x, 0 <= b <= e, F = x^3/3: F(e-h) - F(b) <= r <= F(e+h) - F(b) + h^3/6 |
| Quadrature.SumsApart | Projects/NetworkIntegration/src/Integration/calc.c:27-32 | upper and lower sum over the strips differ by one strip as high as the function grows |
| Quadrature.SteppedBetween | Projects/NetworkIntegration/src/Integration/calc.c:27-32 | for any function that grows, the sum of the turns is not above the upper sum, and below the lower one by at most one strip as high as the function grows |
| Quadrature.GrowingBounds | Projects/NetworkIntegration/src/Integration/calc.c:14-35 | for any function that grows on the interval the result is off by at most two such strips from whatever lies between the lower and the upper sum |
| Quadrature.RunThreads | Projects/NetworkIntegration/src/Integration/calc.c:37-42 | every thread integrates over its own slice |
| Quadrature.SlicesAddUp | Projects/NetworkIntegration/src/Integration/calc.c:134-141 | with an integrator that is exact the sum over all slices is the integral over the whole interval: none is left out or taken twice |
| Quadrature.Integrate | Projects/NetworkIntegration/src/Integration/calc.c:44-155 | the sum over the first n slices, with surplus threads not added; E_INVAL for 0 threads or a missing function or result, E_MEM and E_THREAD when memory or threads are refused, and then the stored result stays; every thread has been joined when the records are freed if and only if there are at least as many threads as processors |
| Quadrature.DistributionKeepsResult | Projects/NetworkIntegration/src/Network/worker_manager.c:316 | machines first and threads then give the same sum as all slices at once |
| Quadrature.SliceSumOfSquare | Projects/NetworkIntegration/src/Integration/calc.c:134-141 | for x*x the sum over n slices differs from the area by at most n times what one strip beyond the end holds plus its excess |
| Quadrature.DistributedResult | Projects/NetworkIntegration/src/Network/worker_manager.c:65-127 | for x*x the result of all machines differs from the area by at most n times what one strip beyond the end holds plus its excess, n being the number of all threads |
| Quadrature.AskAll | Projects/NetworkIntegration/src/Network/worker_manager.c:265-337 | one machine a task, and the sum of what they report is the sum over all slices of the tasks; E_MEM exactly when the table of threads is refused, else E_THREAD exactly if a thread cannot be started or a machine reports nothing |
| Quadrature.Compute | Projects/NetworkIntegration/src/common.c:106-145 | dividing the work, integrating on every machine and adding up gives the sum over equal slices of the whole interval, for any number of machines and processors; each error exactly in its case |
| Quadrature.ServerResult | Projects/NetworkIntegration/src/common.c:106-145 | for x*x that sum differs from the area by at most n times what one strip beyond the end holds plus its excess |

## Left out

- Real I/O and kernel set-up (`fork`, `pipe`, `open`, `fcntl`, `prctl`, `shmget`, `ftok`, descriptors, messages): a read, write or splice is a step that moves some number of bytes.
- I/O error exits, `EINTR` and the `IPC_RMID` clean-up paths, and the proxy's SIGCHLD handler (a child that fails instead of reaching the end of its input).
- The runs of the transfer, of the signal link and of the proxy are those of a state machine: a blocked process is one whose step changes nothing, and `TransferProcesses`, `SignalProcesses` and `ProxyRuns` cut the programs at the points where others may come in instead of running them from start to end. A store in the shared buffer is taken to be visible once the next semaphore step is done.
- Undo adjustments at an exit are applied with a lower bound of 0, as Linux does; `TransferSteps.ExitResult` shows that the bound is never met.
- Completion of a transfer under a scheduler: it is proved that a session's moves are bounded and that one of the partners can always move, not that a scheduler lets it.
- TransferTheorems.OutputIsPrefix: speaks of prefixes only for a reader without a short write, because the code skips the bytes a short write leaves behind; `TransferLosses.ShortWritesDropTails` says what the output is then.
- TransferTheorems.LeavingIsImmediate: ignores that `semop` can fail for reasons outside the semaphores' values.
- The order in which `select` reports descriptors: a visit may happen at any time and with any answer the pipes allow, which covers every order.
- The standard output takes everything; a full terminal or a reader that stops reading is not modelled. Pipe capacities are counted in bytes.
- Proxy start-up with N < 1, and buffer sizes beyond the range of `size_t` (3^(N-i) KiB is taken exactly).
- A SIGCHLD is taken to be sent when the child exits, though its handler is installed with SA_NOCLDWAIT (`Projects/Signals/main.c:50`) and POSIX leaves open whether it is sent then. One that is pending, blocked, before its handler is installed is taken to stay pending, which POSIX leaves to the system. Handlers' messages are left out.
- Reading the fields of a node after it was freed is excluded only by the contracts (freed nodes are no longer among a tree's nodes), not by the memory model.
- MapForeach.Foreach: the callback may change its data and the value of the node it is called with, through `setValue`; one that calls other functions of the map is not modelled.
- Getters, `isEmpty`, `printMap`, `printTreeWithIndents` and the counting `calloc_h` of the map would only add easy members.
- Slices.FillThreadInfo: an array that exists has room for all threads, as its caller sees to.
- Quadrature.Integrate: with more processors than threads, the threads that are not joined may still write to their records when those are freed (`calc.c:131-155`); it is stated exactly when there are such threads, and what they then do to memory is not modelled: `RunThreads` lets all of them finish first.
- Quadrature.Compute: connections that fail or time out before the work is handed out; a machine that reports nothing later, for whatever reason, gives E_THREAD.
- Floating-point rounding, thread affinity, cache-line alignment, and sockets in the quadrature.
- `Projects/MsgMes`, `Projects/Integral`, `Projects/Proxy/train.c`, `Projects/TransFileSemShm/src.c`, `main.c` and `RemoveAll.c`, and everything under `Seminars`.
