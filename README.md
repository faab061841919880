# Memory tracer, call-graph pass and word sort, modelled in Dafny

This project models three small programs and proves properties of them:

- **`MyPinTool`** (`project1/project1.cpp`) is a Pin tool that traces a
  program. It keeps these globals:
  - three `UINT64` counters (instructions, basic blocks, threads);
  - an address gate, opened when the main executable's image is loaded;
  - a log `insLogs` with one entry per instrumented instruction;
  - a global event number `order`.

  For each instruction of the main image, the instrumentation callback
  appends a description entry and schedules at most one hook per memory
  operand: a read hook if the operand is read, otherwise a write hook if it
  is written, otherwise none.
  When Pin fires a hook, it appends an `[order] -r/w-> addr <size>` line to
  that instruction's entry. At exit, `Fini` prints the counters and then
  every entry in insertion order.
- **`Project2`** (`project2/Project2.cpp`) is an LLVM module pass. It:
  - writes a call graph: for each function, its distinct direct callees in
    `std::set<std::string>` order;
  - writes the control-flow edges of `main`;
  - prints the paths of `main` from its entry block. These come from a
    recursion that carries the set of visited blocks by value and reports a
    loop whenever a successor is already on the path.
- **The word-sort fixture** (`project2/test_cfg.c`) checks ten words. It
  rejects the input at the first word that is empty or shorter than three
  characters. Otherwise it sorts the words in place with a nested exchange
  sort under `strcmp`.

The project has four modules:

- `Lexicographic` (`lexicographic.dfy`): the shared `strcmp` / `std::string`
  order;
- `PinTracer` (`tracer.dfy`): the class `Tracer` holds the tool's globals,
  and its methods are the callbacks; it also has the pure specifications of
  hook scheduling and event stamping;
- `CallGraphPass` (`call_graph_pass.dfy`);
- `WordSort` (`word_sort.dfy`).

What Pin or LLVM supplies arrives as plain arguments:

- the image bounds;
- the instruction address;
- each memory operand's read and written flags;
- the functions, blocks, call sites and successor lists.

A call inserted with `INS_InsertCall` or `BBL_InsertCall` is returned as a
hook value. Firing the hook is a separate method call.

The tool does no de-duplication by instruction address: `Instruction`
pushes a new entry on every in-range call, even for an address seen before.
`Fini` prints the entries in insertion order, not sorted by address. No
marker is printed for an instruction without memory accesses: its entry is
just its description line. The model keeps two quirks of the description
line:

- the register counts are swapped: the read list has `INS_MaxNumWRegs`
  entries and the write list has `INS_MaxNumRRegs` entries;
- both lists are read with `INS_RegR`.

Finally, `findAllPaths` is modelled with its `erase`, exactly as written.
The recursion can fail to terminate. That happens in a call on block `bb`
whose path already holds `bb`, which is reached only through `bb`'s own
self-edge. If such a call follows a successor that is off the path, the
`erase` drops `bb`. A self-edge of `bb` listed after that successor then
repeats the call with the same arguments (`LateSelfEdgeCallsItself`). The
model covers the graphs in which no block lists a self-edge after a
successor other than itself (`NoLateSelfEdge`). That is enough for
termination, but it also excludes some graphs on which the source
terminates (see "## Left out").

## Model

| member | source | states |
|---|---|---|
| Lexicographic.Compare | project2/test_cfg.c:31 | the sign of `strcmp`: -1, 0 or 1, and 0 exactly when the two strings are equal |
| Lexicographic.CompareAntisymmetric | project2/test_cfg.c:31 | swapping the operands negates the comparison |
| Lexicographic.CompareTotal | project2/test_cfg.c:31 | any two words are ordered one way or the other; if `a` does not sort no later than `b`, then `b` sorts strictly before `a` |
| Lexicographic.CompareTransitive | project2/test_cfg.c:31 | the order is transitive, both non-strictly and when either step is strict |
| WordSort.Validate | project2/test_cfg.c:15-25 | the input is accepted iff all ten words have at least three bytes, `strlen` counting one byte per `char` (a word of exactly three is accepted); otherwise the verdict names the first rejected word, says whether it was empty or too short, and every earlier word was acceptable |
| WordSort.ExchangeSort | project2/test_cfg.c:28-37 | afterwards the ten words are in non-decreasing `strcmp` order and are a permutation of the input; an input that was already sorted is left unchanged |
| WordSort.SettlePosition | project2/test_cfg.c:29-37 | one pass of the inner loop: the earlier positions stay settled, and position `i` ends up holding a word that sorts no later than every later word (the outer-loop invariant); the words are permuted, and a sorted array is left unchanged |
| WordSort.SwapIntoPlace | project2/test_cfg.c:31-36 | the swap through `temp` exchanges exactly `str[i]` and `str[j]`; it happens only when the array is not sorted, and it keeps `str[i]` no later than every word between `i` and `j` |
| CallGraphPass.Instructions | project2/Project2.cpp:130 | `inst_iterator` visits each instruction of each block, and nothing else |
| CallGraphPass.SetInsert | project2/Project2.cpp:136 | `std::set<std::string>::insert` on the set's sorted contents; it has no contract of its own, and its properties are the three lemmas below (solver cost keeps them out of the function) |
| CallGraphPass.SetInsertMembers | project2/Project2.cpp:136 | `std::set::insert` adds exactly the new name to the elements |
| CallGraphPass.SetInsertSorted | project2/Project2.cpp:136 | insertion keeps the set's contents strictly ascending |
| CallGraphPass.SetInsertPresent | project2/Project2.cpp:136 | inserting a name that is already present changes nothing |
| CallGraphPass.CalleeSet | project2/Project2.cpp:130-139 | the `callee` set after the first loop, built by inserting each direct `Function` callee in instruction order; it has no contract of its own, and `CalleeSetCorrect` states its contents |
| CallGraphPass.CalleeSetCorrect | project2/Project2.cpp:128-139 | after the first loop, `callee` is strictly ascending and holds exactly the names of the directly called `Function`s |
| CallGraphPass.CallLinesExact | project2/Project2.cpp:127-148 | each line of a function is `F -> n` with `F` the function's name; the callees are strictly ascending, so each appears once; a name appears iff the function calls a `Function` of that name directly; call sites whose target is not a `Function` add nothing |
| CallGraphPass.CollectCallees | project2/Project2.cpp:128-139 | the first loop of `runOnFunction` leaves `callee` equal to `CalleeSet` of the function's instructions |
| CallGraphPass.CallLines | project2/Project2.cpp:141-145 | every line written for a function is an edge from that function's name |
| CallGraphPass.CallGraphBody | project2/Project2.cpp:53-61 | the body of `call_graph.dot` consists of edges only |
| CallGraphPass.RunOnFunction | project2/Project2.cpp:127-148 | the two loops of `runOnFunction` produce exactly the lines of `CallLines` |
| CallGraphPass.CallGraphBodyExact | project2/Project2.cpp:51-63 | `call_graph.dot` holds `F -> n` iff some function named `F` in the module calls a `Function` named `n` directly |
| CallGraphPass.BlockEdges | project2/Project2.cpp:75-78 | one edge per successor index of a block, each leaving that block |
| CallGraphPass.CfgEdges | project2/Project2.cpp:68-79 | the CFG lists exactly as many edges as there are successor entries in the blocks so far |
| CallGraphPass.CfgEdgeAt | project2/Project2.cpp:68-79 | the edge for successor `k` of block `b` is at position `EdgeOffset(b) + k`: blocks in function order, successors in index order, one edge per (block, successor index), so repeated successors give repeated edges |
| CallGraphPass.ControlFlowGraph | project2/Project2.cpp:65-81 | the nested loops write the opening line, then exactly `CfgEdges` of `main`, then the closing brace |
| CallGraphPass.PathAt | project2/Project2.cpp:100-112 | the by-value `path` inside the loop is always the entry path, or the entry path without `bb` |
| CallGraphPass.ChildCall | project2/Project2.cpp:103-111 | a followed successor is not on the path, and the callee receives the caller's entry path plus `bb` whatever the earlier `erase`s did; a successor that is not followed is on the entry path |
| CallGraphPass.PathRestoredOffPath | project2/Project2.cpp:104-111 | when `bb` is not on the path on entry, `insert`/`erase` leave the path unchanged; a successor already on the path is not followed, and every other successor is followed with `path ∪ {bb}` |
| CallGraphPass.PathKeptBeforeSelfEdge | project2/Project2.cpp:100-111 | before the first successor other than `bb` itself, a block's self-edges are loop reports and `path` keeps `bb` |
| CallGraphPass.ErasedAfterFollow | project2/Project2.cpp:109-111 | once a successor has been followed, `erase(bb)` leaves the path as the entry path minus `bb` for the rest of the loop, even when `bb` was on it |
| CallGraphPass.LateSelfEdgeCallsItself | project2/Project2.cpp:104-111 | if `bb` is on the path on entry and a self-edge of `bb` comes after a followed successor, the loop calls `findAllPaths(bb, path)` with the very arguments of the current call, so the recursion does not terminate |
| CallGraphPass.ChildCallDecreases | project2/Project2.cpp:91-115 | on graphs without a late self-edge, every recursive call lowers the measure 2·\|V − (path ∪ {bb})\| + (bb ∈ path ? 0 : 1) |
| CallGraphPass.FindAllPaths | project2/Project2.cpp:91-115 | every call prints at least one report |
| CallGraphPass.FollowSuccessors | project2/Project2.cpp:100-114 | a loop with a successor left to examine prints at least one report |
| CallGraphPass.FindAllPathsMeaningful | project2/Project2.cpp:91-125 | each loop report names a successor of its block, and is followed by a path print of that block whose path holds the successor; each printed path ends at a block that has no successors or has a successor on the path |
| CallGraphPass.FollowSuccessorsMeaningful | project2/Project2.cpp:100-114 | the same, for the reports of the successor loop from any index on |
| CallGraphPass.MainIndex | project2/Project2.cpp:53-61 | `mainF` is the last function named `main`: no later function has that name |
| CallGraphPass.RunOnModule | project2/Project2.cpp:47-89 | the call graph is the opening line, each function's lines in module order, then the closing brace; the CFG and the paths are those of `main`, with the path enumeration starting from its entry block and an empty path |
| PinTracer.WrapAdd | project1/project1.cpp:15-17 | `UINT64` addition is addition modulo 2^64 and stays in range |
| PinTracer.Describe | project1/project1.cpp:139-168 | the description carries the address and mnemonic; the read list has `INS_MaxNumWRegs` entries and the write list `INS_MaxNumRRegs`; entry `i` of either list is `INS_RegR(ins, i)`, so the two lists agree on their common prefix |
| PinTracer.OperandHook | project1/project1.cpp:173-193 | at most one hook per operand, and one exactly when the operand is read or written; it is a read hook iff the operand is read, and carries the operand's number and the entry index |
| PinTracer.MemHooks | project1/project1.cpp:172-195 | the operand loop schedules no more hooks than there are operands |
| PinTracer.MemHooksShape | project1/project1.cpp:172-195 | at most one hook per memory operand, in operand order, each carrying the same entry index; so there are no more hooks than operands |
| PinTracer.MemHooksClassify | project1/project1.cpp:173-193 | operand `k` gets a read hook iff it is read, and a write hook iff it is written but not read; an operand that is neither gets no hook |
| PinTracer.ScheduleMemHooks | project1/project1.cpp:172-195 | the operand loop schedules exactly `MemHooks` |
| PinTracer.AppendEvent | project1/project1.cpp:114 | `insLogs[logIndex] += line` appends the line to that entry's accesses and keeps its header; the number of entries and every other entry are unchanged |
| PinTracer.TotalEventsUpdate | project1/project1.cpp:114 | replacing one entry changes the number of logged accesses by the difference in that entry's accesses |
| PinTracer.TotalEventsAppend | project1/project1.cpp:169 | a new entry adds its accesses to the total |
| PinTracer.StampsUnique | project1/project1.cpp:109-115 | no two logged accesses, in one entry or in two, share a stamp |
| PinTracer.NewEntryKeepsStamps | project1/project1.cpp:169 | pushing a new entry keeps the stamps well formed |
| PinTracer.AppendEventKeepsStamps | project1/project1.cpp:111-115 | stamping a line with the current `order` and then incrementing it keeps the stamps well formed: every stamp is below `order`, stamps increase within an entry, and no stamp is shared between entries |
| PinTracer.Tracer.constructor | project1/project1.cpp:15-23 | the counters and `order` start at zero, the log starts empty, and the gate starts closed |
| PinTracer.Tracer.InRange | project1/project1.cpp:137-138 | the gate of `Instruction`, defined as: the main image is loaded and the address lies in its inclusive range |
| PinTracer.Tracer.ImageLoad | project1/project1.cpp:204-214 | the main image sets the bounds and opens the gate; any other image changes nothing; nothing closes the gate |
| PinTracer.Tracer.Instruction | project1/project1.cpp:128-202 | outside the inclusive range, or before the main image is loaded, nothing is logged and nothing is scheduled; otherwise exactly one entry is appended, even for an address seen before, and the hooks are `MemHooks` of the operands, each carrying the new entry's index `\|insLogs\| − 1`; nothing else changes |
| PinTracer.Tracer.AddMemLog | project1/project1.cpp:111-115 | one line stamped with the old `order` is appended to entry `logIndex`; `order` grows by exactly one; the number of entries, every other entry and that entry's header are unchanged |
| PinTracer.Tracer.RecordMemRead | project1/project1.cpp:117-120 | logs a read line through `addMemLog`; the instruction pointer is unused |
| PinTracer.Tracer.RecordMemWrite | project1/project1.cpp:122-125 | logs a write line through `addMemLog` |
| PinTracer.Tracer.FireMemHook | project1/project1.cpp:174-192 | a fired hook logs, in its own entry, a read or a write matching its kind, with the effective address and size |
| PinTracer.Tracer.CountBbl | project1/project1.cpp:63-67 | one more block and `numInstInBbl` more instructions, both modulo 2^64; nothing else changes |
| PinTracer.Tracer.ThreadStart | project1/project1.cpp:103-106 | one more thread, modulo 2^64; nothing else changes |
| PinTracer.Tracer.Trace | project1/project1.cpp:81-91 | once the main image is loaded there is one `CountBbl` hook per basic block, in order, carrying that block's `UINT32` instruction count, so every hook can be fired; before that there are none; the address range plays no part |
| PinTracer.Tracer.Fini | project1/project1.cpp:223-237 | the report is the counter block, then every entry of `insLogs` exactly once, in insertion order |
| PinTracer.ThreadStarted | project1/project1.cpp:103-214 | after a library image and then the main image load and one thread starts, the gate is open for an address of the main image, the log is empty, `order` is 0, and the counters are 0 instructions, 0 blocks and 1 thread (that the library image alone leaves the gate closed is `Tracer.ImageLoad`'s contract) |
| PinTracer.SingleReadSetup | project1/project1.cpp:128-214 | after a library image, the main image, one thread and one `mov` with a single read operand: one empty entry, one read hook pointing at it, and the counters at 1/1/1 once its block has run |
| PinTracer.SingleReadRun | project1/project1.cpp:223-237 | the report of that run, once the read at `a` fires, is the counter block 1/1/1 and a single entry holding the single line `[0] -r-> a <4>` |
| PinTracer.FirstAddSetup | project1/project1.cpp:172-195 | a written operand and an operand that is neither read nor written give a single write hook |
| PinTracer.RepeatedInstrumentationSetup | project1/project1.cpp:137-169 | instrumenting the same address twice gives two identical entries, each call's hooks pointing at its own entry (a write hook at index 0, a read hook at index 1); the instrumentation of an address outside the image returns no hooks and adds no entry |
| PinTracer.RepeatedInstrumentationRun | project1/project1.cpp:109-115 | firing the second entry's hook before the first one's stamps them 0 and 1 in firing order, each line landing in its own entry |

## Left out

- The Pin and LLVM host APIs (`INS_*`, `IMG_*`, `BBL_*`, `TRACE_*`, `IARG_*`, `PIN_*`, `CallSite`, `stripPointerCasts`, `TerminatorInst`, `inst_iterator`) are replaced by abstract arguments. Their own semantics are not modelled.
- Text formatting is not modelled:
  - the decimal rendering of addresses, stamps and counters;
  - register names (`REG_StringShort`) and the " (float)" suffix;
  - the `.dot` syntax and the `errs()` text.

  Report lines, edges and path prints are records. A printed path is a set of block indices, because `printPath` walks a `std::set<BasicBlock*>` in pointer order. Loop reports carry block indices, not names.
- `main`, `Usage`, knob parsing, the `ofstream` set-up, `PIN_StartProgram`, the `printf` at `project1/project1.cpp:200`, and the `KnobCount` switch that registers the callbacks are I/O and set-up. They are not modelled.
- Concurrency is not modelled. Target threads mutate the counters, `order` and `insLogs` without synchronisation; the model is single-threaded.
- PinTracer.Tracer.AddMemLog: requires `logIndex < |insLogs|`. A hook can only carry an index of an existing entry, and the log never shrinks.
- PinTracer.Tracer: `order` is an `int` in the source and is unbounded here, because signed overflow is undefined behaviour in C++.
- PinTracer.Tracer.Instruction: `insLogs.size() - 1` is passed as a `UINT32`, and the model does not truncate it. The indices are assumed to stay below 2^32.
- PinTracer.Tracer.CountBbl: requires `numInstInBbl < 2^32`, the range of its `UINT32` parameter.
- CallGraphPass.FindAllPaths: requires `NoLateSelfEdge` (no block with a self-edge after a successor other than itself). This is sufficient for termination but not necessary. The source diverges only when a call reached through a block's own self-edge follows a successor off the path before a later self-edge, as `LateSelfEdgeCallsItself` shows. The requirement also excludes graphs on which the source terminates, and the model says nothing about them:
  - a block whose successors before its late self-edge are all on the path whenever it is reached through that self-edge. One example is blocks 0:[1] and 1:[0, 1]. Another is a loop latch `br %c, %header, %self` whose header is always on the path;
  - a late self-edge in a block that is unreachable from the entry block.
- CallGraphPass.RunOnModule: requires a function named `main`, because `mainF` is uninitialised otherwise. It also requires that `main` has an entry block, that its successor indices name its own blocks, and that it has no late self-edge. That requirement also excludes the terminating graphs listed under `FindAllPaths`.
- WordSort.ExchangeSort: requires every word to fit its 50-byte buffer (fewer than 50 bytes, no NUL), because longer words overflow `str[i]` and `temp`. Each `char` of a word stands for one byte (its value is below 256), so `|w|` is `strlen` and the character order is `strcmp`'s unsigned-byte order; multi-byte encodings of non-ASCII text are seen byte by byte, as the C code sees them.
- WordSort.Validate: requires the same of every word, since a string with a NUL inside is not a C string: `strcmp` and `strlen` would stop at the NUL, and a `char` above 255 would not be one byte.
- Reading the words with `scanf`, the prompts, and the output with `puts` are I/O. The words arrive in an array of ten strings.
- `project1/target/target.c` is not part of this model. It is a target program built on `rand()` and floating-point division, with no algorithmic core of its own.
