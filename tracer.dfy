/** The Pin tool `MyPinTool`: while a target program runs it logs, for every
    instruction of the main executable that Pin instruments, a description
    line followed by the memory reads and writes that instruction performs,
    each stamped with a global event number; it also counts executed basic
    blocks, instructions and threads, and prints everything at exit.

    Pin's callbacks become methods of one `Tracer` object holding the tool's
    globals.  What a callback learns from Pin (the image's bounds, the
    instruction's address, its memory operands' read/write flags, ...) is
    passed in as plain arguments.  A call inserted with `INS_InsertCall` or
    `BBL_InsertCall` is returned as a hook value; firing it later, with the
    effective address and size Pin would resolve at run time, is a separate
    method call. */
module PinTracer {

  /** `UINT64` counters wrap around modulo 2^64. */
  const TwoTo64: nat := 0x1_0000_0000_0000_0000
  /** Range of the `UINT32` instruction count handed to `CountBbl`. */
  const TwoTo32: nat := 0x1_0000_0000

  /** Unsigned 64-bit addition: addition modulo 2^64. */
  function WrapAdd(a: nat, b: nat): (r: nat)
    requires a < TwoTo64 && b < TwoTo64
    ensures r == (a + b) % TwoTo64
    ensures r < TwoTo64
  {
    if a + b < TwoTo64 then a + b else a + b - TwoTo64
  }

  /** The direction character of a logged access: 'r' or 'w'. */
  datatype Access = Read | Write

  /** One `[order]  -r/w-> addr <size>` line appended to an entry. */
  datatype MemEvent = MemEvent(stamp: nat, rw: Access, addr: nat, size: nat)

  /** A register as `REG_StringShort` names it, with the `REG_is_fr` flag
      that adds " (float)". */
  datatype Reg = Reg(name: string, isFloat: bool)

  /** The description line of an instruction: address, mnemonic, and the
      register lists printed after " -r->" and " -w->" (a list is not
      printed when it is empty). */
  datatype InsHeader = InsHeader(addr: nat, mnemonic: string, readList: seq<Reg>, writeList: seq<Reg>)

  /** One element of `insLogs`: the description line and the access lines
      appended to it since. */
  datatype LogEntry = LogEntry(header: InsHeader, events: seq<MemEvent>)

  /** What `INS_MemoryOperandIsRead` / `INS_MemoryOperandIsWritten` say of
      one memory operand. */
  datatype MemOperand = MemOperand(isRead: bool, isWritten: bool)

  /** A call inserted before an instruction: `RecordMemRead` or
      `RecordMemWrite` for memory operand `memOp`, carrying the index of the
      instruction's entry in `insLogs`. */
  datatype MemHook = RecordMemReadHook(memOp: nat, logIndex: nat) | RecordMemWriteHook(memOp: nat, logIndex: nat)

  /** A call to `CountBbl` inserted before a basic block of `numIns`
      instructions. */
  datatype BblHook = CountBblHook(numIns: nat)

  /** What `Fini` writes: the banner and counter block, then each entry. */
  datatype ReportLine =
    | Rule
    | Title
    | InstructionCount(n: nat)
    | BasicBlockCount(n: nat)
    | ThreadCount(n: nat)
    | EntryText(entry: LogEntry)

  // ---------------------------------------------------------------------
  // Instruction description
  // ---------------------------------------------------------------------

  /** The description line `Instruction` builds.  `regR[i]` is what
      `INS_RegR(ins, i)` returns.  As written, the " -r->" list has
      `INS_MaxNumWRegs` entries and the " -w->" list `INS_MaxNumRRegs`
      entries (the counts are swapped), and both lists are read with
      `INS_RegR`. */
  function Describe(addr: nat, mnemonic: string, regR: seq<Reg>, maxNumRRegs: nat, maxNumWRegs: nat): (h: InsHeader)
    requires maxNumRRegs <= |regR| && maxNumWRegs <= |regR|
    ensures h.addr == addr && h.mnemonic == mnemonic
    ensures |h.readList| == maxNumWRegs && |h.writeList| == maxNumRRegs
    ensures forall i :: 0 <= i < |h.readList| ==> h.readList[i] == regR[i]
    ensures forall i :: 0 <= i < |h.writeList| ==> h.writeList[i] == regR[i]
    ensures forall i :: 0 <= i < |h.readList| && i < |h.writeList| ==> h.readList[i] == h.writeList[i]
  {
    InsHeader(addr, mnemonic, regR[..maxNumWRegs], regR[..maxNumRRegs])
  }

  // ---------------------------------------------------------------------
  // Hook scheduling
  // ---------------------------------------------------------------------

  /** The hook one memory operand gets: a read hook if the operand is read
      (even when it is also written), else a write hook if it is written,
      else none. */
  function OperandHook(op: MemOperand, memOp: nat, logIndex: nat): (r: seq<MemHook>)
    ensures |r| <= 1
    ensures r != [] <==> op.isRead || op.isWritten
    ensures forall h :: h in r ==> h.memOp == memOp && h.logIndex == logIndex
    ensures forall h :: h in r ==> (h.RecordMemReadHook? <==> op.isRead)
  {
    if op.isRead then [RecordMemReadHook(memOp, logIndex)]
    else if op.isWritten then [RecordMemWriteHook(memOp, logIndex)]
    else []
  }

  /** The hooks scheduled for operands `0 .. |ops| - 1`, in operand order. */
  function MemHooks(ops: seq<MemOperand>, logIndex: nat): (r: seq<MemHook>)
    ensures |r| <= |ops|
    decreases |ops|
  {
    if ops == [] then []
    else MemHooks(ops[..|ops| - 1], logIndex) + OperandHook(ops[|ops| - 1], |ops| - 1, logIndex)
  }

  /** At most one hook per operand, in operand order, all carrying the
      same entry index; so no more hooks than operands. */
  lemma {:induction false} MemHooksShape(ops: seq<MemOperand>, logIndex: nat)
    ensures |MemHooks(ops, logIndex)| <= |ops|
    ensures forall h :: h in MemHooks(ops, logIndex) ==> h.logIndex == logIndex && h.memOp < |ops|
    ensures forall i, j :: 0 <= i < j < |MemHooks(ops, logIndex)| ==>
      MemHooks(ops, logIndex)[i].memOp < MemHooks(ops, logIndex)[j].memOp
    decreases |ops|
  {
    if ops != [] {
      MemHooksShape(ops[..|ops| - 1], logIndex);
    }
  }

  /** Operand `k` gets a read hook exactly when it is read, and a write hook
      exactly when it is written but not read. */
  lemma {:induction false} MemHooksClassify(ops: seq<MemOperand>, logIndex: nat, k: nat)
    requires k < |ops|
    ensures RecordMemReadHook(k, logIndex) in MemHooks(ops, logIndex) <==> ops[k].isRead
    ensures RecordMemWriteHook(k, logIndex) in MemHooks(ops, logIndex) <==> !ops[k].isRead && ops[k].isWritten
    decreases |ops|
  {
    var init := ops[..|ops| - 1];
    MemHooksShape(init, logIndex);
    if k < |ops| - 1 {
      MemHooksClassify(init, logIndex, k);
      assert init[k] == ops[k];
    }
  }

  /** The loop of `Instruction` over the memory operands. */
  method ScheduleMemHooks(ops: seq<MemOperand>, logIndex: nat) returns (hooks: seq<MemHook>)
    ensures hooks == MemHooks(ops, logIndex)
  {
    hooks := [];
    var memOp := 0;
    while memOp < |ops|
      invariant 0 <= memOp <= |ops|
      invariant hooks == MemHooks(ops[..memOp], logIndex)
    {
      assert ops[..memOp + 1][..memOp] == ops[..memOp];
      if ops[memOp].isRead {
        hooks := hooks + [RecordMemReadHook(memOp, logIndex)];
      } else if ops[memOp].isWritten {
        hooks := hooks + [RecordMemWriteHook(memOp, logIndex)];
      }
      memOp := memOp + 1;
    }
    assert ops[..memOp] == ops;
  }

  // ---------------------------------------------------------------------
  // Event stamps
  // ---------------------------------------------------------------------

  /** Number of access lines in all entries. */
  function TotalEvents(logs: seq<LogEntry>): nat {
    if logs == [] then 0 else |logs[0].events| + TotalEvents(logs[1..])
  }

  /** `insLogs[logIndex] += line`. */
  function AppendEvent(logs: seq<LogEntry>, logIndex: nat, e: MemEvent): (r: seq<LogEntry>)
    requires logIndex < |logs|
    ensures |r| == |logs|
    ensures r[logIndex].header == logs[logIndex].header
    ensures r[logIndex].events == logs[logIndex].events + [e]
    ensures forall j :: 0 <= j < |r| && j != logIndex ==> r[j] == logs[j]
  {
    logs[logIndex := logs[logIndex].(events := logs[logIndex].events + [e])]
  }

  /** Replacing one entry changes the total by the difference in events. */
  lemma {:induction false} TotalEventsUpdate(logs: seq<LogEntry>, i: nat, e: LogEntry)
    requires i < |logs|
    ensures TotalEvents(logs[i := e]) + |logs[i].events| == TotalEvents(logs) + |e.events|
    decreases |logs|
  {
    if i > 0 {
      assert logs[i := e][1..] == logs[1..][i - 1 := e];
      TotalEventsUpdate(logs[1..], i - 1, e);
    }
  }

  /** A new entry adds its events to the total. */
  lemma {:induction false} TotalEventsAppend(logs: seq<LogEntry>, e: LogEntry)
    ensures TotalEvents(logs + [e]) == TotalEvents(logs) + |e.events|
    decreases |logs|
  {
    if logs != [] {
      assert (logs + [e])[1..] == logs[1..] + [e];
      TotalEventsAppend(logs[1..], e);
    }
  }

  /** The stamps recorded so far: as many events as `order` says, every
      stamp below `order`, increasing within an entry, and no stamp shared
      by two entries; hence no two events share a stamp. */
  ghost predicate StampsWellFormed(logs: seq<LogEntry>, order: nat) {
    && TotalEvents(logs) == order
    && (forall i, k :: 0 <= i < |logs| && 0 <= k < |logs[i].events| ==> logs[i].events[k].stamp < order)
    && (forall i, k, l :: 0 <= i < |logs| && 0 <= k < l < |logs[i].events| ==>
          logs[i].events[k].stamp < logs[i].events[l].stamp)
    && (forall i, j, k, l :: 0 <= i < j < |logs| && 0 <= k < |logs[i].events| && 0 <= l < |logs[j].events| ==>
          logs[i].events[k].stamp != logs[j].events[l].stamp)
  }

  /** No two recorded events, in one entry or in two, share a stamp. */
  lemma StampsUnique(logs: seq<LogEntry>, order: nat, i: nat, k: nat, j: nat, l: nat)
    requires StampsWellFormed(logs, order)
    requires i < |logs| && k < |logs[i].events| && j < |logs| && l < |logs[j].events|
    requires i != j || k != l
    ensures logs[i].events[k].stamp != logs[j].events[l].stamp
  {
  }

  /** A new entry has no events, so the stamps stay well formed. */
  lemma NewEntryKeepsStamps(logs: seq<LogEntry>, order: nat, h: InsHeader)
    requires StampsWellFormed(logs, order)
    ensures StampsWellFormed(logs + [LogEntry(h, [])], order)
  {
    TotalEventsAppend(logs, LogEntry(h, []));
  }

  /** `addMemLog` stamps the new line with the current `order` and then
      increments it: the stamps stay well formed. */
  lemma AppendEventKeepsStamps(logs: seq<LogEntry>, order: nat, logIndex: nat, rw: Access, addr: nat, size: nat)
    requires StampsWellFormed(logs, order) && logIndex < |logs|
    ensures StampsWellFormed(AppendEvent(logs, logIndex, MemEvent(order, rw, addr, size)), order + 1)
  {
    var e := MemEvent(order, rw, addr, size);
    var entry := logs[logIndex].(events := logs[logIndex].events + [e]);
    var after := AppendEvent(logs, logIndex, e);
    assert after == logs[logIndex := entry];
    TotalEventsUpdate(logs, logIndex, entry);
    forall i, k | 0 <= i < |after| && 0 <= k < |after[i].events|
      ensures after[i].events[k].stamp < order + 1
    {
      if i != logIndex || k < |logs[i].events| {
        assert after[i].events[k] == logs[i].events[k];
      }
    }
    forall i, k, l | 0 <= i < |after| && 0 <= k < l < |after[i].events|
      ensures after[i].events[k].stamp < after[i].events[l].stamp
    {
      assert after[i].events[k] == logs[i].events[k];
      if i != logIndex || l < |logs[i].events| {
        assert after[i].events[l] == logs[i].events[l];
      }
    }
    forall i, j, k, l | 0 <= i < j < |after| && 0 <= k < |after[i].events| && 0 <= l < |after[j].events|
      ensures after[i].events[k].stamp != after[j].events[l].stamp
    {
      if i != logIndex || k < |logs[i].events| {
        assert after[i].events[k] == logs[i].events[k];
      }
      if j != logIndex || l < |logs[j].events| {
        assert after[j].events[l] == logs[j].events[l];
      }
    }
  }

  // ---------------------------------------------------------------------
  // The tool's state and callbacks
  // ---------------------------------------------------------------------

  /** The globals of the tool. */
  class Tracer {
    var insCount: nat
    var bblCount: nat
    var threadCount: nat
    var addrLow: nat
    var addrHigh: nat
    var mainExecLoaded: bool
    var insLogs: seq<LogEntry>
    var order: nat

    /** Counters fit `UINT64`; nothing is logged before the main image is
        loaded; stamps are well formed. */
    ghost predicate Valid()
      reads this
    {
      && insCount < TwoTo64 && bblCount < TwoTo64 && threadCount < TwoTo64
      && (!mainExecLoaded ==> insLogs == [])
      && StampsWellFormed(insLogs, order)
    }

    /** Static initialisation of the globals: all zero, empty log. */
    constructor ()
      ensures Valid()
      ensures insCount == 0 && bblCount == 0 && threadCount == 0
      ensures addrLow == 0 && addrHigh == 0 && !mainExecLoaded
      ensures insLogs == [] && order == 0
    {
      insCount, bblCount, threadCount := 0, 0, 0;
      addrLow, addrHigh, mainExecLoaded := 0, 0, false;
      insLogs, order := [], 0;
    }

    /** The address gate of `Instruction`. */
    predicate InRange(addr: nat)
      reads this
    {
      mainExecLoaded && addrLow <= addr && addr <= addrHigh
    }

    /** `ImageLoad`: for the main executable, record its bounds and open the
        gate; for any other image, change nothing.  Nothing closes the gate. */
    method ImageLoad(isMainExecutable: bool, lowAddress: nat, highAddress: nat)
      requires Valid()
      modifies this
      ensures Valid()
      ensures isMainExecutable ==> addrLow == lowAddress && addrHigh == highAddress && mainExecLoaded
      ensures !isMainExecutable ==>
        addrLow == old(addrLow) && addrHigh == old(addrHigh) && mainExecLoaded == old(mainExecLoaded)
      ensures old(mainExecLoaded) ==> mainExecLoaded
      ensures insCount == old(insCount) && bblCount == old(bblCount) && threadCount == old(threadCount)
      ensures insLogs == old(insLogs) && order == old(order)
    {
      if isMainExecutable {
        addrLow := lowAddress;
        addrHigh := highAddress;
        mainExecLoaded := true;
      }
    }

    /** `Instruction`: an instruction outside the main image's inclusive
        range, or seen before the main image is loaded, is ignored.  Any
        other one appends exactly one new entry (also for an address seen
        before) and schedules its memory hooks, each carrying the index of
        that new entry. */
    method Instruction(addr: nat, mnemonic: string, regR: seq<Reg>, maxNumRRegs: nat, maxNumWRegs: nat,
                       ops: seq<MemOperand>) returns (hooks: seq<MemHook>)
      requires Valid()
      requires maxNumRRegs <= |regR| && maxNumWRegs <= |regR|
      modifies this
      ensures Valid()
      ensures !old(InRange(addr)) ==> insLogs == old(insLogs) && hooks == []
      ensures old(InRange(addr)) ==>
        && insLogs == old(insLogs) + [LogEntry(Describe(addr, mnemonic, regR, maxNumRRegs, maxNumWRegs), [])]
        && hooks == MemHooks(ops, |old(insLogs)|)
      ensures forall h :: h in hooks ==> h.logIndex == |insLogs| - 1
      ensures |hooks| <= |ops|
      ensures insCount == old(insCount) && bblCount == old(bblCount) && threadCount == old(threadCount)
      ensures addrLow == old(addrLow) && addrHigh == old(addrHigh) && mainExecLoaded == old(mainExecLoaded)
      ensures order == old(order)
    {
      hooks := [];
      if mainExecLoaded {
        if addrLow <= addr && addr <= addrHigh {
          var header := Describe(addr, mnemonic, regR, maxNumRRegs, maxNumWRegs);
          NewEntryKeepsStamps(insLogs, order, header);
          insLogs := insLogs + [LogEntry(header, [])];
          hooks := ScheduleMemHooks(ops, |insLogs| - 1);
          MemHooksShape(ops, |insLogs| - 1);
        }
      }
    }

    /** `addMemLog`: appends one line stamped with the current `order` to
        entry `logIndex` and advances `order` by one; no other entry
        changes and no entry is added. */
    method AddMemLog(rw: Access, addr: nat, size: nat, logIndex: nat)
      requires Valid() && logIndex < |insLogs|
      modifies this
      ensures Valid()
      ensures insLogs == AppendEvent(old(insLogs), logIndex, MemEvent(old(order), rw, addr, size))
      ensures |insLogs| == |old(insLogs)|
      ensures forall j :: 0 <= j < |insLogs| && j != logIndex ==> insLogs[j] == old(insLogs[j])
      ensures insLogs[logIndex].header == old(insLogs[logIndex].header)
      ensures insLogs[logIndex].events == old(insLogs[logIndex].events) + [MemEvent(old(order), rw, addr, size)]
      ensures order == old(order) + 1
      ensures insCount == old(insCount) && bblCount == old(bblCount) && threadCount == old(threadCount)
      ensures addrLow == old(addrLow) && addrHigh == old(addrHigh) && mainExecLoaded == old(mainExecLoaded)
    {
      AppendEventKeepsStamps(insLogs, order, logIndex, rw, addr, size);
      insLogs := AppendEvent(insLogs, logIndex, MemEvent(order, rw, addr, size));
      order := order + 1;
    }

    /** `RecordMemRead`: logs a read of `size` bytes at `addr`; the
        instruction pointer `ip` is not used. */
    method RecordMemRead(ip: nat, addr: nat, size: nat, logIndex: nat)
      requires Valid() && logIndex < |insLogs|
      modifies this
      ensures Valid()
      ensures insLogs == AppendEvent(old(insLogs), logIndex, MemEvent(old(order), Read, addr, size))
      ensures order == old(order) + 1
      ensures insCount == old(insCount) && bblCount == old(bblCount) && threadCount == old(threadCount)
      ensures addrLow == old(addrLow) && addrHigh == old(addrHigh) && mainExecLoaded == old(mainExecLoaded)
    {
      AddMemLog(Read, addr, size, logIndex);
    }

    /** `RecordMemWrite`: logs a write of `size` bytes at `addr`. */
    method RecordMemWrite(ip: nat, addr: nat, size: nat, logIndex: nat)
      requires Valid() && logIndex < |insLogs|
      modifies this
      ensures Valid()
      ensures insLogs == AppendEvent(old(insLogs), logIndex, MemEvent(old(order), Write, addr, size))
      ensures order == old(order) + 1
      ensures insCount == old(insCount) && bblCount == old(bblCount) && threadCount == old(threadCount)
      ensures addrLow == old(addrLow) && addrHigh == old(addrHigh) && mainExecLoaded == old(mainExecLoaded)
    {
      AddMemLog(Write, addr, size, logIndex);
    }

    /** Pin running a hook inserted by `Instruction`, with the effective
        address and the access size it resolves for this execution.  The
        hook's entry exists, since `insLogs` never shrinks. */
    method FireMemHook(h: MemHook, ip: nat, effectiveAddr: nat, size: nat)
      requires Valid() && h.logIndex < |insLogs|
      modifies this
      ensures Valid()
      ensures insLogs == AppendEvent(old(insLogs), h.logIndex,
        MemEvent(old(order), if h.RecordMemReadHook? then Read else Write, effectiveAddr, size))
      ensures order == old(order) + 1
      ensures insCount == old(insCount) && bblCount == old(bblCount) && threadCount == old(threadCount)
      ensures addrLow == old(addrLow) && addrHigh == old(addrHigh) && mainExecLoaded == old(mainExecLoaded)
    {
      match h
      case RecordMemReadHook(_, logIndex) => RecordMemRead(ip, effectiveAddr, size, logIndex);
      case RecordMemWriteHook(_, logIndex) => RecordMemWrite(ip, effectiveAddr, size, logIndex);
    }

    /** `CountBbl`: one more basic block and `numInstInBbl` more
        instructions, with `UINT64` wrap-around. */
    method CountBbl(numInstInBbl: nat)
      requires Valid() && numInstInBbl < TwoTo32
      modifies this
      ensures Valid()
      ensures bblCount == WrapAdd(old(bblCount), 1)
      ensures insCount == WrapAdd(old(insCount), numInstInBbl)
      ensures threadCount == old(threadCount)
      ensures insLogs == old(insLogs) && order == old(order)
      ensures addrLow == old(addrLow) && addrHigh == old(addrHigh) && mainExecLoaded == old(mainExecLoaded)
    {
      bblCount := WrapAdd(bblCount, 1);
      insCount := WrapAdd(insCount, numInstInBbl);
    }

    /** `ThreadStart`: one more thread, with `UINT64` wrap-around. */
    method ThreadStart()
      requires Valid()
      modifies this
      ensures Valid()
      ensures threadCount == WrapAdd(old(threadCount), 1)
      ensures insCount == old(insCount) && bblCount == old(bblCount)
      ensures insLogs == old(insLogs) && order == old(order)
      ensures addrLow == old(addrLow) && addrHigh == old(addrHigh) && mainExecLoaded == old(mainExecLoaded)
    {
      threadCount := WrapAdd(threadCount, 1);
    }

    /** `Trace`: once the main image is loaded, one `CountBbl` hook per basic
        block of the trace, in block order, carrying the block's instruction
        count; before that, none.  The address range plays no part. */
    method Trace(numInsPerBbl: seq<nat>) returns (hooks: seq<BblHook>)
      requires forall i :: 0 <= i < |numInsPerBbl| ==> numInsPerBbl[i] < TwoTo32
      ensures mainExecLoaded ==>
        |hooks| == |numInsPerBbl| && forall i :: 0 <= i < |hooks| ==> hooks[i] == CountBblHook(numInsPerBbl[i])
      ensures !mainExecLoaded ==> hooks == []
      ensures forall h :: h in hooks ==> h.numIns < TwoTo32
    {
      hooks := [];
      if mainExecLoaded {
        var i := 0;
        while i < |numInsPerBbl|
          invariant 0 <= i <= |numInsPerBbl|
          invariant |hooks| == i
          invariant forall k :: 0 <= k < i ==> hooks[k] == CountBblHook(numInsPerBbl[k])
        {
          hooks := hooks + [CountBblHook(numInsPerBbl[i])];
          i := i + 1;
        }
      }
    }

    /** `Fini`: the counter block, then every entry of `insLogs` exactly
        once, in insertion order. */
    method Fini() returns (report: seq<ReportLine>)
      ensures |report| == 6 + |insLogs|
      ensures report[..6] == [Rule, Title, InstructionCount(insCount), BasicBlockCount(bblCount),
                              ThreadCount(threadCount), Rule]
      ensures forall i :: 0 <= i < |insLogs| ==> report[6 + i] == EntryText(insLogs[i])
    {
      report := [Rule, Title, InstructionCount(insCount), BasicBlockCount(bblCount), ThreadCount(threadCount), Rule];
      var i := 0;
      while i < |insLogs|
        invariant 0 <= i <= |insLogs|
        invariant |report| == 6 + i
        invariant report[..6] == [Rule, Title, InstructionCount(insCount), BasicBlockCount(bblCount),
                                  ThreadCount(threadCount), Rule]
        invariant forall k :: 0 <= k < i ==> report[6 + k] == EntryText(insLogs[k])
      {
        report := report + [EntryText(insLogs[i])];
        i := i + 1;
      }
    }
  }

  // ---------------------------------------------------------------------
  // Runs of the tool on small targets
  // ---------------------------------------------------------------------

  /** Start-up of a single-threaded target: a library image, which is
      ignored, then the main image at [0x400000, 0x402000], then one
      thread. */
  method ThreadStarted() returns (t: Tracer)
    ensures fresh(t) && t.Valid()
    ensures t.InRange(0x401000) && t.insLogs == [] && t.order == 0
    ensures t.insCount == 0 && t.bblCount == 0 && t.threadCount == 1
  {
    t := new Tracer();
    t.ImageLoad(false, 0x7f00_0000_0000, 0x7f00_0001_0000);
    t.ImageLoad(true, 0x400000, 0x402000);
    t.ThreadStart();
  }

  /** The thread then runs one instrumented `mov` with a single read
      operand, in a basic block executed once. */
  method SingleReadSetup() returns (t: Tracer, memHooks: seq<MemHook>)
    ensures fresh(t) && t.Valid()
    ensures t.insLogs == [LogEntry(InsHeader(0x401000, "mov", [], []), [])] && t.order == 0
    ensures t.insCount == 1 && t.bblCount == 1 && t.threadCount == 1
    ensures memHooks == [RecordMemReadHook(0, 0)]
  {
    t := ThreadStarted();
    memHooks := t.Instruction(0x401000, "mov", [], 0, 0, [MemOperand(true, false)]);
    assert memHooks == MemHooks([MemOperand(true, false)], 0) == [RecordMemReadHook(0, 0)];
    var bblHooks := t.Trace([1]);
    t.CountBbl(bblHooks[0].numIns);
  }

  /** The target above reads four bytes at `a` once: the report counts one
      instruction, one block and one thread, and the entry holds the single
      line `[0]  -r-> a <4>`. */
  method SingleReadRun(a: nat) returns (report: seq<ReportLine>)
    ensures report == [Rule, Title, InstructionCount(1), BasicBlockCount(1), ThreadCount(1), Rule,
                       EntryText(LogEntry(InsHeader(0x401000, "mov", [], []), [MemEvent(0, Read, a, 4)]))]
  {
    var t, memHooks := SingleReadSetup();
    t.FireMemHook(memHooks[0], 0x401000, a, 4);
    assert |t.insLogs| == 1 && t.insLogs[0] == LogEntry(InsHeader(0x401000, "mov", [], []), [MemEvent(0, Read, a, 4)]);
    report := t.Fini();
    assert report[..6] + [report[6]] == report;
  }

  /** The main image at [0x400000, 0x402000] and one instrumented `add`
      whose first memory operand is written and whose second is neither
      read nor written: one entry, one write hook. */
  method FirstAddSetup() returns (t: Tracer, first: seq<MemHook>)
    ensures fresh(t) && t.Valid()
    ensures t.insLogs == [LogEntry(InsHeader(0x401000, "add", [], []), [])] && t.order == 0
    ensures t.InRange(0x401000) && !t.InRange(0x7f00_0000_1000)
    ensures first == [RecordMemWriteHook(0, 0)]
  {
    t := new Tracer();
    t.ImageLoad(true, 0x400000, 0x402000);
    var ops := [MemOperand(false, true), MemOperand(false, false)];
    first := t.Instruction(0x401000, "add", [], 0, 0, ops);
    assert MemHooks(ops[..1], 0) == [RecordMemWriteHook(0, 0)];
    assert first == MemHooks(ops, 0) == [RecordMemWriteHook(0, 0)];
  }

  /** Pin then instruments an instruction outside the main image, which
      gets no entry and no hooks, and the same `add` again (there is no
      de-duplication by address), this time with one operand both read and
      written: a second entry, and a read hook pointing at it. */
  method RepeatedInstrumentationSetup() returns (t: Tracer, first: seq<MemHook>, outside: seq<MemHook>, second: seq<MemHook>)
    ensures fresh(t) && t.Valid()
    ensures |t.insLogs| == 2
    ensures t.insLogs[0] == t.insLogs[1] == LogEntry(InsHeader(0x401000, "add", [], []), [])
    ensures t.order == 0
    ensures first == [RecordMemWriteHook(0, 0)] && second == [RecordMemReadHook(0, 1)]
    ensures outside == []
  {
    t, first := FirstAddSetup();
    outside := t.Instruction(0x7f00_0000_1000, "add", [], 0, 0, [MemOperand(false, true)]);
    second := t.Instruction(0x401000, "add", [], 0, 0, [MemOperand(true, true)]);
    assert second == MemHooks([MemOperand(true, true)], 1) == [RecordMemReadHook(0, 1)];
  }

  /** Firing the second entry's hook before the first one's: each line lands
      in its own entry, and the stamps follow firing order across entries. */
  method RepeatedInstrumentationRun() returns (report: seq<ReportLine>)
    ensures |report| == 8
    ensures report[6] == EntryText(LogEntry(InsHeader(0x401000, "add", [], []), [MemEvent(1, Write, 0x601040, 8)]))
    ensures report[7] == EntryText(LogEntry(InsHeader(0x401000, "add", [], []), [MemEvent(0, Read, 0x601040, 8)]))
  {
    var header := InsHeader(0x401000, "add", [], []);
    var t, first, outside, second := RepeatedInstrumentationSetup();
    t.FireMemHook(second[0], 0x401000, 0x601040, 8);
    assert |t.insLogs| == 2 && t.insLogs[0] == LogEntry(header, []) && t.order == 1;
    assert t.insLogs[1] == LogEntry(header, [MemEvent(0, Read, 0x601040, 8)]);
    t.FireMemHook(first[0], 0x401000, 0x601040, 8);
    assert |t.insLogs| == 2 && t.insLogs[0] == LogEntry(header, [MemEvent(1, Write, 0x601040, 8)]);
    assert t.insLogs[1] == LogEntry(header, [MemEvent(0, Read, 0x601040, 8)]);
    report := t.Fini();
  }
}
