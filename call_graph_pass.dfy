/** The module pass `Project2`: over a module it writes a call graph (the
    distinct direct callees of every function, in `std::set<std::string>`
    order), the control-flow edges of `main`, and a recursive enumeration of
    the paths of `main` from its entry block.

    The IR is abstract: a function is a name and a list of basic blocks, a
    block is a name, its instructions and the ordered successor list of its
    terminator, given as indices into the function's block list (a block's
    index is its identity, as the `BasicBlock*` pointer is in the pass).
    The two `.dot` streams and `errs()` become returned sequences of lines. */
module CallGraphPass {
  import opened Lexicographic

  /** What a call site calls once pointer casts are stripped: a `Function`
      of the given name, or some other value (an indirect call, inline
      assembly, ...). */
  datatype Callee = FunctionRef(name: string) | NotAFunction

  /** An instruction; only call sites matter to the pass. */
  datatype Inst = CallSite(callee: Callee) | Other

  datatype BasicBlock = BasicBlock(name: string, insts: seq<Inst>, succs: seq<nat>)

  datatype Function = Function(name: string, blocks: seq<BasicBlock>)

  /** Lines of `call_graph.dot`. */
  datatype CallGraphLine = CallGraphOpen | CallEdge(caller: string, callee: string) | CallGraphClose

  /** Lines of `control_flow_graph.dot`. */
  datatype CfgLine = CfgOpen | CfgEdge(from: string, to: string) | CfgClose

  /** What `findAllPaths` writes to `errs()`: a loop back to a block already
      on the path (`[succ] to [from] is a loop`), or a path, printed as the
      set of blocks on it followed by its last block. */
  datatype PathReport = LoopFound(succ: nat, from: nat) | PathPrinted(last: nat, path: set<nat>)

  datatype Option<T> = None | Some(value: T)

  // ---------------------------------------------------------------------
  // Call graph (runOnFunction)
  // ---------------------------------------------------------------------

  /** The instructions of a function in `inst_iterator` order: block by
      block, each block's instructions in order. */
  function Instructions(blocks: seq<BasicBlock>): (r: seq<Inst>)
    ensures forall b, k :: 0 <= b < |blocks| && 0 <= k < |blocks[b].insts| ==> blocks[b].insts[k] in r
    ensures forall i :: i in r ==> exists b :: 0 <= b < |blocks| && i in blocks[b].insts
  {
    if blocks == [] then []
    else
      var r := Instructions(blocks[..|blocks| - 1]) + blocks[|blocks| - 1].insts;
      assert forall b :: 0 <= b < |blocks| - 1 ==> blocks[..|blocks| - 1][b] == blocks[b];
      r
  }

  /** Names of the `Function`s called directly by some call site. */
  ghost function DirectCallees(insts: seq<Inst>): set<string> {
    set k | 0 <= k < |insts| && insts[k].CallSite? && insts[k].callee.FunctionRef? :: insts[k].callee.name
  }

  /** Direct callees of a non-empty instruction list: those of all but the
      last instruction, plus the last one's target if it is a `Function`. */
  lemma DirectCalleesSnoc(insts: seq<Inst>)
    requires insts != []
    ensures DirectCallees(insts) == DirectCallees(insts[..|insts| - 1]) +
      (if insts[|insts| - 1].CallSite? && insts[|insts| - 1].callee.FunctionRef?
       then {insts[|insts| - 1].callee.name} else {})
  {
    var init := insts[..|insts| - 1];
    assert forall k :: 0 <= k < |init| ==> init[k] == insts[k];
  }

  /** The iteration order of a `std::set<std::string>`: strictly ascending. */
  predicate StrictlySorted(s: seq<string>) {
    forall i, j :: 0 <= i < j < |s| ==> Compare(s[i], s[j]) < 0
  }

  /** `x` goes in front of a sorted `s` when it sorts before its head. */
  lemma SortedCons(x: string, s: seq<string>)
    requires StrictlySorted(s)
    requires s != [] ==> Compare(x, s[0]) < 0
    ensures StrictlySorted([x] + s)
  {
    forall j | 0 < j < |s| ensures Compare(x, s[j]) < 0 {
      CompareTransitive(x, s[0], s[j]);
    }
  }

  /** `std::set<std::string>::insert`, on the set's sorted contents: walks
      past the smaller elements and adds `x` unless it is already there. */
  function SetInsert(s: seq<string>, x: string): seq<string> {
    if s == [] then [x]
    else
      var c := Compare(x, s[0]);
      if c < 0 then [x] + s
      else if c == 0 then s
      else [s[0]] + SetInsert(s[1..], x)
  }

  /** Insertion adds exactly `x` to the elements. */
  lemma {:induction false} SetInsertMembers(s: seq<string>, x: string)
    ensures forall y :: y in SetInsert(s, x) <==> y in s || y == x
  {
    if s != [] && Compare(x, s[0]) > 0 {
      SetInsertMembers(s[1..], x);
      assert s == [s[0]] + s[1..];
    }
  }

  /** Inserting into a sorted set keeps it sorted. */
  lemma {:induction false} SetInsertSorted(s: seq<string>, x: string)
    requires StrictlySorted(s)
    ensures StrictlySorted(SetInsert(s, x))
  {
    if s != [] {
      var c := Compare(x, s[0]);
      if c < 0 {
        SortedCons(x, s);
      } else if c > 0 {
        var tail := s[1..];
        SetInsertSorted(tail, x);
        SetInsertMembers(tail, x);
        var rest := SetInsert(tail, x);
        CompareAntisymmetric(x, s[0]);
        assert rest[0] in tail || rest[0] == x;
        assert Compare(s[0], rest[0]) < 0;
        SortedCons(s[0], rest);
      }
    }
  }

  /** Inserting an element that is already in the set changes nothing. */
  lemma {:induction false} SetInsertPresent(s: seq<string>, x: string)
    requires StrictlySorted(s) && x in s
    ensures SetInsert(s, x) == s
  {
    var j :| 0 <= j < |s| && s[j] == x;
    if j > 0 {
      assert Compare(s[0], x) < 0;
      CompareAntisymmetric(s[0], x);
      var tail := s[1..];
      assert tail[j - 1] == x;
      assert StrictlySorted(tail) by {
        forall a, b | 0 <= a < b < |tail| ensures Compare(tail[a], tail[b]) < 0 {
          assert tail[a] == s[a + 1] && tail[b] == s[b + 1];
        }
      }
      SetInsertPresent(tail, x);
      assert s == [s[0]] + tail;
    }
  }

  /** The `callee` set after the first loop of `runOnFunction` has seen
      `insts`, as its sorted contents. */
  function CalleeSet(insts: seq<Inst>): seq<string>
    decreases |insts|
  {
    if insts == [] then []
    else
      var prev := CalleeSet(insts[..|insts| - 1]);
      match insts[|insts| - 1]
      case CallSite(FunctionRef(n)) => SetInsert(prev, n)
      case _ => prev
  }

  /** The set holds exactly the names of the directly called `Function`s,
      each once, in ascending order. */
  lemma {:induction false} CalleeSetCorrect(insts: seq<Inst>)
    ensures StrictlySorted(CalleeSet(insts))
    ensures forall n :: n in CalleeSet(insts) <==> n in DirectCallees(insts)
    decreases |insts|
  {
    if insts != [] {
      var init := insts[..|insts| - 1];
      CalleeSetCorrect(init);
      DirectCalleesSnoc(insts);
      match insts[|insts| - 1]
      case CallSite(FunctionRef(n)) =>
        SetInsertSorted(CalleeSet(init), n);
        SetInsertMembers(CalleeSet(init), n);
      case _ =>
    }
  }

  /** The lines `runOnFunction` writes for one function. */
  function CallLines(f: Function): (r: seq<CallGraphLine>)
    ensures forall l :: l in r ==> l.CallEdge? && l.caller == f.name
  {
    var s := CalleeSet(Instructions(f.blocks));
    seq(|s|, k requires 0 <= k < |s| => CallEdge(f.name, s[k]))
  }

  /** One `F -> callee` line per distinct directly called `Function`, each
      once, in ascending string order; call sites whose target is not a
      `Function` add nothing. */
  lemma CallLinesExact(f: Function)
    ensures forall k :: 0 <= k < |CallLines(f)| ==> CallLines(f)[k].CallEdge? && CallLines(f)[k].caller == f.name
    ensures forall i, j :: 0 <= i < j < |CallLines(f)| ==> Compare(CallLines(f)[i].callee, CallLines(f)[j].callee) < 0
    ensures forall n :: n in DirectCallees(Instructions(f.blocks)) <==>
      exists k :: 0 <= k < |CallLines(f)| && CallLines(f)[k] == CallEdge(f.name, n)
  {
    var callee := CalleeSet(Instructions(f.blocks));
    var lines := CallLines(f);
    CalleeSetCorrect(Instructions(f.blocks));
    forall n | n in DirectCallees(Instructions(f.blocks))
      ensures exists k :: 0 <= k < |lines| && lines[k] == CallEdge(f.name, n)
    {
      var m :| 0 <= m < |callee| && callee[m] == n;
      assert lines[m] == CallEdge(f.name, n);
    }
  }

  /** The first loop of `runOnFunction`: every call site whose target is
      a `Function` inserts that function's name into `callee`. */
  method CollectCallees(insts: seq<Inst>) returns (callee: seq<string>)
    ensures callee == CalleeSet(insts)
  {
    callee := [];
    var i := 0;
    while i < |insts|
      invariant 0 <= i <= |insts|
      invariant callee == CalleeSet(insts[..i])
    {
      assert insts[..i + 1][..i] == insts[..i];
      match insts[i] {
        case CallSite(FunctionRef(n)) =>
          callee := SetInsert(callee, n);
        case _ =>
      }
      i := i + 1;
    }
    assert insts[..i] == insts;
  }

  /** `runOnFunction`: collects the callee set, then writes one line per
      element in the set's order. */
  method RunOnFunction(f: Function) returns (lines: seq<CallGraphLine>)
    ensures lines == CallLines(f)
  {
    var callee := CollectCallees(Instructions(f.blocks));
    lines := [];
    var k := 0;
    while k < |callee|
      invariant 0 <= k <= |callee|
      invariant |lines| == k
      invariant forall m :: 0 <= m < k ==> lines[m] == CallEdge(f.name, callee[m])
    {
      lines := lines + [CallEdge(f.name, callee[k])];
      k := k + 1;
    }
  }

  /** The body of `call_graph.dot`: each function's lines in module order. */
  function CallGraphBody(m: seq<Function>): (r: seq<CallGraphLine>)
    ensures forall l :: l in r ==> l.CallEdge?
  {
    if m == [] then [] else CallGraphBody(m[..|m| - 1]) + CallLines(m[|m| - 1])
  }

  /** `call_graph.dot` has an edge `F -> n` exactly when some function `F`
      of the module calls a `Function` named `n` directly. */
  lemma {:induction false} CallGraphBodyExact(m: seq<Function>, caller: string, n: string)
    ensures CallEdge(caller, n) in CallGraphBody(m) <==>
      exists j :: 0 <= j < |m| && m[j].name == caller && n in DirectCallees(Instructions(m[j].blocks))
    decreases |m|
  {
    if m != [] {
      var init := m[..|m| - 1];
      var last := m[|m| - 1];
      CallGraphBodyExact(init, caller, n);
      CallLinesExact(last);
      assert forall j :: 0 <= j < |init| ==> init[j] == m[j];
      if CallEdge(caller, n) in CallLines(last) {
        var k :| 0 <= k < |CallLines(last)| && CallLines(last)[k] == CallEdge(caller, n);
        assert m[|m| - 1].name == caller && n in DirectCallees(Instructions(m[|m| - 1].blocks));
      }
    }
  }

  // ---------------------------------------------------------------------
  // Control-flow graph of main (runOnModule)
  // ---------------------------------------------------------------------

  /** Every successor index names a block of the same function. */
  predicate ValidBlocks(g: seq<BasicBlock>) {
    forall b, k :: 0 <= b < |g| && 0 <= k < |g[b].succs| ==> g[b].succs[k] < |g|
  }

  /** The edges written for block `b`: one per successor index. */
  function BlockEdges(g: seq<BasicBlock>, b: nat): (r: seq<CfgLine>)
    requires ValidBlocks(g) && b < |g|
    ensures |r| == |g[b].succs|
    ensures forall l :: l in r ==> l.CfgEdge? && l.from == g[b].name
  {
    seq(|g[b].succs|, k requires 0 <= k < |g[b].succs| => CfgEdge(g[b].name, g[g[b].succs[k]].name))
  }

  /** The edges written for the first `n` blocks, in block order. */
  function CfgEdges(g: seq<BasicBlock>, n: nat): (r: seq<CfgLine>)
    requires ValidBlocks(g) && n <= |g|
    ensures |r| == EdgeOffset(g, n)
  {
    if n == 0 then [] else CfgEdges(g, n - 1) + BlockEdges(g, n - 1)
  }

  /** Number of successor entries of the first `n` blocks. */
  function EdgeOffset(g: seq<BasicBlock>, n: nat): nat
    requires n <= |g|
  {
    if n == 0 then 0 else EdgeOffset(g, n - 1) + |g[n - 1].succs|
  }

  /** The CFG has exactly one edge per (block, successor index), and the
      edge for successor `k` of block `b` sits at position
      `EdgeOffset(g, b) + k`: blocks in function order, successors in index
      order, repeated successors giving repeated edges. */
  lemma {:induction false} CfgEdgeAt(g: seq<BasicBlock>, n: nat, b: nat, k: nat)
    requires ValidBlocks(g) && n <= |g|
    requires b < n && k < |g[b].succs|
    ensures |CfgEdges(g, n)| == EdgeOffset(g, n)
    ensures EdgeOffset(g, b) + k < EdgeOffset(g, n)
    ensures CfgEdges(g, n)[EdgeOffset(g, b) + k] == CfgEdge(g[b].name, g[g[b].succs[k]].name)
  {
    if b < n - 1 {
      CfgEdgeAt(g, n - 1, b, k);
    }
  }

  /** The two nested loops of `runOnModule` over the blocks of `main` and
      the successors of each block's terminator. */
  method ControlFlowGraph(mainF: Function) returns (cfg: seq<CfgLine>)
    requires ValidBlocks(mainF.blocks)
    ensures cfg == [CfgOpen] + CfgEdges(mainF.blocks, |mainF.blocks|) + [CfgClose]
  {
    var g := mainF.blocks;
    var edges: seq<CfgLine> := [];
    var b := 0;
    while b < |g|
      invariant 0 <= b <= |g|
      invariant edges == CfgEdges(g, b)
    {
      var idx := 0;
      while idx < |g[b].succs|
        invariant 0 <= idx <= |g[b].succs|
        invariant edges == CfgEdges(g, b) + BlockEdges(g, b)[..idx]
      {
        var successor := g[b].succs[idx];
        assert BlockEdges(g, b)[..idx + 1] == BlockEdges(g, b)[..idx] + [CfgEdge(g[b].name, g[successor].name)];
        edges := edges + [CfgEdge(g[b].name, g[successor].name)];
        idx := idx + 1;
      }
      assert BlockEdges(g, b)[..idx] == BlockEdges(g, b);
      b := b + 1;
    }
    cfg := [CfgOpen] + edges + [CfgClose];
  }

  // ---------------------------------------------------------------------
  // Path enumeration (findAllPaths)
  // ---------------------------------------------------------------------

  /** The block indices of a function. */
  function Blocks(g: seq<BasicBlock>): (v: set<nat>)
    ensures forall b :: b in v <==> 0 <= b < |g|
  {
    if g == [] then {}
    else
      var v := Blocks(g[..|g| - 1]) + {|g| - 1};
      assert forall b :: b in v <==> 0 <= b < |g| - 1 || b == |g| - 1;
      v
  }

  /** No block has a self-edge after a successor other than itself.  This
      is enough for `findAllPaths` to terminate, but more than it needs:
      the recursion diverges only as `LateSelfEdgeCallsItself` shows. */
  predicate NoLateSelfEdge(g: seq<BasicBlock>) {
    forall b, i, j :: 0 <= b < |g| && 0 <= i < j < |g[b].succs| && g[b].succs[j] == b ==> g[b].succs[i] == b
  }

  /** The value of the by-value parameter `path` when the loop of
      `findAllPaths(bb, entry)` reaches successor index `idx`: a recursive
      call is bracketed by `insert(bb)` and `erase(bb)`, so afterwards `bb`
      is gone from `path` even if it was there on entry. */
  function PathAt(g: seq<BasicBlock>, bb: nat, entry: set<nat>, idx: nat): (path: set<nat>)
    requires bb < |g| && idx <= |g[bb].succs|
    ensures path <= entry && entry - path <= {bb}
    decreases idx
  {
    if idx == 0 then entry
    else
      var prev := PathAt(g, bb, entry, idx - 1);
      if g[bb].succs[idx - 1] in prev then prev else (prev + {bb}) - {bb}
  }

  /** The recursive call the loop makes at successor index `idx`, if any:
      a successor already on `path` is a loop and is not followed; any
      other successor is followed with `path` plus `bb`. */
  function ChildCall(g: seq<BasicBlock>, bb: nat, entry: set<nat>, idx: nat): (r: Option<(nat, set<nat>)>)
    requires bb < |g| && idx < |g[bb].succs|
    ensures r.Some? ==> r.value == (g[bb].succs[idx], entry + {bb}) && g[bb].succs[idx] !in entry - {bb}
    ensures r.None? ==> g[bb].succs[idx] in entry
  {
    var path := PathAt(g, bb, entry, idx);
    var s := g[bb].succs[idx];
    assert path + {bb} == entry + {bb} && entry - {bb} <= path;
    if s in path then None else Some((s, path + {bb}))
  }

  /** When `bb` is not on the path on entry (the root call, and every call
      on a successor other than the caller itself), `insert`/`erase` leave
      `path` as it was: every recursive call gets the caller's path plus
      `bb`, on a successor not on the caller's path. */
  lemma {:induction false} PathRestoredOffPath(g: seq<BasicBlock>, bb: nat, entry: set<nat>, idx: nat)
    requires bb < |g| && idx <= |g[bb].succs|
    requires bb !in entry
    ensures PathAt(g, bb, entry, idx) == entry
    ensures idx < |g[bb].succs| ==>
      ChildCall(g, bb, entry, idx) == (if g[bb].succs[idx] in entry then None
                                       else Some((g[bb].succs[idx], entry + {bb})))
  {
    if idx > 0 {
      PathRestoredOffPath(g, bb, entry, idx - 1);
    }
  }

  /** Before the first successor that differs from `bb`, a block's
      self-edges are loops and `path` keeps `bb`. */
  lemma {:induction false} PathKeptBeforeSelfEdge(g: seq<BasicBlock>, bb: nat, entry: set<nat>, idx: nat)
    requires NoLateSelfEdge(g) && bb < |g| && idx < |g[bb].succs|
    requires g[bb].succs[idx] == bb && bb in entry
    ensures PathAt(g, bb, entry, idx) == entry
  {
    if idx > 0 {
      assert g[bb].succs[idx - 1] == bb;
      PathKeptBeforeSelfEdge(g, bb, entry, idx - 1);
    }
  }

  /** The source does not terminate on every graph: if `bb` is on the path
      on entry (it was reached through its own self-edge), a successor `i`
      off the path is followed, which erases `bb`; a later self-edge `j`
      then calls `findAllPaths(bb, path)` with the very arguments of the
      current call, which repeats forever. */
  lemma {:induction false} LateSelfEdgeCallsItself(g: seq<BasicBlock>, bb: nat, entry: set<nat>, i: nat, j: nat)
    requires bb < |g| && i < j < |g[bb].succs|
    requires bb in entry && g[bb].succs[i] !in entry && g[bb].succs[j] == bb
    ensures ChildCall(g, bb, entry, j) == Some((bb, entry))
  {
    ErasedAfterFollow(g, bb, entry, i, j);
    assert (entry - {bb}) + {bb} == entry;
  }

  /** Once a successor has been followed at index `i`, `bb` is off `path`
      for the rest of the loop and the path is the entry path minus `bb`. */
  lemma {:induction false} ErasedAfterFollow(g: seq<BasicBlock>, bb: nat, entry: set<nat>, i: nat, n: nat)
    requires bb < |g| && i < n <= |g[bb].succs|
    requires g[bb].succs[i] !in entry
    ensures PathAt(g, bb, entry, n) == entry - {bb}
  {
    if n - 1 > i {
      ErasedAfterFollow(g, bb, entry, i, n - 1);
    } else {
      assert g[bb].succs[n - 1] !in PathAt(g, bb, entry, n - 1);
    }
  }

  /** The termination measure of `findAllPaths`. */
  function PathMeasure(g: seq<BasicBlock>, bb: nat, path: set<nat>): nat {
    2 * |Blocks(g) - (path + {bb})| + (if bb in path then 0 else 1)
  }

  /** Every recursive call strictly decreases `PathMeasure` when the graph
      has no late self-edge. */
  lemma ChildCallDecreases(g: seq<BasicBlock>, bb: nat, entry: set<nat>, idx: nat)
    requires ValidBlocks(g) && NoLateSelfEdge(g) && bb < |g| && idx < |g[bb].succs|
    requires ChildCall(g, bb, entry, idx).Some?
    ensures PathMeasure(g, ChildCall(g, bb, entry, idx).value.0, ChildCall(g, bb, entry, idx).value.1)
      < PathMeasure(g, bb, entry)
  {
    var path := PathAt(g, bb, entry, idx);
    var s := g[bb].succs[idx];
    assert s < |g|;
    var rest := Blocks(g) - (entry + {bb});
    assert path + {bb} == entry + {bb};
    if s == bb {
      if bb in entry {
        PathKeptBeforeSelfEdge(g, bb, entry, idx);
        assert false;
      }
    } else {
      assert s in rest;
      assert Blocks(g) - (path + {bb} + {s}) == rest - {s};
    }
  }

  /** `findAllPaths(bb, path)`: a block without successors ends a path;
      otherwise each successor is examined in index order. */
  function FindAllPaths(g: seq<BasicBlock>, bb: nat, path: set<nat>): (r: seq<PathReport>)
    requires ValidBlocks(g) && NoLateSelfEdge(g) && bb < |g|
    ensures |r| >= 1
    decreases PathMeasure(g, bb, path), 1, 0
  {
    if |g[bb].succs| == 0 then [PathPrinted(bb, path)]
    else FollowSuccessors(g, bb, path, 0)
  }

  /** The loop of `findAllPaths(bb, entry)` from successor index `idx` on. */
  function FollowSuccessors(g: seq<BasicBlock>, bb: nat, entry: set<nat>, idx: nat): (r: seq<PathReport>)
    requires ValidBlocks(g) && NoLateSelfEdge(g) && bb < |g| && idx <= |g[bb].succs|
    ensures idx < |g[bb].succs| ==> |r| >= 1
    decreases PathMeasure(g, bb, entry), 0, |g[bb].succs| - idx
  {
    if idx == |g[bb].succs| then []
    else
      match ChildCall(g, bb, entry, idx)
      case None =>
        [LoopFound(g[bb].succs[idx], bb), PathPrinted(bb, PathAt(g, bb, entry, idx))]
          + FollowSuccessors(g, bb, entry, idx + 1)
      case Some((s, childPath)) =>
        ChildCallDecreases(g, bb, entry, idx);
        FindAllPaths(g, s, childPath) + FollowSuccessors(g, bb, entry, idx + 1)
  }

  /** What every report means: a loop names a successor of its block that
      is on the path printed right after it; a printed path ends at a
      block that has no successors or that has a successor on the path. */
  ghost predicate ReportsMeaningful(g: seq<BasicBlock>, r: seq<PathReport>) {
    && (forall i :: 0 <= i < |r| && r[i].LoopFound? ==>
          && i + 1 < |r| && r[i + 1].PathPrinted? && r[i + 1].last == r[i].from
          && r[i].succ in r[i + 1].path
          && r[i].from < |g| && r[i].succ in g[r[i].from].succs)
    && (forall i :: 0 <= i < |r| && r[i].PathPrinted? ==>
          && r[i].last < |g|
          && (g[r[i].last].succs == [] || exists s :: s in g[r[i].last].succs && s in r[i].path))
  }

  lemma ReportsMeaningfulConcat(g: seq<BasicBlock>, a: seq<PathReport>, b: seq<PathReport>)
    requires ReportsMeaningful(g, a) && ReportsMeaningful(g, b)
    ensures ReportsMeaningful(g, a + b)
  {
    forall i | 0 <= i < |a + b|
      ensures (a + b)[i] == if i < |a| then a[i] else b[i - |a|]
    {
    }
  }

  /** Every report of `findAllPaths` is meaningful in the sense above. */
  lemma {:induction false} FindAllPathsMeaningful(g: seq<BasicBlock>, bb: nat, path: set<nat>)
    requires ValidBlocks(g) && NoLateSelfEdge(g) && bb < |g|
    ensures ReportsMeaningful(g, FindAllPaths(g, bb, path))
    decreases PathMeasure(g, bb, path), 1, 0
  {
    if |g[bb].succs| > 0 {
      FollowSuccessorsMeaningful(g, bb, path, 0);
    }
  }

  lemma {:induction false} FollowSuccessorsMeaningful(g: seq<BasicBlock>, bb: nat, entry: set<nat>, idx: nat)
    requires ValidBlocks(g) && NoLateSelfEdge(g) && bb < |g| && idx <= |g[bb].succs|
    ensures ReportsMeaningful(g, FollowSuccessors(g, bb, entry, idx))
    decreases PathMeasure(g, bb, entry), 0, |g[bb].succs| - idx
  {
    if idx < |g[bb].succs| {
      FollowSuccessorsMeaningful(g, bb, entry, idx + 1);
      var rest := FollowSuccessors(g, bb, entry, idx + 1);
      match ChildCall(g, bb, entry, idx)
      case None =>
        var s := g[bb].succs[idx];
        var path := PathAt(g, bb, entry, idx);
        assert s in path;
        var head := [LoopFound(s, bb), PathPrinted(bb, path)];
        assert ReportsMeaningful(g, head);
        ReportsMeaningfulConcat(g, head, rest);
      case Some((s, childPath)) =>
        ChildCallDecreases(g, bb, entry, idx);
        FindAllPathsMeaningful(g, s, childPath);
        ReportsMeaningfulConcat(g, FindAllPaths(g, s, childPath), rest);
    }
  }

  // ---------------------------------------------------------------------
  // runOnModule
  // ---------------------------------------------------------------------

  predicate HasMain(m: seq<Function>) {
    exists k :: 0 <= k < |m| && m[k].name == "main"
  }

  /** `mainF`: the last function named `main` (the loop keeps overwriting). */
  function MainIndex(m: seq<Function>): (k: nat)
    requires HasMain(m)
    ensures k < |m| && m[k].name == "main"
    ensures forall j :: k < j < |m| ==> m[j].name != "main"
  {
    if m[|m| - 1].name == "main" then |m| - 1
    else
      var init := m[..|m| - 1];
      assert HasMain(init) by {
        var k :| 0 <= k < |m| && m[k].name == "main";
        assert init[k] == m[k];
      }
      MainIndex(init)
  }

  /** What the path enumeration needs of `main`: an entry block, successor
      indices inside the function, and no late self-edge. */
  predicate Analysable(mainF: Function) {
    |mainF.blocks| > 0 && ValidBlocks(mainF.blocks) && NoLateSelfEdge(mainF.blocks)
  }

  /** `runOnModule`: the call graph of every function, then the CFG of
      `main`, then the paths of `main` from its entry block. */
  method RunOnModule(m: seq<Function>) returns (callGraph: seq<CallGraphLine>, cfg: seq<CfgLine>, paths: seq<PathReport>)
    requires HasMain(m) && Analysable(m[MainIndex(m)])
    ensures callGraph == [CallGraphOpen] + CallGraphBody(m) + [CallGraphClose]
    ensures cfg == [CfgOpen] + CfgEdges(m[MainIndex(m)].blocks, |m[MainIndex(m)].blocks|) + [CfgClose]
    ensures paths == FindAllPaths(m[MainIndex(m)].blocks, 0, {})
  {
    var body: seq<CallGraphLine> := [];
    var mainIdx: nat := 0;
    var k := 0;
    while k < |m|
      invariant 0 <= k <= |m|
      invariant body == CallGraphBody(m[..k])
      invariant HasMain(m[..k]) ==> mainIdx == MainIndex(m[..k])
    {
      var lines := RunOnFunction(m[k]);
      assert m[..k + 1][..k] == m[..k];
      body := body + lines;
      if m[k].name == "main" {
        mainIdx := k;
      } else if HasMain(m[..k + 1]) {
        assert HasMain(m[..k]) by {
          var j :| 0 <= j < k + 1 && m[..k + 1][j].name == "main";
          assert m[..k][j] == m[j];
        }
      }
      k := k + 1;
    }
    assert m[..k] == m;
    callGraph := [CallGraphOpen] + body + [CallGraphClose];
    cfg := ControlFlowGraph(m[mainIdx]);
    paths := FindAllPaths(m[mainIdx].blocks, 0, {});
  }
}
