/**
  What the flowchart of a control-flow graph promises: the layout of each block's
  statements, the decision node of a branching block, the tie-break between the two
  successors, the suppression of `END` on decision edges (and only there), and the
  order of the blocks.
 */
module FlowchartProperties {
  import opened Wrappers
  import opened Text
  import opened Escaping
  import opened Flowchart

  /** Number of node statements. */
  function NodeCount(ss: seq<Statement>): nat {
    if ss == [] then 0 else (if ss[0].Edge? then 0 else 1) + NodeCount(ss[1..])
  }

  /** Node statements of a concatenation add up. */
  lemma {:induction false} NodeCountAppend(a: seq<Statement>, b: seq<Statement>)
    ensures NodeCount(a + b) == NodeCount(a) + NodeCount(b)
  {
    if a == [] {
      assert a + b == b;
    } else {
      assert (a + b)[0] == a[0];
      assert (a + b)[1..] == a[1..] + b;
      NodeCountAppend(a[1..], b);
    }
  }

  /** Number of blocks among the first `n` that carry a branch value. */
  function BranchBlockCount(cfg: seq<Block>, n: nat): nat
    requires n <= |cfg|
  {
    if n == 0 then 0 else BranchBlockCount(cfg, n - 1) + (if cfg[n - 1].branchValue.Some? then 1 else 0)
  }

  /** The edges of a decision node leave it, never reach `END`, and hold no node. */
  lemma DecisionEdgesShape(did: NodeId, kind: ConditionKind, condDest: NodeId, fallDest: NodeId)
    ensures var es := DecisionEdges(did, kind, condDest, fallDest);
      && NodeCount(es) == 0
      && forall k :: 0 <= k < |es| ==> es[k].Edge? && es[k].source == did && es[k].target != EndRef
  {
    NodeCountAppend(EdgeUnlessEnd(did, Some(true), condDest), EdgeUnlessEnd(did, Some(false), fallDest));
    NodeCountAppend(EdgeUnlessEnd(did, Some(true), fallDest), EdgeUnlessEnd(did, Some(false), condDest));
  }

  /** The edges of a decision node, by label. */
  lemma DecisionEdgeLabels(did: NodeId, kind: ConditionKind, condDest: NodeId, fallDest: NodeId)
    ensures var es := DecisionEdges(did, kind, condDest, fallDest);
      && (forall x :: Edge(did, Some(true), x) in es <==>
            x != EndRef && ((kind == WhenTrue && x == condDest) || (kind == WhenFalse && x == fallDest)))
      && (forall x :: Edge(did, Some(false), x) in es <==>
            x != EndRef && ((kind == WhenTrue && x == fallDest) || (kind == WhenFalse && x == condDest)))
      && (forall x :: Edge(did, None, x) in es <==> x != EndRef && kind == NoCondition && x == fallDest)
      && (forall j, k ::
            (0 <= j < |es| && 0 <= k < |es| && es[j].Edge? && es[j].edgeLabel == Some(true)
             && es[k].Edge? && es[k].edgeLabel == Some(false)) ==> j < k)
  {
  }

  /** On a decision node, a `"true"` edge comes first and a `"false"` edge last. */
  lemma DecisionEdgeOrder(did: NodeId, kind: ConditionKind, condDest: NodeId, fallDest: NodeId)
    ensures var es := DecisionEdges(did, kind, condDest, fallDest);
      && |es| <= 2
      && (forall k :: 0 <= k < |es| && es[k].edgeLabel == Some(true) ==> k == 0)
      && (forall k :: 0 <= k < |es| && es[k].edgeLabel == Some(false) ==> k == |es| - 1)
      && (forall k :: 0 <= k < |es| ==> es[k].Edge?)
  {
  }

  // ---------------------------------------------------------------------------
  // One block

  /**
    The node statement of `B{i}` comes first; a block with a branch value has exactly
    two node statements (`B{i}`, then `D{i}`), any other block exactly one; all the
    edges follow the node statements.
   */
  lemma {:induction false} BlockLayout(cfg: seq<Block>, i: nat)
    requires i < |cfg|
    ensures var ss := BlockStatements(cfg, i);
      var nodes := if cfg[i].branchValue.Some? then 2 else 1;
      && |ss| >= nodes
      && ss[0] == BlockNode(i, cfg[i].operations)
      && (cfg[i].branchValue.Some? ==> ss[1] == DecisionNode(i, cfg[i].branchValue.value))
      && NodeCount(ss) == nodes
      && (forall k :: 0 <= k < |ss| ==> (!ss[k].Edge? <==> k < nodes))
  {
    var ss := BlockStatements(cfg, i);
    var b := cfg[i];
    var head := [BlockNode(i, b.operations)];
    match b.branchValue
    case Some(text) =>
      var condDest := BlockId(cfg, Destination(b.conditional));
      var fallDest := BlockId(cfg, Destination(b.fallThrough));
      var mid := [DecisionNode(i, text), Edge(BlockRef(i), None, DecisionRef(i))];
      var es := DecisionEdges(DecisionRef(i), b.conditionKind, condDest, fallDest);
      assert ss == head + (mid + es);
      DecisionEdgesShape(DecisionRef(i), b.conditionKind, condDest, fallDest);
      NodeCountAppend(mid, es);
      NodeCountAppend(head, mid + es);
      assert NodeCount(mid) == 1 by {
        assert mid[1..] == [Edge(BlockRef(i), None, DecisionRef(i))];
        assert mid[1..][1..] == [];
      }
      forall k | 0 <= k < |ss| ensures !ss[k].Edge? <==> k < 2 {
        if k >= 3 { assert ss[k] == es[k - 3]; }
      }
    case None =>
      var rest := if b.fallThrough.Some? then [Edge(BlockRef(i), None, BlockId(cfg, b.fallThrough.value))] else [];
      assert ss == head + rest;
      NodeCountAppend(head, rest);
      if rest != [] { assert rest[1..] == []; }
  }

  /**
    After the decision node, `B{i}` is linked to `D{i}` by an unlabelled edge, and every
    later edge of the block leaves `D{i}` and does not target `END`.
   */
  lemma {:induction false} DecisionLayout(cfg: seq<Block>, i: nat)
    requires i < |cfg| && cfg[i].branchValue.Some?
    ensures var ss := BlockStatements(cfg, i);
      && |ss| >= 3
      && ss[1] == DecisionNode(i, cfg[i].branchValue.value)
      && ss[2] == Edge(BlockRef(i), None, DecisionRef(i))
      && (forall k :: 3 <= k < |ss| ==> ss[k].Edge? && ss[k].source == DecisionRef(i) && ss[k].target != EndRef)
      && (forall k :: 0 <= k < |ss| && ss[k].Edge? && ss[k].source == DecisionRef(i) ==> ss[k].target != EndRef)
  {
    var ss := BlockStatements(cfg, i);
    var b := cfg[i];
    var condDest := BlockId(cfg, Destination(b.conditional));
    var fallDest := BlockId(cfg, Destination(b.fallThrough));
    var es := DecisionEdges(DecisionRef(i), b.conditionKind, condDest, fallDest);
    DecisionEdgesShape(DecisionRef(i), b.conditionKind, condDest, fallDest);
    assert ss == [ss[0], ss[1], ss[2]] + es;
    forall k | 3 <= k < |ss| ensures ss[k].Edge? && ss[k].source == DecisionRef(i) && ss[k].target != EndRef {
      assert ss[k] == es[k - 3];
    }
  }

  /**
    The tie-break. With `WhenTrue` the conditional destination gets the `"true"` edge and
    the fall-through destination the `"false"` edge; with `WhenFalse` the other way round;
    with any other kind there is one unlabelled edge, to the fall-through destination.
    An edge whose destination is `END` is not drawn.
   */
  lemma {:induction false} TieBreak(cfg: seq<Block>, i: nat)
    requires i < |cfg| && cfg[i].branchValue.Some?
    ensures var ss := BlockStatements(cfg, i); var b := cfg[i]; var did := DecisionRef(i);
      var condDest := BlockId(cfg, Destination(b.conditional));
      var fallDest := BlockId(cfg, Destination(b.fallThrough));
      && (forall x :: Edge(did, Some(true), x) in ss <==>
            x != EndRef && ((b.conditionKind == WhenTrue && x == condDest) || (b.conditionKind == WhenFalse && x == fallDest)))
      && (forall x :: Edge(did, Some(false), x) in ss <==>
            x != EndRef && ((b.conditionKind == WhenTrue && x == fallDest) || (b.conditionKind == WhenFalse && x == condDest)))
      && (forall x :: Edge(did, None, x) in ss <==> x != EndRef && b.conditionKind == NoCondition && x == fallDest)
  {
    var b := cfg[i];
    var did := DecisionRef(i);
    var condDest := BlockId(cfg, Destination(b.conditional));
    var fallDest := BlockId(cfg, Destination(b.fallThrough));
    var es := DecisionEdges(did, b.conditionKind, condDest, fallDest);
    var head := [BlockNode(i, b.operations), DecisionNode(i, b.branchValue.value), Edge(BlockRef(i), None, did)];
    assert BlockStatements(cfg, i) == head + es;
    DecisionEdgeLabels(did, b.conditionKind, condDest, fallDest);
  }

  /** Within a block, a `"true"` edge is always written before a `"false"` edge. */
  lemma {:induction false} TrueBeforeFalse(cfg: seq<Block>, i: nat)
    requires i < |cfg|
    ensures var ss := BlockStatements(cfg, i);
      forall j, k ::
        (0 <= j < |ss| && 0 <= k < |ss| && ss[j].Edge? && ss[j].edgeLabel == Some(true)
         && ss[k].Edge? && ss[k].edgeLabel == Some(false)) ==> j < k
  {
    var ss := BlockStatements(cfg, i);
    var b := cfg[i];
    if b.branchValue.Some? {
      var did := DecisionRef(i);
      var condDest := BlockId(cfg, Destination(b.conditional));
      var fallDest := BlockId(cfg, Destination(b.fallThrough));
      var es := DecisionEdges(did, b.conditionKind, condDest, fallDest);
      assert ss == [ss[0], ss[1], ss[2]] + es;
      DecisionEdgeOrder(did, b.conditionKind, condDest, fallDest);
      forall j, k | (0 <= j < |ss| && 0 <= k < |ss| && ss[j].Edge? && ss[j].edgeLabel == Some(true)
                     && ss[k].Edge? && ss[k].edgeLabel == Some(false))
        ensures j < k
      {
        assert j >= 3 && k >= 3;
        assert ss[j] == es[j - 3] && ss[k] == es[k - 3];
      }
    } else {
      FallThroughEdge(cfg, i);
    }
  }

  /**
    A block without a branch value has one edge exactly when it has a fall-through
    successor: `B{i} --> X` with `X` its resolved destination, drawn even when `X` is `END`.
   */
  lemma FallThroughEdge(cfg: seq<Block>, i: nat)
    requires i < |cfg| && cfg[i].branchValue.None?
    ensures var ss := BlockStatements(cfg, i); var b := cfg[i];
      && |ss| == (if b.fallThrough.Some? then 2 else 1)
      && (b.fallThrough.Some? ==> ss[1] == Edge(BlockRef(i), None, BlockId(cfg, b.fallThrough.value)))
  {
  }

  /** A plain block whose fall-through leaves the graph still draws `B0 --> END`. */
  lemma FallThroughToExitIsDrawn()
    ensures var cfg := [Block([], None, NoCondition, Some(Exit), None)];
      RenderAll(BlockStatements(cfg, 0))[1] == "B0 --> END"
  {
    var cfg := [Block([], None, NoCondition, Some(Exit), None)];
    assert BlockStatements(cfg, 0)[1] == Edge(BlockRef(0), None, EndRef);
    assert IdText(BlockRef(0)) == "B0" by {
      assert NatToString(0) == "0";
    }
  }

  /** The texts of a concatenation of operations are the texts of each part, in order. */
  lemma {:induction false} OperationTextsAppend(a: seq<Option<string>>, b: seq<Option<string>>)
    ensures OperationTexts(a + b) == OperationTexts(a) + OperationTexts(b)
  {
    if a == [] {
      assert a + b == b;
    } else {
      var t := TrimmedText(a[0]);
      var h := if IsNullOrWhiteSpace(t) then [] else [t.value];
      assert (a + b)[0] == a[0];
      calc {
        OperationTexts(a + b);
        h + OperationTexts((a + b)[1..]);
        { assert (a + b)[1..] == a[1..] + b; }
        h + OperationTexts(a[1..] + b);
        { OperationTextsAppend(a[1..], b); }
        h + (OperationTexts(a[1..]) + OperationTexts(b));
        OperationTexts(a) + OperationTexts(b);
      }
    }
  }

  /** One operation gives its trimmed text, unless the text is null or blank. */
  lemma OperationTextsOne(o: Option<string>)
    ensures OperationTexts([o]) == if IsNullOrWhiteSpace(TrimmedText(o)) then [] else [Trim(o.value)]
  {
    assert [o][1..] == [];
  }

  /** No operation text is left exactly when every operation's trimmed text is null or blank. */
  lemma {:induction false} OperationTextsEmpty(ops: seq<Option<string>>)
    ensures OperationTexts(ops) == [] <==> forall k :: 0 <= k < |ops| ==> IsNullOrWhiteSpace(TrimmedText(ops[k]))
  {
    if ops != [] {
      OperationTextsEmpty(ops[1..]);
      assert forall k :: 1 <= k < |ops| ==> ops[k] == ops[1..][k - 1];
    }
  }

  /**
    The label of `B{i}` is `Block {i}` when no operation text is left after trimming and
    dropping blank texts, and otherwise `Block {i}<br/>` followed by the escaped texts,
    joined by `<br/>`.
   */
  lemma BlockLabelShape(i: nat, ops: seq<Option<string>>)
    ensures OperationTexts(ops) == [] ==> BlockLabel(i, ops) == "Block " + NatToString(i)
    ensures OperationTexts(ops) != [] ==>
      BlockLabel(i, ops) == "Block " + NatToString(i) + "<br/>" + Join(EscapeAll(OperationTexts(ops)), "<br/>")
  {
    var texts := OperationTexts(ops);
    var joined := Join(texts, "<br/>");
    if texts != [] {
      JoinNotBlank(texts, "<br/>");
      LineBreakEscaped();
      EscapeJoin(texts, "<br/>");
    } else {
      assert AllWhiteSpace(joined);
    }
  }

  /** The separator `<br/>` holds no character the escaper rewrites. */
  lemma LineBreakEscaped()
    ensures Escaped("<br/>")
  {
    var sep := "<br/>";
    assert forall k :: 0 <= k < |sep| ==> !IsSpecial(sep[k]);
  }

  /** Two blocks of the graph get the same identifier only when they are the same block, and none gets `END`. */
  lemma BlockIdDistinct(cfg: seq<Block>, i: int, j: int)
    requires 0 <= i < |cfg| && 0 <= j < |cfg|
    ensures IdText(BlockId(cfg, ToBlock(i))) == IdText(BlockId(cfg, ToBlock(j))) <==> i == j
    ensures IdText(BlockId(cfg, ToBlock(i))) != EndText
  {
    IdTextInjective(BlockId(cfg, ToBlock(i)), BlockId(cfg, ToBlock(j)));
    BlockIdText(cfg, ToBlock(i));
  }

  // ---------------------------------------------------------------------------
  // The whole graph

  /** The blocks are emitted in index order: the statements of the first `i` blocks are a prefix of those of the first `j`. */
  lemma {:induction false} StatementsInIndexOrder(cfg: seq<Block>, i: nat, j: nat)
    requires i <= j <= |cfg|
    ensures |Statements(cfg, i)| <= |Statements(cfg, j)|
    ensures Statements(cfg, j)[..|Statements(cfg, i)|] == Statements(cfg, i)
  {
    if i < j {
      StatementsInIndexOrder(cfg, i, j - 1);
      PrefixOfAppend(Statements(cfg, j - 1), BlockStatements(cfg, j - 1), |Statements(cfg, i)|);
    }
  }

  /** The statements of block `i` follow those of the blocks before it. */
  lemma BlockStatementsAt(cfg: seq<Block>, i: nat)
    requires i < |cfg|
    ensures var p := Statements(cfg, i);
      Statements(cfg, i + 1)[|p|..] == BlockStatements(cfg, i)
  {
  }

  /** A block gives two nodes when it carries a branch value and one otherwise. */
  lemma BlockNodeCount(cfg: seq<Block>, i: nat)
    requires i < |cfg|
    ensures NodeCount(BlockStatements(cfg, i)) == if cfg[i].branchValue.Some? then 2 else 1
  {
    BlockLayout(cfg, i);
  }

  /** The flowchart has one node per block plus one decision node per block with a branch value. */
  lemma {:induction false} DiagramNodeCount(cfg: seq<Block>, n: nat)
    requires n <= |cfg|
    ensures NodeCount(Statements(cfg, n)) == n + BranchBlockCount(cfg, n)
  {
    if n > 0 {
      var before, block := Statements(cfg, n - 1), BlockStatements(cfg, n - 1);
      DiagramNodeCount(cfg, n - 1);
      BlockNodeCount(cfg, n - 1);
      NodeCountAppend(before, block);
      assert NodeCount(Statements(cfg, n)) == NodeCount(before) + NodeCount(block);
    }
  }

  /** The property `EndOnlyAfterPlainBlocks` states, for one sequence of statements. */
  predicate EndEdgesFromBlocks(ss: seq<Statement>) {
    forall k :: 0 <= k < |ss| && ss[k].Edge? && ss[k].target == EndRef ==>
      ss[k].edgeLabel == None && ss[k].source.BlockRef?
  }

  /** The property holds of a concatenation when it holds of both parts. */
  lemma EdgesToEndAppend(p: seq<Statement>, q: seq<Statement>)
    requires EndEdgesFromBlocks(p) && EndEdgesFromBlocks(q)
    ensures EndEdgesFromBlocks(p + q)
  {
    forall k | 0 <= k < |p + q| && (p + q)[k].Edge? && (p + q)[k].target == EndRef
      ensures (p + q)[k].edgeLabel == None && (p + q)[k].source.BlockRef?
    {
      if k < |p| { assert (p + q)[k] == p[k]; } else { assert (p + q)[k] == q[k - |p|]; }
    }
  }

  /** Within one block, an edge to `END` is the unlabelled fall-through edge of `B{i}`. */
  lemma BlockEndEdges(cfg: seq<Block>, i: nat)
    requires i < |cfg|
    ensures var bs := BlockStatements(cfg, i);
      forall k :: 0 <= k < |bs| && bs[k].Edge? && bs[k].target == EndRef ==> bs[k] == Edge(BlockRef(i), None, EndRef)
    ensures EndEdgesFromBlocks(BlockStatements(cfg, i))
  {
    BlockLayout(cfg, i);
    if cfg[i].branchValue.Some? {
      DecisionLayout(cfg, i);
    } else {
      FallThroughEdge(cfg, i);
    }
  }

  /**
    `END` appears only as the target of an unlabelled edge leaving a block node `B{i}`:
    no decision edge is ever drawn to it.
   */
  lemma {:induction false} EndOnlyAfterPlainBlocks(cfg: seq<Block>, n: nat)
    requires n <= |cfg|
    ensures EndEdgesFromBlocks(Statements(cfg, n))
  {
    if n > 0 {
      var before := Statements(cfg, n - 1);
      EndOnlyAfterPlainBlocks(cfg, n - 1);
      BlockEndEdges(cfg, n - 1);
      EdgesToEndAppend(before, BlockStatements(cfg, n - 1));
      assert Statements(cfg, n) == before + BlockStatements(cfg, n - 1);
    }
  }

  // ---------------------------------------------------------------------------
  // Two complete methods

  /** The identifiers of the first blocks, as text. */
  lemma SmallNumbers()
    ensures IdText(BlockRef(0)) == "B0" && IdText(BlockRef(1)) == "B1"
    ensures IdText(BlockRef(2)) == "B2" && IdText(BlockRef(3)) == "B3"
    ensures IdText(DecisionRef(1)) == "D1"
  {
    SmallDigits();
  }

  /** The decimal texts of the first four numbers. */
  lemma SmallDigits()
    ensures NatToString(0) == "0" && NatToString(1) == "1" && NatToString(2) == "2" && NatToString(3) == "3"
  {
  }

  /** The label of a block without operations is `Block {i}`. */
  lemma EmptyBlockLabel(i: nat)
    ensures BlockLabel(i, []) == "Block " + NatToString(i)
  {
    assert OperationTexts([]) == [];
    assert Join([], "<br/>") == "";
  }

  /** Block 0 falls through to block 1, which ends the method. */
  function StraightLineGraph(): seq<Block> {
    [Block([], None, NoCondition, Some(ToBlock(1)), None), Block([], None, NoCondition, None, None)]
  }

  /** The straight line gives two nodes and one edge, and no decision node. */
  lemma StraightLineStatements()
    ensures Statements(StraightLineGraph(), 2) ==
      [BlockNode(0, []), Edge(BlockRef(0), None, BlockRef(1)), BlockNode(1, [])]
  {
    var cfg := StraightLineGraph();
    assert BlockStatements(cfg, 0) == [BlockNode(0, []), Edge(BlockRef(0), None, BlockRef(1))];
    assert BlockStatements(cfg, 1) == [BlockNode(1, [])];
  }

  /** The straight line is written as its two node lines around the edge line. */
  lemma StraightLineMethod()
    ensures RenderAll(Statements(StraightLineGraph(), 2)) == [ "B0[\"Block 0\"]", "B0 --> B1", "B1[\"Block 1\"]" ]
  {
    StraightLineStatements();
    FirstEmptyNode();
    SecondEmptyNode();
    StraightLineEdge();
  }

  /** The node of block 0, which has no operations. */
  lemma FirstEmptyNode()
    ensures Render(BlockNode(0, [])) == "B0[\"Block 0\"]"
  {
    EmptyBlockNode(0);
    SmallDigits();
  }

  /** The node of block 1, which has no operations. */
  lemma SecondEmptyNode()
    ensures Render(BlockNode(1, [])) == "B1[\"Block 1\"]"
  {
    EmptyBlockNode(1);
    SmallDigits();
  }

  /** The node of a block without operations. */
  lemma EmptyBlockNode(i: nat)
    ensures Render(BlockNode(i, [])) == "B" + NatToString(i) + "[\"Block " + NatToString(i) + "\"]"
  {
    EmptyBlockLabel(i);
  }

  /** The fall-through edge of block 0, as text. */
  lemma StraightLineEdge()
    ensures Render(Edge(BlockRef(0), None, BlockRef(1))) == "B0 --> B1"
  {
    SmallNumbers();
  }

  /**
    A single `if`: block 1 branches on `condition` (jumping to block 3 when it is false,
    falling through to block 2 otherwise).
   */
  function SingleIfGraph(condition: string): seq<Block> {
    [ Block([], None, NoCondition, Some(ToBlock(1)), None),
      Block([], Some(Some(condition)), WhenFalse, Some(ToBlock(2)), Some(ToBlock(3))),
      Block([], None, NoCondition, Some(ToBlock(3)), None),
      Block([], None, NoCondition, None, None) ]
  }

  /** Block 1 of the single `if` gives its node, its decision node, the link between them and two labelled edges. */
  lemma SingleIfStatements(condition: string)
    ensures BlockStatements(SingleIfGraph(condition), 1) ==
      [ BlockNode(1, []), DecisionNode(1, Some(condition)), Edge(BlockRef(1), None, DecisionRef(1)),
        Edge(DecisionRef(1), Some(true), BlockRef(2)), Edge(DecisionRef(1), Some(false), BlockRef(3)) ]
  {
  }

  /**
    The decision node `D1` of the single `if` is labelled with the condition and gets
    exactly the two labelled edges, `"true"` to the fall-through block and `"false"` to
    the jump target.
   */
  lemma SingleIfMethod(condition: string)
    requires Escaped(condition)
    ensures RenderAll(BlockStatements(SingleIfGraph(condition), 1)) ==
      [ "B1[\"Block 1\"]", "D1[\"" + condition + "\"]", "B1 --> D1", "D1 -- \"true\" --> B2", "D1 -- \"false\" --> B3" ]
  {
    SingleIfStatements(condition);
    SecondEmptyNode();
    SingleIfDecisionNode(condition);
    SingleIfLink();
    SingleIfTrueEdge();
    SingleIfFalseEdge();
  }

  /** The decision node of block 1 shows the condition as it is. */
  lemma SingleIfDecisionNode(condition: string)
    requires Escaped(condition)
    ensures Render(DecisionNode(1, Some(condition))) == "D1[\"" + condition + "\"]"
  {
    SmallNumbers();
    EscapePlain(condition);
  }

  /** The link from block 1 to its decision node, as text. */
  lemma SingleIfLink()
    ensures Render(Edge(BlockRef(1), None, DecisionRef(1))) == "B1 --> D1"
  {
    SmallNumbers();
  }

  /** The `"true"` edge of the decision node, as text. */
  lemma SingleIfTrueEdge()
    ensures Render(Edge(DecisionRef(1), Some(true), BlockRef(2))) == "D1 -- \"true\" --> B2"
  {
    SmallNumbers();
  }

  /** The `"false"` edge of the decision node, as text. */
  lemma SingleIfFalseEdge()
    ensures Render(Edge(DecisionRef(1), Some(false), BlockRef(3))) == "D1 -- \"false\" --> B3"
  {
    SmallNumbers();
  }

  /** The condition `x > 0` is written as it is. */
  lemma ConditionOfSingleIf()
    ensures ConditionText(Some("x > 0")) == "x > 0"
  {
    var s := "x > 0";
    assert Escaped(s) by {
      assert forall k :: 0 <= k < |s| ==> !IsSpecial(s[k]);
    }
    EscapePlain(s);
  }
}
