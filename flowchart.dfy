/**
  The translator from one method's control-flow graph to a Mermaid flowchart.
  The graph is an ordered sequence of basic blocks (the index of a block is its
  position); each block becomes a node `B{i}`, a block with a branch value also
  a decision node `D{i}`, and the successors become edges.

  The statements of the flowchart are kept as values (`Statement`, with node
  identifiers as `NodeId`) and `Render` gives the exact text of each line; the
  lemmas `IdTextEnd` and `IdTextInjective` show that the identifiers compare as
  their texts do, so deciding on `NodeId` values is deciding on the strings the
  generator compares.
 */
module Flowchart {
  import opened Wrappers
  import opened Text
  import opened Escaping

  /** Where a successor edge leads: out of the graph, or to the block at some position. */
  datatype Dest = Exit | ToBlock(index: int)

  /** How a conditional successor is taken: `ControlFlowConditionKind` of the compiler's graph. */
  datatype ConditionKind = NoCondition | WhenFalse | WhenTrue

  /**
    One basic block as the translator reads it: the source text of each operation
    (absent when the operation has no syntax), the branch value (absent when the block
    has none; when present, its optional source text), the condition kind, and the two
    optional successors.
   */
  datatype Block = Block(
    operations: seq<Option<string>>,
    branchValue: Option<Option<string>>,
    conditionKind: ConditionKind,
    fallThrough: Option<Dest>,
    conditional: Option<Dest>)

  // ---------------------------------------------------------------------------
  // Identifiers

  /** A node of the flowchart: `B{i}`, `D{i}`, or the shared `END`. */
  datatype NodeId = BlockRef(index: nat) | DecisionRef(index: nat) | EndRef

  /** The identifier every unresolved destination gets. */
  const EndText := "END"

  /** The text of an identifier. */
  function IdText(n: NodeId): string {
    match n
    case BlockRef(i) => "B" + NatToString(i)
    case DecisionRef(i) => "D" + NatToString(i)
    case EndRef => EndText
  }

  /** Only `END` has the text `END`. */
  lemma IdTextEnd(n: NodeId)
    ensures IdText(n) == EndText <==> n == EndRef
  {
    if n != EndRef {
      assert IdText(n)[0] != EndText[0];
    }
  }

  /** Distinct identifiers have distinct texts. */
  lemma IdTextInjective(m: NodeId, n: NodeId)
    ensures IdText(m) == IdText(n) <==> m == n
  {
    if IdText(m) == IdText(n) {
      IdTextEnd(m);
      IdTextEnd(n);
      if m != EndRef && n != EndRef {
        assert IdText(m)[0] == IdText(n)[0];
        assert IdText(m)[1..] == NatToString(m.index);
        assert IdText(n)[1..] == NatToString(n.index);
        NatToStringInjective(m.index, n.index);
      }
    }
  }

  /** `succ?.Destination`: an absent successor has no destination either. */
  function Destination(succ: Option<Dest>): Dest {
    match succ
    case None => Exit
    case Some(d) => d
  }

  /** A destination that is a block of the graph. */
  predicate InGraph(cfg: seq<Block>, dest: Dest) {
    dest.ToBlock? && 0 <= dest.index < |cfg|
  }

  /**
    The identifier of a destination: `B{index}` for a block of the graph, `END` for
    the exit and for a block that is not in the graph.
   */
  function BlockId(cfg: seq<Block>, dest: Dest): (r: NodeId)
    ensures r == EndRef <==> !InGraph(cfg, dest)
    ensures InGraph(cfg, dest) ==> r == BlockRef(dest.index)
  {
    match dest
    case Exit => EndRef
    case ToBlock(i) => if 0 <= i < |cfg| then BlockRef(i) else EndRef
  }

  /** In text: `END` exactly for a destination outside the graph, `B{index}` for one inside. */
  lemma BlockIdText(cfg: seq<Block>, dest: Dest)
    ensures IdText(BlockId(cfg, dest)) == EndText <==> !InGraph(cfg, dest)
    ensures InGraph(cfg, dest) ==> IdText(BlockId(cfg, dest)) == "B" + NatToString(dest.index)
  {
    IdTextEnd(BlockId(cfg, dest));
  }

  // ---------------------------------------------------------------------------
  // Statements and their text

  /**
    One statement of the flowchart: the node of a block (labelled with its operations),
    the decision node of a block with a branch value (labelled with the branch's source
    text), or an edge, labelled `"true"`, `"false"` or not at all.
   */
  datatype Statement =
    | BlockNode(index: nat, operations: seq<Option<string>>)
    | DecisionNode(index: nat, condition: Option<string>)
    | Edge(source: NodeId, edgeLabel: Option<bool>, target: NodeId)

  /** The text of a statement, exactly as the generator writes it. */
  function Render(st: Statement): string {
    match st
    case BlockNode(i, ops) => IdText(BlockRef(i)) + "[\"" + BlockLabel(i, ops) + "\"]"
    case DecisionNode(i, condition) => IdText(DecisionRef(i)) + "[\"" + ConditionText(condition) + "\"]"
    case Edge(source, None, target) => IdText(source) + " --> " + IdText(target)
    case Edge(source, Some(b), target) =>
      IdText(source) + " -- \"" + (if b then "true" else "false") + "\" --> " + IdText(target)
  }

  function RenderAll(ss: seq<Statement>): (lines: seq<string>)
    ensures |lines| == |ss|
    ensures forall k :: 0 <= k < |ss| ==> lines[k] == Render(ss[k])
  {
    if ss == [] then [] else [Render(ss[0])] + RenderAll(ss[1..])
  }

  lemma {:induction false} RenderAllAppend(a: seq<Statement>, b: seq<Statement>)
    ensures RenderAll(a + b) == RenderAll(a) + RenderAll(b)
  {
    var l, r := RenderAll(a + b), RenderAll(a) + RenderAll(b);
    assert |l| == |r|;
    forall k | 0 <= k < |l| ensures l[k] == r[k] {
      if k < |a| { assert (a + b)[k] == a[k]; } else { assert (a + b)[k] == b[k - |a|]; }
    }
  }

  lemma RenderAllSnoc(ss: seq<Statement>, st: Statement)
    ensures RenderAll(ss + [st]) == RenderAll(ss) + [Render(st)]
  {
    RenderAllAppend(ss, [st]);
  }

  // ---------------------------------------------------------------------------
  // Labels

  /** `op.Syntax?.ToString()?.Trim()`. */
  function TrimmedText(text: Option<string>): Option<string> {
    match text
    case None => None
    case Some(s) => Some(Trim(s))
  }

  /** The trimmed operation texts that are not null or blank, in block order. */
  function OperationTexts(ops: seq<Option<string>>): (r: seq<string>)
    ensures |r| <= |ops|
    ensures forall k :: 0 <= k < |r| ==> !AllWhiteSpace(r[k])
  {
    if ops == [] then []
    else
      var t := TrimmedText(ops[0]);
      (if IsNullOrWhiteSpace(t) then [] else [t.value]) + OperationTexts(ops[1..])
  }

  /** The label of node `B{i}`: the positional name, then the escaped operation texts if there are any. */
  function BlockLabel(i: nat, ops: seq<Option<string>>): string {
    var joined := Join(OperationTexts(ops), "<br/>");
    if IsNullOrWhiteSpace(Some(joined)) then "Block " + NatToString(i)
    else "Block " + NatToString(i) + "<br/>" + Escape(joined)
  }

  /** The label of node `D{i}`: the escaped source text of the branch value, `cond` when it has none. */
  function ConditionText(text: Option<string>): string {
    match text
    case None => "cond"
    case Some(t) => Escape(t)
  }

  /** The label of `B{i}` is what the generator writes with its chain of replacements. */
  lemma BlockLabelAsWritten(i: nat, ops: seq<Option<string>>)
    ensures var joined := Join(OperationTexts(ops), "<br/>");
      BlockLabel(i, ops) ==
        if IsNullOrWhiteSpace(Some(joined)) then "Block " + NatToString(i)
        else "Block " + NatToString(i) + "<br/>" + EscapeAsWritten(joined)
  {
    EscapeAsWrittenIsEscape(Join(OperationTexts(ops), "<br/>"));
  }

  /** The label of `D{i}` is what the generator writes: the replacements applied to the text, or to `cond`. */
  lemma ConditionTextAsWritten(text: Option<string>)
    ensures ConditionText(text) == EscapeAsWritten(text.GetOr("cond"))
  {
    match text
    case Some(t) => EscapeAsWrittenIsEscape(t);
    case None => FallbackAsWritten();
  }

  /** The fallback label `cond` passes through the replacements unchanged. */
  lemma FallbackAsWritten()
    ensures EscapeAsWritten("cond") == "cond"
  {
    var s := "cond";
    assert '"' !in s && '\\' !in s && '\r' !in s && '\n' !in s;
  }

  // ---------------------------------------------------------------------------
  // The statements of one block and of the whole graph

  /** An edge, unless its destination resolved to `END`. */
  function EdgeUnlessEnd(source: NodeId, edgeLabel: Option<bool>, target: NodeId): seq<Statement> {
    if target != EndRef then [Edge(source, edgeLabel, target)] else []
  }

  /** The edges leaving a decision node, by condition kind. */
  function DecisionEdges(did: NodeId, kind: ConditionKind, condDest: NodeId, fallDest: NodeId): seq<Statement> {
    match kind
    case WhenTrue => EdgeUnlessEnd(did, Some(true), condDest) + EdgeUnlessEnd(did, Some(false), fallDest)
    case WhenFalse => EdgeUnlessEnd(did, Some(true), fallDest) + EdgeUnlessEnd(did, Some(false), condDest)
    case NoCondition => EdgeUnlessEnd(did, None, fallDest)
  }

  /** What block `i` contributes to the flowchart. */
  function BlockStatements(cfg: seq<Block>, i: nat): seq<Statement>
    requires i < |cfg|
  {
    var b := cfg[i];
    [BlockNode(i, b.operations)] +
    match b.branchValue
    case Some(text) =>
      var condDest := BlockId(cfg, Destination(b.conditional));
      var fallDest := BlockId(cfg, Destination(b.fallThrough));
      [DecisionNode(i, text), Edge(BlockRef(i), None, DecisionRef(i))]
      + DecisionEdges(DecisionRef(i), b.conditionKind, condDest, fallDest)
    case None =>
      if b.fallThrough.Some? then [Edge(BlockRef(i), None, BlockId(cfg, b.fallThrough.value))] else []
  }

  /** The statements of the first `n` blocks, in index order. */
  function Statements(cfg: seq<Block>, n: nat): seq<Statement>
    requires n <= |cfg|
  {
    if n == 0 then [] else Statements(cfg, n - 1) + BlockStatements(cfg, n - 1)
  }

  /** The two comment lines and the flowchart header. */
  function Header(project: string, docName: string, methodName: string): seq<string> {
    [ "%% Diagram generated automatically (CFG -> Mermaid)",
      "%% Project: " + project + " | File: " + docName + " | Method: " + methodName,
      "flowchart TD" ]
  }

  /** The whole flowchart of a graph, line by line. */
  function MermaidLines(cfg: seq<Block>, project: string, docName: string, methodName: string): seq<string> {
    Header(project, docName, methodName) + RenderAll(Statements(cfg, |cfg|))
  }

  // ---------------------------------------------------------------------------
  // The generator

  /** Writes the flowchart of `cfg` line by line, one block after another. */
  method BuildMermaid(cfg: seq<Block>, project: string, docName: string, methodName: string)
    returns (lines: seq<string>)
    ensures lines == MermaidLines(cfg, project, docName, methodName)
    ensures |lines| >= 3 && lines[..3] == Header(project, docName, methodName)
  {
    lines := [];
    lines := lines + ["%% Diagram generated automatically (CFG -> Mermaid)"];
    lines := lines + ["%% Project: " + project + " | File: " + docName + " | Method: " + methodName];
    lines := lines + ["flowchart TD"];
    assert lines == Header(project, docName, methodName);
    assert RenderAll(Statements(cfg, 0)) == [];

    var i := 0;
    while i < |cfg|
      invariant 0 <= i <= |cfg|
      invariant lines == Header(project, docName, methodName) + RenderAll(Statements(cfg, i))
    {
      var blockLines := EmitBlock(cfg, i);
      RenderAllAppend(Statements(cfg, i), BlockStatements(cfg, i));
      ConcatAssoc(Header(project, docName, methodName), RenderAll(Statements(cfg, i)), blockLines);
      lines := lines + blockLines;
      i := i + 1;
    }
    assert lines[..3] == Header(project, docName, methodName);
  }

  /** The lines of block `i`: its node, then its decision node and edges or its fall-through edge. */
  method EmitBlock(cfg: seq<Block>, i: nat) returns (lines: seq<string>)
    requires i < |cfg|
    ensures lines == RenderAll(BlockStatements(cfg, i))
  {
    var node := BlockNode(i, cfg[i].operations);
    lines := [Render(node)];
    var rest := EmitSuccessors(cfg, i);
    ghost var statements := BlockStatements(cfg, i);
    assert statements == [node] + statements[1..];
    RenderAllAppend([node], statements[1..]);
    lines := lines + rest;
  }

  /** The lines after the node of block `i`: its decision node and edges, or its fall-through edge. */
  method EmitSuccessors(cfg: seq<Block>, i: nat) returns (lines: seq<string>)
    requires i < |cfg|
    ensures lines == RenderAll(BlockStatements(cfg, i)[1..])
  {
    var block := cfg[i];
    var id := BlockRef(i);
    lines := [];
    ghost var emitted: seq<Statement> := [];

    if block.branchValue.Some? {
      var did := DecisionRef(i);
      var decisionNode := DecisionNode(i, block.branchValue.value);
      RenderAllSnoc(emitted, decisionNode);
      lines, emitted := lines + [Render(decisionNode)], emitted + [decisionNode];
      RenderAllSnoc(emitted, Edge(id, None, did));
      lines, emitted := lines + [Render(Edge(id, None, did))], emitted + [Edge(id, None, did)];

      var condDest := BlockId(cfg, Destination(block.conditional));
      var fallDest := BlockId(cfg, Destination(block.fallThrough));
      var edges := EmitDecisionEdges(did, block.conditionKind, condDest, fallDest);
      ghost var decision := DecisionEdges(did, block.conditionKind, condDest, fallDest);
      RenderAllAppend(emitted, decision);
      lines, emitted := lines + edges, emitted + decision;
    } else {
      if block.fallThrough.Some? {
        var edge := Edge(id, None, BlockId(cfg, block.fallThrough.value));
        RenderAllSnoc(emitted, edge);
        lines, emitted := lines + [Render(edge)], emitted + [edge];
      }
    }
    assert emitted == BlockStatements(cfg, i)[1..];
  }

  /** The edges of a decision node: the tie-break between the two successors, skipping `END`. */
  method EmitDecisionEdges(did: NodeId, kind: ConditionKind, condDest: NodeId, fallDest: NodeId)
    returns (lines: seq<string>)
    ensures lines == RenderAll(DecisionEdges(did, kind, condDest, fallDest))
  {
    IdTextEnd(condDest);
    IdTextEnd(fallDest);
    lines := [];
    if kind == WhenTrue {
      if IdText(condDest) != EndText { lines := lines + [Render(Edge(did, Some(true), condDest))]; }
      if IdText(fallDest) != EndText { lines := lines + [Render(Edge(did, Some(false), fallDest))]; }
    } else if kind == WhenFalse {
      if IdText(fallDest) != EndText { lines := lines + [Render(Edge(did, Some(true), fallDest))]; }
      if IdText(condDest) != EndText { lines := lines + [Render(Edge(did, Some(false), condDest))]; }
    } else {
      if IdText(fallDest) != EndText { lines := lines + [Render(Edge(did, None, fallDest))]; }
    }
  }
}
