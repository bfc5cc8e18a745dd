# Code-Flow-IO text generation, modelled in Dafny

Code-Flow-IO (`cfg2mmd`) is a command-line tool. It opens a .NET solution and builds
the compiler's control-flow graph of every method. It writes each graph as a Mermaid
flowchart (`.mmd`). A separate architecture flowchart links the tool's processing
chain to the projects, documents, classes and methods of the solution, and a
Markdown page embeds it.

This project models the parts of `Program.cs` that produce text:

- the label escaper `Escape`;
- the successor resolver `BlockId`;
- the graph-to-flowchart translator `BuildMermaid`;
- the text building of the architecture flowchart and of its Markdown page in
  `GenerateArchitectureDocuments`;
- the stem of each method's artifact files;
- the argument checks at the top of `Main`.

Each text-producing loop of the generator is a Dafny `method` with a loop that grows a
`seq<string>` of lines, one element per `AppendLine`. That method is proved equal to a
specification function. The properties are proved about those functions.

Modules:

- `Wrappers`: `Option`.
- `Text`: the .NET string operations the generator uses. These are `Replace` with a
  single character, `Trim` with `Char.IsWhiteSpace`, `string.Join`, and decimal
  formatting of a number.
- `Escaping` and `EscapingExample`: the escaper and worked examples of it.
- `Flowchart` and `FlowchartProperties`: `BlockId` and `BuildMermaid`. A basic block is
  a `Block` value. It holds:
  - the source texts of its operations;
  - an optional branch value with optional source text;
  - the condition kind;
  - two optional successors, each `Exit | ToBlock(i)`.

  The lines are built from `Statement` values. `Render` gives the exact text of each.
- `Architecture` and `ArchitectureProperties`: the architecture flowchart and the Markdown
  page. The syntax trees are given as values. Each document has an optional root that
  lists its types (each a name and the names of its methods that have a body) and its
  top-level method names. The lines are built from `ArchLine` values and rendered by
  `RenderLine`.
- `Cli`: the argument checks, the project filter and the artifact stem.

Notes on how the code was followed:

- `Escape` is defined as a character-by-character map. `EscapeAsWritten` is the chain
  of four `Replace` calls that the generator writes, and `Escaping.EscapeAsWrittenIsEscape`
  proves the two equal on every text.
- A block without a branch value draws its fall-through edge even when the destination
  resolves to `END` (`Program.cs:244-247`). Only the edges of a decision node skip `END`.
- The unit test of `Escape` (`tests/Rest.Code-Flow-io.Tests/ProgramTests.cs:12`) expects a
  backslash and `n` where the input has a line feed. The code writes `<br/>`, and the model
  follows the code. `EscapingExample.LineFeedBecomesBreak` states the difference.
- The architecture flowchart lists every project of the solution, whatever `--project`
  says (`Program.cs:312`). The Markdown page also lists every project (`Program.cs:413-416`).
- The project node replaces spaces in the escaped name by `_`; the `.mmd` node of the
  pipeline does not (`Program.cs:315` and `:394`).
- The artifact stem maps a space and a dot both to `_`. Two projects whose names differ
  only there therefore write the same files (`Cli.ArtifactStemConflates`).

## Model

| member | source | states |
|---|---|---|
| Text.ReplaceChar | src/Rest.Code-Flow-io/Program.cs:270-274 | `string.Replace` of one character: the result no longer holds the character when the replacement lacks it, and a text without the character is returned unchanged |
| Text.ReplaceCharAppend | src/Rest.Code-Flow-io/Program.cs:270-274 | replacing inside a concatenation replaces inside each part |
| Text.ReplaceCharPointwise | src/Rest.Code-Flow-io/Program.cs:97-100 | a one-character replacement keeps the length and changes exactly the positions that held the character |
| Text.LeadingWhiteSpace | src/Rest.Code-Flow-io/Program.cs:209-210 | the white space that opens a text: all of it is white space, and the character after it is not |
| Text.TrailingWhiteSpace | src/Rest.Code-Flow-io/Program.cs:209-210 | the white space that closes a text: all of it is white space, and the character before it is not |
| Text.TrimStart | src/Rest.Code-Flow-io/Program.cs:209-210 | the result is a suffix of the input that does not start with white space, and everything removed is white space |
| Text.TrimEnd | src/Rest.Code-Flow-io/Program.cs:209-210 | the result is a prefix of the input that does not end with white space, and everything removed is white space |
| Text.Trim | src/Rest.Code-Flow-io/Program.cs:209-210 | the trimmed text starts and ends with a non-white-space character, and it is empty exactly when the input is all white space |
| Text.TrimBlank | src/Rest.Code-Flow-io/Program.cs:209-210 | trimming both ends empties a text exactly when the text is all white space |
| Text.TrimSlice | src/Rest.Code-Flow-io/Program.cs:209-210 | the trimmed text is the slice of the input between a start and an end index, and everything before the start and after the end is white space |
| Text.JoinNotBlank | src/Rest.Code-Flow-io/Program.cs:207-213 | a join whose first part is not blank is not blank, so `IsNullOrWhiteSpace(ops)` holds exactly when no operation text is left |
| Text.NatToString | src/Rest.Code-Flow-io/Program.cs:205 | the decimal text of an index is non-empty and made of digits |
| Text.ParseNatToString | src/Rest.Code-Flow-io/Program.cs:205 | reading back the decimal text of a number gives the number |
| Text.NatToStringInjective | src/Rest.Code-Flow-io/Program.cs:205 | two numbers have the same decimal text exactly when they are equal |
| Text.DigitRoundTrip | src/Rest.Code-Flow-io/Program.cs:205 | each digit character reads back as its value |
| Escaping.EscapeNullable | src/Rest.Code-Flow-io/Program.cs:267-275 | `null` and `""` both give `""`; any other text gives the chain of four replacements |
| Escaping.Escape | src/Rest.Code-Flow-io/Program.cs:267-275 | definition, no contract of its own: each character mapped to its escape; `EscapeAsWrittenIsEscape`, `EscapeMapping`, `EscapeAlphabet` and `EscapeIdempotent` state it |
| Escaping.EscapeOneChar | src/Rest.Code-Flow-io/Program.cs:270-274 | on one character, the four replacements give that character's escape |
| Escaping.EscapeAsWrittenIsEscape | src/Rest.Code-Flow-io/Program.cs:267-275 | the chain of four replacements, in the generator's order, equals escaping each character on its own |
| Escaping.EscapeMapping | src/Rest.Code-Flow-io/Program.cs:270-274 | a quote becomes an apostrophe, a backslash a slash, CR a space, LF `<br/>`; every other character is kept |
| Escaping.EscapeAppend | src/Rest.Code-Flow-io/Program.cs:267-275 | escaping distributes over concatenation |
| Escaping.EscapeLength | src/Rest.Code-Flow-io/Program.cs:267-275 | the output is four characters longer per line feed and otherwise as long as the input |
| Escaping.EscapeAlphabet | src/Rest.Code-Flow-io/Program.cs:267-275 | the output holds no quote, backslash, CR or LF |
| Escaping.EscapePlain | src/Rest.Code-Flow-io/Program.cs:267-275 | a text without those four characters is left as it is |
| Escaping.EscapeIdempotent | src/Rest.Code-Flow-io/Program.cs:267-275 | escaping twice is escaping once |
| Escaping.EscapeEmpty | src/Rest.Code-Flow-io/Program.cs:269 | the empty and the absent text give `""` |
| Escaping.EscapeAll | src/Rest.Code-Flow-io/Program.cs:213 | each text is escaped on its own, and the length and order are kept |
| Escaping.EscapeJoin | src/Rest.Code-Flow-io/Program.cs:207-213 | with a separator free of special characters, escaping a join is joining the escaped parts |
| EscapingExample.QuotesBecomeApostrophes | tests/Rest.Code-Flow-io.Tests/ProgramTests.cs:8-15 | the quoted word of the unit-test input keeps its letters and its quotes become apostrophes |
| EscapingExample.BackslashAndCarriageReturn | tests/Rest.Code-Flow-io.Tests/ProgramTests.cs:8-15 | the backslash of the test input becomes a slash, and the carriage return a space |
| EscapingExample.LineFeedBecomesBreak | tests/Rest.Code-Flow-io.Tests/ProgramTests.cs:11-12 | the line feed of the test input becomes `<br/>`, not the backslash-`n` the test expects |
| EscapingExample.LineFeedBetweenPlainTexts | src/Rest.Code-Flow-io/Program.cs:274 | around a line feed, plain text is kept as it is |
| Flowchart.IdTextEnd | src/Rest.Code-Flow-io/Program.cs:227-247 | only the exit sentinel has the text `END`, so the generator's `!= "END"` tests are tests on the identifier |
| Flowchart.IdTextInjective | src/Rest.Code-Flow-io/Program.cs:205-219 | distinct node identifiers `B{i}`, `D{i}`, `END` have distinct texts |
| Flowchart.BlockId | src/Rest.Code-Flow-io/Program.cs:257-262 | the result is `END` exactly when the destination is absent or not a block of the graph; otherwise it is the block's own identifier |
| Flowchart.BlockIdText | src/Rest.Code-Flow-io/Program.cs:257-262 | in text: `END` exactly for a destination outside the graph, `B` followed by the index for a block of the graph |
| Flowchart.RenderAll | src/Rest.Code-Flow-io/Program.cs:214-247 | one line per statement, in order, each the statement's text |
| Flowchart.RenderAllAppend | src/Rest.Code-Flow-io/Program.cs:201-249 | the lines of a concatenation are the lines of both parts |
| Flowchart.OperationTexts | src/Rest.Code-Flow-io/Program.cs:207-210 | no kept operation text is blank, and there are at most as many as operations; `FlowchartProperties.OperationTextsOne`, `OperationTextsAppend` and `OperationTextsEmpty` give which are kept |
| Flowchart.BlockLabel | src/Rest.Code-Flow-io/Program.cs:207-213 | definition, no contract of its own: `Block {i}`, followed by `<br/>` and the escaped joined operation texts when any are left; `FlowchartProperties.BlockLabelShape` and `Flowchart.BlockLabelAsWritten` state it |
| Flowchart.ConditionText | src/Rest.Code-Flow-io/Program.cs:218 | definition, no contract of its own: the escaped branch text, `cond` when there is none; `Flowchart.ConditionTextAsWritten` states it |
| Flowchart.DecisionEdges | src/Rest.Code-Flow-io/Program.cs:224-240 | definition, no contract of its own: the edges of a decision node by condition kind, `END` left out; `FlowchartProperties.DecisionEdgeLabels`, `TieBreak` and `DecisionEdgesShape` state it |
| Flowchart.BlockStatements | src/Rest.Code-Flow-io/Program.cs:204-248 | definition, no contract of its own: the statements of block `i`; `FlowchartProperties.BlockLayout`, `DecisionLayout`, `FallThroughEdge` and `BlockEndEdges` state them |
| Flowchart.BlockLabelAsWritten | src/Rest.Code-Flow-io/Program.cs:207-213 | the block label equals the generator's form with the chain of replacements applied to the joined texts |
| Flowchart.ConditionTextAsWritten | src/Rest.Code-Flow-io/Program.cs:218 | the decision label is the chain of replacements applied to the branch's text, or to `cond` when it has none |
| Flowchart.FallbackAsWritten | src/Rest.Code-Flow-io/Program.cs:218 | the fallback `cond` passes through the replacements unchanged |
| Flowchart.BuildMermaid | src/Rest.Code-Flow-io/Program.cs:194-252 | the lines written are the header and then, block by block in index order, the rendered statements of each block; the first three lines are the two comments and `flowchart TD` |
| Flowchart.EmitBlock | src/Rest.Code-Flow-io/Program.cs:203-248 | the lines written for block `i` are the rendered statements of that block |
| Flowchart.EmitSuccessors | src/Rest.Code-Flow-io/Program.cs:216-247 | the lines written after the node of block `i` are the rendered statements that follow the node |
| Flowchart.EmitDecisionEdges | src/Rest.Code-Flow-io/Program.cs:224-240 | the lines written for a decision node are its rendered edges after the tie-break |
| FlowchartProperties.NodeCountAppend | src/Rest.Code-Flow-io/Program.cs:201-249 | node statements of a concatenation add up |
| FlowchartProperties.DecisionEdgesShape | src/Rest.Code-Flow-io/Program.cs:224-240 | every decision edge leaves `D{i}` and never targets `END`, and the edges hold no node |
| FlowchartProperties.DecisionEdgeLabels | src/Rest.Code-Flow-io/Program.cs:224-240 | by edge label, both directions: which destination gets `"true"`, which `"false"` and which the unlabelled edge, for each condition kind, with `END` left out; a `"true"` edge comes before a `"false"` one |
| FlowchartProperties.DecisionEdgeOrder | src/Rest.Code-Flow-io/Program.cs:224-240 | at most two decision edges: a `"true"` edge first, a `"false"` edge last |
| FlowchartProperties.BlockLayout | src/Rest.Code-Flow-io/Program.cs:214-247 | the node `B{i}` comes first; a block with a branch value has exactly the two nodes `B{i}` and `D{i}`, any other block one; every edge comes after the nodes |
| FlowchartProperties.DecisionLayout | src/Rest.Code-Flow-io/Program.cs:216-240 | after `D{i}` comes the edge `B{i} --> D{i}`; every later edge leaves `D{i}` and none targets `END` |
| FlowchartProperties.TieBreak | src/Rest.Code-Flow-io/Program.cs:224-240 | `WhenTrue`: conditional destination `"true"`, fall-through `"false"`; `WhenFalse`: the other way round; any other kind: one unlabelled edge to the fall-through; all as if-and-only-if over the block's statements, with `END` suppressed |
| FlowchartProperties.TrueBeforeFalse | src/Rest.Code-Flow-io/Program.cs:227-235 | within any block, a `"true"` edge is written before a `"false"` edge |
| FlowchartProperties.FallThroughEdge | src/Rest.Code-Flow-io/Program.cs:242-247 | a block without a branch value has one edge exactly when it has a fall-through successor, `B{i} --> X` with `X` the resolved destination, `END` included |
| FlowchartProperties.FallThroughToExitIsDrawn | src/Rest.Code-Flow-io/Program.cs:244-247 | a plain block falling through to the exit writes the line `B0 --> END` |
| FlowchartProperties.OperationTextsOne | src/Rest.Code-Flow-io/Program.cs:208-211 | one operation gives its trimmed text when that text is neither null nor blank, and nothing otherwise |
| FlowchartProperties.OperationTextsAppend | src/Rest.Code-Flow-io/Program.cs:208-211 | the kept texts of a concatenation of operations are those of each part, in order |
| FlowchartProperties.OperationTextsEmpty | src/Rest.Code-Flow-io/Program.cs:208-211 | no text is kept exactly when every operation's trimmed text is null or blank |
| FlowchartProperties.BlockLabelShape | src/Rest.Code-Flow-io/Program.cs:207-214 | the label is `Block {i}` when no operation text is left, and otherwise `Block {i}<br/>` followed by the escaped texts joined by `<br/>` |
| FlowchartProperties.LineBreakEscaped | src/Rest.Code-Flow-io/Program.cs:207 | the separator `<br/>` holds no character the escaper rewrites |
| FlowchartProperties.BlockIdDistinct | src/Rest.Code-Flow-io/Program.cs:257-262 | two blocks get the same identifier exactly when they are the same block, and no block gets `END` |
| FlowchartProperties.StatementsInIndexOrder | src/Rest.Code-Flow-io/Program.cs:202-204 | the statements of the first `i` blocks are a prefix of those of the first `j` |
| FlowchartProperties.BlockStatementsAt | src/Rest.Code-Flow-io/Program.cs:202-204 | block `i`'s statements come directly after those of the blocks before it |
| FlowchartProperties.BlockNodeCount | src/Rest.Code-Flow-io/Program.cs:214-220 | a block gives two nodes with a branch value and one without |
| FlowchartProperties.DiagramNodeCount | src/Rest.Code-Flow-io/Program.cs:201-249 | the flowchart has one node per block plus one decision node per block with a branch value |
| FlowchartProperties.EdgesToEndAppend | src/Rest.Code-Flow-io/Program.cs:201-249 | the property of edges to `END` holds of a concatenation when it holds of both parts |
| FlowchartProperties.BlockEndEdges | src/Rest.Code-Flow-io/Program.cs:224-247 | within a block, an edge to `END` is the unlabelled fall-through edge of `B{i}` |
| FlowchartProperties.EndOnlyAfterPlainBlocks | src/Rest.Code-Flow-io/Program.cs:201-249 | in the whole flowchart, every edge to `END` is an unlabelled edge from a block node, never from a decision node |
| FlowchartProperties.SmallNumbers | src/Rest.Code-Flow-io/Program.cs:205 | the identifiers of the first blocks are `B0`…`B3` and `D1` |
| FlowchartProperties.SmallDigits | src/Rest.Code-Flow-io/Program.cs:205 | the decimal texts of 0 to 3 |
| FlowchartProperties.EmptyBlockLabel | src/Rest.Code-Flow-io/Program.cs:213 | a block without operations is labelled `Block {i}` |
| FlowchartProperties.EmptyBlockNode | src/Rest.Code-Flow-io/Program.cs:213-214 | the node line of a block without operations is `B{i}["Block {i}"]` |
| FlowchartProperties.StraightLineStatements | src/Rest.Code-Flow-io/Program.cs:201-247 | a two-block straight line gives two nodes and one edge, and no decision node |
| FlowchartProperties.StraightLineMethod | src/Rest.Code-Flow-io/Program.cs:201-247 | the straight line is written as `B0["Block 0"]`, `B0 --> B1`, `B1["Block 1"]` |
| FlowchartProperties.FirstEmptyNode | src/Rest.Code-Flow-io/Program.cs:213-214 | the node line of block 0 |
| FlowchartProperties.SecondEmptyNode | src/Rest.Code-Flow-io/Program.cs:213-214 | the node line of block 1 |
| FlowchartProperties.StraightLineEdge | src/Rest.Code-Flow-io/Program.cs:244-247 | the fall-through edge line of block 0 |
| FlowchartProperties.SingleIfStatements | src/Rest.Code-Flow-io/Program.cs:214-235 | a block testing `WhenFalse` gives its node, its decision node, the link, `"true"` to the fall-through and `"false"` to the conditional destination |
| FlowchartProperties.SingleIfMethod | src/Rest.Code-Flow-io/Program.cs:214-235 | that block is written as the five lines `B1[…]`, `D1[cond]`, `B1 --> D1`, `D1 -- "true" --> B2`, `D1 -- "false" --> B3` |
| FlowchartProperties.SingleIfDecisionNode | src/Rest.Code-Flow-io/Program.cs:218-221 | the decision node shows a plain condition as it is |
| FlowchartProperties.SingleIfLink | src/Rest.Code-Flow-io/Program.cs:222 | the link line `B1 --> D1` |
| FlowchartProperties.SingleIfTrueEdge | src/Rest.Code-Flow-io/Program.cs:234 | the `"true"` edge line |
| FlowchartProperties.SingleIfFalseEdge | src/Rest.Code-Flow-io/Program.cs:235 | the `"false"` edge line |
| FlowchartProperties.ConditionOfSingleIf | src/Rest.Code-Flow-io/Program.cs:218 | the condition `x > 0` is written as it is |
| Architecture.Take | src/Rest.Code-Flow-io/Program.cs:319 | `Enumerable.Take`: the first `n` elements, all of them when there are fewer, none when `n` is not positive |
| Architecture.TypeLines | src/Rest.Code-Flow-io/Program.cs:348-370 | definition, no contract of its own: the class walk of one document with the class counter; `ArchitectureProperties.TypeLinesCounter`, `TypeLinesCount`, `TypeLinesClassNodes` and `TypeLinesMethodNodes` state it |
| Architecture.TopMethodLines | src/Rest.Code-Flow-io/Program.cs:372-387 | definition, no contract of its own: the top-level method walk of one document with its counter; `ArchitectureProperties.TopMethodLinesCount` states it |
| Architecture.DocumentExtraction | src/Rest.Code-Flow-io/Program.cs:338-387 | definition, no contract of its own: the member lines of one document, nothing without a root; `ArchitectureProperties.DocumentExtractionCount`, `DocumentExtractionClassNodes` and `DocumentExtractionMethodNodes` state it |
| Architecture.Extract | src/Rest.Code-Flow-io/Program.cs:332-388 | definition, no contract of its own: the member lines of all kept documents, the counters carried over; `ArchitectureProperties.ExtractCount`, `ExtractClassNodes` and `ExtractMethodNodes` state it |
| Architecture.ProjectLines | src/Rest.Code-Flow-io/Program.cs:314-396 | definition, no contract of its own: the lines of one project; `ArchitectureProperties.ProjectCount`, `ProjectBounds`, `ProjectFrame`, `ProjectClassNodes` and `ProjectMethodNodes` state them |
| Architecture.DiagramLines | src/Rest.Code-Flow-io/Program.cs:304-402 | definition, no contract of its own: the whole flowchart; `ArchitectureProperties.DiagramShape` and `ProjectsInOrder` state it |
| Architecture.MarkdownLines | src/Rest.Code-Flow-io/Program.cs:407-424 | definition, no contract of its own: the Markdown page; `ArchitectureProperties.MarkdownLayout` and `ProjectBulletsAt` state it |
| Architecture.SafeProjectName | src/Rest.Code-Flow-io/Program.cs:315 | the project label holds no space |
| Architecture.RenderLines | src/Rest.Code-Flow-io/Program.cs:310-399 | one text line per diagram line, in order |
| Architecture.RenderLinesAppend | src/Rest.Code-Flow-io/Program.cs:310-399 | the text of a concatenation is the text of both parts |
| Architecture.GenerateArchitectureDocuments | src/Rest.Code-Flow-io/Program.cs:304-424 | the flowchart is the specified flowchart of the projects, and the page is the specified page around it |
| Architecture.BuildArchitectureDiagram | src/Rest.Code-Flow-io/Program.cs:304-402 | the lines written are the fixed chain, the lines of every project in order, and the two helper nodes |
| Architecture.EmitProject | src/Rest.Code-Flow-io/Program.cs:314-396 | the lines written for one project are its rendered lines |
| Architecture.EmitDocuments | src/Rest.Code-Flow-io/Program.cs:319-326 | one node per kept document, in order |
| Architecture.EmitPipeline | src/Rest.Code-Flow-io/Program.cs:392-396 | the five pipeline lines |
| Architecture.EmitMembers | src/Rest.Code-Flow-io/Program.cs:332-388 | the member lines of all kept documents, with both counters carried from one document to the next |
| Architecture.EmitDocumentMembers | src/Rest.Code-Flow-io/Program.cs:338-387 | a document without a root adds nothing and keeps the counters; otherwise its types, then its top-level methods |
| Architecture.EmitTypes | src/Rest.Code-Flow-io/Program.cs:348-370 | the class lines of a document and the class counter after them, stopping at the cap |
| Architecture.EmitClass | src/Rest.Code-Flow-io/Program.cs:351-367 | a class node, its link to the documents group, and its first `maxMethodsPerClass` methods |
| Architecture.EmitMethods | src/Rest.Code-Flow-io/Program.cs:362-367 | one node per method of the class, numbered from 0 |
| Architecture.EmitTopMethods | src/Rest.Code-Flow-io/Program.cs:373-387 | the top-level method lines and the counter after them, stopping at the cap |
| Architecture.BuildMarkdown | src/Rest.Code-Flow-io/Program.cs:407-424 | the lines written are the specified page |
| ArchitectureProperties.CountAppend | src/Rest.Code-Flow-io/Program.cs:310-399 | counts of a concatenation add up |
| ArchitectureProperties.SaturatedCompose | src/Rest.Code-Flow-io/Program.cs:332-387 | two capped walks in a row, sharing one counter, are one walk over all their items |
| ArchitectureProperties.SaturatedTake | src/Rest.Code-Flow-io/Program.cs:378-382 | taking `maxFreeMethods` items before a walk capped at `maxFreeMethods` changes nothing |
| ArchitectureProperties.DocumentLinesCount | src/Rest.Code-Flow-io/Program.cs:319-326 | one document node per kept document, and no other line |
| ArchitectureProperties.MethodLinesCount | src/Rest.Code-Flow-io/Program.cs:357-367 | one method node of class `c` per method, and no other line |
| ArchitectureProperties.ClassLinesCount | src/Rest.Code-Flow-io/Program.cs:351-367 | by count: a class gives one class node, one link, and as many method nodes of that class as its first `maxMethodsPerClass` methods; `ClassLinesClassNodes` and `ClassLinesMethodNodes` give them by name |
| ArchitectureProperties.TypeLinesCounter | src/Rest.Code-Flow-io/Program.cs:348-370 | the class counter goes up by one per type and stops at `maxClassesPerProject` |
| ArchitectureProperties.TypeLinesCount | src/Rest.Code-Flow-io/Program.cs:348-370 | by count: the counter stops at the cap; one class node and link per class drawn; class `k` gets as many method nodes as the capped methods of the type at position `k - count`; `TypeLinesClassNodes` and `TypeLinesMethodNodes` give them by name |
| ArchitectureProperties.TopMethodLinesCount | src/Rest.Code-Flow-io/Program.cs:380-387 | the top-level method counter stops at `maxFreeMethods`, one node per method drawn |
| ArchitectureProperties.DocumentExtractionCount | src/Rest.Code-Flow-io/Program.cs:338-387 | a document's members, with both counters taken from the documents before it; nothing for a document without a root |
| ArchitectureProperties.ExtractCounters | src/Rest.Code-Flow-io/Program.cs:332-388 | after all documents, each counter is its capped total over all the documents |
| ArchitectureProperties.SaturatedStall | src/Rest.Code-Flow-io/Program.cs:350 | a walk that stopped short has reached the cap, and the later documents add no class |
| ArchitectureProperties.ExtractMethods | src/Rest.Code-Flow-io/Program.cs:336-370 | by count: class `k` gets as many method nodes as the capped methods of the type at position `k` among the types of all the documents; `ExtractMethodNodes` gives them by name |
| ArchitectureProperties.ExtractOthers | src/Rest.Code-Flow-io/Program.cs:336-388 | class nodes, links and top-level method nodes over all the documents equal the counters' moves |
| ArchitectureProperties.ExtractCount | src/Rest.Code-Flow-io/Program.cs:332-388 | the counters and every kind of member line over all the documents, the counters shared across documents |
| ArchitectureProperties.MembersSplit | src/Rest.Code-Flow-io/Program.cs:348-370 | class numbering runs on from one document to the next |
| ArchitectureProperties.SelectCount | src/Rest.Code-Flow-io/Program.cs:310-399 | the lines of one kind, in order, are as many as the count of that kind, and all are of that kind |
| ArchitectureProperties.SelectAppend | src/Rest.Code-Flow-io/Program.cs:310-399 | the lines of one kind in a concatenation are those of each part, in order |
| ArchitectureProperties.MethodLinesAt | src/Rest.Code-Flow-io/Program.cs:362-367 | method node `m` of class `c` carries the name of method `m`, one node per method |
| ArchitectureProperties.MethodLinesSelect | src/Rest.Code-Flow-io/Program.cs:362-367 | the method lines of class `c` are all method nodes of class `c` and of nothing else |
| ArchitectureProperties.ClassHeadSelect | src/Rest.Code-Flow-io/Program.cs:353-354 | the class node and its link to the documents group, each of its own kind |
| ArchitectureProperties.ClassLinesClassNodes | src/Rest.Code-Flow-io/Program.cs:351-367 | a class draws exactly one class node, the one with its own name and number |
| ArchitectureProperties.ClassLinesMethodNodes | src/Rest.Code-Flow-io/Program.cs:356-367 | the method nodes of class `k` that class `c` draws are its first `maxMethodsPerClass` methods when `k = c`, and none otherwise |
| ArchitectureProperties.MethodNodesOfAt | src/Rest.Code-Flow-io/Program.cs:356-369 | counting classes from 0: class `k` drawn gets method node `m` for method `m` of type `k`, up to the cap; a class not drawn gets none |
| ArchitectureProperties.MethodNodesSplit | src/Rest.Code-Flow-io/Program.cs:348-370 | the expected method nodes of a class over two runs of types, the second starting where the first stopped |
| ArchitectureProperties.ClassNodesAt | src/Rest.Code-Flow-io/Program.cs:348-370 | class node `j` from the counter on names type `j`, one per type up to the counter's end |
| ArchitectureProperties.ClassNodesSplit | src/Rest.Code-Flow-io/Program.cs:348-370 | the expected class nodes over two runs of types, the second starting where the first stopped |
| ArchitectureProperties.TypeLinesClassNodes | src/Rest.Code-Flow-io/Program.cs:348-370 | the class nodes of one document's types by name: one per type walked, numbered from the counter on |
| ArchitectureProperties.TypeLinesMethodNodes | src/Rest.Code-Flow-io/Program.cs:348-370 | the method nodes of class `k` in one document's types by name: the capped methods of the type at position `k - count`, none for a class not drawn there |
| ArchitectureProperties.DocumentExtractionClassNodes | src/Rest.Code-Flow-io/Program.cs:338-370 | the class nodes of one document by name, none without a root |
| ArchitectureProperties.DocumentExtractionMethodNodes | src/Rest.Code-Flow-io/Program.cs:338-370 | the method nodes of class `k` in one document by name, none without a root |
| ArchitectureProperties.ExtractStep | src/Rest.Code-Flow-io/Program.cs:336-370 | the class counter moves by at most the types of the first document, the rest starts where it stopped, and nothing is added once it stopped short of them |
| ArchitectureProperties.ExtractClassNodes | src/Rest.Code-Flow-io/Program.cs:336-388 | the class nodes over all the documents by name: class `j` names the `j`-th type of all the documents, in order, with the counter shared |
| ArchitectureProperties.ExtractMethodNodes | src/Rest.Code-Flow-io/Program.cs:336-388 | the method nodes of class `k` over all the documents by name: the capped methods of the `k`-th type of all the documents |
| ArchitectureProperties.HeadCount | src/Rest.Code-Flow-io/Program.cs:316-317 | each project has one project node and one documents group |
| ArchitectureProperties.PipelineCount | src/Rest.Code-Flow-io/Program.cs:392-396 | each project has five pipeline lines |
| ArchitectureProperties.ProjectCount | src/Rest.Code-Flow-io/Program.cs:314-396 | every line of a project counted by kind: one project node, one group, one node per kept document, the capped classes and top-level methods over all its documents when it compiled, the capped methods of each class, five pipeline lines |
| ArchitectureProperties.ProjectSelect | src/Rest.Code-Flow-io/Program.cs:314-396 | the class and method nodes of a project are those of its kept documents' members when it compiled, and there are none otherwise |
| ArchitectureProperties.ProjectClassNodes | src/Rest.Code-Flow-io/Program.cs:319-370 | class node `j` of a compiled project is `PRJ{p}C{j}` with the name of the `j`-th type of its first `maxDocsPerProject` documents, up to `maxClassesPerProject`; none without a compilation |
| ArchitectureProperties.ProjectMethodNodes | src/Rest.Code-Flow-io/Program.cs:319-370 | method node `m` of class `k` of a compiled project names method `m` of the `k`-th type, as many as its first `maxMethodsPerClass` methods; none for a class not drawn or without a compilation |
| ArchitectureProperties.ProjectBounds | src/Rest.Code-Flow-io/Program.cs:319-396 | exactly min(maxDocsPerProject, documents) document nodes; at most maxClassesPerProject classes and maxFreeMethods top-level methods per project; at most maxMethodsPerClass methods per class; no member at all without a compilation |
| ArchitectureProperties.DefaultDocumentCap | src/Rest.Code-Flow-io/Program.cs:47 | with the default caps, a project with eight documents or more shows exactly eight |
| ArchitectureProperties.ProjectFrame | src/Rest.Code-Flow-io/Program.cs:316-396 | every project starts with its node and documents group and ends with the five-line pipeline chain |
| ArchitectureProperties.AllOfAppend | src/Rest.Code-Flow-io/Program.cs:310-399 | the per-project property holds of a concatenation when it holds of both parts |
| ArchitectureProperties.DocumentLinesOf | src/Rest.Code-Flow-io/Program.cs:323-325 | the document nodes carry the project's position |
| ArchitectureProperties.MethodLinesOf | src/Rest.Code-Flow-io/Program.cs:364-366 | the method nodes carry the project's position |
| ArchitectureProperties.TypeLinesOf | src/Rest.Code-Flow-io/Program.cs:351-366 | the class lines carry the project's position |
| ArchitectureProperties.TopMethodLinesOf | src/Rest.Code-Flow-io/Program.cs:383-385 | the top-level method nodes carry the project's position |
| ArchitectureProperties.ExtractOf | src/Rest.Code-Flow-io/Program.cs:336-388 | the member lines carry the project's position |
| ArchitectureProperties.ProjectLinesOf | src/Rest.Code-Flow-io/Program.cs:314-396 | every line of a project carries that project's position |
| ArchitectureProperties.ProjectsInOrder | src/Rest.Code-Flow-io/Program.cs:310-399 | projects come in order and their lines do not interleave; every project of the solution has exactly one project node, whatever the filter |
| ArchitectureProperties.DiagramShape | src/Rest.Code-Flow-io/Program.cs:304-402 | the flowchart is the four-line fixed chain, the project lines, and the two helper nodes, in that order |
| ArchitectureProperties.EscapeKeeps | src/Rest.Code-Flow-io/Program.cs:267-275 | a character the escaper does not rewrite survives escaping |
| ArchitectureProperties.ProjectNames | src/Rest.Code-Flow-io/Program.cs:315 | the project label is the escaped name with each space made `_`, length kept; for a name with a space it differs from the plain escaped name on the `.mmd` node (line 394) |
| ArchitectureProperties.ProjectBulletsAt | src/Rest.Code-Flow-io/Program.cs:413-416 | one bullet `- name` per project, in order |
| ArchitectureProperties.MarkdownLayout | src/Rest.Code-Flow-io/Program.cs:407-424 | the page is the heading block, one bullet per project, the diagram heading and opening fence, the flowchart line for line, an empty line, the closing fence and the footer |
| Cli.ParseArguments | src/Rest.Code-Flow-io/Program.cs:18-36 | usage exactly when fewer than two arguments; a missing project name exactly when the third argument is `--project` and there is no fourth; a filter exactly when `--project` is followed by a name, that name |
| Cli.EarlyExit | src/Rest.Code-Flow-io/Program.cs:18-36 | exit code 1 exactly on too few arguments, 2 exactly on a missing project name, none exactly when the tool runs |
| Cli.NoArgumentsIsUsage | tests/Rest.Code-Flow-io.Tests/ProgramTests.cs:38-44 | no arguments give exit code 1 |
| Cli.ProjectOption | src/Rest.Code-Flow-io/Program.cs:29-36 | `--project` last gives exit code 2; followed by a name it sets the filter to that name |
| Cli.OtherArgumentsIgnored | src/Rest.Code-Flow-io/Program.cs:25-29 | any other third argument is ignored and leaves no filter |
| Cli.TrailingArgumentsIgnored | src/Rest.Code-Flow-io/Program.cs:29-36 | arguments after the project name change nothing |
| Cli.SelectedProjects | src/Rest.Code-Flow-io/Program.cs:64 | by membership: a name is visited exactly when it is in the solution and equals the filter, or there is none; no more projects than the solution has |
| Cli.SelectedProjectsMultiset | src/Rest.Code-Flow-io/Program.cs:64 | each project that passes the filter is visited as often as it occurs in the solution, and no other |
| Cli.SelectedProjectsAppend | src/Rest.Code-Flow-io/Program.cs:64 | the filter keeps the solution order: the visited projects of a concatenation are those of each part, in turn |
| Cli.SelectedProjectsOne | src/Rest.Code-Flow-io/Program.cs:64 | one project is visited exactly when its name passes the filter |
| Cli.NoFilterSelectsAll | src/Rest.Code-Flow-io/Program.cs:64 | without a filter every project is visited, in order |
| Cli.ArtifactStem | src/Rest.Code-Flow-io/Program.cs:97-100 | the stem is two characters longer than the three names together and holds no space and no dot |
| Cli.ArtifactStemPointwise | src/Rest.Code-Flow-io/Program.cs:97-100 | character by character, the stem is `{project}_{stem}_{method}` with spaces and dots made `_` |
| Cli.ArtifactStemPlain | src/Rest.Code-Flow-io/Program.cs:97-100 | names without spaces and dots are joined as they are |
| Cli.UnderscoredSplit | src/Rest.Code-Flow-io/Program.cs:98-100 | a space or dot between two texts becomes one `_` between their replaced forms |
| Cli.ArtifactStemConflates | src/Rest.Code-Flow-io/Program.cs:97-100 | project names that differ only by a space against a dot give the same stem |

## Left out

- The compiler and build libraries (MSBuild locator and workspace, opening the solution,
  compilations, control-flow graph creation, syntax walks) are foreign code. Their results
  are inputs: a `Block` sequence per method, and `Project`/`Document`/`TypeDecl` values
  whose lists are in the order the syntax walk yields them.
- File-system I/O is not modelled: creating the output directory, deleting stale
  `.mmd`/`.svg`/`.png` files (`DeleteIfExists`) and writing the files. Neither are the
  `Path` helpers. The file stem, the document file name and the output paths are inputs
  or left out.
- `GenerateMermaidImage` launches the Mermaid CLI, scans `PATH` and reads the exit code.
  It is process plumbing and is not modelled.
- Loading the configuration is not modelled. The caps are a `Caps` parameter, and
  `DefaultCaps` holds the defaults 8/10/10/10.
- Console output, `async`/`await` and the `try`/`catch` blocks are not modelled. This
  includes the exit codes 0 and 99, which depend only on whether the work threw.
- The per-method loop of `Main` is not modelled beyond the project filter and the
  artifact stem. That loop filters documents by a case-insensitive `.cs` suffix,
  creates the graph, and skips per-method failures. Case-insensitive comparison needs
  Unicode case folding.
- Text is a sequence of lines, one per `AppendLine`. The platform newline and the final
  line break are not modelled. `MarkdownLines` models the one visible effect of that
  break: the empty line after the embedded flowchart.
- `Text.IsWhiteSpace` lists the Unicode separator and control characters that
  `Char.IsWhiteSpace` accepts. It is not derived from Unicode tables.
- Block indices and counters are unbounded naturals. The source's 32-bit `int` cannot
  overflow for graphs or caps of any realistic size.
