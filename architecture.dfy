/**
  The architecture document of a solution: one Mermaid flowchart that links the
  processing chain of the tool to every project of the solution, its documents
  (the first few), the classes and methods found in them (up to the configured
  caps) and a fixed five-node pipeline per project; and a Markdown page that lists
  the projects and embeds the flowchart.

  The syntax trees the generator walks are given as values: each document carries
  its optional syntax root, which lists the type declarations (each with the names
  of the methods that have a body) and the top-level method names, in the order
  the syntax walk finds them.
 */
module Architecture {
  import opened Wrappers
  import opened Text
  import opened Escaping

  // ---------------------------------------------------------------------------
  // Input

  datatype TypeDecl = TypeDecl(name: string, methods: seq<string>)

  datatype SyntaxRoot = SyntaxRoot(types: seq<TypeDecl>, topLevelMethods: seq<string>)

  /** A document of a project: its file name and its syntax root, absent when none could be obtained. */
  datatype Document = Document(name: string, root: Option<SyntaxRoot>)

  /** A project: its name, whether a compilation could be obtained for it, and its documents in order. */
  datatype Project = Project(name: string, compiled: bool, documents: seq<Document>)

  /** The four caps read from the configuration. */
  datatype Caps = Caps(maxDocsPerProject: int, maxClassesPerProject: int, maxMethodsPerClass: int, maxFreeMethods: int)

  /** The caps used when the configuration sets none. */
  const DefaultCaps := Caps(8, 10, 10, 10)

  /** `Enumerable.Take`: the first `n` elements, or all of them when there are fewer; none when `n` is not positive. */
  function Take<T>(s: seq<T>, n: int): (r: seq<T>)
    ensures |r| == if n <= 0 then 0 else if n < |s| then n else |s|
    ensures r == s[..|r|]
  {
    if n <= 0 then [] else if n < |s| then s[..n] else s
  }

  // ---------------------------------------------------------------------------
  // The lines of the flowchart

  /** The lines that depend on the input; `p` is the position of the project. */
  datatype ArchLine =
    | ProjectNode(p: nat, name: string)
    | DocumentsGroup(p: nat)
    | DocumentNode(p: nat, d: nat, name: string)
    | ClassNode(p: nat, c: nat, name: string)
    | ClassToDocuments(p: nat, c: nat)
    | MethodNode(p: nat, c: nat, m: nat, name: string)
    | TopMethodNode(p: nat, f: nat, name: string)
    | PipelineGraph(p: nat)
    | PipelineBuild(p: nat)
    | PipelineFile(p: nat, name: string)
    | PipelineCli(p: nat)
    | PipelineImages(p: nat)

  /** `PRJ{p}`. */
  function ProjectId(p: nat): string {
    "PRJ" + NatToString(p)
  }

  /** `PRJ{p}C{c}`. */
  function ClassId(p: nat, c: nat): string {
    ProjectId(p) + "C" + NatToString(c)
  }

  /** The project name as its node shows it: escaped, then every space replaced by `_`. */
  function SafeProjectName(name: string): (r: string)
    ensures ' ' !in r
  {
    ReplaceChar(Escape(name), ' ', "_")
  }

  /** The text of a line, exactly as the generator writes it. */
  function RenderLine(l: ArchLine): string {
    match l
    case ProjectNode(p, name) => "  SOL --> " + ProjectId(p) + "[\"Project: " + SafeProjectName(name) + "\"]"
    case DocumentsGroup(p) => "  " + ProjectId(p) + " --> DOC" + NatToString(p) + "[\"Documents (.cs)\"]"
    case DocumentNode(p, d, name) =>
      "  DOC" + NatToString(p) + " --> " + ProjectId(p) + "D" + NatToString(d) + "[\"" + Escape(name) + "\"]"
    case ClassNode(p, c, name) => "  " + ProjectId(p) + " --> " + ClassId(p, c) + "[\"Class: " + Escape(name) + "\"]"
    case ClassToDocuments(p, c) => "  " + ClassId(p, c) + " --> DOC" + NatToString(p)
    case MethodNode(p, c, m, name) =>
      "  " + ClassId(p, c) + " --> " + ClassId(p, c) + "M" + NatToString(m) + "[\"Method: " + Escape(name) + "()\"]"
    case TopMethodNode(p, f, name) =>
      "  " + ProjectId(p) + " --> " + ProjectId(p) + "FM" + NatToString(f) + "[\"TopMethod: " + Escape(name) + "()\"]"
    case PipelineGraph(p) => "  PRJ" + NatToString(p) + " --> CFG" + NatToString(p) + "[\"ControlFlowGraph (per-method)\"]"
    case PipelineBuild(p) => "  CFG" + NatToString(p) + " --> BM" + NatToString(p) + "[\"BuildMermaid()\"]"
    case PipelineFile(p, name) => "  BM" + NatToString(p) + " --> MMD" + NatToString(p) + "[\"" + Escape(name) + ".mmd\"]"
    case PipelineCli(p) => "  MMD" + NatToString(p) + " --> MMDC" + NatToString(p) + "[\"Mermaid CLI (mmdc)\"]"
    case PipelineImages(p) => "  MMDC" + NatToString(p) + " --> OUT" + NatToString(p) + "[\".svg / .png\"]"
  }

  function RenderLines(ls: seq<ArchLine>): (r: seq<string>)
    ensures |r| == |ls|
    ensures forall k :: 0 <= k < |ls| ==> r[k] == RenderLine(ls[k])
  {
    if ls == [] then [] else [RenderLine(ls[0])] + RenderLines(ls[1..])
  }

  lemma {:induction false} RenderLinesAppend(a: seq<ArchLine>, b: seq<ArchLine>)
    ensures RenderLines(a + b) == RenderLines(a) + RenderLines(b)
  {
    var l, r := RenderLines(a + b), RenderLines(a) + RenderLines(b);
    assert |l| == |r|;
    forall k | 0 <= k < |l| ensures l[k] == r[k] {
      if k < |a| { assert (a + b)[k] == a[k]; } else { assert (a + b)[k] == b[k - |a|]; }
    }
  }

  lemma RenderLinesSnoc(ls: seq<ArchLine>, l: ArchLine)
    ensures RenderLines(ls + [l]) == RenderLines(ls) + [RenderLine(l)]
  {
    RenderLinesAppend(ls, [l]);
  }

  // ---------------------------------------------------------------------------
  // What each part of the walk contributes

  /** The result of a capped walk: the lines written and the counter after it. */
  datatype Walk = Walk(lines: seq<ArchLine>, count: nat)

  /** The result of walking the documents: the lines and both per-project counters. */
  datatype Extraction = Extraction(lines: seq<ArchLine>, classCount: nat, freeMethodCount: nat)

  /** One node per document, numbered by position. */
  function DocumentLines(p: nat, docs: seq<Document>): seq<ArchLine> {
    if docs == [] then []
    else DocumentLines(p, docs[..|docs| - 1]) + [DocumentNode(p, |docs| - 1, docs[|docs| - 1].name)]
  }

  /** One node per method of class `c`, numbered by position. */
  function MethodLines(p: nat, c: nat, methods: seq<string>): seq<ArchLine> {
    if methods == [] then []
    else MethodLines(p, c, methods[..|methods| - 1]) + [MethodNode(p, c, |methods| - 1, methods[|methods| - 1])]
  }

  /** Class `c`: its node, its link to the documents group, and the first `maxMethodsPerClass` of its methods. */
  function ClassLines(p: nat, c: nat, t: TypeDecl, caps: Caps): seq<ArchLine> {
    [ClassNode(p, c, t.name), ClassToDocuments(p, c)] + MethodLines(p, c, Take(t.methods, caps.maxMethodsPerClass))
  }

  /** The types of one document, numbered from the project's class counter on; the walk stops once the counter reaches the cap. */
  function TypeLines(p: nat, types: seq<TypeDecl>, classCount: nat, caps: Caps): Walk {
    if types == [] || classCount >= caps.maxClassesPerProject then Walk([], classCount)
    else
      var rest := TypeLines(p, types[1..], classCount + 1, caps);
      Walk(ClassLines(p, classCount, types[0], caps) + rest.lines, rest.count)
  }

  /** The top-level methods of one document, numbered from the project's counter on; the walk stops at the cap. */
  function TopMethodLines(p: nat, methods: seq<string>, freeMethodCount: nat, caps: Caps): Walk {
    if methods == [] || freeMethodCount >= caps.maxFreeMethods then Walk([], freeMethodCount)
    else
      var rest := TopMethodLines(p, methods[1..], freeMethodCount + 1, caps);
      Walk([TopMethodNode(p, freeMethodCount, methods[0])] + rest.lines, rest.count)
  }

  /** One document: nothing without a syntax root; otherwise its types, then its first top-level methods. */
  function DocumentExtraction(p: nat, doc: Document, classCount: nat, freeMethodCount: nat, caps: Caps): Extraction {
    match doc.root
    case None => Extraction([], classCount, freeMethodCount)
    case Some(root) =>
      var types := TypeLines(p, root.types, classCount, caps);
      var top := TopMethodLines(p, Take(root.topLevelMethods, caps.maxFreeMethods), freeMethodCount, caps);
      Extraction(types.lines + top.lines, types.count, top.count)
  }

  /** The documents in order, the two counters carried from one document to the next. */
  function Extract(p: nat, docs: seq<Document>, classCount: nat, freeMethodCount: nat, caps: Caps): Extraction {
    if docs == [] then Extraction([], classCount, freeMethodCount)
    else
      var first := DocumentExtraction(p, docs[0], classCount, freeMethodCount, caps);
      var rest := Extract(p, docs[1..], first.classCount, first.freeMethodCount, caps);
      Extraction(first.lines + rest.lines, rest.classCount, rest.freeMethodCount)
  }

  /** The per-project pipeline chain. */
  function PipelineLines(p: nat, name: string): seq<ArchLine> {
    [PipelineGraph(p), PipelineBuild(p), PipelineFile(p, name), PipelineCli(p), PipelineImages(p)]
  }

  /**
    The lines of the project at position `p`: its node and documents group, its first
    `maxDocsPerProject` documents, the types and methods of those documents when the
    project compiled, and the pipeline chain.
   */
  function ProjectLines(p: nat, project: Project, caps: Caps): seq<ArchLine> {
    var docs := Take(project.documents, caps.maxDocsPerProject);
    [ProjectNode(p, project.name), DocumentsGroup(p)] + DocumentLines(p, docs)
    + (if project.compiled then Extract(p, docs, 0, 0, caps).lines else [])
    + PipelineLines(p, project.name)
  }

  /** The lines of all projects, in order. */
  function ProjectsLines(projects: seq<Project>, caps: Caps): seq<ArchLine> {
    if projects == [] then []
    else ProjectsLines(projects[..|projects| - 1], caps) + ProjectLines(|projects| - 1, projects[|projects| - 1], caps)
  }

  const Prologue: seq<string> := [
    "flowchart TD",
    "  P[\"Program (entry)\"] --> ML[\"MSBuildLocator\"]",
    "  ML --> WS[\"MSBuildWorkspace\"]",
    "  WS --> SOL[\"Solution\"]" ]

  const Epilogue: seq<string> := [
    "  P --> DEL[\"DeleteIfExists() (cleanup)\"]",
    "  P --> GEN[\"GenerateMermaidImage() (calls mmdc)\"]" ]

  /** The architecture flowchart, line by line. */
  function DiagramLines(projects: seq<Project>, caps: Caps): seq<string> {
    Prologue + RenderLines(ProjectsLines(projects, caps)) + Epilogue
  }

  // ---------------------------------------------------------------------------
  // The Markdown page

  const MarkdownHead: seq<string> := [
    "# Architecture \U{2014} Code-Flow-IO",
    "",
    "This file describes the processing chain and the projects/documents scanned by the tool.",
    "",
    "## Projects scanned" ]

  const DiagramHead: seq<string> := [ "", "## Flow diagram (Mermaid)", "", "```mermaid" ]

  const MarkdownTail: seq<string> := [ "```", "", "*Generated automatically by the tool.*" ]

  /** One bullet per project. */
  function ProjectBullets(projects: seq<Project>): seq<string> {
    if projects == [] then []
    else ProjectBullets(projects[..|projects| - 1]) + ["- " + projects[|projects| - 1].name]
  }

  /**
    The Markdown page around the flowchart. The flowchart text ends with a line break
    and is appended as one more line, which leaves an empty line before the closing fence.
   */
  function MarkdownLines(projects: seq<Project>, diagram: seq<string>): seq<string> {
    MarkdownHead + ProjectBullets(projects) + DiagramHead + (diagram + [""]) + MarkdownTail
  }

  // ---------------------------------------------------------------------------
  // The generator

  /** Both documents: the Markdown page and the flowchart. */
  method GenerateArchitectureDocuments(projects: seq<Project>, caps: Caps) returns (markdown: seq<string>, diagram: seq<string>)
    ensures diagram == DiagramLines(projects, caps)
    ensures markdown == MarkdownLines(projects, diagram)
  {
    diagram := BuildArchitectureDiagram(projects, caps);
    markdown := BuildMarkdown(projects, diagram);
  }

  /** The flowchart: the fixed processing chain, every project in order, then the two helper nodes. */
  method BuildArchitectureDiagram(projects: seq<Project>, caps: Caps) returns (lines: seq<string>)
    ensures lines == DiagramLines(projects, caps)
  {
    lines := [];
    lines := lines + ["flowchart TD"];
    lines := lines + ["  P[\"Program (entry)\"] --> ML[\"MSBuildLocator\"]"];
    lines := lines + ["  ML --> WS[\"MSBuildWorkspace\"]"];
    lines := lines + ["  WS --> SOL[\"Solution\"]"];
    assert lines == Prologue;
    assert RenderLines(ProjectsLines(projects[..0], caps)) == [];

    var pIdx := 0;
    while pIdx < |projects|
      invariant 0 <= pIdx <= |projects|
      invariant lines == Prologue + RenderLines(ProjectsLines(projects[..pIdx], caps))
    {
      var projectLines := EmitProject(pIdx, projects[pIdx], caps);
      assert projects[..pIdx + 1][..pIdx] == projects[..pIdx];
      RenderLinesAppend(ProjectsLines(projects[..pIdx], caps), ProjectLines(pIdx, projects[pIdx], caps));
      ConcatAssoc(Prologue, RenderLines(ProjectsLines(projects[..pIdx], caps)), projectLines);
      lines := lines + projectLines;
      pIdx := pIdx + 1;
    }
    assert projects[..|projects|] == projects;

    lines := lines + ["  P --> DEL[\"DeleteIfExists() (cleanup)\"]"];
    lines := lines + ["  P --> GEN[\"GenerateMermaidImage() (calls mmdc)\"]"];
  }

  /** The lines of one project. */
  method EmitProject(p: nat, project: Project, caps: Caps) returns (lines: seq<string>)
    ensures lines == RenderLines(ProjectLines(p, project, caps))
  {
    var head := [ProjectNode(p, project.name), DocumentsGroup(p)];
    lines := [RenderLine(head[0]), RenderLine(head[1])];
    assert lines == RenderLines(head) by {
      assert head[1..][1..] == [];
    }
    var docs := Take(project.documents, caps.maxDocsPerProject);
    var documentLines := EmitDocuments(p, docs);
    var memberLines := [];
    if project.compiled {
      memberLines := EmitMembers(p, docs, caps);
    }
    var pipelineLines := EmitPipeline(p, project.name);
    ghost var members := if project.compiled then Extract(p, docs, 0, 0, caps).lines else [];
    RenderLinesAppend(head, DocumentLines(p, docs));
    RenderLinesAppend(head + DocumentLines(p, docs), members);
    RenderLinesAppend(head + DocumentLines(p, docs) + members, PipelineLines(p, project.name));
    lines := lines + documentLines + memberLines + pipelineLines;
  }

  /** One node per document. */
  method EmitDocuments(p: nat, docs: seq<Document>) returns (lines: seq<string>)
    ensures lines == RenderLines(DocumentLines(p, docs))
  {
    lines := [];
    ghost var trail: seq<ArchLine> := [];
    for d := 0 to |docs|
      invariant lines == RenderLines(trail)
      invariant trail == DocumentLines(p, docs[..d])
    {
      var node := DocumentNode(p, d, docs[d].name);
      RenderLinesSnoc(trail, node);
      assert docs[..d + 1][..d] == docs[..d];
      lines, trail := lines + [RenderLine(node)], trail + [node];
    }
    assert docs[..|docs|] == docs;
  }

  /** The five nodes of the per-project pipeline chain. */
  method EmitPipeline(p: nat, name: string) returns (lines: seq<string>)
    ensures lines == RenderLines(PipelineLines(p, name))
  {
    var chain := PipelineLines(p, name);
    lines := [];
    lines := lines + [RenderLine(PipelineGraph(p))];
    lines := lines + [RenderLine(PipelineBuild(p))];
    lines := lines + [RenderLine(PipelineFile(p, name))];
    lines := lines + [RenderLine(PipelineCli(p))];
    lines := lines + [RenderLine(PipelineImages(p))];
    assert chain[1..][1..][1..][1..][1..] == [];
  }

  /** The classes and top-level methods of the documents, with the two counters shared by the whole project. */
  method EmitMembers(p: nat, docs: seq<Document>, caps: Caps) returns (lines: seq<string>)
    ensures lines == RenderLines(Extract(p, docs, 0, 0, caps).lines)
  {
    var classCount: nat := 0;
    var freeMethodCount: nat := 0;
    lines := [];
    ghost var trail: seq<ArchLine> := [];
    var i := 0;
    while i < |docs|
      invariant 0 <= i <= |docs|
      invariant lines == RenderLines(trail)
      invariant trail + Extract(p, docs[i..], classCount, freeMethodCount, caps).lines == Extract(p, docs, 0, 0, caps).lines
    {
      ghost var rest := docs[i..];
      assert rest[0] == docs[i] && rest[1..] == docs[i + 1..];
      ghost var first := DocumentExtraction(p, docs[i], classCount, freeMethodCount, caps);
      var documentLines, newClassCount, newFreeMethodCount := EmitDocumentMembers(p, docs[i], classCount, freeMethodCount, caps);
      RenderLinesAppend(trail, first.lines);
      ConcatAssoc(trail, first.lines, Extract(p, docs[i + 1..], newClassCount, newFreeMethodCount, caps).lines);
      lines, trail := lines + documentLines, trail + first.lines;
      classCount, freeMethodCount := newClassCount, newFreeMethodCount;
      i := i + 1;
    }
  }

  /** The classes and top-level methods of one document; nothing when it has no syntax root. */
  method EmitDocumentMembers(p: nat, doc: Document, classCount0: nat, freeMethodCount0: nat, caps: Caps)
    returns (lines: seq<string>, classCount: nat, freeMethodCount: nat)
    ensures var e := DocumentExtraction(p, doc, classCount0, freeMethodCount0, caps);
      lines == RenderLines(e.lines) && classCount == e.classCount && freeMethodCount == e.freeMethodCount
  {
    lines, classCount, freeMethodCount := [], classCount0, freeMethodCount0;
    if doc.root.None? {
      return;
    }
    var root := doc.root.value;
    var typeLines, topLines;
    typeLines, classCount := EmitTypes(p, root.types, classCount, caps);
    topLines, freeMethodCount := EmitTopMethods(p, Take(root.topLevelMethods, caps.maxFreeMethods), freeMethodCount, caps);
    RenderLinesAppend(TypeLines(p, root.types, classCount0, caps).lines,
                      TopMethodLines(p, Take(root.topLevelMethods, caps.maxFreeMethods), freeMethodCount0, caps).lines);
    lines := typeLines + topLines;
  }

  /** The classes of one document, until the project's class counter reaches the cap. */
  method EmitTypes(p: nat, types: seq<TypeDecl>, classCount0: nat, caps: Caps) returns (lines: seq<string>, classCount: nat)
    ensures lines == RenderLines(TypeLines(p, types, classCount0, caps).lines)
    ensures classCount == TypeLines(p, types, classCount0, caps).count
  {
    lines := [];
    classCount := classCount0;
    ghost var trail: seq<ArchLine> := [];
    var k := 0;
    while k < |types|
      invariant 0 <= k <= |types|
      invariant lines == RenderLines(trail)
      invariant trail + TypeLines(p, types[k..], classCount, caps).lines == TypeLines(p, types, classCount0, caps).lines
      invariant TypeLines(p, types[k..], classCount, caps).count == TypeLines(p, types, classCount0, caps).count
    {
      if classCount >= caps.maxClassesPerProject {
        break;
      }
      ghost var rest := types[k..];
      assert rest[0] == types[k] && rest[1..] == types[k + 1..];
      var classLines := EmitClass(p, classCount, types[k], caps);
      ghost var cls := ClassLines(p, classCount, types[k], caps);
      RenderLinesAppend(trail, cls);
      ConcatAssoc(trail, cls, TypeLines(p, types[k + 1..], classCount + 1, caps).lines);
      lines, trail := lines + classLines, trail + cls;
      classCount := classCount + 1;
      k := k + 1;
    }
  }

  /** One class: its node, its link to the documents group, and its first methods. */
  method EmitClass(p: nat, c: nat, t: TypeDecl, caps: Caps) returns (lines: seq<string>)
    ensures lines == RenderLines(ClassLines(p, c, t, caps))
  {
    var head := [ClassNode(p, c, t.name), ClassToDocuments(p, c)];
    lines := [RenderLine(head[0]), RenderLine(head[1])];
    assert lines == RenderLines(head) by {
      assert head[1..][1..] == [];
    }
    var methods := Take(t.methods, caps.maxMethodsPerClass);
    var methodLines := EmitMethods(p, c, methods);
    RenderLinesAppend(head, MethodLines(p, c, methods));
    lines := lines + methodLines;
  }

  /** One node per method of class `c`. */
  method EmitMethods(p: nat, c: nat, methods: seq<string>) returns (lines: seq<string>)
    ensures lines == RenderLines(MethodLines(p, c, methods))
  {
    lines := [];
    ghost var trail: seq<ArchLine> := [];
    for mi := 0 to |methods|
      invariant lines == RenderLines(trail)
      invariant trail == MethodLines(p, c, methods[..mi])
    {
      var node := MethodNode(p, c, mi, methods[mi]);
      RenderLinesSnoc(trail, node);
      assert methods[..mi + 1][..mi] == methods[..mi];
      lines, trail := lines + [RenderLine(node)], trail + [node];
    }
    assert methods[..|methods|] == methods;
  }

  /** The top-level methods of one document, until the project's counter reaches the cap. */
  method EmitTopMethods(p: nat, methods: seq<string>, freeMethodCount0: nat, caps: Caps)
    returns (lines: seq<string>, freeMethodCount: nat)
    ensures lines == RenderLines(TopMethodLines(p, methods, freeMethodCount0, caps).lines)
    ensures freeMethodCount == TopMethodLines(p, methods, freeMethodCount0, caps).count
  {
    lines := [];
    freeMethodCount := freeMethodCount0;
    ghost var trail: seq<ArchLine> := [];
    var k := 0;
    while k < |methods|
      invariant 0 <= k <= |methods|
      invariant lines == RenderLines(trail)
      invariant trail + TopMethodLines(p, methods[k..], freeMethodCount, caps).lines
                == TopMethodLines(p, methods, freeMethodCount0, caps).lines
      invariant TopMethodLines(p, methods[k..], freeMethodCount, caps).count
                == TopMethodLines(p, methods, freeMethodCount0, caps).count
    {
      if freeMethodCount >= caps.maxFreeMethods {
        break;
      }
      ghost var rest := methods[k..];
      assert rest[0] == methods[k] && rest[1..] == methods[k + 1..];
      var node := TopMethodNode(p, freeMethodCount, methods[k]);
      RenderLinesSnoc(trail, node);
      ConcatAssoc(trail, [node], TopMethodLines(p, methods[k + 1..], freeMethodCount + 1, caps).lines);
      lines, trail := lines + [RenderLine(node)], trail + [node];
      freeMethodCount := freeMethodCount + 1;
      k := k + 1;
    }
  }

  /** The Markdown page. */
  method BuildMarkdown(projects: seq<Project>, diagram: seq<string>) returns (lines: seq<string>)
    ensures lines == MarkdownLines(projects, diagram)
  {
    lines := [];
    lines := lines + ["# Architecture \U{2014} Code-Flow-IO"];
    lines := lines + [""];
    lines := lines + ["This file describes the processing chain and the projects/documents scanned by the tool."];
    lines := lines + [""];
    lines := lines + ["## Projects scanned"];
    assert lines == MarkdownHead;
    var k := 0;
    while k < |projects|
      invariant 0 <= k <= |projects|
      invariant lines == MarkdownHead + ProjectBullets(projects[..k])
    {
      assert projects[..k + 1][..k] == projects[..k];
      lines := lines + ["- " + projects[k].name];
      k := k + 1;
    }
    assert projects[..|projects|] == projects;
    ghost var before := lines;
    lines := lines + [""];
    lines := lines + ["## Flow diagram (Mermaid)"];
    lines := lines + [""];
    lines := lines + ["```mermaid"];
    assert lines == before + DiagramHead;
    lines := lines + (diagram + [""]);
    lines := lines + ["```"];
    lines := lines + [""];
    lines := lines + ["*Generated automatically by the tool.*"];
    assert lines == before + DiagramHead + (diagram + [""]) + MarkdownTail;
  }
}
