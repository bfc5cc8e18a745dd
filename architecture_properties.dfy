/**
  What the architecture flowchart promises: how many nodes of each kind a project
  contributes (the caps, the counters shared by the documents of a project, the
  method cap that starts again for every class), that every project gets its node,
  its documents group and its pipeline chain, that the projects come in order, and
  how the Markdown page embeds the flowchart.
 */
module ArchitectureProperties {
  import opened Wrappers
  import opened Text
  import opened Escaping
  import opened Architecture

  // ---------------------------------------------------------------------------
  // Counting the lines by kind

  /** What a line draws; a method node is told apart by the class it belongs to. */
  datatype Tag = ProjectTag | GroupTag | DocumentTag | ClassTag | ClassLinkTag | MethodTag(c: nat) | TopMethodTag | PipelineTag

  function TagOf(l: ArchLine): Tag {
    match l
    case ProjectNode(_, _) => ProjectTag
    case DocumentsGroup(_) => GroupTag
    case DocumentNode(_, _, _) => DocumentTag
    case ClassNode(_, _, _) => ClassTag
    case ClassToDocuments(_, _) => ClassLinkTag
    case MethodNode(_, c, _, _) => MethodTag(c)
    case TopMethodNode(_, _, _) => TopMethodTag
    case _ => PipelineTag
  }

  /** Number of lines with the given tag. */
  function Count(ls: seq<ArchLine>, tag: Tag): nat {
    if ls == [] then 0 else Count(ls[..|ls| - 1], tag) + (if TagOf(ls[|ls| - 1]) == tag then 1 else 0)
  }

  /** A single line counts once for its own tag. */
  lemma CountSingleton(l: ArchLine, tag: Tag)
    ensures Count([l], tag) == if TagOf(l) == tag then 1 else 0
  {
    assert [l][..0] == [];
  }

  /** Counts of a concatenation add up. */
  lemma {:induction false} CountAppend(a: seq<ArchLine>, b: seq<ArchLine>, tag: Tag)
    ensures Count(a + b, tag) == Count(a, tag) + Count(b, tag)
  {
    if b == [] {
      assert a + b == a;
    } else {
      assert (a + b)[..|a + b| - 1] == a + b[..|b| - 1];
      assert (a + b)[|a + b| - 1] == b[|b| - 1];
      CountAppend(a, b[..|b| - 1], tag);
    }
  }

  /**
    The counter after a capped walk over `n` items that starts at `count`: it goes up by
    one per item, stops when it reaches `cap`, and does not move when it starts there.
   */
  function Saturated(count: int, cap: int, n: nat): int {
    if count >= cap then count else if count + n < cap then count + n else cap
  }

  /** Two capped walks in a row are one walk over all their items. */
  lemma SaturatedCompose(c: int, cap: int, n1: nat, n2: nat)
    ensures Saturated(Saturated(c, cap, n1), cap, n2) == Saturated(c, cap, n1 + n2)
  {
  }

  /** Taking the first `cap` items before a walk capped at `cap` changes nothing. */
  lemma SaturatedTake<T>(f: nat, cap: int, ms: seq<T>)
    ensures Saturated(f, cap, |Take(ms, cap)|) == Saturated(f, cap, |ms|)
  {
  }

  // ---------------------------------------------------------------------------
  // The parts of one project

  /** One document node per document. */
  lemma {:induction false} DocumentLinesCount(p: nat, docs: seq<Document>, tag: Tag)
    ensures Count(DocumentLines(p, docs), tag) == if tag == DocumentTag then |docs| else 0
  {
    if docs != [] {
      var init := docs[..|docs| - 1];
      var node := DocumentNode(p, |docs| - 1, docs[|docs| - 1].name);
      DocumentLinesCount(p, init, tag);
      CountAppend(DocumentLines(p, init), [node], tag);
      CountSingleton(node, tag);
    }
  }

  /** One method node of class `c` per method. */
  lemma {:induction false} MethodLinesCount(p: nat, c: nat, methods: seq<string>, tag: Tag)
    ensures Count(MethodLines(p, c, methods), tag) == if tag == MethodTag(c) then |methods| else 0
  {
    if methods != [] {
      var init := methods[..|methods| - 1];
      var node := MethodNode(p, c, |methods| - 1, methods[|methods| - 1]);
      MethodLinesCount(p, c, init, tag);
      CountAppend(MethodLines(p, c, init), [node], tag);
      CountSingleton(node, tag);
    }
  }

  /** A class gives one class node, one link to the documents group, and its first `maxMethodsPerClass` methods. */
  lemma ClassLinesCount(p: nat, c: nat, t: TypeDecl, caps: Caps, tag: Tag)
    ensures Count(ClassLines(p, c, t, caps), tag) ==
      (if tag == ClassTag || tag == ClassLinkTag then 1 else 0)
      + (if tag == MethodTag(c) then |Take(t.methods, caps.maxMethodsPerClass)| else 0)
  {
    var methods := Take(t.methods, caps.maxMethodsPerClass);
    CountAppend([ClassNode(p, c, t.name), ClassToDocuments(p, c)], MethodLines(p, c, methods), tag);
    CountAppend([ClassNode(p, c, t.name)], [ClassToDocuments(p, c)], tag);
    assert [ClassNode(p, c, t.name), ClassToDocuments(p, c)] == [ClassNode(p, c, t.name)] + [ClassToDocuments(p, c)];
    CountSingleton(ClassNode(p, c, t.name), tag);
    CountSingleton(ClassToDocuments(p, c), tag);
    MethodLinesCount(p, c, methods, tag);
  }

  /**
    How many lines of each kind a capped walk over `types` (and over some top-level
    methods) draws when it moves the class counter from `c0` to `c` and the top-level
    method counter from `f0` to `f`: one class node and one link per class, as many
    method nodes of class `k` as the type at position `k - c0` has methods, up to
    `maxMethodsPerClass`, and one node per top-level method. Which lines these are, by
    name, is stated by `ExtractClassNodes` and `ExtractMethodNodes`.
   */
  function MembersCount(types: seq<TypeDecl>, c0: nat, c: int, f0: nat, f: int, caps: Caps, tag: Tag): int {
    match tag
    case ClassTag => c - c0
    case ClassLinkTag => c - c0
    case MethodTag(k) => MethodsOf(types, c0, c, caps, k)
    case TopMethodTag => f - f0
    case _ => 0
  }

  /** The number of method nodes of class `k`, the classes from `c0` to `c` being the types in order. */
  function MethodsOf(types: seq<TypeDecl>, c0: nat, c: int, caps: Caps, k: nat): nat {
    if c0 <= k < c && k - c0 < |types| then |Take(types[k - c0].methods, caps.maxMethodsPerClass)| else 0
  }

  /** The class counter after the types of a document: one up per type, stopping at `maxClassesPerProject`. */
  lemma {:induction false} TypeLinesCounter(p: nat, types: seq<TypeDecl>, count: nat, caps: Caps)
    ensures TypeLines(p, types, count, caps).count == Saturated(count, caps.maxClassesPerProject, |types|)
  {
    if types != [] && count < caps.maxClassesPerProject {
      TypeLinesCounter(p, types[1..], count + 1, caps);
    }
  }

  /** How many lines of each kind the types of a document draw; `TypeLinesClassNodes` and `TypeLinesMethodNodes` give them by name. */
  lemma {:induction false} TypeLinesCount(p: nat, types: seq<TypeDecl>, count: nat, caps: Caps, tag: Tag)
    ensures TypeLines(p, types, count, caps).count == Saturated(count, caps.maxClassesPerProject, |types|)
    ensures Count(TypeLines(p, types, count, caps).lines, tag)
         == MembersCount(types, count, TypeLines(p, types, count, caps).count, 0, 0, caps, tag)
  {
    TypeLinesCounter(p, types, count, caps);
    if types != [] && count < caps.maxClassesPerProject {
      var rest := TypeLines(p, types[1..], count + 1, caps);
      TypeLinesCount(p, types[1..], count + 1, caps, tag);
      ClassLinesCount(p, count, types[0], caps, tag);
      CountAppend(ClassLines(p, count, types[0], caps), rest.lines, tag);
      if tag.MethodTag? {
        MembersSplit([types[0]], types[1..], count, count + 1, rest.count, caps, tag.c);
        assert [types[0]] + types[1..] == types;
      }
    }
  }

  /** The top-level methods of a document: the counter stops at `maxFreeMethods`, one node per method walked. */
  lemma {:induction false} TopMethodLinesCount(p: nat, methods: seq<string>, count: nat, caps: Caps, tag: Tag)
    ensures TopMethodLines(p, methods, count, caps).count == Saturated(count, caps.maxFreeMethods, |methods|)
    ensures Count(TopMethodLines(p, methods, count, caps).lines, tag) ==
      if tag == TopMethodTag then TopMethodLines(p, methods, count, caps).count - count else 0
  {
    if methods != [] && count < caps.maxFreeMethods {
      var rest := TopMethodLines(p, methods[1..], count + 1, caps);
      TopMethodLinesCount(p, methods[1..], count + 1, caps, tag);
      CountAppend([TopMethodNode(p, count, methods[0])], rest.lines, tag);
      CountSingleton(TopMethodNode(p, count, methods[0]), tag);
    }
  }

  /** The types the walk finds in a document: none without a syntax root. */
  function DocumentTypes(doc: Document): seq<TypeDecl> {
    match doc.root
    case None => []
    case Some(root) => root.types
  }

  /** The number of top-level methods the walk finds in a document. */
  function DocumentTopMethods(doc: Document): nat {
    match doc.root
    case None => 0
    case Some(root) => |root.topLevelMethods|
  }

  /** The types of all the documents, in order. */
  function AllTypes(docs: seq<Document>): seq<TypeDecl> {
    if docs == [] then [] else DocumentTypes(docs[0]) + AllTypes(docs[1..])
  }

  /** The number of top-level methods of all the documents. */
  function AllTopMethods(docs: seq<Document>): nat {
    if docs == [] then 0 else DocumentTopMethods(docs[0]) + AllTopMethods(docs[1..])
  }

  /** The members of one document, the counters taken from the documents before it. */
  lemma DocumentExtractionCount(p: nat, doc: Document, classCount: nat, freeMethodCount: nat, caps: Caps, tag: Tag)
    ensures var e := DocumentExtraction(p, doc, classCount, freeMethodCount, caps);
      && e.classCount == Saturated(classCount, caps.maxClassesPerProject, |DocumentTypes(doc)|)
      && e.freeMethodCount == Saturated(freeMethodCount, caps.maxFreeMethods, DocumentTopMethods(doc))
      && Count(e.lines, tag) == MembersCount(DocumentTypes(doc), classCount, e.classCount, freeMethodCount, e.freeMethodCount, caps, tag)
  {
    if doc.root.Some? {
      var root := doc.root.value;
      var top := Take(root.topLevelMethods, caps.maxFreeMethods);
      TypeLinesCount(p, root.types, classCount, caps, tag);
      TopMethodLinesCount(p, top, freeMethodCount, caps, tag);
      SaturatedTake(freeMethodCount, caps.maxFreeMethods, root.topLevelMethods);
      CountAppend(TypeLines(p, root.types, classCount, caps).lines, TopMethodLines(p, top, freeMethodCount, caps).lines, tag);
    }
  }

  /** The two counters after all the documents. */
  lemma {:induction false} ExtractCounters(p: nat, docs: seq<Document>, classCount: nat, freeMethodCount: nat, caps: Caps)
    ensures var e := Extract(p, docs, classCount, freeMethodCount, caps);
      && e.classCount == Saturated(classCount, caps.maxClassesPerProject, |AllTypes(docs)|)
      && e.freeMethodCount == Saturated(freeMethodCount, caps.maxFreeMethods, AllTopMethods(docs))
  {
    if docs != [] {
      var first := DocumentExtraction(p, docs[0], classCount, freeMethodCount, caps);
      DocumentExtractionCount(p, docs[0], classCount, freeMethodCount, caps, ClassTag);
      ExtractCounters(p, docs[1..], first.classCount, first.freeMethodCount, caps);
      SaturatedCompose(classCount, caps.maxClassesPerProject, |DocumentTypes(docs[0])|, |AllTypes(docs[1..])|);
      SaturatedCompose(freeMethodCount, caps.maxFreeMethods, DocumentTopMethods(docs[0]), AllTopMethods(docs[1..]));
    }
  }

  /** A capped walk that stopped short of its items has reached the cap, and a later walk cannot move it. */
  lemma SaturatedStall(c: nat, cap: int, n1: nat, n2: nat)
    requires Saturated(c, cap, n1) < c + n1
    ensures Saturated(Saturated(c, cap, n1), cap, n2) == Saturated(c, cap, n1)
  {
  }

  /** How many method nodes class `k` gets over all the documents. */
  lemma {:induction false} ExtractMethods(p: nat, docs: seq<Document>, classCount: nat, freeMethodCount: nat, caps: Caps, k: nat)
    ensures var e := Extract(p, docs, classCount, freeMethodCount, caps);
      Count(e.lines, MethodTag(k)) == MethodsOf(AllTypes(docs), classCount, e.classCount, caps, k)
  {
    if docs != [] {
      var first := DocumentExtraction(p, docs[0], classCount, freeMethodCount, caps);
      var rest := Extract(p, docs[1..], first.classCount, first.freeMethodCount, caps);
      var n0 := |DocumentTypes(docs[0])|;
      DocumentExtractionCount(p, docs[0], classCount, freeMethodCount, caps, MethodTag(k));
      ExtractCounters(p, docs[1..], first.classCount, first.freeMethodCount, caps);
      ExtractMethods(p, docs[1..], first.classCount, first.freeMethodCount, caps, k);
      CountAppend(first.lines, rest.lines, MethodTag(k));
      if first.classCount < classCount + n0 {
        SaturatedStall(classCount, caps.maxClassesPerProject, n0, |AllTypes(docs[1..])|);
      }
      MembersSplit(DocumentTypes(docs[0]), AllTypes(docs[1..]), classCount, first.classCount, rest.classCount, caps, k);
    }
  }

  /** The other lines over all the documents. */
  lemma {:induction false} ExtractOthers(p: nat, docs: seq<Document>, classCount: nat, freeMethodCount: nat, caps: Caps, tag: Tag)
    requires !tag.MethodTag?
    ensures var e := Extract(p, docs, classCount, freeMethodCount, caps);
      Count(e.lines, tag) == MembersCount(AllTypes(docs), classCount, e.classCount, freeMethodCount, e.freeMethodCount, caps, tag)
  {
    if docs != [] {
      var first := DocumentExtraction(p, docs[0], classCount, freeMethodCount, caps);
      var rest := Extract(p, docs[1..], first.classCount, first.freeMethodCount, caps);
      DocumentExtractionCount(p, docs[0], classCount, freeMethodCount, caps, tag);
      ExtractOthers(p, docs[1..], first.classCount, first.freeMethodCount, caps, tag);
      CountAppend(first.lines, rest.lines, tag);
    }
  }

  /**
    The members of all the documents: the class counter and the top-level method counter
    run on from one document to the next and stop at their caps, so class `k` gets as
    many method nodes as the type at position `k` (from the starting counter) among the
    types of all the documents has, up to the per-class cap.
   */
  lemma ExtractCount(p: nat, docs: seq<Document>, classCount: nat, freeMethodCount: nat, caps: Caps, tag: Tag)
    ensures var e := Extract(p, docs, classCount, freeMethodCount, caps);
      && e.classCount == Saturated(classCount, caps.maxClassesPerProject, |AllTypes(docs)|)
      && e.freeMethodCount == Saturated(freeMethodCount, caps.maxFreeMethods, AllTopMethods(docs))
      && Count(e.lines, tag) == MembersCount(AllTypes(docs), classCount, e.classCount, freeMethodCount, e.freeMethodCount, caps, tag)
  {
    ExtractCounters(p, docs, classCount, freeMethodCount, caps);
    if tag.MethodTag? {
      ExtractMethods(p, docs, classCount, freeMethodCount, caps, tag.c);
    } else {
      ExtractOthers(p, docs, classCount, freeMethodCount, caps, tag);
    }
  }

  /** The method count of class `k` over two runs of types, the second run starting where the first stopped. */
  lemma MembersSplit(a: seq<TypeDecl>, b: seq<TypeDecl>, c0: nat, c1: nat, c2: int, caps: Caps, k: nat)
    requires c0 <= c1 <= c0 + |a|
    requires c1 <= c2
    requires c1 < c0 + |a| ==> c2 == c1
    requires c2 <= c1 + |b|
    ensures MethodsOf(a + b, c0, c2, caps, k) == MethodsOf(a, c0, c1, caps, k) + MethodsOf(b, c1, c2, caps, k)
  {
    if c0 <= k < c1 {
      assert (a + b)[k - c0] == a[k - c0];
    } else if c1 <= k < c2 {
      assert (a + b)[k - c0] == b[k - c1];
    }
  }

  // ---------------------------------------------------------------------------
  // The class and method nodes by name

  /** The lines with the given tag, in order. */
  function Select(ls: seq<ArchLine>, tag: Tag): seq<ArchLine> {
    if ls == [] then []
    else Select(ls[..|ls| - 1], tag) + (if TagOf(ls[|ls| - 1]) == tag then [ls[|ls| - 1]] else [])
  }

  /** The selected lines are as many as the count says, and all carry the tag. */
  lemma {:induction false} SelectCount(ls: seq<ArchLine>, tag: Tag)
    ensures |Select(ls, tag)| == Count(ls, tag)
    ensures forall j :: 0 <= j < |Select(ls, tag)| ==> TagOf(Select(ls, tag)[j]) == tag
  {
    if ls != [] {
      SelectCount(ls[..|ls| - 1], tag);
    }
  }

  /** A single line is selected exactly by its own tag. */
  lemma SelectSingleton(l: ArchLine, tag: Tag)
    ensures Select([l], tag) == if TagOf(l) == tag then [l] else []
  {
    assert [l][..0] == [];
  }

  /** Selecting from a concatenation selects from each part. */
  lemma {:induction false} SelectAppend(a: seq<ArchLine>, b: seq<ArchLine>, tag: Tag)
    ensures Select(a + b, tag) == Select(a, tag) + Select(b, tag)
  {
    if b == [] {
      assert a + b == a;
    } else {
      assert (a + b)[..|a + b| - 1] == a + b[..|b| - 1];
      assert (a + b)[|a + b| - 1] == b[|b| - 1];
      SelectAppend(a, b[..|b| - 1], tag);
    }
  }

  /** The method nodes of class `c` are numbered from 0 and carry the method names in order. */
  lemma {:induction false} MethodLinesAt(p: nat, c: nat, methods: seq<string>)
    ensures |MethodLines(p, c, methods)| == |methods|
    ensures forall m :: 0 <= m < |methods| ==> MethodLines(p, c, methods)[m] == MethodNode(p, c, m, methods[m])
  {
    if methods != [] {
      MethodLinesAt(p, c, methods[..|methods| - 1]);
    }
  }

  /** The method lines of class `c` are all of class `c`. */
  lemma {:induction false} MethodLinesSelect(p: nat, c: nat, methods: seq<string>, tag: Tag)
    ensures Select(MethodLines(p, c, methods), tag) == if tag == MethodTag(c) then MethodLines(p, c, methods) else []
  {
    if methods != [] {
      var init := methods[..|methods| - 1];
      var node := MethodNode(p, c, |methods| - 1, methods[|methods| - 1]);
      MethodLinesSelect(p, c, init, tag);
      SelectAppend(MethodLines(p, c, init), [node], tag);
      SelectSingleton(node, tag);
    }
  }

  /** The node and the link that open the lines of class `c`. */
  lemma ClassHeadSelect(p: nat, c: nat, name: string, tag: Tag)
    ensures Select([ClassNode(p, c, name), ClassToDocuments(p, c)], tag) ==
      (if tag == ClassTag then [ClassNode(p, c, name)] else []) + (if tag == ClassLinkTag then [ClassToDocuments(p, c)] else [])
  {
    var head := [ClassNode(p, c, name), ClassToDocuments(p, c)];
    assert head[..1] == [ClassNode(p, c, name)];
    SelectSingleton(ClassNode(p, c, name), tag);
  }

  /** A class draws one class node: its own. */
  lemma ClassLinesClassNodes(p: nat, c: nat, t: TypeDecl, caps: Caps)
    ensures Select(ClassLines(p, c, t, caps), ClassTag) == [ClassNode(p, c, t.name)]
  {
    var ms := MethodLines(p, c, Take(t.methods, caps.maxMethodsPerClass));
    var head := [ClassNode(p, c, t.name), ClassToDocuments(p, c)];
    SelectAppend(head, ms, ClassTag);
    ClassHeadSelect(p, c, t.name, ClassTag);
    MethodLinesSelect(p, c, Take(t.methods, caps.maxMethodsPerClass), ClassTag);
  }

  /** The method nodes a class draws are its first `maxMethodsPerClass` methods, and no other class's. */
  lemma ClassLinesMethodNodes(p: nat, c: nat, t: TypeDecl, caps: Caps, k: nat)
    ensures Select(ClassLines(p, c, t, caps), MethodTag(k)) ==
      if k == c then MethodLines(p, c, Take(t.methods, caps.maxMethodsPerClass)) else []
  {
    var ms := MethodLines(p, c, Take(t.methods, caps.maxMethodsPerClass));
    var head := [ClassNode(p, c, t.name), ClassToDocuments(p, c)];
    SelectAppend(head, ms, MethodTag(k));
    ClassHeadSelect(p, c, t.name, MethodTag(k));
    MethodLinesSelect(p, c, Take(t.methods, caps.maxMethodsPerClass), MethodTag(k));
  }

  /** The method nodes of class `k` by name: the capped methods of the type at position `k - c0`, the classes from `c0` to `c` being the types in order. */
  function MethodNodesOf(p: nat, types: seq<TypeDecl>, c0: nat, c: int, caps: Caps, k: nat): seq<ArchLine> {
    if c0 <= k < c && k - c0 < |types| then MethodLines(p, k, Take(types[k - c0].methods, caps.maxMethodsPerClass)) else []
  }

  /** Counting classes from 0, class `k` gets method node `m` for method `m` of type `k` when it was drawn, and none otherwise. */
  lemma MethodNodesOfAt(p: nat, types: seq<TypeDecl>, n: int, caps: Caps, k: nat)
    requires n <= |types|
    ensures var ms := MethodNodesOf(p, types, 0, n, caps, k);
      && (k < n ==>
            && |ms| == |Take(types[k].methods, caps.maxMethodsPerClass)|
            && forall m :: 0 <= m < |ms| ==> ms[m] == MethodNode(p, k, m, types[k].methods[m]))
      && (k >= n ==> ms == [])
  {
    if k < n {
      var methods := Take(types[k].methods, caps.maxMethodsPerClass);
      MethodLinesAt(p, k, methods);
      assert forall m :: 0 <= m < |methods| ==> methods[m] == types[k].methods[m];
    }
  }

  /** The method nodes of class `k` over two runs of types, the second run starting where the first stopped. */
  lemma MethodNodesSplit(p: nat, a: seq<TypeDecl>, b: seq<TypeDecl>, c0: nat, c1: nat, c2: int, caps: Caps, k: nat)
    requires c0 <= c1 <= c0 + |a|
    requires c1 <= c2
    requires c1 < c0 + |a| ==> c2 == c1
    requires c2 <= c1 + |b|
    ensures MethodNodesOf(p, a + b, c0, c2, caps, k) == MethodNodesOf(p, a, c0, c1, caps, k) + MethodNodesOf(p, b, c1, c2, caps, k)
  {
    if c0 <= k < c1 {
      assert (a + b)[k - c0] == a[k - c0];
    } else if c1 <= k < c2 {
      assert (a + b)[k - c0] == b[k - c1];
    }
  }

  /** The class nodes of classes `c0` up to `c`, the classes being the types in order. */
  function ClassNodesOf(p: nat, types: seq<TypeDecl>, c0: nat, c: int): seq<ArchLine> {
    if c0 >= c || types == [] then []
    else [ClassNode(p, c0, types[0].name)] + ClassNodesOf(p, types[1..], c0 + 1, c)
  }

  /** Class node `j` (from `c0`) names the type at position `j`. */
  lemma {:induction false} ClassNodesAt(p: nat, types: seq<TypeDecl>, c0: nat, c: int)
    ensures |ClassNodesOf(p, types, c0, c)| == if c <= c0 then 0 else if c - c0 < |types| then c - c0 else |types|
    ensures forall j :: 0 <= j < |ClassNodesOf(p, types, c0, c)| ==>
      ClassNodesOf(p, types, c0, c)[j] == ClassNode(p, c0 + j, types[j].name)
  {
    if c0 < c && types != [] {
      ClassNodesAt(p, types[1..], c0 + 1, c);
      var r := ClassNodesOf(p, types, c0, c);
      forall j | 0 < j < |r| ensures r[j] == ClassNode(p, c0 + j, types[j].name) {
        assert r[j] == ClassNodesOf(p, types[1..], c0 + 1, c)[j - 1];
        assert types[1..][j - 1] == types[j];
      }
    }
  }

  /** The class nodes over two runs of types, the second run starting where the first stopped. */
  lemma {:induction false} ClassNodesSplit(p: nat, a: seq<TypeDecl>, b: seq<TypeDecl>, c0: nat, c1: nat, c2: int)
    requires c0 <= c1 <= c0 + |a|
    requires c1 <= c2
    requires c1 < c0 + |a| ==> c2 == c1
    ensures ClassNodesOf(p, a + b, c0, c2) == ClassNodesOf(p, a, c0, c1) + ClassNodesOf(p, b, c1, c2)
  {
    if a == [] {
      assert a + b == b;
    } else if c0 < c1 {
      assert (a + b)[0] == a[0];
      assert (a + b)[1..] == a[1..] + b;
      ClassNodesSplit(p, a[1..], b, c0 + 1, c1, c2);
    }
  }

  /** The class nodes of one document's types: one per type walked, numbered from the counter on. */
  lemma {:induction false} TypeLinesClassNodes(p: nat, types: seq<TypeDecl>, count: nat, caps: Caps)
    ensures var w := TypeLines(p, types, count, caps);
      Select(w.lines, ClassTag) == ClassNodesOf(p, types, count, w.count)
  {
    TypeLinesCounter(p, types, count, caps);
    if types != [] && count < caps.maxClassesPerProject {
      var rest := TypeLines(p, types[1..], count + 1, caps);
      TypeLinesCounter(p, types[1..], count + 1, caps);
      TypeLinesClassNodes(p, types[1..], count + 1, caps);
      ClassLinesClassNodes(p, count, types[0], caps);
      SelectAppend(ClassLines(p, count, types[0], caps), rest.lines, ClassTag);
    }
  }

  /** The method nodes of class `k` in one document's types: the capped methods of the type at position `k - count`. */
  lemma {:induction false} TypeLinesMethodNodes(p: nat, types: seq<TypeDecl>, count: nat, caps: Caps, k: nat)
    ensures var w := TypeLines(p, types, count, caps);
      Select(w.lines, MethodTag(k)) == MethodNodesOf(p, types, count, w.count, caps, k)
  {
    if types != [] && count < caps.maxClassesPerProject {
      var rest := TypeLines(p, types[1..], count + 1, caps);
      TypeLinesCounter(p, types[1..], count + 1, caps);
      TypeLinesMethodNodes(p, types[1..], count + 1, caps, k);
      ClassLinesMethodNodes(p, count, types[0], caps, k);
      SelectAppend(ClassLines(p, count, types[0], caps), rest.lines, MethodTag(k));
      MethodNodesSplit(p, [types[0]], types[1..], count, count + 1, rest.count, caps, k);
      assert [types[0]] + types[1..] == types;
    }
  }

  /** The class nodes of one document. */
  lemma DocumentExtractionClassNodes(p: nat, doc: Document, classCount: nat, freeMethodCount: nat, caps: Caps)
    ensures var e := DocumentExtraction(p, doc, classCount, freeMethodCount, caps);
      Select(e.lines, ClassTag) == ClassNodesOf(p, DocumentTypes(doc), classCount, e.classCount)
  {
    if doc.root.Some? {
      var root := doc.root.value;
      var top := Take(root.topLevelMethods, caps.maxFreeMethods);
      var free := TopMethodLines(p, top, freeMethodCount, caps);
      TypeLinesClassNodes(p, root.types, classCount, caps);
      TopMethodLinesCount(p, top, freeMethodCount, caps, ClassTag);
      SelectCount(free.lines, ClassTag);
      SelectAppend(TypeLines(p, root.types, classCount, caps).lines, free.lines, ClassTag);
    }
  }

  /** The method nodes of class `k` in one document. */
  lemma DocumentExtractionMethodNodes(p: nat, doc: Document, classCount: nat, freeMethodCount: nat, caps: Caps, k: nat)
    ensures var e := DocumentExtraction(p, doc, classCount, freeMethodCount, caps);
      Select(e.lines, MethodTag(k)) == MethodNodesOf(p, DocumentTypes(doc), classCount, e.classCount, caps, k)
  {
    if doc.root.Some? {
      var root := doc.root.value;
      var top := Take(root.topLevelMethods, caps.maxFreeMethods);
      var free := TopMethodLines(p, top, freeMethodCount, caps);
      TypeLinesMethodNodes(p, root.types, classCount, caps, k);
      TopMethodLinesCount(p, top, freeMethodCount, caps, MethodTag(k));
      SelectCount(free.lines, MethodTag(k));
      SelectAppend(TypeLines(p, root.types, classCount, caps).lines, free.lines, MethodTag(k));
    }
  }

  /** The class counter over the first document and the rest: the rest starts where the first stopped, and adds nothing once the first stopped short. */
  lemma ExtractStep(p: nat, docs: seq<Document>, classCount: nat, freeMethodCount: nat, caps: Caps)
    requires docs != []
    ensures var first := DocumentExtraction(p, docs[0], classCount, freeMethodCount, caps);
      var rest := Extract(p, docs[1..], first.classCount, first.freeMethodCount, caps);
      var n0 := |DocumentTypes(docs[0])|;
      && classCount <= first.classCount <= classCount + n0
      && first.classCount <= rest.classCount <= first.classCount + |AllTypes(docs[1..])|
      && (first.classCount < classCount + n0 ==> rest.classCount == first.classCount)
  {
    var first := DocumentExtraction(p, docs[0], classCount, freeMethodCount, caps);
    var n0 := |DocumentTypes(docs[0])|;
    DocumentExtractionCount(p, docs[0], classCount, freeMethodCount, caps, ClassTag);
    ExtractCounters(p, docs[1..], first.classCount, first.freeMethodCount, caps);
    if first.classCount < classCount + n0 {
      SaturatedStall(classCount, caps.maxClassesPerProject, n0, |AllTypes(docs[1..])|);
    }
  }

  /**
    The class nodes of all the documents, by name: class `classCount + j` is the type at
    position `j` among the types of all the documents, up to the class cap.
   */
  lemma {:induction false} ExtractClassNodes(p: nat, docs: seq<Document>, classCount: nat, freeMethodCount: nat, caps: Caps)
    ensures var e := Extract(p, docs, classCount, freeMethodCount, caps);
      Select(e.lines, ClassTag) == ClassNodesOf(p, AllTypes(docs), classCount, e.classCount)
  {
    if docs != [] {
      var first := DocumentExtraction(p, docs[0], classCount, freeMethodCount, caps);
      var rest := Extract(p, docs[1..], first.classCount, first.freeMethodCount, caps);
      var a, b := DocumentTypes(docs[0]), AllTypes(docs[1..]);
      ExtractStep(p, docs, classCount, freeMethodCount, caps);
      DocumentExtractionClassNodes(p, docs[0], classCount, freeMethodCount, caps);
      ExtractClassNodes(p, docs[1..], first.classCount, first.freeMethodCount, caps);
      SelectAppend(first.lines, rest.lines, ClassTag);
      ClassNodesSplit(p, a, b, classCount, first.classCount, rest.classCount);
    }
  }

  /**
    The method nodes of class `k` over all the documents, by name: the first
    `maxMethodsPerClass` methods of the type at position `k - classCount` among the
    types of all the documents, when class `k` was drawn; none otherwise.
   */
  lemma {:induction false} ExtractMethodNodes(p: nat, docs: seq<Document>, classCount: nat, freeMethodCount: nat, caps: Caps, k: nat)
    ensures var e := Extract(p, docs, classCount, freeMethodCount, caps);
      Select(e.lines, MethodTag(k)) == MethodNodesOf(p, AllTypes(docs), classCount, e.classCount, caps, k)
  {
    if docs != [] {
      var first := DocumentExtraction(p, docs[0], classCount, freeMethodCount, caps);
      var rest := Extract(p, docs[1..], first.classCount, first.freeMethodCount, caps);
      var n0 := |DocumentTypes(docs[0])|;
      DocumentExtractionCount(p, docs[0], classCount, freeMethodCount, caps, ClassTag);
      DocumentExtractionMethodNodes(p, docs[0], classCount, freeMethodCount, caps, k);
      ExtractCounters(p, docs[1..], first.classCount, first.freeMethodCount, caps);
      ExtractMethodNodes(p, docs[1..], first.classCount, first.freeMethodCount, caps, k);
      SelectAppend(first.lines, rest.lines, MethodTag(k));
      if first.classCount < classCount + n0 {
        SaturatedStall(classCount, caps.maxClassesPerProject, n0, |AllTypes(docs[1..])|);
      }
      MethodNodesSplit(p, DocumentTypes(docs[0]), AllTypes(docs[1..]), classCount, first.classCount, rest.classCount, caps, k);
    }
  }

  // ---------------------------------------------------------------------------
  // One project

  /** The project node and the documents group. */
  lemma HeadCount(p: nat, name: string, tag: Tag)
    ensures Count([ProjectNode(p, name), DocumentsGroup(p)], tag) == if tag == ProjectTag || tag == GroupTag then 1 else 0
  {
    assert [ProjectNode(p, name), DocumentsGroup(p)] == [ProjectNode(p, name)] + [DocumentsGroup(p)];
    CountAppend([ProjectNode(p, name)], [DocumentsGroup(p)], tag);
    CountSingleton(ProjectNode(p, name), tag);
    CountSingleton(DocumentsGroup(p), tag);
  }

  /** The five lines of the pipeline chain. */
  lemma PipelineCount(p: nat, name: string, tag: Tag)
    ensures Count(PipelineLines(p, name), tag) == if tag == PipelineTag then 5 else 0
  {
    var chain := PipelineLines(p, name);
    assert chain == [chain[0]] + [chain[1]] + [chain[2]] + [chain[3]] + [chain[4]];
    CountAppend([chain[0]] + [chain[1]] + [chain[2]] + [chain[3]], [chain[4]], tag);
    CountAppend([chain[0]] + [chain[1]] + [chain[2]], [chain[3]], tag);
    CountAppend([chain[0]] + [chain[1]], [chain[2]], tag);
    CountAppend([chain[0]], [chain[1]], tag);
    CountSingleton(chain[0], tag);
    CountSingleton(chain[1], tag);
    CountSingleton(chain[2], tag);
    CountSingleton(chain[3], tag);
    CountSingleton(chain[4], tag);
  }

  /**
    The number of lines of each kind in a project: one project node, one documents group,
    one node per document kept, the classes and top-level methods of those documents when
    the project compiled (counted across all its documents, from zero), and five pipeline lines.
   */
  function ProjectCountOf(project: Project, caps: Caps, tag: Tag): int {
    var docs := Take(project.documents, caps.maxDocsPerProject);
    var classes := if project.compiled then Saturated(0, caps.maxClassesPerProject, |AllTypes(docs)|) else 0;
    var free := if project.compiled then Saturated(0, caps.maxFreeMethods, AllTopMethods(docs)) else 0;
    match tag
    case ProjectTag => 1
    case GroupTag => 1
    case DocumentTag => |docs|
    case PipelineTag => 5
    case _ => MembersCount(AllTypes(docs), 0, classes, 0, free, caps, tag)
  }

  /** Every line of a project, counted by kind. */
  lemma ProjectCount(p: nat, project: Project, caps: Caps, tag: Tag)
    ensures Count(ProjectLines(p, project, caps), tag) == ProjectCountOf(project, caps, tag)
  {
    var docs := Take(project.documents, caps.maxDocsPerProject);
    var head := [ProjectNode(p, project.name), DocumentsGroup(p)];
    var members := if project.compiled then Extract(p, docs, 0, 0, caps).lines else [];
    var chain := PipelineLines(p, project.name);
    assert ProjectLines(p, project, caps) == head + DocumentLines(p, docs) + members + chain;
    CountAppend(head, DocumentLines(p, docs), tag);
    CountAppend(head + DocumentLines(p, docs), members, tag);
    CountAppend(head + DocumentLines(p, docs) + members, chain, tag);
    HeadCount(p, project.name, tag);
    DocumentLinesCount(p, docs, tag);
    PipelineCount(p, project.name, tag);
    if project.compiled {
      ExtractCount(p, docs, 0, 0, caps, tag);
    }
  }

  /**
    The caps: exactly `min(maxDocsPerProject, |documents|)` document nodes; at most
    `maxClassesPerProject` class nodes and at most `maxFreeMethods` top-level method nodes
    for the whole project; at most `maxMethodsPerClass` method nodes for every class; no
    class, method or top-level method node when the project did not compile.
   */
  lemma ProjectBounds(p: nat, project: Project, caps: Caps)
    ensures var ls := ProjectLines(p, project, caps); var n := |project.documents|;
      Count(ls, DocumentTag) == if caps.maxDocsPerProject <= 0 then 0 else if caps.maxDocsPerProject < n then caps.maxDocsPerProject else n
    ensures Count(ProjectLines(p, project, caps), ClassTag) <= if caps.maxClassesPerProject < 0 then 0 else caps.maxClassesPerProject
    ensures Count(ProjectLines(p, project, caps), TopMethodTag) <= if caps.maxFreeMethods < 0 then 0 else caps.maxFreeMethods
    ensures forall k: nat :: Count(ProjectLines(p, project, caps), MethodTag(k)) <= if caps.maxMethodsPerClass < 0 then 0 else caps.maxMethodsPerClass
    ensures !project.compiled ==>
      && Count(ProjectLines(p, project, caps), ClassTag) == 0
      && Count(ProjectLines(p, project, caps), TopMethodTag) == 0
      && forall k: nat :: Count(ProjectLines(p, project, caps), MethodTag(k)) == 0
  {
    ProjectCount(p, project, caps, DocumentTag);
    ProjectCount(p, project, caps, ClassTag);
    ProjectCount(p, project, caps, TopMethodTag);
    forall k: nat ensures Count(ProjectLines(p, project, caps), MethodTag(k)) <= if caps.maxMethodsPerClass < 0 then 0 else caps.maxMethodsPerClass
    {
      ProjectCount(p, project, caps, MethodTag(k));
    }
    forall k: nat | !project.compiled ensures Count(ProjectLines(p, project, caps), MethodTag(k)) == 0 {
      ProjectCount(p, project, caps, MethodTag(k));
    }
  }

  /** The class and method nodes of a project are those of its documents' members, and there are none when it did not compile. */
  lemma ProjectSelect(p: nat, project: Project, caps: Caps, tag: Tag)
    requires tag == ClassTag || tag.MethodTag?
    ensures var docs := Take(project.documents, caps.maxDocsPerProject);
      Select(ProjectLines(p, project, caps), tag) == if project.compiled then Select(Extract(p, docs, 0, 0, caps).lines, tag) else []
  {
    var docs := Take(project.documents, caps.maxDocsPerProject);
    var head := [ProjectNode(p, project.name), DocumentsGroup(p)];
    var members := if project.compiled then Extract(p, docs, 0, 0, caps).lines else [];
    var chain := PipelineLines(p, project.name);
    assert ProjectLines(p, project, caps) == head + DocumentLines(p, docs) + members + chain;
    SelectAppend(head, DocumentLines(p, docs), tag);
    SelectAppend(head + DocumentLines(p, docs), members, tag);
    SelectAppend(head + DocumentLines(p, docs) + members, chain, tag);
    HeadCount(p, project.name, tag);
    SelectCount(head, tag);
    DocumentLinesCount(p, docs, tag);
    SelectCount(DocumentLines(p, docs), tag);
    PipelineCount(p, project.name, tag);
    SelectCount(chain, tag);
  }

  /**
    The class nodes of a project, by name: when the project compiled, class node `j`
    names type `j` of its first `maxDocsPerProject` documents, in order, up to
    `maxClassesPerProject` classes; when it did not compile, there is none.
   */
  lemma ProjectClassNodes(p: nat, project: Project, caps: Caps)
    ensures var types := AllTypes(Take(project.documents, caps.maxDocsPerProject));
      var cs := Select(ProjectLines(p, project, caps), ClassTag);
      var n := if project.compiled then Saturated(0, caps.maxClassesPerProject, |types|) else 0;
      && |cs| == n
      && forall j :: 0 <= j < n ==> cs[j] == ClassNode(p, j, types[j].name)
  {
    var docs := Take(project.documents, caps.maxDocsPerProject);
    ProjectSelect(p, project, caps, ClassTag);
    if project.compiled {
      var e := Extract(p, docs, 0, 0, caps);
      ExtractCounters(p, docs, 0, 0, caps);
      ExtractClassNodes(p, docs, 0, 0, caps);
      ClassNodesAt(p, AllTypes(docs), 0, e.classCount);
    }
  }

  /**
    The method nodes of class `k` in a project, by name: when the project compiled and
    drew class `k`, they are numbered from 0 and name, in order, the first
    `maxMethodsPerClass` methods of type `k` of its first documents; otherwise there is none.
   */
  lemma ProjectMethodNodes(p: nat, project: Project, caps: Caps, k: nat)
    ensures var types := AllTypes(Take(project.documents, caps.maxDocsPerProject));
      var ms := Select(ProjectLines(p, project, caps), MethodTag(k));
      var n := if project.compiled then Saturated(0, caps.maxClassesPerProject, |types|) else 0;
      && (k < n ==>
            && |ms| == |Take(types[k].methods, caps.maxMethodsPerClass)|
            && forall m :: 0 <= m < |ms| ==> ms[m] == MethodNode(p, k, m, types[k].methods[m]))
      && (k >= n ==> ms == [])
  {
    var docs := Take(project.documents, caps.maxDocsPerProject);
    ProjectSelect(p, project, caps, MethodTag(k));
    if project.compiled {
      ExtractCounters(p, docs, 0, 0, caps);
      ExtractMethodNodes(p, docs, 0, 0, caps, k);
      MethodNodesOfAt(p, AllTypes(docs), Saturated(0, caps.maxClassesPerProject, |AllTypes(docs)|), caps, k);
    }
  }

  /** With the default caps, a project with at least eight documents shows exactly eight of them. */
  lemma DefaultDocumentCap(p: nat, project: Project)
    requires |project.documents| >= 8
    ensures Count(ProjectLines(p, project, DefaultCaps), DocumentTag) == 8
  {
    ProjectBounds(p, project, DefaultCaps);
  }

  /** Every project starts with its node and its documents group and ends with its five-line pipeline chain. */
  lemma ProjectFrame(p: nat, project: Project, caps: Caps)
    ensures var ls := ProjectLines(p, project, caps);
      && |ls| >= 7
      && ls[0] == ProjectNode(p, project.name)
      && ls[1] == DocumentsGroup(p)
      && ls[|ls| - 5..] == PipelineLines(p, project.name)
  {
    var docs := Take(project.documents, caps.maxDocsPerProject);
    var members := if project.compiled then Extract(p, docs, 0, 0, caps).lines else [];
    var body := [ProjectNode(p, project.name), DocumentsGroup(p)] + DocumentLines(p, docs) + members;
    assert ProjectLines(p, project, caps) == body + PipelineLines(p, project.name);
  }

  // ---------------------------------------------------------------------------
  // All projects

  /** Every line of the list belongs to the project at position `p`. */
  predicate AllOf(ls: seq<ArchLine>, p: nat) {
    forall k :: 0 <= k < |ls| ==> ls[k].p == p
  }

  /** The property holds of a concatenation when it holds of both parts. */
  lemma AllOfAppend(a: seq<ArchLine>, b: seq<ArchLine>, p: nat)
    requires AllOf(a, p) && AllOf(b, p)
    ensures AllOf(a + b, p)
  {
    forall k | 0 <= k < |a + b| ensures (a + b)[k].p == p {
      if k < |a| { assert (a + b)[k] == a[k]; } else { assert (a + b)[k] == b[k - |a|]; }
    }
  }

  /** The document nodes carry the project position. */
  lemma {:induction false} DocumentLinesOf(p: nat, docs: seq<Document>)
    ensures AllOf(DocumentLines(p, docs), p)
  {
    if docs != [] {
      DocumentLinesOf(p, docs[..|docs| - 1]);
      AllOfAppend(DocumentLines(p, docs[..|docs| - 1]), [DocumentNode(p, |docs| - 1, docs[|docs| - 1].name)], p);
    }
  }

  /** The method nodes carry the project position. */
  lemma {:induction false} MethodLinesOf(p: nat, c: nat, methods: seq<string>)
    ensures AllOf(MethodLines(p, c, methods), p)
  {
    if methods != [] {
      MethodLinesOf(p, c, methods[..|methods| - 1]);
      AllOfAppend(MethodLines(p, c, methods[..|methods| - 1]), [MethodNode(p, c, |methods| - 1, methods[|methods| - 1])], p);
    }
  }

  /** The class lines carry the project position. */
  lemma {:induction false} TypeLinesOf(p: nat, types: seq<TypeDecl>, count: nat, caps: Caps)
    ensures AllOf(TypeLines(p, types, count, caps).lines, p)
  {
    if types != [] && count < caps.maxClassesPerProject {
      var t := types[0];
      TypeLinesOf(p, types[1..], count + 1, caps);
      MethodLinesOf(p, count, Take(t.methods, caps.maxMethodsPerClass));
      AllOfAppend([ClassNode(p, count, t.name), ClassToDocuments(p, count)], MethodLines(p, count, Take(t.methods, caps.maxMethodsPerClass)), p);
      AllOfAppend(ClassLines(p, count, t, caps), TypeLines(p, types[1..], count + 1, caps).lines, p);
    }
  }

  /** The top-level method nodes carry the project position. */
  lemma {:induction false} TopMethodLinesOf(p: nat, methods: seq<string>, count: nat, caps: Caps)
    ensures AllOf(TopMethodLines(p, methods, count, caps).lines, p)
  {
    if methods != [] && count < caps.maxFreeMethods {
      TopMethodLinesOf(p, methods[1..], count + 1, caps);
      AllOfAppend([TopMethodNode(p, count, methods[0])], TopMethodLines(p, methods[1..], count + 1, caps).lines, p);
    }
  }

  /** The member lines of all the documents carry the project position. */
  lemma {:induction false} ExtractOf(p: nat, docs: seq<Document>, classCount: nat, freeMethodCount: nat, caps: Caps)
    ensures AllOf(Extract(p, docs, classCount, freeMethodCount, caps).lines, p)
  {
    if docs != [] {
      var first := DocumentExtraction(p, docs[0], classCount, freeMethodCount, caps);
      if docs[0].root.Some? {
        var root := docs[0].root.value;
        TypeLinesOf(p, root.types, classCount, caps);
        TopMethodLinesOf(p, Take(root.topLevelMethods, caps.maxFreeMethods), freeMethodCount, caps);
        AllOfAppend(TypeLines(p, root.types, classCount, caps).lines,
                    TopMethodLines(p, Take(root.topLevelMethods, caps.maxFreeMethods), freeMethodCount, caps).lines, p);
      }
      ExtractOf(p, docs[1..], first.classCount, first.freeMethodCount, caps);
      AllOfAppend(first.lines, Extract(p, docs[1..], first.classCount, first.freeMethodCount, caps).lines, p);
    }
  }

  /** Every line a project contributes carries the project's position. */
  lemma ProjectLinesOf(p: nat, project: Project, caps: Caps)
    ensures AllOf(ProjectLines(p, project, caps), p)
  {
    var docs := Take(project.documents, caps.maxDocsPerProject);
    var head := [ProjectNode(p, project.name), DocumentsGroup(p)];
    var members := if project.compiled then Extract(p, docs, 0, 0, caps).lines else [];
    DocumentLinesOf(p, docs);
    if project.compiled {
      ExtractOf(p, docs, 0, 0, caps);
    }
    AllOfAppend(head, DocumentLines(p, docs), p);
    AllOfAppend(head + DocumentLines(p, docs), members, p);
    AllOfAppend(head + DocumentLines(p, docs) + members, PipelineLines(p, project.name), p);
  }

  /**
    The projects come in order: the lines of project `p` all come before those of any
    later project, every position is below the number of projects, and every project
    has exactly one project node, whether or not a project filter was given.
   */
  lemma {:induction false} ProjectsInOrder(projects: seq<Project>, caps: Caps)
    ensures var ls := ProjectsLines(projects, caps);
      && (forall k :: 0 <= k < |ls| ==> ls[k].p < |projects|)
      && (forall j, k :: 0 <= j <= k < |ls| ==> ls[j].p <= ls[k].p)
      && Count(ls, ProjectTag) == |projects|
  {
    if projects != [] {
      var n := |projects| - 1;
      var init := ProjectsLines(projects[..n], caps);
      var last := ProjectLines(n, projects[n], caps);
      var ls := ProjectsLines(projects, caps);
      ProjectsInOrder(projects[..n], caps);
      ProjectLinesOf(n, projects[n], caps);
      ProjectCount(n, projects[n], caps, ProjectTag);
      CountAppend(init, last, ProjectTag);
      assert ls == init + last;
      forall k | 0 <= k < |ls| ensures ls[k].p < |projects| && (k >= |init| ==> ls[k].p == n) {
        if k >= |init| { assert ls[k] == last[k - |init|]; }
      }
    }
  }

  /** The flowchart is the fixed four-line chain, the lines of the projects, and the two helper nodes. */
  lemma DiagramShape(projects: seq<Project>, caps: Caps)
    ensures var d := DiagramLines(projects, caps); var body := RenderLines(ProjectsLines(projects, caps));
      && |d| == 4 + |body| + 2
      && d[..4] == Prologue
      && d[4..4 + |body|] == body
      && d[4 + |body|..] == Epilogue
  {
  }

  // ---------------------------------------------------------------------------
  // Names on the nodes

  /** A character the escaper does not rewrite survives escaping. */
  lemma {:induction false} EscapeKeeps(s: string, ch: char)
    requires !IsSpecial(ch) && ch in s
    ensures ch in Escape(s)
  {
    if s[0] == ch {
      assert Escape(s)[0] == ch;
    } else {
      assert ch in s[1..];
      EscapeKeeps(s[1..], ch);
    }
  }

  /**
    The project node and the `.mmd` node name the project differently: both escape the
    name, but only the project node replaces its spaces (each by `_`, one for one), so
    a name with a space gets two different labels.
   */
  lemma ProjectNames(name: string)
    ensures |SafeProjectName(name)| == |Escape(name)|
    ensures forall k :: 0 <= k < |Escape(name)| ==>
      SafeProjectName(name)[k] == if Escape(name)[k] == ' ' then '_' else Escape(name)[k]
    ensures ' ' in name ==> SafeProjectName(name) != Escape(name)
  {
    ReplaceCharPointwise(Escape(name), ' ', '_');
    if ' ' in name {
      EscapeKeeps(name, ' ');
    }
  }

  // ---------------------------------------------------------------------------
  // The Markdown page

  /** One bullet per project, in order. */
  lemma {:induction false} ProjectBulletsAt(projects: seq<Project>)
    ensures |ProjectBullets(projects)| == |projects|
    ensures forall k :: 0 <= k < |projects| ==> ProjectBullets(projects)[k] == "- " + projects[k].name
  {
    if projects != [] {
      ProjectBulletsAt(projects[..|projects| - 1]);
    }
  }

  /**
    The page: its heading block, one bullet per project in order, the diagram heading
    and the opening fence, the flowchart line for line, the empty line left by the
    flowchart's final line break, the closing fence and the footer.
   */
  lemma MarkdownLayout(projects: seq<Project>, diagram: seq<string>)
    ensures var md := MarkdownLines(projects, diagram); var n := |projects|; var m := |diagram|;
      && |md| == n + m + 13
      && md[..5] == MarkdownHead
      && (forall k :: 0 <= k < n ==> md[5 + k] == "- " + projects[k].name)
      && md[5 + n..9 + n] == DiagramHead
      && md[8 + n] == "```mermaid"
      && md[9 + n..9 + n + m] == diagram
      && md[9 + n + m] == ""
      && md[10 + n + m..] == MarkdownTail
  {
    ProjectBulletsAt(projects);
    var n := |projects|;
    var md := MarkdownLines(projects, diagram);
    var bullets := ProjectBullets(projects);
    assert md == MarkdownHead + bullets + DiagramHead + (diagram + [""]) + MarkdownTail;
    forall k | 0 <= k < n ensures md[5 + k] == "- " + projects[k].name {
      assert md[5 + k] == bullets[k];
    }
  }
}
