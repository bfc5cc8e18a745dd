/**
  The command line of the generator: the argument checks at the top of the entry
  point, the project filter they set up, and the file stem of the per-method artifacts.
 */
module Cli {
  import opened Wrappers
  import opened Text

  // ---------------------------------------------------------------------------
  // Argument checks

  /** What the argument checks decide: stop with the usage line, stop on a missing project name, or run. */
  datatype Invocation =
    | Usage
    | MissingProjectName
    | Run(solutionPath: string, outDir: string, onlyProject: Option<string>)

  /**
    `cfg2mmd <path.sln> <out-dir> [--project ProjectName]`: fewer than two arguments is a
    usage error; a third argument `--project` needs a fourth, the project name; any other
    third argument, and everything after the fourth, is ignored.
   */
  function ParseArguments(args: seq<string>): (r: Invocation)
    ensures r == Usage <==> |args| < 2
    ensures r == MissingProjectName <==> |args| == 3 && args[2] == "--project"
    ensures r.Run? ==> r.solutionPath == args[0] && r.outDir == args[1]
    ensures r.Run? ==> (r.onlyProject.Some? <==> |args| >= 4 && args[2] == "--project")
    ensures r.Run? && r.onlyProject.Some? ==> r.onlyProject.value == args[3]
  {
    if |args| < 2 then Usage
    else if |args| >= 3 && args[2] == "--project" then
      if |args| < 4 then MissingProjectName else Run(args[0], args[1], Some(args[3]))
    else Run(args[0], args[1], None)
  }

  /** The exit code the checks return before any work is done: 1 for usage, 2 for a missing project name. */
  function EarlyExit(args: seq<string>): (r: Option<int>)
    ensures r == Some(1) <==> |args| < 2
    ensures r == Some(2) <==> |args| == 3 && args[2] == "--project"
    ensures r == None <==> ParseArguments(args).Run?
  {
    match ParseArguments(args)
    case Usage => Some(1)
    case MissingProjectName => Some(2)
    case Run(_, _, _) => None
  }

  /** Started without arguments, the generator exits with code 1. */
  lemma NoArgumentsIsUsage()
    ensures EarlyExit([]) == Some(1)
  {
  }

  /** `--project` as the last argument exits with code 2; followed by a name, it filters on that name. */
  lemma ProjectOption(sln: string, out: string, name: string)
    ensures EarlyExit([sln, out, "--project"]) == Some(2)
    ensures ParseArguments([sln, out, "--project", name]) == Run(sln, out, Some(name))
  {
  }

  /** When the third argument is not `--project`, only the first two arguments count and there is no filter. */
  lemma OtherArgumentsIgnored(args: seq<string>)
    requires |args| >= 2 && (|args| == 2 || args[2] != "--project")
    ensures ParseArguments(args) == ParseArguments(args[..2]) == Run(args[0], args[1], None)
  {
  }

  /** Arguments after the project name do not change the outcome. */
  lemma TrailingArgumentsIgnored(args: seq<string>)
    requires |args| >= 4 && args[2] == "--project"
    ensures ParseArguments(args) == ParseArguments(args[..4])
  {
    assert args[..4][2] == args[2];
  }

  // ---------------------------------------------------------------------------
  // Project filter

  /** A project is processed when no filter was given or its name is the filter, exactly. */
  predicate Selected(onlyProject: Option<string>, name: string) {
    onlyProject.None? || onlyProject.value == name
  }

  /** The names of the projects the per-method loop visits, in solution order. */
  function SelectedProjects(names: seq<string>, onlyProject: Option<string>): (r: seq<string>)
    ensures |r| <= |names|
    ensures forall x :: x in r <==> x in names && Selected(onlyProject, x)
  {
    if names == [] then []
    else
      var init := SelectedProjects(names[..|names| - 1], onlyProject);
      var last := names[|names| - 1];
      assert names == names[..|names| - 1] + [last];
      if Selected(onlyProject, last) then init + [last] else init
  }

  /** Every project whose name passes the filter is visited as often as it occurs in the solution, and no other. */
  lemma {:induction false} SelectedProjectsMultiset(names: seq<string>, onlyProject: Option<string>)
    ensures forall x ::
      multiset(SelectedProjects(names, onlyProject))[x] == (if Selected(onlyProject, x) then multiset(names)[x] else 0)
  {
    if names != [] {
      var init := names[..|names| - 1];
      var last := names[|names| - 1];
      SelectedProjectsMultiset(init, onlyProject);
      assert names == init + [last];
    }
  }

  /** The filter keeps the solution order: the projects of a concatenation are those of each part, in turn. */
  lemma {:induction false} SelectedProjectsAppend(a: seq<string>, b: seq<string>, onlyProject: Option<string>)
    ensures SelectedProjects(a + b, onlyProject) == SelectedProjects(a, onlyProject) + SelectedProjects(b, onlyProject)
  {
    if b == [] {
      assert a + b == a;
    } else {
      assert (a + b)[..|a + b| - 1] == a + b[..|b| - 1];
      assert (a + b)[|a + b| - 1] == b[|b| - 1];
      SelectedProjectsAppend(a, b[..|b| - 1], onlyProject);
    }
  }

  /** One project is visited exactly when its name passes the filter. */
  lemma SelectedProjectsOne(name: string, onlyProject: Option<string>)
    ensures SelectedProjects([name], onlyProject) == if Selected(onlyProject, name) then [name] else []
  {
    assert [name][..0] == [];
  }

  /** Without a filter every project is visited, in order. */
  lemma {:induction false} NoFilterSelectsAll(names: seq<string>)
    ensures SelectedProjects(names, None) == names
  {
    if names != [] {
      NoFilterSelectsAll(names[..|names| - 1]);
      assert names == names[..|names| - 1] + [names[|names| - 1]];
    }
  }

  // ---------------------------------------------------------------------------
  // Artifact stem

  /** How the stem treats one character: spaces and dots become underscores. */
  function StemChar(ch: char): char {
    if ch == ' ' || ch == '.' then '_' else ch
  }

  /** Both replacements, applied in the stem's order. */
  function Underscored(s: string): string {
    ReplaceChar(ReplaceChar(s, ' ', "_"), '.', "_")
  }

  /**
    The stem of the `.mmd`, `.svg` and `.png` files of one method:
    `{project}_{file stem}_{method}`, spaces replaced by `_`, then dots replaced by `_`.
   */
  function ArtifactStem(project: string, fileStem: string, methodName: string): (r: string)
    ensures |r| == |project| + |fileStem| + |methodName| + 2
    ensures ' ' !in r && '.' !in r
  {
    var raw := project + "_" + fileStem + "_" + methodName;
    ReplaceCharPointwise(raw, ' ', '_');
    ReplaceCharPointwise(ReplaceChar(raw, ' ', "_"), '.', '_');
    Underscored(raw)
  }

  /** Character by character, the stem is the joined name with spaces and dots made underscores. */
  lemma ArtifactStemPointwise(project: string, fileStem: string, methodName: string)
    ensures var raw := project + "_" + fileStem + "_" + methodName;
      forall k :: 0 <= k < |raw| ==> ArtifactStem(project, fileStem, methodName)[k] == StemChar(raw[k])
  {
    var raw := project + "_" + fileStem + "_" + methodName;
    ReplaceCharPointwise(raw, ' ', '_');
    ReplaceCharPointwise(ReplaceChar(raw, ' ', "_"), '.', '_');
  }

  /** Names without spaces and dots are joined as they are. */
  lemma ArtifactStemPlain(project: string, fileStem: string, methodName: string)
    requires ' ' !in project && '.' !in project
    requires ' ' !in fileStem && '.' !in fileStem
    requires ' ' !in methodName && '.' !in methodName
    ensures ArtifactStem(project, fileStem, methodName) == project + "_" + fileStem + "_" + methodName
  {
    var raw := project + "_" + fileStem + "_" + methodName;
    assert ' ' !in raw && '.' !in raw by {
      forall k | 0 <= k < |raw| ensures raw[k] != ' ' && raw[k] != '.' {
        if k < |project| {
          assert raw[k] == project[k];
        } else if k == |project| {
          assert raw[k] == '_';
        } else if k < |project| + 1 + |fileStem| {
          assert raw[k] == fileStem[k - |project| - 1];
        } else if k == |project| + 1 + |fileStem| {
          assert raw[k] == '_';
        } else {
          assert raw[k] == methodName[k - |project| - 2 - |fileStem|];
        }
      }
    }
  }

  /** A space or a dot between two texts becomes one underscore between their underscored forms. */
  lemma UnderscoredSplit(x: string, c: char, y: string)
    requires c == ' ' || c == '.'
    ensures Underscored(x + [c] + y) == Underscored(x) + "_" + Underscored(y)
  {
    ReplaceCharAppend(x + [c], y, ' ', "_");
    ReplaceCharAppend(x, [c], ' ', "_");
    var r1 := ReplaceChar(x, ' ', "_") + ReplaceChar([c], ' ', "_");
    assert ReplaceChar([c], ' ', "_") == (if c == ' ' then "_" else ".") by {
      assert [c][1..] == [];
    }
    ReplaceCharAppend(r1, ReplaceChar(y, ' ', "_"), '.', "_");
    ReplaceCharAppend(ReplaceChar(x, ' ', "_"), ReplaceChar([c], ' ', "_"), '.', "_");
    assert ReplaceChar(ReplaceChar([c], ' ', "_"), '.', "_") == "_" by {
      assert [c][1..] == [];
      assert "."[1..] == [];
      assert "_"[1..] == [];
    }
  }

  /**
    The stem does not tell a space from a dot: project names that differ only there give
    the same file, so the later method's artifacts replace the earlier one's.
   */
  lemma ArtifactStemConflates(a: string, b: string, fileStem: string, methodName: string)
    ensures ArtifactStem(a + " " + b, fileStem, methodName) == ArtifactStem(a + "." + b, fileStem, methodName)
  {
    var tail := b + "_" + fileStem + "_" + methodName;
    assert a + " " + b + "_" + fileStem + "_" + methodName == a + [' '] + tail;
    assert a + "." + b + "_" + fileStem + "_" + methodName == a + ['.'] + tail;
    UnderscoredSplit(a, ' ', tail);
    UnderscoredSplit(a, '.', tail);
  }
}
