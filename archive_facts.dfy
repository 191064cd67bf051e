/**
 * What staging and `create` guarantee about the tree: staging writes only
 * below the package directory, the executable's copy there is the file
 * `chmod 0755` reaches, the temporary directory is gone afterwards and a
 * completed `create` leaves the archive at the path it returns.
 */
module ArchiveFacts {
  import opened Errors
  import opened Text
  import opened Paths
  import opened Options
  import opened Hosts
  import opened Archive
  import S = Shim

  // ---------------------------------------------------------------------
  // The `chmod` of `copy_executables` (lib/tara/archive.rb:119)

  /**
   * As written, the path handed to `chmod` is the package joined with the
   * absolute glob match, and `Pathname#join` with an absolute path is that
   * path: the executable in the application itself.
   */
  lemma WrittenModeTargetIsProjectFile(lay: Layout, rel: string)
    requires StartsWith(lay.project, "/") && CleanRelative(rel)
    ensures WrittenModeTarget(lay, rel) == PathJoin(lay.project, rel)
    ensures ModeTarget(lay, rel) == PathJoin(lay.package, rel)
  {
    var p := PathJoin(lay.project, rel);
    assert p == DirPrefix(lay.project) + rel;
    assert p[0] == '/';
  }

  /** The operations of `copy_executables` for one match with the `chmod` as written. */
  function WrittenExecutableOps(lay: Layout, dirs: set<string>, rel: string): seq<FileOp> {
    CopyFileOps(lay, dirs, rel) + [ModePath(ExecutableMode, WrittenModeTarget(lay, rel))]
    + ShimOps(ShimPath(lay, rel), ExecShimOf(rel))
  }

  // ---------------------------------------------------------------------
  // Paths in the package

  /** Joining a path that does not start with `/` onto a directory other than `.` puts it below that directory. */
  lemma JoinBelow(a: string, z: string)
    requires a != "." && !StartsWith(z, "/")
    ensures PathJoin(a, z) == DirPrefix(a) + z && Under(PathJoin(a, z), a)
  {
    UnderJoin(a, z);
  }

  /** Two different relative paths land on different paths below the same directory. */
  lemma JoinDistinct(a: string, x: string, y: string)
    requires a != "." && !StartsWith(x, "/") && !StartsWith(y, "/") && x != y
    ensures PathJoin(a, x) != PathJoin(a, y)
  {
    JoinBelow(a, x);
    JoinBelow(a, y);
    var pre := DirPrefix(a);
    assert (pre + x)[|pre|..] == x && (pre + y)[|pre|..] == y;
  }

  /** The split of a clean relative path: both parts are shorter and relative, unless the path has no `/`. */
  lemma SplitParts(rel: string)
    requires CleanRelative(rel)
    ensures '/' !in rel ==> Dirname(rel) == "." && Basename(rel) == rel
    ensures '/' in rel ==> Dirname(rel) != rel && Basename(rel) != rel
    ensures '/' in rel ==> |Dirname(rel)| < |rel|
    ensures !StartsWith(Dirname(rel), "/") && !StartsWith(Basename(rel), "/") && !StartsWith(rel, "/")
  {
    SplitRoundTrip(rel);
    var d, b := Dirname(rel), Basename(rel);
    if '/' in rel {
      var pre := DirPrefix(d);
      assert rel == pre + b;
      assert |pre| >= |d| + 0 && |pre| >= 1;
      assert pre[0] == rel[0] != '/';
      assert DirPrefix("") == "/";
      assert d != "";
      assert d[0] == pre[0];
    } else {
      assert "."[0] == '.';
    }
    assert b[0] != '/' by {
      assert b[0] in b;
    }
  }

  // ---------------------------------------------------------------------
  // One executable, staged

  /** What `copy_executables` needs to copy a match: a file of the project, not a directory seen from the working directory, with nothing in the way in the package. */
  predicate Stageable(lay: Layout, files: map<string, FileEntry>, dirs: set<string>, rel: string) {
    && lay.package != "."
    && CleanRelative(rel)
    && PathJoin(lay.project, rel) in files
    && PathJoin(lay.cwd, rel) !in dirs
    && PathJoin(lay.package, rel) !in dirs
  }

  /** The contents of `src` at `dst`, with the mode `FileUtils.cp` leaves there. */
  function CopiedEntry(files: map<string, FileEntry>, src: string, dst: string): FileEntry
    requires src in files
  {
    FileEntry(files[src].content, NewFileMode(files, dst, files[src].mode))
  }

  /**
   * A completed copy after at most one `mkdir_p` of a shorter path: the copy
   * lands where asked, and nothing else among the files changes.
   */
  lemma ParentThenCopy(files: map<string, FileEntry>, dirs: set<string>, par: seq<FileOp>, src: string, dst: string)
    requires par == [] || (|par| == 1 && par[0].MakePath? && 0 < |par[0].path| < |dst|)
    requires src in files && dst !in dirs
    requires AppliedAll(files, dirs, par + [CopyPath(src, dst)]).result.Completed?
    ensures var x := AppliedAll(files, dirs, par + [CopyPath(src, dst)]);
      && x.files == files[dst := CopiedEntry(files, src, dst)] && dst !in x.dirs
      && (par != [] ==> par[0].path in x.dirs)
  {
    AppliedAllSnoc(files, dirs, par, CopyPath(src, dst));
    if par != [] {
      AppliedAllSnoc(files, dirs, [], par[0]);
      assert [] + [par[0]] == par;
      var d := par[0].path;
      assert dst !in Lineage(d) by {
        if dst in Lineage(d) {
          LineageAbove(d, dst);
        }
      }
    }
  }

  /** A completed `copy_file` leaves a copy of the project file at the same relative path in the package and nothing else changes among the files. */
  lemma CopyLands(lay: Layout, files: map<string, FileEntry>, dirs: set<string>, rel: string)
    requires Stageable(lay, files, dirs, rel)
    requires AppliedAll(files, dirs, CopyFileOps(lay, dirs, rel)).result.Completed?
    ensures var x := AppliedAll(files, dirs, CopyFileOps(lay, dirs, rel));
      var src, dst := PathJoin(lay.project, rel), PathJoin(lay.package, rel);
      && x.files == files[dst := CopiedEntry(files, src, dst)] && dst !in x.dirs
      && (Dirname(rel) != "." ==> PathJoin(lay.package, Dirname(rel)) in x.dirs)
  {
    SplitParts(rel);
    if Dirname(rel) != "." {
      JoinBelow(lay.package, Dirname(rel));
      JoinBelow(lay.package, rel);
    }
    ParentThenCopy(files, dirs, ParentOps(lay, rel), PathJoin(lay.project, rel), PathJoin(lay.package, rel));
  }

  /**
   * A shim is written and made executable exactly when its path is not a
   * directory and its parent directory exists; nothing else changes.
   */
  lemma ShimLands(files: map<string, FileEntry>, dirs: set<string>, p: string, shim: S.Shim)
    ensures var o := AppliedAll(files, dirs, ShimOps(p, shim));
      && (o.result.Completed? <==> p !in dirs && ParentExists(dirs, p))
      && (o.result.Completed? ==> o.files == files[p := FileEntry(S.Render(shim), ExecutableMode)] && o.dirs == dirs)
  {
    var w, m := WritePath(p, S.Render(shim)), ModePath(ExecutableMode, p);
    assert ShimOps(p, shim) == ([] + [w]) + [m];
    AppliedAllSnoc(files, dirs, [], w);
    AppliedAllSnoc(files, dirs, [w], m);
  }

  /**
   * `create_gem_shim`: the shim for `exec` of `gem` lands, executable, at
   * `exec` below the package, unless a directory is in the way or the
   * directory it goes in does not exist.
   */
  lemma GemShimStaged(lay: Layout, files: map<string, FileEntry>, dirs: set<string>, gem: string, exec: string)
    requires lay.package != "." && !StartsWith(exec, "/")
    ensures var o := AppliedAll(files, dirs, StageOps(lay, files, dirs, GemExecutable(gem, exec)));
      var p := PathJoin(lay.package, exec);
      && Under(p, lay.package)
      && (o.result.Completed? <==> p !in dirs && ParentExists(dirs, p))
      && (o.result.Completed? ==> o.files == files[p := FileEntry(S.Render(S.GemShim(gem, exec)), ExecutableMode)])
  {
    JoinBelow(lay.package, exec);
    ShimLands(files, dirs, PathJoin(lay.package, exec), S.GemShim(gem, exec));
  }

  /**
   * Operations, then `chmod 0755` of a file they leave, then a shim: when the
   * whole run completes, the tree is what the operations left with that file
   * made executable and the shim in place, executable too.
   */
  lemma ChmodThenShim(files: map<string, FileEntry>, dirs: set<string>, ops: seq<FileOp>, t: string, p: string, shim: S.Shim)
    requires AppliedAll(files, dirs, ops + [ModePath(ExecutableMode, t)] + ShimOps(p, shim)).result.Completed?
    ensures AppliedAll(files, dirs, ops).result.Completed?
    ensures var x := AppliedAll(files, dirs, ops);
      var o := AppliedAll(files, dirs, ops + [ModePath(ExecutableMode, t)] + ShimOps(p, shim));
      t in x.files ==> o.files == x.files[t := FileEntry(x.files[t].content, ExecutableMode)][p := FileEntry(S.Render(shim), ExecutableMode)]
  {
    var m, w, m2 := ModePath(ExecutableMode, t), WritePath(p, S.Render(shim)), ModePath(ExecutableMode, p);
    assert ops + [m] + ShimOps(p, shim) == ((ops + [m]) + [w]) + [m2];
    AppliedAllSnoc(files, dirs, ops, m);
    AppliedAllSnoc(files, dirs, ops + [m], w);
    AppliedAllSnoc(files, dirs, (ops + [m]) + [w], m2);
  }

  /**
   * `mkdir_p` makes every ancestor it names: once `/p/lib/app` is made in
   * `/p`, `/p/lib` is a directory, and writing a file there raises `EISDIR`,
   * as `create_shim` does for an executable `bin/lib` once `lib/app/cli.rb`
   * has been staged.
   */
  lemma ImplicitParentBlocksWrite(text: string)
    ensures AppliedAll(map[], {"/p"}, [MakePath("/p/lib/app"), WritePath("/p/lib", text)]).result
            == Raised(FileError("EISDIR", "/p/lib"))
  {
    var mk, w := MakePath("/p/lib/app"), WritePath("/p/lib", text);
    var d: string := "/p/lib/app";
    assert Cut(d, 6) && d[..6] == "/p/lib";
    assert "/p/lib" in Lineage(d);
    AppliedAllSnoc(map[], {"/p"}, [], mk);
    AppliedAllSnoc(map[], {"/p"}, [mk], w);
    assert [mk] + [w] == [mk, w];
  }

  /**
   * With the `chmod` aimed at the package's copy, a completed staging of an
   * executable leaves that copy with mode 0755, holding the project file or,
   * for a top-level executable, the shim written over it; the shim is in
   * place with mode 0755 as well.
   */
  lemma ExecutableCopyIsExecutable(lay: Layout, files: map<string, FileEntry>, dirs: set<string>, rel: string)
    requires Stageable(lay, files, dirs, rel)
    requires AppliedAll(files, dirs, ExecutableOps(lay, dirs, rel)).result.Completed?
    ensures var o := AppliedAll(files, dirs, ExecutableOps(lay, dirs, rel));
      var dst := ModeTarget(lay, rel);
      && dst in o.files && o.files[dst].mode == ExecutableMode
      && o.files[dst].content == (if '/' in rel then files[PathJoin(lay.project, rel)].content else S.Render(ExecShimOf(rel)))
    ensures var o := AppliedAll(files, dirs, ExecutableOps(lay, dirs, rel));
      ShimPath(lay, rel) in o.files && o.files[ShimPath(lay, rel)] == FileEntry(S.Render(ExecShimOf(rel)), ExecutableMode)
  {
    var src, dst, shim := PathJoin(lay.project, rel), ModeTarget(lay, rel), ShimPath(lay, rel);
    ChmodThenShim(files, dirs, CopyFileOps(lay, dirs, rel), dst, shim, ExecShimOf(rel));
    CopyLands(lay, files, dirs, rel);
    SplitParts(rel);
    if '/' in rel {
      JoinDistinct(lay.package, Basename(rel), rel);
    }
  }

  /**
   * As written, a completed staging of an executable below a directory
   * leaves the package's copy with the project file's own mode, whatever
   * that is, and makes the project file itself executable instead.
   */
  lemma WrittenCopyKeepsMode(lay: Layout, files: map<string, FileEntry>, dirs: set<string>, rel: string)
    requires Stageable(lay, files, dirs, rel) && StartsWith(lay.project, "/") && '/' in rel
    requires PathJoin(lay.project, rel) != PathJoin(lay.package, rel)
    requires AppliedAll(files, dirs, WrittenExecutableOps(lay, dirs, rel)).result.Completed?
    ensures var o := AppliedAll(files, dirs, WrittenExecutableOps(lay, dirs, rel));
      var src, dst := PathJoin(lay.project, rel), PathJoin(lay.package, rel);
      && dst in o.files && o.files[dst] == CopiedEntry(files, src, dst)
      && src in o.files && o.files[src].mode == ExecutableMode
  {
    var src, dst, shim := PathJoin(lay.project, rel), ModeTarget(lay, rel), ShimPath(lay, rel);
    WrittenModeTargetIsProjectFile(lay, rel);
    ChmodThenShim(files, dirs, CopyFileOps(lay, dirs, rel), src, shim, ExecShimOf(rel));
    CopyLands(lay, files, dirs, rel);
    SplitParts(rel);
    JoinDistinct(lay.package, Basename(rel), rel);
  }

  /**
   * `copy_executables` for one match: a match that is not a file of the
   * project is passed over without any change; a file is copied to the same
   * relative path in the package, made executable, and shimmed at the
   * package's top level under its basename.
   */
  lemma ExecutableMatchStaged(lay: Layout, files: map<string, FileEntry>, dirs: set<string>, rel: string)
    requires lay.package != "." && CleanRelative(rel)
    requires PathJoin(lay.cwd, rel) !in dirs && PathJoin(lay.package, rel) !in dirs
    ensures var o := AppliedAll(files, dirs, StageOps(lay, files, dirs, ExecutableFile(rel)));
      PathJoin(lay.project, rel) !in files ==> o == Outcome(files, dirs, [], Completed)
    ensures var o := AppliedAll(files, dirs, StageOps(lay, files, dirs, ExecutableFile(rel)));
      var dst, shim := PathJoin(lay.package, rel), PathJoin(lay.package, Basename(rel));
      PathJoin(lay.project, rel) in files && o.result.Completed? ==>
        && dst in o.files && o.files[dst].mode == ExecutableMode
        && shim in o.files && o.files[shim] == FileEntry(S.Render(S.ExecShim(Dirname(rel), Basename(rel))), ExecutableMode)
  {
    var ops := StageOps(lay, files, dirs, ExecutableFile(rel));
    if PathJoin(lay.project, rel) in files {
      assert ops == ExecutableOps(lay, dirs, rel);
      if AppliedAll(files, dirs, ops).result.Completed? {
        ExecutableCopyIsExecutable(lay, files, dirs, rel);
      }
    } else {
      assert ops == [];
    }
  }

  /**
   * `copy_file` of a match that is a directory seen from the working
   * directory copies nothing: at most the parent directory and its
   * ancestors are made.
   */
  lemma DirectoryMatchCopiesNothing(lay: Layout, files: map<string, FileEntry>, dirs: set<string>, rel: string)
    requires PathJoin(lay.cwd, rel) in dirs
    ensures var o := AppliedAll(files, dirs, CopyFileOps(lay, dirs, rel));
      && o.files == files
      && (Dirname(rel) == "." ==> o.dirs == dirs && o.result.Completed?)
      && o.dirs <= dirs + Lineage(PathJoin(lay.package, Dirname(rel)))
  {
    if Dirname(rel) != "." {
      var op := MakePath(PathJoin(lay.package, Dirname(rel)));
      AppliedAllSnoc(files, dirs, [], op);
      assert [] + [op] == CopyFileOps(lay, dirs, rel);
    }
  }

  // ---------------------------------------------------------------------
  // Staging writes only below the package

  /** The files of a tree that are not below `d`. */
  function FilesOutside(files: map<string, FileEntry>, d: string): (r: map<string, FileEntry>)
    ensures forall p :: p in r <==> p in files && !Under(p, d)
  {
    map p | p in files && !Under(p, d) :: files[p]
  }

  /** The directories of a tree that are not below `d`. */
  function DirsOutside(dirs: set<string>, d: string): (r: set<string>)
    ensures forall p :: p in r <==> p in dirs && !Under(p, d)
  {
    set p | p in dirs && !Under(p, d)
  }

  /** The path an operation creates or changes lies below `d` (a copy's source is not the root, whose basename is `/`). */
  predicate Targets(op: FileOp, d: string) {
    if op.CopyPath? then Under(op.target, d) && Basename(op.source) != "/" else Under(op.path, d)
  }

  /** Joining a name onto a path below `d` stays below `d`. */
  lemma UnderFileJoin(t: string, d: string, name: string)
    requires Under(t, d) && !StartsWith(name, "/")
    ensures Under(FileJoin(t, name), d)
  {
    if t == d {
      UnderJoin(d, name);
    } else {
      StrictlyUnderJoin(t, d, name);
    }
  }

  /** Changing a file below `d` leaves the files outside `d` as they were. */
  lemma UpdateInside(files: map<string, FileEntry>, p: string, e: FileEntry, d: string)
    requires Under(p, d)
    ensures FilesOutside(files[p := e], d) == FilesOutside(files, d)
  {
  }

  /** Adding a directory below `d` leaves the directories outside `d` as they were. */
  lemma AddInside(dirs: set<string>, p: string, d: string)
    requires Under(p, d)
    ensures DirsOutside(dirs + {p}, d) == DirsOutside(dirs, d)
  {
  }

  /** Making a path below `d` adds, outside `d`, only members of `d`'s lineage. */
  lemma MakeInside(dirs: set<string>, p: string, d: string)
    requires Under(p, d)
    ensures DirsOutside(dirs, d) <= DirsOutside(dirs + Lineage(p), d) <= DirsOutside(dirs, d) + Lineage(d)
  {
    forall q | q in DirsOutside(dirs + Lineage(p), d)
      ensures q in DirsOutside(dirs, d) + Lineage(d)
    {
      if q in Lineage(p) {
        LineageUnder(p, d, q);
      }
    }
  }

  /**
   * An operation aimed below `d` leaves every file outside `d` as it was,
   * and adds outside `d` no directory but the ancestors `d` names.
   */
  lemma AppliedInside(files: map<string, FileEntry>, dirs: set<string>, op: FileOp, d: string)
    requires Targets(op, d)
    ensures var o := Applied(files, dirs, op);
      && FilesOutside(o.files, d) == FilesOutside(files, d)
      && DirsOutside(dirs, d) <= DirsOutside(o.dirs, d) <= DirsOutside(dirs, d) + Lineage(d)
  {
    var o := Applied(files, dirs, op);
    match op
    case MakePath(p) =>
      MakeInside(dirs, p, d);
      assert o.files == files && (o.dirs == dirs || o.dirs == dirs + Lineage(p));
    case CopyPath(source, target) =>
      CopyInside(files, dirs, source, target, d);
    case WritePath(p, text) =>
      UpdateInside(files, p, FileEntry(text, if p in files then files[p].mode else DefaultMode), d);
      assert o.dirs == dirs;
    case ModePath(mode, p) =>
      if p in files {
        UpdateInside(files, p, FileEntry(files[p].content, mode), d);
      }
      assert o.dirs == dirs;
  }

  /** A copy aimed below `d`, into a directory or not, changes no file outside `d` and no directory. */
  lemma CopyInside(files: map<string, FileEntry>, dirs: set<string>, source: string, target: string, d: string)
    requires Under(target, d) && Basename(source) != "/"
    ensures var o := Applied(files, dirs, CopyPath(source, target));
      FilesOutside(o.files, d) == FilesOutside(files, d) && o.dirs == dirs
  {
    var into := CopyDestination(dirs, source, target);
    if target in dirs {
      var b := Basename(source);
      NoSeparatorNotAbsolute(b);
      UnderFileJoin(target, d, b);
    }
    if source in files {
      UpdateInside(files, into, CopiedEntry(files, source, into), d);
    }
    UpdateInside(files, into, FileEntry("", NewFileMode(files, into, ExecutableMode)), d);
  }

  /** Operations all aimed below `d` leave the files outside `d` as they were and add there only ancestors of `d`. */
  lemma {:induction false} AppliedAllInside(files: map<string, FileEntry>, dirs: set<string>, ops: seq<FileOp>, d: string)
    requires forall i :: 0 <= i < |ops| ==> Targets(ops[i], d)
    ensures var o := AppliedAll(files, dirs, ops);
      && FilesOutside(o.files, d) == FilesOutside(files, d)
      && DirsOutside(dirs, d) <= DirsOutside(o.dirs, d) <= DirsOutside(dirs, d) + Lineage(d)
    decreases |ops|
  {
    if |ops| > 0 {
      var init := ops[..|ops| - 1];
      AppliedAllInside(files, dirs, init, d);
      var prev := AppliedAll(files, dirs, init);
      AppliedInside(prev.files, prev.dirs, ops[|ops| - 1], d);
    }
  }

  /** The entries staging can keep inside the package: clean relative matches and gem executables named by a relative path. */
  predicate Confined(stage: Stage) {
    if stage.GemExecutable? then !StartsWith(stage.exec, "/") else CleanRelative(stage.rel)
  }

  /** A `mkdir_p` below `d` if there is one, then a copy to below `d` if there is one, are aimed below `d`. */
  lemma TargetsParentCopy(par: seq<FileOp>, cp: seq<FileOp>, d: string)
    requires par == [] || (|par| == 1 && Targets(par[0], d))
    requires cp == [] || (|cp| == 1 && Targets(cp[0], d))
    ensures forall i :: 0 <= i < |par + cp| ==> Targets((par + cp)[i], d)
  {
  }

  /** The `mkdir_p` of `copy_file`, if any, is aimed below the package. */
  lemma ParentOpsInside(lay: Layout, rel: string)
    requires lay.package != "." && CleanRelative(rel)
    ensures var par := ParentOps(lay, rel);
      par == [] || (|par| == 1 && Targets(par[0], lay.package))
  {
    if Dirname(rel) != "." {
      SplitParts(rel);
      JoinBelow(lay.package, Dirname(rel));
    }
  }

  /** Every operation of `copy_file` is aimed below the package. */
  lemma CopyOpsInside(lay: Layout, dirs: set<string>, rel: string)
    requires lay.package != "." && CleanRelative(rel)
    ensures var ops := CopyFileOps(lay, dirs, rel);
      forall i :: 0 <= i < |ops| ==> Targets(ops[i], lay.package)
  {
    var par := ParentOps(lay, rel);
    ParentOpsInside(lay, rel);
    if PathJoin(lay.cwd, rel) in dirs {
      TargetsParentCopy(par, [], lay.package);
      assert CopyFileOps(lay, dirs, rel) == par + [];
    } else {
      var cp := CopyPath(PathJoin(lay.project, rel), PathJoin(lay.package, rel));
      assert !StartsWith(rel, "/") by {
        assert rel[0] != '/';
      }
      JoinBelow(lay.package, rel);
      BasenameNotRoot(lay.project, rel);
      TargetsParentCopy(par, [cp], lay.package);
    }
  }

  /** A clean relative path joined onto any directory does not have the root's basename. */
  lemma BasenameNotRoot(project: string, rel: string)
    requires CleanRelative(rel)
    ensures Basename(PathJoin(project, rel)) != "/"
  {
    var p := PathJoin(project, rel);
    assert !StartsWith(rel, "/") by {
      assert rel[0] != '/';
    }
    assert p[|p| - 1] == rel[|rel| - 1];
    assert StripTrailingSlashes(p) == p;
  }

  /** Operations aimed below `d`, then a `chmod` and a shim below `d`, are all aimed below `d`. */
  lemma TargetsThenShim(a: seq<FileOp>, t: string, p: string, shim: S.Shim, d: string)
    requires forall i :: 0 <= i < |a| ==> Targets(a[i], d)
    requires Under(t, d) && Under(p, d)
    ensures var ops := a + [ModePath(ExecutableMode, t)] + ShimOps(p, shim);
      forall i :: 0 <= i < |ops| ==> Targets(ops[i], d)
  {
  }

  /** Every operation of `copy_executables` for one file is aimed below the package. */
  lemma ExecutableOpsInside(lay: Layout, dirs: set<string>, rel: string)
    requires lay.package != "." && CleanRelative(rel)
    ensures var ops := ExecutableOps(lay, dirs, rel);
      forall i :: 0 <= i < |ops| ==> Targets(ops[i], lay.package)
  {
    SplitParts(rel);
    JoinBelow(lay.package, rel);
    JoinBelow(lay.package, Basename(rel));
    CopyOpsInside(lay, dirs, rel);
    TargetsThenShim(CopyFileOps(lay, dirs, rel), ModeTarget(lay, rel), ShimPath(lay, rel), ExecShimOf(rel), lay.package);
  }

  /** Every operation staging a confined entry is aimed below the package. */
  lemma StageOpsInside(lay: Layout, files: map<string, FileEntry>, dirs: set<string>, stage: Stage)
    requires lay.package != "." && Confined(stage)
    ensures var ops := StageOps(lay, files, dirs, stage);
      forall i :: 0 <= i < |ops| ==> Targets(ops[i], lay.package)
  {
    var ops := StageOps(lay, files, dirs, stage);
    if stage.GemExecutable? {
      JoinBelow(lay.package, stage.exec);
      assert ops == ShimOps(PathJoin(lay.package, stage.exec), S.GemShim(stage.gem, stage.exec));
    } else if stage.SourceFile? {
      CopyOpsInside(lay, dirs, stage.rel);
      assert ops == CopyFileOps(lay, dirs, stage.rel);
    } else if PathJoin(lay.project, stage.rel) in files {
      ExecutableOpsInside(lay, dirs, stage.rel);
      assert ops == ExecutableOps(lay, dirs, stage.rel);
    } else {
      assert ops == [];
    }
  }

  /**
   * Staging confined entries by a plan that stages as `create` does leaves
   * every file outside the package as it was, and adds outside it no
   * directory but the package's own ancestors, which `mkdir_p` makes on the
   * way; when those exist already, nothing outside changes at all.
   */
  lemma {:induction false} StagedInside(plan: Plan, lay: Layout, files: map<string, FileEntry>, dirs: set<string>, stages: seq<Stage>)
    requires Plans(plan, lay) && lay.package != "."
    requires forall i :: 0 <= i < |stages| ==> Confined(stages[i])
    ensures var o := Staged(plan, files, dirs, stages);
      && FilesOutside(o.files, lay.package) == FilesOutside(files, lay.package)
      && DirsOutside(dirs, lay.package) <= DirsOutside(o.dirs, lay.package) <= DirsOutside(dirs, lay.package) + Lineage(lay.package)
    ensures Lineage(lay.package) <= dirs ==>
      DirsOutside(Staged(plan, files, dirs, stages).dirs, lay.package) == DirsOutside(dirs, lay.package)
    decreases |stages|
  {
    if |stages| > 0 {
      var init := stages[..|stages| - 1];
      StagedInside(plan, lay, files, dirs, init);
      var prev := Staged(plan, files, dirs, init);
      var stage := stages[|stages| - 1];
      var ops := plan(prev.files, prev.dirs, stage);
      assert ops == StageOps(lay, prev.files, prev.dirs, stage);
      StageOpsInside(lay, prev.files, prev.dirs, stage);
      AppliedAllInside(prev.files, prev.dirs, ops, lay.package);
    }
  }

  /** Outside `d`, `after` is `before`, except perhaps that `src` has been made executable. */
  predicate OnlyModeOutside(before: map<string, FileEntry>, after: map<string, FileEntry>, d: string, src: string) {
    || FilesOutside(after, d) == FilesOutside(before, d)
    || (src in before && FilesOutside(after, d) == FilesOutside(before, d)[src := FileEntry(before[src].content, ExecutableMode)])
  }

  /** A `chmod 0755` of a path outside `d`, after steps that kept the files outside `d`, changes there only that path's mode. */
  lemma ChmodOutside(files: map<string, FileEntry>, x: Outcome, src: string, d: string)
    requires FilesOutside(x.files, d) == FilesOutside(files, d) && !Under(src, d)
    ensures OnlyModeOutside(files, Then(x, Applied(x.files, x.dirs, ModePath(ExecutableMode, src))).files, d, src)
  {
    if x.result.Completed? && src in x.files {
      assert src in FilesOutside(x.files, d);
      var e := FileEntry(x.files[src].content, ExecutableMode);
      assert FilesOutside(x.files[src := e], d) == FilesOutside(x.files, d)[src := e];
    }
  }

  /**
   * With the `chmod` as written, staging an executable whose project file
   * lies outside the package changes, outside the package, at most one
   * thing: the mode of that project file, which becomes 0755.
   */
  lemma WrittenStagingOutside(lay: Layout, files: map<string, FileEntry>, dirs: set<string>, rel: string)
    requires lay.package != "." && CleanRelative(rel) && StartsWith(lay.project, "/")
    requires !Under(PathJoin(lay.project, rel), lay.package)
    ensures OnlyModeOutside(files, AppliedAll(files, dirs, WrittenExecutableOps(lay, dirs, rel)).files,
                            lay.package, PathJoin(lay.project, rel))
  {
    var d, src := lay.package, PathJoin(lay.project, rel);
    var copy, m, shim := CopyFileOps(lay, dirs, rel), ModePath(ExecutableMode, src), ShimOps(ShimPath(lay, rel), ExecShimOf(rel));
    WrittenModeTargetIsProjectFile(lay, rel);
    assert WrittenExecutableOps(lay, dirs, rel) == (copy + [m]) + shim;
    CopyOpsInside(lay, dirs, rel);
    AppliedAllInside(files, dirs, copy, d);
    var x := AppliedAll(files, dirs, copy);
    AppliedAllSnoc(files, dirs, copy, m);
    ChmodOutside(files, x, src, d);
    var y := AppliedAll(files, dirs, copy + [m]);
    AppliedAllAppend(files, dirs, copy + [m], shim);
    SplitParts(rel);
    JoinBelow(d, Basename(rel));
    TargetsShim(ShimPath(lay, rel), ExecShimOf(rel), d);
    AppliedAllInside(y.files, y.dirs, shim, d);
  }

  /** Both operations of a shim are aimed at its path. */
  lemma TargetsShim(p: string, shim: S.Shim, d: string)
    requires Under(p, d)
    ensures var ops := ShimOps(p, shim); forall i :: 0 <= i < |ops| ==> Targets(ops[i], d)
  {
  }

  // ---------------------------------------------------------------------
  // What `create` leaves behind

  /** A completed block completed every step; its tree is the one its last step left. */
  lemma BlockLast(steps: seq<Step>, files: map<string, FileEntry>, dirs: set<string>)
    requires |steps| > 0 && Block(steps, files, dirs).result.Completed?
    ensures var prev := Block(steps[..|steps| - 1], files, dirs);
      var y := steps[|steps| - 1](prev.files, prev.dirs);
      && prev.result.Completed? && y.result.Completed?
      && Block(steps, files, dirs).files == y.files && Block(steps, files, dirs).dirs == y.dirs
  {
    var init, last := steps[..|steps| - 1], [steps[|steps| - 1]];
    assert init + last == steps;
    BlockAppend(init, last, files, dirs);
    var prev := Block(init, files, dirs);
    assert last[1..] == [];
  }

  /** A completed `mkdir_p` of `d` followed by a copy into it leaves the copy under its basename in `d`. */
  lemma MakeThenCopyInto(files: map<string, FileEntry>, dirs: set<string>, d: string, src: string)
    requires |d| > 0
    requires AppliedAll(files, dirs, [MakePath(d), CopyPath(src, d)]).result.Completed?
    ensures var o := AppliedAll(files, dirs, [MakePath(d), CopyPath(src, d)]);
      var into := FileJoin(d, Basename(src));
      src in files && o.files == files[into := CopiedEntry(files, src, into)]
  {
    var mk, cp := MakePath(d), CopyPath(src, d);
    AppliedAllSnoc(files, dirs, [], mk);
    AppliedAllSnoc(files, dirs, [mk], cp);
    assert [mk] + [cp] == [mk, cp];
  }

  /**
   * A completed `create_archive` with an absolute build directory leaves a
   * copy of what `tar` packed from the package's top-level entries in the
   * build directory, under the archive's name: a new file with mode 0644, or
   * an earlier archive there overwritten and keeping its mode.
   */
  lemma ArchivedDelivers(host: Host, files: map<string, FileEntry>, dirs: set<string>, tmp: string, build: string, name: string)
    requires tmp != "." && StartsWith(build, "/") && SimpleName(name)
    requires Archived(host, files, dirs, tmp, build, name).result.Completed?
    ensures var o := Archived(host, files, dirs, tmp, build, name);
      var path := FileJoin(build, name);
      && path in o.files && o.files[path].content == host.packer(host.glob(tmp, "*"))
      && o.files[path].mode == if path in files && path != PathJoin(tmp, name) then files[path].mode else DefaultMode
  {
    var x := Packed(host, files, dirs, tmp, name);
    var packed := PathJoin(tmp, name);
    assert PathJoin(tmp, build) == build;
    assert !StartsWith(name, "/") by {
      assert name[0] in name;
    }
    assert packed == FileJoin(tmp, name);
    BasenameOfJoin(tmp, name);
    var y := AppliedAll(x.files, x.dirs, [MakePath(build), CopyPath(packed, build)]);
    assert Archived(host, files, dirs, tmp, build, name) == Then(x, y);
    assert x.result.Completed? && y.result.Completed?;
    assert x.files[packed] == FileEntry(host.packer(host.glob(tmp, "*")), DefaultMode);
    MakeThenCopyInto(x.files, x.dirs, build, packed);
    UmaskedModes();
  }

  /**
   * A completed `create` leaves the archive at the path it returns, holding
   * what `tar` packed, provided the build directory is absolute and the
   * archive's path is outside the temporary directory, which is removed.
   */
  lemma CreateDeliversArchive(host: Host, c: Hash, tmp: string, cwd: string, files: map<string, FileEntry>, dirs: set<string>)
    requires Ready(c) && tmp != "."
    requires StartsWith(StrOf(c, BuildDir), "/") && SimpleName(StrOf(c, ArchiveName))
    requires !Under(FileJoin(StrOf(c, BuildDir), StrOf(c, ArchiveName)), tmp)
    requires CreateOutcome(host, c, tmp, cwd, files, dirs).result.Completed?
    ensures var o := CreateOutcome(host, c, tmp, cwd, files, dirs);
      var path := FileJoin(StrOf(c, BuildDir), StrOf(c, ArchiveName));
      && CreateResult(c, o) == Ok(path)
      && path in o.files && o.files[path].content == host.packer(host.glob(tmp, "*"))
  {
    var steps := CreateSteps(host, c, tmp, cwd);
    BlockLast(steps, files, dirs);
    var prev := Block(steps[..6], files, dirs);
    assert steps[6](prev.files, prev.dirs) == ArchiveCreated(host, c, tmp, prev.files, prev.dirs);
    ArchivedDelivers(host, prev.files, prev.dirs, tmp, StrOf(c, BuildDir), StrOf(c, ArchiveName));
  }

  /**
   * `create` removes the temporary directory whatever the block did: nothing
   * below it is left, everything else is as the block left it, and the
   * block's error, if any, is what `create` raises.
   */
  lemma CreateCleansUp(host: Host, c: Hash, tmp: string, cwd: string, files: map<string, FileEntry>, dirs: set<string>)
    requires Ready(c)
    ensures var b := Created(host, c, tmp, cwd, files, dirs);
      var o := CreateOutcome(host, c, tmp, cwd, files, dirs);
      && (forall p :: p in o.files <==> p in b.files && !Under(p, tmp))
      && (forall p :: p in o.files ==> o.files[p] == b.files[p])
      && (forall p :: p in o.dirs <==> p in b.dirs && !Under(p, tmp))
      && o.result == b.result
  {
  }

  /**
   * `create_archive` runs inside the temporary directory, so a relative
   * build directory is made there, and the copy of the archive placed in it
   * is gone once `create` has removed the temporary directory.
   */
  lemma RelativeBuildDirRemoved(host: Host, c: Hash, tmp: string, cwd: string, files: map<string, FileEntry>, dirs: set<string>)
    requires Ready(c) && tmp != "." && !EndsWith(tmp, "//") && !StartsWith(StrOf(c, BuildDir), "/")
    ensures var o := CreateOutcome(host, c, tmp, cwd, files, dirs);
      FileJoin(PathJoin(tmp, StrOf(c, BuildDir)), StrOf(c, ArchiveName)) !in o.files
  {
    var b, name := StrOf(c, BuildDir), StrOf(c, ArchiveName);
    var build := PathJoin(tmp, b);
    JoinBelow(tmp, b);
    if StartsWith(name, "/") {
      JoinAbsoluteBelow(tmp, b, name);
    } else {
      UnderFileJoin(build, tmp, name);
    }
    CreateCleansUp(host, c, tmp, cwd, files, dirs);
  }

  /**
   * A name that brings its own separator, joined onto a relative path
   * resolved in `d`, stays below `d`: only the separators after `d` go.
   */
  lemma JoinAbsoluteBelow(d: string, b: string, name: string)
    requires d != "." && !EndsWith(d, "//") && !StartsWith(b, "/") && StartsWith(name, "/")
    ensures Under(FileJoin(PathJoin(d, b), name), d)
  {
    RelativeJoin(d, b);
    ChompedJoinKeeps(d, b, name);
  }

  /** A relative path other than the root's, resolved in `d`, follows `d` and one separator. */
  lemma RelativeJoin(d: string, b: string)
    requires d != "." && !StartsWith(b, "/")
    ensures PathJoin(d, b) == DirPrefix(d) + b
  {
  }

  /** The prefix `pre` of `d` survives chomping `pre + b` and appending an absolute name. */
  lemma ChompedJoinKeeps(d: string, b: string, name: string)
    requires !EndsWith(d, "//") && !StartsWith(b, "/") && StartsWith(name, "/")
    ensures var pre := DirPrefix(d); StartsWith(ChompSeparators(pre + b) + name, pre)
  {
    var pre := DirPrefix(d);
    var c := ChompSeparators(pre + b);
    if |b| > 0 {
      assert b[..1] == [b[0]];
      ChompKeepsPrefix(pre, b);
      StartsWithAppend(c, name, pre);
    } else {
      assert pre + b == pre;
      ChompDirPrefix(d);
      LeadingSeparator(c, name);
      StartsWithAppend(c + "/", name[1..], pre);
    }
  }

  /** Chomping a path that continues past `pre` with a non-separator keeps `pre`. */
  lemma ChompKeepsPrefix(pre: string, b: string)
    requires |b| > 0 && b[0] != '/'
    ensures StartsWith(ChompSeparators(pre + b), pre)
  {
    var t := pre + b;
    assert t[|pre|] != '/';
  }

  /** A directory's prefix chomps back to the directory without its separator. */
  lemma ChompDirPrefix(d: string)
    requires !EndsWith(d, "//")
    ensures ChompSeparators(DirPrefix(d)) + "/" == DirPrefix(d)
  {
    ChompSingle(d);
    var pre := DirPrefix(d);
    if EndsWith(d, "/") {
      assert pre == d;
    } else {
      assert pre[..|pre| - 1] == d;
      assert |d| == 0 || d[|d| - 1] != '/';
    }
  }
}
